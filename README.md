# CoiniumServ Redis storage adapter, modelled in Dafny

CoiniumServ's Redis adapter stores a mining pool's accounting state in a Redis database. It keeps a hash per
round mapping miner to summed share difficulty, a stats hash with four counters, a hashrate sorted set, and a
pending-blocks sorted set. It also reads pending blocks and the shares of sealed rounds back for the payment
processor. Every key starts with the lower-cased coin name:

| key | type | content |
|---|---|---|
| `<coin>:shares:round:current` | hash | username → summed difficulty of the open round |
| `<coin>:shares:round:<height>` | hash | the same, sealed when a block is accepted |
| `<coin>:stats` | hash | `validShares`, `invalidShares`, `validBlocks`, `invalidBlocks` |
| `<coin>:shares:hashrate` | sorted set | member `<difficulty>:<username>`, score = unix time |
| `<coin>:blocks:pending` | sorted set | member `<blockHash>:<first tx>`, score = block height |

The model has six modules:

- `Store` (store.dfy): the Redis keyspace as a value. A key holds either a `Hash` (field → integer) or a
  `SortedSet`. A sorted set is kept in Redis order: ascending score, ties broken by member text, each member
  once. The three commands the adapter sends (HINCRBY, ZADD, RENAME) are functions on that value. A batch is
  its commands applied in order (`Run`). A command Redis refuses changes nothing, like a fire-and-forget
  command whose error nobody reads. Redis refuses a write to a key of the other type (WRONGTYPE) and a
  RENAME of a missing key.
- `Keys` (keys.dfy): the key families and the two member encodings, with their distinctness.
- `Text` (text.dfy): ASCII lower-casing, decimal rendering of numbers, `String.Split(char)` and the member
  order.
- `Versions` (versions.dfy): the server-version gate of initialization.
- `Persistence` (persistence.dfy): the class `Redis`. It has the enabled flag, the coin name and the store
  state. Its methods are the adapter's operations. `AfterShare` and `AfterBlock` are functions giving the
  store after one share or block result. The lemmas state what those functions promise.
- `Results` (results.dfy): `Option` and `Result`.

Where this model follows the code rather than the design description of the adapter:

- An invalid share still credits the current round. The increment on line 74 is unconditional.
- The round is sealed under `share.Height` (line 108). The pending entry is scored with `share.Block.Height`
  (line 117). These are two separate inputs here.
- If the INFO reply has no `redis_version` field, the adapter stays enabled.
- The read and write operations can still raise errors, and each is modelled as a `Fault` result:
  - an empty transaction list: `First()` fails, so the batch never runs;
  - a pending member without `:`: the index is out of range;
  - a repeated round height: `Dictionary.Add` fails;
  - a read of a key holding the wrong type: the server reply raises an error.
- A hashrate sample is a ZADD. If the same user submits a second valid share with the same difficulty, the
  existing member only gets a new score. The set does not grow.

## Model

| member | source | states |
|---|---|---|
| `Persistence.Redis.constructor` | src/CoiniumServ/Persistance/Redis/Redis.cs:52-60 | the adapter is enabled exactly when the configuration enables it, the connection succeeds, the server returns INFO and the version gate passes |
| `Persistence.Redis.Initialize` | src/CoiniumServ/Persistance/Redis/Redis.cs:175-221 | a failed connection, a missing INFO section, an unparsable version or a version below 2.6 disables the adapter; otherwise the enabled flag is kept; the result is the version or the cause that is logged |
| `Versions.ScanVersion` | src/CoiniumServ/Persistance/Redis/Redis.cs:199-212 | the loop stops at the first `redis_version` pair; it passes when there is no such pair or when that pair parses to a version not below 2.6, and fails otherwise |
| `Versions.Lookup` | src/CoiniumServ/Persistance/Redis/Redis.cs:202-211 | the first pair with the key is found, and none is found only when no pair has that key |
| `Versions.BelowMinimum` | src/CoiniumServ/Persistance/Redis/Redis.cs:44 | against the minimum 2.6, a version is too old exactly when major < 2, or major = 2 and minor < 6 |
| `Persistence.Redis.Execute` | src/CoiniumServ/Persistance/Redis/Redis.cs:93 | executing a batch applies its commands in order and keeps every sorted set in order |
| `Persistence.Redis.CommitShare` | src/CoiniumServ/Persistance/Redis/Redis.cs:62-94 | when disabled or disconnected the store is unchanged; otherwise the store becomes `AfterShare` of the old store and the lower-cased coin |
| `Persistence.CommitShareCreditsRound` | src/CoiniumServ/Persistance/Redis/Redis.cs:73-74 | the username's field of the current-round hash grows by exactly the difficulty, for valid and invalid shares; the other fields are unchanged |
| `Persistence.CommitShareCountsOnce` | src/CoiniumServ/Persistance/Redis/Redis.cs:79-80 | exactly one of `validShares`/`invalidShares`, chosen by validity, grows by exactly 1; every other stats field is unchanged |
| `Persistence.CommitShareSamplesHashrate` | src/CoiniumServ/Persistance/Redis/Redis.cs:86-91 | a valid share puts `<difficulty>:<username>` into the hashrate set scored with the time and keeps every other member; an invalid share leaves the set untouched |
| `Persistence.CommitShareFrame` | src/CoiniumServ/Persistance/Redis/Redis.cs:67-93 | no key except the current round, the stats and (for a valid share) the hashrate set changes |
| `Persistence.Redis.CommitBlock` | src/CoiniumServ/Persistance/Redis/Redis.cs:96-127 | when disabled or disconnected the store is unchanged; otherwise the store becomes `AfterBlock` of the old store, or stays as it was when that is a fault |
| `Persistence.CommitBlockFault` | src/CoiniumServ/Persistance/Redis/Redis.cs:116 | recording a block fails exactly when it is accepted and has no transactions |
| `Persistence.CommitBlockSealsRound` | src/CoiniumServ/Persistance/Redis/Redis.cs:104-109 | an accepted block moves the current round to the key of `share.Height`, overwriting it, and the current round key no longer exists; without a current round the target is kept |
| `Persistence.CommitBlockQueuesPending` | src/CoiniumServ/Persistance/Redis/Redis.cs:111-117 | an accepted block puts `<hash>:<first tx>` into the pending set with score `Block.Height` and keeps every other member |
| `Persistence.CommitBlockCountsOnce` | src/CoiniumServ/Persistance/Redis/Redis.cs:120-124 | exactly one of `validBlocks`/`invalidBlocks`, chosen by acceptance, grows by exactly 1; every other stats field is unchanged |
| `Persistence.CommitBlockFrame` | src/CoiniumServ/Persistance/Redis/Redis.cs:104-124 | only the two round keys, the pending set and the stats can change; a rejected block changes only the stats (no rename, no pending entry) |
| `Persistence.DecodePending` | src/CoiniumServ/Persistance/Redis/Redis.cs:144-147 | a member decodes exactly when it contains `:`; the record is Pending with the score as height; otherwise the fault names the member |
| `Persistence.PendingRoundTrip` | src/CoiniumServ/Persistance/Redis/Redis.cs:116 | decoding the member made from a hash and a transaction without `:` gives back that hash and transaction |
| `Persistence.PendingKeepsHash` | src/CoiniumServ/Persistance/Redis/Redis.cs:144-146 | with a `:`-free hash the hash comes back exactly and the transaction comes back as its prefix up to the first `:`, or whole when it has none (the second `:`-separated piece) |
| `Persistence.CommittedBlockIsPending` | src/CoiniumServ/Persistance/Redis/Redis.cs:115-117 | after an accepted block is recorded, the pending set holds an entry that decodes to that block's hash, first transaction and height |
| `Persistence.Redis.GetPendingBlocks` | src/CoiniumServ/Persistance/Redis/Redis.cs:129-152 | empty when disabled or disconnected; otherwise one decoded record per pending member, in ascending height order; a fault at the first member without `:`, or when the key is a hash |
| `Persistence.Redis.GetSharesForRounds` | src/CoiniumServ/Persistance/Redis/Redis.cs:154-173 | empty when disabled or disconnected; otherwise exactly one entry per requested height, holding that round's stored fields, or an empty map for a missing round; a fault at the first round whose key is a sorted set or whose height was already requested |
| `Keys.KeysDistinct` | src/CoiniumServ/Persistance/Redis/Redis.cs:101-123 | within one coin, the current round, a sealed round, the stats, the hashrate set and the pending set are five different keys |
| `Keys.RoundKeyInjective` | src/CoiniumServ/Persistance/Redis/Redis.cs:108 | rounds sealed at different heights get different keys |
| `Store.UpsertSpec` | src/CoiniumServ/Persistance/Redis/Redis.cs:90 | ZADD keeps a sorted set ordered with each member once, and afterwards it holds the member with its new score plus every other member |
| `Persistence.SubmitValidShare` | src/CoiniumServ/Persistance/Redis/Redis.cs:62-94 | a valid share, seen from the client, adds its difficulty to the miner's field of the current round and 1 to the valid-share counter |
| `Persistence.RoundLifecycle` | src/CoiniumServ/Persistance/Redis/Redis.cs:62-127 | three valid shares (a 10, b 5, a 3) followed by an accepted block leave no current round and a sealed round under the share's height holding a: 13, b: 5, and the valid-share counter 3 higher |
| `Persistence.SealRound` | src/CoiniumServ/Persistance/Redis/Redis.cs:96-127 | an accepted block, seen from the client, files the current round under the share's height, removes it as the current round and leaves the valid-share counter as it was |

## Left out

- Connection setup is not modelled: the multiplexer, the endpoint, the password, database and server
  selection, and blocking on tasks. Whether connecting succeeded is a boolean input. `IsConnected` is a
  boolean parameter of each operation.
- Batch non-atomicity, pipelining and the command flags are not modelled. A batch is its commands applied
  in order.
- Logging is left out. `Initialize` returns the version or the failure cause that it would log.
- Difficulty is a natural number and every stored number is an integer. Fractional difficulties, the
  floating-point HINCRBYFLOAT sum and the rendering of a double in a member are not modelled.
- The `(UInt32)` cast of a score is not modelled: a decoded height is the integer score. Heights are
  unbounded naturals, not 32-bit.
- The current time is a parameter of `CommitShare`.
- The block hash arrives as text: `ToHexString` is not part of this model.
- Version-string parsing is a function parameter. The version is (major, minor, optional build),
  compared lexicographically against 2.6.
- `ToLower` maps only ASCII letters. Culture-specific casing is not modelled. Sorted-set ties are ordered
  by character, which is Redis's byte order for ASCII members.
- Null references are not modelled: a null share, block or pool configuration.
- Redis behaviour beyond what the adapter relies on is not modelled. A refused command changes nothing;
  RENAME overwrites its target.
