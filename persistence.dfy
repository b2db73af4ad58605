/**
 * The Redis storage adapter of the mining pool: it records shares and blocks
 * into the store in batches and reads back pending blocks and the shares of
 * sealed rounds. All keys belong to the lower-cased coin name.
 */
module Persistence {
  import opened Results
  import opened Text
  import opened Store
  import opened Keys
  import opened Versions

  /** The block a share found: its height and its transaction hashes. */
  datatype Block = Block(height: nat, tx: seq<string>)

  /**
   * A share result. `height` and `block.height` are separate inputs: the
   * round is sealed under the first, the pending block is scored with the
   * second. `blockHash` is the hash already rendered as hex text.
   */
  datatype Share = Share(
    username: string,
    difficulty: nat,
    isValid: bool,
    isBlockAccepted: bool,
    height: nat,
    blockHash: string,
    block: Block)

  datatype PersistedBlockStatus = Pending

  datatype PersistedBlock = PersistedBlock(
    status: PersistedBlockStatus,
    height: int,
    blockHash: string,
    transactionHash: string)

  /** Errors that escape an operation as exceptions. */
  datatype Fault =
    | Server(error: StoreError)
    | MalformedPendingMember(member: string)
    | DuplicateRound(height: nat)
    | NoTransactions

  function ShareCounter(isValid: bool): string { if isValid then "validShares" else "invalidShares" }

  function BlockCounter(isAccepted: bool): string { if isAccepted then "validBlocks" else "invalidBlocks" }

  /** The store after one share is recorded. */
  function AfterShare(db: Db, coin: string, share: Share, now: int): Db
  {
    var credited := HashIncrement(db, CurrentRoundKey(coin), share.username, share.difficulty);
    var counted := HashIncrement(credited, StatsKey(coin), ShareCounter(share.isValid), 1);
    if share.isValid
    then SortedSetAdd(counted, HashrateKey(coin), HashrateMember(share.difficulty, share.username), now)
    else counted
  }

  /**
   * The store after one block result is recorded, or the fault that stops
   * the batch before it runs (an accepted block without transactions).
   */
  function AfterBlock(db: Db, coin: string, share: Share): Result<Db, Fault>
  {
    if share.isBlockAccepted && share.block.tx == [] then Err(NoTransactions)
    else
      var queued :=
        if share.isBlockAccepted
        then SortedSetAdd(KeyRename(db, CurrentRoundKey(coin), RoundKey(coin, share.height)),
                          PendingKey(coin), PendingMember(share.blockHash, share.block.tx[0]), share.block.height)
        else db;
      Ok(HashIncrement(queued, StatsKey(coin), BlockCounter(share.isBlockAccepted), 1))
  }

  /**
   * A pending-block member read back: hash and transaction are the first two
   * ':'-separated pieces, the height is the score; a member without ':' has no
   * second piece and is a fault.
   */
  function DecodePending(e: Entry): (r: Result<PersistedBlock, Fault>)
    ensures r.Err? <==> ':' !in e.member
    ensures r.Err? ==> r.error == MalformedPendingMember(e.member)
    ensures r.Ok? ==> r.value.status == Pending && r.value.height == e.score
  {
    SplitHasTwoPieces(e.member, ':');
    var data := Split(e.member, ':');
    if |data| < 2 then Err(MalformedPendingMember(e.member))
    else Ok(PersistedBlock(Pending, e.score, data[0], data[1]))
  }

  /** A fault of round `i` of a shares query: its key holds a sorted set, or its height was asked for before. */
  predicate RoundFault(db: Db, coin: string, rounds: seq<nat>, i: nat)
    requires i < |rounds|
  {
    IsSortedSet(db, RoundKey(coin, rounds[i])) || rounds[i] in rounds[..i]
  }

  /** A share credits the current round with its difficulty, valid or not. */
  lemma CommitShareCreditsRound(db: Db, coin: string, share: Share, now: int)
    ensures var key := CurrentRoundKey(coin);
      var after := AfterShare(db, coin, share, now);
      && (!IsSortedSet(db, key) ==>
            && IsHash(after, key)
            && HashOf(after, key) == HashOf(db, key)[share.username := FieldOf(HashOf(db, key), share.username) + share.difficulty])
      && (IsSortedSet(db, key) ==> At(after, key) == At(db, key))
  {
  }

  /** A share adds exactly 1 to exactly one of the two share counters, chosen by its validity. */
  lemma CommitShareCountsOnce(db: Db, coin: string, share: Share, now: int)
    ensures var key := StatsKey(coin);
      var before, after := HashOf(db, key), HashOf(AfterShare(db, coin, share, now), key);
      !IsSortedSet(db, key) ==>
        && !IsSortedSet(AfterShare(db, coin, share, now), key)
        && FieldOf(after, "validShares") == FieldOf(before, "validShares") + (if share.isValid then 1 else 0)
        && FieldOf(after, "invalidShares") == FieldOf(before, "invalidShares") + (if share.isValid then 0 else 1)
        && forall f :: f != "validShares" && f != "invalidShares" ==> FieldOf(after, f) == FieldOf(before, f)
  {
  }

  /**
   * A valid share records the sample "<difficulty>:<username>" scored with the
   * time; an invalid one leaves the hashrate set as it was.
   */
  lemma CommitShareSamplesHashrate(db: Db, coin: string, share: Share, now: int)
    ensures var key, member := HashrateKey(coin), HashrateMember(share.difficulty, share.username);
      var after := AfterShare(db, coin, share, now);
      && (share.isValid && !IsHash(db, key) ==>
            forall e :: e in EntriesOf(after, key) <==> e == Entry(member, now) || (e in EntriesOf(db, key) && e.member != member))
      && (!share.isValid ==> At(after, key) == At(db, key))
  {
  }

  /** A share touches only the current round, the stats and, when valid, the hashrate set. */
  lemma CommitShareFrame(db: Db, coin: string, share: Share, now: int)
    ensures forall k :: k != CurrentRoundKey(coin) && k != StatsKey(coin) && (k != HashrateKey(coin) || !share.isValid) ==>
      At(AfterShare(db, coin, share, now), k) == At(db, k)
  {
  }

  /** Recording a block fails only for an accepted block without transactions. */
  lemma CommitBlockFault(db: Db, coin: string, share: Share)
    ensures AfterBlock(db, coin, share).Err? <==> share.isBlockAccepted && share.block.tx == []
  {
  }

  /**
   * An accepted block renames the current round to the round of `share.height`,
   * replacing whatever that key held; the current round is gone afterwards.
   * Without a current round the rename is refused and the target is kept.
   */
  lemma CommitBlockSealsRound(db: Db, coin: string, share: Share)
    requires share.isBlockAccepted && share.block.tx != []
    ensures var current, sealed := CurrentRoundKey(coin), RoundKey(coin, share.height);
      var after := AfterBlock(db, coin, share).value;
      && current !in after
      && (current in db ==> At(after, sealed) == Some(db[current]))
      && (current !in db ==> At(after, sealed) == At(db, sealed))
  {
    KeysDistinct(coin, share.height);
  }

  /** An accepted block queues "<hash>:<first tx>" with the block's height as score. */
  lemma CommitBlockQueuesPending(db: Db, coin: string, share: Share)
    requires share.isBlockAccepted && share.block.tx != []
    ensures var key, member := PendingKey(coin), PendingMember(share.blockHash, share.block.tx[0]);
      var after := AfterBlock(db, coin, share).value;
      !IsHash(db, key) ==>
        forall e :: e in EntriesOf(after, key) <==>
          e == Entry(member, share.block.height) || (e in EntriesOf(db, key) && e.member != member)
  {
    KeysDistinct(coin, share.height);
  }

  /** A block result adds exactly 1 to exactly one block counter, chosen by acceptance. */
  lemma CommitBlockCountsOnce(db: Db, coin: string, share: Share)
    requires AfterBlock(db, coin, share).Ok?
    ensures var key := StatsKey(coin);
      var before, after := HashOf(db, key), HashOf(AfterBlock(db, coin, share).value, key);
      !IsSortedSet(db, key) ==>
        && FieldOf(after, "validBlocks") == FieldOf(before, "validBlocks") + (if share.isBlockAccepted then 1 else 0)
        && FieldOf(after, "invalidBlocks") == FieldOf(before, "invalidBlocks") + (if share.isBlockAccepted then 0 else 1)
        && forall f :: f != "validBlocks" && f != "invalidBlocks" ==> FieldOf(after, f) == FieldOf(before, f)
  {
  }

  /**
   * A block result touches only the two round keys, the pending set and the
   * stats; a rejected block touches only the stats.
   */
  lemma CommitBlockFrame(db: Db, coin: string, share: Share)
    requires AfterBlock(db, coin, share).Ok?
    ensures var after := AfterBlock(db, coin, share).value;
      && (forall k :: k != CurrentRoundKey(coin) && k != RoundKey(coin, share.height) && k != PendingKey(coin) && k != StatsKey(coin) ==>
            At(after, k) == At(db, k))
      && (!share.isBlockAccepted ==> forall k :: k != StatsKey(coin) ==> At(after, k) == At(db, k))
  {
  }

  /** Decoding a pending member gives back the hash and transaction it was made of. */
  lemma PendingRoundTrip(blockHash: string, tx: string, height: nat)
    requires ':' !in blockHash && ':' !in tx
    ensures DecodePending(Entry(PendingMember(blockHash, tx), height)) == Ok(PersistedBlock(Pending, height, blockHash, tx))
  {
    SplitAtFirstSeparator(blockHash, ':', tx);
    SplitWithoutSeparator(tx, ':');
  }

  /**
   * With a ':'-free hash, decoding keeps the hash exactly; a transaction
   * containing ':' comes back cut at its first ':'.
   */
  lemma PendingKeepsHash(blockHash: string, tx: string, height: nat)
    requires ':' !in blockHash
    ensures var r := DecodePending(Entry(PendingMember(blockHash, tx), height));
      && r.Ok? && r.value.blockHash == blockHash
      && r.value.transactionHash <= tx && ':' !in r.value.transactionHash
      && (r.value.transactionHash == tx || tx[|r.value.transactionHash|] == ':')
  {
    SplitAtFirstSeparator(blockHash, ':', tx);
    SplitFirstPiece(tx, ':');
    SplitFirstPieceMaximal(tx, ':');
  }

  /** A block that was recorded as accepted is read back by the pending-block query. */
  lemma CommittedBlockIsPending(db: Db, coin: string, share: Share)
    requires share.isBlockAccepted && share.block.tx != []
    requires ':' !in share.blockHash && ':' !in share.block.tx[0]
    requires !IsHash(db, PendingKey(coin))
    ensures exists e :: (e in EntriesOf(AfterBlock(db, coin, share).value, PendingKey(coin))
                         && DecodePending(e) == Ok(PersistedBlock(Pending, share.block.height, share.blockHash, share.block.tx[0])))
  {
    CommitBlockQueuesPending(db, coin, share);
    PendingRoundTrip(share.blockHash, share.block.tx[0], share.block.height);
    var e := Entry(PendingMember(share.blockHash, share.block.tx[0]), share.block.height);
    assert e in EntriesOf(AfterBlock(db, coin, share).value, PendingKey(coin));
  }

  class Redis {
    var isEnabled: bool
    const coinName: string
    /** The state of the external store. */
    var db: Db

    ghost predicate Valid()
      reads this
    {
      Store.Valid(db)
    }

    /**
     * The adapter takes its enabled flag from the configuration and, when
     * enabled, initializes the connection.
     */
    constructor (configEnabled: bool, coinName: string, db: Db,
                 connectOk: bool, info: seq<seq<(string, string)>>, parse: string -> Option<Version>)
      requires Store.Valid(db)
      ensures Valid() && this.coinName == coinName && this.db == db
      ensures isEnabled <==> configEnabled && connectOk && |info| > 0 && VersionGate(info[0], parse).Ok?
    {
      this.isEnabled := configEnabled;
      this.coinName := coinName;
      this.db := db;
      new;
      if isEnabled {
        var _ := Initialize(connectOk, info, parse);
      }
    }

    /**
     * Connects, reads the server's INFO reply and checks its version. Any
     * failure disables the adapter for good; the outcome is what gets logged.
     */
    method Initialize(connectOk: bool, info: seq<seq<(string, string)>>, parse: string -> Option<Version>)
      returns (outcome: Result<Option<Version>, InitFault>)
      modifies this`isEnabled
      ensures !connectOk ==> outcome == Err(ConnectFailed)
      ensures connectOk && info == [] ==> outcome == Err(NoServerInfo)
      ensures connectOk && info != [] ==> outcome == VersionGate(info[0], parse)
      ensures isEnabled == (old(isEnabled) && outcome.Ok?)
    {
      if !connectOk {
        isEnabled := false;
        return Err(ConnectFailed);
      }
      if info == [] {
        isEnabled := false;
        return Err(NoServerInfo);
      }
      outcome := ScanVersion(info[0], parse);
      if outcome.Err? {
        isEnabled := false;
      }
    }

    /** Sends a batch to the store: its commands take effect in order. */
    method Execute(batch: seq<Command>)
      requires Valid()
      modifies this`db
      ensures Valid()
      ensures db == Run(old(db), batch)
    {
      var i := 0;
      while i < |batch|
        invariant 0 <= i <= |batch|
        invariant Store.Valid(db)
        invariant Run(db, batch[i..]) == Run(old(db), batch)
      {
        ApplyValid(db, batch[i]);
        assert batch[i..][1..] == batch[i + 1..];
        db := Apply(db, batch[i]);
        i := i + 1;
      }
    }

    method CommitShare(share: Share, isConnected: bool, now: int)
      requires Valid()
      modifies this`db
      ensures Valid()
      ensures !isEnabled || !isConnected ==> db == old(db)
      ensures isEnabled && isConnected ==> db == AfterShare(old(db), Lower(coinName), share, now)
    {
      if !isEnabled || !isConnected {
        return;
      }
      var coin := Lower(coinName);
      var batch: seq<Command> := [];
      var round := HIncrBy(CurrentRoundKey(coin), share.username, share.difficulty);
      RunSnoc(db, batch, round);
      batch := batch + [round];
      var stats := HIncrBy(StatsKey(coin), ShareCounter(share.isValid), 1);
      RunSnoc(db, batch, stats);
      batch := batch + [stats];
      if share.isValid {
        var sample := ZAdd(HashrateKey(coin), HashrateMember(share.difficulty, share.username), now);
        RunSnoc(db, batch, sample);
        batch := batch + [sample];
      }
      Execute(batch);
    }

    method CommitBlock(share: Share, isConnected: bool) returns (r: Result<(), Fault>)
      requires Valid()
      modifies this`db
      ensures Valid()
      ensures !isEnabled || !isConnected ==> db == old(db) && r == Ok(())
      ensures isEnabled && isConnected ==>
        match AfterBlock(old(db), Lower(coinName), share)
        case Ok(after) => db == after && r == Ok(())
        case Err(e) => db == old(db) && r == Err(e)
    {
      if !isEnabled || !isConnected {
        return Ok(());
      }
      var coin := Lower(coinName);
      var batch: seq<Command> := [];
      if share.isBlockAccepted {
        var seal := Rename(CurrentRoundKey(coin), RoundKey(coin, share.height));
        RunSnoc(db, batch, seal);
        batch := batch + [seal];
        if share.block.tx == [] {
          // the first transaction is looked up before the batch runs
          return Err(NoTransactions);
        }
        var pending := ZAdd(PendingKey(coin), PendingMember(share.blockHash, share.block.tx[0]), share.block.height);
        RunSnoc(db, batch, pending);
        batch := batch + [pending];
      }
      var stats := HIncrBy(StatsKey(coin), BlockCounter(share.isBlockAccepted), 1);
      RunSnoc(db, batch, stats);
      batch := batch + [stats];
      Execute(batch);
      r := Ok(());
    }

    method GetPendingBlocks(isConnected: bool) returns (r: Result<seq<PersistedBlock>, Fault>)
      requires Valid()
      ensures !isEnabled || !isConnected ==> r == Ok([])
      ensures isEnabled && isConnected && IsHash(db, PendingKey(Lower(coinName))) ==>
        r == Err(Server(WrongType(PendingKey(Lower(coinName)))))
      ensures isEnabled && isConnected && !IsHash(db, PendingKey(Lower(coinName))) ==>
        var es := EntriesOf(db, PendingKey(Lower(coinName)));
        && (r.Ok? <==> forall i :: 0 <= i < |es| ==> ':' in es[i].member)
        && (r.Ok? ==> |r.value| == |es| && forall i :: 0 <= i < |es| ==> DecodePending(es[i]) == Ok(r.value[i]))
        && (r.Err? ==> exists i :: 0 <= i < |es| && ':' !in es[i].member
                                   && (forall j :: 0 <= j < i ==> ':' in es[j].member)
                                   && r.error == MalformedPendingMember(es[i].member))
      ensures r.Ok? ==> forall i, j :: 0 <= i < j < |r.value| ==> r.value[i].height <= r.value[j].height
    {
      var list: seq<PersistedBlock> := [];
      if !isEnabled || !isConnected {
        return Ok(list);
      }
      var coin := Lower(coinName);
      var key := PendingKey(coin);
      var results := SortedSetRange(db, key);
      if results.Err? {
        return Err(Server(results.error));
      }
      var es := results.value;
      assert es == EntriesOf(db, PendingKey(Lower(coinName)));
      assert WellFormed(es);
      var i := 0;
      while i < |es|
        invariant 0 <= i <= |es|
        invariant |list| == i
        invariant forall j :: 0 <= j < i ==> ':' in es[j].member && DecodePending(es[j]) == Ok(list[j])
      {
        var data := Split(es[i].member, ':');
        SplitHasTwoPieces(es[i].member, ':');
        if |data| < 2 {
          assert ':' !in es[i].member;
          return Err(MalformedPendingMember(es[i].member));
        }
        list := list + [PersistedBlock(Pending, es[i].score, data[0], data[1])];
        i := i + 1;
      }
      r := Ok(list);
      forall a, b | 0 <= a < b < |list| ensures list[a].height <= list[b].height {
        assert Before(es[a], es[b]);
      }
    }

    method GetSharesForRounds(rounds: seq<nat>, isConnected: bool)
      returns (r: Result<map<nat, map<string, int>>, Fault>)
      ensures !isEnabled || !isConnected ==> r == Ok(map[])
      ensures isEnabled && isConnected ==>
        var coin := Lower(coinName);
        && (r.Ok? <==> forall i :: 0 <= i < |rounds| ==> !RoundFault(db, coin, rounds, i))
        && (r.Ok? ==> r.value.Keys == (set h | h in rounds))
        && (r.Ok? ==> forall h :: h in r.value ==> r.value[h] == HashOf(db, RoundKey(coin, h)))
        && (r.Err? ==> exists i :: 0 <= i < |rounds| && RoundFault(db, coin, rounds, i)
                                   && (forall j :: 0 <= j < i ==> !RoundFault(db, coin, rounds, j))
                                   && r.error == if IsSortedSet(db, RoundKey(coin, rounds[i]))
                                                 then Server(WrongType(RoundKey(coin, rounds[i])))
                                                 else DuplicateRound(rounds[i]))
    {
      var sharesForRounds: map<nat, map<string, int>> := map[];
      if !isEnabled || !isConnected {
        return Ok(sharesForRounds);
      }
      var coin := Lower(coinName);
      var i := 0;
      while i < |rounds|
        invariant 0 <= i <= |rounds|
        invariant forall j :: 0 <= j < i ==> !RoundFault(db, coin, rounds, j)
        invariant sharesForRounds.Keys == set h | h in rounds[..i]
        invariant forall h :: h in sharesForRounds ==> sharesForRounds[h] == HashOf(db, RoundKey(coin, h))
      {
        var key := RoundKey(coin, rounds[i]);
        var hashes := HashGetAll(db, key);
        if hashes.Err? {
          assert RoundFault(db, coin, rounds, i);
          assert coin == Lower(coinName);
          return Err(Server(hashes.error));
        }
        if rounds[i] in sharesForRounds {
          assert RoundFault(db, coin, rounds, i);
          return Err(DuplicateRound(rounds[i]));
        }
        assert rounds[..i + 1] == rounds[..i] + [rounds[i]];
        sharesForRounds := sharesForRounds[rounds[i] := hashes.value];
        i := i + 1;
      }
      assert rounds[..i] == rounds;
      r := Ok(sharesForRounds);
    }
  }

  /** A share with only a miner, a difficulty and a validity. */
  function ValidShare(username: string, difficulty: nat): Share
  {
    Share(username, difficulty, true, false, 0, "", Block(0, []))
  }

  /**
   * One valid share from the client's side: the current round credits the
   * miner with the difficulty and the valid-share counter grows by one.
   */
  method SubmitValidShare(r: Redis, username: string, difficulty: nat, now: int)
    requires r.Valid() && r.isEnabled
    requires !IsSortedSet(r.db, CurrentRoundKey(Lower(r.coinName))) && !IsSortedSet(r.db, StatsKey(Lower(r.coinName)))
    modifies r`db
    ensures r.Valid()
    ensures var coin := Lower(r.coinName);
      var rk, sk := CurrentRoundKey(coin), StatsKey(coin);
      && IsHash(r.db, rk) && !IsSortedSet(r.db, sk)
      && HashOf(r.db, rk) == HashOf(old(r.db), rk)[username := FieldOf(HashOf(old(r.db), rk), username) + difficulty]
      && FieldOf(HashOf(r.db, sk), "validShares") == FieldOf(HashOf(old(r.db), sk), "validShares") + 1
  {
    var coin := Lower(r.coinName);
    CommitShareCreditsRound(r.db, coin, ValidShare(username, difficulty), now);
    CommitShareCountsOnce(r.db, coin, ValidShare(username, difficulty), now);
    r.CommitShare(ValidShare(username, difficulty), true, now);
  }

  /**
   * An accepted block from the client's side: the current round is filed
   * under the share's height and is gone as the current round, and the
   * valid-share counter is left as it was.
   */
  method SealRound(r: Redis, found: Share)
    requires r.Valid() && r.isEnabled
    requires CurrentRoundKey(Lower(r.coinName)) in r.db && !IsSortedSet(r.db, StatsKey(Lower(r.coinName)))
    requires found.isBlockAccepted && found.block.tx != []
    modifies r`db
    ensures var coin := Lower(r.coinName);
      var rk, sk := CurrentRoundKey(coin), StatsKey(coin);
      && rk !in r.db
      && At(r.db, RoundKey(coin, found.height)) == At(old(r.db), rk)
      && FieldOf(HashOf(r.db, sk), "validShares") == FieldOf(HashOf(old(r.db), sk), "validShares")
  {
    var coin := Lower(r.coinName);
    CommitBlockSealsRound(r.db, coin, found);
    CommitBlockCountsOnce(r.db, coin, found);
    var _ := r.CommitBlock(found, true);
  }

  /**
   * The round life cycle as a client of the adapter sees it. With no current
   * round, miner `a` submits difficulty 10, miner `b` 5 and `a` again 3, all
   * valid; then a share whose block the network accepted arrives. The sealed
   * round, filed under that share's height, holds a: 13 and b: 5, no current
   * round is left, and the valid-share counter has grown by 3.
   */
  method RoundLifecycle(r: Redis, a: string, b: string, found: Share)
    requires r.Valid() && r.isEnabled
    requires a != b
    requires CurrentRoundKey(Lower(r.coinName)) !in r.db && !IsSortedSet(r.db, StatsKey(Lower(r.coinName)))
    requires found.isBlockAccepted && found.block.tx != []
    modifies r`db
    ensures var coin := Lower(r.coinName);
      && CurrentRoundKey(coin) !in r.db
      && HashOf(r.db, RoundKey(coin, found.height)) == map[a := 13, b := 5]
      && FieldOf(HashOf(r.db, StatsKey(coin)), "validShares") == FieldOf(HashOf(old(r.db), StatsKey(coin)), "validShares") + 3
  {
    var coin := Lower(r.coinName);
    var rk := CurrentRoundKey(coin);
    SubmitValidShare(r, a, 10, 1);
    assert HashOf(r.db, rk) == map[a := 10];
    SubmitValidShare(r, b, 5, 2);
    assert HashOf(r.db, rk) == map[a := 10, b := 5];
    SubmitValidShare(r, a, 3, 3);
    assert HashOf(r.db, rk) == map[a := 13, b := 5];
    SealRound(r, found);
  }
}
