/**
 * The key-value store as the adapter sees it: one keyspace whose keys hold
 * either a hash (field to number) or a sorted set (members ordered by score,
 * then by member text). Writes are the three commands the adapter issues
 * (HINCRBY, ZADD, RENAME); a batch is its commands applied in order, and a
 * command the server refuses (a key of the other type, a RENAME whose
 * source is missing) is dropped without changing anything, as a
 * fire-and-forget command in a batch is.
 */
module Store {
  import opened Results
  import opened Text

  /** One sorted-set member with its score. */
  datatype Entry = Entry(member: string, score: int)

  datatype Value = Hash(fields: map<string, int>) | SortedSet(entries: seq<Entry>)

  type Db = map<string, Value>

  /** The server's reply to a command on a key holding the other type. */
  datatype StoreError = WrongType(key: string)

  /** The order of a sorted set: ascending score, ties by member text. */
  predicate Before(x: Entry, y: Entry)
  {
    x.score < y.score || (x.score == y.score && StringLess(x.member, y.member))
  }

  /** A sorted set as the server keeps it: in order, each member once. */
  predicate WellFormed(es: seq<Entry>)
  {
    forall i, j :: 0 <= i < j < |es| ==> Before(es[i], es[j]) && es[i].member != es[j].member
  }

  /**
   * Every sorted set in the store is well formed, and no key holds an empty
   * hash or an empty sorted set: the server deletes a key once it is empty.
   */
  predicate Valid(db: Db)
  {
    forall k :: k in db ==>
      && (db[k].SortedSet? ==> WellFormed(db[k].entries) && db[k].entries != [])
      && (db[k].Hash? ==> db[k].fields != map[])
  }

  function At(db: Db, key: string): Option<Value>
  {
    if key in db then Some(db[key]) else None
  }

  predicate IsHash(db: Db, key: string) { key in db && db[key].Hash? }

  predicate IsSortedSet(db: Db, key: string) { key in db && db[key].SortedSet? }

  /** The fields of a hash key; a missing key reads as an empty hash. */
  function HashOf(db: Db, key: string): map<string, int>
  {
    if IsHash(db, key) then db[key].fields else map[]
  }

  /** The members of a sorted-set key in order; a missing key reads as empty. */
  function EntriesOf(db: Db, key: string): seq<Entry>
  {
    if IsSortedSet(db, key) then db[key].entries else []
  }

  /** A hash field read as a number; a missing field counts as 0. */
  function FieldOf(h: map<string, int>, field: string): int
  {
    if field in h then h[field] else 0
  }

  lemma BeforeTransitive(x: Entry, y: Entry, z: Entry)
    requires Before(x, y) && Before(y, z)
    ensures Before(x, z)
  {
    if x.score == y.score == z.score {
      StringLessTransitive(x.member, y.member, z.member);
    }
  }

  lemma BeforeTotal(x: Entry, y: Entry)
    requires x.member != y.member
    ensures Before(x, y) || Before(y, x)
  {
    StringLessTotal(x.member, y.member);
  }

  /** The set without the given member. */
  function Delete(es: seq<Entry>, member: string): (r: seq<Entry>)
    ensures forall e :: e in r <==> e in es && e.member != member
  {
    if es == [] then []
    else if es[0].member == member then Delete(es[1..], member)
    else [es[0]] + Delete(es[1..], member)
  }

  /** The entry placed at its position in the order. */
  function Insert(es: seq<Entry>, x: Entry): (r: seq<Entry>)
    ensures |r| == |es| + 1
    ensures forall e :: e in r <==> e == x || e in es
  {
    if es == [] then [x]
    else if Before(x, es[0]) then [x] + es
    else [es[0]] + Insert(es[1..], x)
  }

  /** ZADD on a set: the member is added, or its score replaced. */
  function Upsert(es: seq<Entry>, member: string, score: int): seq<Entry>
  {
    Insert(Delete(es, member), Entry(member, score))
  }

  lemma TailWellFormed(es: seq<Entry>)
    requires WellFormed(es) && es != []
    ensures WellFormed(es[1..])
  {
    forall i, j | 0 <= i < j < |es| - 1
      ensures Before(es[1..][i], es[1..][j]) && es[1..][i].member != es[1..][j].member
    {
      assert es[1..][i] == es[i + 1] && es[1..][j] == es[j + 1];
    }
  }

  lemma HeadFirst(es: seq<Entry>, e: Entry)
    requires WellFormed(es) && es != [] && e in es[1..]
    ensures Before(es[0], e) && es[0].member != e.member
  {
    var k :| 0 <= k < |es[1..]| && es[1..][k] == e;
    assert es[k + 1] == e;
  }

  lemma ConsWellFormed(h: Entry, t: seq<Entry>)
    requires WellFormed(t)
    requires forall e :: e in t ==> Before(h, e) && h.member != e.member
    ensures WellFormed([h] + t)
  {
    var r := [h] + t;
    forall i, j | 0 <= i < j < |r| ensures Before(r[i], r[j]) && r[i].member != r[j].member {
      assert r[j] == t[j - 1] && r[j] in t;
      if i > 0 {
        assert r[i] == t[i - 1];
      }
    }
  }

  lemma {:induction false} DeleteWellFormed(es: seq<Entry>, member: string)
    requires WellFormed(es)
    ensures WellFormed(Delete(es, member))
  {
    if es != [] {
      TailWellFormed(es);
      DeleteWellFormed(es[1..], member);
      if es[0].member != member {
        forall e | e in Delete(es[1..], member) ensures Before(es[0], e) && es[0].member != e.member {
          HeadFirst(es, e);
        }
        ConsWellFormed(es[0], Delete(es[1..], member));
      }
    }
  }

  lemma {:induction false} InsertWellFormed(es: seq<Entry>, x: Entry)
    requires WellFormed(es)
    requires forall e :: e in es ==> e.member != x.member
    ensures WellFormed(Insert(es, x))
  {
    if es == [] {
    } else if Before(x, es[0]) {
      forall e | e in es ensures Before(x, e) && x.member != e.member {
        if e != es[0] {
          HeadFirst(es, e);
          BeforeTransitive(x, es[0], e);
        }
      }
      ConsWellFormed(x, es);
    } else {
      TailWellFormed(es);
      InsertWellFormed(es[1..], x);
      BeforeTotal(es[0], x);
      forall e | e in Insert(es[1..], x) ensures Before(es[0], e) && es[0].member != e.member {
        if e != x {
          HeadFirst(es, e);
        }
      }
      ConsWellFormed(es[0], Insert(es[1..], x));
    }
  }

  /**
   * ZADD keeps a sorted set well formed, and afterwards the set holds the
   * member with the new score and every other member as before.
   */
  lemma UpsertSpec(es: seq<Entry>, member: string, score: int)
    requires WellFormed(es)
    ensures WellFormed(Upsert(es, member, score))
    ensures forall e :: e in Upsert(es, member, score) <==>
      e == Entry(member, score) || (e in es && e.member != member)
  {
    DeleteWellFormed(es, member);
    InsertWellFormed(Delete(es, member), Entry(member, score));
  }

  /** HINCRBY / HINCRBYFLOAT: a missing key or field starts at 0. */
  function HashIncrement(db: Db, key: string, field: string, amount: int): Db
  {
    if IsSortedSet(db, key) then db
    else
      var h := HashOf(db, key);
      db[key := Hash(h[field := FieldOf(h, field) + amount])]
  }

  /** ZADD: adds the member or moves it to its new score. */
  function SortedSetAdd(db: Db, key: string, member: string, score: int): Db
  {
    if IsHash(db, key) then db
    else db[key := SortedSet(Upsert(EntriesOf(db, key), member, score))]
  }

  /** RENAME: the value moves to the new key, replacing whatever was there. */
  function KeyRename(db: Db, src: string, dst: string): Db
  {
    if src in db then (db - {src})[dst := db[src]] else db
  }

  /** HGETALL. */
  function HashGetAll(db: Db, key: string): Result<map<string, int>, StoreError>
  {
    if IsSortedSet(db, key) then Err(WrongType(key)) else Ok(HashOf(db, key))
  }

  /** ZRANGE key 0 -1 WITHSCORES, ascending. */
  function SortedSetRange(db: Db, key: string): Result<seq<Entry>, StoreError>
  {
    if IsHash(db, key) then Err(WrongType(key)) else Ok(EntriesOf(db, key))
  }

  /** The commands a batch may hold. */
  datatype Command =
    | HIncrBy(key: string, field: string, amount: int)
    | ZAdd(key: string, member: string, score: int)
    | Rename(src: string, dst: string)

  function Apply(db: Db, c: Command): Db
  {
    match c
    case HIncrBy(key, field, amount) => HashIncrement(db, key, field, amount)
    case ZAdd(key, member, score) => SortedSetAdd(db, key, member, score)
    case Rename(src, dst) => KeyRename(db, src, dst)
  }

  /** A batch executed: its commands applied in the order they were queued. */
  function Run(db: Db, batch: seq<Command>): Db
    decreases |batch|
  {
    if batch == [] then db else Run(Apply(db, batch[0]), batch[1..])
  }

  /** Queuing one more command: the batch's effect is followed by that command's. */
  lemma {:induction false} RunSnoc(db: Db, batch: seq<Command>, c: Command)
    ensures Run(db, batch + [c]) == Apply(Run(db, batch), c)
    decreases |batch|
  {
    if batch != [] {
      assert (batch + [c])[1..] == batch[1..] + [c];
      RunSnoc(Apply(db, batch[0]), batch[1..], c);
    }
  }

  /** No command breaks the order of a sorted set. */
  lemma ApplyValid(db: Db, c: Command)
    requires Valid(db)
    ensures Valid(Apply(db, c))
  {
    match c
    case HIncrBy(key, field, amount) =>
    case ZAdd(key, member, score) =>
      if !IsHash(db, key) {
        UpsertSpec(EntriesOf(db, key), member, score);
      }
    case Rename(src, dst) =>
  }
}
