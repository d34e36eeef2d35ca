/**
 * Vocabulary shared by every write-back cache of the chat manager:
 * optional values and error results, the dynamically typed attribute
 * records of the managers that use `hasattr`/`setattr`/`getattr`, the
 * snapshot a sync takes of its dirty records, and the commit rules that
 * decide which keys a successful flush clears from the dirty set.
 */
module WriteBack {

  datatype Option<T> = None | Some(value: T)

  /** The exceptions a manager operation lets escape to its caller. */
  datatype Error =
    | DoesNotExist   // `Model.get` found no row
    | TypeMismatch   // an arithmetic operator applied to a non-number
    | StoreFailure   // the store raised and no handler caught it
    | DuplicateKeyword   // a call given the same keyword argument twice (a `TypeError`)
    | IntegrityError     // an insert that would break a unique constraint of the table

  datatype Result<T> = Ok(value: T) | Err(error: Error)

  /**
   * A field value as the managers store it: `None`, a boolean, an integer
   * (also timestamps, given as integers), a string, or a JSON document
   * (`dict` fields such as `meta` and `settings`), kept as its text.
   */
  datatype Val = Null | Bool(b: bool) | Int(i: int) | Str(s: string) | Json(doc: string)

  /** Python truthiness of a field value. */
  predicate Truthy(v: Val)
  {
    match v
    case Null => false
    case Bool(b) => b
    case Int(i) => i != 0
    case Str(s) => s != ""
    case Json(doc) => doc != "{}" && doc != "[]"
  }

  /** Python truthiness of an optional Telegram or row id (`if created_by_tg_id:`). */
  predicate TruthyId(x: Option<int>)
  {
    x.Some? && x.value != 0
  }

  /**
   * The user row id a truthy Telegram id leads to when that user has a
   * row (the creator of a nick, an invite or a welcome message).
   */
  function CreatorId(tg: Option<int>, users: map<int, int>): (r: Option<int>)
    ensures r.Some? <==> TruthyId(tg) && tg.value in users
    ensures r.Some? ==> r.value == users[tg.value]
  {
    if TruthyId(tg) && tg.value in users then Some(users[tg.value]) else None
  }

  /**
   * The same for a Telegram id held as a record attribute: the user row id
   * as a value, or `Null`.
   */
  function UserIdVal(tg: Val, users: map<int, int>): (v: Val)
    ensures v != Null ==> Truthy(tg) && tg.Int? && tg.i in users && v == Int(users[tg.i])
    ensures Truthy(tg) && tg.Int? && tg.i in users ==> v != Null
  {
    if Truthy(tg) && tg.Int? && tg.i in users then Int(users[tg.i]) else Null
  }

  /** A cached record whose attributes are looked up by name. */
  type Record = map<string, Val>

  /** `getattr(r, f, None)`. */
  function Attr(r: Record, f: string): Val
  {
    if f in r then r[f] else Null
  }

  /**
   * The record after `for f, v in fields.items(): if hasattr(r, f): setattr(r, f, v)`:
   * every attribute the record has takes the caller's value, names the
   * record does not have are ignored, and no attribute is added.
   */
  function Patched(r: Record, fields: Record): (p: Record)
    ensures p.Keys == r.Keys
    ensures forall f :: f in r && f in fields ==> p[f] == fields[f]
    ensures forall f :: f in r && f !in fields ==> p[f] == r[f]
  {
    map f | f in r :: if f in fields then fields[f] else r[f]
  }

  /** The `setattr` loop of the `edit`/`add_ban`/`add_mute` methods, one field at a time. */
  method ApplyKnownFields(r: Record, fields: Record) returns (p: Record)
    ensures p == Patched(r, fields)
  {
    p := r;
    var todo := fields.Keys;
    while todo != {}
      invariant todo <= fields.Keys
      invariant p.Keys == r.Keys
      invariant forall f :: f in p ==> p[f] == (if f in fields && f !in todo then fields[f] else r[f])
      decreases todo
    {
      ghost var w := Member(todo);
      var f :| f in todo;
      if f in p {
        p := p[f := fields[f]];
      }
      todo := todo - {f};
    }
  }

  /** `row` with the columns `fields` copied from the cached record `src`. */
  function Overlay(row: Record, src: Record, fields: set<string>): (r: Record)
    ensures r.Keys == row.Keys
    ensures forall f :: f in row && f in fields ==> r[f] == Attr(src, f)
    ensures forall f :: f in row && f !in fields ==> r[f] == row[f]
  {
    map f | f in row :: if f in fields then Attr(src, f) else row[f]
  }

  /** Some column of `fields` differs between the stored row and the cached record. */
  predicate Differs(row: Record, src: Record, fields: set<string>)
  {
    exists f :: f in fields && Attr(row, f) != Attr(src, f)
  }

  /**
   * Skipping a row whose compared columns all agree, as the flush loops do,
   * writes nothing that the update would have changed.
   */
  lemma OverlayOfAgreeingRow(row: Record, src: Record, fields: set<string>)
    requires fields <= row.Keys
    requires !Differs(row, src, fields)
    ensures Overlay(row, src, fields) == row
  {
    var r := Overlay(row, src, fields);
    forall f | f in row
      ensures r[f] == row[f]
    {
      if f in fields {
        assert Attr(row, f) == Attr(src, f);
      }
    }
  }

  /**
   * The payloads a sync copies while holding the lock: the dirty keys that
   * are still cached, with their current records.
   */
  function Snapshot<K, V>(dirty: set<K>, cache: map<K, V>): (p: map<K, V>)
    ensures p.Keys == dirty * cache.Keys
    ensures forall k :: k in p ==> p[k] == cache[k]
  {
    map k | k in dirty && k in cache :: cache[k]
  }

  /** When every dirty key is cached, the snapshot covers the whole dirty set. */
  lemma SnapshotCoversDirty<K, V>(dirty: set<K>, cache: map<K, V>)
    requires dirty <= cache.Keys
    ensures Snapshot(dirty, cache).Keys == dirty
  {
  }

  /**
   * The recheck commit rule of the users, chats and roles caches: a payload
   * key that was not skipped leaves the dirty set when its record is no
   * longer cached, or when the cached record is still `same` as the copy
   * that was flushed.
   */
  function RecheckCleared<K, V>(payloads: map<K, V>, cache: map<K, V>, skipped: set<K>, same: (V, V) -> bool): (c: set<K>)
    ensures c <= payloads.Keys
    ensures forall k :: k in payloads && k !in skipped ==> (k in c <==> (k !in cache || same(cache[k], payloads[k])))
    ensures c !! skipped
  {
    set k | k in payloads && k !in skipped && (k !in cache || same(cache[k], payloads[k]))
  }

  /**
   * Race retention: a record edited between the snapshot and the commit
   * (so the cached value is no longer `same` as the flushed copy) stays
   * dirty, and so does every key the flush skipped.
   */
  lemma RecheckRetainsRacedKey<K, V>(dirty: set<K>, payloads: map<K, V>, cache: map<K, V>, skipped: set<K>, same: (V, V) -> bool, k: K)
    requires k in dirty && k in payloads
    requires k in skipped || (k in cache && !same(cache[k], payloads[k]))
    ensures k in dirty - RecheckCleared(payloads, cache, skipped, same)
  {
  }

  /**
   * With no edit between snapshot and commit, a successful sync cleans
   * every dirty key except those the flush skipped.
   */
  lemma QuietRecheckCleansAllButSkipped<K, V>(dirty: set<K>, cache: map<K, V>, skipped: set<K>, same: (V, V) -> bool)
    requires dirty <= cache.Keys
    requires forall v :: same(v, v)
    ensures dirty - RecheckCleared(Snapshot(dirty, cache), cache, skipped, same) == dirty * skipped
  {
    var p := Snapshot(dirty, cache);
    var c := RecheckCleared(p, cache, skipped, same);
    forall k | k in dirty
      ensures k in c <==> k !in skipped
    {
      assert k in p && p[k] == cache[k];
      assert same(cache[k], p[k]);
    }
  }

  /**
   * The unconditional rules (`dirty -= payloads.keys()` and
   * `dirty -= snapshot`) have no recheck: an edit made while the flush was
   * running is cleared with the flushed keys although the store now holds
   * the older value. The recheck rule keeps the same key dirty.
   */
  lemma UnconditionalClearDropsRacedEdit<K, V>(dirty: set<K>, payloads: map<K, V>, cache: map<K, V>, same: (V, V) -> bool, k: K)
    requires k in dirty && k in payloads
    requires k in cache && !same(cache[k], payloads[k])
    ensures k !in dirty - payloads.Keys
    ensures k in dirty - RecheckCleared(payloads, cache, {}, same)
  {
  }

  /** Updating a key twice keeps only the second value (stated generically, so it is cheap to use). */
  lemma UpdateTwice<K, V>(m: map<K, V>, k: K, a: V, b: V)
    ensures m[k := a][k := b] == m[k := b]
  {
  }

  /** A non-empty set has a member, the fact a `for k in todo` loop picks its next key by. */
  lemma Member<K>(s: set<K>) returns (w: K)
    requires s != {}
    ensures w in s
  {
    w :| w in s;
  }

  /* ----- The batch loop of a sync, for the managers whose rows are handled one key at a time ----- */

  function LookupIn<K, R>(db: map<K, R>, k: K): Option<R>
  {
    if k in db then Some(db[k]) else None
  }

  /**
   * The table after every payload has been handled by `step`, which maps
   * the key's current row (if any) and its cached record to the row it
   * holds afterwards, or to None for a key left without a row.
   */
  function FlushedWith<K, V, R>(db: map<K, R>, payloads: map<K, V>, step: (Option<R>, K, V) -> Option<R>): (d: map<K, R>)
    ensures forall k :: k in db && k !in payloads ==> k in d && d[k] == db[k]
    ensures forall k :: k in payloads && step(LookupIn(db, k), k, payloads[k]).Some? ==>
              k in d && d[k] == step(LookupIn(db, k), k, payloads[k]).value
    ensures forall k :: k in payloads && step(LookupIn(db, k), k, payloads[k]).None? ==> k !in d
    ensures forall k :: k in d ==> k in db || k in payloads
  {
    map k | k in db.Keys + payloads.Keys && (k in payloads ==> step(LookupIn(db, k), k, payloads[k]).Some?) ::
      if k in payloads then step(LookupIn(db, k), k, payloads[k]).value else db[k]
  }

  /** The batch loop: one payload at a time, in any order, each against the row it had before. */
  method FlushLoop<K, V, R>(db: map<K, R>, payloads: map<K, V>, step: (Option<R>, K, V) -> Option<R>) returns (d: map<K, R>)
    ensures d == FlushedWith(db, payloads, step)
  {
    d := db;
    var todo := payloads.Keys;
    while todo != {}
      invariant todo <= payloads.Keys
      invariant forall k :: k in db && k !in payloads ==> k in d && d[k] == db[k]
      invariant forall k :: k in todo ==> LookupIn(d, k) == LookupIn(db, k)
      invariant forall k :: k in payloads && k !in todo ==> LookupIn(d, k) == step(LookupIn(db, k), k, payloads[k])
      invariant forall k :: k in d ==> k in db || k in payloads
      decreases todo
    {
      ghost var w := Member(todo);
      var k :| k in todo;
      match step(LookupIn(d, k), k, payloads[k]) {
        case Some(r) =>
          d := d[k := r];
        case None =>
          d := d - {k};
      }
      todo := todo - {k};
    }
    FlushedWithPointwise(db, payloads, step, d);
  }

  /** A table that agrees with `FlushedWith` key by key is that table. */
  lemma FlushedWithPointwise<K, V, R>(db: map<K, R>, payloads: map<K, V>, step: (Option<R>, K, V) -> Option<R>, d: map<K, R>)
    requires forall k :: k in db && k !in payloads ==> k in d && d[k] == db[k]
    requires forall k :: k in payloads ==> LookupIn(d, k) == step(LookupIn(db, k), k, payloads[k])
    requires forall k :: k in d ==> k in db || k in payloads
    ensures d == FlushedWith(db, payloads, step)
  {
    var f := FlushedWith(db, payloads, step);
    forall k | k in d
      ensures k in f && d[k] == f[k]
    {
      if k in payloads {
        assert LookupIn(d, k) == Some(d[k]);
      }
    }
    forall k | k in f
      ensures k in d
    {
      if k in payloads {
        assert LookupIn(d, k) == step(LookupIn(db, k), k, payloads[k]);
      }
    }
    assert d == f;
  }

  /* ----- Filters: the list comprehensions over `self._cache.items()` ----- */

  /** The cached entries whose key's first component is `a`. */
  function WithFirst<A(==), B(==), V>(cache: map<(A, B), V>, a: A): (r: map<(A, B), V>)
    ensures forall k :: k in r ==> k in cache && k.0 == a && r[k] == cache[k]
    ensures forall k :: k in cache && k.0 == a ==> k in r
  {
    map k | k in cache && k.0 == a :: cache[k]
  }

  /** The cached entries whose key's second component is `b`. */
  function WithSecond<A(==), B(==), V>(cache: map<(A, B), V>, b: B): (r: map<(A, B), V>)
    ensures forall k :: k in r ==> k in cache && k.1 == b && r[k] == cache[k]
    ensures forall k :: k in cache && k.1 == b ==> k in r
  {
    map k | k in cache && k.1 == b :: cache[k]
  }

  /**
   * The two filters meet in exactly one key: filtering by a first and a
   * second component selects at most the entry `(a, b)`.
   */
  lemma FiltersMeetAtKey<A, B, V>(cache: map<(A, B), V>, a: A, b: B)
    ensures WithFirst(cache, a).Keys * WithSecond(cache, b).Keys == if (a, b) in cache then {(a, b)} else {}
  {
    var both := WithFirst(cache, a).Keys * WithSecond(cache, b).Keys;
    forall k | k in both
      ensures k == (a, b)
    {
      var (x, y) := k;
      assert x == a && y == b;
    }
  }

  /** Every cached entry is selected by the filter on its own first component. */
  lemma FirstFilterPartitions<A, B, V>(cache: map<(A, B), V>, k: (A, B))
    requires k in cache
    ensures k in WithFirst(cache, k.0)
    ensures forall a :: a != k.0 ==> k !in WithFirst(cache, a)
  {
  }
}
