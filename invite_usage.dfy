/**
 * The invite usage cache: the uses of invite links, keyed by the pair
 * (invite row id, user row id). A sync clears every flushed key.
 */
module InviteUsage {
  import opened WriteBack

  /** (invite row id, user row id). */
  type Key = (int, int)

  /** `_CachedInviteUsage`; the row id is left out, nothing reads it. */
  datatype UsageRecord = UsageRecord(inviteId: int, userId: int, usedAt: Option<int>)

  /** A row of the invite usage table, indexed by its invite and user ids. */
  datatype UsageRow = UsageRow(usedAt: Option<int>)

  /** `used_at or now`: a given time wins, the clock fills in a missing one. */
  function UsedAtOrNow(usedAt: Option<int>, now: int): (t: int)
    ensures usedAt.Some? ==> t == usedAt.value
    ensures usedAt.None? ==> t == now
  {
    if usedAt.Some? then usedAt.value else now
  }

  /** What the flush does with one payload: the row takes the cached time, or is created with it. */
  function FlushedRow(row: Option<UsageRow>, cached: UsageRecord): (r: Option<UsageRow>)
    ensures r == Some(UsageRow(cached.usedAt))
  {
    match row
    case Some(existing) => if existing.usedAt != cached.usedAt then Some(existing.(usedAt := cached.usedAt)) else row
    case None => Some(UsageRow(cached.usedAt))
  }

  function Step(): (Option<UsageRow>, Key, UsageRecord) -> Option<UsageRow>
  {
    (row: Option<UsageRow>, k: Key, cached: UsageRecord) => FlushedRow(row, cached)
  }

  /** The invite usage table after a successful flush of `payloads`. */
  function Flushed(db: map<Key, UsageRow>, payloads: map<Key, UsageRecord>): map<Key, UsageRow>
  {
    FlushedWith(db, payloads, Step())
  }

  /** After a flush every payload has a row holding its cached time; other rows are untouched. */
  lemma FlushStoresUsedAt(db: map<Key, UsageRow>, payloads: map<Key, UsageRecord>, k: Key)
    ensures k in payloads ==> k in Flushed(db, payloads) && Flushed(db, payloads)[k] == UsageRow(payloads[k].usedAt)
    ensures k !in payloads ==> LookupIn(Flushed(db, payloads), k) == LookupIn(db, k)
  {
    if k in payloads {
      assert Step()(LookupIn(db, k), k, payloads[k]) == FlushedRow(LookupIn(db, k), payloads[k]);
    }
  }

  class InviteUsageCache {
    var cache: map<Key, UsageRecord>
    var dirty: set<Key>
    /** The ids of the invite link rows. */
    var invites: set<int>
    /** The ids of the user rows. */
    var users: set<int>
    /** The invite usage table. */
    var db: map<Key, UsageRow>
    ghost var storeCalls: nat

    ghost predicate Valid()
      reads this
    {
      dirty <= cache.Keys
    }

    constructor (inviteRows: set<int>, userRows: set<int>, usageRows: map<Key, UsageRow>)
      ensures Valid()
      ensures cache == map[] && dirty == {} && invites == inviteRows && users == userRows && db == usageRows
      ensures storeCalls == 0
    {
      cache := map[];
      dirty := {};
      invites := inviteRows;
      users := userRows;
      db := usageRows;
      storeCalls := 0;
    }

    /**
     * `InviteUsageRepository.ensure_record`: `DoesNotExist` when the invite
     * or the user row is missing; otherwise get the usage row or create it
     * with `used_at or now`.
     */
    method EnsureRecord(inviteId: int, userId: int, usedAt: Option<int>, now: int) returns (r: Result<(UsageRow, bool)>)
      modifies this`db, this`storeCalls
      ensures r.Err? <==> inviteId !in invites || userId !in users
      ensures r.Err? ==> r.error == DoesNotExist && db == old(db)
      ensures r.Ok? ==>
                var (row, created) := r.value;
                created == ((inviteId, userId) !in old(db))
                && db == old(db)[(inviteId, userId) := row]
                && (!created ==> row == old(db)[(inviteId, userId)])
                && (created ==> row == UsageRow(Some(UsedAtOrNow(usedAt, now))))
      ensures storeCalls > old(storeCalls)
    {
      storeCalls := storeCalls + 1;
      if inviteId !in invites {
        return Err(DoesNotExist);
      }
      storeCalls := storeCalls + 1;
      if userId !in users {
        return Err(DoesNotExist);
      }
      storeCalls := storeCalls + 1;
      var key := (inviteId, userId);
      if key in db {
        r := Ok((db[key], false));
      } else {
        var row := UsageRow(Some(UsedAtOrNow(usedAt, now)));
        db := db[key := row];
        r := Ok((row, true));
      }
    }

    /**
     * `_ensure_cached`: false with no store call when the key is cached;
     * otherwise the row is got or created and cached, and the result says
     * whether it was created. A missing invite or user escapes as an error.
     */
    method EnsureCached(inviteId: int, userId: int, usedAt: Option<int>, now: int) returns (r: Result<bool>)
      requires Valid()
      modifies this`cache, this`db, this`storeCalls
      ensures Valid()
      ensures (inviteId, userId) in old(cache) ==>
                r == Ok(false) && cache == old(cache) && db == old(db) && storeCalls == old(storeCalls)
      ensures (inviteId, userId) !in old(cache) ==>
                (r.Err? <==> inviteId !in invites || userId !in users)
                && (r.Err? ==> cache == old(cache) && db == old(db))
                && (r.Ok? ==> r.value == ((inviteId, userId) !in old(db))
                              && (inviteId, userId) in db && db == old(db)[(inviteId, userId) := db[(inviteId, userId)]]
                              && cache == old(cache)[(inviteId, userId) := UsageRecord(inviteId, userId, db[(inviteId, userId)].usedAt)])
    {
      var key := (inviteId, userId);
      if key in cache {
        return Ok(false);
      }
      var e := EnsureRecord(inviteId, userId, usedAt, now);
      if e.Err? {
        return Err(e.error);
      }
      var (row, created) := e.value;
      cache := cache[key := UsageRecord(inviteId, userId, row.usedAt)];
      r := Ok(created);
    }

    /** `get(key)`. */
    function Get(k: Key): (r: Option<UsageRecord>)
      reads this
      ensures r.Some? <==> k in cache
      ensures r.Some? ==> r.value == cache[k]
    {
      if k in cache then Some(cache[k]) else None
    }

    /**
     * `add_usage`: ensure the key, then set its cached time to the
     * argument (None included) and mark it dirty; the result is whether a
     * row was created. When the invite or the user is missing the error
     * escapes and nothing is cached.
     */
    method AddUsage(inviteId: int, userId: int, usedAt: Option<int>, now: int) returns (r: Result<bool>)
      requires Valid()
      modifies this`cache, this`dirty, this`db, this`storeCalls
      ensures Valid()
      ensures r.Err? ==> cache == old(cache) && dirty == old(dirty) && db == old(db)
      ensures r.Err? <==> (inviteId, userId) !in old(cache) && (inviteId !in invites || userId !in users)
      ensures r.Ok? ==>
                (inviteId, userId) in cache && cache == old(cache)[(inviteId, userId) := cache[(inviteId, userId)]]
                && cache[(inviteId, userId)].usedAt == usedAt
                && ((inviteId, userId) in old(cache) ==> cache[(inviteId, userId)] == old(cache)[(inviteId, userId)].(usedAt := usedAt))
                && ((inviteId, userId) !in old(cache) ==> cache[(inviteId, userId)] == UsageRecord(inviteId, userId, usedAt))
                && dirty == old(dirty) + {(inviteId, userId)}
                && r.value == ((inviteId, userId) !in old(cache) && (inviteId, userId) !in old(db))
      ensures (inviteId, userId) in old(cache) ==> r.Ok? && db == old(db) && storeCalls == old(storeCalls)
    {
      r := EnsureCached(inviteId, userId, usedAt, now);
      if r.Err? {
        return;
      }
      var key := (inviteId, userId);
      cache := cache[key := cache[key].(usedAt := usedAt)];
      dirty := dirty + {key};
    }

    /** `remove_usage`: evict the key, then delete its row. */
    method RemoveUsage(inviteId: int, userId: int)
      requires Valid()
      modifies this`cache, this`dirty, this`db, this`storeCalls
      ensures Valid()
      ensures cache == old(cache) - {(inviteId, userId)} && dirty == old(dirty) - {(inviteId, userId)}
      ensures db == old(db) - {(inviteId, userId)}
      ensures storeCalls == old(storeCalls) + 1
    {
      var key := (inviteId, userId);
      if key in cache {
        dirty := dirty - {key};
        cache := cache - {key};
      }
      storeCalls := storeCalls + 1;
      db := db - {key};
    }

    /** `get_invite_usages(i)`: the cached uses of invite `i`. */
    function GetInviteUsages(inviteId: int): (r: map<Key, UsageRecord>)
      reads this
      ensures forall k :: k in r ==> k in cache && k.0 == inviteId && r[k] == cache[k]
      ensures forall k :: k in cache && k.0 == inviteId ==> k in r
    {
      WithFirst(cache, inviteId)
    }

    /** `get_user_usages(u)`: the cached uses by user `u`. */
    function GetUserUsages(userId: int): (r: map<Key, UsageRecord>)
      reads this
      ensures forall k :: k in r ==> k in cache && k.1 == userId && r[k] == cache[k]
      ensures forall k :: k in cache && k.1 == userId ==> k in r
    {
      WithSecond(cache, userId)
    }

    /** The first half of `sync`: copy the dirty records that are still cached. */
    method BeginSync() returns (payloads: map<Key, UsageRecord>)
      requires Valid()
      ensures payloads == Snapshot(dirty, cache)
      ensures payloads.Keys == dirty
    {
      payloads := map k | k in dirty && k in cache :: cache[k];
    }

    /** The batch loop of `sync`; `ok` is false when the store raised, and nothing is written then. */
    method Flush(payloads: map<Key, UsageRecord>, ok: bool)
      requires Valid()
      modifies this`db, this`storeCalls
      ensures Valid()
      ensures db == if ok then Flushed(old(db), payloads) else old(db)
      ensures storeCalls == old(storeCalls) + 1
    {
      storeCalls := storeCalls + 1;
      var d := FlushLoop(db, payloads, Step());
      if ok {
        db := d;
      }
    }

    /** The commit loop of `sync`: every flushed key leaves the dirty set. */
    method CommitSync(payloads: map<Key, UsageRecord>)
      requires Valid()
      modifies this`dirty
      ensures Valid()
      ensures dirty == old(dirty) - payloads.Keys
    {
      var todo := payloads.Keys;
      while todo != {}
        invariant todo <= payloads.Keys
        invariant dirty == old(dirty) - (payloads.Keys - todo)
        decreases todo
      {
        ghost var w := Member(todo);
        var k :| k in todo;
        dirty := dirty - {k};
        todo := todo - {k};
      }
    }

    /**
     * `sync`, run without interleaving: nothing happens while the dirty
     * set is empty; on an exception dirty is unchanged; otherwise every
     * dirty key is written and cleared.
     */
    method Sync(ok: bool) returns (payloads: map<Key, UsageRecord>)
      requires Valid()
      modifies this`db, this`dirty, this`storeCalls
      ensures Valid()
      ensures payloads == Snapshot(old(dirty), cache) && payloads.Keys == old(dirty)
      ensures old(dirty) == {} ==> db == old(db) && dirty == old(dirty) && storeCalls == old(storeCalls)
      ensures old(dirty) != {} ==> db == (if ok then Flushed(old(db), payloads) else old(db))
      ensures dirty == if ok then {} else old(dirty)
    {
      payloads := BeginSync();
      if dirty == {} {
        return;
      }
      Flush(payloads, ok);
      if ok {
        CommitSync(payloads);
      }
    }
  }
}
