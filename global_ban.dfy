/**
 * The global bans cache: bans of a user in a cluster, or everywhere when
 * the cluster is None, keyed by (Telegram user id, cluster id). Records
 * are attribute records, patched by name. A sync subtracts its whole
 * snapshot from the dirty set.
 */
module GlobalBan {
  import opened WriteBack

  /** (Telegram user id, cluster id or None for a ban in every cluster). */
  type Key = (int, Option<int>)

  /** The attributes of a cached ban. */
  const BanFields: set<string> :=
    {"id", "tg_user_id", "cluster_id", "reason", "created_by_tg_id", "created_at", "active", "lifted_by_tg_id", "lifted_at"}

  /** The columns of a ban row in the store. */
  const BanColumns: set<string> :=
    {"id", "reason", "created_by_id", "created_at", "active", "lifted_by_id", "lifted_at"}

  /** The column defaults of the ban model that a caller may override. */
  const BanDefaults: Record := map["reason" := Null, "active" := Bool(true), "lifted_at" := Null]

  /** An optional id as an attribute value. */
  function OptionVal(x: Option<int>): (v: Val)
    ensures x.None? <==> v == Null
    ensures x.Some? ==> v == Int(x.value)
  {
    if x.Some? then Int(x.value) else Null
  }

  /** The row `ensure_record` creates: the caller's known columns over the model's defaults. */
  function NewBanRow(fields: Record, createdById: Val, liftedById: Val, id: int, now: int): (row: Record)
    ensures row.Keys == BanColumns
    ensures row["id"] == Int(id) && row["created_at"] == Int(now)
    ensures row["created_by_id"] == createdById && row["lifted_by_id"] == liftedById
    ensures forall f :: f in BanDefaults ==> row[f] == if f in fields then fields[f] else BanDefaults[f]
  {
    map f | f in BanColumns ::
      if f == "id" then Int(id)
      else if f == "created_at" then Int(now)
      else if f == "created_by_id" then createdById
      else if f == "lifted_by_id" then liftedById
      else if f in fields then fields[f]
      else BanDefaults[f]
  }

  /**
   * The record `add_ban` caches for a key it had to ensure: the stored
   * columns of the row, with the creator and the lifter as the caller gave them.
   */
  function CachedBan(k: Key, row: Record, fields: Record): (r: Record)
    ensures r.Keys == BanFields
    ensures r["tg_user_id"] == Int(k.0) && r["cluster_id"] == OptionVal(k.1)
    ensures r["created_by_tg_id"] == Attr(fields, "created_by_tg_id") && r["lifted_by_tg_id"] == Attr(fields, "lifted_by_tg_id")
    ensures forall f :: f in {"id", "reason", "created_at", "active", "lifted_at"} ==> r[f] == Attr(row, f)
  {
    map f | f in BanFields ::
      if f == "tg_user_id" then Int(k.0)
      else if f == "cluster_id" then OptionVal(k.1)
      else if f == "created_by_tg_id" then Attr(fields, "created_by_tg_id")
      else if f == "lifted_by_tg_id" then Attr(fields, "lifted_by_tg_id")
      else Attr(row, f)
  }

  /** The columns `update_or_create` writes for a payload. */
  function WrittenColumns(users: map<int, int>, cached: Record): (c: Record)
    ensures c.Keys == {"reason", "created_by_id", "active", "lifted_by_id", "lifted_at"}
  {
    map["reason" := Attr(cached, "reason"),
        "created_by_id" := UserIdVal(Attr(cached, "created_by_tg_id"), users),
        "active" := Attr(cached, "active"),
        "lifted_by_id" := UserIdVal(Attr(cached, "lifted_by_tg_id"), users),
        "lifted_at" := Attr(cached, "lifted_at")]
  }

  /**
   * What the flush does with one payload: nothing when the user has no
   * row; otherwise `update_or_create` writes the reason, the creator, the
   * activity, the lifter and the lifting time.
   */
  function FlushedRow(row: Option<Record>, users: map<int, int>, k: Key, cached: Record): (r: Option<Record>)
    ensures k.0 !in users ==> r == row
    ensures k.0 in users ==> r.Some? && forall f :: f in WrittenColumns(users, cached) ==> f in r.value && r.value[f] == WrittenColumns(users, cached)[f]
  {
    if k.0 !in users then row
    else
      match row
      case Some(existing) => Some(existing + WrittenColumns(users, cached))
      case None => Some(map["id" := Attr(cached, "id"), "created_at" := Attr(cached, "created_at")] + WrittenColumns(users, cached))
  }

  function Step(users: map<int, int>): (Option<Record>, Key, Record) -> Option<Record>
  {
    (row: Option<Record>, k: Key, cached: Record) => FlushedRow(row, users, k, cached)
  }

  /** The bans table after a successful flush of `payloads`. */
  function Flushed(db: map<Key, Record>, users: map<int, int>, payloads: map<Key, Record>): map<Key, Record>
  {
    FlushedWith(db, payloads, Step(users))
  }

  /**
   * After a flush a payload whose user exists has a row with its reason
   * and activity; one whose user is missing is skipped, its row (if any) untouched.
   */
  lemma FlushWritesBan(db: map<Key, Record>, users: map<int, int>, payloads: map<Key, Record>, k: Key)
    requires k in payloads
    ensures var d := Flushed(db, users, payloads);
            (k.0 in users ==> k in d && Attr(d[k], "reason") == Attr(payloads[k], "reason")
                              && Attr(d[k], "active") == Attr(payloads[k], "active"))
            && (k.0 !in users ==> LookupIn(d, k) == LookupIn(db, k))
  {
    assert Step(users)(LookupIn(db, k), k, payloads[k]) == FlushedRow(LookupIn(db, k), users, k, payloads[k]);
    if k.0 in users {
      var w := WrittenColumns(users, payloads[k]);
      assert "reason" in w && "active" in w;
    }
  }

  /** Adding user rows does not change what an id that already resolved resolves to. */
  lemma UserIdValExtends(tg: Val, users: map<int, int>, more: map<int, int>)
    requires users.Keys <= more.Keys
    requires forall t :: t in users ==> more[t] == users[t]
    requires Truthy(tg) && tg.Int? ==> tg.i in users
    ensures UserIdVal(tg, more) == UserIdVal(tg, users)
  {
  }

  class GlobalBanCache {
    var cache: map<Key, Record>
    var dirty: set<Key>
    /** The users table: Telegram id to row id. */
    var users: map<int, int>
    /** The bans table, by Telegram user id and cluster id. */
    var db: map<Key, Record>
    var nextId: int
    ghost var storeCalls: nat

    ghost predicate Valid()
      reads this
    {
      dirty <= cache.Keys
    }

    constructor (userRows: map<int, int>, banRows: map<Key, Record>, firstId: int)
      ensures Valid()
      ensures cache == map[] && dirty == {} && users == userRows && db == banRows
      ensures nextId == firstId && storeCalls == 0
    {
      cache := map[];
      dirty := {};
      users := userRows;
      db := banRows;
      nextId := firstId;
      storeCalls := 0;
    }

    /** `User.get_or_create(tg_user_id=tg)`. */
    method EnsureUser(tg: int) returns (id: int)
      modifies this`users, this`nextId, this`storeCalls
      ensures users == old(users)[tg := id]
      ensures tg in old(users) ==> id == old(users)[tg] && nextId == old(nextId)
      ensures tg !in old(users) ==> id == old(nextId) && nextId == old(nextId) + 1
      ensures storeCalls == old(storeCalls) + 1
    {
      storeCalls := storeCalls + 1;
      if tg in users {
        id := users[tg];
      } else {
        id := nextId;
        users := users[tg := id];
        nextId := nextId + 1;
      }
    }

    /** The user id a truthy Telegram id given in `fields` leads to, with its user row ensured. */
    method EnsureActor(fields: Record, f: string) returns (v: Val)
      modifies this`users, this`nextId, this`storeCalls
      ensures v == UserIdVal(Attr(fields, f), users)
      ensures Truthy(Attr(fields, f)) && Attr(fields, f).Int? ==> Attr(fields, f).i in users
      ensures users.Keys >= old(users).Keys
      ensures forall t :: t in old(users) ==> users[t] == old(users)[t]
    {
      v := Null;
      var tg := Attr(fields, f);
      if Truthy(tg) && tg.Int? {
        var id := EnsureUser(tg.i);
        v := Int(id);
      }
    }

    /**
     * `GlobalBanRepository.ensure_record`: ensure the user, the creator
     * and the lifter, then get the ban row or create it from the caller's
     * columns and the model's defaults.
     */
    method EnsureRecord(k: Key, fields: Record, now: int) returns (row: Record, created: bool)
      modifies this`users, this`db, this`nextId, this`storeCalls
      ensures k.0 in users
      ensures created == (k !in old(db))
      ensures db == old(db)[k := row]
      ensures !created ==> row == old(db)[k]
      ensures created ==>
                row == NewBanRow(fields, UserIdVal(Attr(fields, "created_by_tg_id"), users),
                                 UserIdVal(Attr(fields, "lifted_by_tg_id"), users), nextId - 1, now)
    {
      var _ := EnsureUser(k.0);
      var createdBy := EnsureActor(fields, "created_by_tg_id");
      ghost var between := users;
      var liftedBy := EnsureActor(fields, "lifted_by_tg_id");
      UserIdValExtends(Attr(fields, "created_by_tg_id"), between, users);
      row, created := GetOrCreate(k, fields, createdBy, liftedBy, now);
    }

    /** `GlobalBan.get_or_create` on the key, with the creator and the lifter already resolved. */
    method GetOrCreate(k: Key, fields: Record, createdBy: Val, liftedBy: Val, now: int) returns (row: Record, created: bool)
      modifies this`db, this`nextId, this`storeCalls
      ensures created == (k !in old(db))
      ensures db == old(db)[k := row]
      ensures !created ==> row == old(db)[k]
      ensures created ==> row == NewBanRow(fields, createdBy, liftedBy, old(nextId), now) && nextId == old(nextId) + 1
    {
      storeCalls := storeCalls + 1;
      if k in db {
        row, created := db[k], false;
      } else {
        row, created := NewBanRow(fields, createdBy, liftedBy, nextId, now), true;
        nextId := nextId + 1;
        db := db[k := row];
      }
    }

    /**
     * `add_ban`: a cached key has the known attributes patched and becomes
     * dirty with no store call; a new one is ensured in the store, cached
     * and marked dirty.
     */
    method AddBan(tgUser: int, clusterId: Option<int>, fields: Record, now: int)
      requires Valid()
      modifies this`cache, this`dirty, this`users, this`db, this`nextId, this`storeCalls
      ensures Valid()
      ensures (tgUser, clusterId) in cache && cache == old(cache)[(tgUser, clusterId) := cache[(tgUser, clusterId)]]
      ensures dirty == old(dirty) + {(tgUser, clusterId)}
      ensures (tgUser, clusterId) in old(cache) ==>
                cache[(tgUser, clusterId)] == Patched(old(cache)[(tgUser, clusterId)], fields)
                && db == old(db) && users == old(users) && storeCalls == old(storeCalls)
      ensures (tgUser, clusterId) !in old(cache) ==>
                (tgUser, clusterId) in db && db == old(db)[(tgUser, clusterId) := db[(tgUser, clusterId)]]
                && ((tgUser, clusterId) in old(db) ==> db[(tgUser, clusterId)] == old(db)[(tgUser, clusterId)])
                && cache[(tgUser, clusterId)] == CachedBan((tgUser, clusterId), db[(tgUser, clusterId)], fields)
    {
      var key := (tgUser, clusterId);
      if key in cache {
        var patched := ApplyKnownFields(cache[key], fields);
        cache := cache[key := patched];
        dirty := dirty + {key};
        return;
      }
      var row, _ := EnsureRecord(key, fields, now);
      cache := cache[key := CachedBan(key, row, fields)];
      dirty := dirty + {key};
    }

    /** `delete_record`: only when the user has a row. */
    method DeleteRecord(k: Key)
      modifies this`db, this`storeCalls
      ensures db == if k.0 in users then old(db) - {k} else old(db)
      ensures storeCalls == old(storeCalls) + 1
    {
      storeCalls := storeCalls + 1;
      if k.0 in users {
        db := db - {k};
      }
    }

    /** `remove_ban`: pop the key (absent is fine) and delete its row. */
    method RemoveBan(tgUser: int, clusterId: Option<int>)
      requires Valid()
      modifies this`cache, this`dirty, this`db, this`storeCalls
      ensures Valid()
      ensures cache == old(cache) - {(tgUser, clusterId)} && dirty == old(dirty) - {(tgUser, clusterId)}
      ensures db == if tgUser in users then old(db) - {(tgUser, clusterId)} else old(db)
    {
      var key := (tgUser, clusterId);
      cache := cache - {key};
      dirty := dirty - {key};
      DeleteRecord(key);
    }

    /** `get_cluster_bans(c)`: the cached bans in cluster `c` (None: the bans stored with no cluster, that is the global ones). */
    function GetClusterBans(clusterId: Option<int>): (r: map<Key, Record>)
      reads this
      ensures forall k :: k in r ==> k in cache && k.1 == clusterId && r[k] == cache[k]
      ensures forall k :: k in cache && k.1 == clusterId ==> k in r
    {
      WithSecond(cache, clusterId)
    }

    /** `get_user_bans(u)`: the cached bans of user `u`. */
    function GetUserBans(tgUser: int): (r: map<Key, Record>)
      reads this
      ensures forall k :: k in r ==> k in cache && k.0 == tgUser && r[k] == cache[k]
      ensures forall k :: k in cache && k.0 == tgUser ==> k in r
    {
      WithFirst(cache, tgUser)
    }

    /** The first half of `sync`: the dirty set as it is, and copies of its cached records. */
    method BeginSync() returns (snapshot: set<Key>, payloads: map<Key, Record>)
      requires Valid()
      ensures snapshot == dirty
      ensures payloads == Snapshot(dirty, cache) && payloads.Keys == dirty
    {
      snapshot := dirty;
      payloads := map k | k in dirty && k in cache :: cache[k];
    }

    /** The transaction of `sync`; `ok` is false when the store raised, and it is rolled back. */
    method Flush(payloads: map<Key, Record>, ok: bool)
      requires Valid()
      modifies this`db, this`storeCalls
      ensures Valid()
      ensures db == if ok then Flushed(old(db), users, payloads) else old(db)
      ensures storeCalls == old(storeCalls) + 1
    {
      storeCalls := storeCalls + 1;
      var d := FlushLoop(db, payloads, Step(users));
      if ok {
        db := d;
      }
    }

    /** The commit of `sync`: `_dirty -= dirty_snapshot`. */
    method CommitSync(snapshot: set<Key>)
      requires Valid()
      modifies this`dirty
      ensures Valid()
      ensures dirty == old(dirty) - snapshot
    {
      dirty := dirty - snapshot;
    }

    /**
     * `sync`, run without interleaving: with no cached dirty key there is
     * no store call; a failure leaves dirty as it was; a success empties
     * it, bans skipped for a missing user included.
     */
    method Sync(ok: bool) returns (payloads: map<Key, Record>)
      requires Valid()
      modifies this`db, this`dirty, this`storeCalls
      ensures Valid()
      ensures payloads == Snapshot(old(dirty), cache) && payloads.Keys == old(dirty)
      ensures payloads == map[] ==> db == old(db) && dirty == old(dirty) && storeCalls == old(storeCalls)
      ensures payloads != map[] ==> db == (if ok then Flushed(old(db), users, payloads) else old(db))
      ensures dirty == if ok then {} else old(dirty)
    {
      var snapshot;
      snapshot, payloads := BeginSync();
      if payloads == map[] {
        return;
      }
      Flush(payloads, ok);
      if ok {
        CommitSync(snapshot);
      }
    }

    /**
     * An edit between the snapshot and the commit of a sync is cleared
     * with the snapshot: the key is clean although the store holds the
     * attribute it had before the edit.
     */
    method AddBanDuringSync(tgUser: int, clusterId: Option<int>, reason: string, now: int)
      requires Valid()
      requires (tgUser, clusterId) in dirty && tgUser in users
      requires "reason" in cache[(tgUser, clusterId)] && cache[(tgUser, clusterId)]["reason"] != Str(reason)
      modifies this`cache, this`dirty, this`users, this`db, this`nextId, this`storeCalls
      ensures Valid()
      ensures (tgUser, clusterId) !in dirty && (tgUser, clusterId) in cache && Attr(cache[(tgUser, clusterId)], "reason") == Str(reason)
      ensures (tgUser, clusterId) in db && Attr(db[(tgUser, clusterId)], "reason") == old(cache)[(tgUser, clusterId)]["reason"]
    {
      var key := (tgUser, clusterId);
      var snapshot, payloads := BeginSync();
      AddBan(tgUser, clusterId, map["reason" := Str(reason)], now);
      assert cache[key] == Patched(old(cache)[key], map["reason" := Str(reason)]);
      Flush(payloads, true);
      CommitSync(snapshot);
      FlushWritesBan(old(db), users, payloads, key);
    }
  }
}
