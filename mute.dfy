/**
 * The mutes cache: a user's mute in a chat, keyed by (Telegram user id,
 * Telegram chat id). Records are attribute records, patched by name. A
 * mute cached for the first time is not marked dirty; a sync subtracts
 * its whole snapshot from the dirty set.
 */
module Mute {
  import opened WriteBack

  /** (Telegram user id, Telegram chat id). */
  type Key = (int, int)

  /** The attributes of a cached mute. */
  const MuteFields: set<string> :=
    {"id", "tg_user_id", "tg_chat_id", "start_at", "end_at", "reason", "created_by_tg_id", "active", "auto_unmute"}

  /** The columns of a mute row in the store. */
  const MuteColumns: set<string> :=
    {"id", "start_at", "end_at", "reason", "created_by_id", "active", "auto_unmute"}

  /** The column defaults of the mute model that a caller may override. */
  const MuteDefaults: Record := map["end_at" := Null, "reason" := Null, "active" := Bool(true), "auto_unmute" := Bool(true)]

  /** `start_at` is filled in with the clock at creation unless the caller gave one. */
  function StartAt(fields: Record, now: int): (v: Val)
    ensures Attr(fields, "start_at") != Null ==> v == Attr(fields, "start_at")
    ensures Attr(fields, "start_at") == Null ==> v == Int(now)
  {
    if Attr(fields, "start_at") != Null then Attr(fields, "start_at") else Int(now)
  }

  /** The row `ensure_record` creates: the caller's known columns over the model's defaults. */
  function NewMuteRow(fields: Record, createdById: Val, id: int, now: int): (row: Record)
    ensures row.Keys == MuteColumns
    ensures row["id"] == Int(id) && row["start_at"] == StartAt(fields, now) && row["created_by_id"] == createdById
    ensures forall f :: f in MuteDefaults ==> row[f] == if f in fields then fields[f] else MuteDefaults[f]
  {
    map f | f in MuteColumns ::
      if f == "id" then Int(id)
      else if f == "start_at" then StartAt(fields, now)
      else if f == "created_by_id" then createdById
      else if f in fields then fields[f]
      else MuteDefaults[f]
  }

  /**
   * The record `add_mute` caches for a key it had to ensure: the stored
   * columns of the row, with the creator as the caller gave it.
   */
  function CachedMute(k: Key, row: Record, fields: Record): (r: Record)
    ensures r.Keys == MuteFields
    ensures r["tg_user_id"] == Int(k.0) && r["tg_chat_id"] == Int(k.1)
    ensures r["created_by_tg_id"] == Attr(fields, "created_by_tg_id")
    ensures forall f :: f in {"id", "start_at", "end_at", "reason", "active", "auto_unmute"} ==> r[f] == Attr(row, f)
  {
    map f | f in MuteFields ::
      if f == "tg_user_id" then Int(k.0)
      else if f == "tg_chat_id" then Int(k.1)
      else if f == "created_by_tg_id" then Attr(fields, "created_by_tg_id")
      else Attr(row, f)
  }

  /** The columns `update_or_create` writes for a payload. */
  function WrittenColumns(users: map<int, int>, cached: Record): (c: Record)
    ensures c.Keys == {"start_at", "end_at", "reason", "created_by_id", "active", "auto_unmute"}
    ensures c["end_at"] == Attr(cached, "end_at") && c["reason"] == Attr(cached, "reason") && c["active"] == Attr(cached, "active")
  {
    map["start_at" := Attr(cached, "start_at"),
        "end_at" := Attr(cached, "end_at"),
        "reason" := Attr(cached, "reason"),
        "created_by_id" := UserIdVal(Attr(cached, "created_by_tg_id"), users),
        "active" := Attr(cached, "active"),
        "auto_unmute" := Attr(cached, "auto_unmute")]
  }

  /**
   * What the flush does with one payload: nothing when the user or the
   * chat has no row; otherwise `update_or_create` writes the six mute columns.
   */
  function FlushedRow(row: Option<Record>, users: map<int, int>, chats: map<int, int>, k: Key, cached: Record): (r: Option<Record>)
    ensures k.0 !in users || k.1 !in chats ==> r == row
    ensures k.0 in users && k.1 in chats ==>
              r.Some? && forall f :: f in WrittenColumns(users, cached) ==> f in r.value && r.value[f] == WrittenColumns(users, cached)[f]
  {
    if k.0 !in users || k.1 !in chats then row
    else
      match row
      case Some(existing) => Some(existing + WrittenColumns(users, cached))
      case None => Some(map["id" := Attr(cached, "id")] + WrittenColumns(users, cached))
  }

  function Step(users: map<int, int>, chats: map<int, int>): (Option<Record>, Key, Record) -> Option<Record>
  {
    (row: Option<Record>, k: Key, cached: Record) => FlushedRow(row, users, chats, k, cached)
  }

  /** The mutes table after a successful flush of `payloads`. */
  function Flushed(db: map<Key, Record>, users: map<int, int>, chats: map<int, int>, payloads: map<Key, Record>): map<Key, Record>
  {
    FlushedWith(db, payloads, Step(users, chats))
  }

  /**
   * After a flush a payload whose user and chat exist has a row with its
   * end, reason and activity; one whose user or chat is missing is
   * skipped, its row (if any) untouched; keys outside the payloads keep their rows.
   */
  lemma FlushWritesMute(db: map<Key, Record>, users: map<int, int>, chats: map<int, int>, payloads: map<Key, Record>, k: Key)
    ensures var d := Flushed(db, users, chats, payloads);
            (k in payloads && k.0 in users && k.1 in chats ==>
               k in d && Attr(d[k], "end_at") == Attr(payloads[k], "end_at")
               && Attr(d[k], "reason") == Attr(payloads[k], "reason")
               && Attr(d[k], "active") == Attr(payloads[k], "active"))
            && (k !in payloads || k.0 !in users || k.1 !in chats ==> LookupIn(d, k) == LookupIn(db, k))
  {
    var d := Flushed(db, users, chats, payloads);
    if k in payloads {
      var r := FlushedRow(LookupIn(db, k), users, chats, k, payloads[k]);
      assert Step(users, chats)(LookupIn(db, k), k, payloads[k]) == r;
      if k.0 in users && k.1 in chats {
        assert k in d && d[k] == r.value;
      } else {
        assert r == LookupIn(db, k);
      }
    }
  }

  class MuteCache {
    var cache: map<Key, Record>
    var dirty: set<Key>
    /** The users table: Telegram id to row id. */
    var users: map<int, int>
    /** The chats table: Telegram id to row id. */
    var chats: map<int, int>
    /** The mutes table, by Telegram user id and Telegram chat id. */
    var db: map<Key, Record>
    var nextId: int
    ghost var storeCalls: nat

    ghost predicate Valid()
      reads this
    {
      dirty <= cache.Keys
    }

    constructor (userRows: map<int, int>, chatRows: map<int, int>, muteRows: map<Key, Record>, firstId: int)
      ensures Valid()
      ensures cache == map[] && dirty == {} && users == userRows && chats == chatRows && db == muteRows
      ensures nextId == firstId && storeCalls == 0
    {
      cache := map[];
      dirty := {};
      users := userRows;
      chats := chatRows;
      db := muteRows;
      nextId := firstId;
      storeCalls := 0;
    }

    /** `User.get_or_create(tg_user_id=tg)`. */
    method EnsureUser(tg: int) returns (id: int)
      modifies this`users, this`nextId, this`storeCalls
      ensures users == old(users)[tg := id]
      ensures tg in old(users) ==> id == old(users)[tg] && nextId == old(nextId)
      ensures tg !in old(users) ==> id == old(nextId) && nextId == old(nextId) + 1
      ensures storeCalls == old(storeCalls) + 1
    {
      storeCalls := storeCalls + 1;
      if tg in users {
        id := users[tg];
      } else {
        id := nextId;
        users := users[tg := id];
        nextId := nextId + 1;
      }
    }

    /** `Chat.get_or_create(tg_chat_id=tg)`. */
    method EnsureChat(tg: int) returns (id: int)
      modifies this`chats, this`nextId, this`storeCalls
      ensures chats == old(chats)[tg := id]
      ensures tg in old(chats) ==> id == old(chats)[tg] && nextId == old(nextId)
      ensures tg !in old(chats) ==> id == old(nextId) && nextId == old(nextId) + 1
      ensures storeCalls == old(storeCalls) + 1
    {
      storeCalls := storeCalls + 1;
      if tg in chats {
        id := chats[tg];
      } else {
        id := nextId;
        chats := chats[tg := id];
        nextId := nextId + 1;
      }
    }

    /** The user and the chat rows of a key, got or created. */
    method EnsureParents(k: Key)
      modifies this`users, this`chats, this`nextId, this`storeCalls
      ensures k.0 in users && k.1 in chats
    {
      var _ := EnsureUser(k.0);
      var _ := EnsureChat(k.1);
    }

    /** The user id a truthy `created_by_tg_id` in `fields` leads to, with its user row ensured. */
    method EnsureCreator(fields: Record) returns (v: Val)
      modifies this`users, this`nextId, this`storeCalls
      ensures v == UserIdVal(Attr(fields, "created_by_tg_id"), users)
      ensures users.Keys >= old(users).Keys
    {
      v := Null;
      var tg := Attr(fields, "created_by_tg_id");
      if Truthy(tg) && tg.Int? {
        var id := EnsureUser(tg.i);
        v := Int(id);
      }
    }

    /**
     * `MuteRepository.ensure_record`: ensure the user, the chat and a
     * truthy creator, then get the mute row or create it from the
     * caller's columns and the model's defaults.
     */
    method EnsureRecord(k: Key, fields: Record, now: int) returns (row: Record, created: bool)
      modifies this`users, this`chats, this`db, this`nextId, this`storeCalls
      ensures k.0 in users && k.1 in chats
      ensures created == (k !in old(db))
      ensures db == old(db)[k := row]
      ensures !created ==> row == old(db)[k]
      ensures created ==> row == NewMuteRow(fields, UserIdVal(Attr(fields, "created_by_tg_id"), users), nextId - 1, now)
    {
      EnsureParents(k);
      var createdBy := EnsureCreator(fields);
      row, created := GetOrCreate(k, fields, createdBy, now);
    }

    /** `Mute.get_or_create` on the key, with the creator already resolved. */
    method GetOrCreate(k: Key, fields: Record, createdBy: Val, now: int) returns (row: Record, created: bool)
      modifies this`db, this`nextId, this`storeCalls
      ensures created == (k !in old(db))
      ensures db == old(db)[k := row]
      ensures !created ==> row == old(db)[k]
      ensures created ==> row == NewMuteRow(fields, createdBy, old(nextId), now) && nextId == old(nextId) + 1
    {
      storeCalls := storeCalls + 1;
      if k in db {
        row, created := db[k], false;
      } else {
        row, created := NewMuteRow(fields, createdBy, nextId, now), true;
        nextId := nextId + 1;
        db := db[k := row];
      }
    }

    /**
     * `add_mute`: a cached key has the known attributes patched and
     * becomes dirty with no store call; a new one is ensured in the store
     * and cached as the store holds it, and is NOT marked dirty.
     */
    method AddMute(tgUser: int, tgChat: int, fields: Record, now: int)
      requires Valid()
      modifies this`cache, this`dirty, this`users, this`chats, this`db, this`nextId, this`storeCalls
      ensures Valid()
      ensures (tgUser, tgChat) in cache && cache == old(cache)[(tgUser, tgChat) := cache[(tgUser, tgChat)]]
      ensures (tgUser, tgChat) in old(cache) ==>
                cache[(tgUser, tgChat)] == Patched(old(cache)[(tgUser, tgChat)], fields)
                && dirty == old(dirty) + {(tgUser, tgChat)}
                && db == old(db) && users == old(users) && chats == old(chats) && storeCalls == old(storeCalls)
      ensures (tgUser, tgChat) !in old(cache) ==>
                dirty == old(dirty)
                && (tgUser, tgChat) in db && db == old(db)[(tgUser, tgChat) := db[(tgUser, tgChat)]]
                && ((tgUser, tgChat) in old(db) ==> db[(tgUser, tgChat)] == old(db)[(tgUser, tgChat)])
                && cache[(tgUser, tgChat)] == CachedMute((tgUser, tgChat), db[(tgUser, tgChat)], fields)
    {
      var key := (tgUser, tgChat);
      if key in cache {
        var patched := ApplyKnownFields(cache[key], fields);
        cache := cache[key := patched];
        dirty := dirty + {key};
        return;
      }
      var row, _ := EnsureRecord(key, fields, now);
      cache := cache[key := CachedMute(key, row, fields)];
    }

    /** `delete_record`: only when both the user and the chat have a row. */
    method DeleteRecord(k: Key)
      modifies this`db, this`storeCalls
      ensures db == if k.0 in users && k.1 in chats then old(db) - {k} else old(db)
      ensures storeCalls == old(storeCalls) + 2
    {
      storeCalls := storeCalls + 2;
      if k.0 in users && k.1 in chats {
        db := db - {k};
      }
    }

    /** `remove_mute`: discard and pop the key (absent is fine), then delete its row. */
    method RemoveMute(tgUser: int, tgChat: int)
      requires Valid()
      modifies this`cache, this`dirty, this`db, this`storeCalls
      ensures Valid()
      ensures cache == old(cache) - {(tgUser, tgChat)} && dirty == old(dirty) - {(tgUser, tgChat)}
      ensures db == if tgUser in users && tgChat in chats then old(db) - {(tgUser, tgChat)} else old(db)
    {
      var key := (tgUser, tgChat);
      dirty := dirty - {key};
      cache := cache - {key};
      DeleteRecord(key);
    }

    /** `MuteManager.get`: a copy of the cached mute, or None. */
    function Get(tgUser: int, tgChat: int): (r: Option<Record>)
      reads this
      ensures r.Some? <==> (tgUser, tgChat) in cache
      ensures r.Some? ==> r.value == cache[(tgUser, tgChat)]
    {
      if (tgUser, tgChat) in cache then Some(cache[(tgUser, tgChat)]) else None
    }

    /** `get_user_mutes(u)`: the cached mutes of user `u`. */
    function GetUserMutes(tgUser: int): (r: map<Key, Record>)
      reads this
      ensures forall k :: k in r ==> k in cache && k.0 == tgUser && r[k] == cache[k]
      ensures forall k :: k in cache && k.0 == tgUser ==> k in r
    {
      WithFirst(cache, tgUser)
    }

    /** `get_chat_mutes(c)`: the cached mutes in chat `c`. */
    function GetChatMutes(tgChat: int): (r: map<Key, Record>)
      reads this
      ensures forall k :: k in r ==> k in cache && k.1 == tgChat && r[k] == cache[k]
      ensures forall k :: k in cache && k.1 == tgChat ==> k in r
    {
      WithSecond(cache, tgChat)
    }

    /** The first half of `sync`: the dirty set as it is, and copies of its cached records. */
    method BeginSync() returns (snapshot: set<Key>, payloads: map<Key, Record>)
      requires Valid()
      ensures snapshot == dirty
      ensures payloads == Snapshot(dirty, cache) && payloads.Keys == dirty
    {
      snapshot := dirty;
      payloads := map k | k in dirty && k in cache :: cache[k];
    }

    /** The transaction of `sync`; `ok` is false when the store raised, and it is rolled back. */
    method Flush(payloads: map<Key, Record>, ok: bool)
      requires Valid()
      modifies this`db, this`storeCalls
      ensures Valid()
      ensures db == if ok then Flushed(old(db), users, chats, payloads) else old(db)
      ensures storeCalls == old(storeCalls) + 1
    {
      storeCalls := storeCalls + 1;
      var d := FlushLoop(db, payloads, Step(users, chats));
      if ok {
        db := d;
      }
    }

    /** The commit of `sync`: `_dirty -= dirty_snapshot`. */
    method CommitSync(snapshot: set<Key>)
      requires Valid()
      modifies this`dirty
      ensures Valid()
      ensures dirty == old(dirty) - snapshot
    {
      dirty := dirty - snapshot;
    }

    /**
     * `sync`, run without interleaving: with no cached dirty key there is
     * no store call; a failure leaves dirty as it was; a success empties
     * it, mutes skipped for a missing user or chat included.
     */
    method Sync(ok: bool) returns (payloads: map<Key, Record>)
      requires Valid()
      modifies this`db, this`dirty, this`storeCalls
      ensures Valid()
      ensures payloads == Snapshot(old(dirty), cache) && payloads.Keys == old(dirty)
      ensures payloads == map[] ==> db == old(db) && dirty == old(dirty) && storeCalls == old(storeCalls)
      ensures payloads != map[] ==> db == (if ok then Flushed(old(db), users, chats, payloads) else old(db))
      ensures dirty == if ok then {} else old(dirty)
    {
      var snapshot;
      snapshot, payloads := BeginSync();
      if payloads == map[] {
        return;
      }
      Flush(payloads, ok);
      if ok {
        CommitSync(snapshot);
      }
    }

    /**
     * A mute added for a key that is not cached but has a row is cached
     * as the row stands, the caller's reason dropped; being clean, a
     * following sync leaves the row as it was.
     */
    method AddStoredMuteThenSync(tgUser: int, tgChat: int, reason: string, now: int)
      requires Valid()
      requires (tgUser, tgChat) !in cache && (tgUser, tgChat) in db
      modifies this`cache, this`dirty, this`users, this`chats, this`db, this`nextId, this`storeCalls
      ensures Valid()
      ensures (tgUser, tgChat) in cache && (tgUser, tgChat) !in dirty
      ensures Attr(cache[(tgUser, tgChat)], "reason") == Attr(old(db)[(tgUser, tgChat)], "reason")
      ensures (tgUser, tgChat) in db && db[(tgUser, tgChat)] == old(db)[(tgUser, tgChat)]
    {
      var key := (tgUser, tgChat);
      AddMute(tgUser, tgChat, map["reason" := Str(reason)], now);
      ghost var before := db;
      var payloads := Sync(true);
      FlushWritesMute(before, users, chats, payloads, key);
    }

    /**
     * An edit between the snapshot and the commit of a sync is cleared
     * with the snapshot: the key is clean although the store holds the
     * reason it had before the edit.
     */
    method AddMuteDuringSync(tgUser: int, tgChat: int, reason: string, now: int)
      requires Valid()
      requires (tgUser, tgChat) in dirty && tgUser in users && tgChat in chats
      requires "reason" in cache[(tgUser, tgChat)] && cache[(tgUser, tgChat)]["reason"] != Str(reason)
      modifies this`cache, this`dirty, this`users, this`chats, this`db, this`nextId, this`storeCalls
      ensures Valid()
      ensures (tgUser, tgChat) !in dirty && (tgUser, tgChat) in cache && Attr(cache[(tgUser, tgChat)], "reason") == Str(reason)
      ensures (tgUser, tgChat) in db && Attr(db[(tgUser, tgChat)], "reason") == old(cache)[(tgUser, tgChat)]["reason"]
    {
      var key := (tgUser, tgChat);
      var snapshot, payloads := BeginSync();
      AddMute(tgUser, tgChat, map["reason" := Str(reason)], now);
      assert cache[key] == Patched(old(cache)[key], map["reason" := Str(reason)]);
      Flush(payloads, true);
      CommitSync(snapshot);
      FlushWritesMute(old(db), users, chats, payloads, key);
    }
  }
}
