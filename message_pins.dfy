/**
 * The pinned messages cache, keyed by (Telegram chat id, message id). A
 * pin is cached once; pinning it again changes nothing. A sync subtracts
 * its whole snapshot from the dirty set.
 */
module MessagePins {
  import opened WriteBack

  /** (Telegram chat id, message id). */
  type Key = (int, int)

  /** `_CachedPin`. */
  datatype PinRecord = PinRecord(id: int, tgChat: int, messageId: int, pinnedByTg: Option<int>, pinnedAt: int)

  /** A row of the pins table, indexed by its Telegram chat id and message id. */
  datatype PinRow = PinRow(id: int, pinnedById: Option<int>, pinnedAt: int)

  /** The user row id a truthy Telegram id leads to, when that user has a row. */
  function PinnedById(tg: Option<int>, users: map<int, int>): (r: Option<int>)
    ensures r.Some? <==> TruthyId(tg) && tg.value in users
    ensures r.Some? ==> r.value == users[tg.value]
  {
    if TruthyId(tg) && tg.value in users then Some(users[tg.value]) else None
  }

  /**
   * What the flush does with one payload: nothing when the chat has no
   * row; otherwise `update_or_create` sets the pinner, creating the row
   * with the cached id and time when it is missing.
   */
  function FlushedRow(row: Option<PinRow>, users: map<int, int>, chats: map<int, int>, k: Key, cached: PinRecord): (r: Option<PinRow>)
    ensures k.0 !in chats ==> r == row
    ensures k.0 in chats ==> r.Some? && r.value.pinnedById == PinnedById(cached.pinnedByTg, users)
    ensures k.0 in chats && row.Some? ==> r.value.id == row.value.id && r.value.pinnedAt == row.value.pinnedAt
    ensures k.0 in chats && row.None? ==> r.value.id == cached.id && r.value.pinnedAt == cached.pinnedAt
  {
    if k.0 !in chats then row
    else
      match row
      case Some(existing) => Some(existing.(pinnedById := PinnedById(cached.pinnedByTg, users)))
      case None => Some(PinRow(cached.id, PinnedById(cached.pinnedByTg, users), cached.pinnedAt))
  }

  function Step(users: map<int, int>, chats: map<int, int>): (Option<PinRow>, Key, PinRecord) -> Option<PinRow>
  {
    (row: Option<PinRow>, k: Key, cached: PinRecord) => FlushedRow(row, users, chats, k, cached)
  }

  /** The pins table after a successful flush of `payloads`. */
  function Flushed(db: map<Key, PinRow>, users: map<int, int>, chats: map<int, int>, payloads: map<Key, PinRecord>): map<Key, PinRow>
  {
    FlushedWith(db, payloads, Step(users, chats))
  }

  /**
   * After a flush a payload whose chat exists has a row naming its
   * pinner; one whose chat is missing, and every key outside the
   * payloads, keeps its row (or its absence).
   */
  lemma FlushWritesPinner(db: map<Key, PinRow>, users: map<int, int>, chats: map<int, int>, payloads: map<Key, PinRecord>, k: Key)
    ensures var d := Flushed(db, users, chats, payloads);
            (k in payloads && k.0 in chats ==> k in d && d[k].pinnedById == PinnedById(payloads[k].pinnedByTg, users))
            && (k !in payloads || k.0 !in chats ==> LookupIn(d, k) == LookupIn(db, k))
  {
    if k in payloads {
      assert Step(users, chats)(LookupIn(db, k), k, payloads[k]) == FlushedRow(LookupIn(db, k), users, chats, k, payloads[k]);
    }
  }

  class MessagePinCache {
    var cache: map<Key, PinRecord>
    var dirty: set<Key>
    /** The users table: Telegram id to row id. */
    var users: map<int, int>
    /** The chats table: Telegram id to row id. */
    var chats: map<int, int>
    /** The pins table, by Telegram chat id and message id. */
    var db: map<Key, PinRow>
    var nextId: int
    ghost var storeCalls: nat

    ghost predicate Valid()
      reads this
    {
      dirty <= cache.Keys
    }

    constructor (userRows: map<int, int>, chatRows: map<int, int>, pinRows: map<Key, PinRow>, firstId: int)
      ensures Valid()
      ensures cache == map[] && dirty == {} && users == userRows && chats == chatRows && db == pinRows
      ensures nextId == firstId && storeCalls == 0
    {
      cache := map[];
      dirty := {};
      users := userRows;
      chats := chatRows;
      db := pinRows;
      nextId := firstId;
      storeCalls := 0;
    }

    /** `Chat.get_or_create(tg_chat_id=tg)`. */
    method EnsureChat(tg: int)
      modifies this`chats, this`nextId, this`storeCalls
      ensures tg in old(chats) ==> chats == old(chats) && nextId == old(nextId)
      ensures tg !in old(chats) ==> chats == old(chats)[tg := old(nextId)] && nextId == old(nextId) + 1
      ensures storeCalls == old(storeCalls) + 1
    {
      storeCalls := storeCalls + 1;
      if tg !in chats {
        chats := chats[tg := nextId];
        nextId := nextId + 1;
      }
    }

    /** `User.get_or_create(tg_user_id=tg)` for a truthy pinner; nothing otherwise. */
    method EnsurePinner(tg: Option<int>) returns (id: Option<int>)
      modifies this`users, this`nextId, this`storeCalls
      ensures id == PinnedById(tg, users)
      ensures TruthyId(tg) ==> tg.value in users
      ensures !TruthyId(tg) ==> users == old(users) && nextId == old(nextId)
      ensures TruthyId(tg) && tg.value in old(users) ==> users == old(users) && nextId == old(nextId)
      ensures TruthyId(tg) && tg.value !in old(users) ==> users == old(users)[tg.value := old(nextId)] && nextId == old(nextId) + 1
    {
      id := None;
      if TruthyId(tg) {
        storeCalls := storeCalls + 1;
        if tg.value !in users {
          users := users[tg.value := nextId];
          nextId := nextId + 1;
        }
        id := Some(users[tg.value]);
      }
    }

    /**
     * `MessagePinRepository.ensure_record`: ensure the chat and a truthy
     * pinner, then get the pin row or create it, stamped now.
     */
    method EnsureRecord(k: Key, pinnedByTg: Option<int>, now: int) returns (row: PinRow, created: bool)
      modifies this`users, this`chats, this`db, this`nextId, this`storeCalls
      ensures k.0 in chats
      ensures created == (k !in old(db))
      ensures db == old(db)[k := row]
      ensures !created ==> row == old(db)[k]
      ensures created ==> row == PinRow(nextId - 1, PinnedById(pinnedByTg, users), now)
    {
      EnsureChat(k.0);
      var pinnedById := EnsurePinner(pinnedByTg);
      storeCalls := storeCalls + 1;
      if k in db {
        row, created := db[k], false;
      } else {
        row, created := PinRow(nextId, pinnedById, now), true;
        nextId := nextId + 1;
        db := db[k := row];
      }
    }

    /**
     * `add_pin`: a cached key is left alone, with no store call; a new one
     * is ensured in the store, cached with the pinner given and marked dirty.
     */
    method AddPin(tgChat: int, messageId: int, pinnedByTg: Option<int>, now: int)
      requires Valid()
      modifies this`cache, this`dirty, this`users, this`chats, this`db, this`nextId, this`storeCalls
      ensures Valid()
      ensures (tgChat, messageId) in old(cache) ==>
                cache == old(cache) && dirty == old(dirty) && db == old(db) && storeCalls == old(storeCalls)
                && users == old(users) && chats == old(chats)
      ensures (tgChat, messageId) !in old(cache) ==>
                tgChat in chats && (tgChat, messageId) in db && db == old(db)[(tgChat, messageId) := db[(tgChat, messageId)]]
                && ((tgChat, messageId) in old(db) ==> db[(tgChat, messageId)] == old(db)[(tgChat, messageId)])
                && cache == old(cache)[(tgChat, messageId) :=
                     PinRecord(db[(tgChat, messageId)].id, tgChat, messageId, pinnedByTg, db[(tgChat, messageId)].pinnedAt)]
                && dirty == old(dirty) + {(tgChat, messageId)}
    {
      var key := (tgChat, messageId);
      if key in cache {
        return;
      }
      var row, _ := EnsureRecord(key, pinnedByTg, now);
      cache := cache[key := PinRecord(row.id, tgChat, messageId, pinnedByTg, row.pinnedAt)];
      dirty := dirty + {key};
    }

    /** `delete_record`: only when the chat has a row. */
    method DeleteRecord(k: Key)
      modifies this`db, this`storeCalls
      ensures db == if k.0 in chats then old(db) - {k} else old(db)
      ensures storeCalls == old(storeCalls) + 1
    {
      storeCalls := storeCalls + 1;
      if k.0 in chats {
        db := db - {k};
      }
    }

    /** `remove_pin`: pop and discard the key (absent is fine), then delete its row. */
    method RemovePin(tgChat: int, messageId: int)
      requires Valid()
      modifies this`cache, this`dirty, this`db, this`storeCalls
      ensures Valid()
      ensures cache == old(cache) - {(tgChat, messageId)} && dirty == old(dirty) - {(tgChat, messageId)}
      ensures (tgChat, messageId) !in GetChatPins(tgChat)
      ensures db == if tgChat in chats then old(db) - {(tgChat, messageId)} else old(db)
    {
      var key := (tgChat, messageId);
      cache := cache - {key};
      dirty := dirty - {key};
      DeleteRecord(key);
    }

    /** `get_chat_pins(c)`: the cached pins of chat `c`. */
    function GetChatPins(tgChat: int): (r: map<Key, PinRecord>)
      reads this
      ensures forall k :: k in r ==> k in cache && k.0 == tgChat && r[k] == cache[k]
      ensures forall k :: k in cache && k.0 == tgChat ==> k in r
    {
      WithFirst(cache, tgChat)
    }

    /** The first half of `sync`: the dirty set as it is, and copies of its cached records. */
    method BeginSync() returns (snapshot: set<Key>, payloads: map<Key, PinRecord>)
      requires Valid()
      ensures snapshot == dirty
      ensures payloads == Snapshot(dirty, cache) && payloads.Keys == dirty
    {
      snapshot := dirty;
      payloads := map k | k in dirty && k in cache :: cache[k];
    }

    /** The transaction of `sync`; `ok` is false when the store raised, and it is rolled back. */
    method Flush(payloads: map<Key, PinRecord>, ok: bool)
      requires Valid()
      modifies this`db, this`storeCalls
      ensures Valid()
      ensures db == if ok then Flushed(old(db), users, chats, payloads) else old(db)
      ensures storeCalls == old(storeCalls) + 1
    {
      storeCalls := storeCalls + 1;
      var d := FlushLoop(db, payloads, Step(users, chats));
      if ok {
        db := d;
      }
    }

    /** The commit of `sync`: `_dirty -= dirty_snapshot`. */
    method CommitSync(snapshot: set<Key>)
      requires Valid()
      modifies this`dirty
      ensures Valid()
      ensures dirty == old(dirty) - snapshot
    {
      dirty := dirty - snapshot;
    }

    /**
     * `sync`, run without interleaving: with no cached dirty key there is
     * no store call; a failure leaves dirty as it was; a success empties
     * it, pins skipped for a missing chat included.
     */
    method Sync(ok: bool) returns (payloads: map<Key, PinRecord>)
      requires Valid()
      modifies this`db, this`dirty, this`storeCalls
      ensures Valid()
      ensures payloads == Snapshot(old(dirty), cache) && payloads.Keys == old(dirty)
      ensures payloads == map[] ==> db == old(db) && dirty == old(dirty) && storeCalls == old(storeCalls)
      ensures payloads != map[] ==> db == (if ok then Flushed(old(db), users, chats, payloads) else old(db))
      ensures dirty == if ok then {} else old(dirty)
    {
      var snapshot;
      snapshot, payloads := BeginSync();
      if payloads == map[] {
        return;
      }
      Flush(payloads, ok);
      if ok {
        CommitSync(snapshot);
      }
    }

    /**
     * Pinning a message the store already holds under another pinner, then
     * syncing, leaves the store naming the new pinner.
     */
    method RepinThenSync(tgChat: int, messageId: int, pinnedByTg: Option<int>, now: int)
      requires Valid()
      requires (tgChat, messageId) !in cache
      modifies this`cache, this`dirty, this`users, this`chats, this`db, this`nextId, this`storeCalls
      ensures Valid()
      ensures dirty == {}
      ensures (tgChat, messageId) in db && db[(tgChat, messageId)].pinnedById == PinnedById(pinnedByTg, users)
    {
      var key := (tgChat, messageId);
      AddPin(tgChat, messageId, pinnedByTg, now);
      assert key in dirty && cache[key].pinnedByTg == pinnedByTg && tgChat in chats;
      ghost var before := db;
      var payloads := Sync(true);
      assert key in payloads && payloads[key] == cache[key];
      FlushWritesPinner(before, users, chats, payloads, key);
    }
  }
}
