/**
 * The chat settings cache: one JSON value per (Telegram chat id, setting
 * name). Setting a cached key only touches the cache; a new key is
 * upserted in the store first. A sync subtracts its whole snapshot from
 * the dirty set.
 */
module ChatSetting {
  import opened WriteBack

  /** (Telegram chat id, setting name). */
  type Key = (int, string)

  /** `_CachedChatSetting`. */
  datatype SettingRecord = SettingRecord(id: int, tgChat: int, name: string, value: Val)

  /** A row of the chat settings table, indexed by its Telegram chat id and setting name. */
  datatype SettingRow = SettingRow(id: int, value: Val)

  /**
   * What the flush does with one payload: nothing when the chat has no
   * row; otherwise `update_or_create` sets the value, creating the row
   * with the cached id when it is missing.
   */
  function FlushedRow(row: Option<SettingRow>, chats: map<int, int>, k: Key, cached: SettingRecord): (r: Option<SettingRow>)
    ensures k.0 !in chats ==> r == row
    ensures k.0 in chats ==> r.Some? && r.value.value == cached.value
    ensures k.0 in chats ==> r.value.id == if row.Some? then row.value.id else cached.id
  {
    if k.0 !in chats then row
    else
      match row
      case Some(existing) => Some(existing.(value := cached.value))
      case None => Some(SettingRow(cached.id, cached.value))
  }

  function Step(chats: map<int, int>): (Option<SettingRow>, Key, SettingRecord) -> Option<SettingRow>
  {
    (row: Option<SettingRow>, k: Key, cached: SettingRecord) => FlushedRow(row, chats, k, cached)
  }

  /** The chat settings table after a successful flush of `payloads`. */
  function Flushed(db: map<Key, SettingRow>, chats: map<int, int>, payloads: map<Key, SettingRecord>): map<Key, SettingRow>
  {
    FlushedWith(db, payloads, Step(chats))
  }

  /**
   * After a flush a payload whose chat exists has a row holding its
   * value; one whose chat is missing, and every key outside the payloads,
   * keeps its row (or its absence).
   */
  lemma FlushWritesValue(db: map<Key, SettingRow>, chats: map<int, int>, payloads: map<Key, SettingRecord>, k: Key)
    ensures var d := Flushed(db, chats, payloads);
            (k in payloads && k.0 in chats ==> k in d && d[k].value == payloads[k].value)
            && (k !in payloads || k.0 !in chats ==> LookupIn(d, k) == LookupIn(db, k))
  {
    if k in payloads {
      assert Step(chats)(LookupIn(db, k), k, payloads[k]) == FlushedRow(LookupIn(db, k), chats, k, payloads[k]);
    }
  }

  class ChatSettingCache {
    var cache: map<Key, SettingRecord>
    var dirty: set<Key>
    /** The chats table: Telegram id to row id. */
    var chats: map<int, int>
    /** The chat settings table, by Telegram chat id and setting name. */
    var db: map<Key, SettingRow>
    var nextId: int
    ghost var storeCalls: nat

    ghost predicate Valid()
      reads this
    {
      dirty <= cache.Keys
    }

    constructor (chatRows: map<int, int>, settingRows: map<Key, SettingRow>, firstId: int)
      ensures Valid()
      ensures cache == map[] && dirty == {} && chats == chatRows && db == settingRows
      ensures nextId == firstId && storeCalls == 0
    {
      cache := map[];
      dirty := {};
      chats := chatRows;
      db := settingRows;
      nextId := firstId;
      storeCalls := 0;
    }

    /**
     * `ChatSettingRepository.ensure_record`: ensure the chat, get or
     * create the row, and save the value when the row held another one:
     * either way the row ends up holding `value`.
     */
    method EnsureRecord(k: Key, value: Val) returns (row: SettingRow)
      modifies this`chats, this`db, this`nextId, this`storeCalls
      ensures k.0 in old(chats) ==> chats == old(chats)
      ensures k.0 in chats
      ensures row.value == value
      ensures k in old(db) ==> row.id == old(db)[k].id
      ensures db == old(db)[k := row]
    {
      storeCalls := storeCalls + 1;
      if k.0 !in chats {
        chats := chats[k.0 := nextId];
        nextId := nextId + 1;
      }
      storeCalls := storeCalls + 1;
      if k in db {
        row := db[k];
        if row.value != value {
          row := row.(value := value);
          storeCalls := storeCalls + 1;
        }
      } else {
        row := SettingRow(nextId, value);
        nextId := nextId + 1;
      }
      db := db[k := row];
    }

    /**
     * `set`: a cached key has its value overwritten and becomes dirty with
     * no store call; a new key is upserted in the store, cached and marked dirty.
     */
    method Set(tgChat: int, name: string, value: Val)
      requires Valid()
      modifies this`cache, this`dirty, this`chats, this`db, this`nextId, this`storeCalls
      ensures Valid()
      ensures (tgChat, name) in cache && cache == old(cache)[(tgChat, name) := cache[(tgChat, name)]]
      ensures cache[(tgChat, name)].value == value
      ensures dirty == old(dirty) + {(tgChat, name)}
      ensures (tgChat, name) in old(cache) ==>
                cache[(tgChat, name)] == old(cache)[(tgChat, name)].(value := value)
                && db == old(db) && chats == old(chats) && storeCalls == old(storeCalls)
      ensures (tgChat, name) !in old(cache) ==>
                tgChat in chats && (tgChat, name) in db && db[(tgChat, name)].value == value
                && db == old(db)[(tgChat, name) := db[(tgChat, name)]]
                && cache[(tgChat, name)] == SettingRecord(db[(tgChat, name)].id, tgChat, name, value)
    {
      var key := (tgChat, name);
      if key in cache {
        cache := cache[key := cache[key].(value := value)];
        dirty := dirty + {key};
        return;
      }
      var row := EnsureRecord(key, value);
      cache := cache[key := SettingRecord(row.id, tgChat, name, value)];
      dirty := dirty + {key};
    }

    /** `get`: the cached value; None both for a missing key and for a stored None. */
    function Get(tgChat: int, name: string): (v: Val)
      reads this
      ensures (tgChat, name) in cache ==> v == cache[(tgChat, name)].value
      ensures (tgChat, name) !in cache ==> v == Null
    {
      if (tgChat, name) in cache then cache[(tgChat, name)].value else Null
    }

    /** `delete_record`: only when the chat has a row. */
    method DeleteRecord(k: Key)
      modifies this`db, this`storeCalls
      ensures db == if k.0 in chats then old(db) - {k} else old(db)
      ensures storeCalls == old(storeCalls) + 1
    {
      storeCalls := storeCalls + 1;
      if k.0 in chats {
        db := db - {k};
      }
    }

    /** `remove`: pop and discard the key (absent is fine), then delete its row. */
    method Remove(tgChat: int, name: string)
      requires Valid()
      modifies this`cache, this`dirty, this`db, this`storeCalls
      ensures Valid()
      ensures cache == old(cache) - {(tgChat, name)} && dirty == old(dirty) - {(tgChat, name)}
      ensures Get(tgChat, name) == Null
      ensures db == if tgChat in chats then old(db) - {(tgChat, name)} else old(db)
    {
      var key := (tgChat, name);
      cache := cache - {key};
      dirty := dirty - {key};
      DeleteRecord(key);
    }

    /** `get_chat_settings(c)`: the cached settings of chat `c`. */
    function GetChatSettings(tgChat: int): (r: map<Key, SettingRecord>)
      reads this
      ensures forall k :: k in r ==> k in cache && k.0 == tgChat && r[k] == cache[k]
      ensures forall k :: k in cache && k.0 == tgChat ==> k in r
    {
      WithFirst(cache, tgChat)
    }

    /** The first half of `sync`: the dirty set as it is, and copies of its cached records. */
    method BeginSync() returns (snapshot: set<Key>, payloads: map<Key, SettingRecord>)
      requires Valid()
      ensures snapshot == dirty
      ensures payloads == Snapshot(dirty, cache) && payloads.Keys == dirty
    {
      snapshot := dirty;
      payloads := map k | k in dirty && k in cache :: cache[k];
    }

    /** The transaction of `sync`; `ok` is false when the store raised, and it is rolled back. */
    method Flush(payloads: map<Key, SettingRecord>, ok: bool)
      requires Valid()
      modifies this`db, this`storeCalls
      ensures Valid()
      ensures db == if ok then Flushed(old(db), chats, payloads) else old(db)
      ensures storeCalls == old(storeCalls) + 1
    {
      storeCalls := storeCalls + 1;
      var d := FlushLoop(db, payloads, Step(chats));
      if ok {
        db := d;
      }
    }

    /** The commit of `sync`: `_dirty -= dirty_snapshot`. */
    method CommitSync(snapshot: set<Key>)
      requires Valid()
      modifies this`dirty
      ensures Valid()
      ensures dirty == old(dirty) - snapshot
    {
      dirty := dirty - snapshot;
    }

    /**
     * `sync`, run without interleaving: with no cached dirty key there is
     * no store call; a failure leaves dirty as it was; a success empties
     * it, settings skipped for a missing chat included.
     */
    method Sync(ok: bool) returns (payloads: map<Key, SettingRecord>)
      requires Valid()
      modifies this`db, this`dirty, this`storeCalls
      ensures Valid()
      ensures payloads == Snapshot(old(dirty), cache) && payloads.Keys == old(dirty)
      ensures payloads == map[] ==> db == old(db) && dirty == old(dirty) && storeCalls == old(storeCalls)
      ensures payloads != map[] ==> db == (if ok then Flushed(old(db), chats, payloads) else old(db))
      ensures dirty == if ok then {} else old(dirty)
    {
      var snapshot;
      snapshot, payloads := BeginSync();
      if payloads == map[] {
        return;
      }
      Flush(payloads, ok);
      if ok {
        CommitSync(snapshot);
      }
    }

    /**
     * Two `set`s on one key, then a sync: the cache and the store both
     * hold the second value (the chat has a row, as it has for every key
     * `set` had to write through).
     */
    method SetTwiceThenSync(tgChat: int, name: string, first: Val, second: Val)
      requires Valid()
      requires (tgChat, name) in cache ==> tgChat in chats
      modifies this`cache, this`dirty, this`chats, this`db, this`nextId, this`storeCalls
      ensures Valid()
      ensures Get(tgChat, name) == second && dirty == {}
      ensures (tgChat, name) in db && db[(tgChat, name)].value == second
    {
      var key := (tgChat, name);
      Set(tgChat, name, first);
      Set(tgChat, name, second);
      assert tgChat in chats && key in dirty;
      ghost var before := db;
      var payloads := Sync(true);
      assert key in payloads && payloads[key].value == second;
      FlushWritesValue(before, chats, payloads, key);
    }
  }
}
