/**
 * The welcome messages cache: one message per optional chat id (None
 * holding the message used where no other is set). `set_message` goes
 * through get-or-create, which leaves an existing row alone; the store
 * catches up at the next sync, which subtracts its whole snapshot from
 * the dirty set.
 */
module WelcomeMessages {
  import opened WriteBack

  /** The chat id a message belongs to, or None. */
  type Key = Option<int>

  /** `_CachedWelcome`. */
  datatype WelcomeRecord = WelcomeRecord(id: int, chatId: Key, text: string, createdByTg: Option<int>, createdAt: int, isDefault: bool)

  /** A row of the welcome messages table, indexed by its chat id. */
  datatype WelcomeRow = WelcomeRow(id: int, text: string, createdById: Option<int>, createdAt: int, isDefault: bool)

  /**
   * What the flush does with one payload: `update_or_create` sets the
   * text, the creator and the default flag, creating the row with the
   * cached id and time when it is missing.
   */
  function FlushedRow(row: Option<WelcomeRow>, users: map<int, int>, cached: WelcomeRecord): (r: Option<WelcomeRow>)
    ensures r.Some? && r.value.text == cached.text && r.value.isDefault == cached.isDefault
    ensures r.value.createdById == CreatorId(cached.createdByTg, users)
    ensures row.Some? ==> r.value.id == row.value.id && r.value.createdAt == row.value.createdAt
    ensures row.None? ==> r.value.id == cached.id && r.value.createdAt == cached.createdAt
  {
    match row
    case Some(existing) =>
      Some(existing.(text := cached.text, createdById := CreatorId(cached.createdByTg, users), isDefault := cached.isDefault))
    case None =>
      Some(WelcomeRow(cached.id, cached.text, CreatorId(cached.createdByTg, users), cached.createdAt, cached.isDefault))
  }

  function Step(users: map<int, int>): (Option<WelcomeRow>, Key, WelcomeRecord) -> Option<WelcomeRow>
  {
    (row: Option<WelcomeRow>, k: Key, cached: WelcomeRecord) => FlushedRow(row, users, cached)
  }

  /** The welcome messages table after a successful flush of `payloads`. */
  function Flushed(db: map<Key, WelcomeRow>, users: map<int, int>, payloads: map<Key, WelcomeRecord>): map<Key, WelcomeRow>
  {
    FlushedWith(db, payloads, Step(users))
  }

  /** After a flush every payload has a row holding its text and flag; other keys keep their rows. */
  lemma FlushWritesText(db: map<Key, WelcomeRow>, users: map<int, int>, payloads: map<Key, WelcomeRecord>, k: Key)
    ensures var d := Flushed(db, users, payloads);
            (k in payloads ==> k in d && d[k].text == payloads[k].text && d[k].isDefault == payloads[k].isDefault)
            && (k !in payloads ==> LookupIn(d, k) == LookupIn(db, k))
  {
    if k in payloads {
      assert Step(users)(LookupIn(db, k), k, payloads[k]) == FlushedRow(LookupIn(db, k), users, payloads[k]);
    }
  }

  class WelcomeCache {
    var cache: map<Key, WelcomeRecord>
    var dirty: set<Key>
    /** The users table: Telegram id to row id. */
    var users: map<int, int>
    /** The welcome messages table, by chat id. */
    var db: map<Key, WelcomeRow>
    var nextId: int
    ghost var storeCalls: nat

    ghost predicate Valid()
      reads this
    {
      dirty <= cache.Keys
    }

    constructor (userRows: map<int, int>, welcomeRows: map<Key, WelcomeRow>, firstId: int)
      ensures Valid()
      ensures cache == map[] && dirty == {} && users == userRows && db == welcomeRows
      ensures nextId == firstId && storeCalls == 0
    {
      cache := map[];
      dirty := {};
      users := userRows;
      db := welcomeRows;
      nextId := firstId;
      storeCalls := 0;
    }

    /** `User.get_or_create(tg_user_id=tg)` for a truthy creator; nothing otherwise. */
    method EnsureCreator(tg: Option<int>) returns (id: Option<int>)
      modifies this`users, this`nextId, this`storeCalls
      ensures id == CreatorId(tg, users)
      ensures !TruthyId(tg) ==> users == old(users) && nextId == old(nextId)
      ensures TruthyId(tg) ==> tg.value in users && users == old(users)[tg.value := users[tg.value]]
      ensures TruthyId(tg) && tg.value in old(users) ==> users == old(users) && nextId == old(nextId)
    {
      id := None;
      if TruthyId(tg) {
        storeCalls := storeCalls + 1;
        if tg.value !in users {
          users := users[tg.value := nextId];
          nextId := nextId + 1;
        }
        id := Some(users[tg.value]);
      }
    }

    /**
     * `WelcomeRepository.ensure_record`: ensure a truthy creator, then get
     * the row, or create it with the text, the creator, the flag and the
     * clock; an existing row keeps what it had.
     */
    method EnsureRecord(chatId: Key, text: string, createdByTg: Option<int>, isDefault: bool, now: int)
      returns (row: WelcomeRow, created: bool)
      modifies this`users, this`db, this`nextId, this`storeCalls
      ensures created == (chatId !in old(db))
      ensures !created ==> row == old(db)[chatId] && db == old(db)
      ensures created ==>
                row == WelcomeRow(nextId - 1, text, CreatorId(createdByTg, users), now, isDefault)
                && db == old(db)[chatId := row]
    {
      var createdById := EnsureCreator(createdByTg);
      storeCalls := storeCalls + 1;
      if chatId in db {
        row, created := db[chatId], false;
      } else {
        row, created := WelcomeRow(nextId, text, createdById, now, isDefault), true;
        nextId := nextId + 1;
        db := db[chatId := row];
      }
    }

    /**
     * `set_message`: get or create the row, then cache the new message
     * under the row's id and creation time and mark the key dirty.
     */
    method SetMessage(chatId: Key, text: string, createdByTg: Option<int>, isDefault: bool, now: int)
      requires Valid()
      modifies this`cache, this`dirty, this`users, this`db, this`nextId, this`storeCalls
      ensures Valid()
      ensures chatId in db
      ensures chatId in old(db) ==> db == old(db)
      ensures cache == old(cache)[chatId := WelcomeRecord(db[chatId].id, chatId, text, createdByTg, db[chatId].createdAt, isDefault)]
      ensures dirty == old(dirty) + {chatId}
    {
      var row, _ := EnsureRecord(chatId, text, createdByTg, isDefault, now);
      cache := cache[chatId := WelcomeRecord(row.id, chatId, text, createdByTg, row.createdAt, isDefault)];
      dirty := dirty + {chatId};
    }

    /** `remove_message`: pop and discard the key (absent is fine), then delete its row. */
    method RemoveMessage(chatId: Key)
      requires Valid()
      modifies this`cache, this`dirty, this`db, this`storeCalls
      ensures Valid()
      ensures cache == old(cache) - {chatId} && dirty == old(dirty) - {chatId}
      ensures Get(chatId) == None
      ensures db == old(db) - {chatId}
      ensures storeCalls == old(storeCalls) + 1
    {
      cache := cache - {chatId};
      dirty := dirty - {chatId};
      storeCalls := storeCalls + 1;
      db := db - {chatId};
    }

    /** `get`: a copy of the cached message, or None. */
    function Get(chatId: Key): (r: Option<WelcomeRecord>)
      reads this
      ensures r.Some? <==> chatId in cache
      ensures r.Some? ==> r.value == cache[chatId]
    {
      if chatId in cache then Some(cache[chatId]) else None
    }

    /** The first half of `sync`: the dirty set as it is, and copies of its cached records. */
    method BeginSync() returns (snapshot: set<Key>, payloads: map<Key, WelcomeRecord>)
      requires Valid()
      ensures snapshot == dirty
      ensures payloads == Snapshot(dirty, cache) && payloads.Keys == dirty
    {
      snapshot := dirty;
      payloads := map k | k in dirty && k in cache :: cache[k];
    }

    /** The transaction of `sync`; `ok` is false when the store raised, and it is rolled back. */
    method Flush(payloads: map<Key, WelcomeRecord>, ok: bool)
      requires Valid()
      modifies this`db, this`storeCalls
      ensures Valid()
      ensures db == if ok then Flushed(old(db), users, payloads) else old(db)
      ensures storeCalls == old(storeCalls) + 1
    {
      storeCalls := storeCalls + 1;
      var d := FlushLoop(db, payloads, Step(users));
      if ok {
        db := d;
      }
    }

    /** The commit of `sync`: `_dirty -= dirty_snapshot`. */
    method CommitSync(snapshot: set<Key>)
      requires Valid()
      modifies this`dirty
      ensures Valid()
      ensures dirty == old(dirty) - snapshot
    {
      dirty := dirty - snapshot;
    }

    /**
     * `sync`, run without interleaving: with no cached dirty key there is
     * no store call; a failure leaves dirty as it was; a success writes
     * every payload and empties dirty.
     */
    method Sync(ok: bool) returns (payloads: map<Key, WelcomeRecord>)
      requires Valid()
      modifies this`db, this`dirty, this`storeCalls
      ensures Valid()
      ensures payloads == Snapshot(old(dirty), cache) && payloads.Keys == old(dirty)
      ensures payloads == map[] ==> db == old(db) && dirty == old(dirty) && storeCalls == old(storeCalls)
      ensures payloads != map[] ==> db == (if ok then Flushed(old(db), users, payloads) else old(db))
      ensures dirty == if ok then {} else old(dirty)
    {
      var snapshot;
      snapshot, payloads := BeginSync();
      if payloads == map[] {
        return;
      }
      Flush(payloads, ok);
      if ok {
        CommitSync(snapshot);
      }
    }

    /**
     * Two `set_message` calls for one chat, then a sync: the cache
     * answers with the second text, and after the sync the row holds it
     * too, although the second call left the row alone.
     */
    method SetTwiceThenSync(chatId: Key, first: string, second: string, createdByTg: Option<int>, now: int)
      requires Valid()
      modifies this`cache, this`dirty, this`users, this`db, this`nextId, this`storeCalls
      ensures Valid()
      ensures Get(chatId).Some? && Get(chatId).value.text == second && dirty == {}
      ensures chatId in db && db[chatId].text == second
    {
      SetMessage(chatId, first, createdByTg, false, now);
      SetMessage(chatId, second, createdByTg, false, now);
      ghost var before := db;
      var payloads := Sync(true);
      FlushWritesText(before, users, payloads, chatId);
    }
  }
}
