/**
 * The nicks cache: the nickname of a user in a chat, keyed by the pair
 * (Telegram user id, Telegram chat id). A sync clears every flushed key
 * without rechecking it.
 */
module Nicks {
  import opened WriteBack

  /** (Telegram user id, Telegram chat id). */
  type Key = (int, int)

  /** `_CachedNick`; the row id is left out, nothing reads it. */
  datatype NickRecord = NickRecord(tgUser: int, tgChat: int, nick: string, createdByTg: Option<int>, createdAt: int)

  /** A row of the nicks table, indexed by the Telegram ids its foreign keys lead to. */
  datatype NickRow = NickRow(userId: int, chatId: int, nick: string, createdById: Option<int>, createdAt: int)

  /**
   * What the flush does with one payload: nothing unless both the user and
   * the chat have rows; then an existing row takes the nick and the creator
   * (rewritten only when one differs), a missing one is created.
   */
  function FlushedRow(row: Option<NickRow>, users: map<int, int>, chats: map<int, int>, k: Key, cached: NickRecord): (r: Option<NickRow>)
    ensures !(k.0 in users && k.1 in chats) ==> r == row
    ensures k.0 in users && k.1 in chats ==>
              r.Some? && r.value.nick == cached.nick && r.value.createdById == CreatorId(cached.createdByTg, users)
  {
    if !(k.0 in users && k.1 in chats) then row
    else
      var creator := CreatorId(cached.createdByTg, users);
      match row
      case Some(existing) =>
        if existing.nick != cached.nick || existing.createdById != creator then
          Some(existing.(nick := cached.nick, createdById := creator))
        else
          row
      case None => Some(NickRow(users[k.0], chats[k.1], cached.nick, creator, cached.createdAt))
  }

  function Step(users: map<int, int>, chats: map<int, int>): (Option<NickRow>, Key, NickRecord) -> Option<NickRow>
  {
    (row: Option<NickRow>, k: Key, cached: NickRecord) => FlushedRow(row, users, chats, k, cached)
  }

  /** The nicks table after a successful flush of `payloads`. */
  function Flushed(db: map<Key, NickRow>, users: map<int, int>, chats: map<int, int>, payloads: map<Key, NickRecord>): map<Key, NickRow>
  {
    FlushedWith(db, payloads, Step(users, chats))
  }

  /**
   * After a flush, every payload whose user and chat exist has a row with
   * its nick; one whose user or chat is missing is skipped and its row,
   * if any, is left alone.
   */
  lemma FlushWritesNick(db: map<Key, NickRow>, users: map<int, int>, chats: map<int, int>, payloads: map<Key, NickRecord>, k: Key)
    requires k in payloads
    ensures var d := Flushed(db, users, chats, payloads);
            (k.0 in users && k.1 in chats ==> k in d && d[k].nick == payloads[k].nick)
            && (!(k.0 in users && k.1 in chats) ==> LookupIn(d, k) == LookupIn(db, k))
  {
    var step := Step(users, chats);
    assert step(LookupIn(db, k), k, payloads[k]) == FlushedRow(LookupIn(db, k), users, chats, k, payloads[k]);
  }

  class NickCache {
    var cache: map<Key, NickRecord>
    var dirty: set<Key>
    /** The users table: Telegram id to row id. */
    var users: map<int, int>
    /** The chats table: Telegram id to row id. */
    var chats: map<int, int>
    /** The nicks table, by the Telegram ids of its user and chat. */
    var db: map<Key, NickRow>
    var nextId: int
    ghost var storeCalls: nat

    ghost predicate Valid()
      reads this
    {
      dirty <= cache.Keys
    }

    constructor (userRows: map<int, int>, chatRows: map<int, int>, nickRows: map<Key, NickRow>, firstId: int)
      ensures Valid()
      ensures cache == map[] && dirty == {} && users == userRows && chats == chatRows && db == nickRows
      ensures nextId == firstId && storeCalls == 0
    {
      cache := map[];
      dirty := {};
      users := userRows;
      chats := chatRows;
      db := nickRows;
      nextId := firstId;
      storeCalls := 0;
    }

    /** `User.get_or_create(tg_user_id=tg)`: the id of the user row, created when missing. */
    method EnsureUser(tg: int) returns (id: int)
      modifies this`users, this`nextId, this`storeCalls
      ensures users == old(users)[tg := id]
      ensures tg in old(users) ==> id == old(users)[tg] && nextId == old(nextId)
      ensures tg !in old(users) ==> id == old(nextId) && nextId == old(nextId) + 1
      ensures storeCalls == old(storeCalls) + 1
    {
      storeCalls := storeCalls + 1;
      if tg in users {
        id := users[tg];
      } else {
        id := nextId;
        users := users[tg := id];
        nextId := nextId + 1;
      }
    }

    /** `Chat.get_or_create(tg_chat_id=tg)`. */
    method EnsureChat(tg: int) returns (id: int)
      modifies this`chats, this`nextId, this`storeCalls
      ensures chats == old(chats)[tg := id]
      ensures tg in old(chats) ==> id == old(chats)[tg] && nextId == old(nextId)
      ensures tg !in old(chats) ==> id == old(nextId) && nextId == old(nextId) + 1
      ensures storeCalls == old(storeCalls) + 1
    {
      storeCalls := storeCalls + 1;
      if tg in chats {
        id := chats[tg];
      } else {
        id := nextId;
        chats := chats[tg := id];
        nextId := nextId + 1;
      }
    }

    /**
     * `NickRepository.ensure_record`, an upsert: ensure the user, the chat
     * and a truthy creator, then create the nick row or overwrite the nick
     * and the creator of the existing one.
     */
    method EnsureRecord(tgUser: int, tgChat: int, nick: string, createdByTg: Option<int>, now: int) returns (row: NickRow, created: bool)
      modifies this`users, this`chats, this`db, this`nextId, this`storeCalls
      ensures tgUser in users && tgChat in chats
      ensures TruthyId(createdByTg) ==> createdByTg.value in users && row.createdById == Some(users[createdByTg.value])
      ensures !TruthyId(createdByTg) ==> row.createdById == None
      ensures created == ((tgUser, tgChat) !in old(db))
      ensures db == old(db)[(tgUser, tgChat) := row]
      ensures row.nick == nick
      ensures !created ==> row == old(db)[(tgUser, tgChat)].(nick := nick, createdById := row.createdById)
      ensures created ==> row.createdAt == now
    {
      var uid := EnsureUser(tgUser);
      var cid := EnsureChat(tgChat);
      var creator := None;
      if TruthyId(createdByTg) {
        var id := EnsureUser(createdByTg.value);
        creator := Some(id);
      }
      storeCalls := storeCalls + 1;
      var key := (tgUser, tgChat);
      if key in db {
        row, created := db[key].(nick := nick, createdById := creator), false;
        storeCalls := storeCalls + 1;
      } else {
        row, created := NickRow(uid, cid, nick, creator, now), true;
      }
      db := db[key := row];
    }

    /** `get(key)`. */
    function Get(k: Key): (r: Option<NickRecord>)
      reads this
      ensures r.Some? <==> k in cache
      ensures r.Some? ==> r.value == cache[k]
    {
      if k in cache then Some(cache[k]) else None
    }

    /** `get(key, "nick")`. */
    function GetNick(k: Key): (r: Option<string>)
      reads this
      ensures r.Some? <==> k in cache
      ensures r.Some? ==> r.value == cache[k].nick
    {
      if k in cache then Some(cache[k].nick) else None
    }

    /**
     * `add_nick`: a cached key takes the nick and the creator and becomes
     * dirty, with no store call; an uncached one is upserted in the store
     * and cached clean.
     */
    method AddNick(tgUser: int, tgChat: int, nick: string, createdByTg: Option<int>, now: int)
      requires Valid()
      modifies this`cache, this`dirty, this`users, this`chats, this`db, this`nextId, this`storeCalls
      ensures Valid()
      ensures (tgUser, tgChat) in cache
      ensures cache == old(cache)[(tgUser, tgChat) := cache[(tgUser, tgChat)]]
      ensures cache[(tgUser, tgChat)].nick == nick && cache[(tgUser, tgChat)].createdByTg == createdByTg
      ensures (tgUser, tgChat) in old(cache) ==>
                cache[(tgUser, tgChat)] == old(cache)[(tgUser, tgChat)].(nick := nick, createdByTg := createdByTg)
                && dirty == old(dirty) + {(tgUser, tgChat)}
                && db == old(db) && users == old(users) && chats == old(chats) && storeCalls == old(storeCalls)
      ensures (tgUser, tgChat) !in old(cache) ==>
                dirty == old(dirty)
                && (tgUser, tgChat) in db && db == old(db)[(tgUser, tgChat) := db[(tgUser, tgChat)]]
                && db[(tgUser, tgChat)].nick == nick
                && db[(tgUser, tgChat)].createdById == CreatorId(createdByTg, users)
                && ((tgUser, tgChat) in old(db) ==>
                      db[(tgUser, tgChat)] == old(db)[(tgUser, tgChat)].(nick := nick, createdById := CreatorId(createdByTg, users)))
                && ((tgUser, tgChat) !in old(db) ==> db[(tgUser, tgChat)].createdAt == now)
                && cache[(tgUser, tgChat)].createdAt == db[(tgUser, tgChat)].createdAt
    {
      var key := (tgUser, tgChat);
      if key in cache {
        cache := cache[key := cache[key].(nick := nick, createdByTg := createdByTg)];
        dirty := dirty + {key};
        return;
      }
      var row, _ := EnsureRecord(tgUser, tgChat, nick, createdByTg, now);
      cache := cache[key := NickRecord(tgUser, tgChat, row.nick, createdByTg, row.createdAt)];
    }

    /** `NickRepository.delete_record`: only when both the user and the chat rows exist. */
    method DeleteRecord(tgUser: int, tgChat: int)
      modifies this`db, this`storeCalls
      ensures db == if tgUser in users && tgChat in chats then old(db) - {(tgUser, tgChat)} else old(db)
      ensures storeCalls == old(storeCalls) + 1
    {
      storeCalls := storeCalls + 1;
      if tgUser in users && tgChat in chats {
        db := db - {(tgUser, tgChat)};
      }
    }

    /** `remove_nick`: evict the key, delete the row, and return the record it had, if cached. */
    method RemoveNick(tgUser: int, tgChat: int) returns (removed: Option<NickRecord>)
      requires Valid()
      modifies this`cache, this`dirty, this`db, this`storeCalls
      ensures Valid()
      ensures removed == old(Get((tgUser, tgChat)))
      ensures cache == old(cache) - {(tgUser, tgChat)} && dirty == old(dirty) - {(tgUser, tgChat)}
      ensures db == if tgUser in users && tgChat in chats then old(db) - {(tgUser, tgChat)} else old(db)
      ensures Get((tgUser, tgChat)) == None
    {
      var key := (tgUser, tgChat);
      removed := None;
      if key in cache {
        removed := Some(cache[key]);
        dirty := dirty - {key};
        cache := cache - {key};
      }
      DeleteRecord(tgUser, tgChat);
    }

    /** `get_user_nicks(u)`: the cached nicks of user `u`. */
    function GetUserNicks(tgUser: int): (r: map<Key, NickRecord>)
      reads this
      ensures forall k :: k in r ==> k in cache && k.0 == tgUser && r[k] == cache[k]
      ensures forall k :: k in cache && k.0 == tgUser ==> k in r
    {
      WithFirst(cache, tgUser)
    }

    /** `get_chat_nicks(c)`: the cached nicks in chat `c`. */
    function GetChatNicks(tgChat: int): (r: map<Key, NickRecord>)
      reads this
      ensures forall k :: k in r ==> k in cache && k.1 == tgChat && r[k] == cache[k]
      ensures forall k :: k in cache && k.1 == tgChat ==> k in r
    {
      WithSecond(cache, tgChat)
    }

    /**
     * `get_user_nick(u, c)`: the first cached entry matching both key
     * components, which is the entry of `(u, c)` itself.
     */
    function GetUserNick(tgUser: int, tgChat: int): (r: Option<NickRecord>)
      reads this
      ensures r == Get((tgUser, tgChat))
    {
      FiltersMeetAtKey(cache, tgUser, tgChat);
      var both := WithFirst(cache, tgUser).Keys * WithSecond(cache, tgChat).Keys;
      if both == {} then None else Some(cache[(tgUser, tgChat)])
    }

    /** `NickManager.user_has_nick`: a nick is cached for the pair. */
    predicate UserHasNick(tgUser: int, tgChat: int)
      reads this
    {
      GetNick((tgUser, tgChat)).Some?
    }

    /** `user_has_nick` holds exactly for the cached pairs, and after `add_nick` for that pair. */
    lemma UserHasNickIffCached(tgUser: int, tgChat: int)
      ensures UserHasNick(tgUser, tgChat) <==> (tgUser, tgChat) in cache
      ensures UserHasNick(tgUser, tgChat) <==> GetUserNick(tgUser, tgChat).Some?
    {
    }

    /** The first half of `sync`: copy the dirty records that are still cached. */
    method BeginSync() returns (payloads: map<Key, NickRecord>)
      requires Valid()
      ensures payloads == Snapshot(dirty, cache)
      ensures payloads.Keys == dirty
    {
      payloads := map k | k in dirty && k in cache :: cache[k];
    }

    /** The batch loop of `sync`; `ok` is false when the store raised, and nothing is written then. */
    method Flush(payloads: map<Key, NickRecord>, ok: bool)
      requires Valid()
      modifies this`db, this`storeCalls
      ensures Valid()
      ensures db == if ok then Flushed(old(db), users, chats, payloads) else old(db)
      ensures storeCalls == old(storeCalls) + 1
    {
      storeCalls := storeCalls + 1;
      var d := FlushLoop(db, payloads, Step(users, chats));
      if ok {
        db := d;
      }
    }

    /** The commit loop of `sync`: every flushed key leaves the dirty set, skipped or raced ones too. */
    method CommitSync(payloads: map<Key, NickRecord>)
      requires Valid()
      modifies this`dirty
      ensures Valid()
      ensures dirty == old(dirty) - payloads.Keys
    {
      var todo := payloads.Keys;
      while todo != {}
        invariant todo <= payloads.Keys
        invariant dirty == old(dirty) - (payloads.Keys - todo)
        decreases todo
      {
        ghost var w := Member(todo);
        var k :| k in todo;
        dirty := dirty - {k};
        todo := todo - {k};
      }
    }

    /**
     * `sync`, run without interleaving: nothing happens while the dirty
     * set is empty; a failed flush leaves dirty as it was; a successful
     * one empties it.
     */
    method Sync(ok: bool) returns (payloads: map<Key, NickRecord>)
      requires Valid()
      modifies this`db, this`dirty, this`storeCalls
      ensures Valid()
      ensures payloads == Snapshot(old(dirty), cache) && payloads.Keys == old(dirty)
      ensures old(dirty) == {} ==> db == old(db) && dirty == old(dirty) && storeCalls == old(storeCalls)
      ensures old(dirty) != {} ==> db == (if ok then Flushed(old(db), users, chats, payloads) else old(db))
      ensures dirty == if ok then {} else old(dirty)
    {
      payloads := BeginSync();
      if dirty == {} {
        return;
      }
      Flush(payloads, ok);
      if ok {
        CommitSync(payloads);
      }
    }

    /**
     * A nick changed between the snapshot and the commit of a sync is
     * lost: the key is clean afterwards although the store holds the nick
     * that was copied before the change.
     */
    method AddNickDuringSync(tgUser: int, tgChat: int, nick: string, now: int)
      requires Valid()
      requires (tgUser, tgChat) in dirty && tgUser in users && tgChat in chats
      requires cache[(tgUser, tgChat)].nick != nick
      modifies this`cache, this`dirty, this`users, this`chats, this`db, this`nextId, this`storeCalls
      ensures Valid()
      ensures (tgUser, tgChat) !in dirty && GetNick((tgUser, tgChat)) == Some(nick)
      ensures (tgUser, tgChat) in db && db[(tgUser, tgChat)].nick == old(cache)[(tgUser, tgChat)].nick != nick
    {
      var key := (tgUser, tgChat);
      var payloads := BeginSync();
      AddNick(tgUser, tgChat, nick, None, now);
      Flush(payloads, true);
      CommitSync(payloads);
      FlushWritesNick(old(db), users, chats, payloads, key);
    }
  }
}
