/**
 * The invite links cache: invitations keyed by their token, with a usage
 * counter that deactivates an invite once it reaches its limit.
 */
module InviteLinks {
  import opened WriteBack

  /** `_CachedInviteLink`; the row id is left out, nothing reads it. Times are integers. */
  datatype InviteRecord = InviteRecord(
    token: string, tgChat: int, creatorTg: Option<int>, maxUses: int, usedCount: int,
    expiresAt: Option<int>, singleUse: bool, isActive: bool, createdAt: int)

  /** A row of the invite links table, indexed by its token. */
  datatype InviteRow = InviteRow(
    chatId: int, creatorId: Option<int>, maxUses: int, usedCount: int,
    expiresAt: Option<int>, singleUse: bool, isActive: bool, createdAt: int)

  /** The rule of `is_valid` for one invite at time `now`. */
  predicate ValidAt(r: InviteRecord, now: int)
  {
    r.isActive && !(r.expiresAt.Some? && r.expiresAt.value < now) && r.usedCount < r.maxUses
  }

  /** One use of an invite: the counter rises by one and the invite is switched off at its limit. */
  function Used(r: InviteRecord): (u: InviteRecord)
    ensures u.usedCount == r.usedCount + 1
    ensures u.isActive == (r.isActive && r.usedCount + 1 < r.maxUses)
    ensures u == r.(usedCount := u.usedCount, isActive := u.isActive)
  {
    var counted := r.(usedCount := r.usedCount + 1);
    if counted.usedCount >= counted.maxUses then counted.(isActive := false) else counted
  }

  /** A use keeps an invite valid exactly while it stays under its limit. */
  lemma UseKeepsValidityUntilLimit(r: InviteRecord, now: int)
    ensures ValidAt(Used(r), now) <==> ValidAt(r, now) && r.usedCount + 1 < r.maxUses
  {
  }

  /** A fresh single-use invite (limit 1) is valid before its first use and never after. */
  lemma SingleUseInvite(r: InviteRecord, now: int)
    requires r.maxUses == 1 && r.usedCount == 0 && r.isActive && r.expiresAt.None?
    ensures ValidAt(r, now)
    ensures !ValidAt(Used(r), now) && !Used(r).isActive
  {
  }

  /** An expired invite is invalid whatever its counter says. */
  lemma ExpiredIsInvalid(r: InviteRecord, now: int)
    requires r.expiresAt.Some? && r.expiresAt.value < now
    ensures !ValidAt(r, now) && !ValidAt(Used(r), now)
  {
  }

  /**
   * What the flush does with one payload: an existing row takes the
   * counter and the activity flag (rewritten only when one differs); a
   * missing row is created when its chat exists, and skipped otherwise.
   */
  function FlushedRow(row: Option<InviteRow>, users: map<int, int>, chats: map<int, int>, cached: InviteRecord): (r: Option<InviteRow>)
    ensures row.Some? ==> r == Some(row.value.(usedCount := cached.usedCount, isActive := cached.isActive))
    ensures row.None? && cached.tgChat !in chats ==> r.None?
    ensures row.None? && cached.tgChat in chats ==>
              r == Some(InviteRow(chats[cached.tgChat], CreatorId(cached.creatorTg, users), cached.maxUses, cached.usedCount,
                                  cached.expiresAt, cached.singleUse, cached.isActive, cached.createdAt))
  {
    match row
    case Some(existing) =>
      if existing.usedCount != cached.usedCount || existing.isActive != cached.isActive then
        Some(existing.(usedCount := cached.usedCount, isActive := cached.isActive))
      else
        row
    case None =>
      if cached.tgChat !in chats then None
      else
        Some(InviteRow(chats[cached.tgChat], CreatorId(cached.creatorTg, users), cached.maxUses, cached.usedCount,
                       cached.expiresAt, cached.singleUse, cached.isActive, cached.createdAt))
  }

  function Step(users: map<int, int>, chats: map<int, int>): (Option<InviteRow>, string, InviteRecord) -> Option<InviteRow>
  {
    (row: Option<InviteRow>, t: string, cached: InviteRecord) => FlushedRow(row, users, chats, cached)
  }

  /** The invite links table after a successful flush of `payloads`. */
  function Flushed(db: map<string, InviteRow>, users: map<int, int>, chats: map<int, int>, payloads: map<string, InviteRecord>): map<string, InviteRow>
  {
    FlushedWith(db, payloads, Step(users, chats))
  }

  /**
   * After a flush an existing row has the cached counter and flag and
   * keeps its other columns; a missing row whose chat is absent is not created.
   */
  lemma FlushUpdatesCounterOnly(db: map<string, InviteRow>, users: map<int, int>, chats: map<int, int>, payloads: map<string, InviteRecord>, t: string)
    requires t in payloads
    ensures var d := Flushed(db, users, chats, payloads);
            (t in db ==> t in d && d[t] == db[t].(usedCount := payloads[t].usedCount, isActive := payloads[t].isActive))
            && (t !in db && payloads[t].tgChat !in chats ==> t !in d)
  {
    assert Step(users, chats)(LookupIn(db, t), t, payloads[t]) == FlushedRow(LookupIn(db, t), users, chats, payloads[t]);
  }

  class InviteLinkCache {
    var cache: map<string, InviteRecord>
    var dirty: set<string>
    /** The users table: Telegram id to row id. */
    var users: map<int, int>
    /** The chats table: Telegram id to row id. */
    var chats: map<int, int>
    /** The invite links table, by token. */
    var db: map<string, InviteRow>
    var nextId: int
    ghost var storeCalls: nat

    ghost predicate Valid()
      reads this
    {
      dirty <= cache.Keys
    }

    constructor (userRows: map<int, int>, chatRows: map<int, int>, inviteRows: map<string, InviteRow>, firstId: int)
      ensures Valid()
      ensures cache == map[] && dirty == {} && users == userRows && chats == chatRows && db == inviteRows
      ensures nextId == firstId && storeCalls == 0
    {
      cache := map[];
      dirty := {};
      users := userRows;
      chats := chatRows;
      db := inviteRows;
      nextId := firstId;
      storeCalls := 0;
    }

    /** `InviteLinkRepository.ensure_record`: ensure the chat and a truthy creator, then get or create the row. */
    method EnsureRecord(token: string, tgChat: int, creatorTg: Option<int>, maxUses: int, expiresAt: Option<int>, singleUse: bool, now: int)
      returns (row: InviteRow, created: bool)
      modifies this`users, this`chats, this`db, this`nextId, this`storeCalls
      ensures tgChat in chats && (TruthyId(creatorTg) ==> creatorTg.value in users)
      ensures created == (token !in old(db))
      ensures db == old(db)[token := row]
      ensures !created ==> row == old(db)[token]
      ensures created ==>
                row == InviteRow(chats[tgChat], if TruthyId(creatorTg) then Some(users[creatorTg.value]) else None,
                                 maxUses, 0, expiresAt, singleUse, true, now)
    {
      storeCalls := storeCalls + 1;
      if tgChat !in chats {
        chats := chats[tgChat := nextId];
        nextId := nextId + 1;
      }
      var creator := None;
      if TruthyId(creatorTg) {
        storeCalls := storeCalls + 1;
        if creatorTg.value !in users {
          users := users[creatorTg.value := nextId];
          nextId := nextId + 1;
        }
        creator := Some(users[creatorTg.value]);
      }
      storeCalls := storeCalls + 1;
      if token in db {
        row, created := db[token], false;
      } else {
        row, created := InviteRow(chats[tgChat], creator, maxUses, 0, expiresAt, singleUse, true, now), true;
        db := db[token := row];
      }
    }

    /** `get(token)`. */
    function Get(token: string): (r: Option<InviteRecord>)
      reads this
      ensures r.Some? <==> token in cache
      ensures r.Some? ==> r.value == cache[token]
    {
      if token in cache then Some(cache[token]) else None
    }

    /**
     * `add_invite`: a cached token is left alone; a new one is got or
     * created in the store and cached, with the stored counter and flag, as dirty.
     */
    method AddInvite(token: string, tgChat: int, creatorTg: Option<int>, maxUses: int, expiresAt: Option<int>, singleUse: bool, now: int)
      requires Valid()
      modifies this`cache, this`dirty, this`users, this`chats, this`db, this`nextId, this`storeCalls
      ensures Valid()
      ensures token in old(cache) ==>
                cache == old(cache) && dirty == old(dirty) && db == old(db) && storeCalls == old(storeCalls)
      ensures token !in old(cache) ==>
                token in db && db == old(db)[token := db[token]]
                && (token in old(db) ==> db[token] == old(db)[token])
                && cache == old(cache)[token := InviteRecord(token, tgChat, creatorTg, db[token].maxUses, db[token].usedCount,
                                                             db[token].expiresAt, db[token].singleUse, db[token].isActive, db[token].createdAt)]
                && dirty == old(dirty) + {token}
                && (token !in old(db) ==> cache[token].usedCount == 0 && cache[token].isActive && cache[token].maxUses == maxUses)
    {
      if token in cache {
        return;
      }
      var row, _ := EnsureRecord(token, tgChat, creatorTg, maxUses, expiresAt, singleUse, now);
      cache := cache[token := InviteRecord(token, tgChat, creatorTg, row.maxUses, row.usedCount, row.expiresAt,
                                           row.singleUse, row.isActive, row.createdAt)];
      dirty := dirty + {token};
    }

    /** `remove_invite`: evict the token, then delete its row. */
    method RemoveInvite(token: string)
      requires Valid()
      modifies this`cache, this`dirty, this`db, this`storeCalls
      ensures Valid()
      ensures cache == old(cache) - {token} && dirty == old(dirty) - {token}
      ensures db == old(db) - {token}
      ensures storeCalls == old(storeCalls) + 1
      ensures !IsValid(token, 0) && Get(token) == None
    {
      if token in cache {
        dirty := dirty - {token};
        cache := cache - {token};
      }
      storeCalls := storeCalls + 1;
      db := db - {token};
    }

    /**
     * `increment_usage`: false, changing nothing, for an unknown token;
     * otherwise one use is counted, the invite switched off at its limit,
     * and the token marked dirty.
     */
    method IncrementUsage(token: string) returns (counted: bool)
      requires Valid()
      modifies this`cache, this`dirty
      ensures Valid()
      ensures counted <==> token in old(cache)
      ensures !counted ==> cache == old(cache) && dirty == old(dirty)
      ensures counted ==> cache == old(cache)[token := Used(old(cache)[token])] && dirty == old(dirty) + {token}
      ensures counted ==> forall now :: IsValid(token, now) <==>
                            old(IsValid(token, now)) && old(cache[token].usedCount) + 1 < old(cache[token].maxUses)
    {
      if token !in cache {
        return false;
      }
      var obj := cache[token];
      obj := obj.(usedCount := obj.usedCount + 1);
      if obj.usedCount >= obj.maxUses {
        obj := obj.(isActive := false);
      }
      cache := cache[token := obj];
      dirty := dirty + {token};
      counted := true;
    }

    /** `get_chat_invites(c)`: the cached invites of chat `c`. */
    function GetChatInvites(tgChat: int): (r: map<string, InviteRecord>)
      reads this
      ensures forall t :: t in r ==> t in cache && r[t] == cache[t] && cache[t].tgChat == tgChat
      ensures forall t :: t in cache && cache[t].tgChat == tgChat ==> t in r
    {
      map t | t in cache && cache[t].tgChat == tgChat :: cache[t]
    }

    /** `is_valid(token)` at time `now`: the token is cached and its invite is valid then. */
    predicate IsValid(token: string, now: int)
      reads this
    {
      token in cache && ValidAt(cache[token], now)
    }

    /** The first half of `sync`: copy the dirty records that are still cached. */
    method BeginSync() returns (payloads: map<string, InviteRecord>)
      requires Valid()
      ensures payloads == Snapshot(dirty, cache)
      ensures payloads.Keys == dirty
    {
      payloads := map k | k in dirty && k in cache :: cache[k];
    }

    /** The batch loop of `sync`; `ok` is false when the store raised, and nothing is written then. */
    method Flush(payloads: map<string, InviteRecord>, ok: bool)
      requires Valid()
      modifies this`db, this`storeCalls
      ensures Valid()
      ensures db == if ok then Flushed(old(db), users, chats, payloads) else old(db)
      ensures storeCalls == old(storeCalls) + 1
    {
      storeCalls := storeCalls + 1;
      var d := FlushLoop(db, payloads, Step(users, chats));
      if ok {
        db := d;
      }
    }

    /** The commit loop of `sync`: every flushed token leaves the dirty set. */
    method CommitSync(payloads: map<string, InviteRecord>)
      requires Valid()
      modifies this`dirty
      ensures Valid()
      ensures dirty == old(dirty) - payloads.Keys
    {
      var todo := payloads.Keys;
      while todo != {}
        invariant todo <= payloads.Keys
        invariant dirty == old(dirty) - (payloads.Keys - todo)
        decreases todo
      {
        ghost var w := Member(todo);
        var k :| k in todo;
        dirty := dirty - {k};
        todo := todo - {k};
      }
    }

    /**
     * `sync`, run without interleaving: nothing happens while the dirty
     * set is empty; a failed flush leaves dirty as it was; a successful
     * one empties it, skipped creates included.
     */
    method Sync(ok: bool) returns (payloads: map<string, InviteRecord>)
      requires Valid()
      modifies this`db, this`dirty, this`storeCalls
      ensures Valid()
      ensures payloads == Snapshot(old(dirty), cache) && payloads.Keys == old(dirty)
      ensures old(dirty) == {} ==> db == old(db) && dirty == old(dirty) && storeCalls == old(storeCalls)
      ensures old(dirty) != {} ==> db == (if ok then Flushed(old(db), users, chats, payloads) else old(db))
      ensures dirty == if ok then {} else old(dirty)
    {
      payloads := BeginSync();
      if dirty == {} {
        return;
      }
      Flush(payloads, ok);
      if ok {
        CommitSync(payloads);
      }
    }
  }
}
