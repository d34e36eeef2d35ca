/**
 * The user roles cache: the role of a user in a chat, keyed by the pair
 * (Telegram user id, Telegram chat id), written back on sync with a
 * recheck of the level and the assigner.
 */
module UserRoles {
  import opened WriteBack
  import opened Enums

  /** (Telegram user id, Telegram chat id). */
  type Key = (int, int)

  /** `_CachedUserRole`; the row id is left out, nothing reads it. */
  datatype RoleRecord = RoleRecord(
    tgUser: int, userId: Option<int>, tgChat: int, chatId: Option<int>,
    level: Role, assignedByTg: Option<int>, assignedById: Option<int>, assignedAt: int)

  /** A row of the roles table; the table is indexed by the Telegram ids its foreign keys lead to. */
  datatype RoleRow = RoleRow(userId: int, chatId: int, level: Role, assignedById: Option<int>, assignedAt: int)

  /** The commit recheck compares the level and the assigner, nothing else. */
  predicate SameRoleFields(a: RoleRecord, b: RoleRecord)
  {
    a.level == b.level && a.assignedById == b.assignedById
  }

  /** A cached foreign key, or the id the parent table holds for the Telegram id. */
  function Resolve(cached: Option<int>, tg: int, parents: map<int, int>): (r: Option<int>)
    ensures cached.Some? ==> r == cached
    ensures cached.None? ==> (r.Some? <==> tg in parents) && (r.Some? ==> r.value == parents[tg])
  {
    if cached.Some? then cached else if tg in parents then Some(parents[tg]) else None
  }

  /** A payload the flush leaves out: no row yet, and its user or its chat cannot be resolved. */
  predicate Skipped(db: map<Key, RoleRow>, users: map<int, int>, chats: map<int, int>, k: Key, cached: RoleRecord)
  {
    k !in db && (Resolve(cached.userId, cached.tgUser, users).None? || Resolve(cached.chatId, cached.tgChat, chats).None?)
  }

  function SkippedKeys(payloads: map<Key, RoleRecord>, db: map<Key, RoleRow>, users: map<int, int>, chats: map<int, int>): (s: set<Key>)
    ensures s <= payloads.Keys
    ensures forall k :: k in payloads ==> (k in s <==> Skipped(db, users, chats, k, payloads[k]))
  {
    set k | k in payloads && Skipped(db, users, chats, k, payloads[k])
  }

  /** An existing row is written (level and assigner) only when one of them differs. */
  function UpdatedRow(row: RoleRow, cached: RoleRecord): (r: RoleRow)
    ensures r.level == cached.level && r.assignedById == cached.assignedById
    ensures r.userId == row.userId && r.chatId == row.chatId && r.assignedAt == row.assignedAt
  {
    if row.level != cached.level || row.assignedById != cached.assignedById then
      row.(level := cached.level, assignedById := cached.assignedById)
    else
      row
  }

  /** The row created for a payload whose ids resolved. */
  function CreatedRow(cached: RoleRecord, userId: int, chatId: int): RoleRow
  {
    RoleRow(userId, chatId, cached.level, cached.assignedById, cached.assignedAt)
  }

  /**
   * What the flush does with one payload: an existing row is updated, a
   * missing one is created when its user and chat resolve; None when it is skipped.
   */
  function FlushedRow(row: Option<RoleRow>, users: map<int, int>, chats: map<int, int>, cached: RoleRecord): (r: Option<RoleRow>)
    ensures r.None? <==> row.None? && (Resolve(cached.userId, cached.tgUser, users).None? || Resolve(cached.chatId, cached.tgChat, chats).None?)
  {
    match row
    case Some(existing) => Some(UpdatedRow(existing, cached))
    case None =>
      var userId := Resolve(cached.userId, cached.tgUser, users);
      var chatId := Resolve(cached.chatId, cached.tgChat, chats);
      if userId.None? || chatId.None? then None else Some(CreatedRow(cached, userId.value, chatId.value))
  }

  function Step(users: map<int, int>, chats: map<int, int>): (Option<RoleRow>, Key, RoleRecord) -> Option<RoleRow>
  {
    (row: Option<RoleRow>, k: Key, cached: RoleRecord) => FlushedRow(row, users, chats, cached)
  }

  /** The roles table after a successful flush of `payloads`. */
  function Flushed(db: map<Key, RoleRow>, users: map<int, int>, chats: map<int, int>, payloads: map<Key, RoleRecord>): (d: map<Key, RoleRow>)
  {
    FlushedWith(db, payloads, Step(users, chats))
  }

  /** The rows the flush holds afterwards are the old ones and the payloads it did not skip. */
  lemma FlushedKeys(db: map<Key, RoleRow>, users: map<int, int>, chats: map<int, int>, payloads: map<Key, RoleRecord>)
    ensures Flushed(db, users, chats, payloads).Keys == db.Keys + (payloads.Keys - SkippedKeys(payloads, db, users, chats))
  {
  }

  /**
   * The flush loop, on values: each payload is handled on its own, so the
   * result does not depend on the order the loop takes them in.
   */
  method FlushRows(db: map<Key, RoleRow>, users: map<int, int>, chats: map<int, int>, payloads: map<Key, RoleRecord>)
    returns (d: map<Key, RoleRow>, skipped: set<Key>)
    ensures d == Flushed(db, users, chats, payloads)
    ensures skipped == SkippedKeys(payloads, db, users, chats)
  {
    d := db;
    skipped := {};
    var todo := payloads.Keys;
    while todo != {}
      invariant todo <= payloads.Keys
      invariant forall k :: k in db && k !in payloads ==> k in d && d[k] == db[k]
      invariant forall k :: k in todo ==> LookupIn(d, k) == LookupIn(db, k)
      invariant forall k :: k in payloads && k !in todo ==> LookupIn(d, k) == Step(users, chats)(LookupIn(db, k), k, payloads[k])
      invariant forall k :: k in d ==> k in db || k in payloads
      invariant forall k :: k in skipped <==> k in payloads && k !in todo && Skipped(db, users, chats, k, payloads[k])
      decreases todo
    {
      ghost var w := Member(todo);
      var k :| k in todo;
      var row := FlushedRow(LookupIn(d, k), users, chats, payloads[k]);
      if row.Some? {
        d := d[k := row.value];
      } else {
        skipped := skipped + {k};
      }
      todo := todo - {k};
    }
    FlushedWithPointwise(db, payloads, Step(users, chats), d);
  }

  /** A flushed key that had a row keeps its row with the cached level and assigner. */
  lemma FlushWritesLevelAndAssigner(db: map<Key, RoleRow>, users: map<int, int>, chats: map<int, int>, payloads: map<Key, RoleRecord>, k: Key)
    requires k in payloads && k in db
    ensures var row := Flushed(db, users, chats, payloads)[k];
            row.level == payloads[k].level && row.assignedById == payloads[k].assignedById
            && row.userId == db[k].userId && row.chatId == db[k].chatId
  {
  }

  /** A skipped key gets no row, and one that is not skipped ends with a row carrying its level. */
  lemma FlushCreatesUnlessSkipped(db: map<Key, RoleRow>, users: map<int, int>, chats: map<int, int>, payloads: map<Key, RoleRecord>, k: Key)
    requires k in payloads && k !in db
    ensures k in Flushed(db, users, chats, payloads) <==> !Skipped(db, users, chats, k, payloads[k])
    ensures k in Flushed(db, users, chats, payloads) ==> Flushed(db, users, chats, payloads)[k].level == payloads[k].level
  {
  }

  /** `user_has_rights` without the cache: a missing role counts as `user`. */
  function HasRights(level: Option<Role>, minLevel: Role): (b: bool)
    ensures level.None? ==> (b <==> minLevel == User)
    ensures level.Some? ==> (b <==> Level(level.value) >= Level(minLevel))
  {
    var role := if level.Some? then level.value else User;
    AtLeast(role, minLevel)
  }

  /** Every member has at least the `user` rights, and an admin has every right. */
  lemma RightsBounds(level: Option<Role>, minLevel: Role)
    ensures HasRights(level, User)
    ensures HasRights(Some(Admin), minLevel)
    ensures HasRights(level, minLevel) && AtLeast(minLevel, Moderator) ==> level.Some?
  {
    UserBottomAdminTop(minLevel);
  }

  class RoleCache {
    var cache: map<Key, RoleRecord>
    var dirty: set<Key>
    /** The users table: Telegram id to row id. */
    var users: map<int, int>
    /** The chats table: Telegram id to row id. */
    var chats: map<int, int>
    /** The roles table, by the Telegram ids of its user and chat. */
    var db: map<Key, RoleRow>
    var nextId: int
    ghost var storeCalls: nat

    ghost predicate Valid()
      reads this
    {
      dirty <= cache.Keys
    }

    constructor (userRows: map<int, int>, chatRows: map<int, int>, roleRows: map<Key, RoleRow>, firstId: int)
      ensures Valid()
      ensures cache == map[] && dirty == {} && users == userRows && chats == chatRows && db == roleRows
      ensures nextId == firstId && storeCalls == 0
    {
      cache := map[];
      dirty := {};
      users := userRows;
      chats := chatRows;
      db := roleRows;
      nextId := firstId;
      storeCalls := 0;
    }

    /** `ensure_user`: the id of the user row of `tg`, created when missing. */
    method EnsureUser(tg: int) returns (id: int)
      modifies this`users, this`nextId, this`storeCalls
      ensures users == old(users)[tg := id]
      ensures tg in old(users) ==> id == old(users)[tg] && nextId == old(nextId)
      ensures tg !in old(users) ==> id == old(nextId) && nextId == old(nextId) + 1
      ensures storeCalls == old(storeCalls) + 1
    {
      storeCalls := storeCalls + 1;
      if tg in users {
        id := users[tg];
      } else {
        id := nextId;
        users := users[tg := id];
        nextId := nextId + 1;
      }
    }

    /** `ensure_chat`: the id of the chat row of `tg`, created when missing. */
    method EnsureChat(tg: int) returns (id: int)
      modifies this`chats, this`nextId, this`storeCalls
      ensures chats == old(chats)[tg := id]
      ensures tg in old(chats) ==> id == old(chats)[tg] && nextId == old(nextId)
      ensures tg !in old(chats) ==> id == old(nextId) && nextId == old(nextId) + 1
      ensures storeCalls == old(storeCalls) + 1
    {
      storeCalls := storeCalls + 1;
      if tg in chats {
        id := chats[tg];
      } else {
        id := nextId;
        chats := chats[tg := id];
        nextId := nextId + 1;
      }
    }

    /**
     * `UserRoleRepository.ensure_record`: ensure the user and the chat,
     * then get the role row or create it with the given level and no assigner.
     */
    method EnsureRecord(tgUser: int, tgChat: int, level: Role, now: int) returns (row: RoleRow, created: bool)
      modifies this`users, this`chats, this`db, this`nextId, this`storeCalls
      ensures tgUser in users && tgChat in chats
      ensures users.Keys == old(users).Keys + {tgUser} && chats.Keys == old(chats).Keys + {tgChat}
      ensures created == ((tgUser, tgChat) !in old(db))
      ensures db == old(db)[(tgUser, tgChat) := row]
      ensures !created ==> row == old(db)[(tgUser, tgChat)]
      ensures created ==> row == RoleRow(users[tgUser], chats[tgChat], level, None, now)
      ensures storeCalls == old(storeCalls) + 3
    {
      var uid := EnsureUser(tgUser);
      var cid := EnsureChat(tgChat);
      storeCalls := storeCalls + 1;
      var key := (tgUser, tgChat);
      if key in db {
        row, created := db[key], false;
      } else {
        row, created := RoleRow(uid, cid, level, None, now), true;
        db := db[key := row];
      }
    }

    /** `User.filter(id=...).first()`: the Telegram id of the user row with that id, if any. */
    method FindUserById(id: int) returns (tg: Option<int>)
      modifies this`storeCalls
      ensures tg.Some? ==> tg.value in users && users[tg.value] == id
      ensures tg.None? ==> forall t :: t in users ==> users[t] != id
      ensures storeCalls == old(storeCalls) + 1
    {
      storeCalls := storeCalls + 1;
      tg := None;
      if exists t :: t in users && users[t] == id {
        var t :| t in users && users[t] == id;
        tg := Some(t);
      }
    }

    /**
     * `_ensure_cached`: false with no store call when the key is cached;
     * otherwise the row is fetched or created and cached, with the
     * assigner's Telegram id looked up when the row names one.
     */
    method EnsureCached(tgUser: int, tgChat: int, level: Role, now: int) returns (created: bool)
      requires Valid()
      modifies this`cache, this`users, this`chats, this`db, this`nextId, this`storeCalls
      ensures Valid()
      ensures (tgUser, tgChat) in cache && cache == old(cache)[(tgUser, tgChat) := cache[(tgUser, tgChat)]]
      ensures (tgUser, tgChat) in old(cache) ==>
                !created && cache == old(cache) && db == old(db) && users == old(users) && chats == old(chats)
                && storeCalls == old(storeCalls)
      ensures (tgUser, tgChat) !in old(cache) ==>
                created == ((tgUser, tgChat) !in old(db))
                && (tgUser, tgChat) in db && db == old(db)[(tgUser, tgChat) := db[(tgUser, tgChat)]]
                && (!created ==> db[(tgUser, tgChat)] == old(db)[(tgUser, tgChat)])
                && tgUser in users && tgChat in chats
                && (created ==> db[(tgUser, tgChat)] == RoleRow(users[tgUser], chats[tgChat], level, None, now))
                && var r := cache[(tgUser, tgChat)];
                   var row := db[(tgUser, tgChat)];
                   r.tgUser == tgUser && r.tgChat == tgChat
                   && r.userId == Some(row.userId) && r.chatId == Some(row.chatId)
                   && r.level == row.level && r.assignedById == row.assignedById && r.assignedAt == row.assignedAt
                   && (r.assignedByTg.Some? ==> TruthyId(row.assignedById) && r.assignedByTg.value in users
                                                && users[r.assignedByTg.value] == row.assignedById.value)
      ensures storeCalls >= old(storeCalls)
    {
      var key := (tgUser, tgChat);
      if key in cache {
        return false;
      }
      var row;
      row, created := EnsureRecord(tgUser, tgChat, level, now);
      storeCalls := storeCalls + 2;
      var assignedByTg := None;
      if TruthyId(row.assignedById) {
        assignedByTg := FindUserById(row.assignedById.value);
      }
      var r := RoleRecord(tgUser, Some(row.userId), tgChat, Some(row.chatId), row.level, assignedByTg, row.assignedById, row.assignedAt);
      cache := cache[key := r];
    }

    /** `get(key)`: the cached record, or None. */
    function Get(k: Key): (r: Option<RoleRecord>)
      reads this
      ensures r.Some? <==> k in cache
      ensures r.Some? ==> r.value == cache[k]
    {
      if k in cache then Some(cache[k]) else None
    }

    /** `get(key, "level")`. */
    function GetLevel(k: Key): (r: Option<Role>)
      reads this
      ensures r.Some? <==> k in cache
      ensures r.Some? ==> r.value == cache[k].level
    {
      if k in cache then Some(cache[k].level) else None
    }

    /**
     * `add_role`: ensure the role (a new row gets `level` directly); an
     * unchanged level is left alone; a new level is cached, but the key is
     * marked dirty, together with the assigner, only when an assigner is given.
     */
    method AddRole(tgUser: int, tgChat: int, level: Role, assignedByTg: Option<int>, now: int)
      requires Valid()
      modifies this`cache, this`dirty, this`users, this`chats, this`db, this`nextId, this`storeCalls
      ensures Valid()
      ensures (tgUser, tgChat) in cache && cache == old(cache)[(tgUser, tgChat) := cache[(tgUser, tgChat)]]
      ensures GetLevel((tgUser, tgChat)) == Some(level)
      ensures (tgUser, tgChat) in old(cache) && old(cache)[(tgUser, tgChat)].level == level ==>
                cache == old(cache) && dirty == old(dirty) && db == old(db) && storeCalls == old(storeCalls)
      ensures (tgUser, tgChat) in old(cache) && old(cache)[(tgUser, tgChat)].level != level ==>
                db == old(db)
                && (assignedByTg.None? ==>
                      cache[(tgUser, tgChat)] == old(cache)[(tgUser, tgChat)].(level := level) && dirty == old(dirty))
                && (assignedByTg.Some? ==>
                      assignedByTg.value in users
                      && cache[(tgUser, tgChat)] == old(cache)[(tgUser, tgChat)].(level := level,
                           assignedByTg := assignedByTg, assignedById := Some(users[assignedByTg.value]))
                      && dirty == old(dirty) + {(tgUser, tgChat)})
      ensures (tgUser, tgChat) !in old(cache) ==>
                tgUser in users && tgChat in chats && (tgUser, tgChat) in db
                && var r := cache[(tgUser, tgChat)];
                   var row := db[(tgUser, tgChat)];
                   r.tgUser == tgUser && r.tgChat == tgChat
                   && r.userId == Some(row.userId) && r.chatId == Some(row.chatId) && r.assignedAt == row.assignedAt
                   && ((tgUser, tgChat) !in old(db) ==>
                         db == old(db)[(tgUser, tgChat) := RoleRow(users[tgUser], chats[tgChat], level, None, now)]
                         && r.assignedByTg == None && r.assignedById == None && dirty == old(dirty))
                   && ((tgUser, tgChat) in old(db) ==>
                         db == old(db)
                         && (row.level == level || assignedByTg.None? ==>
                               r.assignedById == row.assignedById && dirty == old(dirty)
                               && (r.assignedByTg.Some? ==> TruthyId(row.assignedById) && r.assignedByTg.value in users
                                                             && users[r.assignedByTg.value] == row.assignedById.value))
                         && (row.level != level && assignedByTg.Some? ==>
                               assignedByTg.value in users
                               && r.assignedByTg == assignedByTg && r.assignedById == Some(users[assignedByTg.value])
                               && dirty == old(dirty) + {(tgUser, tgChat)}))
      ensures dirty == old(dirty) || dirty == old(dirty) + {(tgUser, tgChat)}
    {
      var _ := EnsureCached(tgUser, tgChat, level, now);
      var key := (tgUser, tgChat);
      var r := cache[key];
      if r.level == level {
        return;
      }
      r := r.(level := level);
      cache := cache[key := r];
      if assignedByTg.Some? {
        var id := EnsureUser(assignedByTg.value);
        r := r.(assignedByTg := Some(assignedByTg.value), assignedById := Some(id));
        cache := cache[key := r];
        dirty := dirty + {key};
      }
    }

    /** `delete_record`: nothing happens unless both the user and the chat rows exist. */
    method DeleteRecord(tgUser: int, tgChat: int)
      modifies this`db, this`storeCalls
      ensures db == if tgUser in users && tgChat in chats then old(db) - {(tgUser, tgChat)} else old(db)
      ensures storeCalls == old(storeCalls) + 1
    {
      storeCalls := storeCalls + 1;
      if tgUser in users && tgChat in chats {
        db := db - {(tgUser, tgChat)};
      }
    }

    /** `remove_role`: evict the key, delete the row, and return the level it had, if cached. */
    method RemoveRole(tgUser: int, tgChat: int) returns (previous: Option<Role>)
      requires Valid()
      modifies this`cache, this`dirty, this`db, this`storeCalls
      ensures Valid()
      ensures previous == old(GetLevel((tgUser, tgChat)))
      ensures cache == old(cache) - {(tgUser, tgChat)} && dirty == old(dirty) - {(tgUser, tgChat)}
      ensures db == if tgUser in users && tgChat in chats then old(db) - {(tgUser, tgChat)} else old(db)
      ensures GetLevel((tgUser, tgChat)) == None
    {
      var key := (tgUser, tgChat);
      previous := None;
      if key in cache {
        previous := Some(cache[key].level);
        dirty := dirty - {key};
        cache := cache - {key};
      }
      DeleteRecord(tgUser, tgChat);
    }

    /** `get_user_roles(u)`: the cached roles of user `u`, in every chat. */
    function GetUserRoles(tgUser: int): (r: map<Key, RoleRecord>)
      reads this
      ensures forall k :: k in r ==> k in cache && k.0 == tgUser && r[k] == cache[k]
      ensures forall k :: k in cache && k.0 == tgUser ==> k in r
    {
      WithFirst(cache, tgUser)
    }

    /** `get_chat_roles(c)`: the cached roles in chat `c`, of every user. */
    function GetChatRoles(tgChat: int): (r: map<Key, RoleRecord>)
      reads this
      ensures forall k :: k in r ==> k in cache && k.1 == tgChat && r[k] == cache[k]
      ensures forall k :: k in cache && k.1 == tgChat ==> k in r
    {
      WithSecond(cache, tgChat)
    }

    /** `user_has_rights`: the cached level, or `user` when there is none, is at least `minLevel`. */
    function UserHasRights(tgUser: int, tgChat: int, minLevel: Role): (b: bool)
      reads this
      ensures b == HasRights(GetLevel((tgUser, tgChat)), minLevel)
    {
      var level := if (tgUser, tgChat) in cache then cache[(tgUser, tgChat)].level else User;
      AtLeast(level, minLevel)
    }

    /**
     * `get_user_chats(u, r)`: the chats in which `u` holds at least `minRole`.
     * The source defaults `min_role` to `moderator`; callers here pass it.
     */
    function GetUserChats(tgUser: int, minRole: Role): (chatIds: set<int>)
      reads this
      ensures forall c :: c in chatIds ==> exists k :: k in cache && k.0 == tgUser && cache[k].tgChat == c && AtLeast(cache[k].level, minRole)
      ensures forall k :: k in cache && k.0 == tgUser && AtLeast(cache[k].level, minRole) ==> cache[k].tgChat in chatIds
    {
      set k | k in cache && k.0 == tgUser && AtLeast(cache[k].level, minRole) :: cache[k].tgChat
    }

    /** `chat_activation`: only a configured admin id is made admin of the chat. */
    method ChatActivation(tgUser: int, tgChat: int, adminIds: set<int>, now: int) returns (activated: bool)
      requires Valid()
      modifies this`cache, this`dirty, this`users, this`chats, this`db, this`nextId, this`storeCalls
      ensures Valid()
      ensures activated <==> tgUser in adminIds
      ensures !activated ==> cache == old(cache) && dirty == old(dirty) && db == old(db) && storeCalls == old(storeCalls)
      ensures activated ==> GetLevel((tgUser, tgChat)) == Some(Admin) && UserHasRights(tgUser, tgChat, Admin)
    {
      if tgUser !in adminIds {
        return false;
      }
      AddRole(tgUser, tgChat, Admin, None, now);
      activated := true;
    }

    /** The first half of `sync`: copy the dirty records that are still cached. */
    method BeginSync() returns (payloads: map<Key, RoleRecord>)
      requires Valid()
      ensures payloads == Snapshot(dirty, cache)
      ensures payloads.Keys == dirty
    {
      payloads := map k | k in dirty && k in cache :: cache[k];
    }

    /**
     * The batch loop of `sync`: update rows whose level or assigner
     * differs, create the missing ones whose user and chat resolve, skip
     * the rest. `ok` is false when the store raised; nothing is written then.
     */
    method Flush(payloads: map<Key, RoleRecord>, ok: bool) returns (skipped: set<Key>)
      requires Valid()
      modifies this`db, this`storeCalls
      ensures Valid()
      ensures skipped == SkippedKeys(payloads, old(db), users, chats)
      ensures db == if ok then Flushed(old(db), users, chats, payloads) else old(db)
      ensures storeCalls == old(storeCalls) + 1
    {
      storeCalls := storeCalls + 1;
      var d;
      d, skipped := FlushRows(db, users, chats, payloads);
      if ok {
        db := d;
      }
    }

    /**
     * The commit loop of `sync`: skipped keys stay dirty; another key is
     * cleared when it is no longer cached or its level and assigner are
     * those that were flushed.
     */
    method CommitSync(payloads: map<Key, RoleRecord>, skipped: set<Key>)
      requires Valid()
      modifies this`dirty
      ensures Valid()
      ensures dirty == old(dirty) - RecheckCleared(payloads, cache, skipped, SameRoleFields)
    {
      var todo := payloads.Keys;
      while todo != {}
        invariant todo <= payloads.Keys
        invariant dirty == old(dirty) - (RecheckCleared(payloads, cache, skipped, SameRoleFields) - todo)
        decreases todo
      {
        ghost var w := Member(todo);
        var k :| k in todo;
        if k !in skipped {
          if k !in cache {
            dirty := dirty - {k};
          } else if SameRoleFields(cache[k], payloads[k]) {
            dirty := dirty - {k};
          }
        }
        todo := todo - {k};
      }
    }

    /**
     * `sync`, run without interleaving: nothing happens while the dirty
     * set is empty; a failed flush leaves dirty as it was; a successful one
     * leaves exactly the skipped keys dirty.
     */
    method Sync(ok: bool) returns (payloads: map<Key, RoleRecord>, skipped: set<Key>)
      requires Valid()
      modifies this`db, this`dirty, this`storeCalls
      ensures Valid()
      ensures payloads == Snapshot(old(dirty), cache) && payloads.Keys == old(dirty)
      ensures old(dirty) == {} ==> db == old(db) && dirty == old(dirty) && storeCalls == old(storeCalls)
      ensures old(dirty) != {} ==>
                skipped == SkippedKeys(payloads, old(db), users, chats)
                && db == (if ok then Flushed(old(db), users, chats, payloads) else old(db))
                && dirty == (if ok then old(dirty) * skipped else old(dirty))
    {
      payloads := BeginSync();
      skipped := {};
      if dirty == {} {
        return;
      }
      skipped := Flush(payloads, ok);
      if ok {
        CommitSync(payloads, skipped);
        QuietRecheckCleansAllButSkipped(old(dirty), cache, skipped, SameRoleFields);
      }
    }

    /**
     * A level change with an assigner, made between the snapshot and the
     * commit, is not lost: the key is still dirty afterwards.
     */
    method AddRoleDuringSync(tgUser: int, tgChat: int, level: Role, assignedByTg: int, now: int)
      requires Valid()
      requires (tgUser, tgChat) in cache && cache[(tgUser, tgChat)].level != level
      modifies this`cache, this`dirty, this`users, this`chats, this`db, this`nextId, this`storeCalls
      ensures Valid()
      ensures (tgUser, tgChat) in dirty && GetLevel((tgUser, tgChat)) == Some(level)
    {
      var key := (tgUser, tgChat);
      var payloads := BeginSync();
      AddRole(tgUser, tgChat, level, Some(assignedByTg), now);
      var skipped := Flush(payloads, true);
      CommitSync(payloads, skipped);
      if key in payloads {
        RecheckRetainsRacedKey(old(dirty) + {key}, payloads, cache, skipped, SameRoleFields, key);
      }
    }

    /**
     * A level change without an assigner on a clean cached role never
     * reaches the store: the sync that follows writes nothing for it.
     */
    method LevelChangeWithoutAssigner(tgUser: int, tgChat: int, level: Role, now: int)
      requires Valid()
      requires (tgUser, tgChat) in cache && cache[(tgUser, tgChat)].level != level && dirty == {}
      modifies this`cache, this`dirty, this`users, this`chats, this`db, this`nextId, this`storeCalls
      ensures Valid()
      ensures GetLevel((tgUser, tgChat)) == Some(level)
      ensures db == old(db) && dirty == {}
    {
      AddRole(tgUser, tgChat, level, None, now);
      var _, _ := Sync(true);
    }
  }
}
