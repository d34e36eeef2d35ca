/**
 * The log entries cache: an append-only journal of moderation actions,
 * keyed by row id. `add_log` writes the row first and then caches it; a
 * sync only forgets which entries were dirty, as entries never change.
 */
module LogEntry {
  import opened WriteBack

  /** `_CachedLogEntry`. */
  datatype LogRecord = LogRecord(
    id: int, clusterId: Option<int>, tgChat: Option<int>, action: string,
    targetTg: Option<int>, actorTg: Option<int>, reason: Option<string>, meta: Val, createdAt: int)

  /**
   * A row of the log entries table, indexed by its id. The chat and user
   * foreign keys are given by the Telegram id of the row they lead to.
   */
  datatype LogRow = LogRow(
    clusterId: Option<int>, tgChat: Option<int>, action: string,
    targetTg: Option<int>, actorTg: Option<int>, reason: Option<string>, meta: Val, createdAt: int)

  /**
   * The keyword arguments of `add_log`. A Telegram id that is None stands
   * both for an absent key and for a key given as None, which the code
   * treats alike; `others` names every further keyword passed on.
   */
  datatype LogFields = LogFields(
    clusterId: Option<int>, tgChat: Option<int>, targetTg: Option<int>, actorTg: Option<int>,
    action: string, reason: Option<string>, meta: Val, others: set<string>)

  /** The keywords `ensure_record` passes to `LogEntry.create` itself. */
  const ResolvedKeys: set<string> := {"chat_id", "target_user_id", "actor_user_id"}

  /** `ensure_record` names a resolved key and passes the same key on from `**fields`: a `TypeError`. */
  predicate Clashes(f: LogFields)
  {
    f.others * ResolvedKeys != {}
  }

  /** The foreign key a Telegram id resolves to: only a truthy one leads to a row. */
  function Linked(tg: Option<int>): (r: Option<int>)
    ensures r.Some? <==> TruthyId(tg)
    ensures r.Some? ==> r == tg
  {
    if TruthyId(tg) then tg else None
  }

  /** The row `ensure_record` creates, at time `now`. */
  function NewRow(f: LogFields, now: int): (row: LogRow)
    ensures row.clusterId == f.clusterId && row.action == f.action && row.reason == f.reason && row.meta == f.meta
    ensures row.tgChat == Linked(f.tgChat) && row.targetTg == Linked(f.targetTg) && row.actorTg == Linked(f.actorTg)
    ensures row.createdAt == now
  {
    LogRow(f.clusterId, Linked(f.tgChat), f.action, Linked(f.targetTg), Linked(f.actorTg), f.reason, f.meta, now)
  }

  /**
   * What `add_log` caches for row `id`: the model's columns, but the
   * Telegram ids as the caller gave them.
   */
  function Added(id: int, f: LogFields, now: int): (r: LogRecord)
    ensures r.id == id && r.clusterId == f.clusterId && r.action == f.action && r.reason == f.reason
    ensures r.tgChat == f.tgChat && r.targetTg == f.targetTg && r.actorTg == f.actorTg
    ensures r.meta == f.meta && r.createdAt == now
  {
    LogRecord(id, f.clusterId, f.tgChat, f.action, f.targetTg, f.actorTg, f.reason, f.meta, now)
  }

  /** What `initialize` caches for row `id`: the Telegram ids of the rows its foreign keys lead to. */
  function Loaded(id: int, row: LogRow): (r: LogRecord)
    ensures r.id == id && r.clusterId == row.clusterId && r.action == row.action && r.reason == row.reason
    ensures r.tgChat == row.tgChat && r.targetTg == row.targetTg && r.actorTg == row.actorTg
    ensures r.meta == row.meta && r.createdAt == row.createdAt
  {
    LogRecord(id, row.clusterId, row.tgChat, row.action, row.targetTg, row.actorTg, row.reason, row.meta, row.createdAt)
  }

  /** A Telegram id that reloads as it was given: absent or truthy, not 0. */
  predicate Reloads(tg: Option<int>)
  {
    tg.None? || TruthyId(tg)
  }

  /**
   * Reloading the journal from the store gives back the entry `add_log`
   * cached exactly when none of its Telegram ids was given as 0: a 0 gets
   * no foreign key, so it comes back as None.
   */
  lemma AddedIsLoadedIffIdsReload(id: int, f: LogFields, now: int)
    ensures Added(id, f, now) == Loaded(id, NewRow(f, now)) <==> Reloads(f.tgChat) && Reloads(f.targetTg) && Reloads(f.actorTg)
  {
    var a, l := Added(id, f, now), Loaded(id, NewRow(f, now));
    if a == l {
      assert a.tgChat == l.tgChat && a.targetTg == l.targetTg && a.actorTg == l.actorTg;
    }
  }

  class LogEntryCache {
    var cache: map<int, LogRecord>
    var dirty: set<int>
    /** The users table: Telegram id to row id. */
    var users: map<int, int>
    /** The chats table: Telegram id to row id. */
    var chats: map<int, int>
    /** The log entries table, by row id. */
    var db: map<int, LogRow>
    var nextId: int
    ghost var storeCalls: nat

    /**
     * Dirty entries are cached, each entry is cached under its own id,
     * every cached entry has a row (nothing here deletes one), and every
     * row id is below the next one to be handed out.
     */
    ghost predicate Valid()
      reads this
    {
      && dirty <= cache.Keys
      && (forall i :: i in cache ==> cache[i].id == i)
      && cache.Keys <= db.Keys
      && (forall i :: i in db ==> i < nextId)
    }

    constructor (userRows: map<int, int>, chatRows: map<int, int>, logRows: map<int, LogRow>, firstId: int)
      requires forall i :: i in logRows ==> i < firstId
      ensures Valid()
      ensures cache == map[] && dirty == {} && users == userRows && chats == chatRows && db == logRows
      ensures nextId == firstId && storeCalls == 0
    {
      cache := map[];
      dirty := {};
      users := userRows;
      chats := chatRows;
      db := logRows;
      nextId := firstId;
      storeCalls := 0;
    }

    /** `initialize`: cache every row under its id, as its foreign keys lead. */
    method Initialize()
      requires Valid()
      modifies this`cache, this`storeCalls
      ensures Valid()
      ensures cache.Keys == db.Keys
      ensures forall i :: i in db ==> cache[i] == Loaded(i, db[i])
      ensures storeCalls == old(storeCalls) + 1
    {
      var todo := db.Keys;
      var c := cache;
      while todo != {}
        invariant cache == old(cache) && storeCalls == old(storeCalls)
        invariant cache.Keys <= db.Keys
        invariant todo <= db.Keys
        invariant forall i :: i in c <==> i in cache || (i in db && i !in todo)
        invariant forall i :: i in db && i !in todo ==> i in c && c[i] == Loaded(i, db[i])
        invariant forall i :: i in c ==> c[i].id == i
        decreases |todo|
      {
        ghost var w := Member(todo);
        var i :| i in todo;
        c := c[i := Loaded(i, db[i])];
        todo := todo - {i};
      }
      assert forall i :: i in c <==> i in db;
      assert c.Keys == db.Keys;
      cache := c;
      storeCalls := storeCalls + 1;
    }

    /** `User.get_or_create` for a truthy Telegram id; nothing otherwise. */
    method EnsureLinkedUser(tg: Option<int>)
      modifies this`users, this`nextId, this`storeCalls
      ensures TruthyId(tg) ==> tg.value in users && users == old(users)[tg.value := users[tg.value]]
      ensures !TruthyId(tg) ==> users == old(users)
      ensures nextId >= old(nextId)
    {
      if TruthyId(tg) {
        storeCalls := storeCalls + 1;
        if tg.value !in users {
          users := users[tg.value := nextId];
          nextId := nextId + 1;
        }
      }
    }

    /** `Chat.get_or_create` for a truthy Telegram id; nothing otherwise. */
    method EnsureLinkedChat(tg: Option<int>)
      modifies this`chats, this`nextId, this`storeCalls
      ensures TruthyId(tg) ==> tg.value in chats && chats == old(chats)[tg.value := chats[tg.value]]
      ensures !TruthyId(tg) ==> chats == old(chats)
      ensures nextId >= old(nextId)
    {
      if TruthyId(tg) {
        storeCalls := storeCalls + 1;
        if tg.value !in chats {
          chats := chats[tg.value := nextId];
          nextId := nextId + 1;
        }
      }
    }

    /**
     * `LogEntryRepository.ensure_record`: ensure the chat, the target and
     * the actor of each truthy Telegram id, then create the row under a
     * fresh id; the create call raises when a resolved key is also among
     * the passed-on keywords, after the get-or-creates have happened.
     */
    method EnsureRecord(f: LogFields, now: int) returns (r: Result<int>)
      requires Valid()
      modifies this`users, this`chats, this`db, this`nextId, this`storeCalls
      ensures Valid()
      ensures TruthyId(f.tgChat) ==> f.tgChat.value in chats
      ensures TruthyId(f.targetTg) ==> f.targetTg.value in users
      ensures TruthyId(f.actorTg) ==> f.actorTg.value in users
      ensures Clashes(f) ==> r == Err(DuplicateKeyword) && db == old(db)
      ensures !Clashes(f) ==> r.Ok? && r.value !in old(db) && db == old(db)[r.value := NewRow(f, now)]
    {
      EnsureLinkedChat(f.tgChat);
      EnsureLinkedUser(f.targetTg);
      EnsureLinkedUser(f.actorTg);
      if Clashes(f) {
        return Err(DuplicateKeyword);
      }
      storeCalls := storeCalls + 1;
      var id := nextId;
      db := db[id := NewRow(f, now)];
      nextId := nextId + 1;
      r := Ok(id);
    }

    /**
     * `add_log`: create the row, then cache the entry under the row's id
     * and mark it dirty; when the create raises, nothing is cached.
     */
    method AddLog(f: LogFields, now: int) returns (r: Result<int>)
      requires Valid()
      modifies this`cache, this`dirty, this`users, this`chats, this`db, this`nextId, this`storeCalls
      ensures Valid()
      ensures Clashes(f) ==> r == Err(DuplicateKeyword) && cache == old(cache) && dirty == old(dirty) && db == old(db)
      ensures !Clashes(f) ==>
                && r.Ok? && r.value !in old(db) && r.value !in old(cache)
                && db == old(db)[r.value := NewRow(f, now)]
                && cache == old(cache)[r.value := Added(r.value, f, now)]
                && dirty == old(dirty) + {r.value}
    {
      r := EnsureRecord(f, now);
      if r.Err? {
        return;
      }
      cache := cache[r.value := Added(r.value, f, now)];
      dirty := dirty + {r.value};
    }

    /** `get_cluster_logs(c)`: copies of exactly the entries of cluster `c`, by id. */
    function GetClusterLogs(clusterId: Option<int>): (r: map<int, LogRecord>)
      reads this
      ensures forall i :: i in r <==> i in cache && cache[i].clusterId == clusterId
      ensures forall i :: i in r ==> r[i] == cache[i]
    {
      map i | i in cache && cache[i].clusterId == clusterId :: cache[i]
    }

    /** `sync`: forget the dirty set; no store call. */
    method Sync()
      requires Valid()
      modifies this`dirty
      ensures Valid()
      ensures dirty == {}
    {
      dirty := {};
    }

    /**
     * An entry added for a cluster is listed for that cluster with its
     * action and reason, and its row holds them in the store.
     */
    method AddLogThenGet(f: LogFields, now: int) returns (id: int)
      requires Valid()
      requires !Clashes(f)
      modifies this`cache, this`dirty, this`users, this`chats, this`db, this`nextId, this`storeCalls
      ensures Valid()
      ensures id in GetClusterLogs(f.clusterId)
      ensures GetClusterLogs(f.clusterId)[id].action == f.action && GetClusterLogs(f.clusterId)[id].reason == f.reason
      ensures id in db && db[id].clusterId == f.clusterId && db[id].action == f.action
    {
      var r := AddLog(f, now);
      id := r.value;
    }
  }
}
