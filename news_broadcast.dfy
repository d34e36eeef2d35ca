/**
 * The news broadcasts cache: a journal of the broadcasts sent to a
 * cluster, keyed by row id. `add_broadcast` writes the row first and then
 * caches it; a sync only forgets which entries were dirty.
 */
module NewsBroadcast {
  import opened WriteBack

  /** `_CachedNewsBroadcast`. */
  datatype BroadcastRecord = BroadcastRecord(
    id: int, clusterId: Option<int>, actorId: Option<int>, content: string,
    sentCount: int, successCount: int, failedCount: int, meta: Val, createdAt: int)

  /** A row of the news broadcasts table, indexed by its id; `actorId` is a user row id. */
  datatype BroadcastRow = BroadcastRow(
    clusterId: Option<int>, actorId: Option<int>, content: string,
    sentCount: int, successCount: int, failedCount: int, meta: Val, createdAt: int)

  /** The row `NewsBroadcastRepository.ensure_record` creates: the counters take their default 0. */
  function NewRow(clusterId: Option<int>, content: string, actorId: Option<int>, meta: Val, now: int): (row: BroadcastRow)
    ensures row.clusterId == clusterId && row.actorId == actorId && row.content == content && row.meta == meta
    ensures row.sentCount == 0 && row.successCount == 0 && row.failedCount == 0
    ensures row.createdAt == now
  {
    BroadcastRow(clusterId, actorId, content, 0, 0, 0, meta, now)
  }

  /** What `initialize` and `add_broadcast` cache for row `id`: its columns. */
  function Loaded(id: int, row: BroadcastRow): (r: BroadcastRecord)
    ensures r.id == id && r.clusterId == row.clusterId && r.actorId == row.actorId && r.content == row.content
    ensures r.sentCount == row.sentCount && r.successCount == row.successCount && r.failedCount == row.failedCount
    ensures r.meta == row.meta && r.createdAt == row.createdAt
  {
    BroadcastRecord(id, row.clusterId, row.actorId, row.content, row.sentCount, row.successCount, row.failedCount, row.meta, row.createdAt)
  }

  class NewsBroadcastCache {
    var cache: map<int, BroadcastRecord>
    var dirty: set<int>
    /** The news broadcasts table, by row id. */
    var db: map<int, BroadcastRow>
    var nextId: int
    ghost var storeCalls: nat

    /**
     * Dirty entries are cached, each entry is cached under its own id,
     * every cached entry has a row, and every row id is below the next
     * one to be handed out.
     */
    ghost predicate Valid()
      reads this
    {
      && dirty <= cache.Keys
      && (forall i :: i in cache ==> cache[i].id == i)
      && cache.Keys <= db.Keys
      && (forall i :: i in db ==> i < nextId)
    }

    constructor (broadcastRows: map<int, BroadcastRow>, firstId: int)
      requires forall i :: i in broadcastRows ==> i < firstId
      ensures Valid()
      ensures cache == map[] && dirty == {} && db == broadcastRows
      ensures nextId == firstId && storeCalls == 0
    {
      cache := map[];
      dirty := {};
      db := broadcastRows;
      nextId := firstId;
      storeCalls := 0;
    }

    /** `initialize`: cache every row under its id. */
    method Initialize()
      requires Valid()
      modifies this`cache, this`storeCalls
      ensures Valid()
      ensures cache.Keys == db.Keys
      ensures forall i :: i in db ==> cache[i] == Loaded(i, db[i])
      ensures storeCalls == old(storeCalls) + 1
    {
      var todo := db.Keys;
      var c := cache;
      while todo != {}
        invariant cache == old(cache) && storeCalls == old(storeCalls)
        invariant cache.Keys <= db.Keys
        invariant todo <= db.Keys
        invariant forall i :: i in c <==> i in cache || (i in db && i !in todo)
        invariant forall i :: i in db && i !in todo ==> i in c && c[i] == Loaded(i, db[i])
        invariant forall i :: i in c ==> c[i].id == i
        decreases |todo|
      {
        ghost var w := Member(todo);
        var i :| i in todo;
        c := c[i := Loaded(i, db[i])];
        todo := todo - {i};
      }
      assert forall i :: i in c <==> i in db;
      assert c.Keys == db.Keys;
      cache := c;
      storeCalls := storeCalls + 1;
    }

    /** `NewsBroadcastRepository.ensure_record`: create the row under a fresh id. */
    method EnsureRecord(clusterId: Option<int>, content: string, actorId: Option<int>, meta: Val, now: int) returns (id: int)
      requires Valid()
      modifies this`db, this`nextId, this`storeCalls
      ensures Valid()
      ensures id !in old(db) && db == old(db)[id := NewRow(clusterId, content, actorId, meta, now)]
      ensures storeCalls == old(storeCalls) + 1
    {
      storeCalls := storeCalls + 1;
      id := nextId;
      db := db[id := NewRow(clusterId, content, actorId, meta, now)];
      nextId := nextId + 1;
    }

    /**
     * `add_broadcast`: create the row, then cache it under its id and mark it
     * dirty. The source defaults `meta` to None, which is `Null` here.
     */
    method AddBroadcast(clusterId: Option<int>, content: string, actorId: Option<int>, meta: Val, now: int) returns (id: int)
      requires Valid()
      modifies this`cache, this`dirty, this`db, this`nextId, this`storeCalls
      ensures Valid()
      ensures id !in old(db) && id !in old(cache)
      ensures db == old(db)[id := NewRow(clusterId, content, actorId, meta, now)]
      ensures cache == old(cache)[id := Loaded(id, db[id])]
      ensures dirty == old(dirty) + {id}
    {
      id := EnsureRecord(clusterId, content, actorId, meta, now);
      cache := cache[id := Loaded(id, db[id])];
      dirty := dirty + {id};
    }

    /** `get_cluster_broadcasts(c)`: copies of exactly the broadcasts of cluster `c`, by id. */
    function GetClusterBroadcasts(clusterId: Option<int>): (r: map<int, BroadcastRecord>)
      reads this
      ensures forall i :: i in r <==> i in cache && cache[i].clusterId == clusterId
      ensures forall i :: i in r ==> r[i] == cache[i]
    {
      map i | i in cache && cache[i].clusterId == clusterId :: cache[i]
    }

    /** `sync`: forget the dirty set; no store call. */
    method Sync()
      requires Valid()
      modifies this`dirty
      ensures Valid()
      ensures dirty == {}
    {
      dirty := {};
    }

    /**
     * A broadcast added for a cluster is listed for that cluster with its
     * content, and its row holds the content in the store.
     */
    method AddBroadcastThenGet(clusterId: Option<int>, content: string, actorId: Option<int>, meta: Val, now: int) returns (id: int)
      requires Valid()
      modifies this`cache, this`dirty, this`db, this`nextId, this`storeCalls
      ensures Valid()
      ensures id in GetClusterBroadcasts(clusterId) && GetClusterBroadcasts(clusterId)[id].content == content
      ensures id in db && db[id].clusterId == clusterId && db[id].content == content
    {
      id := AddBroadcast(clusterId, content, actorId, meta, now);
    }

    /**
     * The round trip through the store: a broadcast added and then
     * reloaded by `initialize` (a cold start over the same table) is cached
     * exactly as `add_broadcast` cached it, with the caller's content and
     * zeroed counters.
     */
    method AddBroadcastThenInitialize(clusterId: Option<int>, content: string, actorId: Option<int>, meta: Val, now: int)
      returns (id: int, added: BroadcastRecord)
      requires Valid()
      modifies this`cache, this`dirty, this`db, this`nextId, this`storeCalls
      ensures Valid()
      ensures added == BroadcastRecord(id, clusterId, actorId, content, 0, 0, 0, meta, now)
      ensures id in cache && cache[id] == added
    {
      id := AddBroadcast(clusterId, content, actorId, meta, now);
      added := cache[id];
      Initialize();
    }
  }
}
