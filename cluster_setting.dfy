/**
 * The cluster settings cache: one JSON value per (cluster id, setting
 * name). Every `set` goes through get-or-create in the store, which leaves
 * an existing row's value alone; the store catches up at the next sync.
 * A sync has no handler: a store failure escapes to the caller.
 */
module ClusterSetting {
  import opened WriteBack

  /** (cluster id, setting name). */
  type Key = (int, string)

  /** `_CachedClusterSetting`. */
  datatype SettingRecord = SettingRecord(id: int, clusterId: int, name: string, value: Val)

  /** A row of the cluster settings table, indexed by its cluster id and setting name. */
  datatype SettingRow = SettingRow(id: int, value: Val)

  /** What the flush does with one payload: `update_or_create` sets the value, creating the row with the cached id. */
  function FlushedRow(row: Option<SettingRow>, cached: SettingRecord): (r: Option<SettingRow>)
    ensures r.Some? && r.value.value == cached.value
    ensures r.value.id == if row.Some? then row.value.id else cached.id
  {
    match row
    case Some(existing) => Some(existing.(value := cached.value))
    case None => Some(SettingRow(cached.id, cached.value))
  }

  function Step(): (Option<SettingRow>, Key, SettingRecord) -> Option<SettingRow>
  {
    (row: Option<SettingRow>, k: Key, cached: SettingRecord) => FlushedRow(row, cached)
  }

  /** The cluster settings table after a successful flush of `payloads`. */
  function Flushed(db: map<Key, SettingRow>, payloads: map<Key, SettingRecord>): map<Key, SettingRow>
  {
    FlushedWith(db, payloads, Step())
  }

  /** After a flush every payload has a row holding its value; other keys keep their rows. */
  lemma FlushWritesValue(db: map<Key, SettingRow>, payloads: map<Key, SettingRecord>, k: Key)
    ensures k in payloads ==> k in Flushed(db, payloads) && Flushed(db, payloads)[k].value == payloads[k].value
    ensures k !in payloads ==> LookupIn(Flushed(db, payloads), k) == LookupIn(db, k)
  {
    if k in payloads {
      assert Step()(LookupIn(db, k), k, payloads[k]) == FlushedRow(LookupIn(db, k), payloads[k]);
    }
  }

  class ClusterSettingCache {
    var cache: map<Key, SettingRecord>
    var dirty: set<Key>
    /** The cluster settings table, by cluster id and setting name. */
    var db: map<Key, SettingRow>
    var nextId: int
    ghost var storeCalls: nat

    /**
     * Dirty keys are cached, and a record names the key it is cached
     * under: the flush writes it by its own cluster id and name.
     */
    ghost predicate Valid()
      reads this
    {
      && dirty <= cache.Keys
      && forall k :: k in cache ==> cache[k].clusterId == k.0 && cache[k].name == k.1
    }

    constructor (settingRows: map<Key, SettingRow>, firstId: int)
      ensures Valid()
      ensures cache == map[] && dirty == {} && db == settingRows
      ensures nextId == firstId && storeCalls == 0
    {
      cache := map[];
      dirty := {};
      db := settingRows;
      nextId := firstId;
      storeCalls := 0;
    }

    /**
     * `ClusterSettingRepository.ensure_record`: get the row, or create it
     * with `value`; an existing row keeps the value it had.
     */
    method EnsureRecord(k: Key, value: Val) returns (row: SettingRow)
      modifies this`db, this`nextId, this`storeCalls
      ensures k in old(db) ==> row == old(db)[k] && db == old(db) && nextId == old(nextId)
      ensures k !in old(db) ==> row == SettingRow(old(nextId), value) && db == old(db)[k := row] && nextId == old(nextId) + 1
      ensures storeCalls == old(storeCalls) + 1
    {
      storeCalls := storeCalls + 1;
      if k in db {
        row := db[k];
      } else {
        row := SettingRow(nextId, value);
        nextId := nextId + 1;
        db := db[k := row];
      }
    }

    /**
     * `set`: get or create the row, then cache the new value under the
     * row's id and mark the key dirty.
     */
    method Set(clusterId: int, name: string, value: Val)
      requires Valid()
      modifies this`cache, this`dirty, this`db, this`nextId, this`storeCalls
      ensures Valid()
      ensures (clusterId, name) in db
      ensures (clusterId, name) in old(db) ==> db == old(db)
      ensures (clusterId, name) !in old(db) ==> db == old(db)[(clusterId, name) := SettingRow(old(nextId), value)]
      ensures cache == old(cache)[(clusterId, name) := SettingRecord(db[(clusterId, name)].id, clusterId, name, value)]
      ensures dirty == old(dirty) + {(clusterId, name)}
      ensures storeCalls == old(storeCalls) + 1
    {
      var key := (clusterId, name);
      var row := EnsureRecord(key, value);
      cache := cache[key := SettingRecord(row.id, clusterId, name, value)];
      dirty := dirty + {key};
    }

    /** `get`: the cached value; None both for a missing key and for a stored None. */
    function Get(clusterId: int, name: string): (v: Val)
      reads this
      ensures (clusterId, name) in cache ==> v == cache[(clusterId, name)].value
      ensures (clusterId, name) !in cache ==> v == Null
    {
      if (clusterId, name) in cache then cache[(clusterId, name)].value else Null
    }

    /** `remove`: pop and discard the key (absent is fine), then delete its row. */
    method Remove(clusterId: int, name: string)
      requires Valid()
      modifies this`cache, this`dirty, this`db, this`storeCalls
      ensures Valid()
      ensures cache == old(cache) - {(clusterId, name)} && dirty == old(dirty) - {(clusterId, name)}
      ensures Get(clusterId, name) == Null
      ensures db == old(db) - {(clusterId, name)}
      ensures storeCalls == old(storeCalls) + 1
    {
      var key := (clusterId, name);
      cache := cache - {key};
      dirty := dirty - {key};
      storeCalls := storeCalls + 1;
      db := db - {key};
    }

    /** `get_cluster_settings(c)`: the cached settings of cluster `c`. */
    function GetClusterSettings(clusterId: int): (r: map<Key, SettingRecord>)
      reads this
      ensures forall k :: k in r ==> k in cache && k.0 == clusterId && r[k] == cache[k]
      ensures forall k :: k in cache && k.0 == clusterId ==> k in r
    {
      WithFirst(cache, clusterId)
    }

    /** The first half of `sync`: the dirty set as it is, and copies of its cached records. */
    method BeginSync() returns (snapshot: set<Key>, payloads: map<Key, SettingRecord>)
      requires Valid()
      ensures snapshot == dirty
      ensures payloads == Snapshot(dirty, cache) && payloads.Keys == dirty
    {
      snapshot := dirty;
      payloads := map k | k in dirty && k in cache :: cache[k];
    }

    /** The transaction of `sync`; `ok` is false when the store raised, and it is rolled back. */
    method Flush(payloads: map<Key, SettingRecord>, ok: bool)
      requires Valid()
      modifies this`db, this`storeCalls
      ensures Valid()
      ensures db == if ok then Flushed(old(db), payloads) else old(db)
      ensures storeCalls == old(storeCalls) + 1
    {
      storeCalls := storeCalls + 1;
      var d := FlushLoop(db, payloads, Step());
      if ok {
        db := d;
      }
    }

    /** The commit of `sync`: `_dirty -= dirty_snapshot`. */
    method CommitSync(snapshot: set<Key>)
      requires Valid()
      modifies this`dirty
      ensures Valid()
      ensures dirty == old(dirty) - snapshot
    {
      dirty := dirty - snapshot;
    }

    /**
     * `sync`, run without interleaving: with no cached dirty key there is
     * no store call; a store failure escapes as `StoreFailure` with dirty
     * as it was; a success writes every payload and empties dirty.
     */
    method Sync(ok: bool) returns (payloads: map<Key, SettingRecord>, raised: Option<Error>)
      requires Valid()
      modifies this`db, this`dirty, this`storeCalls
      ensures Valid()
      ensures payloads == Snapshot(old(dirty), cache) && payloads.Keys == old(dirty)
      ensures raised == if payloads != map[] && !ok then Some(StoreFailure) else None
      ensures payloads == map[] ==> db == old(db) && dirty == old(dirty) && storeCalls == old(storeCalls)
      ensures payloads != map[] ==> db == (if ok then Flushed(old(db), payloads) else old(db))
      ensures dirty == if ok then {} else old(dirty)
    {
      var snapshot;
      snapshot, payloads := BeginSync();
      raised := None;
      if payloads == map[] {
        return;
      }
      Flush(payloads, ok);
      if !ok {
        raised := Some(StoreFailure);
        return;
      }
      CommitSync(snapshot);
    }

    /**
     * Setting a key whose row holds another value leaves the row as it was
     * while the cache answers with the new value; the next sync brings
     * the row up to date.
     */
    method SetStoredThenSync(clusterId: int, name: string, value: Val)
      requires Valid()
      requires (clusterId, name) in db && db[(clusterId, name)].value != value
      modifies this`cache, this`dirty, this`db, this`nextId, this`storeCalls
      ensures Valid()
      ensures Get(clusterId, name) == value && dirty == {}
      ensures (clusterId, name) in db && db[(clusterId, name)].value == value
    {
      var key := (clusterId, name);
      Set(clusterId, name, value);
      assert db[key].value != value;
      ghost var before := db;
      var payloads, _ := Sync(true);
      FlushWritesValue(before, payloads, key);
    }
  }
}
