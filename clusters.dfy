/**
 * The clusters cache: each cluster with the set of Telegram chat ids the
 * cache believes belong to it. A sync reconciles the chats table's
 * cluster column with those sets, one cluster at a time, and a cluster
 * leaves the dirty set only when every chat it claims has a row.
 */
module Clusters {
  import opened WriteBack

  /** The slug of `DEFAULT_CLUSTER`, a default of every new cluster row. */
  const DefaultSlug: string := "global"

  /** The `is_global` flag of `DEFAULT_CLUSTER`, a default of every new cluster row. */
  const DefaultIsGlobal: bool := true

  /** `_CachedCluster`. */
  datatype ClusterRecord = ClusterRecord(id: int, name: string, isGlobal: bool, createdAt: int, chatIds: set<int>, slug: Option<string>)

  /** A row of the clusters table, indexed by its id. */
  datatype ClusterRow = ClusterRow(name: string, slug: Option<string>, isGlobal: bool, createdAt: int)

  /** The chats table's cluster column: each Telegram chat id with a row, and the cluster it belongs to. */
  type ChatTable = map<int, Option<int>>

  /** `db_tg_chat_ids`: the chats the store assigns to cluster `c`. */
  function Members(t: ChatTable, c: int): (m: set<int>)
    ensures m <= t.Keys
    ensures forall x :: x in m <==> x in t && t[x] == Some(c)
  {
    set x | x in t && t[x] == Some(c)
  }

  /** `to_add`: chats the cache claims for `c` and the store does not assign to it. */
  function ToAdd(t: ChatTable, c: int, cached: set<int>): set<int>
  {
    cached - Members(t, c)
  }

  /** `to_remove`: chats the store assigns to `c` and the cache does not claim. */
  function ToRemove(t: ChatTable, c: int, cached: set<int>): set<int>
  {
    Members(t, c) - cached
  }

  /** `add_updated`: the number of rows the assigning update matches, the claimed chats that have a row. */
  function AddUpdated(t: ChatTable, c: int, cached: set<int>): nat
  {
    |ToAdd(t, c, cached) * t.Keys|
  }

  /** `not to_add or add_updated >= len(to_add)`. */
  predicate Succeeded(t: ChatTable, c: int, cached: set<int>)
  {
    ToAdd(t, c, cached) == {} || AddUpdated(t, c, cached) >= |ToAdd(t, c, cached)|
  }

  /** The chats table after the two updates of cluster `c`: `to_add` moves into it, `to_remove` out of every cluster. */
  function Reconciled(t: ChatTable, c: int, cached: set<int>): (r: ChatTable)
    ensures r.Keys == t.Keys
  {
    map x | x in t :: if x in ToAdd(t, c, cached) then Some(c) else if x in ToRemove(t, c, cached) then None else t[x]
  }

  /** After the updates of `c` the store assigns to it exactly the claimed chats that have a row; the others keep their cluster. */
  lemma ReconciledMembers(t: ChatTable, c: int, cached: set<int>)
    ensures Members(Reconciled(t, c, cached), c) == cached * t.Keys
    ensures forall x :: x in t && x !in cached && t[x] != Some(c) ==> Reconciled(t, c, cached)[x] == t[x]
  {
    var r := Reconciled(t, c, cached);
    forall x | x in cached * t.Keys
      ensures x in Members(r, c)
    {
      if x !in ToAdd(t, c, cached) {
        assert x in Members(t, c);
      }
    }
    forall x | x in Members(r, c)
      ensures x in cached * t.Keys
    {
      if x !in ToAdd(t, c, cached) {
        assert x !in ToRemove(t, c, cached) && t[x] == Some(c);
      }
    }
  }

  /** A set that is not included in another has an element outside it. */
  lemma NotSubsetHasWitness(a: set<int>, b: set<int>)
    requires !(a <= b)
    ensures a - b != {}
  {
    if a - b == {} {
      forall y | y in a
        ensures y in b
      {
        assert y !in a - b;
      }
    }
  }

  /** Counting the matched rows decides the same thing as asking that every claimed chat have a row. */
  lemma SucceededIffClaimedChatsExist(t: ChatTable, c: int, cached: set<int>)
    ensures Succeeded(t, c, cached) <==> cached <= t.Keys
  {
    var a := ToAdd(t, c, cached);
    FullIntersection(a, t.Keys);
    assert a <= t.Keys ==> forall x :: x in cached && x !in a ==> x in Members(t, c);
  }

  /** As many common elements as `a` has exactly when `a` lies inside `b`. */
  lemma FullIntersection(a: set<int>, b: set<int>)
    ensures |a * b| >= |a| <==> a <= b
  {
    if a <= b {
      assert a * b == a;
    } else {
      NotSubsetHasWitness(a, b);
      var x := Member(a - b);
      assert a * b <= a - {x};
      SubsetCard(a * b, a - {x});
    }
  }

  /** A subset has no more elements than its superset. */
  lemma {:induction false} SubsetCard(a: set<int>, b: set<int>)
    requires a <= b
    ensures |a| <= |b|
    decreases |b|
  {
    if b != {} {
      var y := Member(b);
      SubsetCard(a - {y}, b - {y});
    }
  }

  /** Every cluster of an iteration order is one of the payloads. */
  predicate Listed(order: seq<int>, payloads: map<int, ClusterRecord>)
  {
    forall i :: 0 <= i < |order| ==> order[i] in payloads
  }

  /** The chats table after the whole transaction: the clusters reconciled in the order the payloads are iterated. */
  function SyncedChats(t: ChatTable, order: seq<int>, payloads: map<int, ClusterRecord>): (r: ChatTable)
    requires Listed(order, payloads)
    ensures r.Keys == t.Keys
    decreases |order|
  {
    if order == [] then t
    else SyncedChats(Reconciled(t, order[0], payloads[order[0]].chatIds), order[1..], payloads)
  }

  /** The clusters of `payloads` whose every claimed chat has a row. */
  function Complete(payloads: map<int, ClusterRecord>, t: ChatTable): (s: set<int>)
    ensures forall c :: c in s <==> c in payloads && payloads[c].chatIds <= t.Keys
  {
    set c | c in payloads && payloads[c].chatIds <= t.Keys
  }

  /** No cluster of the order claims chat `x`. */
  predicate Unclaimed(order: seq<int>, payloads: map<int, ClusterRecord>, x: int)
    requires Listed(order, payloads)
  {
    forall i :: 0 <= i < |order| ==> x !in payloads[order[i]].chatIds
  }

  /**
   * A chat no synced cluster claims loses its cluster when that cluster
   * was synced, and keeps it otherwise.
   */
  lemma {:induction false} UnclaimedChatAfterSync(t: ChatTable, order: seq<int>, payloads: map<int, ClusterRecord>, x: int)
    requires Listed(order, payloads) && x in t
    requires Unclaimed(order, payloads, x)
    ensures SyncedChats(t, order, payloads)[x] == if t[x].Some? && t[x].value in order then None else t[x]
    decreases |order|
  {
    if order != [] {
      var c := order[0];
      var t1 := Reconciled(t, c, payloads[c].chatIds);
      assert x !in payloads[c].chatIds;
      assert t1[x] == if t[x] == Some(c) then None else t[x];
      assert Unclaimed(order[1..], payloads, x) by {
        forall i | 0 <= i < |order[1..]|
          ensures x !in payloads[order[1..][i]].chatIds
        {
          assert order[1..][i] == order[i + 1];
        }
      }
      UnclaimedChatAfterSync(t1, order[1..], payloads, x);
      assert forall d :: d in order <==> d == c || d in order[1..];
    }
  }

  /** A chat that only cluster `c` claims belongs to `c` once `c` is synced. */
  lemma {:induction false} ClaimedChatAfterSync(t: ChatTable, order: seq<int>, payloads: map<int, ClusterRecord>, x: int, c: int)
    requires Listed(order, payloads) && x in t
    requires c in order && x in payloads[c].chatIds
    requires forall i :: 0 <= i < |order| && x in payloads[order[i]].chatIds ==> order[i] == c
    ensures SyncedChats(t, order, payloads)[x] == Some(c)
    decreases |order|
  {
    var c0 := order[0];
    var t1 := Reconciled(t, c0, payloads[c0].chatIds);
    var rest := order[1..];
    assert forall i :: 0 <= i < |rest| ==> rest[i] == order[i + 1];
    if c0 == c {
      assert t1[x] == Some(c) by {
        if x !in ToAdd(t, c, payloads[c].chatIds) {
          assert x in Members(t, c);
        }
      }
      if c in rest {
        ClaimedChatAfterSync(t1, rest, payloads, x, c);
      } else {
        assert Unclaimed(rest, payloads, x) by {
          forall i | 0 <= i < |rest|
            ensures x !in payloads[rest[i]].chatIds
          {
            assert rest[i] == order[i + 1];
          }
        }
        UnclaimedChatAfterSync(t1, rest, payloads, x);
      }
    } else {
      assert c in rest;
      ClaimedChatAfterSync(t1, rest, payloads, x, c);
    }
  }

  /** One step of the transaction: the first cluster of the order, reconciled. */
  lemma StepSynced(t: ChatTable, order: seq<int>, payloads: map<int, ClusterRecord>)
    requires Listed(order, payloads) && order != []
    ensures Listed(order[1..], payloads)
    ensures SyncedChats(t, order, payloads) == SyncedChats(Reconciled(t, order[0], payloads[order[0]].chatIds), order[1..], payloads)
  {
    assert forall i :: 0 <= i < |order[1..]| ==> order[1..][i] == order[i + 1];
  }

  /** An order in which `payloads.items()` may yield the clusters of `s`: each of them, and nothing else. */
  method IterationOrder(s: set<int>) returns (order: seq<int>)
    ensures forall i :: 0 <= i < |order| ==> order[i] in s
    ensures forall c :: c in s ==> c in order
    ensures forall i, j :: 0 <= i < j < |order| ==> order[i] != order[j]
    ensures |order| == |s|
  {
    order := [];
    var todo := s;
    while todo != {}
      invariant todo <= s
      invariant forall i :: 0 <= i < |order| ==> order[i] in s
      invariant forall c :: c in s ==> c in order || c in todo
      invariant forall i :: 0 <= i < |order| ==> order[i] !in todo
      invariant forall i, j :: 0 <= i < j < |order| ==> order[i] != order[j]
      invariant |order| + |todo| == |s|
      decreases todo
    {
      ghost var w := Member(todo);
      var c :| c in todo;
      order := order + [c];
      todo := todo - {c};
    }
  }

  class ClusterCache {
    var cache: map<int, ClusterRecord>
    var dirty: set<int>
    /** The clusters table, by id. */
    var clusters: map<int, ClusterRow>
    /** The chats table's cluster column, by Telegram chat id. */
    var chats: ChatTable
    var nextId: int
    ghost var storeCalls: nat

    /** Dirty clusters are cached, and the next id the store hands out is fresh. */
    ghost predicate Valid()
      reads this
    {
      && dirty <= cache.Keys
      && forall i :: i in clusters ==> i < nextId
    }

    constructor (clusterRows: map<int, ClusterRow>, chatRows: ChatTable, firstId: int)
      requires forall i :: i in clusterRows ==> i < firstId
      ensures Valid()
      ensures cache == map[] && dirty == {} && clusters == clusterRows && chats == chatRows
      ensures nextId == firstId && storeCalls == 0
    {
      cache := map[];
      dirty := {};
      clusters := clusterRows;
      chats := chatRows;
      nextId := firstId;
      storeCalls := 0;
    }

    /** `get`: the cached cluster, or None. */
    function Get(clusterId: int): (r: Option<ClusterRecord>)
      reads this
      ensures r.Some? <==> clusterId in cache
      ensures r.Some? ==> r.value == cache[clusterId]
    {
      if clusterId in cache then Some(cache[clusterId]) else None
    }

    /**
     * `add_chat`: a cluster neither cached nor stored is left alone; one
     * only stored is cached first with no chats; then the chat joins the
     * cluster's set and the cluster becomes dirty.
     */
    method AddChat(clusterId: int, tgChat: int)
      requires Valid()
      modifies this`cache, this`dirty, this`storeCalls
      ensures Valid()
      ensures clusterId !in old(cache) && clusterId !in clusters ==> cache == old(cache) && dirty == old(dirty)
      ensures clusterId in old(cache) ==>
                cache == old(cache)[clusterId := old(cache)[clusterId].(chatIds := old(cache)[clusterId].chatIds + {tgChat})]
                && dirty == old(dirty) + {clusterId} && storeCalls == old(storeCalls)
      ensures clusterId !in old(cache) && clusterId in clusters ==>
                var row := clusters[clusterId];
                cache == old(cache)[clusterId := ClusterRecord(clusterId, row.name, row.isGlobal, row.createdAt, {tgChat}, row.slug)]
                && dirty == old(dirty) + {clusterId}
    {
      if clusterId !in cache {
        storeCalls := storeCalls + 1;
        if clusterId !in clusters {
          return;
        }
        var row := clusters[clusterId];
        cache := cache[clusterId := ClusterRecord(clusterId, row.name, row.isGlobal, row.createdAt, {}, row.slug)];
        assert cache[clusterId].chatIds + {tgChat} == {tgChat};
      }
      cache := cache[clusterId := cache[clusterId].(chatIds := cache[clusterId].chatIds + {tgChat})];
      dirty := dirty + {clusterId};
    }

    /** `remove_chat`: only a chat in a cached cluster's set is taken out, and only then is the cluster dirty. */
    method RemoveChat(clusterId: int, tgChat: int)
      requires Valid()
      modifies this`cache, this`dirty
      ensures Valid()
      ensures clusterId in old(cache) && tgChat in old(cache)[clusterId].chatIds ==>
                cache == old(cache)[clusterId := old(cache)[clusterId].(chatIds := old(cache)[clusterId].chatIds - {tgChat})]
                && dirty == old(dirty) + {clusterId}
      ensures !(clusterId in old(cache) && tgChat in old(cache)[clusterId].chatIds) ==>
                cache == old(cache) && dirty == old(dirty)
    {
      if clusterId in cache && tgChat in cache[clusterId].chatIds {
        cache := cache[clusterId := cache[clusterId].(chatIds := cache[clusterId].chatIds - {tgChat})];
        dirty := dirty + {clusterId};
      }
    }

    /**
     * `ClusterRepository.ensure_record`: the cluster with that name, or a
     * new row from the caller's slug and flag over `DEFAULT_CLUSTER`'s.
     */
    method EnsureRecord(name: string, slug: Option<Option<string>>, isGlobal: Option<bool>, now: int)
      returns (id: int, row: ClusterRow, created: bool)
      requires Valid()
      modifies this`clusters, this`nextId, this`storeCalls
      ensures Valid()
      ensures id in clusters && clusters[id] == row && row.name == name
      ensures created <==> forall i :: i in old(clusters) ==> old(clusters)[i].name != name
      ensures !created ==> clusters == old(clusters)
      ensures created ==>
                id == old(nextId) && id !in old(clusters) && clusters == old(clusters)[id := row]
                && row.slug == (if slug.Some? then slug.value else Some(DefaultSlug))
                && row.isGlobal == (if isGlobal.Some? then isGlobal.value else DefaultIsGlobal)
                && row.createdAt == now
    {
      storeCalls := storeCalls + 1;
      if i :| i in clusters && clusters[i].name == name {
        id, row, created := i, clusters[i], false;
      } else {
        id := nextId;
        row := ClusterRow(name, if slug.Some? then slug.value else Some(DefaultSlug),
                          if isGlobal.Some? then isGlobal.value else DefaultIsGlobal, now);
        clusters := clusters[id := row];
        nextId := id + 1;
        created := true;
      }
    }

    /**
     * `add_cluster`: ensure the row by name, then cache it with no chats;
     * the cluster is not marked dirty.
     */
    method AddCluster(name: string, slug: Option<Option<string>>, isGlobal: Option<bool>, now: int) returns (id: int, row: ClusterRow)
      requires Valid()
      modifies this`cache, this`clusters, this`nextId, this`storeCalls
      ensures Valid()
      ensures id in clusters && clusters[id] == row && row.name == name
      ensures cache == old(cache)[id := ClusterRecord(id, row.name, row.isGlobal, row.createdAt, {}, row.slug)]
      ensures dirty == old(dirty)
    {
      var created;
      id, row, created := EnsureRecord(name, slug, isGlobal, now);
      cache := cache[id := ClusterRecord(id, row.name, row.isGlobal, row.createdAt, {}, row.slug)];
    }

    /**
     * `remove_cluster`: delete the row first (its chats go with it, the
     * foreign key cascading), then evict the cluster from the cache and
     * the dirty set.
     */
    method RemoveCluster(clusterId: int)
      requires Valid()
      modifies this`cache, this`dirty, this`clusters, this`chats, this`storeCalls
      ensures Valid()
      ensures clusters == old(clusters) - {clusterId}
      ensures chats == map x | x in old(chats) && old(chats)[x] != Some(clusterId) :: old(chats)[x]
      ensures cache == old(cache) - {clusterId} && dirty == old(dirty) - {clusterId}
    {
      storeCalls := storeCalls + 1;
      clusters := clusters - {clusterId};
      chats := map x | x in chats && chats[x] != Some(clusterId) :: chats[x];
      cache := cache - {clusterId};
      dirty := dirty - {clusterId};
    }

    /** `ClusterManager.get_chats`: the chats of a cached cluster, none for another. */
    function GetChats(clusterId: int): (r: set<int>)
      reads this
      ensures clusterId in cache ==> r == cache[clusterId].chatIds
      ensures clusterId !in cache ==> r == {}
    {
      if clusterId in cache then cache[clusterId].chatIds else {}
    }

    /** `ClusterManager.get_all_clusters`: copies of every cached cluster. */
    function GetAllClusters(): (r: set<ClusterRecord>)
      reads this
      ensures forall c :: c in cache ==> cache[c] in r
      ensures forall v :: v in r ==> exists c :: c in cache && cache[c] == v
    {
      set c | c in cache :: cache[c]
    }

    /**
     * The transaction of `sync`: reconcile each cluster in iteration
     * order and collect those whose claimed chats all had a row. `ok` is
     * false when the store raised, and the transaction is rolled back.
     */
    method Flush(order: seq<int>, payloads: map<int, ClusterRecord>, ok: bool) returns (succeeded: set<int>)
      requires Valid() && Listed(order, payloads)
      modifies this`chats, this`storeCalls
      ensures Valid()
      ensures chats == if ok then SyncedChats(old(chats), order, payloads) else old(chats)
      ensures forall c :: c in succeeded ==> c in payloads && payloads[c].chatIds <= old(chats).Keys
      ensures forall j :: 0 <= j < |order| && payloads[order[j]].chatIds <= old(chats).Keys ==> order[j] in succeeded
    {
      storeCalls := storeCalls + 1;
      var d := chats;
      succeeded := {};
      var i := 0;
      while i < |order|
        invariant 0 <= i <= |order|
        invariant chats == old(chats) && storeCalls == old(storeCalls) + 1
        invariant d.Keys == chats.Keys
        invariant SyncedChats(d, order[i..], payloads) == SyncedChats(chats, order, payloads)
        invariant forall c :: c in succeeded ==> c in payloads && payloads[c].chatIds <= chats.Keys
        invariant forall j :: 0 <= j < i && payloads[order[j]].chatIds <= chats.Keys ==> order[j] in succeeded
      {
        var c := order[i];
        var cached := payloads[c].chatIds;
        var toAdd := cached - Members(d, c);
        var addUpdated := |toAdd * d.Keys|;
        SucceededIffClaimedChatsExist(d, c, cached);
        assert Succeeded(d, c, cached) <==> toAdd == {} || addUpdated >= |toAdd|;
        if toAdd == {} || addUpdated >= |toAdd| {
          succeeded := succeeded + {c};
        }
        StepSynced(d, order[i..], payloads);
        assert order[i..][1..] == order[i + 1..];
        d := Reconciled(d, c, cached);
        i := i + 1;
      }
      if ok {
        chats := d;
      }
    }

    /**
     * `sync`, run without interleaving: nothing happens while no cluster
     * is dirty; a store failure escapes as `StoreFailure` with dirty as it
     * was; a success reconciles the chats table and clears exactly the
     * clusters whose claimed chats all have a row.
     */
    method Sync(ok: bool) returns (order: seq<int>, payloads: map<int, ClusterRecord>, raised: Option<Error>)
      requires Valid()
      modifies this`chats, this`dirty, this`storeCalls
      ensures Valid()
      ensures old(dirty) == {} ==> chats == old(chats) && dirty == old(dirty) && raised == None
      ensures old(dirty) != {} ==>
                payloads == Snapshot(old(dirty), cache) && payloads.Keys == old(dirty)
                && Listed(order, payloads) && (forall c :: c in payloads ==> c in order)
                && chats == (if ok then SyncedChats(old(chats), order, payloads) else old(chats))
                && dirty == (if ok then old(dirty) - Complete(payloads, old(chats)) else old(dirty))
                && raised == (if ok then None else Some(StoreFailure))
    {
      order, payloads, raised := [], map[], None;
      if dirty == {} {
        return;
      }
      payloads := map c | c in dirty && c in cache :: cache[c];
      order := IterationOrder(payloads.Keys);
      var succeeded := Flush(order, payloads, ok);
      if !ok {
        raised := Some(StoreFailure);
        return;
      }
      assert succeeded == Complete(payloads, old(chats)) by {
        forall c | c in Complete(payloads, old(chats))
          ensures c in succeeded
        {
          assert c in payloads && c in order;
          var j :| 0 <= j < |order| && order[j] == c;
          assert payloads[order[j]].chatIds <= old(chats).Keys;
        }
        forall c | c in succeeded
          ensures c in Complete(payloads, old(chats))
        {
        }
      }
      dirty := dirty - succeeded;
    }

    /**
     * A chat without a row, added to a cached cluster: after a sync the
     * cluster is still dirty, to be retried once the chat exists.
     */
    method AddMissingChatThenSync(clusterId: int, tgChat: int)
      requires Valid()
      requires clusterId in cache && tgChat !in chats
      modifies this`cache, this`dirty, this`chats, this`storeCalls
      ensures Valid()
      ensures clusterId in dirty
    {
      AddChat(clusterId, tgChat);
      var order, payloads, _ := Sync(true);
      assert clusterId !in Complete(payloads, old(chats));
    }

    /**
     * A cluster cached by `add_chat` starts with no chats, so its first
     * sync unassigns every other chat the store held in it.
     */
    method AddChatToUncachedThenSync(clusterId: int, tgChat: int, other: int)
      requires Valid()
      requires dirty == {} && clusterId !in cache && clusterId in clusters
      requires other in chats && chats[other] == Some(clusterId) && other != tgChat
      modifies this`cache, this`dirty, this`chats, this`storeCalls
      ensures Valid()
      ensures other in chats && chats[other] == None
    {
      AddChat(clusterId, tgChat);
      assert dirty == {clusterId} && cache[clusterId].chatIds == {tgChat};
      ghost var before := chats;
      var order, payloads, _ := Sync(true);
      assert payloads.Keys == {clusterId};
      assert Unclaimed(order, payloads, other);
      UnclaimedChatAfterSync(before, order, payloads, other);
    }
  }
}
