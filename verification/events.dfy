/**
 * The event registry of src/lib/utils/events/EventPool.ts.
 *
 * An `EventPool` is a group of subscribers kept in an insertion-ordered map
 * from subscription id to callback; an `Event` keeps its pools in an
 * insertion-ordered map from pool id to pool, and `emit` calls every
 * subscriber of every pool. Callbacks are opaque handles: emitting is
 * modelled as the ordered list of handles that get called. Ids come from a
 * random source in the source; here they are parameters.
 */
module Events {

  /** An opaque handle standing for a subscriber function. */
  datatype Callback = Callback(name: string)

  predicate Distinct<T(==)>(s: seq<T>)
  {
    forall i, j :: 0 <= i < j < |s| ==> s[i] != s[j]
  }

  /** `s` with every occurrence of `x` dropped, the rest in their order (`Map.delete` on the key order). */
  function Without(s: seq<string>, x: string): (r: seq<string>)
    ensures forall y :: y in r <==> y in s && y != x
    ensures x !in s ==> r == s
    ensures Distinct(s) ==> Distinct(r)
    ensures |r| <= |s|
  {
    if s == [] then []
    else
      var rest := Without(s[1..], x);
      assert forall y :: y in s <==> y == s[0] || y in s[1..];
      DistinctTail(s);
      if s[0] == x then rest else [s[0]] + rest
  }

  lemma DistinctTail(s: seq<string>)
    requires |s| > 0
    ensures Distinct(s) ==> Distinct(s[1..]) && s[0] !in s[1..]
  {
    if Distinct(s) {
      forall j | 0 <= j < |s| - 1 ensures s[1..][j] != s[0] { assert s[1..][j] == s[j + 1]; }
    }
  }

  lemma {:induction false} WithoutSplit(a: seq<string>, x: string, b: seq<string>)
    requires x !in a && x !in b
    ensures Without(a + [x] + b, x) == a + b
  {
    var s := a + [x] + b;
    if a == [] {
      assert s[0] == x && s[1..] == b;
    } else {
      assert s[0] == a[0] && s[1..] == a[1..] + [x] + b;
      assert a[0] in a;
      WithoutSplit(a[1..], x, b);
      assert a == [a[0]] + a[1..];
      assert [a[0]] + (a[1..] + b) == a + b;
    }
  }

  /**
   * The callbacks reached by iterating the subscriber map: one per
   * subscription id, in subscription order (an id with no entry is passed
   * over).
   */
  function Listed(order: seq<string>, subs: map<string, Callback>): (r: seq<Callback>)
    ensures |r| <= |order|
    ensures (forall k :: k in order ==> k in subs) ==>
      |r| == |order| && forall i :: 0 <= i < |order| ==> r[i] == subs[order[i]]
  {
    if order == [] then []
    else
      var last := order[|order| - 1];
      Listed(order[..|order| - 1], subs) + if last in subs then [subs[last]] else []
  }

  /** A key the order does not name leaves the iteration unchanged. */
  lemma {:induction false} ListedOtherKey(order: seq<string>, subs: map<string, Callback>, key: string, fn: Callback)
    requires key !in order
    ensures Listed(order, subs[key := fn]) == Listed(order, subs)
  {
    if order != [] {
      ListedOtherKey(order[..|order| - 1], subs, key, fn);
    }
  }

  /** `EventPool<T>`: a group of subscribers that can be cleared at once. */
  class EventPool {
    const id: string
    /** The keys of `subscribers` in insertion order. */
    var order: seq<string>
    var subscribers: map<string, Callback>

    ghost predicate Valid()
      reads this
    {
      Distinct(order) && forall k :: k in subscribers <==> k in order
    }

    constructor (id: string)
      ensures Valid() && this.id == id
      ensures order == [] && subscribers == map[]
    {
      this.id := id;
      order := [];
      subscribers := map[];
    }

    /** The callbacks the pool reaches, in subscription order. */
    function Listeners(): seq<Callback>
      reads this
    {
      Listed(order, subscribers)
    }

    /** `subscribe(fn)`: `subscribers.set(id, fn)` under the given id, which it returns. */
    method Subscribe(subscriptionId: string, fn: Callback) returns (r: string)
      requires Valid()
      modifies this
      ensures Valid() && r == subscriptionId
      ensures subscribers == old(subscribers)[subscriptionId := fn]
      ensures order == if subscriptionId in old(subscribers) then old(order) else old(order) + [subscriptionId]
      ensures subscriptionId !in old(subscribers) ==> Listeners() == old(Listeners()) + [fn]
    {
      if subscriptionId !in subscribers {
        ListedOtherKey(order, subscribers, subscriptionId, fn);
        assert (order + [subscriptionId])[..|order|] == order;
        order := order + [subscriptionId];
      }
      subscribers := subscribers[subscriptionId := fn];
      r := subscriptionId;
    }

    /** `unsubscribe(id)`: `subscribers.delete(id)`; an unknown id changes nothing. */
    method Unsubscribe(subscriptionId: string)
      requires Valid()
      modifies this
      ensures Valid()
      ensures subscribers == old(subscribers) - {subscriptionId}
      ensures order == Without(old(order), subscriptionId)
      ensures subscriptionId !in old(subscribers) ==> order == old(order) && subscribers == old(subscribers)
    {
      subscribers := subscribers - {subscriptionId};
      order := Without(order, subscriptionId);
    }

    /** `unsubscribeAll()`: `subscribers.clear()`. */
    method UnsubscribeAll()
      modifies this
      ensures Valid() && order == [] && subscribers == map[]
      ensures Listeners() == []
    {
      order := [];
      subscribers := map[];
    }

    /** `pool.subscribers.forEach((fn) => fn(data))`: the callbacks called, in order. */
    method Dispatch() returns (invoked: seq<Callback>)
      ensures invoked == Listeners()
      ensures Valid() ==> |invoked| == |order| && forall i :: 0 <= i < |order| ==> invoked[i] == subscribers[order[i]]
    {
      invoked := [];
      var i := 0;
      while i < |order|
        invariant 0 <= i <= |order|
        invariant invoked == Listed(order[..i], subscribers)
      {
        assert order[..i + 1][..i] == order[..i];
        if order[i] in subscribers {
          invoked := invoked + [subscribers[order[i]]];
        }
        i := i + 1;
      }
      assert order[..i] == order;
    }
  }

  /**
   * The callbacks reached by emitting over the pools named by `ids`, pool
   * after pool, where `lists` gives each pool's callbacks in order.
   */
  function Gather(ids: seq<string>, lists: map<string, seq<Callback>>): seq<Callback>
    requires forall k :: k in ids ==> k in lists
  {
    if ids == [] then []
    else Gather(ids[..|ids| - 1], lists) + lists[ids[|ids| - 1]]
  }

  /** Emitting over a concatenation of pool lists is emitting over each in turn. */
  lemma {:induction false} GatherSplit(a: seq<string>, b: seq<string>, lists: map<string, seq<Callback>>)
    requires forall k :: k in a + b ==> k in lists
    ensures Gather(a + b, lists) == Gather(a, lists) + Gather(b, lists)
  {
    if b == [] {
      assert a + b == a;
    } else {
      var b', last := b[..|b| - 1], b[|b| - 1];
      assert (a + b)[..|a + b| - 1] == a + b';
      assert (a + b)[|a + b| - 1] == last;
      calc {
        Gather(a + b, lists);
        Gather(a + b', lists) + lists[last];
        { GatherSplit(a, b', lists); }
        Gather(a, lists) + Gather(b', lists) + lists[last];
        Gather(a, lists) + (Gather(b', lists) + lists[last]);
      }
    }
  }

  /** Only the pools named matter, not the rest of the map. */
  lemma {:induction false} GatherSameEntries(ids: seq<string>, m1: map<string, seq<Callback>>, m2: map<string, seq<Callback>>)
    requires forall k :: k in ids ==> k in m1 && k in m2 && m1[k] == m2[k]
    ensures Gather(ids, m1) == Gather(ids, m2)
  {
    if ids != [] {
      GatherSameEntries(ids[..|ids| - 1], m1, m2);
    }
  }

  /** In a list without repeats, an element occurs neither before nor after its own position. */
  lemma DistinctSplitsAround(ids: seq<string>, i: int)
    requires Distinct(ids) && 0 <= i < |ids|
    ensures ids == ids[..i] + [ids[i]] + ids[i + 1..]
    ensures ids[i] !in ids[..i] && ids[i] !in ids[i + 1..]
  {
    assert ids == ids[..i] + [ids[i]] + ids[i + 1..];
    forall j | 0 <= j < i ensures ids[..i][j] != ids[i] { assert ids[..i][j] == ids[j]; }
    var b := ids[i + 1..];
    forall j | 0 <= j < |b| ensures b[j] != ids[i] { assert b[j] == ids[i + 1 + j]; }
  }

  /**
   * Taking a pool out of the list removes exactly that pool's block of
   * callbacks from what an emit reaches and keeps the rest in order.
   */
  lemma RemovingPoolDropsItsBlock(ids: seq<string>, lists: map<string, seq<Callback>>, i: int)
    requires Distinct(ids) && 0 <= i < |ids|
    requires forall k :: k in ids ==> k in lists
    ensures Gather(ids, lists)
         == Gather(ids[..i], lists) + lists[ids[i]] + Gather(ids[i + 1..], lists)
    ensures Gather(Without(ids, ids[i]), lists) == Gather(ids[..i], lists) + Gather(ids[i + 1..], lists)
  {
    var a, x, b := ids[..i], ids[i], ids[i + 1..];
    DistinctSplitsAround(ids, i);
    GatherSplit(a + [x], b, lists);
    GatherSplit(a, [x], lists);
    assert Gather([x], lists) == lists[x] by {
      assert [x][..0] == [];
    }
    WithoutSplit(a, x, b);
    GatherSplit(a, b, lists);
  }

  /** Each pool's callbacks, by pool id. */
  function ListsOf(pools: map<string, EventPool>): (r: map<string, seq<Callback>>)
    reads pools.Values
    ensures r.Keys == pools.Keys
  {
    map k | k in pools :: pools[k].Listeners()
  }

  /** Registering a pool under a key sets that key's callbacks and no others. */
  lemma ListsOfUpdate(pools: map<string, EventPool>, key: string, pool: EventPool)
    ensures ListsOf(pools[key := pool]) == ListsOf(pools)[key := pool.Listeners()]
  {
  }

  /** Forgetting a pool forgets that key's callbacks and no others. */
  lemma ListsOfRemove(pools: map<string, EventPool>, key: string)
    ensures ListsOf(pools - {key}) == ListsOf(pools) - {key}
  {
  }

  /** What the pools report depends only on those pools' own state. */
  twostate lemma ListsOfUnchanged(pools: map<string, EventPool>)
    requires unchanged(pools.Values)
    ensures ListsOf(pools) == old(ListsOf(pools))
  {
  }

  /** A pool with no callbacks appended to the list changes nothing an emit reaches. */
  lemma {:induction false} GatherAppendEmpty(ids: seq<string>, lists: map<string, seq<Callback>>, key: string)
    requires forall k :: k in ids ==> k in lists
    requires key !in ids
    ensures Gather(ids + [key], lists[key := []]) == Gather(ids, lists)
  {
    assert (ids + [key])[..|ids|] == ids;
    GatherSameEntries(ids, lists[key := []], lists);
  }

  /**
   * The pool map of an event with its keys in insertion order: each pool
   * is stored under its own id.
   */
  ghost predicate Registry(order: seq<string>, pools: map<string, EventPool>)
  {
    Distinct(order) &&
    (forall k :: k in pools <==> k in order) &&
    (forall k :: k in pools ==> pools[k].id == k)
  }

  /** Deleting a key keeps the registry well formed. */
  lemma RegistryRemove(order: seq<string>, pools: map<string, EventPool>, key: string)
    requires Registry(order, pools)
    ensures Registry(Without(order, key), pools - {key})
  {
  }

  /** Adding a pool under a fresh id keeps the registry well formed. */
  lemma RegistryAdd(order: seq<string>, pools: map<string, EventPool>, pool: EventPool)
    requires Registry(order, pools) && pool.id !in pools
    ensures Registry(order + [pool.id], pools[pool.id := pool])
  {
    forall j | 0 <= j < |order| ensures order[j] != pool.id { assert order[j] in pools; }
  }

  /** `Event<T>`: the pools of one kind of event, keyed by pool id in creation order. */
  class Event {
    /** The keys of `pools` in insertion order. */
    var order: seq<string>
    var pools: map<string, EventPool>

    ghost predicate Valid()
      reads this
    {
      Registry(order, pools)
    }

    constructor ()
      ensures Valid() && order == [] && pools == map[]
    {
      order := [];
      pools := map[];
    }

    /** Every callback that an emit reaches, pool by pool in creation order. */
    function Broadcast(): seq<Callback>
      reads this, pools.Values
      requires Valid()
    {
      Gather(order, ListsOf(pools))
    }

    /** `emit(data)`: every subscriber of every pool, pools in creation order. */
    method Emit() returns (invoked: seq<Callback>)
      requires Valid()
      ensures invoked == Broadcast()
    {
      ghost var lists := ListsOf(pools);
      invoked := [];
      var i := 0;
      while i < |order|
        invariant 0 <= i <= |order|
        invariant invoked == Gather(order[..i], lists)
      {
        var pool := pools[order[i]];
        var reached := pool.Dispatch();
        assert reached == lists[order[i]];
        assert order[..i + 1][..i] == order[..i] && order[..i + 1][i] == order[i];
        invoked := invoked + reached;
        i := i + 1;
      }
      assert order[..i] == order;
    }

    /** `createPool()`: a new empty pool registered under the given id. */
    method CreatePool(poolId: string) returns (pool: EventPool)
      requires Valid()
      modifies this
      ensures Valid() && fresh(pool)
      ensures pool.id == poolId && pool.Valid() && pool.Listeners() == []
      ensures pools == old(pools)[poolId := pool]
      ensures order == if poolId in old(pools) then old(order) else old(order) + [poolId]
      ensures poolId !in old(pools) ==> Broadcast() == old(Broadcast())
    {
      ghost var before := pools;
      ghost var earlier := order;
      ghost var lists := ListsOf(pools);
      label Start:
      pool := new EventPool(poolId);
      if poolId !in pools {
        RegistryAdd(order, pools, pool);
        order := order + [poolId];
        pools := pools[poolId := pool];
        ListsOfUnchanged@Start(before);
        ListsOfUpdate(before, poolId, pool);
        GatherAppendEmpty(earlier, lists, poolId);
      } else {
        pools := pools[poolId := pool];
      }
    }

    /** `pools.delete(id)`: forgets the pool under that id; an unknown id changes nothing. */
    method Forget(poolId: string)
      requires Valid()
      modifies this
      ensures Valid()
      ensures pools == old(pools) - {poolId}
      ensures order == Without(old(order), poolId)
      ensures Broadcast() == old(Gather(Without(order, poolId), ListsOf(pools)))
    {
      ghost var lists := ListsOf(pools);
      ListsOfRemove(pools, poolId);
      RegistryRemove(order, pools, poolId);
      GatherSameEntries(Without(order, poolId), lists - {poolId}, lists);
      label Start:
      pools := pools - {poolId};
      order := Without(order, poolId);
      ListsOfUnchanged@Start(pools);
    }

    /**
     * `removePool(id)`: empties the pool and forgets it; an unknown id
     * changes nothing. What an emit reaches afterwards is what it reached
     * over the other pools.
     */
    method RemovePool(poolId: string)
      requires Valid()
      modifies this, if poolId in pools then {pools[poolId]} else {}
      ensures Valid()
      ensures pools == old(pools) - {poolId}
      ensures order == Without(old(order), poolId)
      ensures poolId in old(pools) ==> old(pools)[poolId].Valid() && old(pools)[poolId].Listeners() == []
      ensures Broadcast() == old(Gather(Without(order, poolId), ListsOf(pools)))
    {
      var rest := Without(order, poolId);
      ghost var lists := ListsOf(pools);
      if poolId in pools {
        var pool := pools[poolId];
        var kept := pools - {poolId};
        ListsOfRemove(pools, poolId);
        assert pool !in kept.Values;
        label Start:
        pool.UnsubscribeAll();
        ListsOfUnchanged@Start(kept);
        ListsOfRemove(pools, poolId);
        GatherSameEntries(rest, ListsOf(pools), lists);
      }
      Forget(poolId);
    }
  }
}
