/**
 * The coordinator: the registry of clients, the assignment of a new client to
 * a pool, the removal of a client that disconnects, and the periodic pass that
 * moves workers from pools above the mean weighted hash rate to pools below it.
 */
module Coordinator {
  import opened Wrappers
  import opened Balance

  /** A client as the coordinator registers it: its identifier and the algorithm it mines. */
  datatype Worker = Worker(id: WorkerId, algorithm: Algorithm)

  /**
   * Workers moved out of one pool into the held workers: every worker's count,
   * attached or held, is kept.
   */
  lemma ReleaseToHeld(before: multiset<WorkerId>, after: multiset<WorkerId>, orig: seq<WorkerId>, cur: seq<WorkerId>,
                      removed: seq<WorkerId>, held: seq<WorkerId>, held': seq<WorkerId>)
    requires after + multiset(orig) == before + multiset(cur)
    requires multiset(cur) + multiset(removed) == multiset(orig)
    requires multiset(held') == multiset(held) + multiset(removed)
    ensures after + multiset(held') == before + multiset(held)
  {
    forall x
      ensures after[x] + multiset(held')[x] == before[x] + multiset(held)[x]
    {
      assert (after + multiset(orig))[x] == (before + multiset(cur))[x];
      assert (multiset(cur) + multiset(removed))[x] == multiset(orig)[x];
      assert multiset(held')[x] == (multiset(held) + multiset(removed))[x];
    }
  }

  /**
   * No worker is counted twice among the attached workers and the held
   * workers, and every one of them has its disconnect handler installed.
   */
  ghost predicate HeldOnce(attached: multiset<WorkerId>, held: seq<WorkerId>, handlers: set<WorkerId>) {
    && (forall id :: attached[id] + multiset(held)[id] <= 1)
    && (forall id :: id in attached ==> id in handlers)
    && (forall id :: id in held ==> id in handlers)
  }

  /** When the attached and held workers together are the same as before, `HeldOnce` still holds. */
  lemma KeepsHolding(before: multiset<WorkerId>, after: multiset<WorkerId>, held: seq<WorkerId>, held': seq<WorkerId>,
                     handlers: set<WorkerId>)
    requires HeldOnce(before, held, handlers)
    requires after + multiset(held') == before + multiset(held)
    ensures HeldOnce(after, held', handlers)
  {
    forall id
      ensures after[id] + multiset(held')[id] == before[id] + multiset(held)[id]
    {
      assert (after + multiset(held'))[id] == (before + multiset(held))[id];
    }
  }

  /** When no worker is attached twice, no pool lists a worker twice. */
  lemma AttachedOnce(ps: seq<Pool>, j: nat, held: seq<WorkerId>)
    requires j < |ps| && forall id :: Attached(ps)[id] + multiset(held)[id] <= 1
    ensures forall x :: multiset(ps[j].workers)[x] <= 1
  {
    AttachedContains(ps, j);
    forall x
      ensures multiset(ps[j].workers)[x] <= 1
    {
      assert multiset(ps[j].workers)[x] <= Attached(ps)[x];
    }
  }

  /**
   * Moving the held worker at `m` into a pool keeps every worker's count,
   * attached or held, keeps `HeldOnce` and keeps the held workers in order.
   */
  lemma MoveToPool(before: multiset<WorkerId>, after: multiset<WorkerId>, held: seq<WorkerId>, m: nat,
                   handlers: set<WorkerId>, rateOf: WorkerId -> nat)
    requires m < |held| && after == before + multiset{held[m]}
    requires HeldOnce(before, held, handlers) && Descending(held, rateOf)
    ensures after + multiset(held[..m] + held[m + 1..]) == before + multiset(held)
    ensures HeldOnce(after, held[..m] + held[m + 1..], handlers) && Descending(held[..m] + held[m + 1..], rateOf)
  {
    assert held == held[..m] + [held[m]] + held[m + 1..];
    DescendingErase(held, m, rateOf);
    KeepsHolding(before, after, held, held[..m] + held[m + 1..], handlers);
  }

  class Proxy {
    var pools: seq<Pool>
    var clients: map<WorkerId, Worker>
    /** The clients whose disconnect handler is installed. */
    var handlers: set<WorkerId>

    /**
     * The coordinator's state while some workers are held out of every pool:
     * no worker is attached twice or both attached and held, every attached or
     * held worker has its disconnect handler, and every such worker is registered.
     */
    ghost predicate Holding(held: seq<WorkerId>)
      reads this
    {
      HeldOnce(Attached(pools), held, handlers) && handlers <= clients.Keys
    }

    /** Each worker is attached to at most one pool, at most once, and can be detached on disconnect. */
    ghost predicate Valid()
      reads this
    {
      Holding([])
    }

    constructor (configured: seq<Pool>)
      requires Attached(configured) == multiset{}
      ensures Valid()
      ensures pools == configured && clients == map[] && handlers == {}
    {
      pools, clients, handlers := configured, map[], {};
    }

    /**
     * Offers a worker to a pool. The pool may refuse, for reasons this model
     * does not see; when it accepts, the worker is appended to its workers.
     */
    method AddWorker(i: nat, id: WorkerId) returns (ok: bool)
      requires i < |pools|
      modifies this`pools
      ensures ok ==> pools == old(pools)[i := old(pools)[i].(workers := old(pools)[i].workers + [id])]
      ensures ok ==> Attached(pools) == old(Attached(pools)) + multiset{id}
      ensures !ok ==> pools == old(pools)
    {
      ok := *;
      if ok {
        var p := pools[i].(workers := pools[i].workers + [id]);
        AttachedReplace(pools, i, p);
        assert multiset(p.workers) == multiset(pools[i].workers) + multiset{id};
        forall x
          ensures Attached(pools[i := p])[x] == (Attached(pools) + multiset{id})[x]
        {
        }
        assert Attached(pools[i := p]) == Attached(pools) + multiset{id};
        pools := pools[i := p];
      }
    }

    /** Detaches a worker from a pool; reports whether it had been attached there. */
    method RemoveWorker(i: nat, id: WorkerId) returns (ok: bool)
      requires i < |pools|
      modifies this`pools
      ensures ok <==> id in old(pools)[i].workers
      ensures pools == old(pools)[i := old(pools)[i].(workers := Without(old(pools)[i].workers, id))]
      ensures forall x :: Attached(pools)[x] + multiset(old(pools)[i].workers)[x] == old(Attached(pools))[x] + multiset(pools[i].workers)[x]
    {
      ok := id in pools[i].workers;
      AttachedReplace(pools, i, pools[i].(workers := Without(pools[i].workers, id)));
      pools := pools[i := pools[i].(workers := Without(pools[i].workers, id))];
    }

    /**
     * A new client: it is registered whether or not any pool takes it. The pools
     * are put in load order (`sorted`, a reordering of the pools) and the client
     * is offered, in that order, to the pools mining its algorithm, and attached
     * to the first that accepts it, whose position is returned; only then is its
     * disconnect handler installed.
     */
    method HandleNewClient(client: Option<Worker>, sorted: seq<Pool>) returns (placed: Option<nat>)
      requires Valid()
      requires client.Some? ==> client.value.id !in Attached(pools) && multiset(sorted) == multiset(pools)
      modifies this`pools, this`clients, this`handlers
      ensures Valid()
      ensures client.None? ==> pools == old(pools) && clients == old(clients) && handlers == old(handlers) && placed == None
      ensures client.Some? ==> clients == old(clients)[client.value.id := client.value]
      ensures client.Some? && placed.None? ==> pools == sorted && handlers == old(handlers)
      ensures placed.Some? ==>
        && client.Some? && placed.value < |sorted|
        && sorted[placed.value].algorithm == client.value.algorithm
        && pools == sorted[placed.value := sorted[placed.value].(workers := sorted[placed.value].workers + [client.value.id])]
        && handlers == old(handlers) + {client.value.id}
      ensures client.Some? ==>
        Attached(pools) == old(Attached(pools)) + (if placed.Some? then multiset{client.value.id} else multiset{})
    {
      placed := None;
      if client.None? {
        return;
      }
      var c := client.value;
      clients := clients[c.id := c];
      AttachedPermutation(pools, sorted);
      pools := sorted;
      var k := 0;
      while k < |pools|
        invariant 0 <= k <= |pools|
        invariant pools == sorted && placed == None && handlers == old(handlers)
        invariant clients == old(clients)[c.id := c]
        decreases |pools| - k
      {
        if pools[k].algorithm == c.algorithm {
          var ok := AddWorker(k, c.id);
          if ok {
            handlers := handlers + {c.id};
            placed := Some(k);
            break;
          }
        }
        k := k + 1;
      }
      forall id | id in Attached(pools)
        ensures id in handlers
      {
      }
    }

    /** Detaches a worker from every pool. */
    method DetachEverywhere(id: WorkerId)
      modifies this`pools
      ensures pools == DetachAll(old(pools), id)
      ensures Attached(pools) == old(Attached(pools))[id := 0]
    {
      var k := 0;
      while k < |pools|
        invariant 0 <= k <= |pools| == |old(pools)|
        invariant forall j :: 0 <= j < k ==> pools[j] == old(pools)[j].(workers := Without(old(pools)[j].workers, id))
        invariant forall j :: k <= j < |pools| ==> pools[j] == old(pools)[j]
        decreases |pools| - k
      {
        var _ := RemoveWorker(k, id);
        k := k + 1;
      }
      assert pools == DetachAll(old(pools), id);
      AttachedDetachAll(old(pools), id);
    }

    /**
     * A client disconnects. If its handler is installed, it is detached from
     * every pool and dropped from the registry; a client no pool ever accepted
     * has no handler, and nothing happens.
     */
    method HandleDisconnect(id: WorkerId)
      requires Valid()
      modifies this`pools, this`clients, this`handlers
      ensures Valid()
      ensures id !in old(handlers) ==> pools == old(pools) && clients == old(clients) && handlers == old(handlers)
      ensures id in old(handlers) ==>
        && |pools| == |old(pools)|
        && pools == DetachAll(old(pools), id)
        && Attached(pools) == old(Attached(pools))[id := 0]
        && clients == old(clients) - {id} && handlers == old(handlers) - {id}
    {
      if id in handlers {
        DetachEverywhere(id);
        clients := clients - {id};
        handlers := handlers - {id};
        assert forall x :: Attached(pools)[x] <= old(Attached(pools))[x];
      }
    }

    // ---- the rebalance pass ----

    /**
     * The inspection: every pool's weighted rate stored in the rate index (a
     * later pool replacing an earlier one of the same rate), and the mean of the
     * weighted rates of all the pools.
     */
    method Inspect() returns (index: RateIndex, mean: nat)
      requires |pools| > 0
      ensures index == IndexOf(pools) && mean == Mean(pools)
    {
      var ps := pools;
      index := [];
      var total: nat := 0;
      var k := 0;
      while k < |ps|
        invariant 0 <= k <= |ps|
        invariant index == IndexOf(ps[..k]) && total == SumWeighted(ps[..k])
        decreases |ps| - k
      {
        InspectStep(ps, k, index, total);
        var weightedRate := WeightedRate(ps[k]);
        total := total + weightedRate;
        index := Put(index, weightedRate, k);
        k := k + 1;
      }
      assert ps[..k] == ps;
      mean := MeanOf(total, |ps|);
    }

    /**
     * Sheds one overloaded pool's excess: its workers are walked from the
     * highest hash rate down, and each with a positive rate is detached, its
     * rate subtracted from the excess and the worker held in hash-rate order,
     * until the excess is no longer positive.
     */
    method ShedExcess(i: nat, excess: int, rateOf: WorkerId -> nat, held: seq<WorkerId>) returns (held': seq<WorkerId>)
      requires i < |pools| && Holding(held) && Descending(held, rateOf)
      modifies this`pools
      ensures Holding(held') && Descending(held', rateOf)
      ensures |pools| == |old(pools)| && SameConfig(pools[i], old(pools)[i])
      ensures forall j :: 0 <= j < |pools| && j != i ==> pools[j] == old(pools)[j]
      ensures var shed := Shed(SortedByRate(old(pools)[i].workers, rateOf), excess, rateOf);
        && multiset(pools[i].workers) + multiset(shed) == multiset(old(pools)[i].workers)
        && multiset(held') == multiset(held) + multiset(shed)
      ensures Attached(pools) + multiset(held') == old(Attached(pools)) + multiset(held)
    {
      ghost var orig := pools[i].workers;
      AttachedOnce(pools, i, held);
      var sorted := SortedByRate(pools[i].workers, rateOf);
      var ws;
      ghost var removed;
      ws, held', removed := ShedWalk(pools[i].workers, sorted, excess, rateOf, held);
      ShedCounts(orig, sorted, excess, rateOf, held);
      pools := pools[i := pools[i].(workers := ws)];
      AttachedUpdate(old(pools), i, pools[i]);
      ReleaseToHeld(old(Attached(pools)), Attached(pools), orig, ws, removed, held, held');
      KeepsHolding(old(Attached(pools)), Attached(pools), held, held', handlers);
    }

    /** Visits the worker at position `k` of the walk; `stop` tells that the walk has shed everything. */
    method ShedWalkVisit(ws: seq<WorkerId>, held: seq<WorkerId>, sorted: seq<WorkerId>, excess: int, k: nat,
                         remaining: int, ghost removed: seq<WorkerId>, cur: seq<WorkerId>, curHeld: seq<WorkerId>,
                         rateOf: WorkerId -> nat)
      returns (cur': seq<WorkerId>, curHeld': seq<WorkerId>, remaining': int, ghost removed': seq<WorkerId>, stop: bool)
      requires ShedWalking(ws, held, sorted, excess, k, remaining, removed, cur, curHeld, rateOf) && k < |sorted|
      ensures stop ==> removed' == Shed(sorted, excess, rateOf)
      ensures stop ==> cur' == RemoveAll(ws, removed') && curHeld' == InsertAll(held, removed', rateOf)
      ensures !stop ==> ShedWalking(ws, held, sorted, excess, k + 1, remaining', removed', cur', curHeld', rateOf)
    {
      var w := sorted[k];
      if rateOf(w) > 0 {
        ShedWalkTake(ws, held, sorted, excess, k, remaining, removed, cur, curHeld, rateOf);
        cur' := Without(cur, w);
        curHeld' := InsertByRate(curHeld, w, rateOf);
        remaining' := remaining - rateOf(w);
        removed' := removed + [w];
        stop := remaining' <= 0;
      } else {
        ShedWalkSkip(ws, held, sorted, excess, k, remaining, removed, cur, curHeld, rateOf);
        cur', curHeld', remaining', removed', stop := cur, curHeld, remaining, removed, false;
      }
    }

    /**
     * The walk of one overloaded pool's workers, in the order given: each with
     * a positive hash rate is removed from the pool's list, its rate
     * subtracted from the excess and the worker held in hash-rate order, until
     * the excess is no longer positive. The removed workers are exactly what
     * the pool sheds.
     */
    method ShedWalk(ws: seq<WorkerId>, sorted: seq<WorkerId>, excess: int, rateOf: WorkerId -> nat, held: seq<WorkerId>)
      returns (ws': seq<WorkerId>, held': seq<WorkerId>, ghost removed: seq<WorkerId>)
      ensures removed == Shed(sorted, excess, rateOf)
      ensures ws' == RemoveAll(ws, removed) && held' == InsertAll(held, removed, rateOf)
    {
      removed := [];
      ws' := ws;
      var remaining := excess;
      var k := 0;
      held' := held;
      ShedFromEnds(sorted, excess, remaining, removed, rateOf);
      while k < |sorted|
        invariant ShedWalking(ws, held, sorted, excess, k, remaining, removed, ws', held', rateOf)
        decreases |sorted| - k
      {
        var stop;
        ws', held', remaining, removed, stop := ShedWalkVisit(ws, held, sorted, excess, k, remaining, removed, ws', held', rateOf);
        if stop {
          return;
        }
        k := k + 1;
      }
      ShedFromEnds(sorted, excess, remaining, removed, rateOf);
    }

    /**
     * The state of the shedding phase once the pools at the positions `done`
     * have been visited: the pools are in the shedding state, and every worker
     * given up is held, highest hash rate first.
     */
    ghost predicate Shedding(orig: seq<Pool>, done: set<nat>, mean: nat, rateOf: WorkerId -> nat, held: seq<WorkerId>)
      reads this
    {
      Holding(held) && Descending(held, rateOf) && ShedProgress(orig, pools, done, mean, rateOf, held)
    }

    /** Visits one pool of the rate index: if it is above the mean, it sheds its excess. */
    method ShedPool(i: nat, rate: nat, mean: nat, rateOf: WorkerId -> nat, held: seq<WorkerId>,
                    ghost orig: seq<Pool>, ghost done: set<nat>) returns (held': seq<WorkerId>)
      requires Shedding(orig, done, mean, rateOf, held)
      requires i < |pools| && i !in done && rate == WeightedRate(orig[i])
      modifies this`pools
      ensures Shedding(orig, done + {i}, mean, rateOf, held')
    {
      ghost var prev := pools;
      held' := held;
      if rate > mean {
        held' := ShedExcess(i, Excess(pools[i], mean), rateOf, held);
      }
      ShedVisit(orig, prev, pools, done, i, mean, rateOf, held, held');
    }

    /**
     * The shedding phase: every pool of the rate index whose weighted rate is
     * above the mean sheds its excess; the shed workers are held, highest hash
     * rate first.
     */
    method ShedOverloaded(index: RateIndex, mean: nat, rateOf: WorkerId -> nat) returns (held: seq<WorkerId>)
      requires Valid() && index == IndexOf(pools)
      modifies this`pools
      ensures Shedding(old(pools), Positions(index), mean, rateOf, held)
    {
      held := [];
      ghost var done: set<nat> := {};
      var k := 0;
      while k < |index|
        invariant 0 <= k <= |index| && done == Positions(index[..k])
        invariant Shedding(old(pools), done, mean, rateOf, held)
        decreases |index| - k
      {
        IndexOfSound(old(pools), index[k]);
        FreshPosition(old(pools), k);
        held := ShedPool(index[k].1, index[k].0, mean, rateOf, held, old(pools), done);
        done := done + {index[k].1};
        k := k + 1;
      }
      assert index[..k] == index;
    }

    /**
     * Offers the held worker at position `m` to a pool; if the pool accepts it,
     * it is attached there and no longer held.
     */
    method AttachHeld(i: nat, held: seq<WorkerId>, m: nat, rateOf: WorkerId -> nat) returns (ok: bool, held': seq<WorkerId>)
      requires i < |pools| && m < |held| && Holding(held) && Descending(held, rateOf)
      modifies this`pools
      ensures !ok ==> pools == old(pools) && held' == held
      ensures ok ==> pools == old(pools)[i := old(pools)[i].(workers := old(pools)[i].workers + [held[m]])]
      ensures ok ==> held' == held[..m] + held[m + 1..]
      ensures Holding(held') && Descending(held', rateOf)
      ensures Attached(pools) + multiset(held') == old(Attached(pools)) + multiset(held)
    {
      ghost var before := Attached(pools);
      ok := AddWorker(i, held[m]);
      held' := held;
      if ok {
        MoveToPool(before, Attached(pools), held, m, handlers, rateOf);
        held' := held[..m] + held[m + 1..];
      }
    }

    /**
     * What refilling pool `i` keeps while walking the held workers: the
     * progress of the walk (see `RefillProgress`) and every worker attached or
     * held at most once, with a handler.
     */
    ghost predicate Refilling(orig: seq<Pool>, origHeld: seq<WorkerId>, i: nat, deficit: nat, remaining: int,
                              held: seq<WorkerId>, added: seq<WorkerId>, rateOf: WorkerId -> nat)
      reads this
    {
      RefillProgress(orig, origHeld, pools, i, deficit, remaining, held, added, rateOf) && Holding(held)
    }

    /**
     * One step of the refill walk: the held worker at `m` is offered to pool
     * `i` when its rate is below the remaining deficit; when the pool accepts
     * it, it leaves the held workers and the deficit shrinks by its rate.
     */
    method RefillStep(i: nat, m: nat, deficit: nat, remaining: int, rateOf: WorkerId -> nat,
                      held: seq<WorkerId>, added: seq<WorkerId>, ghost orig: seq<Pool>, ghost origHeld: seq<WorkerId>)
      returns (ok: bool, remaining': int, held': seq<WorkerId>, added': seq<WorkerId>)
      requires Refilling(orig, origHeld, i, deficit, remaining, held, added, rateOf) && m < |held|
      modifies this`pools
      ensures Refilling(orig, origHeld, i, deficit, remaining', held', added', rateOf)
      ensures ok ==> |held'| == |held| - 1
      ensures !ok ==> held' == held && added' == added
    {
      var w := held[m];
      ok, remaining', held', added' := false, remaining, held, added;
      if rateOf(w) < remaining {
        ghost var before := pools;
        ok, held' := AttachHeld(i, held, m, rateOf);
        if ok {
          RefillProgressStep(orig, origHeld, before, pools, i, deficit, remaining, held, added, m, rateOf);
          added' := added + [w];
          remaining' := remaining - rateOf(w);
        }
      }
    }

    /**
     * Refills one pool below the mean: the held workers are walked from the
     * highest hash rate down, and each whose rate is below the remaining
     * deficit is offered to the pool; when the pool accepts it, the deficit
     * shrinks by its rate.
     */
    method RefillPool(i: nat, deficit: nat, rateOf: WorkerId -> nat, held: seq<WorkerId>)
      returns (held': seq<WorkerId>, added: seq<WorkerId>)
      requires i < |pools| && 0 < deficit && Holding(held) && Descending(held, rateOf)
      modifies this`pools
      ensures pools == old(pools)[i := old(pools)[i].(workers := old(pools)[i].workers + added)]
      ensures multiset(held') + multiset(added) == multiset(held)
      ensures RateSum(added, rateOf) < deficit
      ensures Holding(held') && Descending(held', rateOf)
      ensures Attached(pools) + multiset(held') == old(Attached(pools)) + multiset(held)
    {
      held', added := held, [];
      assert old(pools)[i].workers + [] == old(pools)[i].workers;
      var remaining: int := deficit;
      var m := 0;
      while m < |held'|
        invariant m <= |held'|
        invariant Refilling(old(pools), held, i, deficit, remaining, held', added, rateOf)
        decreases |held'| - m
      {
        var ok;
        ok, remaining, held', added := RefillStep(i, m, deficit, remaining, rateOf, held', added, old(pools), held);
        if !ok {
          m := m + 1;
        }
      }
    }

    /**
     * The refill phase: while workers are held, the pools of the rate index
     * below the mean are visited from the lowest weighted rate up, and each is
     * refilled up to its deficit.
     */
    method RefillUnderloaded(index: RateIndex, mean: nat, rateOf: WorkerId -> nat, held: seq<WorkerId>) returns (held': seq<WorkerId>)
      requires index == IndexOf(pools) && Holding(held) && Descending(held, rateOf)
      modifies this`pools
      ensures RefillState(old(pools), pools, Positions(index), mean, rateOf)
      ensures Holding(held') && Descending(held', rateOf)
      ensures Attached(pools) + multiset(held') == old(Attached(pools)) + multiset(held)
      ensures held == [] ==> pools == old(pools) && held' == []
    {
      held' := held;
      ghost var done: set<nat> := {};
      RefillStateStart(pools, mean, rateOf);
      var k := 0;
      while held' != [] && k < |index| && index[k].0 < mean
        invariant 0 <= k <= |index| && done == Positions(index[..k])
        invariant RefillState(old(pools), pools, done, mean, rateOf)
        invariant Holding(held') && Descending(held', rateOf)
        invariant Attached(pools) + multiset(held') == old(Attached(pools)) + multiset(held)
        invariant held == [] ==> pools == old(pools) && held' == []
        decreases |index| - k
      {
        var rate, i := index[k].0, index[k].1;
        IndexOfSound(old(pools), index[k]);
        FreshPosition(old(pools), k);
        ghost var prev := pools;
        var added;
        held', added := RefillPool(i, mean - rate, rateOf, held');
        RefillStateStep(old(pools), prev, done, i, added, mean, rateOf);
        done := done + {i};
        k := k + 1;
      }
      PositionsOfPrefix(index, k);
      RefillStateWiden(old(pools), pools, done, Positions(index), mean, rateOf);
    }

    /**
     * Offers the held worker at `m` to the pools of the rate index, lowest
     * weighted rate first, and attaches it to the first that accepts it, whose
     * position is returned. `tried` counts the index entries before that one,
     * each of which was offered the worker and refused it; when no pool
     * accepts, every entry was offered.
     */
    method OfferToPools(index: RateIndex, m: nat, rateOf: WorkerId -> nat, held: seq<WorkerId>)
      returns (at: Option<nat>, held': seq<WorkerId>, ghost tried: nat)
      requires Holding(held) && Descending(held, rateOf) && m < |held|
      requires forall j :: j in Positions(index) ==> j < |pools|
      modifies this`pools
      ensures at.None? ==> tried == |index|
      ensures at.Some? ==> tried < |index| && at.value == index[tried].1
      ensures at.None? ==> pools == old(pools) && held' == held
      ensures at.Some? ==>
        && at.value in Positions(index)
        && pools == old(pools)[at.value := old(pools)[at.value].(workers := old(pools)[at.value].workers + [held[m]])]
        && held' == held[..m] + held[m + 1..]
      ensures Holding(held') && Descending(held', rateOf)
      ensures Attached(pools) + multiset(held') == old(Attached(pools)) + multiset(held)
    {
      at, held' := None, held;
      var k := 0;
      while k < |index|
        invariant 0 <= k <= |index|
        invariant pools == old(pools) && held' == held
        decreases |index| - k
      {
        var i := index[k].1;
        assert i in Positions(index);
        var ok;
        ok, held' := AttachHeld(i, held, m, rateOf);
        if ok {
          at, tried := Some(i), k;
          return;
        }
        k := k + 1;
      }
      tried := k;
    }

    /**
     * The last phase: each worker still held is offered to the pools of the
     * rate index, lowest weighted rate first, and attached to the first that
     * accepts it. The workers no pool accepts are returned; they stay
     * registered, with their handlers, attached nowhere.
     */
    method PlaceLeftovers(index: RateIndex, rateOf: WorkerId -> nat, held: seq<WorkerId>) returns (unplaced: seq<WorkerId>)
      requires Holding(held) && Descending(held, rateOf)
      requires forall j :: j in Positions(index) ==> j < |pools|
      modifies this`pools
      ensures Grown(old(pools), pools, Positions(index))
      ensures Holding(unplaced) && multiset(unplaced) <= multiset(held)
      ensures Attached(pools) + multiset(unplaced) == old(Attached(pools)) + multiset(held)
      ensures held == [] ==> pools == old(pools) && unplaced == []
    {
      unplaced := held;
      var m := 0;
      while m < |unplaced|
        invariant m <= |unplaced|
        invariant Grown(old(pools), pools, Positions(index))
        invariant Holding(unplaced) && Descending(unplaced, rateOf) && multiset(unplaced) <= multiset(held)
        invariant Attached(pools) + multiset(unplaced) == old(Attached(pools)) + multiset(held)
        invariant held == [] ==> pools == old(pools) && unplaced == []
        decreases |unplaced| - m
      {
        ghost var prev, before := pools, unplaced;
        var at; ghost var tried;
        at, unplaced, tried := OfferToPools(index, m, rateOf, unplaced);
        if at.Some? {
          GrownAppend(old(pools), prev, at.value, [before[m]], Positions(index));
          assert multiset(before) == multiset(unplaced) + multiset{before[m]} by {
            SplitAt(before, m);
          }
        } else {
          m := m + 1;
        }
      }
    }

    /**
     * The shedding and refill phases: the pools above the mean shed their
     * excess (reaching `shed`), then the shed workers refill the pools below
     * the mean. The workers still held are returned.
     */
    method Redistribute(index: RateIndex, mean: nat, rateOf: WorkerId -> nat) returns (held: seq<WorkerId>, ghost shed: seq<Pool>)
      requires Valid() && index == IndexOf(pools)
      modifies this`pools
      ensures ShedState(old(pools), shed, Positions(index), mean, rateOf)
      ensures RefillState(shed, pools, Positions(index), mean, rateOf)
      ensures Holding(held) && Descending(held, rateOf) && Attached(pools) + multiset(held) == old(Attached(pools))
      ensures |old(pools)| > 0 && mean == Mean(old(pools)) && Balanced(old(pools)) ==>
        pools == old(pools) && held == []
    {
      var shedHeld := ShedOverloaded(index, mean, rateOf);
      shed := pools;
      ShedOutcome(old(pools), shed, Positions(index), mean, rateOf, shedHeld);
      held := RefillUnderloaded(index, mean, rateOf, shedHeld);
    }

    /**
     * The periodic rebalance pass. With at most one pool it does nothing.
     * Otherwise the pools are inspected, every pool above the mean weighted
     * rate sheds its excess, the shed workers refill the pools below the
     * mean, lowest first, and whatever is still held is offered to the pools
     * in index order. The workers no pool accepted are returned.
     */
    method BalancePoolLoads(rateOf: WorkerId -> nat) returns (unplaced: seq<WorkerId>)
      requires Valid()
      modifies this`pools
      ensures Holding(unplaced)
      ensures Attached(pools) + multiset(unplaced) == old(Attached(pools))
      ensures |old(pools)| <= 1 ==> pools == old(pools) && unplaced == []
      ensures |old(pools)| > 1 ==> PassBounds(old(pools), pools, Positions(IndexOf(old(pools))), Mean(old(pools)), rateOf)
      ensures Balanced(old(pools)) ==> pools == old(pools) && unplaced == []
    {
      if |pools| <= 1 {
        return [];
      }
      ghost var orig := pools;
      var index, mean := Inspect();
      ghost var shed;
      var held;
      held, shed := Redistribute(index, mean, rateOf);
      ghost var refilled := pools;
      PositionsInRange(orig);
      unplaced := PlaceLeftovers(index, rateOf, held);
      PassOutcome(orig, shed, refilled, pools, Positions(index), mean, rateOf);
    }
  }
}
