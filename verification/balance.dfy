/**
 * The values the coordinator's rebalance pass works on: pools with their
 * weights, hash-rate readings and attached workers; the pools keyed by
 * weighted hash rate; workers ordered by hash rate; and the plan for shedding
 * an overloaded pool's excess.
 */
module Balance {

  /** A worker is known by its session identifier. */
  type WorkerId = string

  type Algorithm = nat

  /** A pool's configured weight; weighted rates divide by it. */
  type Weight = w: nat | 1 <= w witness 1

  /**
   * A pool as the coordinator sees it: its configuration, the long-window
   * average of its hash rate at the time it is read, and the workers attached
   * to it in attachment order.
   */
  datatype Pool = Pool(descriptor: string, algorithm: Algorithm, weight: Weight, hashRate: nat, workers: seq<WorkerId>)

  /** The same pool configuration and hash-rate reading, whatever the workers. */
  predicate SameConfig(p: Pool, q: Pool) {
    p.(workers := []) == q.(workers := [])
  }

  /** A pool's weighted hash rate: its long-window average divided by its weight, rounded down. */
  function WeightedRate(p: Pool): nat {
    p.hashRate / p.weight
  }

  /** The sum of the weighted rates of all pools. */
  function SumWeighted(ps: seq<Pool>): nat {
    if ps == [] then 0 else SumWeighted(ps[..|ps| - 1]) + WeightedRate(ps[|ps| - 1])
  }

  /** Summing one pool further adds that pool's weighted rate. */
  lemma SumWeightedStep(ps: seq<Pool>, k: nat)
    requires k < |ps|
    ensures SumWeighted(ps[..k + 1]) == SumWeighted(ps[..k]) + WeightedRate(ps[k])
  {
    assert ps[..k + 1][..k] == ps[..k];
  }

  /** A total shared out over a count, rounded down. */
  function MeanOf(total: nat, count: nat): nat
    requires count > 0
  {
    total / count
  }

  /** The mean weighted rate over every pool, rounded down. */
  function Mean(ps: seq<Pool>): nat
    requires |ps| > 0
  {
    MeanOf(SumWeighted(ps), |ps|)
  }

  /** The mean is the largest number whose multiple by the pool count does not exceed the sum. */
  lemma MeanBounds(ps: seq<Pool>)
    requires |ps| > 0
    ensures Mean(ps) * |ps| <= SumWeighted(ps) < (Mean(ps) + 1) * |ps|
  {
  }

  lemma {:induction false} SumOfEqualRates(ps: seq<Pool>, r: nat)
    requires forall j :: 0 <= j < |ps| ==> WeightedRate(ps[j]) == r
    ensures SumWeighted(ps) == r * |ps|
  {
    if ps != [] {
      SumOfEqualRates(ps[..|ps| - 1], r);
    }
  }

  /** Every pool has the same weighted rate. */
  predicate Balanced(ps: seq<Pool>) {
    forall j :: 0 <= j < |ps| ==> WeightedRate(ps[j]) == WeightedRate(ps[0])
  }

  /** When every pool has the same weighted rate, that rate is the mean. */
  lemma MeanOfBalanced(ps: seq<Pool>)
    requires |ps| > 0 && Balanced(ps)
    ensures Mean(ps) == WeightedRate(ps[0])
  {
    SumOfEqualRates(ps, WeightedRate(ps[0]));
    MeanOfMultiple(WeightedRate(ps[0]), |ps|);
  }

  /** Sharing out `n` times `r` over `n` gives `r`. */
  lemma MeanOfMultiple(r: nat, n: nat)
    requires n > 0
    ensures MeanOf(r * n, n) == r
  {
    var m := MeanOf(r * n, n);
    assert m * n <= r * n < (m + 1) * n;
    if m < r {
      MulMonotonic(m + 1, r, n);
    } else if m > r {
      MulMonotonic(r + 1, m, n);
    }
  }

  lemma MulMonotonic(a: nat, b: nat, n: nat)
    requires a <= b
    ensures a * n <= b * n
  {
    assert b * n == a * n + (b - a) * n;
  }

  // ---- pools keyed by weighted rate ----

  /**
   * The pools keyed by weighted rate, as `(rate, position)` pairs in ascending
   * order of rate and with one pool per rate.
   */
  type RateIndex = seq<(nat, nat)>

  predicate Ascending(ix: RateIndex) {
    forall a, b :: 0 <= a < b < |ix| ==> ix[a].0 < ix[b].0
  }

  /** Stores a pool under a rate, replacing the pool stored under that rate before. */
  function Put(ix: RateIndex, rate: nat, p: nat): (r: RateIndex)
    requires Ascending(ix)
    ensures Ascending(r)
    ensures forall e :: e in r <==> (e in ix && e.0 != rate) || e == (rate, p)
  {
    if ix == [] then [(rate, p)]
    else if ix[0].0 < rate then [ix[0]] + Put(ix[1..], rate, p)
    else if ix[0].0 == rate then [(rate, p)] + ix[1..]
    else [(rate, p)] + ix
  }

  /** The weighted rates of the pools, in pool order. */
  function Rates(ps: seq<Pool>): (rs: seq<nat>)
    ensures |rs| == |ps| && forall j :: 0 <= j < |ps| ==> rs[j] == WeightedRate(ps[j])
  {
    if ps == [] then [] else Rates(ps[..|ps| - 1]) + [WeightedRate(ps[|ps| - 1])]
  }

  /** The index built by storing each position under its rate, in order. */
  function IndexOfRates(rs: seq<nat>): (ix: RateIndex)
    ensures Ascending(ix)
  {
    if rs == [] then [] else Put(IndexOfRates(rs[..|rs| - 1]), rs[|rs| - 1], |rs| - 1)
  }

  /** The index built by storing every pool under its weighted rate, in pool order. */
  function IndexOf(ps: seq<Pool>): (ix: RateIndex)
    ensures Ascending(ix)
  {
    IndexOfRates(Rates(ps))
  }

  /** Building the index one pool further stores that pool under its weighted rate. */
  lemma IndexOfStep(ps: seq<Pool>, k: nat)
    requires k < |ps|
    ensures IndexOf(ps[..k + 1]) == Put(IndexOf(ps[..k]), WeightedRate(ps[k]), k)
  {
    assert ps[..k + 1][..k] == ps[..k];
    var rs := Rates(ps[..k + 1]);
    assert rs[..k] == Rates(ps[..k]);
  }

  /** Inspecting one pool further: its rate is stored in the index and added to the sum. */
  lemma InspectStep(ps: seq<Pool>, k: nat, index: RateIndex, total: nat)
    requires k < |ps| && index == IndexOf(ps[..k]) && total == SumWeighted(ps[..k])
    ensures Put(index, WeightedRate(ps[k]), k) == IndexOf(ps[..k + 1])
    ensures total + WeightedRate(ps[k]) == SumWeighted(ps[..k + 1])
  {
    IndexOfStep(ps, k);
    SumWeightedStep(ps, k);
  }

  /** A later pool has the same weighted rate, so it replaces this one in the index. */
  predicate Shadowed(ps: seq<Pool>, j: nat) {
    exists k :: j < k < |ps| && WeightedRate(ps[k]) == WeightedRate(ps[j])
  }

  /** No later position has the same rate as position `j`. */
  predicate Last(rs: seq<nat>, j: nat) {
    forall k :: j < k < |rs| ==> rs[k] != rs[j]
  }

  /** Position `j` before the last one is last of its rate exactly when it is so without the last position and the last position has another rate. */
  lemma LastSplit(rs: seq<nat>, j: nat)
    requires j + 1 < |rs|
    ensures Last(rs, j) <==> Last(rs[..|rs| - 1], j) && rs[|rs| - 1] != rs[j]
  {
    var init := rs[..|rs| - 1];
    assert forall k :: 0 <= k < |init| ==> init[k] == rs[k];
  }

  /** An entry of the index is a position under its own rate, with no later position of that rate. */
  lemma {:induction false} IndexOfRatesSound(rs: seq<nat>, e: (nat, nat))
    requires e in IndexOfRates(rs)
    ensures e.1 < |rs| && e.0 == rs[e.1] && Last(rs, e.1)
  {
    var n := |rs|;
    var init := rs[..n - 1];
    if e != (rs[n - 1], n - 1) {
      IndexOfRatesSound(init, e);
      LastSplit(rs, e.1);
    }
  }

  /** A position with no later position of the same rate is in the index, under its rate. */
  lemma {:induction false} IndexOfRatesComplete(rs: seq<nat>, j: nat)
    requires j < |rs| && Last(rs, j)
    ensures (rs[j], j) in IndexOfRates(rs)
  {
    var n := |rs|;
    if j < n - 1 {
      LastSplit(rs, j);
      IndexOfRatesComplete(rs[..n - 1], j);
    }
  }

  /** A pool in the index is stored under its own weighted rate, and no later pool shadows it. */
  lemma IndexOfSound(ps: seq<Pool>, e: (nat, nat))
    requires e in IndexOf(ps)
    ensures e.1 < |ps| && e.0 == WeightedRate(ps[e.1]) && !Shadowed(ps, e.1)
  {
    var rs := Rates(ps);
    IndexOfRatesSound(rs, e);
    assert forall k :: e.1 < k < |ps| ==> rs[k] != rs[e.1];
  }

  /** A pool that no later pool shadows is in the index. */
  lemma IndexOfComplete(ps: seq<Pool>, j: nat)
    requires j < |ps| && !Shadowed(ps, j)
    ensures (WeightedRate(ps[j]), j) in IndexOf(ps)
  {
    var rs := Rates(ps);
    assert Last(rs, j) by {
      forall k | j < k < |rs|
        ensures rs[k] != rs[j]
      {
        assert WeightedRate(ps[k]) != WeightedRate(ps[j]);
      }
    }
    IndexOfRatesComplete(rs, j);
  }

  /** The index depends only on the pools' weighted rates, not on their workers. */
  lemma IndexOfSameConfig(ps: seq<Pool>, qs: seq<Pool>)
    requires |ps| == |qs| && forall j :: 0 <= j < |ps| ==> SameConfig(ps[j], qs[j])
    ensures IndexOf(ps) == IndexOf(qs)
  {
    forall j | 0 <= j < |ps|
      ensures Rates(ps)[j] == Rates(qs)[j]
    {
      SameConfigRate(ps[j], qs[j]);
    }
    assert Rates(ps) == Rates(qs);
  }

  /** No pool occurs twice in an index of pools. */
  lemma IndexPositionsDistinct(ps: seq<Pool>)
    ensures forall a, b :: 0 <= a < b < |IndexOf(ps)| ==> IndexOf(ps)[a].1 != IndexOf(ps)[b].1
  {
    var ix := IndexOf(ps);
    forall a, b | 0 <= a < b < |ix|
      ensures ix[a].1 != ix[b].1
    {
      IndexOfSound(ps, ix[a]);
      IndexOfSound(ps, ix[b]);
    }
  }

  /** The pool positions an index holds. */
  function Positions(ix: RateIndex): set<nat> {
    set e | e in ix :: e.1
  }

  /** A pool held by the index is within range, stored under its own rate, and not shadowed. */
  lemma PositionsSound(ps: seq<Pool>, j: nat)
    requires j in Positions(IndexOf(ps))
    ensures j < |ps| && !Shadowed(ps, j) && (WeightedRate(ps[j]), j) in IndexOf(ps)
  {
    var e :| e in IndexOf(ps) && e.1 == j;
    IndexOfSound(ps, e);
  }

  /** Walking an index in order, each pool comes up once. */
  lemma FreshPosition(ps: seq<Pool>, k: nat)
    requires k < |IndexOf(ps)|
    ensures IndexOf(ps)[k].1 !in Positions(IndexOf(ps)[..k])
    ensures Positions(IndexOf(ps)[..k + 1]) == Positions(IndexOf(ps)[..k]) + {IndexOf(ps)[k].1}
  {
    IndexPositionsDistinct(ps);
    PositionsStep(IndexOf(ps), k);
  }

  /** In an index holding each position once, one more entry adds a position not seen before. */
  lemma PositionsStep(ix: RateIndex, k: nat)
    requires k < |ix| && forall a, b :: 0 <= a < b < |ix| ==> ix[a].1 != ix[b].1
    ensures ix[k].1 !in Positions(ix[..k])
    ensures Positions(ix[..k + 1]) == Positions(ix[..k]) + {ix[k].1}
  {
    assert ix[..k + 1] == ix[..k] + [ix[k]];
  }

  // ---- workers ordered by hash rate ----

  predicate Descending(ws: seq<WorkerId>, rateOf: WorkerId -> nat) {
    forall a, b :: 0 <= a < b < |ws| ==> rateOf(ws[a]) >= rateOf(ws[b])
  }

  /** Inserts a worker after every worker whose hash rate is at least its own. */
  function InsertByRate(ws: seq<WorkerId>, w: WorkerId, rateOf: WorkerId -> nat): (r: seq<WorkerId>)
    ensures multiset(r) == multiset(ws) + multiset{w}
  {
    if ws == [] then [w]
    else if rateOf(ws[0]) >= rateOf(w) then
      assert ws == [ws[0]] + ws[1..];
      [ws[0]] + InsertByRate(ws[1..], w, rateOf)
    else [w] + ws
  }

  /** Inserting into workers in descending order of hash rate keeps them in that order. */
  lemma {:induction false} InsertKeepsDescending(ws: seq<WorkerId>, w: WorkerId, rateOf: WorkerId -> nat)
    requires Descending(ws, rateOf)
    ensures Descending(InsertByRate(ws, w, rateOf), rateOf)
  {
    if ws != [] && rateOf(ws[0]) >= rateOf(w) {
      InsertKeepsDescending(ws[1..], w, rateOf);
      InsertBelow(ws[1..], w, rateOf(ws[0]), rateOf);
      DescendingCons(ws[0], InsertByRate(ws[1..], w, rateOf), rateOf);
    } else if ws != [] {
      assert forall i :: 0 <= i < |ws| ==> rateOf(ws[i]) <= rateOf(ws[0]);
      DescendingCons(w, ws, rateOf);
    }
  }

  /** A worker whose rate is at least every rate of a descending sequence can go in front of it. */
  lemma DescendingCons(x: WorkerId, t: seq<WorkerId>, rateOf: WorkerId -> nat)
    requires Descending(t, rateOf) && forall i :: 0 <= i < |t| ==> rateOf(t[i]) <= rateOf(x)
    ensures Descending([x] + t, rateOf)
  {
    var r := [x] + t;
    forall a, b | 0 <= a < b < |r|
      ensures rateOf(r[a]) >= rateOf(r[b])
    {
      assert r[b] == t[b - 1];
      if a > 0 {
        assert r[a] == t[a - 1];
      }
    }
  }

  /** Inserting a worker no faster than a bound into workers no faster than the bound. */
  lemma InsertBelow(ws: seq<WorkerId>, w: WorkerId, bound: nat, rateOf: WorkerId -> nat)
    requires rateOf(w) <= bound && forall i :: 0 <= i < |ws| ==> rateOf(ws[i]) <= bound
    ensures forall b :: 0 <= b < |InsertByRate(ws, w, rateOf)| ==> rateOf(InsertByRate(ws, w, rateOf)[b]) <= bound
  {
    var t := InsertByRate(ws, w, rateOf);
    forall b | 0 <= b < |t|
      ensures rateOf(t[b]) <= bound
    {
      assert t[b] in multiset(t);
      if t[b] != w {
        assert t[b] in multiset(ws);
        var i :| 0 <= i < |ws| && ws[i] == t[b];
      }
    }
  }

  /** Taking a worker out of workers in descending order of hash rate keeps them in that order. */
  lemma DescendingErase(ws: seq<WorkerId>, k: nat, rateOf: WorkerId -> nat)
    requires k < |ws| && Descending(ws, rateOf)
    ensures Descending(ws[..k] + ws[k + 1..], rateOf)
  {
    var r := ws[..k] + ws[k + 1..];
    forall a, b | 0 <= a < b < |r|
      ensures rateOf(r[a]) >= rateOf(r[b])
    {
      var a', b' := if a < k then a else a + 1, if b < k then b else b + 1;
      assert r[a] == ws[a'] && r[b] == ws[b'];
    }
  }

  /** How many leading workers have a hash rate at least the given worker's. */
  function InsertPoint(ws: seq<WorkerId>, w: WorkerId, rateOf: WorkerId -> nat): (k: nat)
    ensures k <= |ws|
  {
    if ws != [] && rateOf(ws[0]) >= rateOf(w) then 1 + InsertPoint(ws[1..], w, rateOf) else 0
  }

  /** The leading workers before the insertion point have at least the inserted rate; the next one has less. */
  lemma {:induction false} InsertPointRates(ws: seq<WorkerId>, w: WorkerId, rateOf: WorkerId -> nat)
    ensures forall j :: 0 <= j < InsertPoint(ws, w, rateOf) ==> rateOf(ws[j]) >= rateOf(w)
    ensures InsertPoint(ws, w, rateOf) < |ws| ==> rateOf(ws[InsertPoint(ws, w, rateOf)]) < rateOf(w)
  {
    if ws != [] && rateOf(ws[0]) >= rateOf(w) {
      InsertPointRates(ws[1..], w, rateOf);
      forall j | 0 < j < InsertPoint(ws, w, rateOf)
        ensures rateOf(ws[j]) >= rateOf(w)
      {
        assert ws[j] == ws[1..][j - 1];
      }
    }
  }

  /**
   * Equal hash rates keep their arrival order: the new worker goes in at the
   * insertion point, after every leading worker whose rate is at least its own.
   */
  lemma {:induction false} InsertAfterEqual(ws: seq<WorkerId>, w: WorkerId, rateOf: WorkerId -> nat)
    ensures var k := InsertPoint(ws, w, rateOf); InsertByRate(ws, w, rateOf) == ws[..k] + [w] + ws[k..]
  {
    if ws != [] && rateOf(ws[0]) >= rateOf(w) {
      InsertAfterEqual(ws[1..], w, rateOf);
      ConsSlices(ws, InsertPoint(ws[1..], w, rateOf), w);
    } else {
      assert ws[..0] + [w] + ws[0..] == [w] + ws;
    }
  }

  /** Putting the head back in front of a split of the tail splits the whole sequence one further on. */
  lemma ConsSlices<T>(ws: seq<T>, k: nat, w: T)
    requires k < |ws|
    ensures [ws[0]] + (ws[1..][..k] + [w] + ws[1..][k..]) == ws[..k + 1] + [w] + ws[k + 1..]
  {
    assert [ws[0]] + ws[1..][..k] == ws[..k + 1];
    assert ws[1..][k..] == ws[k + 1..];
  }

  /** The workers in descending order of hash rate; workers of equal rate keep their order. */
  function SortedByRate(ws: seq<WorkerId>, rateOf: WorkerId -> nat): (r: seq<WorkerId>)
    ensures multiset(r) == multiset(ws) && Descending(r, rateOf)
  {
    if ws == [] then []
    else
      assert ws == ws[..|ws| - 1] + [ws[|ws| - 1]];
      InsertKeepsDescending(SortedByRate(ws[..|ws| - 1], rateOf), ws[|ws| - 1], rateOf);
      InsertByRate(SortedByRate(ws[..|ws| - 1], rateOf), ws[|ws| - 1], rateOf)
  }

  /** The total hash rate of some workers. */
  function RateSum(ws: seq<WorkerId>, rateOf: WorkerId -> nat): nat {
    if ws == [] then 0 else rateOf(ws[0]) + RateSum(ws[1..], rateOf)
  }

  lemma {:induction false} RateSumAppend(ws: seq<WorkerId>, w: WorkerId, rateOf: WorkerId -> nat)
    ensures RateSum(ws + [w], rateOf) == RateSum(ws, rateOf) + rateOf(w)
  {
    if ws != [] {
      assert (ws + [w])[1..] == ws[1..] + [w];
      RateSumAppend(ws[1..], w, rateOf);
    }
  }

  /** The workers with a positive hash rate, in order. */
  function Positive(ws: seq<WorkerId>, rateOf: WorkerId -> nat): (r: seq<WorkerId>)
    ensures forall w :: w in r <==> w in ws && rateOf(w) > 0
  {
    if ws == [] then []
    else if rateOf(ws[0]) > 0 then [ws[0]] + Positive(ws[1..], rateOf)
    else Positive(ws[1..], rateOf)
  }

  /**
   * The workers an overloaded pool gives up, walking its workers in order:
   * each worker with a positive hash rate is taken and its rate subtracted from
   * the excess, stopping as soon as the excess is no longer positive.
   */
  function Shed(ws: seq<WorkerId>, excess: int, rateOf: WorkerId -> nat): seq<WorkerId> {
    if ws == [] then []
    else if rateOf(ws[0]) > 0 then
      var rest := excess - rateOf(ws[0]);
      [ws[0]] + (if rest <= 0 then [] else Shed(ws[1..], rest, rateOf))
    else Shed(ws[1..], excess, rateOf)
  }

  /**
   * The shedding walk at position `k`: the workers `removed` so far, followed
   * by what the rest of the walk sheds with the remaining excess, are what the
   * whole walk sheds.
   */
  ghost predicate ShedFrom(ws: seq<WorkerId>, excess: int, k: nat, remaining: int, removed: seq<WorkerId>,
                           rateOf: WorkerId -> nat) {
    k <= |ws| && removed + Shed(ws[k..], remaining, rateOf) == Shed(ws, excess, rateOf)
  }

  /** The walk starts at position 0 with nothing removed and ends with everything shed. */
  lemma ShedFromEnds(ws: seq<WorkerId>, excess: int, remaining: int, removed: seq<WorkerId>, rateOf: WorkerId -> nat)
    ensures ShedFrom(ws, excess, 0, excess, [], rateOf)
    ensures ShedFrom(ws, excess, |ws|, remaining, removed, rateOf) ==> removed == Shed(ws, excess, rateOf)
  {
    assert ws[0..] == ws;
    assert ws[|ws|..] == [];
  }

  /** One step of the shedding walk on a worker at position `k`, as `Shed` unfolds there. */
  lemma ShedUnfold(ws: seq<WorkerId>, k: nat, remaining: int, rateOf: WorkerId -> nat)
    requires k < |ws|
    ensures rateOf(ws[k]) == 0 ==> Shed(ws[k..], remaining, rateOf) == Shed(ws[k + 1..], remaining, rateOf)
    ensures rateOf(ws[k]) > 0 && remaining - rateOf(ws[k]) <= 0 ==> Shed(ws[k..], remaining, rateOf) == [ws[k]]
    ensures rateOf(ws[k]) > 0 && remaining - rateOf(ws[k]) > 0 ==>
      Shed(ws[k..], remaining, rateOf) == [ws[k]] + Shed(ws[k + 1..], remaining - rateOf(ws[k]), rateOf)
  {
    var rest := ws[k..];
    assert rest[0] == ws[k] && rest[1..] == ws[k + 1..];
  }

  /** The walk takes a worker with a positive rate: it has shed everything or goes on at `k + 1`. */
  lemma ShedFromTake(ws: seq<WorkerId>, excess: int, k: nat, remaining: int, removed: seq<WorkerId>,
                     rateOf: WorkerId -> nat)
    requires ShedFrom(ws, excess, k, remaining, removed, rateOf) && k < |ws| && rateOf(ws[k]) > 0
    ensures remaining - rateOf(ws[k]) <= 0 ==> removed + [ws[k]] == Shed(ws, excess, rateOf)
    ensures remaining - rateOf(ws[k]) > 0 ==>
      ShedFrom(ws, excess, k + 1, remaining - rateOf(ws[k]), removed + [ws[k]], rateOf)
  {
    ShedUnfold(ws, k, remaining, rateOf);
    var rest, total := Shed(ws[k..], remaining, rateOf), Shed(ws, excess, rateOf);
    if remaining - rateOf(ws[k]) > 0 {
      MoveFirst(removed, ws[k], Shed(ws[k + 1..], remaining - rateOf(ws[k]), rateOf), rest, total);
    } else {
      MoveFirst(removed, ws[k], [], rest, total);
    }
  }

  /** Moving the first element of what follows a prefix onto the end of the prefix. */
  lemma MoveFirst<T>(prefix: seq<T>, x: T, later: seq<T>, rest: seq<T>, total: seq<T>)
    requires prefix + rest == total && rest == [x] + later
    ensures (prefix + [x]) + later == total
  {
    assert prefix + ([x] + later) == (prefix + [x]) + later;
  }

  /**
   * The shedding walk at position `k` over a pool's workers `ws` and the held
   * workers `held`: the pool has lost, and the held list gained, exactly the
   * workers removed so far.
   */
  ghost predicate ShedWalking(ws: seq<WorkerId>, held: seq<WorkerId>, sorted: seq<WorkerId>, excess: int, k: nat,
                              remaining: int, removed: seq<WorkerId>, ws': seq<WorkerId>, held': seq<WorkerId>,
                              rateOf: WorkerId -> nat) {
    ShedFrom(sorted, excess, k, remaining, removed, rateOf) &&
    ws' == RemoveAll(ws, removed) && held' == InsertAll(held, removed, rateOf)
  }

  /** The walk passes over a worker with no hash rate. */
  lemma ShedWalkSkip(ws: seq<WorkerId>, held: seq<WorkerId>, sorted: seq<WorkerId>, excess: int, k: nat,
                     remaining: int, removed: seq<WorkerId>, ws': seq<WorkerId>, held': seq<WorkerId>,
                     rateOf: WorkerId -> nat)
    requires ShedWalking(ws, held, sorted, excess, k, remaining, removed, ws', held', rateOf)
    requires k < |sorted| && rateOf(sorted[k]) == 0
    ensures ShedWalking(ws, held, sorted, excess, k + 1, remaining, removed, ws', held', rateOf)
  {
    ShedUnfold(sorted, k, remaining, rateOf);
  }

  /**
   * The walk takes a worker with a positive hash rate from the pool into the
   * held list; it then either has shed everything or goes on at `k + 1`.
   */
  lemma ShedWalkTake(ws: seq<WorkerId>, held: seq<WorkerId>, sorted: seq<WorkerId>, excess: int, k: nat,
                     remaining: int, removed: seq<WorkerId>, ws': seq<WorkerId>, held': seq<WorkerId>,
                     rateOf: WorkerId -> nat)
    requires ShedWalking(ws, held, sorted, excess, k, remaining, removed, ws', held', rateOf)
    requires k < |sorted| && rateOf(sorted[k]) > 0
    ensures remaining - rateOf(sorted[k]) <= 0 ==>
      removed + [sorted[k]] == Shed(sorted, excess, rateOf) &&
      Without(ws', sorted[k]) == RemoveAll(ws, removed + [sorted[k]]) &&
      InsertByRate(held', sorted[k], rateOf) == InsertAll(held, removed + [sorted[k]], rateOf)
    ensures remaining - rateOf(sorted[k]) > 0 ==>
      ShedWalking(ws, held, sorted, excess, k + 1, remaining - rateOf(sorted[k]), removed + [sorted[k]],
                  Without(ws', sorted[k]), InsertByRate(held', sorted[k], rateOf), rateOf)
  {
    ShedFromTake(sorted, excess, k, remaining, removed, rateOf);
    RemoveAllStep(ws, removed, sorted[k]);
    InsertAllStep(held, removed, sorted[k], rateOf);
  }

  /** Only workers with a positive rate are shed, in their order, with none skipped. */
  lemma {:induction false} ShedIsPositivePrefix(ws: seq<WorkerId>, excess: int, rateOf: WorkerId -> nat)
    ensures Shed(ws, excess, rateOf) <= Positive(ws, rateOf)
  {
    if ws != [] {
      var rest := excess - rateOf(ws[0]);
      if rateOf(ws[0]) <= 0 {
        ShedIsPositivePrefix(ws[1..], excess, rateOf);
      } else if rest > 0 {
        ShedIsPositivePrefix(ws[1..], rest, rateOf);
      }
    }
  }

  /** Shedding stops at the first worker that covers a positive excess: every shorter prefix falls short. */
  lemma {:induction false} ShedStopsOnceCovered(ws: seq<WorkerId>, excess: int, rateOf: WorkerId -> nat)
    requires 0 < excess
    ensures var s := Shed(ws, excess, rateOf); s != [] ==> RateSum(s[..|s| - 1], rateOf) < excess
  {
    if ws != [] {
      var rest := excess - rateOf(ws[0]);
      if rateOf(ws[0]) <= 0 {
        ShedStopsOnceCovered(ws[1..], excess, rateOf);
      } else if rest > 0 {
        ShedStopsOnceCovered(ws[1..], rest, rateOf);
        var t := Shed(ws[1..], rest, rateOf);
        var s := Shed(ws, excess, rateOf);
        if t != [] {
          assert s[..|s| - 1] == [ws[0]] + t[..|t| - 1];
          assert (s[..|s| - 1])[1..] == t[..|t| - 1];
        } else {
          assert s[..|s| - 1] == [];
        }
      } else {
        var s := Shed(ws, excess, rateOf);
        assert s[..|s| - 1] == [];
      }
    }
  }

  /** Shedding covers the excess unless it runs out of workers with a positive rate. */
  lemma {:induction false} ShedCoversExcess(ws: seq<WorkerId>, excess: int, rateOf: WorkerId -> nat)
    ensures RateSum(Shed(ws, excess, rateOf), rateOf) >= excess || Shed(ws, excess, rateOf) == Positive(ws, rateOf)
  {
    if ws != [] {
      var rest := excess - rateOf(ws[0]);
      var s := Shed(ws, excess, rateOf);
      if rateOf(ws[0]) <= 0 {
        ShedCoversExcess(ws[1..], excess, rateOf);
      } else if rest > 0 {
        ShedCoversExcess(ws[1..], rest, rateOf);
        assert s[1..] == Shed(ws[1..], rest, rateOf);
      } else {
        assert s[1..] == [];
      }
    }
  }

  /** Shedding takes workers from those walked, never more often than they occur. */
  lemma {:induction false} ShedWithin(ws: seq<WorkerId>, excess: int, rateOf: WorkerId -> nat)
    ensures multiset(Shed(ws, excess, rateOf)) <= multiset(ws)
  {
    if ws != [] {
      var w, tail := ws[0], ws[1..];
      var rest := excess - rateOf(w);
      assert ws == [w] + tail;
      if rateOf(w) <= 0 {
        ShedWithin(tail, excess, rateOf);
        ConsWithin(w, Shed(tail, excess, rateOf), tail);
      } else if rest > 0 {
        ShedWithin(tail, rest, rateOf);
        assert Shed(ws, excess, rateOf) == [w] + Shed(tail, rest, rateOf);
        ConsWithin(w, Shed(tail, rest, rateOf), tail);
      } else {
        assert Shed(ws, excess, rateOf) == [w] + [];
        ConsWithin(w, [], tail);
      }
    }
  }

  /** Putting the same element in front of two sequences keeps their multisets included. */
  lemma ConsWithin<T>(x: T, a: seq<T>, b: seq<T>)
    requires multiset(a) <= multiset(b)
    ensures multiset(a) <= multiset([x] + b) && multiset([x] + a) <= multiset([x] + b)
  {
  }

  /** The workers left after removing each of `r` in turn. */
  function RemoveAll(ws: seq<WorkerId>, r: seq<WorkerId>): seq<WorkerId> {
    if r == [] then ws else Without(RemoveAll(ws, r[..|r| - 1]), r[|r| - 1])
  }

  /** Removing one more worker. */
  lemma RemoveAllStep(ws: seq<WorkerId>, r: seq<WorkerId>, w: WorkerId)
    ensures RemoveAll(ws, r + [w]) == Without(RemoveAll(ws, r), w)
  {
    assert (r + [w])[..|r|] == r;
  }

  /** Removing workers that occur once each takes exactly those workers away. */
  lemma {:induction false} RemoveAllCounts(ws: seq<WorkerId>, r: seq<WorkerId>)
    requires multiset(r) <= multiset(ws) && forall x :: multiset(ws)[x] <= 1
    ensures multiset(RemoveAll(ws, r)) + multiset(r) == multiset(ws)
  {
    if r != [] {
      var init, w := r[..|r| - 1], r[|r| - 1];
      assert r == init + [w];
      assert multiset(r) == multiset(init) + multiset{w};
      RemoveAllCounts(ws, init);
      var left := RemoveAll(ws, init);
      assert multiset(left)[w] == 1 by {
        assert multiset(left)[w] + multiset(init)[w] == multiset(ws)[w];
        assert multiset(init)[w] + 1 <= multiset(ws)[w];
      }
    }
  }

  /** The held workers after inserting each of `r` in turn, in hash-rate order. */
  function InsertAll(held: seq<WorkerId>, r: seq<WorkerId>, rateOf: WorkerId -> nat): seq<WorkerId> {
    if r == [] then held else InsertByRate(InsertAll(held, r[..|r| - 1], rateOf), r[|r| - 1], rateOf)
  }

  /** Inserting one more worker. */
  lemma InsertAllStep(held: seq<WorkerId>, r: seq<WorkerId>, w: WorkerId, rateOf: WorkerId -> nat)
    ensures InsertAll(held, r + [w], rateOf) == InsertByRate(InsertAll(held, r, rateOf), w, rateOf)
  {
    assert (r + [w])[..|r|] == r;
  }

  /** Inserting workers in turn adds exactly those workers and keeps the descending order. */
  lemma {:induction false} InsertAllCounts(held: seq<WorkerId>, r: seq<WorkerId>, rateOf: WorkerId -> nat)
    requires Descending(held, rateOf)
    ensures multiset(InsertAll(held, r, rateOf)) == multiset(held) + multiset(r)
    ensures Descending(InsertAll(held, r, rateOf), rateOf)
  {
    if r != [] {
      var init, w := r[..|r| - 1], r[|r| - 1];
      assert r == init + [w];
      InsertAllCounts(held, init, rateOf);
      InsertKeepsDescending(InsertAll(held, init, rateOf), w, rateOf);
    }
  }

  /**
   * Shedding from the workers of a pool, walked in some order, in which no
   * worker occurs twice: the pool keeps exactly the workers not shed, and the
   * held workers gain exactly those shed, in descending order of hash rate.
   */
  lemma ShedCounts(orig: seq<WorkerId>, sorted: seq<WorkerId>, excess: int, rateOf: WorkerId -> nat, held: seq<WorkerId>)
    requires multiset(sorted) == multiset(orig) && (forall x :: multiset(orig)[x] <= 1) && Descending(held, rateOf)
    ensures var shed := Shed(sorted, excess, rateOf);
      && multiset(RemoveAll(orig, shed)) + multiset(shed) == multiset(orig)
      && multiset(InsertAll(held, shed, rateOf)) == multiset(held) + multiset(shed)
      && Descending(InsertAll(held, shed, rateOf), rateOf)
  {
    ShedWithin(sorted, excess, rateOf);
    RemoveAllCounts(orig, Shed(sorted, excess, rateOf));
    InsertAllCounts(held, Shed(sorted, excess, rateOf), rateOf);
  }

  /**
   * What an overloaded pool sheds, given the mean weighted hash rate: its
   * excess over the mean, scaled back up by its weight, is shed from its
   * workers taken from the highest hash rate down.
   */
  function ShedFor(p: Pool, mean: nat, rateOf: WorkerId -> nat): seq<WorkerId> {
    Shed(SortedByRate(p.workers, rateOf), Excess(p, mean), rateOf)
  }

  /** A pool's weighted rate above the mean, scaled back up by its weight. */
  function Excess(p: Pool, mean: nat): int {
    (WeightedRate(p) - mean) * p.weight
  }

  /**
   * The pools after the shedding phase has visited the positions `done`: their
   * configurations are those of `orig`, a pool not visited or not above the
   * mean is as it was, and a visited pool above the mean has given up exactly
   * what it sheds.
   */
  ghost predicate ShedState(orig: seq<Pool>, cur: seq<Pool>, done: set<nat>, mean: nat, rateOf: WorkerId -> nat) {
    && |cur| == |orig| && (forall j :: 0 <= j < |cur| ==> SameConfig(cur[j], orig[j]))
    && (forall j :: 0 <= j < |cur| && (j !in done || WeightedRate(orig[j]) <= mean) ==> cur[j] == orig[j])
    && (forall j :: 0 <= j < |cur| && j in done && WeightedRate(orig[j]) > mean ==>
          multiset(cur[j].workers) + multiset(ShedFor(orig[j], mean, rateOf)) == multiset(orig[j].workers))
  }

  /** Visiting one more position, and changing only the pool there as the shedding phase does, keeps the state. */
  lemma ShedStateStep(orig: seq<Pool>, prev: seq<Pool>, cur: seq<Pool>, done: set<nat>, i: nat, mean: nat, rateOf: WorkerId -> nat)
    requires ShedState(orig, prev, done, mean, rateOf) && i < |prev| && i !in done
    requires |cur| == |prev| && forall j :: 0 <= j < |cur| && j != i ==> cur[j] == prev[j]
    requires SameConfig(cur[i], prev[i])
    requires WeightedRate(orig[i]) <= mean ==> cur[i] == prev[i]
    requires WeightedRate(orig[i]) > mean ==>
      multiset(cur[i].workers) + multiset(ShedFor(orig[i], mean, rateOf)) == multiset(orig[i].workers)
    ensures ShedState(orig, cur, done + {i}, mean, rateOf)
  {
  }

  /**
   * The progress of the shedding phase over the positions `done`: the pools
   * `cur` are in the shedding state, and every worker attached to `orig` is
   * either still attached or held.
   */
  ghost predicate ShedProgress(orig: seq<Pool>, cur: seq<Pool>, done: set<nat>, mean: nat, rateOf: WorkerId -> nat,
                               held: seq<WorkerId>) {
    Attached(cur) + multiset(held) == Attached(orig) && ShedState(orig, cur, done, mean, rateOf)
  }

  /**
   * Visiting the pool at `i`: when it is above the mean it gives up exactly
   * what it sheds, moved to the held workers; otherwise nothing changes.
   */
  lemma ShedVisit(orig: seq<Pool>, prev: seq<Pool>, cur: seq<Pool>, done: set<nat>, i: nat, mean: nat,
                  rateOf: WorkerId -> nat, held: seq<WorkerId>, held': seq<WorkerId>)
    requires ShedProgress(orig, prev, done, mean, rateOf, held) && i < |prev| && i !in done
    requires WeightedRate(orig[i]) <= mean ==> cur == prev && held' == held
    requires WeightedRate(orig[i]) > mean ==>
      && |cur| == |prev| && SameConfig(cur[i], prev[i])
      && (forall j :: 0 <= j < |cur| && j != i ==> cur[j] == prev[j])
      && multiset(cur[i].workers) + multiset(Shed(SortedByRate(prev[i].workers, rateOf),
                                                 Excess(prev[i], mean), rateOf))
         == multiset(prev[i].workers)
      && Attached(cur) + multiset(held') == Attached(prev) + multiset(held)
    ensures ShedProgress(orig, cur, done + {i}, mean, rateOf, held')
  {
    assert prev[i] == orig[i];
    if WeightedRate(orig[i]) > mean {
      ShedStateStep(orig, prev, cur, done, i, mean, rateOf);
    } else {
      ShedStateStep(orig, prev, cur, done, i, mean, rateOf);
    }
  }

  /**
   * The pools have only gained workers: configurations as in `orig`, each
   * pool's old workers a prefix of its new ones, and only the pools at the
   * positions `allowed` changed.
   */
  ghost predicate Grown(orig: seq<Pool>, cur: seq<Pool>, allowed: set<nat>) {
    && |cur| == |orig|
    && (forall j :: 0 <= j < |cur| ==> SameConfig(cur[j], orig[j]) && orig[j].workers <= cur[j].workers)
    && (forall j :: 0 <= j < |cur| && j !in allowed ==> cur[j] == orig[j])
  }

  /** Appending workers to an allowed pool keeps the pools grown. */
  lemma GrownAppend(orig: seq<Pool>, prev: seq<Pool>, i: nat, added: seq<WorkerId>, allowed: set<nat>)
    requires Grown(orig, prev, allowed) && i < |prev| && i in allowed
    ensures Grown(orig, prev[i := prev[i].(workers := prev[i].workers + added)], allowed)
  {
    var cur := prev[i := prev[i].(workers := prev[i].workers + added)];
    assert orig[i].workers <= cur[i].workers by {
      assert prev[i].workers <= cur[i].workers;
    }
  }

  /** Growing twice is growing once. */
  lemma GrownTrans(a: seq<Pool>, b: seq<Pool>, c: seq<Pool>, allowed: set<nat>)
    requires Grown(a, b, allowed) && Grown(b, c, allowed)
    ensures Grown(a, c, allowed)
  {
    forall j | 0 <= j < |c|
      ensures a[j].workers <= c[j].workers
    {
      assert a[j].workers <= b[j].workers <= c[j].workers;
    }
  }

  /**
   * The pools after the refill phase has visited the positions `done`: only
   * visited pools below the mean have gained workers, and what each gained
   * has a total hash rate below its deficit.
   */
  ghost predicate RefillState(orig: seq<Pool>, cur: seq<Pool>, done: set<nat>, mean: nat, rateOf: WorkerId -> nat) {
    && Grown(orig, cur, done)
    && (forall j :: 0 <= j < |cur| && WeightedRate(orig[j]) >= mean ==> cur[j] == orig[j])
    && (forall j :: 0 <= j < |cur| && WeightedRate(orig[j]) < mean ==>
          RateSum(cur[j].workers[|orig[j].workers|..], rateOf) < mean - WeightedRate(orig[j]))
  }

  /** Nothing visited: every pool is as it was. */
  lemma RefillStateStart(orig: seq<Pool>, mean: nat, rateOf: WorkerId -> nat)
    ensures RefillState(orig, orig, {}, mean, rateOf)
  {
    forall j | 0 <= j < |orig|
      ensures orig[j].workers[|orig[j].workers|..] == []
    {
    }
  }

  /** Visiting a pool below the mean and appending workers whose total rate is below its deficit keeps the state. */
  lemma RefillStateStep(orig: seq<Pool>, prev: seq<Pool>, done: set<nat>, i: nat, added: seq<WorkerId>,
                        mean: nat, rateOf: WorkerId -> nat)
    requires RefillState(orig, prev, done, mean, rateOf) && i < |prev| && i !in done
    requires WeightedRate(orig[i]) < mean && RateSum(added, rateOf) < mean - WeightedRate(orig[i])
    ensures RefillState(orig, prev[i := prev[i].(workers := prev[i].workers + added)], done + {i}, mean, rateOf)
  {
    var cur := prev[i := prev[i].(workers := prev[i].workers + added)];
    assert prev[i] == orig[i];
    assert cur[i].workers[|orig[i].workers|..] == added;
    assert Grown(orig, prev, done + {i});
    GrownAppend(orig, prev, i, added, done + {i});
  }

  /** A state reached over some positions is also one over any larger set of positions. */
  lemma RefillStateWiden(orig: seq<Pool>, cur: seq<Pool>, done: set<nat>, more: set<nat>, mean: nat, rateOf: WorkerId -> nat)
    requires RefillState(orig, cur, done, mean, rateOf) && done <= more
    ensures RefillState(orig, cur, more, mean, rateOf)
  {
  }

  /**
   * The progress of refilling pool `i` from the held workers `origHeld`: the
   * pool has gained `added` after its original workers, the workers still
   * held are the original ones less `added`, in descending order of rate,
   * the added rates sum to the deficit less what remains of it, and no
   * worker appeared or vanished.
   */
  ghost predicate RefillProgress(orig: seq<Pool>, origHeld: seq<WorkerId>, cur: seq<Pool>, i: nat, deficit: nat,
                                 remaining: int, held: seq<WorkerId>, added: seq<WorkerId>, rateOf: WorkerId -> nat) {
    && i < |orig|
    && cur == orig[i := orig[i].(workers := orig[i].workers + added)]
    && multiset(held) + multiset(added) == multiset(origHeld)
    && 0 < remaining && RateSum(added, rateOf) + remaining == deficit
    && Descending(held, rateOf)
    && Attached(cur) + multiset(held) == Attached(orig) + multiset(origHeld)
  }

  /** The pool accepting the held worker at `m`, whose rate is below what remains of the deficit. */
  lemma RefillProgressStep(orig: seq<Pool>, origHeld: seq<WorkerId>, before: seq<Pool>, after: seq<Pool>, i: nat,
                           deficit: nat, remaining: int, held: seq<WorkerId>, added: seq<WorkerId>, m: nat,
                           rateOf: WorkerId -> nat)
    requires RefillProgress(orig, origHeld, before, i, deficit, remaining, held, added, rateOf)
    requires m < |held| && rateOf(held[m]) < remaining
    requires after == before[i := before[i].(workers := before[i].workers + [held[m]])]
    requires Descending(held[..m] + held[m + 1..], rateOf)
    requires Attached(after) + multiset(held[..m] + held[m + 1..]) == Attached(before) + multiset(held)
    ensures RefillProgress(orig, origHeld, after, i, deficit, remaining - rateOf(held[m]),
                           held[..m] + held[m + 1..], added + [held[m]], rateOf)
  {
    RateSumAppend(added, held[m], rateOf);
    TakeHeld(held, added, origHeld, m);
    AppendAgain(orig, before, i, added, held[m]);
  }

  /** Appending to a pool that has gained `added` is gaining `added` and then one more. */
  lemma AppendAgain(orig: seq<Pool>, cur: seq<Pool>, i: nat, added: seq<WorkerId>, w: WorkerId)
    requires i < |orig| && cur == orig[i := orig[i].(workers := orig[i].workers + added)]
    ensures cur[i := cur[i].(workers := cur[i].workers + [w])] == orig[i := orig[i].(workers := orig[i].workers + (added + [w]))]
  {
    assert orig[i].workers + (added + [w]) == (orig[i].workers + added) + [w];
  }

  /** Moving the held worker at `m` over to the added ones keeps their union. */
  lemma TakeHeld(held: seq<WorkerId>, added: seq<WorkerId>, origHeld: seq<WorkerId>, m: nat)
    requires m < |held| && multiset(held) + multiset(added) == multiset(origHeld)
    ensures multiset(held[..m] + held[m + 1..]) + multiset(added + [held[m]]) == multiset(origHeld)
  {
    var w, held' := held[m], held[..m] + held[m + 1..];
    assert multiset(held) == multiset(held') + multiset{w} by {
      SplitAt(held, m);
    }
    forall x
      ensures (multiset(held') + multiset(added + [w]))[x] == multiset(origHeld)[x]
    {
      assert (multiset(held') + multiset{w})[x] == multiset(held)[x];
    }
  }

  /** Pools of the same configuration have the same weighted rate. */
  lemma SameConfigRate(p: Pool, q: Pool)
    requires SameConfig(p, q)
    ensures WeightedRate(p) == WeightedRate(q)
  {
    assert p.(workers := []).hashRate == q.(workers := []).hashRate;
    assert p.(workers := []).weight == q.(workers := []).weight;
  }

  /**
   * What a rebalance pass over the positions `done` may do to the pools
   * `orig`, yielding `cur`: no configuration changes, a pool outside `done` is
   * untouched, a pool at or below the mean loses no worker (and keeps their
   * order), and a pool above the mean loses at most what it sheds.
   */
  ghost predicate PassBounds(orig: seq<Pool>, cur: seq<Pool>, done: set<nat>, mean: nat, rateOf: WorkerId -> nat) {
    && |cur| == |orig| && (forall j :: 0 <= j < |cur| ==> SameConfig(cur[j], orig[j]))
    && (forall j :: 0 <= j < |cur| && j !in done ==> cur[j] == orig[j])
    && (forall j :: 0 <= j < |cur| && WeightedRate(orig[j]) <= mean ==> orig[j].workers <= cur[j].workers)
    && (forall j :: 0 <= j < |cur| && WeightedRate(orig[j]) > mean ==>
          multiset(orig[j].workers) <= multiset(cur[j].workers) + multiset(ShedFor(orig[j], mean, rateOf)))
  }

  /** Every position the index holds is that of a pool. */
  lemma PositionsInRange(ps: seq<Pool>)
    ensures forall j :: j in Positions(IndexOf(ps)) ==> j < |ps|
  {
    forall j | j in Positions(IndexOf(ps))
      ensures j < |ps|
    {
      PositionsSound(ps, j);
    }
  }

  /**
   * The pools after a whole rebalance pass over the positions `done`: the
   * shedding phase took `orig` to `shed`, the refill phase `shed` to
   * `refilled`, and the leftovers grew `refilled` into `cur`. Then no
   * configuration changed, a pool outside `done` is untouched, a pool at or
   * below the mean lost no worker, and a pool above the mean lost at most what
   * it sheds.
   */
  lemma PassOutcome(orig: seq<Pool>, shed: seq<Pool>, refilled: seq<Pool>, cur: seq<Pool>, done: set<nat>,
                    mean: nat, rateOf: WorkerId -> nat)
    requires ShedState(orig, shed, done, mean, rateOf)
    requires RefillState(shed, refilled, done, mean, rateOf)
    requires Grown(refilled, cur, done)
    ensures PassBounds(orig, cur, done, mean, rateOf)
  {
    GrownTrans(shed, refilled, cur, done);
    forall j | 0 <= j < |cur|
      ensures SameConfig(cur[j], orig[j]) && WeightedRate(shed[j]) == WeightedRate(orig[j])
      ensures shed[j].workers <= cur[j].workers
    {
      SameConfigRate(shed[j], orig[j]);
      assert cur[j].(workers := []) == shed[j].(workers := []) == orig[j].(workers := []);
    }
    forall j | 0 <= j < |cur| && WeightedRate(orig[j]) > mean
      ensures multiset(orig[j].workers) <= multiset(cur[j].workers) + multiset(ShedFor(orig[j], mean, rateOf))
    {
      PrefixMultiset(shed[j].workers, cur[j].workers);
    }
  }

  /**
   * After the shedding phase the rate index is unchanged (no pool's
   * configuration changed), and pools that were all at the mean gave up nothing.
   */
  lemma ShedOutcome(orig: seq<Pool>, shed: seq<Pool>, done: set<nat>, mean: nat, rateOf: WorkerId -> nat,
                    held: seq<WorkerId>)
    requires ShedProgress(orig, shed, done, mean, rateOf, held)
    ensures IndexOf(shed) == IndexOf(orig)
    ensures |orig| > 0 && mean == Mean(orig) && Balanced(orig) ==> shed == orig && held == []
  {
    IndexOfSameConfig(shed, orig);
    if |orig| > 0 && mean == Mean(orig) && Balanced(orig) {
      BalancedShedsNothing(orig, shed, done, rateOf, held);
    }
  }

  /**
   * When every pool has the same weighted rate, none is above the mean, so
   * the shedding phase changes nothing and holds no worker.
   */
  lemma BalancedShedsNothing(orig: seq<Pool>, shed: seq<Pool>, done: set<nat>, rateOf: WorkerId -> nat, held: seq<WorkerId>)
    requires |orig| > 0 && Balanced(orig)
    requires ShedState(orig, shed, done, Mean(orig), rateOf)
    requires Attached(shed) + multiset(held) == Attached(orig)
    ensures shed == orig && held == []
  {
    MeanOfBalanced(orig);
    assert forall j :: 0 <= j < |shed| ==> shed[j] == orig[j];
    assert shed == orig;
    assert |multiset(held)| == 0;
  }

  /** A prefix has no more of any worker than the whole. */
  lemma PrefixMultiset(a: seq<WorkerId>, b: seq<WorkerId>)
    requires a <= b
    ensures multiset(a) <= multiset(b)
  {
    assert b == a + b[|a|..];
  }

  /** The positions of a prefix of an index are among the positions of the index. */
  lemma PositionsOfPrefix(ix: RateIndex, k: nat)
    requires k <= |ix|
    ensures Positions(ix[..k]) <= Positions(ix)
  {
    forall j | j in Positions(ix[..k])
      ensures j in Positions(ix)
    {
      var e :| e in ix[..k] && e.1 == j;
    }
  }

  // ---- attached workers ----

  /** Every attachment of a worker to a pool, counted. */
  function Attached(ps: seq<Pool>): multiset<WorkerId> {
    if ps == [] then multiset{} else multiset(ps[0].workers) + Attached(ps[1..])
  }

  lemma {:induction false} AttachedConcat(a: seq<Pool>, b: seq<Pool>)
    ensures Attached(a + b) == Attached(a) + Attached(b)
  {
    if a != [] {
      assert (a + b)[1..] == a[1..] + b;
      AttachedConcat(a[1..], b);
    } else {
      assert a + b == b;
    }
  }

  /** Replacing one pool changes the attachments by exactly that pool's workers. */
  lemma AttachedUpdate(ps: seq<Pool>, j: nat, p: Pool)
    requires j < |ps|
    ensures Attached(ps[j := p]) + multiset(ps[j].workers) == Attached(ps) + multiset(p.workers)
  {
    var before, after := ps[..j], ps[j + 1..];
    assert ps == before + [ps[j]] + after;
    assert ps[j := p] == before + [p] + after;
    AttachedConcat(before + [ps[j]], after);
    AttachedConcat(before, [ps[j]]);
    AttachedConcat(before + [p], after);
    AttachedConcat(before, [p]);
    assert Attached([p]) == multiset(p.workers);
    assert Attached([ps[j]]) == multiset(ps[j].workers);
  }

  /** The same, worker by worker: one pool's counts are taken out and the new pool's put in. */
  lemma AttachedReplace(ps: seq<Pool>, j: nat, p: Pool)
    requires j < |ps|
    ensures forall x :: Attached(ps[j := p])[x] + multiset(ps[j].workers)[x] == Attached(ps)[x] + multiset(p.workers)[x]
  {
    AttachedUpdate(ps, j, p);
    forall x
      ensures Attached(ps[j := p])[x] + multiset(ps[j].workers)[x] == Attached(ps)[x] + multiset(p.workers)[x]
    {
      assert (Attached(ps[j := p]) + multiset(ps[j].workers))[x] == (Attached(ps) + multiset(p.workers))[x];
    }
  }

  lemma {:induction false} AttachedContains(ps: seq<Pool>, j: nat)
    requires j < |ps|
    ensures multiset(ps[j].workers) <= Attached(ps)
  {
    if j > 0 {
      AttachedContains(ps[1..], j - 1);
    }
  }

  /** Reordering the pools leaves the attachments as they were. */
  lemma {:induction false} AttachedPermutation(ps: seq<Pool>, qs: seq<Pool>)
    requires multiset(ps) == multiset(qs)
    ensures Attached(ps) == Attached(qs)
  {
    if ps == [] {
      assert |qs| == |multiset(qs)| == 0;
    } else {
      var rest := MatchHead(ps, qs);
      AttachedPermutation(ps[1..], rest);
    }
  }

  /** The pool at the head of `ps` taken out of its permutation `qs`. */
  lemma MatchHead(ps: seq<Pool>, qs: seq<Pool>) returns (rest: seq<Pool>)
    requires ps != [] && multiset(ps) == multiset(qs)
    ensures multiset(ps[1..]) == multiset(rest)
    ensures Attached(qs) == Attached(rest) + multiset(ps[0].workers)
  {
    assert ps == [ps[0]] + ps[1..];
    var k := Find(qs, ps[0]);
    rest := qs[..k] + qs[k + 1..];
    AttachedRemoveAt(qs, k);
    Cancel(multiset(ps[1..]), multiset(rest), ps[0]);
  }

  /** Taking one pool out of a sequence of pools. */
  lemma AttachedRemoveAt(qs: seq<Pool>, k: nat)
    requires k < |qs|
    ensures Attached(qs) == Attached(qs[..k] + qs[k + 1..]) + multiset(qs[k].workers)
    ensures multiset(qs) == multiset(qs[..k] + qs[k + 1..]) + multiset{qs[k]}
  {
    var before, p, after := qs[..k], qs[k], qs[k + 1..];
    SplitAt(qs, k);
    AttachedConcat(before + [p], after);
    AttachedConcat(before, [p]);
    AttachedConcat(before, after);
    assert [p][1..] == [];
    var whole, left, mid, right := Attached(qs), Attached(before), multiset(p.workers), Attached(after);
    assert whole == left + mid + right;
    assert Attached(before + after) == left + right;
    assert whole == (left + right) + mid;
  }

  /** Adding the same element to two multisets keeps them apart or together. */
  lemma Cancel<T>(a: multiset<T>, b: multiset<T>, x: T)
    requires a + multiset{x} == b + multiset{x}
    ensures a == b
  {
    forall y
      ensures a[y] == b[y]
    {
      assert (a + multiset{x})[y] == (b + multiset{x})[y];
    }
  }

  /** A position at which an element of a sequence occurs. */
  lemma {:induction false} Find<T>(s: seq<T>, x: T) returns (k: nat)
    requires x in multiset(s)
    ensures k < |s| && s[k] == x
  {
    assert s == [s[0]] + s[1..];
    if s[0] == x {
      k := 0;
    } else {
      var j := Find(s[1..], x);
      k := j + 1;
    }
  }

  /** A sequence is what precedes position `k`, the element there, and what follows. */
  lemma SplitAt<T>(s: seq<T>, k: nat)
    requires k < |s|
    ensures s == (s[..k] + [s[k]]) + s[k + 1..]
  {
  }

  /** A pool's workers with every attachment of one worker taken away, the rest in order. */
  function Without(ws: seq<WorkerId>, id: WorkerId): (r: seq<WorkerId>)
    ensures multiset(r) == multiset(ws)[id := 0]
  {
    if ws == [] then []
    else
      assert ws == [ws[0]] + ws[1..];
      if ws[0] == id then Without(ws[1..], id) else [ws[0]] + Without(ws[1..], id)
  }

  lemma {:induction false} AttachedAbsent(ps: seq<Pool>, id: WorkerId)
    requires forall j :: 0 <= j < |ps| ==> id !in ps[j].workers
    ensures id !in Attached(ps)
  {
    if ps != [] {
      assert id !in multiset(ps[0].workers);
      forall j | 0 <= j < |ps| - 1
        ensures id !in ps[1..][j].workers
      {
        assert ps[1..][j] == ps[j + 1];
      }
      AttachedAbsent(ps[1..], id);
    }
  }

  /** Every pool with one worker detached. */
  function DetachAll(ps: seq<Pool>, id: WorkerId): (r: seq<Pool>)
    ensures |r| == |ps|
    ensures forall j :: 0 <= j < |ps| ==> r[j] == ps[j].(workers := Without(ps[j].workers, id))
  {
    if ps == [] then [] else [ps[0].(workers := Without(ps[0].workers, id))] + DetachAll(ps[1..], id)
  }

  /** Detaching a worker everywhere takes away all of its attachments and nothing else. */
  lemma {:induction false} AttachedDetachAll(ps: seq<Pool>, id: WorkerId)
    ensures Attached(DetachAll(ps, id)) == Attached(ps)[id := 0]
  {
    if ps != [] {
      var d := DetachAll(ps, id);
      AttachedDetachAll(ps[1..], id);
      assert d[1..] == DetachAll(ps[1..], id);
      assert Attached(d) == multiset(Without(ps[0].workers, id)) + Attached(d[1..]);
      forall x
        ensures Attached(d)[x] == Attached(ps)[id := 0][x]
      {
      }
    }
  }
}
