/** When the simulator's utilisation stays within the documented range of at most
    one, over any number of players, epochs and draws. */
module CellUtilization {
  import opened CellSim
  import opened CellEconomics

  predicate SaneParams(p: Params) {
    p.seedPool >= 0.0 && Funding(p) >= 0.0 && p.srr >= 0.0
  }

  ghost predicate NeverOverOne(p: Params) {
    forall scores, draws :: Positive(scores) && AllFit(scores, draws) ==> Utilization(Stats(p, scores, draws)) <= 1.0
  }

  /** What `n` epochs put into the pool. */
  function FundedBy(p: Params, n: nat): real {
    n as real * Funding(p)
  }

  /** At no time does the seed complete a unit of dust that the funding alone does
      not reach. */
  ghost predicate NoSpareDust(p: Params) {
    forall n: nat :: n >= 1 ==> Floor8(p.seedPool + FundedBy(p, n)) <= FundedBy(p, n)
  }

  /** Nothing flows back into the pool. */
  predicate NothingRecycled(p: Params) {
    p.srr == 0.0 || p.basket <= 0.0
  }

  // ---------------------------------------------------------------------
  // Whole units of dust
  // ---------------------------------------------------------------------

  predicate WholeDust(x: real) {
    Floor8(x) == x
  }

  lemma WholeDustAdds(a: real, b: real)
    requires WholeDust(a) && WholeDust(b)
    ensures WholeDust(a + b)
  {
    var x, y := (a * 100000000.0).Floor, (b * 100000000.0).Floor;
    assert (a + b) * 100000000.0 == (x + y) as real;
  }

  lemma WholeDustBelow(a: real, x: real)
    requires WholeDust(a) && a <= x
    ensures a <= Floor8(x)
  {
    assert (a * 100000000.0).Floor <= (x * 100000000.0).Floor;
  }

  lemma Floor8IsWhole(x: real)
    ensures WholeDust(Floor8(x))
  {
    var k := (x * 100000000.0).Floor;
    assert Floor8(x) * 100000000.0 == k as real;
  }

  lemma SettleIsWhole(p: Params, share: real)
    ensures WholeDust(Settle(p, share))
  {
    Floor8IsWhole(if share > p.cap then p.cap else share);
    Floor8IsWhole(0.0);
  }

  lemma {:induction false} SumIsWhole(xs: seq<real>)
    requires forall i :: 0 <= i < |xs| ==> WholeDust(xs[i])
    ensures WholeDust(Sum(xs))
  {
    if xs != [] {
      SumIsWhole(xs[..|xs| - 1]);
      WholeDustAdds(Sum(xs[..|xs| - 1]), xs[|xs| - 1]);
    }
  }

  lemma PayoutsAreWhole(p: Params, pool: real, scores: seq<real>, active: seq<bool>)
    requires |scores| == |active|
    ensures WholeDust(Sum(Payouts(p, pool, scores, active)))
  {
    hide Settle, WholeDust;
    var paid := Payouts(p, pool, scores, active);
    forall i | 0 <= i < |paid| ensures WholeDust(paid[i]) {
      if Shares(pool, scores, active) {
        var total := Sum(ActiveScores(scores, active));
        PayListAt(p, pool, total, scores, active, i);
        SettleIsWhole(p, Portion(pool, scores[i], total));
      }
      ZeroIsWhole();
    }
    SumIsWhole(paid);
  }

  lemma ZeroIsWhole()
    ensures WholeDust(0.0)
  {
  }

  // ---------------------------------------------------------------------
  // Column totals
  // ---------------------------------------------------------------------

  lemma {:induction false} FundedTotal(p: Params, scores: seq<real>, draws: seq<Draw>)
    requires AllFit(scores, draws)
    ensures Total(Stats(p, scores, draws), Funded) == FundedBy(p, |draws|)
    decreases |draws|
  {
    if draws != [] {
      var n := |draws| - 1;
      FundedTotal(p, scores, draws[..n]);
      TotalGrows(p, scores, draws, Funded);
      EpochReports(p, scores, After(p, scores, draws[..n]), draws[n]);
      OneMoreFunding(p, n);
    }
  }

  lemma OneMoreFunding(p: Params, n: nat)
    ensures FundedBy(p, n + 1) == FundedBy(p, n) + Funding(p)
  {
  }

  /** What one epoch's row says. */
  lemma EpochReports(p: Params, scores: seq<real>, s: Sim, d: Draw)
    requires Fits(scores, s, d)
    ensures var paid := Payouts(p, s.pool + Funding(p), scores, d.active);
            var st := Epoch(p, scores, s, d).1;
            && st.funding == Funding(p) && st.distributed == Sum(paid)
            && st.marketSpent == Sum(Spendings(p, Plus(s.held, paid), d))
  {
    hide Payouts, Sum, Funding, Recycle;
  }

  lemma {:induction false} DistributedIsWhole(p: Params, scores: seq<real>, draws: seq<Draw>)
    requires AllFit(scores, draws)
    ensures WholeDust(Total(Stats(p, scores, draws), Distributed))
    decreases |draws|
  {
    hide WholeDust, Epoch;
    if draws == [] {
      ZeroIsWhole();
    } else {
      var n := |draws| - 1;
      var s := After(p, scores, draws[..n]);
      DistributedIsWhole(p, scores, draws[..n]);
      TotalGrows(p, scores, draws, Distributed);
      EpochReports(p, scores, s, draws[n]);
      PayoutsAreWhole(p, s.pool + Funding(p), scores, draws[n].active);
      WholeDustAdds(Total(Stats(p, scores, draws[..n]), Distributed), Sum(Payouts(p, s.pool + Funding(p), scores, draws[n].active)));
    }
  }

  lemma {:induction false} NothingSpent(p: Params, scores: seq<real>, draws: seq<Draw>)
    requires AllFit(scores, draws) && p.basket <= 0.0
    ensures Total(Stats(p, scores, draws), Spent) == 0.0
    decreases |draws|
  {
    hide Epoch;
    if draws != [] {
      var n := |draws| - 1;
      var s := After(p, scores, draws[..n]);
      NothingSpent(p, scores, draws[..n]);
      TotalGrows(p, scores, draws, Spent);
      EpochReports(p, scores, s, draws[n]);
      ZeroSum(Spendings(p, Plus(s.held, Payouts(p, s.pool + Funding(p), scores, draws[n].active)), draws[n]));
    }
  }

  lemma {:induction false} NothingPaid(p: Params, scores: seq<real>, draws: seq<Draw>)
    requires AllFit(scores, draws) && p.cap < DUST
    ensures Total(Stats(p, scores, draws), Distributed) == 0.0
    decreases |draws|
  {
    hide Epoch;
    if draws != [] {
      var n := |draws| - 1;
      var s := After(p, scores, draws[..n]);
      NothingPaid(p, scores, draws[..n]);
      TotalGrows(p, scores, draws, Distributed);
      EpochReports(p, scores, s, draws[n]);
      TinyCapPaysNothing(p, s.pool + Funding(p), scores, draws[n].active);
    }
  }

  lemma TinyCapPaysNothing(p: Params, pool: real, scores: seq<real>, active: seq<bool>)
    requires |scores| == |active| && p.cap < DUST
    ensures Sum(Payouts(p, pool, scores, active)) == 0.0
  {
    hide Settle, Portion;
    var paid := Payouts(p, pool, scores, active);
    forall i | 0 <= i < |paid| ensures paid[i] == 0.0 {
      if Shares(pool, scores, active) {
        var total := Sum(ActiveScores(scores, active));
        PayListAt(p, pool, total, scores, active, i);
        TinyCapSettles(p, Portion(pool, scores[i], total));
      }
    }
    ZeroSum(paid);
  }

  lemma TinyCapSettles(p: Params, share: real)
    requires p.cap < DUST
    ensures Settle(p, share) == 0.0
  {
    var capped := if share > p.cap then p.cap else share;
    assert (capped * 100000000.0).Floor <= 0;
  }

  // ---------------------------------------------------------------------
  // The range holds
  // ---------------------------------------------------------------------

  /** Without recycling, what is distributed is a whole number of units out of seed
      and funding; if the seed completes none, it is covered by the funding. */
  lemma WithinFunding(p: Params, scores: seq<real>, draws: seq<Draw>)
    requires SaneParams(p) && Positive(scores) && AllFit(scores, draws) && draws != []
    requires NothingRecycled(p) && NoSpareDust(p)
    ensures Total(Stats(p, scores, draws), Distributed) <= Total(Stats(p, scores, draws), Funded)
  {
    hide WholeDust, FundedBy, Stats;
    var stats := Stats(p, scores, draws);
    TotalsOrdered(p, scores, draws);
    if p.basket <= 0.0 {
      NothingSpent(p, scores, draws);
    }
    assert Recycle(Total(stats, Spent), p.srr) == 0.0;
    FundedTotal(p, scores, draws);
    DistributedIsWhole(p, scores, draws);
    WholeDustBelow(Total(stats, Distributed), p.seedPool + FundedBy(p, |draws|));
  }

  lemma AtMostOne(d: real, f: real)
    requires f > 0.0
    ensures d / f <= 1.0 <==> d <= f
  {
    assert d == d / f * f;
    if d / f <= 1.0 {
      assert d / f * f <= 1.0 * f;
    }
    if d <= f {
      assert (f - d) / f >= 0.0;
    }
  }

  // ---------------------------------------------------------------------
  // The range is left
  // ---------------------------------------------------------------------

  function Ones(m: nat): (xs: seq<real>)
    ensures |xs| == m && forall i :: 0 <= i < m ==> xs[i] == 1.0
  {
    seq(m, _ => 1.0)
  }

  /** An epoch in which the first `j` of `m` players are active, and all buy. */
  function First(m: nat, j: nat): (d: Draw)
    ensures |d.active| == |d.buys| == m
    ensures forall i :: 0 <= i < m ==> d.active[i] == (i < j) && d.buys[i]
  {
    Draw(seq(m, i => i < j), seq(m, _ => true))
  }

  lemma {:induction false} SumOfFirst(xs: seq<real>, j: nat, v: real)
    requires j <= |xs| && v >= 0.0
    requires forall i :: 0 <= i < |xs| ==> xs[i] >= if i < j then v else 0.0
    ensures Sum(xs) >= j as real * v
    decreases |xs|
  {
    if xs != [] {
      var n := |xs| - 1;
      if j == |xs| {
        SumOfFirst(xs[..n], j - 1, v);
        assert j as real * v == (j - 1) as real * v + v;
      } else {
        SumOfFirst(xs[..n], j, v);
      }
    }
  }

  lemma {:induction false} ActiveOnes(m: nat, j: nat)
    requires j <= m
    ensures Sum(ActiveScores(Ones(m), First(m, j).active)) == j as real
    decreases m
  {
    if m > 0 {
      var n := m - 1;
      var k := if j > n then n else j;
      ActiveOnes(n, k);
      ActivePrefix(Ones(m), First(m, j).active, n);
      assert Ones(m)[..n] == Ones(n) && First(m, j).active[..n] == First(n, k).active;
    }
  }

  lemma EqualShare(pool: real, j: nat)
    requires j >= 1 && pool >= j as real * DUST
    ensures Portion(pool, 1.0, j as real) >= DUST
  {
    var r := 1.0 / j as real;
    assert j as real * r == 1.0;
    assert (pool - j as real * DUST) * r >= 0.0;
    assert (pool - j as real * DUST) * r == pool * r - j as real * r * DUST;
  }

  lemma SettlesAtLeastDust(p: Params, share: real)
    requires p.cap >= DUST && share >= DUST
    ensures Settle(p, share) >= DUST
  {
    var capped := if share > p.cap then p.cap else share;
    assert (capped * 100000000.0).Floor >= 1;
  }

  /** Paying `j` equal players from a pool with a unit of dust for each. */
  lemma PaysEach(p: Params, pool: real, m: nat, j: nat)
    requires p.cap >= DUST && 1 <= j <= m && pool >= j as real * DUST
    ensures var paid := Payouts(p, pool, Ones(m), First(m, j).active);
            && (forall i :: 0 <= i < m ==> paid[i] >= if i < j then DUST else 0.0)
            && Sum(paid) >= j as real * DUST
  {
    hide Settle, Portion, Sum;
    var paid := Payouts(p, pool, Ones(m), First(m, j).active);
    ActiveOnes(m, j);
    EqualShare(pool, j);
    SettlesAtLeastDust(p, Portion(pool, 1.0, j as real));
    assert j as real * DUST > 0.0;
    forall i | 0 <= i < m ensures paid[i] >= if i < j then DUST else 0.0 {
      PayListAt(p, pool, j as real, Ones(m), First(m, j).active, i);
    }
    SumOfFirst(paid, j, DUST);
  }

  /** One more epoch at the end of a run. */
  lemma OneMoreRow(p: Params, scores: seq<real>, draws: seq<Draw>, d: Draw)
    requires AllFit(scores, draws) && |d.active| == |d.buys| == |scores|
    ensures AllFit(scores, draws + [d])
    ensures After(p, scores, draws + [d]) == Epoch(p, scores, After(p, scores, draws), d).0
    ensures Total(Stats(p, scores, draws + [d]), Distributed)
            == Total(Stats(p, scores, draws), Distributed) + Epoch(p, scores, After(p, scores, draws), d).1.distributed
  {
    hide Epoch, Total;
    var more := draws + [d];
    assert more[..|more| - 1] == draws;
    TotalGrows(p, scores, more, Distributed);
  }

  function Idle(m: nat, n: nat): (draws: seq<Draw>)
    ensures |draws| == n && AllFit(Ones(m), draws)
  {
    seq(n, _ => First(m, 0))
  }

  /** With nobody active the pool only fills. */
  lemma {:induction false} IdleEpochs(p: Params, m: nat, n: nat)
    ensures After(p, Ones(m), Idle(m, n)) == Sim(p.seedPool + FundedBy(p, n), Zeros(m))
    ensures Total(Stats(p, Ones(m), Idle(m, n)), Distributed) == 0.0
  {
    hide FundedBy, Funding, After, Stats, Total, Idle;
    if n == 0 {
      NoEpochs(p, m);
    } else {
      IdleEpochs(p, m, n - 1);
      IdleGrows(m, n);
      OneMoreIdle(p, m, Idle(m, n - 1), n - 1);
    }
  }

  lemma IdleGrows(m: nat, n: nat)
    requires n >= 1
    ensures Idle(m, n) == Idle(m, n - 1) + [First(m, 0)]
  {
  }

  lemma OneMoreIdle(p: Params, m: nat, draws: seq<Draw>, n: nat)
    requires AllFit(Ones(m), draws)
    requires After(p, Ones(m), draws) == Sim(p.seedPool + FundedBy(p, n), Zeros(m))
    ensures AllFit(Ones(m), draws + [First(m, 0)])
    ensures After(p, Ones(m), draws + [First(m, 0)]) == Sim(p.seedPool + FundedBy(p, n + 1), Zeros(m))
    ensures Total(Stats(p, Ones(m), draws + [First(m, 0)]), Distributed) == Total(Stats(p, Ones(m), draws), Distributed)
  {
    hide Epoch, After, Stats, Total, FundedBy, Funding;
    OneMoreRow(p, Ones(m), draws, First(m, 0));
    OneMoreFunding(p, n);
    IdleEpoch(p, m, p.seedPool + FundedBy(p, n));
  }

  lemma NoEpochs(p: Params, m: nat)
    ensures After(p, Ones(m), Idle(m, 0)) == Sim(p.seedPool + FundedBy(p, 0), Zeros(m))
    ensures Total(Stats(p, Ones(m), Idle(m, 0)), Distributed) == 0.0
  {
    assert Idle(m, 0) == [];
  }

  lemma IdleEpoch(p: Params, m: nat, pool: real)
    ensures var (s, st) := Epoch(p, Ones(m), Sim(pool, Zeros(m)), First(m, 0));
            s == Sim(pool + Funding(p), Zeros(m)) && st.distributed == 0.0
  {
    hide Funding, Sum, Recycle, PayList;
    var before := pool + Funding(p);
    var d := First(m, 0);
    ActiveOnes(m, 0);
    var paid := Payouts(p, before, Ones(m), d.active);
    assert paid == Zeros(m);
    var earned := Plus(Zeros(m), paid);
    var spent := Spendings(p, earned, d);
    assert earned == Zeros(m) && spent == Zeros(m) && Minus(earned, spent) == Zeros(m);
    ZeroSum(Zeros(m));
    EpochMoves(p, Ones(m), Sim(pool, Zeros(m)), d);
    EpochReports(p, Ones(m), Sim(pool, Zeros(m)), d);
    NothingBack(p);
  }

  lemma NothingBack(p: Params)
    ensures Recycle(0.0, p.srr) == 0.0
  {
  }

  /** After `n - 1` idle epochs, everyone gets a unit of dust and spends it: how
      much is paid, and how much is left in the pool. */
  lemma FirstPayday(p: Params, m: nat, n: nat, j: nat)
    requires SaneParams(p) && p.cap >= DUST && n >= 1 && 1 <= j <= m
    requires p.seedPool + FundedBy(p, n) >= j as real * DUST
    ensures var draws := Idle(m, n - 1) + [First(m, j)];
            && AllFit(Ones(m), draws) && |draws| == n
            && Total(Stats(p, Ones(m), draws), Distributed) >= j as real * DUST
            && After(p, Ones(m), draws).pool >= Recycle(j as real * Unit(p), p.srr)
            && (forall i :: 0 <= i < m ==> After(p, Ones(m), draws).held[i] >= 0.0)
  {
    hide Epoch, Payouts, Sum, Recycle, Spendings, Stats, Total;
    var s := Sim(p.seedPool + FundedBy(p, n - 1), Zeros(m));
    IdleEpochs(p, m, n - 1);
    OneMoreFunding(p, n - 1);
    OneMoreRow(p, Ones(m), Idle(m, n - 1), First(m, j));
    EpochReports(p, Ones(m), s, First(m, j));
    EpochMoves(p, Ones(m), s, First(m, j));
    var pool := p.seedPool + FundedBy(p, n);
    PaysEach(p, pool, m, j);
    FundedSign(p, n);
    PayoutsWithinPool(p, pool, Ones(m), First(m, j).active);
    var paid := Payouts(p, pool, Ones(m), First(m, j).active);
    SpendsEach(p, m, j, Plus(Zeros(m), paid));
    RecycleMonotone(j as real * Unit(p), Sum(Spendings(p, Plus(Zeros(m), paid), First(m, j))), p.srr);
    AlwaysSolvent(p, Ones(m), Idle(m, n - 1) + [First(m, j)]);
  }

  lemma FundedPositive(p: Params, n: nat)
    requires Funding(p) > 0.0 && n >= 1
    ensures FundedBy(p, n) > 0.0
  {
  }

  lemma FundedSign(p: Params, n: nat)
    requires Funding(p) >= 0.0
    ensures FundedBy(p, n) >= 0.0
  {
  }

  /** What a buyer who holds a unit of dust spends at least. */
  function Unit(p: Params): real {
    if p.basket <= 0.0 then 0.0 else if p.basket < DUST then p.basket else DUST
  }

  lemma SpendsEach(p: Params, m: nat, j: nat, held: seq<real>)
    requires j <= m == |held| && forall i :: 0 <= i < m ==> held[i] >= if i < j then DUST else 0.0
    ensures Sum(Spendings(p, held, First(m, j))) >= j as real * Unit(p)
  {
    SumOfFirst(Spendings(p, held, First(m, j)), j, Unit(p));
  }

  lemma RecycleMonotone(a: real, b: real, srr: real)
    requires a <= b && srr >= 0.0
    ensures Recycle(a, srr) <= Recycle(b, srr)
  {
    assert (b - a) * srr >= 0.0;
    assert (b - a) * srr == b * srr - a * srr;
  }

  /** One more epoch in which `j` players are paid. */
  lemma NextPayday(p: Params, m: nat, draws: seq<Draw>, j: nat)
    requires SaneParams(p) && p.cap >= DUST && AllFit(Ones(m), draws) && 1 <= j <= m
    requires After(p, Ones(m), draws).pool + Funding(p) >= j as real * DUST
    ensures AllFit(Ones(m), draws + [First(m, j)])
    ensures Total(Stats(p, Ones(m), draws + [First(m, j)]), Distributed)
            >= Total(Stats(p, Ones(m), draws), Distributed) + j as real * DUST
  {
    hide Epoch, Payouts, Sum, Recycle, Spendings, Stats, Total;
    var s := After(p, Ones(m), draws);
    OneMoreRow(p, Ones(m), draws, First(m, j));
    EpochReports(p, Ones(m), s, First(m, j));
    PaysEach(p, s.pool + Funding(p), m, j);
  }

  /** Enough steps of any positive size pass any mark. */
  lemma Reach(size: real, mark: real) returns (n: nat)
    requires size > 0.0
    ensures n >= 1 && n as real * size >= mark
  {
    var steps := mark / size;
    n := if steps <= 0.0 then 1 else steps.Floor + 1;
    assert n as real >= steps;
    assert (n as real - steps) * size >= 0.0;
    assert steps * size == mark;
    assert (n as real - steps) * size == n as real * size - steps * size;
  }

  /** The units of dust in an amount. */
  function Units(x: real): (k: nat)
    requires x >= 0.0
    ensures k as real * DUST == Floor8(x) && k as real * DUST <= x < k as real * DUST + DUST
  {
    Floor8Bounds(x);
    (x * 100000000.0).Floor
  }

  lemma OverOne(p: Params, scores: seq<real>, draws: seq<Draw>)
    requires Funding(p) > 0.0 && AllFit(scores, draws) && draws != []
    requires Total(Stats(p, scores, draws), Distributed) > FundedBy(p, |draws|)
    ensures Utilization(Stats(p, scores, draws)) > 1.0
  {
    FundedTotal(p, scores, draws);
    hide Stats, Total, FundedBy, Funding;
    FundedPositive(p, |draws|);
    AtMostOne(Total(Stats(p, scores, draws), Distributed), FundedBy(p, |draws|));
  }

  /** A seed that completes a unit of dust is paid out beyond the funding. */
  lemma SeedIsPaidOut(p: Params, n: nat) returns (scores: seq<real>, draws: seq<Draw>)
    requires SaneParams(p) && Funding(p) > 0.0 && p.cap >= DUST && n >= 1
    requires Floor8(p.seedPool + FundedBy(p, n)) > FundedBy(p, n)
    ensures Positive(scores) && AllFit(scores, draws) && Utilization(Stats(p, scores, draws)) > 1.0
  {
    hide Utilization, Stats, Total, Floor8;
    FundedSign(p, n);
    var j := Units(p.seedPool + FundedBy(p, n));
    scores, draws := Ones(j), Idle(j, n - 1) + [First(j, j)];
    FirstPayday(p, j, n, j);
    OverOne(p, scores, draws);
  }

  /** Recycled spend is paid out beyond the funding, once enough has been spent. */
  lemma RecyclingIsPaidOut(p: Params) returns (scores: seq<real>, draws: seq<Draw>)
    requires SaneParams(p) && Funding(p) > 0.0 && p.cap >= DUST && p.srr > 0.0 && p.basket > 0.0
    ensures Positive(scores) && AllFit(scores, draws) && Utilization(Stats(p, scores, draws)) > 1.0
  {
    hide Utilization, Stats, Total, Floor8;
    var k, n := EnoughEpochs(p);
    FundedSign(p, n);
    var seeded := p.seedPool + FundedBy(p, n);
    var j1, j2 := Units(seeded), Units(Funding(p)) + 2;
    UnitsAtLeast(seeded, k);
    TwoMoreUnits(Funding(p));
    EnoughComesBack(p, k, j1);
    var m := j1 + j2;
    scores := Ones(m);
    var first := Idle(m, n - 1) + [First(m, j1)];
    FirstPayday(p, m, n, j1);
    hide FundedBy, Recycle, Units, Unit, Funding;
    NextPayday(p, m, first, j2);
    draws := first + [First(m, j2)];
    OneMoreFunding(p, n);
    OverOne(p, scores, draws);
  }

  /** How many players must spend, and how many epochs fund them. */
  lemma EnoughEpochs(p: Params) returns (k: nat, n: nat)
    requires Funding(p) > 0.0 && p.srr > 0.0 && p.basket > 0.0
    ensures k >= 1 && k as real * Recycle(Unit(p), p.srr) >= 2.0 * DUST
    ensures n >= 1 && FundedBy(p, n) >= DustOf(k)
  {
    assert Recycle(Unit(p), p.srr) > 0.0;
    k := Reach(Recycle(Unit(p), p.srr), 2.0 * DUST);
    n := Reach(Funding(p), DustOf(k));
  }

  lemma UnitsAtLeast(x: real, k: nat)
    requires x >= DustOf(k) && x >= 0.0
    ensures Units(x) >= k
  {
  }

  lemma TwoMoreUnits(x: real)
    requires x >= 0.0
    ensures (Units(x) + 2) as real * DUST == Units(x) as real * DUST + 2.0 * DUST
  {
  }

  lemma EnoughComesBack(p: Params, k: nat, j: nat)
    requires p.srr > 0.0 && p.basket > 0.0 && k <= j && k as real * Recycle(Unit(p), p.srr) >= 2.0 * DUST
    ensures Recycle(j as real * Unit(p), p.srr) >= 2.0 * DUST
  {
    var u := Recycle(Unit(p), p.srr);
    assert j as real * Unit(p) * p.srr == j as real * u;
    assert (j as real - k as real) * u >= 0.0;
    assert (j as real - k as real) * u == j as real * u - k as real * u;
  }

  // ---------------------------------------------------------------------
  // The smallest case
  // ---------------------------------------------------------------------

  /** No seed, one unit of funding an epoch, half of all spend recycled. */
  const HALF_BACK := Params(1.0, 1.0, 1.0, 10.0, 0.0, 10.0, 0.5)

  const SOLE_BUYER := Draw([true], [true])

  lemma SoleBuyerEpoch(pool: real)
    requires 0.0 <= pool <= 9.0 && WholeDust(pool + 1.0)
    ensures var (s, st) := Epoch(HALF_BACK, [1.0], Sim(pool, [0.0]), SOLE_BUYER);
            s == Sim((pool + 1.0) / 2.0, [0.0]) && st.distributed == pool + 1.0
  {
    var before := pool + 1.0;
    assert Funding(HALF_BACK) == 1.0;
    SoleBuyerPaid(before);
    SumOfOne(before);
    assert Recycle(before, 0.5) == before / 2.0;
    hide Payouts, Funding, Recycle, Sum, WholeDust;
    assert Plus([0.0], [before]) == [before];
    assert Spendings(HALF_BACK, [before], SOLE_BUYER) == [before];
    assert Minus([before], [before]) == [0.0];
  }

  /** The only player gets the whole pool. */
  lemma SoleBuyerPaid(before: real)
    requires 0.0 < before <= 10.0 && WholeDust(before)
    ensures Payouts(HALF_BACK, before, [1.0], [true]) == [before]
  {
    assert ActiveScores([1.0], [true]) == [1.0];
    SumOfOne(1.0);
    assert Portion(before, 1.0, 1.0) == before;
    assert Settle(HALF_BACK, before) == before;
    PayListAt(HALF_BACK, before, 1.0, [1.0], [true], 0);
    hide PayList, Portion, Settle;
  }

  lemma SumOfOne(x: real)
    ensures Sum([x]) == x
  {
    assert [x][..0] == [];
  }

  /** A player who spends all it gets: 2.5 distributed against 2 funded. */
  lemma TwoEpochsOverOne()
    ensures var stats := Stats(HALF_BACK, [1.0], [SOLE_BUYER, SOLE_BUYER]);
            Total(stats, Funded) == 2.0 && Total(stats, Distributed) == 2.5 && Utilization(stats) == 1.25
  {
    hide Epoch;
    var once, twice := [SOLE_BUYER], [SOLE_BUYER, SOLE_BUYER];
    assert [] + [SOLE_BUYER] == once && once + [SOLE_BUYER] == twice;
    assert Zeros(1) == [0.0] && After(HALF_BACK, [1.0], []) == Sim(0.0, [0.0]);
    SoleBuyerEpoch(0.0);
    SoleBuyerEpoch(0.5);
    OneMoreRow(HALF_BACK, [1.0], [], SOLE_BUYER);
    OneMoreRow(HALF_BACK, [1.0], once, SOLE_BUYER);
    FundedTotal(HALF_BACK, [1.0], twice);
  }

  /** Utilisation never passes one, whatever the players, epochs and draws, if and
      only if nothing is funded, or the cap is below a unit of dust, or nothing is
      recycled and the seed never completes a unit of dust. */
  lemma NeverOverOneExactlyWhen(p: Params)
    requires SaneParams(p)
    ensures NeverOverOne(p) <==>
              Funding(p) == 0.0 || p.cap < DUST || (NothingRecycled(p) && NoSpareDust(p))
  {
    hide Utilization, Stats, Floor8;
    if Funding(p) == 0.0 || p.cap < DUST || (NothingRecycled(p) && NoSpareDust(p)) {
      forall scores, draws | Positive(scores) && AllFit(scores, draws)
        ensures Utilization(Stats(p, scores, draws)) <= 1.0
      {
        InRange(p, scores, draws);
      }
    } else if !NothingRecycled(p) {
      var scores, draws := RecyclingIsPaidOut(p);
    } else {
      var n: nat :| n >= 1 && Floor8(p.seedPool + FundedBy(p, n)) > FundedBy(p, n);
      var scores, draws := SeedIsPaidOut(p, n);
    }
  }

  lemma InRange(p: Params, scores: seq<real>, draws: seq<Draw>)
    requires SaneParams(p) && Positive(scores) && AllFit(scores, draws)
    requires Funding(p) == 0.0 || p.cap < DUST || (NothingRecycled(p) && NoSpareDust(p))
    ensures Utilization(Stats(p, scores, draws)) <= 1.0
  {
    hide Stats, NoSpareDust, NothingRecycled;
    FundedTotal(p, scores, draws);
    var stats := Stats(p, scores, draws);
    if draws != [] && Total(stats, Funded) > 0.0 {
      if p.cap < DUST {
        NothingPaid(p, scores, draws);
      } else {
        WithinFunding(p, scores, draws);
      }
      AtMostOne(Total(stats, Distributed), Total(stats, Funded));
    }
  }
}
