/** Conservation and bounds of the reward-pool simulator, over any number of
    epochs and every sequence of draws. */
module CellEconomics {
  import opened CellSim

  datatype Column = Funded | Distributed | Spent | Recycled | StudioTake | PerActive | Players

  function Cell(st: EpochStat, c: Column): real {
    match c
    case Funded => st.funding
    case Distributed => st.distributed
    case Spent => st.marketSpent
    case Recycled => st.recycled
    case StudioTake => st.studioTake
    case PerActive => st.avgPerActive
    case Players => st.activePlayers as real
  }

  /** The sum of one column of the statistics. */
  function Total(stats: seq<EpochStat>, c: Column): real {
    if stats == [] then 0.0 else Total(stats[..|stats| - 1], c) + Cell(stats[|stats| - 1], c)
  }

  /** Totals after one more epoch. */
  lemma TotalGrows(p: Params, scores: seq<real>, draws: seq<Draw>, c: Column)
    requires AllFit(scores, draws) && draws != []
    ensures var n := |draws| - 1;
            Total(Stats(p, scores, draws), c) == Total(Stats(p, scores, draws[..n]), c)
              + Cell(Epoch(p, scores, After(p, scores, draws[..n]), draws[n]).1, c)
  {
    var n := |draws| - 1;
    assert Stats(p, scores, draws)[..n] == Stats(p, scores, draws[..n]);
  }

  // ---------------------------------------------------------------------
  // Conservation
  // ---------------------------------------------------------------------

  /** One epoch moves money between the pool, the players and the studio, and
      only funding adds any. */
  lemma EpochMoves(p: Params, scores: seq<real>, s: Sim, d: Draw)
    requires Fits(scores, s, d)
    ensures var (s', st) := Epoch(p, scores, s, d);
            && Sum(s'.held) == Sum(s.held) + st.distributed - st.marketSpent
            && s'.pool == s.pool + st.funding - st.distributed + st.recycled
            && st.studioTake == st.marketSpent - st.recycled
            && st.recycled == Recycle(st.marketSpent, p.srr)
  {
    var before := s.pool + Funding(p);
    var paid := Payouts(p, before, scores, d.active);
    HoldingsMove(p, s.held, paid, d);
    var spent := Spendings(p, Plus(s.held, paid), d);
    BooksMove(p, before, Sum(paid), Capped(p, before, scores, d.active), CountTrue(d.active), Sum(spent),
              Sum(Minus(Plus(s.held, paid), spent)));
  }

  lemma HoldingsMove(p: Params, held: seq<real>, paid: seq<real>, d: Draw)
    requires |held| == |paid| == |d.active| == |d.buys|
    ensures var spent := Spendings(p, Plus(held, paid), d);
            Sum(Minus(Plus(held, paid), spent)) == Sum(held) + Sum(paid) - Sum(spent)
  {
    SumPlus(held, paid);
    SumMinus(Plus(held, paid), Spendings(p, Plus(held, paid), d));
  }

  lemma BooksMove(p: Params, before: real, distributed: real, capped: nat, active: nat, spent: real, held: real)
    ensures var (pool, st) := Books(p, before, distributed, capped, active, spent, held);
            && pool == before - st.distributed + st.recycled
            && st.studioTake == st.marketSpent - st.recycled
            && st.recycled == Recycle(st.marketSpent, p.srr)
            && st.distributed == distributed && st.marketSpent == spent
            && st.funding == Funding(p) && st.poolAfter == before - distributed && st.playerHeld == held
  {
  }

  lemma NothingYet(p: Params, scores: seq<real>)
    ensures After(p, scores, []).pool == p.seedPool && Sum(After(p, scores, []).held) == 0.0
    ensures forall c :: Total(Stats(p, scores, []), c) == 0.0
  {
    ZeroSum(Zeros(|scores|));
  }

  /** Seed plus funding is pool plus holdings plus studio take, for all
      parameters and draws. */
  lemma {:induction false} Conservation(p: Params, scores: seq<real>, draws: seq<Draw>)
    requires AllFit(scores, draws)
    ensures var s, stats := After(p, scores, draws), Stats(p, scores, draws);
            p.seedPool + Total(stats, Funded) == s.pool + Sum(s.held) + Total(stats, StudioTake)
    decreases |draws|
  {
    hide Epoch, Sum, Total, Stats, Recycle;
    if draws == [] {
      NothingYet(p, scores);
    } else {
      var n := |draws| - 1;
      Conservation(p, scores, draws[..n]);
      EpochMoves(p, scores, After(p, scores, draws[..n]), draws[n]);
      TotalGrows(p, scores, draws, Funded);
      TotalGrows(p, scores, draws, StudioTake);
    }
  }

  /** The same in the columns the tool prints: the last epoch's closing pool,
      recycled spend and player holdings, and the studio's take so far. */
  lemma ConservationInPrint(p: Params, scores: seq<real>, draws: seq<Draw>)
    requires AllFit(scores, draws) && draws != []
    ensures var stats := Stats(p, scores, draws);
            var last := stats[|stats| - 1];
            p.seedPool + Total(stats, Funded)
            == last.poolAfter + last.recycled + last.playerHeld + Total(stats, StudioTake)
  {
    Conservation(p, scores, draws);
  }

  // ---------------------------------------------------------------------
  // Payouts against the pool
  // ---------------------------------------------------------------------

  const DUST: real := 1.0 / 100000000.0

  lemma Floor8Bounds(x: real)
    ensures Floor8(x) <= x < Floor8(x) + DUST
  {
    var y := x * 100000000.0;
    assert y.Floor as real <= y < y.Floor as real + 1.0;
  }

  /** No account is paid above the cap, or less than nothing, or above its share;
      an uncapped one loses less than one unit of dust. */
  lemma SettleBounds(p: Params, share: real)
    ensures 0.0 <= Settle(p, share)
    ensures Settle(p, share) <= if p.cap > 0.0 then p.cap else 0.0
    ensures share >= 0.0 ==> Settle(p, share) <= share
    ensures 0.0 <= share <= p.cap ==> share - Settle(p, share) < DUST
  {
    Floor8Bounds(share);
    Floor8Bounds(p.cap);
  }

  lemma PortionAdds(pool: real, a: real, b: real, total: real)
    requires total > 0.0
    ensures Portion(pool, a + b, total) == Portion(pool, a, total) + Portion(pool, b, total)
  {
    assert (a + b) / total == a / total + b / total;
  }

  lemma PortionSigns(pool: real, a: real, total: real)
    requires total > 0.0 && pool > 0.0
    ensures a >= 0.0 ==> Portion(pool, a, total) >= 0.0
    ensures Portion(pool, total, total) == pool && Portion(pool, 0.0, total) == 0.0
  {
    assert total / total == 1.0;
    if a >= 0.0 {
      assert a / total >= 0.0;
    }
  }

  predicate Positive(scores: seq<real>) {
    forall i :: 0 <= i < |scores| ==> scores[i] > 0.0
  }

  lemma ActivePrefix(scores: seq<real>, active: seq<bool>, n: nat)
    requires |scores| == |active| == n + 1
    ensures Sum(ActiveScores(scores, active))
            == Sum(ActiveScores(scores[..n], active[..n])) + (if active[n] then scores[n] else 0.0)
  {
    assert ActiveScores(scores, active)[..n] == ActiveScores(scores[..n], active[..n]);
  }

  /** Payouts never exceed the portion their scores stand for, and when nobody is
      capped they fall short of it by less than a unit of dust per account. */
  lemma {:induction false} PayListBounds(p: Params, pool: real, total: real, scores: seq<real>, active: seq<bool>)
    requires |scores| == |active| && total > 0.0 && pool > 0.0 && Positive(scores)
    ensures var gap := Portion(pool, Sum(ActiveScores(scores, active)), total)
                       - Sum(PayList(p, pool, total, scores, active));
            && gap >= 0.0
            && (CapCount(p, pool, total, scores, active) == 0 ==> gap <= DustOf(CountTrue(active)))
            && (CapCount(p, pool, total, scores, active) == 0 && CountTrue(active) > 0
                ==> gap < DustOf(CountTrue(active)))
    decreases |scores|
  {
    hide Portion, Settle, Sum, DustOf;
    PortionSigns(pool, 0.0, total);
    if scores == [] {
      NoSums(scores, active);
    } else {
      var n := |scores| - 1;
      PayListBounds(p, pool, total, scores[..n], active[..n]);
      ActivePrefix(scores, active, n);
      var pay := if active[n] then Payout(p, pool, scores[n], total) else 0.0;
      SumAppend(PayList(p, pool, total, scores[..n], active[..n]), pay);
      PortionAdds(pool, Sum(ActiveScores(scores[..n], active[..n])), scores[n], total);
      PortionSigns(pool, scores[n], total);
      SettleBounds(p, Portion(pool, scores[n], total));
      DustAdds(CountTrue(active[..n]));
    }
  }

  /** A unit of dust for each of `n` accounts. */
  function DustOf(n: nat): real {
    n as real * DUST
  }

  lemma DustAdds(n: nat)
    ensures DustOf(n + 1) == DustOf(n) + DUST
  {
  }

  lemma NoSums(scores: seq<real>, active: seq<bool>)
    requires scores == [] && active == []
    ensures Sum([]) == 0.0 && Sum(ActiveScores(scores, active)) == 0.0 && DustOf(CountTrue(active)) == 0.0
  {
  }

  /** An epoch distributes at most its pool. */
  lemma PayoutsWithinPool(p: Params, pool: real, scores: seq<real>, active: seq<bool>)
    requires |scores| == |active| && pool >= 0.0 && Positive(scores)
    ensures Sum(Payouts(p, pool, scores, active)) <= pool
  {
    var total := Sum(ActiveScores(scores, active));
    if Shares(pool, scores, active) {
      PayListBounds(p, pool, total, scores, active);
      PortionSigns(pool, total, total);
    } else {
      ZeroSum(Zeros(|scores|));
    }
  }

  /** In an epoch with something to share and no capped account, what stays
      behind is less than a unit of dust per active player. */
  lemma RemainderIsDust(p: Params, pool: real, scores: seq<real>, active: seq<bool>)
    requires |scores| == |active| && Positive(scores) && Shares(pool, scores, active)
    requires Capped(p, pool, scores, active) == 0
    ensures 0.0 <= pool - Sum(Payouts(p, pool, scores, active)) < CountTrue(active) as real * DUST
  {
    var total := Sum(ActiveScores(scores, active));
    PayListBounds(p, pool, total, scores, active);
    PortionSigns(pool, total, total);
    if CountTrue(active) == 0 {
      NobodyActive(scores, active);
    }
  }

  lemma {:induction false} NobodyActive(scores: seq<real>, active: seq<bool>)
    requires |scores| == |active| && CountTrue(active) == 0
    ensures Sum(ActiveScores(scores, active)) == 0.0
    decreases |scores|
  {
    if scores != [] {
      var n := |scores| - 1;
      NobodyActive(scores[..n], active[..n]);
      ActivePrefix(scores, active, n);
    }
  }

  /** Every payout is between nothing and the cap. */
  lemma PayoutsWithinCap(p: Params, pool: real, scores: seq<real>, active: seq<bool>, i: nat)
    requires |scores| == |active| && i < |scores|
    ensures 0.0 <= Payouts(p, pool, scores, active)[i] <= if p.cap > 0.0 then p.cap else 0.0
  {
    if Shares(pool, scores, active) {
      var total := Sum(ActiveScores(scores, active));
      PayListAt(p, pool, total, scores, active, i);
      SettleBounds(p, Portion(pool, scores[i], total));
    }
  }

  // ---------------------------------------------------------------------
  // Every run
  // ---------------------------------------------------------------------

  /** Nothing negative goes in. */
  predicate Sane(p: Params, scores: seq<real>) {
    p.seedPool >= 0.0 && Funding(p) >= 0.0 && p.srr >= 0.0 && Positive(scores)
  }

  predicate Solvent(s: Sim) {
    s.pool >= 0.0 && forall i :: 0 <= i < |s.held| ==> s.held[i] >= 0.0
  }

  lemma EpochKeepsSolvent(p: Params, scores: seq<real>, s: Sim, d: Draw)
    requires Sane(p, scores) && Fits(scores, s, d) && Solvent(s)
    ensures Solvent(Epoch(p, scores, s, d).0)
  {
    hide Payouts, Sum;
    var before := s.pool + Funding(p);
    PayoutsWithinPool(p, before, scores, d.active);
    EpochMoves(p, scores, s, d);
    var paid := Payouts(p, before, scores, d.active);
    var earned := Plus(s.held, paid);
    forall i | 0 <= i < |earned| ensures earned[i] >= 0.0 {
      PayoutsWithinCap(p, before, scores, d.active, i);
    }
    var spent := Spendings(p, earned, d);
    forall i | 0 <= i < |spent| ensures 0.0 <= spent[i] <= earned[i] {
    }
    SumNonNegative(spent);
    RecycleSign(Sum(spent), p.srr);
  }

  lemma RecycleSign(spent: real, srr: real)
    requires spent >= 0.0 && srr >= 0.0
    ensures Recycle(spent, srr) >= 0.0
  {
  }

  lemma {:induction false} AlwaysSolvent(p: Params, scores: seq<real>, draws: seq<Draw>)
    requires Sane(p, scores) && AllFit(scores, draws)
    ensures Solvent(After(p, scores, draws))
    decreases |draws|
  {
    if draws != [] {
      var n := |draws| - 1;
      AlwaysSolvent(p, scores, draws[..n]);
      EpochKeepsSolvent(p, scores, After(p, scores, draws[..n]), draws[n]);
    }
  }

  /** What the pool and the players hold, in running totals. */
  lemma {:induction false} RunningTotals(p: Params, scores: seq<real>, draws: seq<Draw>)
    requires AllFit(scores, draws)
    ensures var s, stats := After(p, scores, draws), Stats(p, scores, draws);
            && Sum(s.held) == Total(stats, Distributed) - Total(stats, Spent)
            && s.pool == p.seedPool + Total(stats, Funded) - Total(stats, Distributed) + Total(stats, Recycled)
    decreases |draws|
  {
    hide Epoch;
    if draws == [] {
      ZeroSum(Zeros(|scores|));
    } else {
      var n := |draws| - 1;
      RunningTotals(p, scores, draws[..n]);
      EpochMoves(p, scores, After(p, scores, draws[..n]), draws[n]);
      TotalGrows(p, scores, draws, Funded);
      TotalGrows(p, scores, draws, Distributed);
      TotalGrows(p, scores, draws, Spent);
      TotalGrows(p, scores, draws, Recycled);
    }
  }

  /** Every epoch recycles the same fraction of its spend. */
  lemma {:induction false} EveryEpochRecycles(p: Params, scores: seq<real>, draws: seq<Draw>, k: nat)
    requires AllFit(scores, draws) && k < |draws|
    ensures var st := Stats(p, scores, draws)[k]; st.recycled == Recycle(st.marketSpent, p.srr)
    decreases |draws|
  {
    hide Epoch;
    var n := |draws| - 1;
    if k < n {
      EveryEpochRecycles(p, scores, draws[..n], k);
    } else {
      EpochMoves(p, scores, After(p, scores, draws[..n]), draws[n]);
    }
  }

  /** The recycled total is the spent total at the recycling rate. */
  lemma {:induction false} RecycledTotal(stats: seq<EpochStat>, srr: real)
    requires forall k :: 0 <= k < |stats| ==> stats[k].recycled == Recycle(stats[k].marketSpent, srr)
    ensures Total(stats, Recycled) == Recycle(Total(stats, Spent), srr)
  {
    if stats != [] {
      var n := |stats| - 1;
      RecycledTotal(stats[..n], srr);
      RecycleAdds(Total(stats[..n], Spent), stats[n].marketSpent, srr);
    }
  }

  /** Players cannot spend what was not distributed, and the pool cannot
      distribute what it did not receive. */
  lemma TotalsOrdered(p: Params, scores: seq<real>, draws: seq<Draw>)
    requires Sane(p, scores) && AllFit(scores, draws)
    ensures var stats := Stats(p, scores, draws);
            && Total(stats, Spent) <= Total(stats, Distributed)
            && Total(stats, Distributed) <= p.seedPool + Total(stats, Funded) + Recycle(Total(stats, Spent), p.srr)
  {
    AlwaysSolvent(p, scores, draws);
    SumNonNegative(After(p, scores, draws).held);
    RunningTotals(p, scores, draws);
    forall k | 0 <= k < |draws|
      ensures Stats(p, scores, draws)[k].recycled == Recycle(Stats(p, scores, draws)[k].marketSpent, p.srr)
    {
      EveryEpochRecycles(p, scores, draws, k);
    }
    RecycledTotal(Stats(p, scores, draws), p.srr);
  }

  lemma RecycleAdds(a: real, b: real, k: real)
    ensures Recycle(a + b, k) == Recycle(a, k) + Recycle(b, k)
  {
  }

  /** However long it runs, the pool cannot pay out more than what was put in,
      amplified by recycling. */
  lemma DistributionBound(p: Params, scores: seq<real>, draws: seq<Draw>) returns (paid: real, received: real)
    requires Sane(p, scores) && p.srr < 1.0 && AllFit(scores, draws)
    ensures paid == Total(Stats(p, scores, draws), Distributed)
    ensures received == p.seedPool + Total(Stats(p, scores, draws), Funded)
    ensures paid <= received / (1.0 - p.srr)
  {
    hide Total, Stats, Recycle;
    TotalsOrdered(p, scores, draws);
    paid := Total(Stats(p, scores, draws), Distributed);
    received := p.seedPool + Total(Stats(p, scores, draws), Funded);
    Amplified(received, paid, Total(Stats(p, scores, draws), Spent), p.srr);
  }

  /** If `d` was paid out of `f` plus the recycled part of `m`, and no more than
      `d` was spent, then `d` is bounded by the amplified `f`. */
  lemma Amplified(f: real, d: real, m: real, k: real)
    requires 0.0 <= k < 1.0 && m <= d && d <= f + Recycle(m, k)
    ensures d <= f / (1.0 - k)
  {
    ProductSign(d - m, k);
    ProductSpreads(d, m, k);
    DivideBound(d, f, 1.0 - k);
  }

  lemma ProductSign(a: real, b: real)
    requires a >= 0.0 && b >= 0.0
    ensures a * b >= 0.0
  {
  }

  lemma ProductSpreads(d: real, m: real, k: real)
    ensures (d - m) * k == d * k - m * k && d * (1.0 - k) == d - d * k
  {
  }

  lemma DivideBound(d: real, f: real, k: real)
    requires k > 0.0 && d * k <= f
    ensures d <= f / k
  {
    assert d == d * k / k;
    assert (f - d * k) / k >= 0.0;
  }

  // ---------------------------------------------------------------------
  // One epoch's row
  // ---------------------------------------------------------------------

  /** The funding is the pool's share of the revenue at the price, or nothing. */
  lemma FundingBuysAtPrice(p: Params)
    ensures p.price > 0.0 ==> Funding(p) * p.price == p.revenue * p.rpfr
    ensures p.price <= 0.0 ==> Funding(p) == 0.0
  {
    if p.price > 0.0 {
      var x := p.revenue * p.rpfr;
      assert x / p.price * p.price == x;
    }
  }

  function Buyers(d: Draw): nat
    requires |d.active| == |d.buys|
    decreases |d.active|
  {
    if d.active == [] then 0
    else
      var n := |d.active| - 1;
      Buyers(Draw(d.active[..n], d.buys[..n])) + (if d.active[n] && d.buys[n] then 1 else 0)
  }

  /** In an epoch, whoever is no active buyer keeps what it has with its payout, and a
      buyer gives up a whole basket of it, or all. */
  lemma EpochPurchases(p: Params, scores: seq<real>, s: Sim, d: Draw, i: nat)
    requires Fits(scores, s, d) && i < |scores|
    ensures var earned := s.held[i] + Payouts(p, s.pool + Funding(p), scores, d.active)[i];
            var left := Epoch(p, scores, s, d).0.held[i];
            if d.active[i] && d.buys[i] && p.basket > 0.0 && earned >= 0.0 then Bought(p.basket, earned, left)
            else earned >= 0.0 ==> left == earned
  {
    hide Payouts, Sum, Funding, Recycle;
  }

  /** So many baskets. */
  function Baskets(p: Params, n: nat): real {
    n as real * p.basket
  }

  lemma OneMoreBasket(p: Params, n: nat)
    ensures Baskets(p, n + 1) == Baskets(p, n) + p.basket
  {
  }

  /** The market takes at most a basket from every active buyer. */
  lemma {:induction false} SpentWithinBaskets(p: Params, held: seq<real>, d: Draw)
    requires |held| == |d.active| == |d.buys| && p.basket >= 0.0
    ensures Sum(Spendings(p, held, d)) <= Baskets(p, Buyers(d))
    decreases |held|
  {
    if held == [] {
      assert Baskets(p, 0) == 0.0;
    } else {
      hide Baskets;
      var n := |held| - 1;
      var less := Draw(d.active[..n], d.buys[..n]);
      SpentWithinBaskets(p, held[..n], less);
      assert Spendings(p, held, d)[..n] == Spendings(p, held[..n], less);
      assert Spendings(p, held, d)[n] <= if d.active[n] && d.buys[n] then p.basket else 0.0;
      OneMoreBasket(p, Buyers(less));
      hide Spendings;
    }
  }

  lemma EpochSpentWithinBaskets(p: Params, scores: seq<real>, s: Sim, d: Draw)
    requires Fits(scores, s, d) && p.basket >= 0.0
    ensures Epoch(p, scores, s, d).1.marketSpent <= Buyers(d) as real * p.basket
  {
    hide Payouts, Sum, Funding, Recycle, Buyers;
    SpentWithinBaskets(p, Plus(s.held, Payouts(p, s.pool + Funding(p), scores, d.active)), d);
  }

  /** How the columns of a row hang together. */
  lemma RowAddsUp(p: Params, scores: seq<real>, s: Sim, d: Draw)
    requires Fits(scores, s, d)
    ensures var (s', st) := Epoch(p, scores, s, d);
            && st.poolBefore == s.pool + st.funding && st.poolAfter == st.poolBefore - st.distributed
            && s'.pool == st.poolAfter + st.recycled && st.playerHeld == Sum(s'.held)
            && st.marketSpent == st.recycled + st.studioTake && st.activePlayers == CountTrue(d.active)
            && st.avgPerActive * st.activePlayers as real == (if st.activePlayers > 0 then st.distributed else 0.0)
  {
    hide Payouts, Sum, Funding, Recycle, Spendings, CountTrue;
    var st := Epoch(p, scores, s, d).1;
    if st.activePlayers > 0 {
      QuotientTimes(st.distributed, st.activePlayers as real);
    }
  }

  lemma QuotientTimes(x: real, n: real)
    requires n > 0.0
    ensures x / n * n == x
  {
  }

  /** Nobody is counted as capped if and only if every active account's proportional
      share is within the cap. */
  lemma NobodyCappedExactlyWhen(p: Params, pool: real, scores: seq<real>, active: seq<bool>)
    requires |scores| == |active| && Shares(pool, scores, active)
    ensures var total := Sum(ActiveScores(scores, active));
            Capped(p, pool, scores, active) == 0 <==>
              forall i :: 0 <= i < |scores| && active[i] ==> pool * (scores[i] / total) <= p.cap
  {
    hide Portion, Sum;
    var total := Sum(ActiveScores(scores, active));
    CapCountZero(p, pool, total, scores, active);
    forall i | 0 <= i < |scores| ensures Portion(pool, scores[i], total) == pool * (scores[i] / total) {
      PortionIs(pool, scores[i], total);
    }
  }

  lemma PortionIs(pool: real, score: real, total: real)
    requires total > 0.0
    ensures Portion(pool, score, total) == pool * (score / total)
  {
  }

  lemma {:induction false} CapCountZero(p: Params, pool: real, total: real, scores: seq<real>, active: seq<bool>)
    requires |scores| == |active| && total > 0.0
    ensures CapCount(p, pool, total, scores, active) == 0 <==>
              forall i :: 0 <= i < |scores| && active[i] ==> Portion(pool, scores[i], total) <= p.cap
    decreases |scores|
  {
    hide Portion;
    if scores != [] {
      var n := |scores| - 1;
      CapCountZero(p, pool, total, scores[..n], active[..n]);
    }
  }

  // ---------------------------------------------------------------------
  // The summary
  // ---------------------------------------------------------------------

  datatype Verdict = Unknown | Stalled | OverFunded | UnderFunded | Sustainable

  datatype Summary = Summary(avgPerActive: real, avgActive: real, finalPool: real, totalFunded: real,
                             totalDistributed: real, utilization: real, studioTake: real, verdict: Verdict)

  function Judge(p: Params, avgActive: real, avgPerActive: real, finalPool: real): Verdict {
    var capacity := p.cap * avgActive;
    if avgActive == 0.0 then Stalled
    else if capacity > 0.0 && finalPool > 3.0 * capacity then OverFunded
    else if avgPerActive < 0.02 * p.cap then UnderFunded
    else Sustainable
  }

  /** Distributed per funded, as the summary reports it. */
  function Utilization(stats: seq<EpochStat>): real {
    var funded := Total(stats, Funded);
    if funded > 0.0 then Total(stats, Distributed) / funded else 0.0
  }

  /** The accumulating loop of the summary. */
  method Summarize(p: Params, stats: seq<EpochStat>) returns (s: Summary)
    ensures stats == [] ==> s == Summary(0.0, 0.0, 0.0, 0.0, 0.0, 0.0, 0.0, Unknown)
    ensures stats != [] ==>
              && s.totalFunded == Total(stats, Funded) && s.totalDistributed == Total(stats, Distributed)
              && s.studioTake == Total(stats, StudioTake) && s.finalPool == stats[|stats| - 1].poolAfter
              && s.avgPerActive == Total(stats, PerActive) / |stats| as real
              && s.avgActive == Total(stats, Players) / |stats| as real
              && s.utilization == Utilization(stats)
              && s.verdict == Judge(p, s.avgActive, s.avgPerActive, s.finalPool)
  {
    if |stats| == 0 {
      return Summary(0.0, 0.0, 0.0, 0.0, 0.0, 0.0, 0.0, Unknown);
    }
    var funded, distributed, studio, sumAvg, sumActive := 0.0, 0.0, 0.0, 0.0, 0.0;
    for i := 0 to |stats|
      invariant funded == Total(stats[..i], Funded) && distributed == Total(stats[..i], Distributed)
      invariant studio == Total(stats[..i], StudioTake)
      invariant sumAvg == Total(stats[..i], PerActive) && sumActive == Total(stats[..i], Players)
    {
      assert stats[..i + 1][..i] == stats[..i];
      funded := funded + stats[i].funding;
      distributed := distributed + stats[i].distributed;
      studio := studio + stats[i].studioTake;
      sumAvg := sumAvg + stats[i].avgPerActive;
      sumActive := sumActive + stats[i].activePlayers as real;
    }
    assert stats[..|stats|] == stats;
    var n := |stats| as real;
    var finalPool := stats[|stats| - 1].poolAfter;
    var utilization := if funded > 0.0 then distributed / funded else 0.0;
    s := Summary(sumAvg / n, sumActive / n, finalPool, funded, distributed, utilization, studio,
                 Judge(p, sumActive / n, sumAvg / n, finalPool));
  }

  /** The verdict in terms of the totals: over `n` epochs with `players` active turns in
      all and `perActive` the sum of the averages. */
  lemma VerdictExactlyWhen(p: Params, n: real, players: real, perActive: real, finalPool: real)
    requires n > 0.0 && players >= 0.0
    ensures var v := Judge(p, players / n, perActive / n, finalPool);
            var over := p.cap > 0.0 && finalPool * n > 3.0 * (p.cap * players);
            && v != Unknown
            && (v == Stalled <==> players == 0.0)
            && (v == OverFunded <==> players > 0.0 && over)
            && (v == UnderFunded <==> players > 0.0 && !over && perActive < 0.02 * p.cap * n)
            && (v == Sustainable <==> players > 0.0 && !over && perActive >= 0.02 * p.cap * n)
  {
    QuotientSign(players, n);
    var avg := players / n;
    QuotientTimes(players, n);
    ScaledAbove(finalPool, 3.0 * (p.cap * avg), n);
    assert 3.0 * (p.cap * avg) * n == 3.0 * (p.cap * (avg * n));
    if p.cap > 0.0 && avg > 0.0 {
      assert p.cap * avg > 0.0;
    } else if avg > 0.0 {
      assert -p.cap * avg >= 0.0;
    }
    QuotientTimes(perActive, n);
    ScaledAbove(0.02 * p.cap, perActive / n, n);
  }

  lemma QuotientSign(x: real, n: real)
    requires n > 0.0 && x >= 0.0
    ensures x / n >= 0.0 && (x / n == 0.0 <==> x == 0.0)
  {
    QuotientTimes(x, n);
  }

  lemma ScaledAbove(x: real, y: real, n: real)
    requires n > 0.0
    ensures x > y <==> x * n > y * n
  {
    assert (x - y) * n == x * n - y * n;
    if x > y {
      assert (x - y) * n > 0.0;
    } else {
      assert (y - x) * n >= 0.0;
    }
  }
}
