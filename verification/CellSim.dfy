/** The reward-pool simulator: each epoch funds a pool, pays it out in proportion
    to score under a per-account cap, and recycles part of what players spend.
    Amounts are real numbers; the random draws are inputs. */
module CellSim {

  datatype Params = Params(revenue: real, price: real, rpfr: real, cap: real, seedPool: real,
                           basket: real, srr: real)

  /** One epoch's draws: who is active, and who of those buys. */
  datatype Draw = Draw(active: seq<bool>, buys: seq<bool>)

  datatype Sim = Sim(pool: real, held: seq<real>)

  datatype EpochStat = EpochStat(activePlayers: nat, funding: real, poolBefore: real, distributed: real,
                                 poolAfter: real, avgPerActive: real, capped: nat, marketSpent: real,
                                 recycled: real, studioTake: real, playerHeld: real)

  // ---------------------------------------------------------------------
  // Sums
  // ---------------------------------------------------------------------

  function Sum(xs: seq<real>): real {
    if xs == [] then 0.0 else Sum(xs[..|xs| - 1]) + xs[|xs| - 1]
  }

  function Plus(xs: seq<real>, ys: seq<real>): (zs: seq<real>)
    requires |xs| == |ys|
    ensures |zs| == |xs| && forall i :: 0 <= i < |xs| ==> zs[i] == xs[i] + ys[i]
  {
    seq(|xs|, i requires 0 <= i < |xs| => xs[i] + ys[i])
  }

  function Minus(xs: seq<real>, ys: seq<real>): (zs: seq<real>)
    requires |xs| == |ys|
    ensures |zs| == |xs| && forall i :: 0 <= i < |xs| ==> zs[i] == xs[i] - ys[i]
  {
    seq(|xs|, i requires 0 <= i < |xs| => xs[i] - ys[i])
  }

  lemma SumAppend(xs: seq<real>, x: real)
    ensures Sum(xs + [x]) == Sum(xs) + x
  {
    assert (xs + [x])[..|xs|] == xs;
  }

  lemma {:induction false} SumPlus(xs: seq<real>, ys: seq<real>)
    requires |xs| == |ys|
    ensures Sum(Plus(xs, ys)) == Sum(xs) + Sum(ys)
  {
    if xs != [] {
      var n := |xs| - 1;
      SumPlus(xs[..n], ys[..n]);
      assert Plus(xs, ys)[..n] == Plus(xs[..n], ys[..n]);
    }
  }

  lemma {:induction false} SumMinus(xs: seq<real>, ys: seq<real>)
    requires |xs| == |ys|
    ensures Sum(Minus(xs, ys)) == Sum(xs) - Sum(ys)
  {
    if xs != [] {
      var n := |xs| - 1;
      SumMinus(xs[..n], ys[..n]);
      assert Minus(xs, ys)[..n] == Minus(xs[..n], ys[..n]);
    }
  }

  lemma {:induction false} SumMonotone(xs: seq<real>, ys: seq<real>)
    requires |xs| == |ys| && forall i :: 0 <= i < |xs| ==> xs[i] <= ys[i]
    ensures Sum(xs) <= Sum(ys)
  {
    if xs != [] {
      var n := |xs| - 1;
      SumMonotone(xs[..n], ys[..n]);
    }
  }

  lemma {:induction false} SumNonNegative(xs: seq<real>)
    requires forall i :: 0 <= i < |xs| ==> xs[i] >= 0.0
    ensures Sum(xs) >= 0.0
  {
    if xs != [] {
      SumNonNegative(xs[..|xs| - 1]);
    }
  }

  // ---------------------------------------------------------------------
  // One epoch
  // ---------------------------------------------------------------------

  function Funding(p: Params): real {
    if p.price > 0.0 then p.revenue * p.rpfr / p.price else 0.0
  }

  function Floor8(x: real): real {
    (x * 100000000.0).Floor as real / 100000000.0
  }

  /** A proportional share of the pool, before the cap. */
  function Portion(pool: real, score: real, total: real): real
    requires total > 0.0
  {
    pool * (score / total)
  }

  /** A share clamped to the cap and floored to eight decimals. */
  function Settle(p: Params, share: real): real {
    var capped := if share > p.cap then p.cap else share;
    if Floor8(capped) <= 0.0 then 0.0 else Floor8(capped)
  }

  /** What one active account is paid when the active scores add up to `total`. */
  function Payout(p: Params, pool: real, score: real, total: real): real
    requires total > 0.0
  {
    Settle(p, Portion(pool, score, total))
  }

  predicate IsCapped(p: Params, pool: real, score: real, total: real)
    requires total > 0.0
  {
    Portion(pool, score, total) > p.cap
  }

  function ActiveScores(scores: seq<real>, active: seq<bool>): (xs: seq<real>)
    requires |scores| == |active|
    ensures |xs| == |scores| && forall i :: 0 <= i < |xs| ==> xs[i] == if active[i] then scores[i] else 0.0
  {
    seq(|scores|, i requires 0 <= i < |scores| => if active[i] then scores[i] else 0.0)
  }

  /** The payouts, account by account, when there is something to share. */
  function PayList(p: Params, pool: real, total: real, scores: seq<real>, active: seq<bool>): (xs: seq<real>)
    requires |scores| == |active| && total > 0.0
    ensures |xs| == |scores|
  {
    if scores == [] then []
    else
      var n := |scores| - 1;
      PayList(p, pool, total, scores[..n], active[..n])
      + [if active[n] then Payout(p, pool, scores[n], total) else 0.0]
  }

  function CapCount(p: Params, pool: real, total: real, scores: seq<real>, active: seq<bool>): nat
    requires |scores| == |active| && total > 0.0
  {
    if scores == [] then 0
    else
      var n := |scores| - 1;
      CapCount(p, pool, total, scores[..n], active[..n])
      + (if active[n] && IsCapped(p, pool, scores[n], total) then 1 else 0)
  }

  lemma {:induction false} PayListAt(p: Params, pool: real, total: real, scores: seq<real>, active: seq<bool>, i: nat)
    requires |scores| == |active| && total > 0.0 && i < |scores|
    ensures PayList(p, pool, total, scores, active)[i] == if active[i] then Payout(p, pool, scores[i], total) else 0.0
    decreases |scores|
  {
    var n := |scores| - 1;
    if i < n {
      PayListAt(p, pool, total, scores[..n], active[..n], i);
    }
  }

  predicate Shares(pool: real, scores: seq<real>, active: seq<bool>)
    requires |scores| == |active|
  {
    Sum(ActiveScores(scores, active)) > 0.0 && pool > 0.0
  }

  function Zeros(n: nat): (xs: seq<real>)
    ensures |xs| == n && forall i :: 0 <= i < n ==> xs[i] == 0.0
  {
    seq(n, _ => 0.0)
  }

  /** The payouts of an epoch; nobody is paid from an empty pool or for no score. */
  function Payouts(p: Params, pool: real, scores: seq<real>, active: seq<bool>): (xs: seq<real>)
    requires |scores| == |active|
    ensures |xs| == |scores|
  {
    if Shares(pool, scores, active)
    then PayList(p, pool, Sum(ActiveScores(scores, active)), scores, active)
    else Zeros(|scores|)
  }

  function Capped(p: Params, pool: real, scores: seq<real>, active: seq<bool>): nat
    requires |scores| == |active|
  {
    if Shares(pool, scores, active) then CapCount(p, pool, Sum(ActiveScores(scores, active)), scores, active) else 0
  }

  function Spending(p: Params, held: real): real {
    var spend := if p.basket > held then held else p.basket;
    if spend <= 0.0 then 0.0 else spend
  }

  function Spendings(p: Params, held: seq<real>, d: Draw): (xs: seq<real>)
    requires |held| == |d.active| == |d.buys|
    ensures |xs| == |held|
  {
    seq(|held|, i requires 0 <= i < |held| => if d.active[i] && d.buys[i] then Spending(p, held[i]) else 0.0)
  }

  function CountTrue(bs: seq<bool>): nat {
    if bs == [] then 0 else CountTrue(bs[..|bs| - 1]) + (if bs[|bs| - 1] then 1 else 0)
  }

  predicate Fits(scores: seq<real>, s: Sim, d: Draw) {
    |s.held| == |d.active| == |d.buys| == |scores|
  }

  /** The part of the spend that flows back into the pool. */
  function Recycle(spent: real, srr: real): real {
    spent * srr
  }

  /** The books of an epoch: the pool carried forward and the statistics. */
  function Books(p: Params, before: real, distributed: real, capped: nat, active: nat, spent: real, held: real)
    : (real, EpochStat)
  {
    var after := before - distributed;
    var recycled := Recycle(spent, p.srr);
    (after + recycled,
     EpochStat(active, Funding(p), before, distributed, after,
               if active > 0 then distributed / active as real else 0.0,
               capped, spent, recycled, spent - recycled, held))
  }

  function Epoch(p: Params, scores: seq<real>, s: Sim, d: Draw): (r: (Sim, EpochStat))
    requires Fits(scores, s, d)
    ensures |r.0.held| == |scores|
  {
    var before := s.pool + Funding(p);
    var paid := Payouts(p, before, scores, d.active);
    var earned := Plus(s.held, paid);
    var spent := Spendings(p, earned, d);
    var held := Minus(earned, spent);
    var (pool, st) := Books(p, before, Sum(paid), Capped(p, before, scores, d.active), CountTrue(d.active),
                            Sum(spent), Sum(held));
    (Sim(pool, held), st)
  }

  // ---------------------------------------------------------------------
  // The loops
  // ---------------------------------------------------------------------

  method TotalScore(scores: seq<real>, active: seq<bool>) returns (total: real, count: nat)
    requires |scores| == |active|
    ensures total == Sum(ActiveScores(scores, active)) && count == CountTrue(active)
  {
    total, count := 0.0, 0;
    for i := 0 to |scores|
      invariant total == Sum(ActiveScores(scores[..i], active[..i]))
      invariant count == CountTrue(active[..i])
    {
      assert ActiveScores(scores[..i + 1], active[..i + 1])[..i] == ActiveScores(scores[..i], active[..i]);
      assert active[..i + 1][..i] == active[..i];
      if active[i] {
        total, count := total + scores[i], count + 1;
      }
    }
    assert scores[..|scores|] == scores && active[..|scores|] == active;
  }

  method Clamp(p: Params, portion: real) returns (share: real, capped: bool)
    ensures share == Settle(p, portion) && capped == (portion > p.cap)
  {
    share, capped := portion, false;
    if share > p.cap {
      share, capped := p.cap, true;
    }
    share := Floor8(share);
    if share <= 0.0 {
      share := 0.0;
    }
  }

  /** One account's turn: its share, and one more capped account or none. */
  method ShareOf(p: Params, pool: real, total: real, score: real, active: bool) returns (share: real, capped: nat)
    requires total > 0.0
    ensures share == if active then Payout(p, pool, score, total) else 0.0
    ensures capped == if active && IsCapped(p, pool, score, total) then 1 else 0
  {
    if !active {
      return 0.0, 0;
    }
    var wasCapped;
    share, wasCapped := Clamp(p, Portion(pool, score, total));
    capped := if wasCapped then 1 else 0;
  }

  /** The payout loop: adds to the holdings in place. */
  method Distribute(p: Params, pool: real, scores: seq<real>, active: seq<bool>, total: real, held: array<real>)
    returns (distributed: real, capped: nat)
    requires held.Length == |scores| == |active|
    requires total > 0.0
    modifies held
    ensures held[..] == Plus(old(held[..]), PayList(p, pool, total, scores, active))
    ensures distributed == Sum(PayList(p, pool, total, scores, active))
    ensures capped == CapCount(p, pool, total, scores, active)
  {
    hide Payout, IsCapped, PayList, CapCount, Sum;
    distributed, capped := 0.0, 0;
    ghost var paid := PayList(p, pool, total, scores, active);
    EmptyTotals(p, pool, total, paid);
    for i := 0 to |scores|
      invariant distributed == Sum(paid[..i])
      invariant capped == CapCount(p, pool, total, scores[..i], active[..i])
      invariant forall k :: 0 <= k < i ==> held[k] == old(held[k]) + paid[k]
      invariant forall k :: i <= k < held.Length ==> held[k] == old(held[k])
    {
      PayListAt(p, pool, total, scores, active, i);
      SumStep(paid, i);
      CapCountStep(p, pool, total, scores, active, i);
      var share, one := ShareOf(p, pool, total, scores[i], active[i]);
      held[i] := held[i] + share;
      distributed, capped := distributed + share, capped + one;
    }
    assert scores[..|scores|] == scores && active[..|scores|] == active && paid[..|scores|] == paid;
  }

  lemma EmptyTotals(p: Params, pool: real, total: real, paid: seq<real>)
    requires total > 0.0
    ensures Sum(paid[..0]) == 0.0 && CapCount(p, pool, total, [], []) == 0
  {
  }

  lemma SumStep(xs: seq<real>, i: nat)
    requires i < |xs|
    ensures Sum(xs[..i + 1]) == Sum(xs[..i]) + xs[i]
  {
    assert xs[..i + 1][..i] == xs[..i];
  }

  lemma CapCountStep(p: Params, pool: real, total: real, scores: seq<real>, active: seq<bool>, i: nat)
    requires |scores| == |active| && total > 0.0 && i < |scores|
    ensures CapCount(p, pool, total, scores[..i + 1], active[..i + 1])
            == CapCount(p, pool, total, scores[..i], active[..i])
               + (if active[i] && IsCapped(p, pool, scores[i], total) then 1 else 0)
  {
    assert scores[..i + 1][..i] == scores[..i] && active[..i + 1][..i] == active[..i];
  }

  /** A purchase takes a whole basket, or all there is if that is less. */
  predicate Bought(basket: real, before: real, after: real) {
    && 0.0 <= after <= before && before - after <= basket
    && (before - after == basket || after == 0.0)
  }

  /** The marketplace loop: takes purchases out of the holdings in place. */
  method Market(p: Params, d: Draw, held: array<real>) returns (spent: real)
    requires held.Length == |d.active| == |d.buys|
    modifies held
    ensures held[..] == Minus(old(held[..]), Spendings(p, old(held[..]), d))
    ensures spent == Sum(Spendings(p, old(held[..]), d))
    ensures forall i :: 0 <= i < held.Length && !(d.active[i] && d.buys[i] && p.basket > 0.0) ==> held[i] == old(held[i])
    ensures forall i :: 0 <= i < held.Length && d.active[i] && d.buys[i] && p.basket > 0.0 && old(held[i]) >= 0.0 ==>
              Bought(p.basket, old(held[i]), held[i])
  {
    spent := 0.0;
    ghost var xs := Spendings(p, held[..], d);
    for i := 0 to held.Length
      invariant spent == Sum(xs[..i])
      invariant forall k :: 0 <= k < i ==> held[k] == old(held[k]) - xs[k]
      invariant forall k :: i <= k < held.Length ==> held[k] == old(held[k])
    {
      assert xs[..i + 1][..i] == xs[..i];
      if !d.active[i] || !d.buys[i] {
        continue;
      }
      var spend := p.basket;
      if spend > held[i] {
        spend := held[i];
      }
      if spend <= 0.0 {
        continue;
      }
      held[i] := held[i] - spend;
      spent := spent + spend;
    }
    assert xs[..held.Length] == xs;
  }

  method SumHeld(held: array<real>) returns (sum: real)
    ensures sum == Sum(held[..])
  {
    sum := 0.0;
    for i := 0 to held.Length
      invariant sum == Sum(held[..i])
    {
      assert held[..i + 1][..i] == held[..i];
      sum := sum + held[i];
    }
    assert held[..held.Length] == held[..];
  }

  /** The draws of a whole simulation fit its players. */
  predicate AllFit(scores: seq<real>, draws: seq<Draw>) {
    forall k :: 0 <= k < |draws| ==> |draws[k].active| == |draws[k].buys| == |scores|
  }

  /** Pool and holdings after all the draws. */
  function After(p: Params, scores: seq<real>, draws: seq<Draw>): (s: Sim)
    requires AllFit(scores, draws)
    ensures |s.held| == |scores|
  {
    if draws == [] then Sim(p.seedPool, Zeros(|scores|))
    else Epoch(p, scores, After(p, scores, draws[..|draws| - 1]), draws[|draws| - 1]).0
  }

  /** The statistics, epoch by epoch. */
  function Stats(p: Params, scores: seq<real>, draws: seq<Draw>): (stats: seq<EpochStat>)
    requires AllFit(scores, draws)
    ensures |stats| == |draws|
  {
    if draws == [] then []
    else
      var n := |draws| - 1;
      Stats(p, scores, draws[..n]) + [Epoch(p, scores, After(p, scores, draws[..n]), draws[n]).1]
  }

  method PayActive(p: Params, pool: real, scores: seq<real>, active: seq<bool>, held: array<real>)
    returns (distributed: real, capped: nat, count: nat)
    requires held.Length == |scores| == |active|
    modifies held
    ensures held[..] == Plus(old(held[..]), Payouts(p, pool, scores, active))
    ensures distributed == Sum(Payouts(p, pool, scores, active))
    ensures capped == Capped(p, pool, scores, active) && count == CountTrue(active)
  {
    var total;
    total, count := TotalScore(scores, active);
    distributed, capped := 0.0, 0;
    if total > 0.0 && pool > 0.0 {
      distributed, capped := Distribute(p, pool, scores, active, total, held);
    } else {
      ZeroSum(Zeros(|scores|));
      assert held[..] == Plus(held[..], Zeros(|scores|));
    }
  }

  method RunEpoch(p: Params, scores: seq<real>, start: real, d: Draw, held: array<real>)
    returns (pool: real, st: EpochStat)
    requires Fits(scores, Sim(start, held[..]), d)
    modifies held
    ensures (Sim(pool, held[..]), st) == Epoch(p, scores, Sim(start, old(held[..])), d)
  {
    var before := start + Funding(p);
    var distributed, capped, count := PayActive(p, before, scores, d.active, held);
    var spent := Market(p, d, held);
    var total := SumHeld(held);
    var books := Books(p, before, distributed, capped, count, spent, total);
    pool, st := books.0, books.1;
  }

  lemma OneMoreEpoch(p: Params, scores: seq<real>, draws: seq<Draw>, e: nat)
    requires AllFit(scores, draws) && e < |draws|
    ensures After(p, scores, draws[..e + 1]) == Epoch(p, scores, After(p, scores, draws[..e]), draws[e]).0
    ensures Stats(p, scores, draws[..e + 1])
            == Stats(p, scores, draws[..e]) + [Epoch(p, scores, After(p, scores, draws[..e]), draws[e]).1]
  {
    assert draws[..e + 1][..e] == draws[..e];
  }

  method Simulate(p: Params, scores: seq<real>, draws: seq<Draw>) returns (stats: seq<EpochStat>)
    requires AllFit(scores, draws)
    ensures stats == Stats(p, scores, draws)
  {
    var held := new real[|scores|](_ => 0.0);
    var pool := p.seedPool;
    stats := [];
    assert held[..] == Zeros(|scores|);
    for e := 0 to |draws|
      invariant held.Length == |scores|
      invariant Sim(pool, held[..]) == After(p, scores, draws[..e])
      invariant stats == Stats(p, scores, draws[..e])
    {
      OneMoreEpoch(p, scores, draws, e);
      var st;
      pool, st := RunEpoch(p, scores, pool, draws[e], held);
      stats := stats + [st];
    }
    assert draws[..|draws|] == draws;
  }

  lemma {:induction false} ZeroSum(xs: seq<real>)
    requires forall i :: 0 <= i < |xs| ==> xs[i] == 0.0
    ensures Sum(xs) == 0.0
  {
    if xs != [] {
      ZeroSum(xs[..|xs| - 1]);
    }
  }

}
