/** The tray monitor's judgement of chain progress and of the public gateway. */
module TrayMonitor {
  import opened Options

  const STALL_THRESHOLD := 90_000
  const GATEWAY_GRACE := 120_000

  /** A polled height, if the validator answered, and the time in milliseconds. */
  datatype Sample = Sample(height: Option<int>, at: int)

  predicate Saw(h: seq<Sample>, k: int, v: int) {
    0 <= k < |h| && h[k].height == Some(v)
  }

  /** Sample `k` was the first to show height `v`. */
  predicate FirstSaw(h: seq<Sample>, k: int, v: int) {
    Saw(h, k, v) && forall i :: 0 <= i < k ==> !Saw(h, i, v)
  }

  /** No sample showed a height of `v` or more. */
  predicate AllBelow(h: seq<Sample>, v: int) {
    forall k :: 0 <= k < |h| && h[k].height.Some? ==> h[k].height.value < v
  }

  /** The height is making progress: it was never reached before, or it is the
      highest seen and was first reached no longer ago than the threshold. */
  ghost predicate Progressing(h: seq<Sample>, v: int, now: int) {
    || AllBelow(h, v)
    || (AllBelow(h, v + 1) && exists k :: FirstSaw(h, k, v) && now - h[k].at <= STALL_THRESHOLD)
  }

  /** Some earlier sample was higher. */
  ghost predicate Regressed(h: seq<Sample>, v: int) {
    exists k, w :: Saw(h, k, w) && w > v
  }

  lemma RegressedIsNotBelow(h: seq<Sample>, v: int)
    ensures Regressed(h, v) <==> !AllBelow(h, v + 1)
  {
    if !AllBelow(h, v + 1) {
      var k :| 0 <= k < |h| && h[k].height.Some? && h[k].height.value > v;
      assert Saw(h, k, h[k].height.value);
    }
  }

  class ChainMonitor {
    var lastHeight: Option<int>
    var progressAt: int
    ghost var history: seq<Sample>

    /** The stored height is the maximum seen, dated by its first sighting. */
    ghost predicate Valid()
      reads this
    {
      match lastHeight
      case None => forall k :: 0 <= k < |history| ==> history[k].height.None?
      case Some(m) => AllBelow(history, m + 1) && exists k :: FirstSaw(history, k, m) && history[k].at == progressAt
    }

    constructor (now: int)
      ensures Valid() && history == []
    {
      lastHeight, progressAt, history := None, now, [];
    }

    method UpdateChainProgress(height: Option<int>, now: int) returns (progress: bool, regressed: bool)
      requires Valid()
      modifies this
      ensures Valid() && history == old(history) + [Sample(height, now)]
      ensures progress <==> height.Some? && Progressing(old(history), height.value, now)
      ensures regressed <==> height.Some? && Regressed(old(history), height.value)
    {
      ghost var before := history;
      history := history + [Sample(height, now)];
      Extend(before, Sample(height, now));
      progress, regressed := false, false;
      if height.None? {
        return;
      }
      var v := height.value;
      RegressedIsNotBelow(before, v);
      if lastHeight.None? || v > lastHeight.value {
        lastHeight, progressAt := height, now;
        NewHeightIsFirst(before, v, now);
        return true, false;
      }
      ghost var first :| FirstSaw(before, first, lastHeight.value) && before[first].at == progressAt;
      assert Saw(before, first, lastHeight.value);
      if v < lastHeight.value {
        return false, true;
      }
      FirstIsUnique(before, first, v);
      progress := now - progressAt <= STALL_THRESHOLD;
    }
  }

  lemma Extend(h: seq<Sample>, s: Sample)
    ensures forall k, v :: FirstSaw(h, k, v) ==> FirstSaw(h + [s], k, v) && (h + [s])[k] == h[k]
    ensures forall v :: AllBelow(h + [s], v) <==> AllBelow(h, v) && (s.height.Some? ==> s.height.value < v)
  {
    forall k, v | FirstSaw(h, k, v) ensures FirstSaw(h + [s], k, v) {
      forall i | 0 <= i < k ensures !Saw(h + [s], i, v) {
        assert !Saw(h, i, v);
      }
    }
    forall v | AllBelow(h + [s], v) ensures AllBelow(h, v) && (s.height.Some? ==> s.height.value < v) {
      assert (h + [s])[|h|] == s;
      forall k | 0 <= k < |h| && h[k].height.Some? ensures h[k].height.value < v {
        assert (h + [s])[k] == h[k];
      }
    }
  }

  lemma NewHeightIsFirst(h: seq<Sample>, v: int, now: int)
    requires AllBelow(h, v)
    ensures FirstSaw(h + [Sample(Some(v), now)], |h|, v)
  {
  }

  lemma FirstIsUnique(h: seq<Sample>, k: int, v: int)
    requires FirstSaw(h, k, v)
    ensures forall i :: FirstSaw(h, i, v) ==> i == k
    ensures !AllBelow(h, v)
  {
    assert h[k].height.value == v;
  }

  // ---------------------------------------------------------------------
  // The public gateway
  // ---------------------------------------------------------------------

  datatype Probe = Probe(ok: bool, at: int)

  /** Probe `k` is the last good one. */
  predicate LastGood(h: seq<Probe>, k: int) {
    0 <= k < |h| && h[k].ok && forall i :: k < i < |h| ==> !h[i].ok
  }

  class GatewayMonitor {
    var failures: nat
    var lastOk: Option<int>
    ghost var history: seq<Probe>

    ghost predicate Valid()
      reads this
    {
      match lastOk
      case None => failures == |history| && forall k :: 0 <= k < |history| ==> !history[k].ok
      case Some(at) => failures < |history| && LastGood(history, |history| - 1 - failures)
                       && history[|history| - 1 - failures].at == at
    }

    constructor ()
      ensures Valid() && history == []
    {
      failures, lastOk, history := 0, None, [];
    }

    /** Public exactly when one of the last three probes, this one included, was good
        and, if it was an earlier one, less than two minutes ago. */
    method StableGatewayPublic(current: bool, now: int) returns (public: bool)
      requires Valid()
      modifies this
      ensures Valid() && history == old(history) + [Probe(current, now)]
      ensures public <==> exists k :: LastGood(history, k) && |history| - k <= 3 && (current || now - history[k].at < GATEWAY_GRACE)
    {
      ghost var before := history;
      history := history + [Probe(current, now)];
      if current {
        failures, lastOk := 0, Some(now);
        assert LastGood(history, |history| - 1);
        return true;
      }
      failures := failures + 1;
      if lastOk.None? {
        assert forall k :: !LastGood(history, k);
        return false;
      }
      ghost var k := |history| - 1 - failures;
      assert LastGood(before, k);
      assert LastGood(history, k);
      LastGoodIsUnique(history, k);
      public := failures < 3 && now - lastOk.value < GATEWAY_GRACE;
    }
  }

  lemma LastGoodIsUnique(h: seq<Probe>, k: int)
    requires LastGood(h, k)
    ensures forall i :: LastGood(h, i) ==> i == k
  {
    forall i | LastGood(h, i) ensures i == k {
      if i < k {
        assert false;
      } else if k < i {
        assert false;
      }
    }
  }
}
