/** The trust gate for peer profiles: pinned keys, freshness and six counters. */
module PeerKeys {
  import opened Options
  import opened Text

  type Key = seq<bv8>

  /** Issue times are in seconds; the clock and the durations are in nanoseconds. */
  datatype Profile = Profile(signer: string, signature: string, issuedAt: int) {
    function Issued(): int {
      issuedAt * 1_000_000_000
    }
  }

  datatype Outcome = NilProfile | AcceptedSigned | AcceptedUnpinned | UnknownSigner | Unsigned | BadSignature | Stale {
    predicate Accepting() {
      AcceptedSigned? || AcceptedUnpinned?
    }
  }

  datatype Settings = Settings(keys: map<string, Key>, strict: bool, maxAge: nat, skew: nat)

  type Check = (Profile, Key) -> bool

  /** The times at which a profile is fresh. */
  predicate Fresh(s: Settings, p: Profile, now: int) {
    s.maxAge > 0 ==> p.Issued() - s.skew <= now <= p.Issued() + s.maxAge + s.skew
  }

  /** A pinned signer must have signed; any other may pass unless the gate is strict. */
  predicate Trusted(s: Settings, verify: Check, p: Profile) {
    if p.signer in s.keys then p.signature != "" && verify(p, s.keys[p.signer])
    else s.keys == map[] || !s.strict
  }

  /** What each outcome says about the call that gave it. */
  predicate Explains(o: Outcome, s: Settings, verify: Check, profile: Option<Profile>, now: int) {
    match profile
    case None => o == NilProfile
    case Some(p) =>
      && (o.Accepting() <==> Trusted(s, verify, p) && Fresh(s, p, now))
      && (o == Stale <==> Trusted(s, verify, p) && !Fresh(s, p, now))
      && (o == AcceptedSigned ==> p.signer in s.keys)
      && (o == AcceptedUnpinned ==> p.signer !in s.keys)
      && (o == UnknownSigner <==> p.signer !in s.keys && !Trusted(s, verify, p))
      && (o == Unsigned <==> p.signer in s.keys && p.signature == "")
      && (o == BadSignature ==> p.signer in s.keys && !verify(p, s.keys[p.signer]))
      && o != NilProfile
  }

  /** Each outcome, in terms of the profile's and the gate's own fields. */
  lemma OutcomeByFields(o: Outcome, s: Settings, verify: Check, p: Profile, now: int)
    requires Explains(o, s, verify, Some(p), now)
    ensures o == UnknownSigner <==> p.signer !in s.keys && s.keys != map[] && s.strict
    ensures o == Unsigned <==> p.signer in s.keys && p.signature == ""
    ensures o == BadSignature <==> p.signer in s.keys && p.signature != "" && !verify(p, s.keys[p.signer])
    ensures o == AcceptedSigned ==> p.signer in s.keys && p.signature != "" && verify(p, s.keys[p.signer])
    ensures o == AcceptedUnpinned ==> p.signer !in s.keys && (s.keys == map[] || !s.strict)
    ensures o.Accepting() && s.maxAge > 0 ==>
              && p.issuedAt * 1_000_000_000 <= now + s.skew
              && p.issuedAt * 1_000_000_000 >= now - (s.maxAge + s.skew)
    ensures o == Stale ==> s.maxAge > 0 && (p.issuedAt * 1_000_000_000 > now + s.skew
                                            || p.issuedAt * 1_000_000_000 < now - (s.maxAge + s.skew))
  {
  }

  /** The outcome is determined by its explanation. */
  lemma ExplanationIsUnique(o: Outcome, q: Outcome, s: Settings, verify: Check, profile: Option<Profile>, now: int)
    requires Explains(o, s, verify, profile, now) && Explains(q, s, verify, profile, now)
    ensures o == q
  {
    if o.Accepting() {
      assert q.Accepting();
    }
  }

  class Registry {
    var keys: map<string, Key>
    var strict: bool
    var maxAge: nat
    var skewTolerance: nat
    var acceptedTotal: nat
    var acceptedUnpinned: nat
    var rejectedUnknown: nat
    var rejectedUnsigned: nat
    var rejectedBadSig: nat
    var rejectedStale: nat
    /** Every settings change and every verify call so far, and the answers. */
    ghost var history: seq<Call>

    ghost function Current(): Settings
      reads this
    {
      Settings(keys, strict, maxAge, skewTolerance)
    }

    /** Each counter holds how many calls of the history ended its way. */
    ghost predicate Valid(verify: Check)
      reads this
    {
      && Lawful(history, verify)
      && (history != [] ==> history[|history| - 1].after == Current())
      && acceptedTotal == Count(history, AcceptedSigned)
      && acceptedUnpinned == Count(history, AcceptedUnpinned)
      && rejectedUnknown == Count(history, UnknownSigner)
      && rejectedUnsigned == Count(history, Unsigned)
      && rejectedBadSig == Count(history, BadSignature)
      && rejectedStale == Count(history, Stale)
    }

    constructor ()
      ensures forall verify :: Valid(verify)
      ensures history == [] && Current() == Settings(map[], false, 0, 300_000_000_000)
    {
      keys, strict, maxAge, skewTolerance := map[], false, 0, 300_000_000_000;
      acceptedTotal, acceptedUnpinned, rejectedUnknown := 0, 0, 0;
      rejectedUnsigned, rejectedBadSig, rejectedStale := 0, 0, 0;
      history := [];
    }

    method VerifyAndAcceptAt(profile: Option<Profile>, now: int, verify: Check) returns (o: Outcome)
      requires Valid(verify)
      modifies this
      ensures Valid(verify) && Current() == old(Current())
      ensures Explains(o, Current(), verify, profile, now)
      ensures history == old(history) + [Verified(profile, now, o, Current())]
    {
      hide Count, Explains, Lawful;
      o := Judge(profile, now, verify);
      match o {
        case NilProfile =>
        case AcceptedSigned => acceptedTotal := acceptedTotal + 1;
        case AcceptedUnpinned => acceptedUnpinned := acceptedUnpinned + 1;
        case UnknownSigner => rejectedUnknown := rejectedUnknown + 1;
        case Unsigned => rejectedUnsigned := rejectedUnsigned + 1;
        case BadSignature => rejectedBadSig := rejectedBadSig + 1;
        case Stale => rejectedStale := rejectedStale + 1;
      }
      ghost var call := Verified(profile, now, o, Current());
      CountStep(history, call);
      LawfulStep(history, call, verify);
      history := history + [call];
    }

    /** The decision tree, first match first. */
    method Judge(profile: Option<Profile>, now: int, verify: Check) returns (o: Outcome)
      ensures Explains(o, Current(), verify, profile, now)
    {
      if profile.None? {
        return NilProfile;
      }
      var p := profile.value;
      var hasPins := keys != map[];
      if hasPins {
        if p.signer !in keys {
          if strict {
            return UnknownSigner;
          }
        } else {
          if p.signature == "" {
            return Unsigned;
          }
          if !verify(p, keys[p.signer]) {
            return BadSignature;
          }
        }
      }
      if maxAge > 0 {
        if p.Issued() > now + skewTolerance {
          return Stale;
        }
        if p.Issued() < now - (maxAge + skewTolerance) {
          return Stale;
        }
      }
      if hasPins && p.signer in keys {
        return AcceptedSigned;
      }
      return AcceptedUnpinned;
    }

    /** Pinning a key under the signer id without surrounding blanks. */
    method Add(signer: string, key: Key, ghost verify: Check) returns (ok: bool)
      requires Valid(verify)
      modifies this
      ensures Valid(verify)
      ensures ok <==> "attester-" <= Trim(signer, IsWhiteSpace) && |key| >= 16
      ensures Current() == (if ok then old(Current()).(keys := old(keys)[Trim(signer, IsWhiteSpace) := key]) else old(Current()))
      ensures history == old(history) + (if ok then [Configured(Current())] else [])
    {
      hide Trim, IsWhiteSpace, Count, Lawful;
      var id := Trim(signer, IsWhiteSpace);
      ok := id != "" && "attester-" <= id && |key| >= 16;
      if ok {
        keys := keys[id := key];
        Record(verify);
      }
    }

    method SetStrict(s: bool, ghost verify: Check)
      requires Valid(verify)
      modifies this
      ensures Valid(verify) && Current() == old(Current()).(strict := s)
      ensures history == old(history) + [Configured(Current())]
    {
      strict := s;
      Record(verify);
    }

    /** Setting the freshness window; a negative one panics. */
    method SetWindow(age: nat, skew: nat, ghost verify: Check)
      requires Valid(verify)
      modifies this
      ensures Valid(verify) && Current() == old(Current()).(maxAge := age, skew := skew)
      ensures history == old(history) + [Configured(Current())]
    {
      maxAge, skewTolerance := age, skew;
      Record(verify);
    }

    ghost method Record(verify: Check)
      requires Lawful(history, verify)
      requires acceptedTotal == Count(history, AcceptedSigned) && acceptedUnpinned == Count(history, AcceptedUnpinned)
      requires rejectedUnknown == Count(history, UnknownSigner) && rejectedUnsigned == Count(history, Unsigned)
      requires rejectedBadSig == Count(history, BadSignature) && rejectedStale == Count(history, Stale)
      modifies this`history
      ensures Valid(verify) && history == old(history) + [Configured(Current())]
    {
      CountStep(history, Configured(Current()));
      LawfulStep(history, Configured(Current()), verify);
      history := history + [Configured(Current())];
    }
  }

  // ---------------------------------------------------------------------
  // Whole histories
  // ---------------------------------------------------------------------

  datatype Call =
    | Configured(after: Settings)
    | Verified(profile: Option<Profile>, now: int, outcome: Outcome, after: Settings)

  /** Verify calls leave the settings alone and answer by them. */
  ghost predicate Lawful(h: seq<Call>, verify: Check) {
    forall i :: 0 <= i < |h| && h[i].Verified? ==>
      && Explains(h[i].outcome, h[i].after, verify, h[i].profile, h[i].now)
      && (i > 0 ==> h[i].after == h[i - 1].after)
  }

  function Count(h: seq<Call>, o: Outcome): nat {
    if h == [] then 0
    else Count(h[..|h| - 1], o) + (if h[|h| - 1].Verified? && h[|h| - 1].outcome == o then 1 else 0)
  }

  /** The verify calls that were given a profile. */
  function Asked(h: seq<Call>): nat {
    if h == [] then 0
    else Asked(h[..|h| - 1]) + (if h[|h| - 1].Verified? && h[|h| - 1].profile.Some? then 1 else 0)
  }

  lemma CountStep(h: seq<Call>, c: Call)
    ensures forall o :: Count(h + [c], o) == Count(h, o) + (if c.Verified? && c.outcome == o then 1 else 0)
  {
    assert (h + [c])[..|h|] == h;
  }

  lemma LawfulStep(h: seq<Call>, c: Call, verify: Check)
    requires Lawful(h, verify)
    requires c.Verified? ==> Explains(c.outcome, c.after, verify, c.profile, c.now)
    requires c.Verified? && h != [] ==> h[|h| - 1].after == c.after
    ensures Lawful(h + [c], verify)
  {
    hide Explains;
  }

  /** The six counters add up to the verify calls that were given a profile. */
  lemma {:induction false} CountersAddUp(h: seq<Call>, verify: Check)
    requires Lawful(h, verify)
    ensures Asked(h) == Count(h, AcceptedSigned) + Count(h, AcceptedUnpinned) + Count(h, UnknownSigner)
                      + Count(h, Unsigned) + Count(h, BadSignature) + Count(h, Stale)
  {
    if h != [] {
      var n := |h| - 1;
      CountersAddUp(h[..n], verify);
      if h[n].Verified? {
        assert Explains(h[n].outcome, h[n].after, verify, h[n].profile, h[n].now);
      }
    }
  }

  /** No settings change from `i` to `j` touches the freshness window. */
  predicate WindowKept(h: seq<Call>, i: nat, j: nat)
    requires i <= j < |h|
  {
    forall k :: i <= k <= j ==> h[k].after.maxAge == h[i].after.maxAge && h[k].after.skew == h[i].after.skew
  }

  predicate Answers(h: seq<Call>, i: nat, p: Profile) {
    i < |h| && h[i].Verified? && h[i].profile == Some(p)
  }

  /** A profile is accepted only inside its window, and once it has been seen to be
      too old no later call accepts it, whatever keys are pinned and however the
      strict flag is flipped in between. */
  lemma ReplayStaysRejected(h: seq<Call>, verify: Check, p: Profile, i: nat, j: nat)
    requires Lawful(h, verify) && i <= j && Answers(h, i, p) && Answers(h, j, p)
    requires WindowKept(h, i, j) && h[i].after.maxAge > 0 && h[i].now <= h[j].now
    ensures h[i].outcome.Accepting() ==>
              p.Issued() - h[i].after.skew <= h[i].now <= p.Issued() + h[i].after.maxAge + h[i].after.skew
    ensures h[i].now > p.Issued() + h[i].after.maxAge + h[i].after.skew ==> !h[j].outcome.Accepting()
  {
    assert Explains(h[i].outcome, h[i].after, verify, h[i].profile, h[i].now);
    assert Explains(h[j].outcome, h[j].after, verify, h[j].profile, h[j].now);
    assert h[j].after.maxAge == h[i].after.maxAge && h[j].after.skew == h[i].after.skew;
  }

  /** With any key pinned, an unsigned profile passes exactly when its signer is not
      pinned, the gate is lenient and the profile is fresh. */
  lemma UnsignedPassesExactlyWhen(s: Settings, verify: Check, p: Profile, now: int, o: Outcome)
    requires s.keys != map[] && p.signature == "" && Explains(o, s, verify, Some(p), now)
    ensures o.Accepting() <==> p.signer !in s.keys && !s.strict && Fresh(s, p, now)
  {
  }

  /** So the promise that an unsigned profile never passes once a key is pinned
      fails without the strict flag. */
  lemma UnsignedPasses(key: Key, verify: Check) returns (s: Settings, p: Profile)
    ensures s.keys != map[] && p.signature == ""
    ensures forall o :: Explains(o, s, verify, Some(p), 0) ==> o == AcceptedUnpinned
  {
    s, p := Settings(map["attester-a" := key], false, 0, 0), Profile("attester-b", "", 0);
    assert s.keys["attester-a"] == key;
    assert "attester-a"[9] != "attester-b"[9];
  }
}
