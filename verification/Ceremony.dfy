/** The genesis commit-reveal ceremony: the run that produces a bundle and the
    verifier that re-derives everything in it. SHA3-256, Ed25519 and the JSON
    encoding of the parameters are inputs. */
module Ceremony {
  import opened Options
  import opened Text
  import opened Sorting

  datatype Params = Params(total: nat, treasury: nat, mining: nat, decimals: nat, unitName: string,
                           blockTime: nat, halvingYears: nat)

  datatype Crypto = Crypto(sha3: string -> string,
                           publicKey: nat -> string,
                           sign: (nat, string) -> string,
                           verify: (string, string, string) -> bool,
                           json: Params -> string)

  /** Digests and keys are 32 bytes, and what a key signs verifies under it. */
  ghost predicate Lawful(c: Crypto) {
    && (forall x :: |c.sha3(x)| == 32 && IsBytes(c.sha3(x)))
    && (forall k :: |c.publicKey(k)| == 32 && IsBytes(c.publicKey(k)))
    && (forall k, m :: IsBytes(c.sign(k, m)) && c.verify(c.publicKey(k), m, c.sign(k, m)))
  }

  /** The JSON text is a single line and determines the parameters. */
  ghost predicate LawfulJson(c: Crypto) {
    && (forall p :: OneLine(c.json(p)))
    && (forall p, q :: c.json(p) == c.json(q) ==> p == q)
  }

  datatype Participant = Participant(id: string, pubKey: string, commit: string, revealHex: string, signature: string)

  /** A participant while the ceremony runs, with the key and the raw reveal. */
  datatype Draft = Draft(p: Participant, key: nat, revealBytes: string)

  datatype Header = Header(ceremonyId: string, network: string, treasuryAddr: string, params: Params, finishedAt: string)

  datatype Bundle = Bundle(dryRun: bool, schema: nat, h: Header, participants: seq<Participant>,
                           commitRoot: string, revealConcat: string, seed: string,
                           genesisHash: string, bundleHash: string)

  const SCHEMA := 1

  // ---------------------------------------------------------------------
  // The hashed texts
  // ---------------------------------------------------------------------

  function CommitText(ps: seq<Participant>): string {
    if ps == [] then "" else Line(ps[0].id + ":" + ps[0].commit, CommitText(ps[1..]))
  }

  function GenesisText(c: Crypto, h: Header, commitRoot: string, seed: string): string {
    Line("ceremony_id=" + h.ceremonyId,
         Line("network=" + h.network,
              Line("treasury_addr=" + h.treasuryAddr,
                   Line("commit_root=" + commitRoot,
                        Line("genesis_seed=" + seed,
                             Line("params=" + c.json(h.params), ""))))))
  }

  function SignatureText(ps: seq<Participant>, finishedAt: string): string {
    if ps == [] then Line("finished_at=" + finishedAt, "")
    else Line("sig:" + ps[0].id + "=" + ps[0].signature, SignatureText(ps[1..], finishedAt))
  }

  function BundleText(genesisHash: string, ps: seq<Participant>, finishedAt: string): string {
    Line("genesis_hash=" + genesisHash, SignatureText(ps, finishedAt))
  }

  function Digest(c: Crypto, text: string): string
    requires IsBytes(c.sha3(text))
  {
    Hex(c.sha3(text))
  }

  /** A participant's raw reveal; one that does not decode counts as empty. */
  function Raw(p: Participant): (r: string)
    ensures IsBytes(r)
  {
    if Unhex(p.revealHex).Some? then Unhex(p.revealHex).value else ""
  }

  /** The raw reveals one after another. */
  function Reveals(ps: seq<Participant>): (r: string)
    ensures IsBytes(r)
  {
    if ps == [] then "" else Reveals(ps[..|ps| - 1]) + Raw(ps[|ps| - 1])
  }

  /** The supply must add up in 64-bit arithmetic. */
  predicate SupplyAddsUp(p: Params) {
    p.total == (p.treasury + p.mining) % 0x1_0000_0000_0000_0000
  }

  // ---------------------------------------------------------------------
  // The verifier
  // ---------------------------------------------------------------------

  predicate Ascending(ps: seq<Participant>) {
    forall i :: 0 < i < |ps| ==> Less(ps[i - 1].id, ps[i].id)
  }

  ghost predicate Opens(c: Crypto, p: Participant) {
    && Unhex(p.revealHex).Some? && |Raw(p)| == 32
    && IsBytes(c.sha3(Raw(p))) && p.commit == Digest(c, Raw(p))
  }

  ghost predicate Signed(c: Crypto, p: Participant, message: string) {
    && Unhex(p.pubKey).Some? && |Unhex(p.pubKey).value| == 32
    && Unhex(p.signature).Some?
    && c.verify(Unhex(p.pubKey).value, message, Unhex(p.signature).value)
  }

  /** What it means for a bundle to be consistent, check by check. */
  ghost predicate Consistent(c: Crypto, b: Bundle)
    requires Lawful(c)
  {
    && b.schema == SCHEMA && b.dryRun
    && |b.participants| >= 2 && SupplyAddsUp(b.h.params) && Ascending(b.participants)
    && b.commitRoot == Digest(c, CommitText(b.participants))
    && (forall i :: 0 <= i < |b.participants| ==> Opens(c, b.participants[i]))
    && b.revealConcat == Hex(Reveals(b.participants))
    && b.seed == Digest(c, Reveals(b.participants))
    && b.genesisHash == Digest(c, GenesisText(c, b.h, b.commitRoot, b.seed))
    && Unhex(b.genesisHash).Some?
    && (forall i :: 0 <= i < |b.participants| ==> Signed(c, b.participants[i], Unhex(b.genesisHash).value))
    && b.bundleHash == Digest(c, BundleText(b.genesisHash, b.participants, b.h.finishedAt))
  }

  datatype Fault = BadSchema | NotDryRun | TooFew | BadSupply | Unordered | BadCommitRoot | BadReveal
                 | BadRevealConcat | BadSeed | BadGenesisHash | BadSignature | BadBundleHash

  method CheckOrder(ps: seq<Participant>) returns (ok: bool)
    ensures ok <==> Ascending(ps)
  {
    var i := 1;
    while i < |ps|
      invariant 1 <= i && (i <= |ps| || ps == [])
      invariant forall k :: 0 < k < i && k < |ps| ==> Less(ps[k - 1].id, ps[k].id)
    {
      if !Less(ps[i - 1].id, ps[i].id) { return false; }
      i := i + 1;
    }
    ok := true;
  }

  /** Decodes every reveal, checks that it opens its commit, and concatenates. */
  method CheckReveals(c: Crypto, ps: seq<Participant>) returns (concat: Option<string>)
    requires Lawful(c)
    ensures concat.Some? <==> forall i :: 0 <= i < |ps| ==> Opens(c, ps[i])
    ensures concat.Some? ==> concat.value == Reveals(ps)
  {
    hide Unhex, Hex;
    var bytes := "";
    var i := 0;
    while i < |ps|
      invariant 0 <= i <= |ps|
      invariant forall k :: 0 <= k < i ==> Opens(c, ps[k])
      invariant bytes == Reveals(ps[..i])
    {
      var raw := Unhex(ps[i].revealHex);
      if raw.None? { return None; }
      if |raw.value| != 32 || ps[i].commit != Digest(c, raw.value) { return None; }
      assert ps[..i + 1][..i] == ps[..i];
      bytes := bytes + raw.value;
      i := i + 1;
    }
    assert ps[..i] == ps;
    concat := Some(bytes);
  }

  method CheckSignatures(c: Crypto, ps: seq<Participant>, message: string) returns (ok: bool)
    ensures ok <==> forall i :: 0 <= i < |ps| ==> Signed(c, ps[i], message)
  {
    var i := 0;
    while i < |ps|
      invariant 0 <= i <= |ps|
      invariant forall k :: 0 <= k < i ==> Signed(c, ps[k], message)
    {
      var pub, sig := Unhex(ps[i].pubKey), Unhex(ps[i].signature);
      if pub.None? || sig.None? { return false; }
      if |pub.value| != 32 || !c.verify(pub.value, message, sig.value) { return false; }
      i := i + 1;
    }
    ok := true;
  }

  /** The verifier accepts exactly the consistent bundles. */
  method VerifyBundle(c: Crypto, b: Bundle) returns (fault: Option<Fault>)
    requires Lawful(c)
    ensures fault.None? <==> Consistent(c, b)
  {
    hide Hex, Unhex, CommitText, GenesisText, SignatureText, Reveals;
    if b.schema != SCHEMA { return Some(BadSchema); }
    if !b.dryRun { return Some(NotDryRun); }
    if |b.participants| < 2 { return Some(TooFew); }
    if !SupplyAddsUp(b.h.params) { return Some(BadSupply); }
    var ordered := CheckOrder(b.participants);
    if !ordered { return Some(Unordered); }
    if b.commitRoot != Digest(c, CommitText(b.participants)) { return Some(BadCommitRoot); }
    var concat := CheckReveals(c, b.participants);
    if concat.None? { return Some(BadReveal); }
    if b.revealConcat != Hex(concat.value) { return Some(BadRevealConcat); }
    if b.seed != Digest(c, concat.value) { return Some(BadSeed); }
    if b.genesisHash != Digest(c, GenesisText(c, b.h, b.commitRoot, b.seed)) { return Some(BadGenesisHash); }
    var message := Unhex(b.genesisHash);
    if message.None? { return Some(BadGenesisHash); }
    var verified := CheckSignatures(c, b.participants, message.value);
    if !verified { return Some(BadSignature); }
    if b.bundleHash != Digest(c, BundleText(b.genesisHash, b.participants, b.h.finishedAt)) {
      return Some(BadBundleHash);
    }
    fault := None;
  }

  // ---------------------------------------------------------------------
  // Sorting by id
  // ---------------------------------------------------------------------

  predicate Before(a: Draft, b: Draft) {
    Less(a.p.id, b.p.id)
  }

  predicate Sorted(ds: seq<Draft>) {
    forall i, j :: 0 <= i < j < |ds| ==> Before(ds[i], ds[j])
  }

  predicate DistinctIds(ds: seq<Draft>) {
    forall i, j :: 0 <= i < j < |ds| ==> ds[i].p.id != ds[j].p.id
  }

  function IdOf(d: Draft): string {
    d.p.id
  }

  /** Any sort by id would do: see SortedIsUnique. */
  function Sort(ds: seq<Draft>): seq<Draft> {
    SortBy(ds, IdOf)
  }

  lemma SortSorts(ds: seq<Draft>)
    requires DistinctIds(ds)
    ensures Sorted(Sort(ds)) && multiset(Sort(ds)) == multiset(ds)
  {
    hide Less, SortBy;
    assert DistinctKeys(ds, IdOf);
    SortByIsStrict(ds, IdOf);
    SortByPermutes(ds, IdOf);
    forall i, j | 0 <= i < j < |Sort(ds)| ensures Before(Sort(ds)[i], Sort(ds)[j]) {
      assert Less(IdOf(Sort(ds)[i]), IdOf(Sort(ds)[j]));
    }
  }

  /** Two sorted arrangements of the same drafts are the same sequence. */
  lemma {:induction false} SortedIsUnique(a: seq<Draft>, b: seq<Draft>)
    requires Sorted(a) && Sorted(b) && multiset(a) == multiset(b)
    ensures a == b
  {
    if a == [] || b == [] {
      assert |multiset(a)| == |multiset(b)|;
    } else {
      SmallestIsShared(a, b);
      TailIsRest(a);
      TailIsRest(b);
      SortedIsUnique(a[1..], b[1..]);
      assert a == [a[0]] + a[1..] && b == [b[0]] + b[1..];
    }
  }

  lemma TailIsRest(a: seq<Draft>)
    requires a != []
    ensures multiset(a[1..]) == multiset(a) - multiset{a[0]}
  {
    assert a == [a[0]] + a[1..];
  }

  lemma HeadIsSmallest(a: seq<Draft>, x: Draft)
    requires Sorted(a) && a != [] && x in a
    ensures a[0] == x || Less(a[0].p.id, x.p.id)
  {
    var i :| 0 <= i < |a| && a[i] == x;
    if i != 0 {
      assert Before(a[0], a[i]);
    }
  }

  lemma SmallestIsShared(a: seq<Draft>, b: seq<Draft>)
    requires Sorted(a) && Sorted(b) && a != [] && b != [] && multiset(a) == multiset(b)
    ensures a[0] == b[0]
  {
    assert a[0] in multiset(b) && b[0] in multiset(a);
    HeadIsSmallest(a, b[0]);
    HeadIsSmallest(b, a[0]);
    if a[0] != b[0] {
      LessTransitive(a[0].p.id, b[0].p.id, a[0].p.id);
      LessIrreflexive(a[0].p.id);
      assert false;
    }
  }

  /** The order in which participants submit does not matter. */
  lemma SubmissionOrderIsIrrelevant(a: seq<Draft>, b: seq<Draft>)
    requires DistinctIds(a) && DistinctIds(b) && multiset(a) == multiset(b)
    ensures Sort(a) == Sort(b)
  {
    SortSorts(a);
    SortSorts(b);
    SortedIsUnique(Sort(a), Sort(b));
  }

  // ---------------------------------------------------------------------
  // The ceremony
  // ---------------------------------------------------------------------

  datatype Secret = Secret(key: nat, revealBytes: string)

  predicate IsReveal(r: string) {
    |r| == 32 && IsBytes(r)
  }

  function Contribution(c: Crypto, i: nat, s: Secret): Draft
    requires IsReveal(s.revealBytes) && IsBytes(c.publicKey(s.key)) && IsBytes(c.sha3(s.revealBytes))
  {
    Draft(Participant("participant-" + TwoDigits(i + 1), Hex(c.publicKey(s.key)), Digest(c, s.revealBytes),
                      Hex(s.revealBytes), ""), s.key, s.revealBytes)
  }

  function Public(ds: seq<Draft>): (ps: seq<Participant>)
    ensures |ps| == |ds| && forall i :: 0 <= i < |ds| ==> ps[i] == ds[i].p
  {
    seq(|ds|, i requires 0 <= i < |ds| => ds[i].p)
  }

  function SignAll(c: Crypto, ds: seq<Draft>, message: string): (ps: seq<Participant>)
    requires forall k :: IsBytes(c.sign(k, message))
    ensures |ps| == |ds|
    ensures forall i :: 0 <= i < |ds| ==> ps[i] == ds[i].p.(signature := Hex(c.sign(ds[i].key, message)))
  {
    seq(|ds|, i requires 0 <= i < |ds| => ds[i].p.(signature := Hex(c.sign(ds[i].key, message))))
  }

  /** A draft whose public fields belong to its key and its reveal. */
  ghost predicate Honest(c: Crypto, d: Draft)
    requires Lawful(c)
  {
    && IsReveal(d.revealBytes)
    && d.p.pubKey == Hex(c.publicKey(d.key)) && d.p.commit == Digest(c, d.revealBytes) && d.p.revealHex == Hex(d.revealBytes)
  }

  /** The bundle made from drafts already in order. */
  ghost function Seal(c: Crypto, h: Header, ds: seq<Draft>): Bundle
    requires Lawful(c)
  {
    var commitRoot := Digest(c, CommitText(Public(ds)));
    var concat := Reveals(Public(ds));
    var seed := Digest(c, concat);
    var genesisHash := Digest(c, GenesisText(c, h, commitRoot, seed));
    var signed := SignAll(c, ds, c.sha3(GenesisText(c, h, commitRoot, seed)));
    Bundle(true, SCHEMA, h, signed, commitRoot, Hex(concat), seed, genesisHash,
           Digest(c, BundleText(genesisHash, signed, h.finishedAt)))
  }

  lemma {:induction false} SigningKeepsTexts(ps: seq<Participant>, qs: seq<Participant>)
    requires |ps| == |qs|
    requires forall i :: 0 <= i < |ps| ==> ps[i].id == qs[i].id && ps[i].commit == qs[i].commit
    ensures CommitText(ps) == CommitText(qs)
  {
    if ps != [] {
      SigningKeepsTexts(ps[1..], qs[1..]);
    }
  }

  /** Sealing honest drafts in order gives a consistent bundle. */
  lemma SealIsConsistent(c: Crypto, h: Header, ds: seq<Draft>)
    requires Lawful(c) && |ds| >= 2 && SupplyAddsUp(h.params) && Sorted(ds)
    requires forall i :: 0 <= i < |ds| ==> Honest(c, ds[i])
    ensures Consistent(c, Seal(c, h, ds))
  {
    hide Hex, Unhex, CommitText, GenesisText, SignatureText, Less, Reveals;
    var b := Seal(c, h, ds);
    SigningKeepsTexts(b.participants, Public(ds));
    SameRevealsSameConcat(b.participants, Public(ds));
    UnhexHex(c.sha3(GenesisText(c, h, b.commitRoot, b.seed)));
    var message := Unhex(b.genesisHash).value;
    forall i | 0 <= i < |ds| ensures Opens(c, b.participants[i]) && Signed(c, b.participants[i], message) {
      UnhexHex(ds[i].revealBytes);
      UnhexHex(c.publicKey(ds[i].key));
      UnhexHex(c.sign(ds[i].key, message));
    }
    forall i | 0 < i < |ds| ensures Less(b.participants[i - 1].id, b.participants[i].id) {
      assert Before(ds[i - 1], ds[i]);
    }
  }

  /** The commit root and the seed, hence the whole bundle, do not depend on the
      order of submission. */
  lemma SealIgnoresOrder(c: Crypto, h: Header, a: seq<Draft>, b: seq<Draft>)
    requires Lawful(c) && DistinctIds(a) && DistinctIds(b) && multiset(a) == multiset(b)
    ensures Seal(c, h, Sort(a)) == Seal(c, h, Sort(b))
  {
    SubmissionOrderIsIrrelevant(a, b);
  }

  lemma ContributionsAreDistinct(ds: seq<Draft>)
    requires forall i :: 0 <= i < |ds| ==> ds[i].p.id == "participant-" + TwoDigits(i + 1)
    ensures DistinctIds(ds)
  {
    forall i, j | 0 <= i < j < |ds| ensures ds[i].p.id != ds[j].p.id {
      if ds[i].p.id == ds[j].p.id {
        PrefixInjective("participant-", TwoDigits(i + 1), TwoDigits(j + 1));
        TwoDigitsInjective(i + 1, j + 1);
      }
    }
  }

  datatype RunResult = Refused | Produced(bundle: Bundle)

  function Contributions(c: Crypto, secrets: seq<Secret>): (ds: seq<Draft>)
    requires forall i :: 0 <= i < |secrets| ==> IsReveal(secrets[i].revealBytes)
    requires forall k :: IsBytes(c.publicKey(k))
    requires forall x :: IsBytes(c.sha3(x))
    ensures |ds| == |secrets| && forall i :: 0 <= i < |ds| ==> ds[i] == Contribution(c, i, secrets[i])
  {
    seq(|secrets|, i requires 0 <= i < |secrets| => Contribution(c, i, secrets[i]))
  }

  method MakeDrafts(c: Crypto, secrets: seq<Secret>) returns (drafts: seq<Draft>)
    requires Lawful(c) && forall i :: 0 <= i < |secrets| ==> IsReveal(secrets[i].revealBytes)
    ensures drafts == Contributions(c, secrets)
  {
    drafts := [];
    var i := 0;
    while i < |secrets|
      invariant 0 <= i <= |secrets| && |drafts| == i
      invariant forall k :: 0 <= k < i ==> drafts[k] == Contribution(c, k, secrets[k])
    {
      drafts := drafts + [Contribution(c, i, secrets[i])];
      i := i + 1;
    }
  }

  method ConcatReveals(c: Crypto, ds: seq<Draft>) returns (concat: string)
    requires Lawful(c) && forall i :: 0 <= i < |ds| ==> Honest(c, ds[i])
    ensures concat == Reveals(Public(ds))
  {
    concat := "";
    var i := 0;
    while i < |ds|
      invariant 0 <= i <= |ds|
      invariant concat == Reveals(Public(ds[..i]))
    {
      UnhexHex(ds[i].revealBytes);
      assert Public(ds[..i + 1])[..i] == Public(ds[..i]);
      concat := concat + ds[i].revealBytes;
      i := i + 1;
    }
    assert ds[..i] == ds;
  }

  method SignDrafts(c: Crypto, ds: seq<Draft>, message: string) returns (ps: seq<Participant>)
    requires Lawful(c)
    ensures ps == SignAll(c, ds, message)
  {
    ps := Public(ds);
    var i := 0;
    while i < |ps|
      invariant 0 <= i <= |ps| == |ds|
      invariant forall k :: 0 <= k < i ==> ps[k] == ds[k].p.(signature := Hex(c.sign(ds[k].key, message)))
      invariant forall k :: i <= k < |ps| ==> ps[k] == ds[k].p
    {
      ps := ps[i := ps[i].(signature := Hex(c.sign(ds[i].key, message)))];
      i := i + 1;
    }
  }

  lemma SortedContributionsAreHonest(c: Crypto, secrets: seq<Secret>)
    requires Lawful(c) && forall i :: 0 <= i < |secrets| ==> IsReveal(secrets[i].revealBytes)
    ensures var ds := Sort(Contributions(c, secrets));
            |ds| == |secrets| && Sorted(ds) && forall i :: 0 <= i < |ds| ==> Honest(c, ds[i])
  {
    var drafts := Contributions(c, secrets);
    ContributionsAreDistinct(drafts);
    SortSorts(drafts);
    var ds := Sort(drafts);
    assert |multiset(ds)| == |multiset(drafts)|;
    forall k | 0 <= k < |ds| ensures Honest(c, ds[k]) {
      assert ds[k] in multiset(ds);
      assert ds[k] in drafts;
    }
  }

  /** The producer: for any number of participants from two up, any keys and any
      reveals, its bundle is consistent, so the verifier accepts it. */
  method RunCeremony(c: Crypto, h: Header, secrets: seq<Secret>) returns (r: RunResult)
    requires Lawful(c) && forall i :: 0 <= i < |secrets| ==> IsReveal(secrets[i].revealBytes)
    ensures r.Produced? <==> |secrets| >= 2 && SupplyAddsUp(h.params)
    ensures r.Produced? ==> Consistent(c, r.bundle) && |r.bundle.participants| == |secrets|
    ensures r.Produced? ==> r.bundle == Seal(c, h, Sort(Contributions(c, secrets)))
  {
    if |secrets| < 2 { return Refused; }
    if !SupplyAddsUp(h.params) { return Refused; }
    var drafts := MakeDrafts(c, secrets);
    SortedContributionsAreHonest(c, secrets);
    var sorted := Sort(drafts);
    var commitRoot := Digest(c, CommitText(Public(sorted)));
    var concat := ConcatReveals(c, sorted);
    var seed := Digest(c, concat);
    var genesisHash := Digest(c, GenesisText(c, h, commitRoot, seed));
    UnhexHex(c.sha3(GenesisText(c, h, commitRoot, seed)));
    var signed := SignDrafts(c, sorted, Unhex(genesisHash).value);
    var bundleHash := Digest(c, BundleText(genesisHash, signed, h.finishedAt));
    r := Produced(Bundle(true, SCHEMA, h, signed, commitRoot, Hex(concat), seed, genesisHash, bundleHash));
    SealIsConsistent(c, h, sorted);
  }

  // ---------------------------------------------------------------------
  // Binding
  // ---------------------------------------------------------------------

  /** `x` and `y` are a collision: different texts with the same digest. */
  predicate Collides(c: Crypto, x: string, y: string) {
    x != y && c.sha3(x) == c.sha3(y)
  }

  predicate OneLineIds(ps: seq<Participant>) {
    forall i :: 0 <= i < |ps| ==> OneLine(ps[i].id)
  }

  predicate HexCommits(ps: seq<Participant>) {
    forall i :: 0 <= i < |ps| ==> |ps[i].commit| == 64 && OneLine(ps[i].commit)
  }

  predicate SameCommits(ps: seq<Participant>, qs: seq<Participant>) {
    |ps| == |qs| && forall i :: 0 <= i < |ps| ==> ps[i].id == qs[i].id && ps[i].commit == qs[i].commit
  }

  lemma IdColonCommit(a: string, x: string, b: string, y: string)
    requires a + ":" + x == b + ":" + y && |x| == |y|
    ensures a == b && x == y
  {
    var s := a + ":" + x;
    assert |a| == |b|;
    assert a == s[..|a|] && b == s[..|b|];
    assert x == s[|a| + 1..] && y == s[|b| + 1..];
  }

  /** No line ends inside the id: it holds no `:`, 64 characters and a newline. */
  predicate Whole(id: string) {
    forall i :: 0 <= i < |id| - 65 ==> !(id[i] == ':' && OneLine(id[i + 1..i + 65]) && id[i + 65] == '\n')
  }

  predicate WholeIds(ps: seq<Participant>) {
    forall i :: 0 <= i < |ps| ==> Whole(ps[i].id)
  }

  function Entry(p: Participant): string {
    p.id + ":" + p.commit
  }

  /** One participant whose line starts like another's: it is the same line, or the
      other id has swallowed it, or it has an end of line inside its own id. */
  lemma FirstLines(p: Participant, x: string, q: Participant, y: string)
    requires |p.commit| == 64 && OneLine(p.commit) && |q.commit| == 64 && OneLine(q.commit)
    requires Whole(p.id) && Line(Entry(p), x) == Line(Entry(q), y)
    ensures |Entry(p)| <= |Entry(q)|
    ensures |Entry(p)| < |Entry(q)| ==>
              |Entry(p)| < |q.id| && q.id == Entry(p) + ['\n'] + q.id[|Entry(p)| + 1..]
  {
    var a, b := Entry(p), Entry(q);
    var s := Line(a, x);
    assert s[|a|] == '\n' && s[|b|] == '\n' && s[..|a|] == a && s[..|b|] == b;
    if |b| < |a| {
      EndsInside(p, q);
    } else if |a| < |b| {
      assert b[|a|] == '\n';
      InsideId(q, |a|);
      assert q.id == b[..|q.id|];
      assert q.id[..|a|] == a && q.id[|a|] == '\n';
      assert q.id == q.id[..|a|] + [q.id[|a|]] + q.id[|a| + 1..];
    }
  }

  /** An id that starts with another participant's whole line is not whole. */
  lemma EndsInside(p: Participant, q: Participant)
    requires |p.commit| == 64 && OneLine(p.commit) && |q.commit| == 64 && OneLine(q.commit)
    requires |Entry(q)| < |Entry(p)| && Entry(p)[..|Entry(q)|] == Entry(q) && Entry(p)[|Entry(q)|] == '\n'
    ensures !Whole(p.id)
  {
    var a, b, i := Entry(p), Entry(q), |q.id|;
    InsideId(p, |b|);
    assert p.id == a[..|p.id|] && p.id[..|b|] == b;
    assert p.id[i] == b[i] && p.id[i + 1..i + 65] == b[i + 1..] && b[i + 1..] == q.commit;
  }

  /** A newline in an entry lies in the id. */
  lemma InsideId(p: Participant, k: nat)
    requires OneLine(p.commit) && k < |Entry(p)| && Entry(p)[k] == '\n'
    ensures k < |p.id|
  {
    forall j | |p.id| <= j < |Entry(p)| ensures Entry(p)[j] != '\n' {
      if j > |p.id| {
        assert Entry(p)[j] == p.commit[j - |p.id| - 1];
        assert p.commit[j - |p.id| - 1] in p.commit;
      }
    }
  }

  /** Whatever reads the text of participants with whole ids has at most as many
      participants, and the same ones if it has as many. */
  lemma {:induction false} OtherReadingIsCoarser(ps: seq<Participant>, qs: seq<Participant>)
    requires WholeIds(ps) && HexCommits(ps) && HexCommits(qs) && CommitText(ps) == CommitText(qs)
    ensures |qs| <= |ps| && (|qs| == |ps| ==> SameCommits(ps, qs))
    decreases |ps|
  {
    if ps == [] || qs == [] {
      assert |CommitText(ps)| == |CommitText(qs)|;
    } else {
      var a, b := Entry(ps[0]), Entry(qs[0]);
      FirstLines(ps[0], CommitText(ps[1..]), qs[0], CommitText(qs[1..]));
      if |a| == |b| {
        SameLine(a, CommitText(ps[1..]), b, CommitText(qs[1..]));
        IdColonCommit(ps[0].id, ps[0].commit, qs[0].id, qs[0].commit);
        OtherReadingIsCoarser(ps[1..], qs[1..]);
        forall i | 0 <= i < |ps| && |qs| == |ps| ensures ps[i].id == qs[i].id && ps[i].commit == qs[i].commit {
          if i > 0 {
            assert ps[i] == ps[1..][i - 1] && qs[i] == qs[1..][i - 1];
          }
        }
      } else {
        var rest := qs[0].(id := qs[0].id[|a| + 1..]);
        Shortened(ps, qs, rest);
        OtherReadingIsCoarser(ps[1..], [rest] + qs[1..]);
      }
    }
  }

  lemma SameLine(a: string, x: string, b: string, y: string)
    requires Line(a, x) == Line(b, y) && |a| == |b|
    ensures a == b && x == y
  {
    var s := Line(a, x);
    assert a == s[..|a|] && b == s[..|b|] && x == s[|a| + 1..] && y == s[|b| + 1..];
  }

  /** Dropping the swallowed first line on both sides. */
  lemma Shortened(ps: seq<Participant>, qs: seq<Participant>, rest: Participant)
    requires ps != [] && qs != [] && HexCommits(qs) && CommitText(ps) == CommitText(qs)
    requires var a := Entry(ps[0]);
             |a| < |qs[0].id| && qs[0].id == a + ['\n'] + qs[0].id[|a| + 1..] && rest == qs[0].(id := qs[0].id[|a| + 1..])
    ensures CommitText(ps[1..]) == CommitText([rest] + qs[1..]) && HexCommits([rest] + qs[1..])
  {
    var a, tail := Entry(ps[0]), CommitText(qs[1..]);
    assert ([rest] + qs[1..])[1..] == qs[1..];
    assert CommitText(ps) == Line(a, CommitText(ps[1..])) && CommitText(qs) == Line(Entry(qs[0]), tail);
    assert CommitText([rest] + qs[1..]) == Line(Entry(rest), tail);
    hide CommitText;
    Swallowed(a, qs[0].id, qs[0].commit, tail);
    SameLine(a, CommitText(ps[1..]), a, Line(Entry(rest), tail));
  }

  lemma Swallowed(a: string, id: string, commit: string, tail: string)
    requires |a| < |id| && id == a + ['\n'] + id[|a| + 1..]
    ensures Line(id + ":" + commit, tail) == Line(a, Line(id[|a| + 1..] + ":" + commit, tail))
  {
    var rest := id[|a| + 1..];
    assert a + ['\n'] + rest + ":" + commit + ['\n'] + tail == a + ['\n'] + (rest + ":" + commit + ['\n'] + tail);
  }

  /** With whole ids on both sides, the committed text determines ids and commits. */
  lemma CommitTextInjective(ps: seq<Participant>, qs: seq<Participant>)
    requires WholeIds(ps) && WholeIds(qs) && HexCommits(ps) && HexCommits(qs)
    requires CommitText(ps) == CommitText(qs)
    ensures SameCommits(ps, qs)
  {
    OtherReadingIsCoarser(ps, qs);
    OtherReadingIsCoarser(qs, ps);
  }

  lemma OneLineIsWhole(ps: seq<Participant>)
    requires OneLineIds(ps)
    ensures WholeIds(ps)
  {
    forall i | 0 <= i < |ps| ensures Whole(ps[i].id) {
      assert OneLine(ps[i].id);
    }
  }

  lemma ConsistentCommitsAreHex(c: Crypto, b: Bundle)
    requires Lawful(c) && Consistent(c, b)
    ensures HexCommits(b.participants)
  {
    forall i | 0 <= i < |b.participants| ensures |b.participants[i].commit| == 64 && OneLine(b.participants[i].commit) {
      assert Opens(c, b.participants[i]);
      HexIsOneLine(c.sha3(Raw(b.participants[i])));
    }
  }

  lemma {:induction false} SameRevealsSameConcat(ps: seq<Participant>, qs: seq<Participant>)
    requires |ps| == |qs| && forall i :: 0 <= i < |ps| ==> Raw(ps[i]) == Raw(qs[i])
    ensures Reveals(ps) == Reveals(qs)
  {
    if ps != [] {
      SameRevealsSameConcat(ps[..|ps| - 1], qs[..|ps| - 1]);
    }
  }

  /** A bundle of two participants whose ids hold no end of line is bound by its
      commit root against every accepted bundle, and a larger one against those
      whose ids are like that too: same participants, raw reveals and seed, unless
      one of the named pairs of hashed texts is a SHA3-256 collision. */
  lemma CommitRootBinds(c: Crypto, b1: Bundle, b2: Bundle)
    requires Lawful(c) && Consistent(c, b1) && Consistent(c, b2)
    requires WholeIds(b1.participants) && (|b1.participants| == 2 || WholeIds(b2.participants))
    requires b1.commitRoot == b2.commitRoot
    ensures var ps, qs := b1.participants, b2.participants;
            || Collides(c, CommitText(ps), CommitText(qs))
            || (&& SameCommits(ps, qs)
                && ((exists i :: 0 <= i < |ps| && Collides(c, Raw(ps[i]), Raw(qs[i])))
                    || ((forall i :: 0 <= i < |ps| ==> Raw(ps[i]) == Raw(qs[i]))
                        && b1.revealConcat == b2.revealConcat && b1.seed == b2.seed)))
  {
    hide Hex, Unhex, CommitText, Reveals;
    var ps, qs := b1.participants, b2.participants;
    HexInjective(c.sha3(CommitText(ps)), c.sha3(CommitText(qs)));
    if CommitText(ps) == CommitText(qs) {
      ConsistentCommitsAreHex(c, b1);
      ConsistentCommitsAreHex(c, b2);
      OtherReadingIsCoarser(ps, qs);
      if |ps| > 2 {
        CommitTextInjective(ps, qs);
      }
      forall i | 0 <= i < |ps| ensures c.sha3(Raw(ps[i])) == c.sha3(Raw(qs[i])) {
        assert Opens(c, ps[i]) && Opens(c, qs[i]);
        HexInjective(c.sha3(Raw(ps[i])), c.sha3(Raw(qs[i])));
      }
      if forall i :: 0 <= i < |ps| ==> Raw(ps[i]) == Raw(qs[i]) {
        SameRevealsSameConcat(ps, qs);
      }
    }
  }

  predicate OneLineHeader(h: Header) {
    OneLine(h.ceremonyId) && OneLine(h.network) && OneLine(h.treasuryAddr)
  }

  /** One labelled line of the genesis text. */
  lemma FieldInjective(field: string, a: string, x: string, b: string, y: string)
    requires OneLine(field) && OneLine(a) && OneLine(b) && Line(field + a, x) == Line(field + b, y)
    ensures a == b && x == y
  {
    JoinedIsOneLine(field, a);
    JoinedIsOneLine(field, b);
    LineInjective(field + a, x, field + b, y);
    PrefixInjective(field, a, b);
  }

  lemma GenesisTextInjective(c: Crypto, g: Header, r: string, s: string, h: Header, r': string, s': string)
    requires LawfulJson(c) && OneLineHeader(g) && OneLineHeader(h)
    requires OneLine(r) && OneLine(s) && OneLine(r') && OneLine(s')
    requires GenesisText(c, g, r, s) == GenesisText(c, h, r', s')
    ensures g.ceremonyId == h.ceremonyId && g.network == h.network && g.treasuryAddr == h.treasuryAddr
    ensures g.params == h.params && r == r' && s == s'
  {
    var p1, p2 := Line("params=" + c.json(g.params), ""), Line("params=" + c.json(h.params), "");
    var s1, s2 := Line("genesis_seed=" + s, p1), Line("genesis_seed=" + s', p2);
    var r1, r2 := Line("commit_root=" + r, s1), Line("commit_root=" + r', s2);
    var t1, t2 := Line("treasury_addr=" + g.treasuryAddr, r1), Line("treasury_addr=" + h.treasuryAddr, r2);
    var n1, n2 := Line("network=" + g.network, t1), Line("network=" + h.network, t2);
    FieldInjective("ceremony_id=", g.ceremonyId, n1, h.ceremonyId, n2);
    FieldInjective("network=", g.network, t1, h.network, t2);
    FieldInjective("treasury_addr=", g.treasuryAddr, r1, h.treasuryAddr, r2);
    FieldInjective("commit_root=", r, s1, r', s2);
    FieldInjective("genesis_seed=", s, p1, s', p2);
    FieldInjective("params=", c.json(g.params), "", c.json(h.params), "");
  }

  /** A genesis text has six lines, and one more for every newline in its header. */
  lemma LinesOfGenesis(c: Crypto, h: Header, r: string, s: string)
    requires LawfulJson(c) && OneLine(r) && OneLine(s)
    ensures Newlines(GenesisText(c, h, r, s))
            == 6 + Newlines(h.ceremonyId) + Newlines(h.network) + Newlines(h.treasuryAddr)
  {
    hide Newlines;
    var p1 := Line("params=" + c.json(h.params), "");
    var s1 := Line("genesis_seed=" + s, p1);
    var r1 := Line("commit_root=" + r, s1);
    var t1 := Line("treasury_addr=" + h.treasuryAddr, r1);
    var n1 := Line("network=" + h.network, t1);
    LinesOfField("ceremony_id=", h.ceremonyId, n1);
    LinesOfField("network=", h.network, t1);
    LinesOfField("treasury_addr=", h.treasuryAddr, r1);
    LinesOfField("commit_root=", r, s1);
    LinesOfField("genesis_seed=", s, p1);
    LinesOfField("params=", c.json(h.params), "");
    OneLineHasNone(r);
    OneLineHasNone(s);
    OneLineHasNone(c.json(h.params));
    OneLineHasNone("");
  }

  lemma LinesOfField(field: string, value: string, rest: string)
    requires OneLine(field)
    ensures Newlines(Line(field + value, rest)) == 1 + Newlines(value) + Newlines(rest)
  {
    NewlinesOfLine(field + value, rest);
    NewlinesAppend(field, value);
    OneLineHasNone(field);
  }

  /** If one header is one-line, so is every header with the same genesis text. */
  lemma OtherHeaderIsOneLine(c: Crypto, g: Header, r: string, s: string, h: Header, r': string, s': string)
    requires LawfulJson(c) && OneLineHeader(g) && OneLine(r) && OneLine(s) && OneLine(r') && OneLine(s')
    requires GenesisText(c, g, r, s) == GenesisText(c, h, r', s')
    ensures OneLineHeader(h)
  {
    hide GenesisText, Newlines;
    LinesOfGenesis(c, g, r, s);
    LinesOfGenesis(c, h, r', s');
    OneLineHasNone(g.ceremonyId);
    OneLineHasNone(g.network);
    OneLineHasNone(g.treasuryAddr);
    OneLineHasNone(h.ceremonyId);
    OneLineHasNone(h.network);
    OneLineHasNone(h.treasuryAddr);
  }

  /** Against every accepted bundle: equal genesis hashes force equal ceremony id, network, treasury address,
      parameters, commit root and seed, unless the genesis texts collide. */
  lemma GenesisHashBinds(c: Crypto, b1: Bundle, b2: Bundle)
    requires Lawful(c) && LawfulJson(c) && Consistent(c, b1) && Consistent(c, b2)
    requires OneLineHeader(b1.h)
    requires b1.genesisHash == b2.genesisHash
    ensures || Collides(c, GenesisText(c, b1.h, b1.commitRoot, b1.seed), GenesisText(c, b2.h, b2.commitRoot, b2.seed))
            || (&& b1.h.ceremonyId == b2.h.ceremonyId && b1.h.network == b2.h.network
                && b1.h.treasuryAddr == b2.h.treasuryAddr && b1.h.params == b2.h.params
                && b1.commitRoot == b2.commitRoot && b1.seed == b2.seed)
  {
    var t1, t2 := GenesisText(c, b1.h, b1.commitRoot, b1.seed), GenesisText(c, b2.h, b2.commitRoot, b2.seed);
    HexInjective(c.sha3(t1), c.sha3(t2));
    if t1 == t2 {
      HexIsOneLine(c.sha3(CommitText(b1.participants)));
      HexIsOneLine(c.sha3(CommitText(b2.participants)));
      HexIsOneLine(c.sha3(Reveals(b1.participants)));
      HexIsOneLine(c.sha3(Reveals(b2.participants)));
      OtherHeaderIsOneLine(c, b1.h, b1.commitRoot, b1.seed, b2.h, b2.commitRoot, b2.seed);
      GenesisTextInjective(c, b1.h, b1.commitRoot, b1.seed, b2.h, b2.commitRoot, b2.seed);
    }
  }

  predicate PlainSignatures(ps: seq<Participant>) {
    forall i :: 0 <= i < |ps| ==> OneLine(ps[i].signature) && '=' !in ps[i].signature
  }

  predicate SameSignatures(ps: seq<Participant>, qs: seq<Participant>) {
    |ps| == |qs| && forall i :: 0 <= i < |ps| ==> ps[i].id == qs[i].id && ps[i].signature == qs[i].signature
  }

  lemma SignatureLine(p: Participant, x: string, q: Participant, y: string)
    requires OneLine(p.id) && OneLine(q.id) && OneLine(p.signature) && OneLine(q.signature)
    requires '=' !in p.signature && '=' !in q.signature
    requires Line("sig:" + p.id + "=" + p.signature, x) == Line("sig:" + q.id + "=" + q.signature, y)
    ensures p.id == q.id && p.signature == q.signature && x == y
  {
    LineInjective("sig:" + p.id + "=" + p.signature, x, "sig:" + q.id + "=" + q.signature, y);
    LastEqualsSplits("sig:" + p.id, p.signature, "sig:" + q.id, q.signature);
    PrefixInjective("sig:", p.id, q.id);
  }

  /** A signature line is no finishing line. */
  lemma SignatureIsNotFinish(p: Participant, x: string, finished: string, y: string)
    requires OneLine(p.id) && OneLine(p.signature) && OneLine(finished)
    ensures Line("sig:" + p.id + "=" + p.signature, x) != Line("finished_at=" + finished, y)
  {
    assert Line("sig:" + p.id + "=" + p.signature, x)[0] == 's';
    assert Line("finished_at=" + finished, y)[0] == 'f';
  }

  lemma {:induction false} SignatureTextInjective(ps: seq<Participant>, f: string, qs: seq<Participant>, g: string)
    requires OneLineIds(ps) && OneLineIds(qs) && PlainSignatures(ps) && PlainSignatures(qs) && OneLine(f) && OneLine(g)
    requires SignatureText(ps, f) == SignatureText(qs, g)
    ensures SameSignatures(ps, qs) && f == g
  {
    if ps == [] && qs == [] {
      FieldInjective("finished_at=", f, "", g, "");
    } else if ps == [] {
      SignatureIsNotFinish(qs[0], SignatureText(qs[1..], g), f, "");
    } else if qs == [] {
      SignatureIsNotFinish(ps[0], SignatureText(ps[1..], f), g, "");
    } else {
      SignatureLine(ps[0], SignatureText(ps[1..], f), qs[0], SignatureText(qs[1..], g));
      SignatureTextInjective(ps[1..], f, qs[1..], g);
      forall i | 0 <= i < |ps| ensures ps[i].id == qs[i].id && ps[i].signature == qs[i].signature {
        if i > 0 {
          assert ps[i] == ps[1..][i - 1] && qs[i] == qs[1..][i - 1];
        }
      }
    }
  }

  lemma ConsistentSignaturesArePlain(c: Crypto, b: Bundle)
    requires Lawful(c) && Consistent(c, b)
    ensures PlainSignatures(b.participants)
  {
    hide Unhex, Hex, CommitText, GenesisText, Reveals, Less;
    forall i | 0 <= i < |b.participants| ensures OneLine(b.participants[i].signature) && '=' !in b.participants[i].signature {
      assert Signed(c, b.participants[i], Unhex(b.genesisHash).value);
      UnhexIsPlain(b.participants[i].signature);
    }
  }

  /** Two accepted bundles with one-line ids and finishing times and the same bundle
      hash have the same genesis hash, finishing time and, participant by participant,
      ids and signatures, unless the two texts are a collision. */
  lemma BundleHashBinds(c: Crypto, b1: Bundle, b2: Bundle)
    requires Lawful(c) && Consistent(c, b1) && Consistent(c, b2)
    requires OneLineIds(b1.participants) && OneLineIds(b2.participants)
    requires OneLine(b1.h.finishedAt) && OneLine(b2.h.finishedAt)
    requires b1.bundleHash == b2.bundleHash
    ensures || Collides(c, BundleText(b1.genesisHash, b1.participants, b1.h.finishedAt),
                        BundleText(b2.genesisHash, b2.participants, b2.h.finishedAt))
            || (&& b1.genesisHash == b2.genesisHash && b1.h.finishedAt == b2.h.finishedAt
                && SameSignatures(b1.participants, b2.participants))
  {
    var t1 := BundleText(b1.genesisHash, b1.participants, b1.h.finishedAt);
    var t2 := BundleText(b2.genesisHash, b2.participants, b2.h.finishedAt);
    HexInjective(c.sha3(t1), c.sha3(t2));
    HexIsOneLine(c.sha3(GenesisText(c, b1.h, b1.commitRoot, b1.seed)));
    HexIsOneLine(c.sha3(GenesisText(c, b2.h, b2.commitRoot, b2.seed)));
    ConsistentSignaturesArePlain(c, b1);
    ConsistentSignaturesArePlain(c, b2);
    if t1 == t2 {
      hide SignatureText, CommitText, GenesisText, Reveals, Hex, Unhex;
      FieldInjective("genesis_hash=", b1.genesisHash, SignatureText(b1.participants, b1.h.finishedAt),
                     b2.genesisHash, SignatureText(b2.participants, b2.h.finishedAt));
      SignatureTextInjective(b1.participants, b1.h.finishedAt, b2.participants, b2.h.finishedAt);
    }
  }

  /** The concatenation holds each participant's reveal at its place. */
  lemma {:induction false} RevealsAt(ps: seq<Participant>, i: nat)
    requires i < |ps| && forall k :: 0 <= k < |ps| ==> |Raw(ps[k])| == 32
    ensures |Reveals(ps)| == 32 * |ps| && Reveals(ps)[32 * i..32 * i + 32] == Raw(ps[i])
    decreases |ps|
  {
    hide Unhex;
    var n := |ps| - 1;
    if i < n {
      RevealsAt(ps[..n], i);
    } else if n > 0 {
      RevealsAt(ps[..n], 0);
    }
  }

  /** The supply adds up, or adds up only because the sum wraps around at 64 bits. */
  lemma SupplyAddsUpExactlyWhen(p: Params)
    requires p.total < 0x1_0000_0000_0000_0000 && p.treasury < 0x1_0000_0000_0000_0000 && p.mining < 0x1_0000_0000_0000_0000
    ensures SupplyAddsUp(p) <==> p.total == p.treasury + p.mining || p.total + 18446744073709551616 == p.treasury + p.mining
  {
  }

  // ---------------------------------------------------------------------
  // Rival readings of one commit text
  // ---------------------------------------------------------------------

  function Someone(c: Crypto, id: string, s: Secret): Draft
    requires IsReveal(s.revealBytes) && IsBytes(c.publicKey(s.key)) && IsBytes(c.sha3(s.revealBytes))
  {
    Draft(Participant(id, Hex(c.publicKey(s.key)), Digest(c, s.revealBytes), Hex(s.revealBytes), ""), s.key, s.revealBytes)
  }

  lemma {:induction false} CommitTextAppend(ps: seq<Participant>, qs: seq<Participant>)
    ensures CommitText(ps + qs) == CommitText(ps) + CommitText(qs)
  {
    if ps == [] {
      assert ps + qs == qs;
    } else {
      CommitTextAppend(ps[1..], qs);
      assert (ps + qs)[1..] == ps[1..] + qs;
      LineAppend(Entry(ps[0]), CommitText(ps[1..]), CommitText(qs));
    }
  }

  lemma LineAppend(head: string, x: string, y: string)
    ensures Line(head, x + y) == Line(head, x) + y
  {
    assert head + ['\n'] + (x + y) == head + ['\n'] + x + y;
  }

  /** One participant in place of the last two: its id holds the whole line of the
      first and the id of the second. */
  function Merged(ps: seq<Participant>): seq<Participant>
    requires |ps| >= 2
  {
    var x, y := ps[|ps| - 2], ps[|ps| - 1];
    ps[..|ps| - 2] + [y.(id := Entry(x) + ['\n'] + y.id)]
  }

  lemma MergedReadsTheSame(ps: seq<Participant>)
    requires |ps| >= 2
    ensures CommitText(Merged(ps)) == CommitText(ps)
  {
    hide CommitText;
    var n := |ps| - 2;
    var x, y := ps[n], ps[n + 1];
    var z := y.(id := Entry(x) + ['\n'] + y.id);
    CommitTextAppend(ps[..n], [z]);
    CommitTextAppend(ps[..n], [x, y]);
    assert ps == ps[..n] + [x, y];
    TwoLinesInOne(x, y, z);
  }

  lemma TwoLinesInOne(x: Participant, y: Participant, z: Participant)
    requires z == y.(id := Entry(x) + ['\n'] + y.id)
    ensures CommitText([z]) == CommitText([x, y])
  {
    assert [x, y][1..] == [y] && [y][1..] == [] && [z][1..] == [];
    assert Entry(z) == Entry(x) + ['\n'] + Entry(y);
  }

  lemma MergedAscends(ps: seq<Participant>)
    requires |ps| >= 2 && Ascending(ps)
    ensures Ascending(Merged(ps))
  {
    hide Less;
    var qs, n := Merged(ps), |ps| - 2;
    forall i | 0 < i < |qs| ensures Less(qs[i - 1].id, qs[i].id) {
      if i == n {
        assert Less(ps[n - 1].id, ps[n].id);
        assert qs[n].id == ps[n].id + (":" + ps[n].commit + ['\n'] + ps[n + 1].id);
        LessWithMore(ps[n - 1].id, ps[n].id, ":" + ps[n].commit + ['\n'] + ps[n + 1].id);
      } else {
        assert Less(ps[i - 1].id, ps[i].id);
      }
    }
  }

  /** The drafts somebody else makes of published participants: the same ids, commits
      and reveals, signed with a key of their own. */
  function Copied(c: Crypto, key: nat, ps: seq<Participant>): (ds: seq<Draft>)
    requires forall i :: 0 <= i < |ps| ==> |Raw(ps[i])| == 32
    requires (forall k :: IsBytes(c.publicKey(k))) && forall x :: IsBytes(c.sha3(x))
    ensures |ds| == |ps| && forall i :: 0 <= i < |ps| ==> ds[i] == Someone(c, ps[i].id, Secret(key, Raw(ps[i])))
  {
    seq(|ps|, i requires 0 <= i < |ps| => Someone(c, ps[i].id, Secret(key, Raw(ps[i]))))
  }

  lemma {:induction false} AscendingApart(ps: seq<Participant>, i: nat, j: nat)
    requires Ascending(ps) && i < j < |ps|
    ensures Less(ps[i].id, ps[j].id)
    decreases j
  {
    hide Less;
    assert Less(ps[j - 1].id, ps[j].id);
    if i < j - 1 {
      AscendingApart(ps, i, j - 1);
      LessTransitive(ps[i].id, ps[j - 1].id, ps[j].id);
    }
  }

  /** Any participants in order that open their commits can be sealed by anybody. */
  lemma AnyoneCanSeal(c: Crypto, h: Header, key: nat, ps: seq<Participant>) returns (b: Bundle)
    requires Lawful(c) && SupplyAddsUp(h.params) && |ps| >= 2 && Ascending(ps)
    requires forall i :: 0 <= i < |ps| ==> Opens(c, ps[i])
    ensures Consistent(c, b) && SameCommits(ps, b.participants) && b.commitRoot == Digest(c, CommitText(ps))
    ensures CommitText(b.participants) == CommitText(ps)
  {
    hide Less, Hex, Unhex, CommitText, Reveals;
    var ds := Copied(c, key, ps);
    forall i, j | 0 <= i < j < |ds| ensures Before(ds[i], ds[j]) {
      AscendingApart(ps, i, j);
    }
    b := Seal(c, h, ds);
    SealIsConsistent(c, h, ds);
    SigningKeepsTexts(Public(ds), ps);
    SigningKeepsTexts(b.participants, ps);
  }

  /** Every accepted bundle of three or more participants has a rival: another
      accepted bundle with the same commit root, one participant fewer, and a
      different id in the last place. Anybody can make it. */
  lemma NewlineIdUnbinds(c: Crypto, b: Bundle, key: nat) returns (rival: Bundle)
    requires Lawful(c) && Consistent(c, b) && |b.participants| >= 3
    ensures Consistent(c, rival) && rival.commitRoot == b.commitRoot
    ensures CommitText(rival.participants) == CommitText(b.participants)
    ensures |rival.participants| == |b.participants| - 1
  {
    hide Less, CommitText, Reveals, Hex, Unhex;
    var ps := b.participants;
    MergedReadsTheSame(ps);
    MergedAscends(ps);
    forall i | 0 <= i < |Merged(ps)| ensures Opens(c, Merged(ps)[i]) {
      assert Opens(c, ps[i]) && Opens(c, ps[|ps| - 1]);
    }
    rival := AnyoneCanSeal(c, b.h, key, Merged(ps));
  }

  /** Every accepted bundle with the same commit text has the same ids and commits. */
  ghost predicate Bound(c: Crypto, b: Bundle)
    requires Lawful(c)
  {
    forall r :: Consistent(c, r) && CommitText(r.participants) == CommitText(b.participants)
                ==> SameCommits(b.participants, r.participants)
  }

  /** For an accepted bundle whose ids hold no end of line, and so for every one with
      one-line ids, the commit text binds if and only if there are two participants. */
  lemma BoundExactlyWhenTwo(c: Crypto, b: Bundle)
    requires Lawful(c) && Consistent(c, b) && WholeIds(b.participants)
    ensures Bound(c, b) <==> |b.participants| == 2
  {
    hide CommitText;
    if |b.participants| == 2 {
      forall r | Consistent(c, r) && CommitText(r.participants) == CommitText(b.participants)
        ensures SameCommits(b.participants, r.participants)
      {
        ConsistentCommitsAreHex(c, b);
        ConsistentCommitsAreHex(c, r);
        OtherReadingIsCoarser(b.participants, r.participants);
      }
    } else {
      var rival := NewlineIdUnbinds(c, b, 0);
    }
  }
}
