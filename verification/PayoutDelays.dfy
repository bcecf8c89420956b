/** The payout signer on a network that keeps what it was given: any envelope ever
    sent may reach the node later, between any two calls, any number of times.

    `Pay` lets a submission be applied at once or never. Here a submission that
    the client gave up on can still be applied, even between the balance read and
    the retry of another payout. */
module PayoutDelays {
  import opened PayoutLedger
  import opened PayoutSigner
  import opened PayoutSafety

  /** Signer and node, and every envelope sent so far. */
  datatype Late = Late(w: World, sent: set<Entry>)

  /** The late arrivals between the calls of one payout. */
  datatype Post = Post(beforeFirst: seq<Entry>, beforeResync: seq<Entry>, beforeRetry: seq<Entry>, beforeEnd: seq<Entry>)

  const NO_POST := Post([], [], [], [])

  /** One arrival of something that was sent; nobody reads the answer. */
  function ArriveOne(c: Config, s: Late, e: Entry): Late {
    if e in s.sent then s.(w := s.w.(ledger := Submit(c.refusesBlank, s.w.ledger, e.env, e.request).0)) else s
  }

  function Arrive(c: Config, s: Late, mail: seq<Entry>): Late {
    if mail == [] then s else ArriveOne(c, Arrive(c, s, mail[..|mail| - 1]), mail[|mail| - 1])
  }

  /** One submission under the cached nonce, remembered by the network. */
  function Send(c: Config, s: Late, id: TxId, q: Request, fate: Fate): (Late, Outcome) {
    var (l, o) := SignAndSubmit(c, s.w.ledger, id, q, s.w.nonce, fate);
    (Late(s.w.(ledger := l), s.sent + {Entry(EnvelopeOf(c, id, q, s.w.nonce), q.id)}), o)
  }

  function Reread(s: Late): Late {
    s.(w := s.w.(nonce := s.w.ledger.last + 1))
  }

  function Finish(s: Late, o: Outcome, dupResync: bool): (Late, Reply) {
    var (w, reply) := Conclude(s.w.nonce, s.w.ledger, o, dupResync);
    (s.(w := w), reply)
  }

  /** The first submission and what arrives around it. */
  function FirstPart(c: Config, s: Late, q: Request, net: Network, post: Post): (Late, Outcome) {
    var (s1, o1) := Send(c, Arrive(c, s, post.beforeFirst), DeriveId(q, s.w.nonce), q, net.first);
    (Arrive(c, s1, post.beforeResync), o1)
  }

  /** The resync, the retry and what arrives around them. */
  function SecondPart(c: Config, s: Late, id: TxId, q: Request, net: Network, post: Post): (Late, Outcome) {
    Send(c, Arrive(c, Reread(s), post.beforeRetry), RetryId(c, id), q, net.second)
  }

  /** One payout, with arrivals between its calls. */
  function PayLate(c: Config, s: Late, q: Request, net: Network, post: Post): (Late, Reply) {
    if !Admits(c, q) then (s, Denied)
    else if !net.balance then (s, BadGateway)
    else if Blocked(c, s.w, q) then (s, ReserveBlocked)
    else
      var (s1, o1) := FirstPart(c, s, q, net, post);
      if o1 == Failed(true) && net.resync then
        var (s2, o2) := SecondPart(c, s1, DeriveId(q, s.w.nonce), q, net, post);
        Finish(Arrive(c, s2, post.beforeEnd), o2, net.dupResync)
      else
        Finish(Arrive(c, s1, post.beforeEnd), o1, net.dupResync)
  }

  datatype LateEvent = Prompt(e: Event) | Slow(q: Request, net: Network, post: Post) | Mail(mail: seq<Entry>)

  function LateStep(c: Config, s: Late, e: LateEvent): Late {
    match e
    case Prompt(Payout(q, net)) => PayLate(c, s, q, net, NO_POST).0
    case Prompt(other) => s.(w := Step(c, s.w, other))
    case Slow(q, net, post) => PayLate(c, s, q, net, post).0
    case Mail(mail) => Arrive(c, s, mail)
  }

  function LateRun(c: Config, s: Late, events: seq<LateEvent>): Late
    decreases |events|
  {
    if events == [] then s
    else LateStep(c, LateRun(c, s, events[..|events| - 1]), events[|events| - 1])
  }

  // ---------------------------------------------------------------------
  // Without late arrivals
  // ---------------------------------------------------------------------

  /** With nothing arriving late, this is the handler as it was. */
  lemma PromptPay(c: Config, s: Late, q: Request, net: Network)
    ensures var (s', reply) := PayLate(c, s, q, net, NO_POST); (s'.w, reply) == Pay(c, s.w, q, net)
  {
    hide Admits, SignAndSubmit, DeriveId;
  }

  function Prompts(events: seq<Event>): (es: seq<LateEvent>)
    ensures |es| == |events|
  {
    seq(|events|, i requires 0 <= i < |events| => Prompt(events[i]))
  }

  lemma {:induction false} PromptRun(c: Config, s: Late, events: seq<Event>)
    ensures LateRun(c, s, Prompts(events)).w == Run(c, s.w, events)
    decreases |events|
  {
    hide PayLate, Pay;
    if events != [] {
      var n := |events| - 1;
      PromptRun(c, s, events[..n]);
      assert Prompts(events)[..n] == Prompts(events[..n]);
      if events[n].Payout? {
        PromptPay(c, LateRun(c, s, Prompts(events[..n])), events[n].q, events[n].net);
      }
    }
  }

  // ---------------------------------------------------------------------
  // What the network may hold
  // ---------------------------------------------------------------------

  /** An envelope that could still be applied was checked against the balance the
      wallet has now. */
  predicate WithinReserve(c: Config, l: Ledger, e: Entry) {
    e.env.id != Blank && e.env.nonce == l.last + 1 ==> l.balance - e.env.amount - e.env.fee >= c.reserve
  }

  predicate Posted(c: Config, l: Ledger, e: Entry) {
    1 <= e.env.nonce <= l.last + 1 && e.env.fee == c.fee && |c.role| <= 32
  }

  /** What holds in every state, whatever the configuration. */
  ghost predicate InOrder(c: Config, s: Late) {
    Coherent(s.w) && forall e :: e in s.sent ==> Posted(c, s.w.ledger, e)
  }

  ghost predicate AllHarmless(c: Config, s: Late) {
    Labelled(s.w.ledger.entries) && forall e :: e in s.sent ==> Harmless(c, e)
  }

  ghost predicate AllWithinReserve(c: Config, s: Late) {
    s.w.ledger.balance >= c.reserve && forall e :: e in s.sent ==> WithinReserve(c, s.w.ledger, e)
  }

  /** The ledger once `e` has reached the node, at whatever time: unchanged, or with
      `e` applied at the next nonce. */
  predicate Grown(c: Config, l: Ledger, e: Entry, l': Ledger) {
    || l' == l
    || (&& e.env.nonce == l.last + 1 && e.env.id !in Ids(l.entries) && e.env.fee >= 0.0 && e.env.amount > 0.0
        && (e.env.id == Blank ==> !c.refusesBlank) && l.balance >= e.env.amount + e.env.fee
        && l' == Applied(l, e.env, e.request))
  }

  lemma SubmitEffect(c: Config, l: Ledger, e: Entry)
    requires e.env.nonce >= 1
    ensures Grown(c, l, e, Submit(c.refusesBlank, l, e.env, e.request).0)
  {
  }

  lemma GrownKeepsOrder(c: Config, s: Late, e: Entry, l: Ledger)
    requires InOrder(c, s) && Grown(c, s.w.ledger, e, l)
    ensures InOrder(c, s.(w := s.w.(ledger := l))) && s.w.ledger.last <= l.last
  {
    hide UniqueIds, NoncesIncrease;
    if l != s.w.ledger {
      AppliedKeepsOrder(s.w.ledger, e.env, e.request);
    }
  }

  lemma GrownKeepsHarmless(c: Config, s: Late, e: Entry, l: Ledger)
    requires AllHarmless(c, s) && Harmless(c, e) && Grown(c, s.w.ledger, e, l)
    ensures AllHarmless(c, s.(w := s.w.(ledger := l)))
  {
  }

  /** The retry as written, against a node that refuses its blank id. */
  predicate OneShot(c: Config) {
    c.retry == BlanksId && c.refusesBlank
  }

  lemma GrownKeepsReserve(c: Config, s: Late, e: Entry, l: Ledger)
    requires InOrder(c, s) && OneShot(c) && AllWithinReserve(c, s) && Grown(c, s.w.ledger, e, l)
    requires WithinReserve(c, s.w.ledger, e)
    ensures AllWithinReserve(c, s.(w := s.w.(ledger := l)))
  {
    hide Coherent;
    if l != s.w.ledger {
      forall x | x in s.sent ensures WithinReserve(c, l, x) {
        assert Posted(c, s.w.ledger, x);
      }
    }
  }

  /** Everything an arrival keeps. */
  lemma {:induction false} ArriveKeeps(c: Config, s: Late, mail: seq<Entry>)
    requires InOrder(c, s)
    ensures var s' := Arrive(c, s, mail);
            && InOrder(c, s') && s'.sent == s.sent && s'.w.nonce == s.w.nonce
            && s.w.ledger.last <= s'.w.ledger.last
            && (s'.w.ledger.last == s.w.ledger.last ==> s'.w == s.w)
            && (AllHarmless(c, s) ==> AllHarmless(c, s'))
            && (OneShot(c) && AllWithinReserve(c, s) ==> AllWithinReserve(c, s'))
            && (c.reserve <= 0.0 && s.w.ledger.balance >= c.reserve ==> s'.w.ledger.balance >= c.reserve)
            && (Inert(c) ==> s' == s)
    decreases |mail|
  {
    hide InOrder, AllHarmless, AllWithinReserve, OneShot;
    if mail != [] {
      ArriveKeeps(c, s, mail[..|mail| - 1]);
      ArriveOneKeeps(c, Arrive(c, s, mail[..|mail| - 1]), mail[|mail| - 1]);
    }
  }

  lemma ArriveOneKeeps(c: Config, s: Late, e: Entry)
    requires InOrder(c, s)
    ensures var s' := ArriveOne(c, s, e);
            && InOrder(c, s') && s'.sent == s.sent && s'.w.nonce == s.w.nonce
            && s.w.ledger.last <= s'.w.ledger.last
            && (s'.w.ledger.last == s.w.ledger.last ==> s'.w == s.w)
            && (AllHarmless(c, s) ==> AllHarmless(c, s'))
            && (OneShot(c) && AllWithinReserve(c, s) ==> AllWithinReserve(c, s'))
            && (c.reserve <= 0.0 && s.w.ledger.balance >= c.reserve ==> s'.w.ledger.balance >= c.reserve)
            && (Inert(c) ==> s' == s)
  {
    if e in s.sent {
      assert Posted(c, s.w.ledger, e);
      hide Coherent, Submit, Harmless, WithinReserve, Labelled, OneShot;
      SubmitEffect(c, s.w.ledger, e);
      var l := Submit(c.refusesBlank, s.w.ledger, e.env, e.request).0;
      GrownKeepsOrder(c, s, e, l);
      if AllHarmless(c, s) {
        GrownKeepsHarmless(c, s, e, l);
      }
      if OneShot(c) && AllWithinReserve(c, s) {
        GrownKeepsReserve(c, s, e, l);
      }
    }
  }

  /** Everything a submission keeps, given that its envelope is one the invariants
      allow on the network. */
  lemma SendKeeps(c: Config, s: Late, id: TxId, q: Request, fate: Fate)
    requires InOrder(c, s) && Admits(c, q)
    ensures var (s', o) := Send(c, s, id, q, fate);
            var e := Entry(EnvelopeOf(c, id, q, s.w.nonce), q.id);
            && InOrder(c, s') && s'.w.nonce == s.w.nonce
            && s.w.ledger.last <= s'.w.ledger.last
            && (o.Submitted? && !o.duplicate ==> s.w.nonce <= s'.w.ledger.last)
            && (AllHarmless(c, s) && Harmless(c, e) ==> AllHarmless(c, s'))
            && (OneShot(c) && AllWithinReserve(c, s) && WithinReserve(c, s.w.ledger, e) ==> AllWithinReserve(c, s'))
            && (c.reserve <= 0.0 && s.w.ledger.balance >= c.reserve ==> s'.w.ledger.balance >= c.reserve)
            && (Inert(c) ==> s'.w == s.w)
  {
    var e := Entry(EnvelopeOf(c, id, q, s.w.nonce), q.id);
    var more := s.(sent := s.sent + {e});
    assert Posted(c, s.w.ledger, e);
    SubmissionEffect(c, s.w.ledger, id, q, s.w.nonce, fate);
    SendEffect(c, s.w.ledger, id, q, s.w.nonce, fate);
    hide Coherent, SignAndSubmit, Harmless, WithinReserve, Labelled, OneShot, Admits;
    var l := SignAndSubmit(c, s.w.ledger, id, q, s.w.nonce, fate).0;
    GrownKeepsOrder(c, more, e, l);
    if AllHarmless(c, s) && Harmless(c, e) {
      GrownKeepsHarmless(c, more, e, l);
    }
    if OneShot(c) && AllWithinReserve(c, s) && WithinReserve(c, s.w.ledger, e) {
      GrownKeepsReserve(c, more, e, l);
    }
  }

  lemma SendEffect(c: Config, l: Ledger, id: TxId, q: Request, nonce: nat, fate: Fate)
    requires nonce >= 1
    ensures Grown(c, l, Entry(EnvelopeOf(c, id, q, nonce), q.id), SignAndSubmit(c, l, id, q, nonce, fate).0)
  {
    SubmitEffect(c, l, Entry(EnvelopeOf(c, id, q, nonce), q.id));
  }

  // ---------------------------------------------------------------------
  // One payout
  // ---------------------------------------------------------------------

  /** What a part of a payout keeps. */
  ghost predicate Kept(c: Config, s: Late, s': Late, o: Outcome) {
    && InOrder(c, s') && (o.Submitted? && !o.duplicate ==> s'.w.nonce <= s'.w.ledger.last)
    && (Safe(c) && AllHarmless(c, s) ==> AllHarmless(c, s'))
    && (OneShot(c) && AllWithinReserve(c, s) ==> AllWithinReserve(c, s'))
    && (c.reserve <= 0.0 && s.w.ledger.balance >= c.reserve ==> s'.w.ledger.balance >= c.reserve)
    && (Inert(c) ==> s'.w.ledger.balance >= s.w.ledger.balance)
  }

  /** If nothing was applied between the balance read and the first submission, the
      check still covers it; if something was, its nonce is too old. */
  lemma FirstPartKeeps(c: Config, s: Late, q: Request, net: Network, post: Post)
    requires InOrder(c, s) && Admits(c, q) && !Blocked(c, s.w, q)
    ensures var (s', o) := FirstPart(c, s, q, net, post); Kept(c, s, s', o)
  {
    var id := DeriveId(q, s.w.nonce);
    var e := Entry(EnvelopeOf(c, id, q, s.w.nonce), q.id);
    ArriveKeeps(c, s, post.beforeFirst);
    var s0 := Arrive(c, s, post.beforeFirst);
    assert Harmless(c, e);
    assert WithinReserve(c, s0.w.ledger, e);
    hide InOrder, Admits, Blocked, AllHarmless, AllWithinReserve, OneShot, Harmless, WithinReserve, DeriveId, Send, Arrive, Safe;
    SendKeeps(c, s0, id, q, net.first);
    ArriveKeeps(c, Send(c, s0, id, q, net.first).0, post.beforeResync);
  }

  /** The retry of a safe signer keeps its id or is refused. */
  lemma SecondPartKeeps(c: Config, s: Late, q: Request, n: nat, net: Network, post: Post)
    requires InOrder(c, s) && Admits(c, q)
    ensures var (s', o) := SecondPart(c, s, DeriveId(q, n), q, net, post); Kept(c, s, s', o)
  {
    var id := RetryId(c, DeriveId(q, n));
    RereadKeeps(c, s);
    var s1 := Reread(s);
    ArriveKeeps(c, s1, post.beforeRetry);
    var s2 := Arrive(c, s1, post.beforeRetry);
    var e := Entry(EnvelopeOf(c, id, q, s2.w.nonce), q.id);
    assert Safe(c) ==> Harmless(c, e) by {
      assert Admits(c, q) ==> |c.role| <= 32;
    }
    assert OneShot(c) ==> WithinReserve(c, s2.w.ledger, e);
    hide InOrder, Admits, AllHarmless, AllWithinReserve, OneShot, Harmless, WithinReserve, DeriveId, Send, Arrive, Safe, RetryId;
    SendKeeps(c, s2, id, q, net.second);
  }

  lemma RereadKeeps(c: Config, s: Late)
    requires InOrder(c, s)
    ensures InOrder(c, Reread(s))
    ensures AllHarmless(c, s) ==> AllHarmless(c, Reread(s))
    ensures AllWithinReserve(c, s) ==> AllWithinReserve(c, Reread(s))
  {
  }

  /** Ending a payout: late arrivals, then the new cached nonce. */
  lemma FinishKeeps(c: Config, start: Late, s: Late, o: Outcome, mail: seq<Entry>, dupResync: bool)
    requires Kept(c, start, s, o)
    ensures Kept(c, start, Finish(Arrive(c, s, mail), o, dupResync).0, Failed(false))
  {
    ArriveKeeps(c, s, mail);
    hide UniqueIds, NoncesIncrease, Arrive, Safe, OneShot;
  }

  lemma PayLateKeeps(c: Config, s: Late, q: Request, net: Network, post: Post)
    requires InOrder(c, s)
    ensures Kept(c, s, PayLate(c, s, q, net, post).0, Failed(false))
  {
    if Admits(c, q) && net.balance && !Blocked(c, s.w, q) {
      FirstPartKeeps(c, s, q, net, post);
      var (s1, o1) := FirstPart(c, s, q, net, post);
      hide InOrder, Admits, Blocked, AllHarmless, AllWithinReserve, OneShot, DeriveId, Send, Arrive, Safe, Finish, Reread;
      if o1 == Failed(true) && net.resync {
        SecondPartKeeps(c, s1, q, s.w.nonce, net, post);
        var (s2, o2) := SecondPart(c, s1, DeriveId(q, s.w.nonce), q, net, post);
        FinishKeeps(c, s, s2, o2, post.beforeEnd, net.dupResync);
      } else {
        FinishKeeps(c, s, s1, o1, post.beforeEnd, net.dupResync);
      }
    }
  }

  // ---------------------------------------------------------------------
  // Every run
  // ---------------------------------------------------------------------

  lemma LateStepKeeps(c: Config, s: Late, e: LateEvent)
    requires InOrder(c, s)
    ensures Kept(c, s, LateStep(c, s, e), Failed(false))
  {
    match e
    case Prompt(Payout(q, net)) => PayLateKeeps(c, s, q, net, NO_POST);
    case Prompt(Resync(_)) => RereadKeeps(c, s);
    case Prompt(Deposit(_)) =>
    case Slow(q, net, post) => PayLateKeeps(c, s, q, net, post);
    case Mail(mail) => ArriveKeeps(c, s, mail);
  }

  lemma {:induction false} LateRunKeeps(c: Config, s: Late, events: seq<LateEvent>)
    requires InOrder(c, s)
    ensures Kept(c, s, LateRun(c, s, events), Failed(false))
    decreases |events|
  {
    hide LateStep, InOrder, AllHarmless, AllWithinReserve, OneShot, Safe, Inert;
    if events != [] {
      LateRunKeeps(c, s, events[..|events| - 1]);
      LateStepKeeps(c, LateRun(c, s, events[..|events| - 1]), events[|events| - 1]);
    }
  }

  ghost predicate AlwaysOnceLate(c: Config) {
    forall w, events :: Coherent(w) && Labelled(w.ledger.entries)
                        ==> AtMostOnce(LateRun(c, Late(w, {}), events).w.ledger.entries)
  }

  /** At most one transfer per request holds on the slow network exactly for the
      same configurations as on the prompt one: late and repeated arrivals never
      pay a request twice. */
  lemma LateOnceExactlyWhenSafe(c: Config)
    ensures AlwaysOnceLate(c) <==> Safe(c)
  {
    if Safe(c) {
      forall w, events | Coherent(w) && Labelled(w.ledger.entries)
        ensures AtMostOnce(LateRun(c, Late(w, {}), events).w.ledger.entries)
      {
        LateRunKeeps(c, Late(w, {}), events);
        LabelsMeanOnce(LateRun(c, Late(w, {}), events).w.ledger.entries);
      }
    } else {
      BlankIdPaysTwice(c);
      var w := RichStart(c);
      PromptRun(c, Late(w, {}), BlankIdRun(c));
      assert Coherent(w) && Labelled(w.ledger.entries);
    }
  }

  ghost predicate AlwaysAboveReserveLate(c: Config) {
    forall w, events :: Coherent(w) && w.ledger.balance >= c.reserve
                        ==> LateRun(c, Late(w, {}), events).w.ledger.balance >= c.reserve
  }

  /** The configurations that keep the reserve on a slow network. A positive
      reserve is safe only if every balance check covers a single transfer. */
  predicate KeepsLateReserve(c: Config) {
    c.reserve <= 0.0 || OneShot(c) || Inert(c)
  }

  /** A retry that keeps its id, and so can succeed, lets two transfers pass one
      reserve check: the first request times out and arrives while the second is
      under way. */
  lemma LateArrivalSpendsReserve(c: Config) returns (w: World, run: seq<LateEvent>)
    requires c.retry == KeepsId && c.reserve > 0.0 && !Inert(c)
    ensures Start(w) && w.ledger.balance >= c.reserve
    ensures LateRun(c, Late(w, {}), run).w.ledger.balance < c.reserve
  {
    var qa, qb := SomeRequest(c, "a"), SomeRequest(c, "b");
    var need := qa.amount + c.fee;
    var left := if c.reserve >= need then c.reserve else need;
    w := World(1, Ledger(0, left + need, []));
    var ea := Entry(EnvelopeOf(c, RequestId(c.role, "a"), qa, 1), "a");
    var timeout := Network(true, RequestLost(false), true, Delivered, true);
    var post := Post([ea], [], [], []);
    run := [Slow(qa, timeout, NO_POST), Slow(qb, CALM, post)];
    var s1 := Late(w, {ea});
    assert Admits(c, qa) && Admits(c, qb);
    assert PayLate(c, Late(w, {}), qa, timeout, NO_POST).0 == s1;
    ArrivesDuringPayout(c, s1, qb, ea, left);
    assert run[..1] == [run[0]] && run[..1][..0] == [];
    assert LateRun(c, Late(w, {}), run[..1]) == s1;
  }

  lemma ArrivesDuringPayout(c: Config, s: Late, q: Request, e: Entry, left: real)
    requires c.retry == KeepsId && !Inert(c) && Admits(c, q) && q.id != "" && q.recipient != c.sender
    requires s.w == World(1, Ledger(0, left + q.amount + c.fee, [])) && s.sent == {e}
    requires e.env == EnvelopeOf(c, e.env.id, q, 1) && e.env.id != RequestId(q.purpose, q.id) && e.env.id != Blank
    requires left >= c.reserve && left >= q.amount + c.fee
    ensures PayLate(c, s, q, CALM, Post([e], [], [], [])).0.w.ledger.balance == left - q.amount - c.fee
  {
    var id := RequestId(q.purpose, q.id);
    var l1 := Applied(s.w.ledger, e.env, e.request);
    assert [e][..0] == [] && Arrive(c, s, []) == s;
    var s1 := Arrive(c, s, [e]);
    assert s1 == ArriveOne(c, s, e);
    assert s1 == Late(World(1, l1), {e});
    assert SignAndSubmit(c, l1, id, q, 1, Delivered) == (l1, Failed(true));
    assert l1.entries == [e];
    SubmissionApplied(c, l1, id, q, Delivered);
  }

  /** Over every run with late arrivals the reserve is kept if and only if it is not
      positive, or nothing is ever paid, or the retry is the one as written against
      a node that refuses its blank id: the retry that keeps its id does not. */
  lemma LateReserveExactlyWhen(c: Config)
    ensures AlwaysAboveReserveLate(c) <==> KeepsLateReserve(c)
  {
    if KeepsLateReserve(c) {
      forall w, events | Coherent(w) && w.ledger.balance >= c.reserve
        ensures LateRun(c, Late(w, {}), events).w.ledger.balance >= c.reserve
      {
        LateRunKeeps(c, Late(w, {}), events);
      }
    } else if c.retry == KeepsId {
      var w, run := LateArrivalSpendsReserve(c);
      assert Coherent(w);
    } else {
      var w, run := BlankIdSpendsReserve(c);
      PromptRun(c, Late(w, {}), run);
      assert Coherent(w);
    }
  }
}
