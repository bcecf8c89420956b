/** What the applied transfers say: who pays whom, how much and for which request,
    field by field, over every run of the payout signer. */
module PayoutRecords {
  import opened PayoutLedger
  import opened PayoutSigner
  import opened PayoutSafety
  import Delays = PayoutDelays
  import Queue = PayoutValidator

  /** The transfer pays the request's recipient its amount, from the operator's wallet. */
  predicate PaysRequest(c: Config, q: Request, e: Entry) {
    && e.env.sender == c.sender && e.env.recipient == q.recipient && e.env.amount == q.amount
    && e.env.fee == c.fee && e.env.geotag == q.purpose && e.request == q.id
  }

  /** It keeps the signer's policy. */
  predicate WithinPolicy(c: Config, e: Entry) {
    && |e.env.recipient| == 64
    && (forall i :: 0 <= i < 64 ==> '0' <= e.env.recipient[i] <= '9' || 'a' <= e.env.recipient[i] <= 'f')
    && e.env.amount > 0.0 && (c.maxPay > 0.0 ==> e.env.amount <= c.maxPay)
    && (c.role != "" ==> e.env.geotag == c.role)
    && (c.role == "referral" || c.role == "faucet" ==> e.request != "")
    && |e.request| <= 128 && |e.env.geotag| <= 32
  }

  /** Its id comes from the request, or from recipient, amount and nonce if the request
      has none, or is blank. */
  predicate OwnId(q: Request, id: TxId) {
    match id
    case Blank => true
    case RequestId(purpose, request) => q.id != "" && purpose == q.purpose && request == q.id
    case NonceId(recipient, amount, _) => q.id == "" && recipient == q.recipient && amount == q.amount
  }

  predicate Answers(c: Config, q: Request, e: Entry) {
    PaysRequest(c, q, e) && WithinPolicy(c, e) && OwnId(q, e.env.id)
  }

  /** What a transfer costs the wallet: the fee, and the amount unless it comes back. */
  function Cost(e: Entry): real {
    if e.env.recipient == e.env.sender then e.env.fee else e.env.amount + e.env.fee
  }

  function Costs(entries: seq<Entry>): real {
    if entries == [] then 0.0 else Costs(entries[..|entries| - 1]) + Cost(entries[|entries| - 1])
  }

  lemma {:induction false} CostsAppend(a: seq<Entry>, b: seq<Entry>)
    ensures Costs(a + b) == Costs(a) + Costs(b)
  {
    if b == [] {
      assert a + b == a;
    } else {
      CostsAppend(a, b[..|b| - 1]);
      assert (a + b)[..|a + b| - 1] == a + b[..|b| - 1];
    }
  }

  /** From `l` to `l'` only `more` was applied, and the balance fell by what it cost. */
  predicate Grew(l: Ledger, l': Ledger, more: seq<Entry>) {
    l'.entries == l.entries + more && l'.balance == l.balance - Costs(more)
  }

  lemma GrewTwice(a: Ledger, b: Ledger, c: Ledger, x: seq<Entry>, y: seq<Entry>)
    requires Grew(a, b, x) && Grew(b, c, y)
    ensures Grew(a, c, x + y)
  {
    CostsAppend(x, y);
    assert a.entries + x + y == a.entries + (x + y);
  }

  /** A submission that reaches the node applies nothing or exactly what was sent. */
  lemma SubmitGrows(refusesBlank: bool, l: Ledger, e: Entry) returns (more: seq<Entry>)
    ensures Grew(l, Submit(refusesBlank, l, e.env, e.request).0, more)
    ensures more == [] || more == [e]
  {
    more := if Submit(refusesBlank, l, e.env, e.request).0 == l then [] else [e];
    assert [e][..0] == [];
  }

  // ---------------------------------------------------------------------
  // The node that applies at once
  // ---------------------------------------------------------------------

  lemma SendGrows(c: Config, l: Ledger, id: TxId, q: Request, nonce: nat, fate: Fate) returns (more: seq<Entry>)
    requires Admits(c, q) && OwnId(q, id)
    ensures Grew(l, SignAndSubmit(c, l, id, q, nonce, fate).0, more)
    ensures |more| <= 1 && forall e :: e in more ==> Answers(c, q, e)
  {
    var e := Entry(EnvelopeOf(c, id, q, nonce), q.id);
    if fate.Delivered? || fate.ReplyLost? {
      more := SubmitGrows(c.refusesBlank, l, e);
    } else {
      more := [];
    }
  }

  /** One payout applies at most two transfers, both of them the request's, and the
      balance falls by exactly what they cost. */
  lemma PayPaysTheRequest(c: Config, w: World, q: Request, net: Network) returns (more: seq<Entry>)
    ensures Grew(w.ledger, Pay(c, w, q, net).0.ledger, more)
    ensures |more| <= 2 && forall e :: e in more ==> Answers(c, q, e)
    ensures q.recipient != c.sender ==> Pay(c, w, q, net).0.ledger.balance
                                        == w.ledger.balance - |more| as real * (q.amount + c.fee)
  {
    hide SignAndSubmit, Admits, Answers;
    more := [];
    assert w.ledger.entries + [] == w.ledger.entries;
    if Admits(c, q) && net.balance && !Blocked(c, w, q) {
      var id := DeriveId(q, w.nonce);
      more := SendGrows(c, w.ledger, id, q, w.nonce, net.first);
      var (l1, o1) := SignAndSubmit(c, w.ledger, id, q, w.nonce, net.first);
      if o1 == Failed(true) && net.resync {
        var again := SendGrows(c, l1, RetryId(c, id), q, l1.last + 1, net.second);
        var l2 := SignAndSubmit(c, l1, RetryId(c, id), q, l1.last + 1, net.second).0;
        GrewTwice(w.ledger, l1, l2, more, again);
        more := more + again;
      }
    }
    EqualCosts(c, q, more);
  }

  lemma {:induction false} EqualCosts(c: Config, q: Request, es: seq<Entry>)
    requires forall e :: e in es ==> Answers(c, q, e)
    ensures q.recipient != c.sender ==> Costs(es) == |es| as real * (q.amount + c.fee)
  {
    if es != [] {
      var n := |es| - 1;
      EqualCosts(c, q, es[..n]);
      assert Answers(c, q, es[n]);
      assert (n + 1) as real * (q.amount + c.fee) == n as real * (q.amount + c.fee) + (q.amount + c.fee);
    }
  }

  /** Some payout event of the run asked for this transfer. */
  ghost predicate AskedFor(c: Config, events: seq<Event>, e: Entry) {
    exists k :: 0 <= k < |events| && events[k].Payout? && Answers(c, events[k].q, e)
  }

  function Deposited(e: Event): real {
    if e.Deposit? && e.amount >= 0.0 then e.amount else 0.0
  }

  function Deposits(events: seq<Event>): real {
    if events == [] then 0.0 else Deposits(events[..|events| - 1]) + Deposited(events[|events| - 1])
  }

  lemma StepPaysWhatIsAsked(c: Config, w: World, e: Event) returns (more: seq<Entry>)
    ensures var l := Step(c, w, e).ledger;
            l.entries == w.ledger.entries + more && l.balance == w.ledger.balance + Deposited(e) - Costs(more)
    ensures forall x :: x in more ==> e.Payout? && Answers(c, e.q, x)
  {
    hide Pay, Answers;
    more := [];
    assert w.ledger.entries + [] == w.ledger.entries;
    if e.Payout? {
      more := PayPaysTheRequest(c, w, e.q, e.net);
    }
  }

  lemma AskedForStill(c: Config, events: seq<Event>, e: Entry)
    requires events != [] && AskedFor(c, events[..|events| - 1], e)
    ensures AskedFor(c, events, e)
  {
    hide Answers;
    var n := |events| - 1;
    var k :| 0 <= k < n && events[..n][k].Payout? && Answers(c, events[..n][k].q, e);
    assert events[k].Payout? && Answers(c, events[k].q, e);
  }

  /** Over every run, in either form of the retry and against either node: every
      transfer applied is one that a payout of the run asked for, and the books
      balance to the last transfer. */
  lemma {:induction false} RunPaysWhatWasAsked(c: Config, w: World, events: seq<Event>) returns (more: seq<Entry>)
    ensures var l := Run(c, w, events).ledger;
            && l.entries == w.ledger.entries + more
            && l.balance == w.ledger.balance + Deposits(events) - Costs(more)
    ensures forall e :: e in more ==> AskedFor(c, events, e)
    decreases |events|
  {
    hide Step, Answers, Costs, AskedFor;
    more := [];
    if events == [] {
      assert w.ledger.entries + [] == w.ledger.entries;
      NoCosts();
    } else {
      var n := |events| - 1;
      var earlier := RunPaysWhatWasAsked(c, w, events[..n]);
      var paid := StepPaysWhatIsAsked(c, Run(c, w, events[..n]), events[n]);
      forall e | e in earlier ensures AskedFor(c, events, e) {
        AskedForStill(c, events, e);
      }
      forall e | e in paid ensures AskedFor(c, events, e) {
        AskedForNow(c, events, e);
      }
      CostsAppend(earlier, paid);
      assert w.ledger.entries + earlier + paid == w.ledger.entries + (earlier + paid);
      more := earlier + paid;
    }
  }

  lemma NoCosts()
    ensures Costs([]) == 0.0
  {
  }

  lemma AskedForNow(c: Config, events: seq<Event>, e: Entry)
    requires events != [] && events[|events| - 1].Payout? && Answers(c, events[|events| - 1].q, e)
    ensures AskedFor(c, events, e)
  {
  }

  /** Which requests are turned away before the node is asked anything. */
  lemma DeniedExactlyWhen(c: Config, w: World, q: Request, net: Network)
    ensures Pay(c, w, q, net).1 == Denied <==>
              || |q.recipient| != 64
              || (exists i :: 0 <= i < |q.recipient| && !('0' <= q.recipient[i] <= '9' || 'a' <= q.recipient[i] <= 'f'))
              || q.amount <= 0.0 || (c.maxPay > 0.0 && q.amount > c.maxPay)
              || (c.role != "" && q.purpose != c.role)
              || ((c.role == "referral" || c.role == "faucet") && q.id == "")
              || |q.id| > 128 || |q.purpose| > 32
  {
    hide SignAndSubmit, DeriveId;
  }

  // ---------------------------------------------------------------------
  // Late arrivals
  // ---------------------------------------------------------------------

  /** From `s` to `s'` only envelopes for `q` were sent, and only sent ones applied. */
  ghost predicate SentFor(c: Config, q: Request, s: Delays.Late, s': Delays.Late, more: seq<Entry>) {
    && Grew(s.w.ledger, s'.w.ledger, more)
    && s.sent <= s'.sent && (forall e :: e in s'.sent ==> e in s.sent || Answers(c, q, e))
    && (forall e :: e in more ==> e in s'.sent)
  }

  lemma SentForTwice(c: Config, q: Request, s: Delays.Late, t: Delays.Late, u: Delays.Late, x: seq<Entry>, y: seq<Entry>)
    requires SentFor(c, q, s, t, x) && SentFor(c, q, t, u, y)
    ensures SentFor(c, q, s, u, x + y)
  {
    GrewTwice(s.w.ledger, t.w.ledger, u.w.ledger, x, y);
  }

  lemma {:induction false} ArriveGrows(c: Config, q: Request, s: Delays.Late, mail: seq<Entry>) returns (more: seq<Entry>)
    ensures SentFor(c, q, s, Delays.Arrive(c, s, mail), more) && Delays.Arrive(c, s, mail).w.nonce == s.w.nonce
    decreases |mail|
  {
    hide Submit, Answers;
    more := [];
    if mail == [] {
      assert s.w.ledger.entries + [] == s.w.ledger.entries;
    } else {
      var n := |mail| - 1;
      more := ArriveGrows(c, q, s, mail[..n]);
      var t := Delays.Arrive(c, s, mail[..n]);
      if mail[n] in t.sent {
        var one := SubmitGrows(c.refusesBlank, t.w.ledger, mail[n]);
        SentForTwice(c, q, s, t, Delays.Arrive(c, s, mail), more, one);
        more := more + one;
      }
    }
  }

  lemma LateSendGrows(c: Config, s: Delays.Late, id: TxId, q: Request, fate: Fate) returns (more: seq<Entry>)
    requires Admits(c, q) && OwnId(q, id)
    ensures SentFor(c, q, s, Delays.Send(c, s, id, q, fate).0, more)
  {
    var e := Entry(EnvelopeOf(c, id, q, s.w.nonce), q.id);
    assert Answers(c, q, e);
    hide Submit, Answers;
    if fate.Delivered? || fate.ReplyLost? {
      more := SubmitGrows(c.refusesBlank, s.w.ledger, e);
    } else {
      more := [];
      assert s.w.ledger.entries + [] == s.w.ledger.entries;
    }
  }

  /** With late arrivals too: a payout sends only envelopes for its request, applies
      only what was sent, and the balance falls by exactly what was applied. */
  lemma PayLateSendsTheRequest(c: Config, s: Delays.Late, q: Request, net: Network, post: Delays.Post)
    returns (more: seq<Entry>)
    ensures SentFor(c, q, s, Delays.PayLate(c, s, q, net, post).0, more)
  {
    hide Admits, Answers, Delays.Send, Delays.Arrive;
    more := [];
    assert s.w.ledger.entries + [] == s.w.ledger.entries;
    if Admits(c, q) && net.balance && !Blocked(c, s.w, q) {
      var id := DeriveId(q, s.w.nonce);
      var s0, a := Delays.Arrive(c, s, post.beforeFirst), [];
      a := ArriveGrows(c, q, s, post.beforeFirst);
      var b := LateSendGrows(c, s0, id, q, net.first);
      var (s1, o1) := Delays.Send(c, s0, id, q, net.first);
      SentForTwice(c, q, s, s0, s1, a, b);
      var d := ArriveGrows(c, q, s1, post.beforeResync);
      var s2 := Delays.Arrive(c, s1, post.beforeResync);
      SentForTwice(c, q, s, s1, s2, a + b, d);
      more := a + b + d;
      if o1 == Failed(true) && net.resync {
        var r := Delays.Reread(s2);
        var e := ArriveGrows(c, q, r, post.beforeRetry);
        var s3 := Delays.Arrive(c, r, post.beforeRetry);
        SentForTwice(c, q, s, r, s3, more, e);
        var f := LateSendGrows(c, s3, RetryId(c, id), q, net.second);
        var s4 := Delays.Send(c, s3, RetryId(c, id), q, net.second).0;
        SentForTwice(c, q, s, s3, s4, more + e, f);
        var g := ArriveGrows(c, q, s4, post.beforeEnd);
        SentForTwice(c, q, s, s4, Delays.Arrive(c, s4, post.beforeEnd), more + e + f, g);
        more := more + e + f + g;
      } else {
        var g := ArriveGrows(c, q, s2, post.beforeEnd);
        SentForTwice(c, q, s, s2, Delays.Arrive(c, s2, post.beforeEnd), more, g);
        more := more + g;
      }
    }
  }

  /** The request of a late event, if it is a payout. */
  predicate AsksLate(c: Config, v: Delays.LateEvent, e: Entry) {
    match v
    case Prompt(Payout(q, _)) => Answers(c, q, e)
    case Prompt(_) => false
    case Slow(q, _, _) => Answers(c, q, e)
    case Mail(_) => false
  }

  ghost predicate AskedForLate(c: Config, events: seq<Delays.LateEvent>, e: Entry) {
    exists k :: 0 <= k < |events| && AsksLate(c, events[k], e)
  }

  lemma AskedForLonger(c: Config, events: seq<Delays.LateEvent>, e: Entry)
    requires events != [] && AskedForLate(c, events[..|events| - 1], e)
    ensures AskedForLate(c, events, e)
  {
    hide AsksLate;
    var k :| 0 <= k < |events| - 1 && AsksLate(c, events[..|events| - 1][k], e);
    assert AsksLate(c, events[k], e);
  }

  /** Every transfer applied over a run with late arrivals is one that a payout of the
      run asked for. */
  lemma {:induction false} LateRunPaysWhatWasAsked(c: Config, w: World, events: seq<Delays.LateEvent>)
    ensures var s := Delays.LateRun(c, Delays.Late(w, {}), events);
            && w.ledger.entries <= s.w.ledger.entries
            && (forall i :: |w.ledger.entries| <= i < |s.w.ledger.entries| ==> AskedForLate(c, events, s.w.ledger.entries[i]))
            && (forall e :: e in s.sent ==> AskedForLate(c, events, e))
    decreases |events|
  {
    hide Delays.PayLate, Answers, AskedForLate;
    if events != [] {
      var n := |events| - 1;
      LateRunPaysWhatWasAsked(c, w, events[..n]);
      forall e | AskedForLate(c, events[..n], e) ensures AskedForLate(c, events, e) {
        AskedForLonger(c, events, e);
      }
      var s := Delays.LateRun(c, Delays.Late(w, {}), events[..n]);
      match events[n]
      case Prompt(Payout(q, net)) => LatePayAsked(c, s, events, q, net, Delays.NO_POST);
      case Prompt(_) =>
      case Slow(q, net, post) => LatePayAsked(c, s, events, q, net, post);
      case Mail(mail) =>
        var more := ArriveOnly(c, s, mail);
    }
  }

  lemma {:induction false} ArriveOnly(c: Config, s: Delays.Late, mail: seq<Entry>) returns (more: seq<Entry>)
    ensures var s' := Delays.Arrive(c, s, mail);
            s'.sent == s.sent && s'.w.ledger.entries == s.w.ledger.entries + more && forall e :: e in more ==> e in s.sent
    decreases |mail|
  {
    more := [];
    if mail != [] {
      var n := |mail| - 1;
      more := ArriveOnly(c, s, mail[..n]);
      var t := Delays.Arrive(c, s, mail[..n]);
      if mail[n] in t.sent {
        var one := SubmitGrows(c.refusesBlank, t.w.ledger, mail[n]);
        hide Submit;
        assert s.w.ledger.entries + more + one == s.w.ledger.entries + (more + one);
        more := more + one;
      }
    }
  }

  /** One payout at the end of a run: what it sends and applies was asked for. */
  lemma LatePayAsked(c: Config, s: Delays.Late, events: seq<Delays.LateEvent>, q: Request, net: Network, post: Delays.Post)
    requires events != []
    requires events[|events| - 1] == Delays.Slow(q, net, post) || events[|events| - 1] == Delays.Prompt(Payout(q, net))
    requires forall e :: e in s.sent ==> AskedForLate(c, events, e)
    ensures var s' := Delays.PayLate(c, s, q, net, post).0;
            && s.w.ledger.entries <= s'.w.ledger.entries
            && (forall i :: |s.w.ledger.entries| <= i < |s'.w.ledger.entries| ==> AskedForLate(c, events, s'.w.ledger.entries[i]))
            && (forall e :: e in s'.sent ==> AskedForLate(c, events, e))
  {
    hide Delays.PayLate, Answers;
    var more := PayLateSendsTheRequest(c, s, q, net, post);
    var s' := Delays.PayLate(c, s, q, net, post).0;
    forall e | e in s'.sent ensures AskedForLate(c, events, e) {
      if e !in s.sent {
        assert AsksLate(c, events[|events| - 1], e);
      }
    }
    forall i | |s.w.ledger.entries| <= i < |s'.w.ledger.entries| ensures s'.w.ledger.entries[i] in s'.sent {
      assert s'.w.ledger.entries[i] == more[i - |s.w.ledger.entries|];
    }
  }

  // ---------------------------------------------------------------------
  // Validators
  // ---------------------------------------------------------------------

  /** A block that applies a queued transfer takes exactly its amount and fee from the
      wallet, or only the fee if the wallet pays itself. */
  lemma BlockCosts(c: Config, s: Queue.Net)
    requires Queue.Sound(c, s) && s.node.pending != []
    ensures var e, l := s.node.pending[0], Queue.Seal(s.node).ledger;
            && l.entries == s.node.ledger.entries + [e]
            && l.balance == s.node.ledger.balance - e.env.fee - (if e.env.recipient == e.env.sender then 0.0 else e.env.amount)
  {
    Queue.SealApplies(c, s);
    assert s.node.pending[0] == Entry(s.node.pending[0].env, s.node.pending[0].request);
  }

  /** Mined and queued transfers beyond `base` were sent to the validator. */
  ghost predicate FromNet(base: nat, s: Queue.Net) {
    forall i :: base <= i < |Queue.Log(s.node)| ==> Queue.Log(s.node)[i] in s.sent
  }

  /** A step that mines, drops or queues what was sent, and sends only for `q`. */
  ghost predicate QueuedFor(c: Config, base: nat, s: Queue.Net, s': Queue.Net, q: Request) {
    && FromNet(base, s') && s.node.ledger.entries <= s'.node.ledger.entries
    && (forall e :: e in s'.sent ==> e in s.sent || Answers(c, q, e))
  }

  lemma TickFromNet(c: Config, remembers: bool, base: nat, s: Queue.Net, v: Queue.NodeEvent, q: Request)
    requires Queue.Sound(c, s) && FromNet(base, s) && base <= |s.node.ledger.entries|
    ensures QueuedFor(c, base, s, Queue.Tick(c, remembers, s, v), q) && Queue.Sound(c, Queue.Tick(c, remembers, s, v))
    ensures Queue.Tick(c, remembers, s, v).nonce == s.nonce
  {
    Queue.TickKeeps(c, remembers, s, v);
    match v
    case SealBlock =>
      Queue.SealKeeps(c, s);
      Queue.SealApplies(c, s);
    case Evict(k) =>
      if k < |s.node.pending| {
        EvictFromNet(base, s, k);
      }
    case Arrive(x) =>
      if x in s.sent {
        Queue.AdmitTakes(c, remembers, s, x);
        TookFromNet(base, s, x, Queue.Admit(c, remembers, s.node, x).0);
      }
    case Credit(a) =>
      assert Queue.Log(Queue.Tick(c, remembers, s, v).node) == Queue.Log(s.node);
  }

  lemma EvictFromNet(base: nat, s: Queue.Net, k: nat)
    requires FromNet(base, s) && |s.node.pending| == 1 && k == 0
    ensures FromNet(base, s.(node := s.node.(pending := s.node.pending[..k] + s.node.pending[k + 1..])))
  {
    assert forall i :: 0 <= i < |s.node.ledger.entries| ==> Queue.Log(s.node)[i] == s.node.ledger.entries[i];
    assert s.node.pending[..k] + s.node.pending[k + 1..] == [];
  }

  lemma TookFromNet(base: nat, s: Queue.Net, e: Entry, n: Queue.Chain)
    requires FromNet(base, s) && e in s.sent
    requires n == s.node || (s.node.pending == [] && n == s.node.(pending := [e]))
    ensures FromNet(base, s.(node := n))
  {
    assert forall i :: 0 <= i < |s.node.ledger.entries| ==> Queue.Log(s.node)[i] == s.node.ledger.entries[i];
  }

  lemma QueuedForTwice(c: Config, base: nat, s: Queue.Net, t: Queue.Net, u: Queue.Net, q: Request)
    requires QueuedFor(c, base, s, t, q) && QueuedFor(c, base, t, u, q)
    ensures QueuedFor(c, base, s, u, q)
  {
    hide FromNet, Answers;
  }

  lemma {:induction false} TicksFromNet(c: Config, remembers: bool, base: nat, s: Queue.Net, es: seq<Queue.NodeEvent>, q: Request)
    requires Queue.Sound(c, s) && FromNet(base, s) && base <= |s.node.ledger.entries|
    ensures var s' := Queue.Ticks(c, remembers, s, es);
            QueuedFor(c, base, s, s', q) && Queue.Sound(c, s') && s'.nonce == s.nonce
    decreases |es|
  {
    hide FromNet, Answers, Queue.Sound, Queue.Tick;
    if es != [] {
      var n := |es| - 1;
      TicksFromNet(c, remembers, base, s, es[..n], q);
      var t := Queue.Ticks(c, remembers, s, es[..n]);
      TickFromNet(c, remembers, base, t, es[n], q);
      QueuedForTwice(c, base, s, t, Queue.Tick(c, remembers, t, es[n]), q);
    }
  }

  lemma SendFromNet(c: Config, remembers: bool, base: nat, s: Queue.Net, id: TxId, q: Request, fate: Fate)
    requires Queue.Sound(c, s) && FromNet(base, s) && base <= |s.node.ledger.entries| && Admits(c, q) && OwnId(q, id)
    ensures var (s', o) := Queue.Send(c, remembers, s, id, q, fate);
            && QueuedFor(c, base, s, s', q) && Queue.Sound(c, s') && s'.nonce == s.nonce
            && (o.Submitted? && !o.duplicate ==> s'.nonce <= s'.node.ledger.last + 1)
  {
    var e := Entry(EnvelopeOf(c, id, q, s.nonce), q.id);
    assert Answers(c, q, e) && Queue.Mailed(c, e);
    var more := s.(sent := s.sent + {e});
    Queue.AdmitTakes(c, remembers, s, e);
    hide Answers, Queue.Admit, Queue.Fits, NoncesIncrease;
    assert Queue.Sound(c, more) && FromNet(base, more);
    var n := Queue.Admit(c, remembers, s.node, e).0;
    Queue.TookKeeps(c, remembers, more, e, n);
    TookFromNet(base, more, e, n);
  }

  /** Against a validator too: a payout sends only envelopes for its request, and only
      what was sent is ever queued or mined. */
  lemma PayQueuedSendsTheRequest(c: Config, remembers: bool, base: nat, s: Queue.Net, q: Request, net: Network, gaps: Queue.Gaps)
    requires Queue.Sound(c, s) && FromNet(base, s) && base <= |s.node.ledger.entries|
    ensures QueuedFor(c, base, s, Queue.PayQueued(c, remembers, s, q, net, gaps).0, q)
  {
    hide FromNet, Answers, Admits, Queue.Sound, Queue.Ticks, Queue.Send;
    if Admits(c, q) && net.balance && !Blocked(c, Queue.Seen(s), q) {
      var id := DeriveId(q, s.nonce);
      TicksFromNet(c, remembers, base, s, gaps.beforeFirst, q);
      var s0 := Queue.Ticks(c, remembers, s, gaps.beforeFirst);
      SendFromNet(c, remembers, base, s0, id, q, net.first);
      var (s1, o1) := Queue.Send(c, remembers, s0, id, q, net.first);
      QueuedForTwice(c, base, s, s0, s1, q);
      TicksFromNet(c, remembers, base, s1, gaps.beforeResync, q);
      var s2 := Queue.Ticks(c, remembers, s1, gaps.beforeResync);
      QueuedForTwice(c, base, s, s1, s2, q);
      if o1 == Failed(true) && net.resync {
        RetryFromNet(c, remembers, base, s2, RetryId(c, id), q, net, gaps);
        var s3 := Queue.Send(c, remembers, Queue.Ticks(c, remembers, Queue.Reread(s2), gaps.beforeRetry), RetryId(c, id), q, net.second).0;
        QueuedForTwice(c, base, s, s2, Queue.Ticks(c, remembers, s3, gaps.beforeEnd), q);
        SameButNonce(c, base, s, Queue.Ticks(c, remembers, s3, gaps.beforeEnd), Queue.PayQueued(c, remembers, s, q, net, gaps).0, q);
      } else {
        TicksFromNet(c, remembers, base, s2, gaps.beforeEnd, q);
        QueuedForTwice(c, base, s, s2, Queue.Ticks(c, remembers, s2, gaps.beforeEnd), q);
        SameButNonce(c, base, s, Queue.Ticks(c, remembers, s2, gaps.beforeEnd), Queue.PayQueued(c, remembers, s, q, net, gaps).0, q);
      }
    }
  }

  lemma SameButNonce(c: Config, base: nat, s: Queue.Net, t: Queue.Net, u: Queue.Net, q: Request)
    requires QueuedFor(c, base, s, t, q) && u == t.(nonce := u.nonce)
    ensures QueuedFor(c, base, s, u, q)
  {
  }

  lemma RetryFromNet(c: Config, remembers: bool, base: nat, s: Queue.Net, id: TxId, q: Request, net: Network, gaps: Queue.Gaps)
    requires Queue.Sound(c, s) && FromNet(base, s) && base <= |s.node.ledger.entries| && Admits(c, q) && OwnId(q, id)
    ensures var s1 := Queue.Ticks(c, remembers, Queue.Reread(s), gaps.beforeRetry);
            var s2 := Queue.Send(c, remembers, s1, id, q, net.second).0;
            QueuedFor(c, base, s, Queue.Ticks(c, remembers, s2, gaps.beforeEnd), q)
  {
    var r := Queue.Reread(s);
    Queue.RereadKeeps(c, remembers, s);
    assert FromNet(base, r);
    hide FromNet, Answers, Admits, Queue.Sound, Queue.Ticks, Queue.Send;
    TicksFromNet(c, remembers, base, r, gaps.beforeRetry, q);
    var s1 := Queue.Ticks(c, remembers, r, gaps.beforeRetry);
    SendFromNet(c, remembers, base, s1, id, q, net.second);
    var s2 := Queue.Send(c, remembers, s1, id, q, net.second).0;
    QueuedForTwice(c, base, r, s1, s2, q);
    TicksFromNet(c, remembers, base, s2, gaps.beforeEnd, q);
    QueuedForTwice(c, base, r, s2, Queue.Ticks(c, remembers, s2, gaps.beforeEnd), q);
  }

  ghost predicate AskedForQueued(c: Config, events: seq<Queue.QueueEvent>, e: Entry) {
    exists k :: 0 <= k < |events| && events[k].Order? && Answers(c, events[k].q, e)
  }

  /** Every transfer queued or mined over a run against a validator is one that a
      payout of the run asked for. */
  lemma {:induction false} QueueRunPaysWhatWasAsked(c: Config, remembers: bool, w: World, events: seq<Queue.QueueEvent>)
    requires Coherent(w)
    ensures var s := Queue.QueueRun(c, remembers, Queue.Fresh(w), events);
            && w.ledger.entries <= s.node.ledger.entries && FromNet(|w.ledger.entries|, s)
            && (forall e :: e in s.sent ==> AskedForQueued(c, events, e))
    decreases |events|
  {
    hide Answers, Queue.QueueStep, Queue.Sound, FromNet;
    var base := |w.ledger.entries|;
    Queue.FreshIsSound(c, w);
    if events == [] {
      FreshIsFromNet(w);
    } else {
      var n := |events| - 1;
      QueueRunPaysWhatWasAsked(c, remembers, w, events[..n]);
      Queue.QueueRunKeeps(c, remembers, Queue.Fresh(w), events[..n]);
      var s := Queue.QueueRun(c, remembers, Queue.Fresh(w), events[..n]);
      forall e | AskedForQueued(c, events[..n], e) ensures AskedForQueued(c, events, e) {
        var k :| 0 <= k < n && events[..n][k].Order? && Answers(c, events[..n][k].q, e);
        assert events[k].Order? && Answers(c, events[k].q, e);
      }
      StepFromNet(c, remembers, base, s, events[n]);
    }
  }

  lemma FreshIsFromNet(w: World)
    ensures FromNet(|w.ledger.entries|, Queue.Fresh(w))
  {
  }

  lemma StepFromNet(c: Config, remembers: bool, base: nat, s: Queue.Net, v: Queue.QueueEvent)
    requires Queue.Sound(c, s) && FromNet(base, s) && base <= |s.node.ledger.entries|
    ensures var s' := Queue.QueueStep(c, remembers, s, v);
            && FromNet(base, s') && s.node.ledger.entries <= s'.node.ledger.entries
            && (forall e :: e in s'.sent ==> e in s.sent || (v.Order? && Answers(c, v.q, e)))
  {
    hide Answers, Queue.Sound, Queue.Tick, Queue.PayQueued;
    match v
    case Order(q, net, gaps) => PayQueuedSendsTheRequest(c, remembers, base, s, q, net, gaps);
    case Refresh(_) =>
    case AtNode(x) =>
      TickFromNet(c, remembers, base, s, x, Request("", "", "", 0.0));
      TickSendsNothing(c, remembers, s, x);
  }

  lemma TickSendsNothing(c: Config, remembers: bool, s: Queue.Net, v: Queue.NodeEvent)
    ensures Queue.Tick(c, remembers, s, v).sent == s.sent
  {
  }
}
