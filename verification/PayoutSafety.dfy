/** What holds of the payout signer over every run of payouts, client retries,
    resyncs and deposits, under every pattern of lost requests and replies. */
module PayoutSafety {
  import opened PayoutLedger
  import opened PayoutSigner

  // ---------------------------------------------------------------------
  // Properties
  // ---------------------------------------------------------------------

  /** A signer that has just read its nonce from a node holding no transfer yet. */
  predicate Start(w: World) {
    w.ledger.entries == [] && w.nonce == w.ledger.last + 1
  }

  /** No two applied transfers answer the same request for the same purpose. */
  predicate AtMostOnce(entries: seq<Entry>) {
    forall i, j :: 0 <= i < j < |entries| && entries[i].request != "" &&
                   entries[i].env.geotag == entries[j].env.geotag
                   ==> entries[i].request != entries[j].request
  }

  predicate UniqueIds(entries: seq<Entry>) {
    forall i, j :: 0 <= i < j < |entries| ==> entries[i].env.id != entries[j].env.id
  }

  predicate NoncesIncrease(l: Ledger) {
    && (forall i, j :: 0 <= i < j < |l.entries| ==> l.entries[i].env.nonce < l.entries[j].env.nonce)
    && (forall i :: 0 <= i < |l.entries| ==> l.entries[i].env.nonce <= l.last)
  }

  /** The cached nonce never runs ahead of the node, and the log is in order. */
  predicate Coherent(w: World) {
    && 1 <= w.nonce <= w.ledger.last + 1
    && UniqueIds(w.ledger.entries)
    && NoncesIncrease(w.ledger)
  }

  /** Nothing sent is ever accepted: a negative fee, or a role no purpose can name. */
  predicate Inert(c: Config) {
    c.fee < 0.0 || |c.role| > 32
  }

  /** The configurations whose retry cannot apply a transfer under a blank id:
      the retry keeps the id, or the node refuses blank ids, or nothing is ever
      accepted at all (a negative fee, or a role no admitted purpose can name). */
  predicate Safe(c: Config) {
    c.retry == KeepsId || c.refusesBlank || Inert(c)
  }

  /** From any wallet in order, new or used. */
  ghost predicate AlwaysOnce(c: Config) {
    forall w, events :: Coherent(w) && Labelled(w.ledger.entries) ==> AtMostOnce(Run(c, w, events).ledger.entries)
  }

  ghost predicate AlwaysAboveReserve(c: Config) {
    forall w, events :: Coherent(w) && w.ledger.balance >= c.reserve
                        ==> Run(c, w, events).ledger.balance >= c.reserve
  }

  // ---------------------------------------------------------------------
  // One submission, one payout
  // ---------------------------------------------------------------------

  function Applied(l: Ledger, env: Envelope, request: string): Ledger {
    Ledger(l.last + 1, l.balance - Debit(env), l.entries + [Entry(env, request)])
  }

  /** A submission with a positive nonce either leaves the ledger alone or
      applies exactly its envelope, at the node's next nonce, under a new id. */
  lemma SubmissionEffect(c: Config, l: Ledger, id: TxId, q: Request, nonce: nat, fate: Fate)
    requires nonce >= 1
    ensures var l' := SignAndSubmit(c, l, id, q, nonce, fate).0;
            || l' == l
            || (&& nonce == l.last + 1 && id !in Ids(l.entries) && c.fee >= 0.0
                && (id == Blank ==> !c.refusesBlank)
                && l.balance >= q.amount + c.fee
                && l' == Applied(l, EnvelopeOf(c, id, q, nonce), q.id))
    ensures var (l', o) := SignAndSubmit(c, l, id, q, nonce, fate);
            o.Submitted? ==>
              && o.id == id && c.fee >= 0.0 && (id == Blank ==> !c.refusesBlank)
              && (o.duplicate ==> l' == l && id in Ids(l.entries))
              && (!o.duplicate ==> nonce == l.last + 1 && l' == Applied(l, EnvelopeOf(c, id, q, nonce), q.id))
  {
  }

  lemma AppliedKeepsOrder(l: Ledger, env: Envelope, request: string)
    requires UniqueIds(l.entries) && NoncesIncrease(l)
    requires env.id !in Ids(l.entries) && env.nonce == l.last + 1
    ensures UniqueIds(Applied(l, env, request).entries) && NoncesIncrease(Applied(l, env, request))
  {
    forall i | 0 <= i < |l.entries| ensures l.entries[i].env.id != env.id {
      assert l.entries[i] in l.entries;
    }
  }

  lemma SubmissionKeepsOrder(c: Config, l: Ledger, id: TxId, q: Request, nonce: nat, fate: Fate)
    requires nonce >= 1 && UniqueIds(l.entries) && NoncesIncrease(l)
    ensures var l' := SignAndSubmit(c, l, id, q, nonce, fate).0;
            UniqueIds(l'.entries) && NoncesIncrease(l') && l.last <= l'.last
    ensures var (l', o) := SignAndSubmit(c, l, id, q, nonce, fate);
            o.Submitted? && !o.duplicate ==> l'.last == nonce
  {
    SubmissionEffect(c, l, id, q, nonce, fate);
    var env := EnvelopeOf(c, id, q, nonce);
    if SignAndSubmit(c, l, id, q, nonce, fate).0 != l {
      AppliedKeepsOrder(l, env, q.id);
    }
  }

  lemma PayKeepsCoherent(c: Config, w: World, q: Request, net: Network)
    requires Coherent(w)
    ensures Coherent(Pay(c, w, q, net).0)
  {
    hide Admits, Submit, UniqueIds, NoncesIncrease;
    var id := DeriveId(q, w.nonce);
    SubmissionKeepsOrder(c, w.ledger, id, q, w.nonce, net.first);
    var (l1, o1) := SignAndSubmit(c, w.ledger, id, q, w.nonce, net.first);
    SubmissionKeepsOrder(c, l1, RetryId(c, id), q, l1.last + 1, net.second);
  }

  /** A payout by a safe signer applies nothing, or one transfer: the one asked
      for, under the request's own id. */
  lemma PayEffect(c: Config, w: World, q: Request, net: Network)
    requires Coherent(w) && Safe(c)
    ensures var w' := Pay(c, w, q, net).0;
            var env := EnvelopeOf(c, DeriveId(q, w.nonce), q, w.ledger.last + 1);
            || w'.ledger == w.ledger
            || (&& Admits(c, q) && c.fee >= 0.0 && env.id !in Ids(w.ledger.entries)
                && w.ledger.balance - q.amount - c.fee >= c.reserve
                && w'.ledger == Applied(w.ledger, env, q.id))
  {
    hide Submit, UniqueIds, NoncesIncrease;
    var id := DeriveId(q, w.nonce);
    SubmissionEffect(c, w.ledger, id, q, w.nonce, net.first);
    var (l1, o1) := SignAndSubmit(c, w.ledger, id, q, w.nonce, net.first);
    SubmissionEffect(c, l1, RetryId(c, id), q, l1.last + 1, net.second);
    if l1 != w.ledger {
      assert l1.entries[|l1.entries| - 1].env.id == id;
      assert id in Ids(l1.entries);
    }
  }

  // ---------------------------------------------------------------------
  // Nonces, over every run and every configuration
  // ---------------------------------------------------------------------

  /** Whatever is lost and whichever way the retry is written, the cached nonce
      stays at or below the node's next nonce, ids stay unique, and accepted
      transfers carry strictly increasing nonces. */
  lemma {:induction false} RunKeepsCoherent(c: Config, w: World, events: seq<Event>)
    requires Coherent(w)
    ensures Coherent(Run(c, w, events))
    decreases |events|
  {
    hide Pay;
    if events != [] {
      var n := |events| - 1;
      RunKeepsCoherent(c, w, events[..n]);
      if events[n].Payout? {
        PayKeepsCoherent(c, Run(c, w, events[..n]), events[n].q, events[n].net);
      }
    }
  }

  lemma PayGrows(c: Config, w: World, q: Request, net: Network)
    ensures w.ledger.entries <= Pay(c, w, q, net).0.ledger.entries
  {
    hide Admits, Submit;
    var id := DeriveId(q, w.nonce);
    SubmissionGrows(c, w.ledger, id, q, w.nonce, net.first);
    var l1 := SignAndSubmit(c, w.ledger, id, q, w.nonce, net.first).0;
    SubmissionGrows(c, l1, RetryId(c, id), q, l1.last + 1, net.second);
  }

  lemma SubmissionGrows(c: Config, l: Ledger, id: TxId, q: Request, nonce: nat, fate: Fate)
    ensures l.entries <= SignAndSubmit(c, l, id, q, nonce, fate).0.entries
  {
  }

  lemma {:induction false} EntriesOnlyGrow(c: Config, w: World, events: seq<Event>)
    ensures w.ledger.entries <= Run(c, w, events).ledger.entries
    decreases |events|
  {
    hide Pay;
    if events != [] {
      var n := |events| - 1;
      EntriesOnlyGrow(c, w, events[..n]);
      if events[n].Payout? {
        PayGrows(c, Run(c, w, events[..n]), events[n].q, events[n].net);
      }
    }
  }

  // ---------------------------------------------------------------------
  // Exactly once
  // ---------------------------------------------------------------------

  /** Each applied transfer of a request carries that request's id. */
  predicate Labelled(entries: seq<Entry>) {
    forall i :: 0 <= i < |entries| && entries[i].request != ""
                ==> entries[i].env.id == RequestId(entries[i].env.geotag, entries[i].request)
  }

  /** An envelope that cannot pay a request under a foreign id: it carries the
      request's own id, or the node refuses it. */
  predicate Harmless(c: Config, e: Entry) {
    || e.request == ""
    || e.env.id == RequestId(e.env.geotag, e.request)
    || (e.env.id == Blank && c.refusesBlank)
    || e.env.fee < 0.0
  }

  lemma LabelsMeanOnce(entries: seq<Entry>)
    requires Labelled(entries) && UniqueIds(entries)
    ensures AtMostOnce(entries)
  {
  }

  lemma {:induction false} RunKeepsLabels(c: Config, w: World, events: seq<Event>)
    requires Safe(c) && Coherent(w) && Labelled(w.ledger.entries)
    ensures Labelled(Run(c, w, events).ledger.entries)
    decreases |events|
  {
    hide Pay;
    if events != [] {
      var n := |events| - 1;
      RunKeepsLabels(c, w, events[..n]);
      RunKeepsCoherent(c, w, events[..n]);
      if events[n].Payout? {
        PayEffect(c, Run(c, w, events[..n]), events[n].q, events[n].net);
      }
    }
  }

  /** Starting on any wallet whose log is coherent and labelled: an empty one, or
      one that an earlier signer has used. */
  lemma ExactlyOncePerRequest(c: Config, w: World, events: seq<Event>)
    requires Safe(c) && Coherent(w) && Labelled(w.ledger.entries)
    ensures AtMostOnce(Run(c, w, events).ledger.entries)
  {
    RunKeepsLabels(c, w, events);
    RunKeepsCoherent(c, w, events);
  }

  /** For a signer bound to a role the purpose is fixed, so the guarantee is per
      request id alone. */
  lemma ExactlyOnceForRole(c: Config, w: World, events: seq<Event>)
    requires Safe(c) && Coherent(w) && Labelled(w.ledger.entries) && c.role != ""
    requires forall e :: e in w.ledger.entries ==> e.env.geotag == c.role
    ensures var es := Run(c, w, events).ledger.entries;
            forall i, j :: 0 <= i < j < |es| && es[i].request != "" ==> es[i].request != es[j].request
  {
    RunKeepsRole(c, w, events);
    ExactlyOncePerRequest(c, w, events);
  }

  lemma {:induction false} RunKeepsRole(c: Config, w: World, events: seq<Event>)
    requires Safe(c) && Coherent(w) && c.role != ""
    requires forall e :: e in w.ledger.entries ==> e.env.geotag == c.role
    ensures forall e :: e in Run(c, w, events).ledger.entries ==> e.env.geotag == c.role
    decreases |events|
  {
    hide Pay;
    if events != [] {
      var n := |events| - 1;
      RunKeepsRole(c, w, events[..n]);
      RunKeepsCoherent(c, w, events[..n]);
      if events[n].Payout? {
        PayEffect(c, Run(c, w, events[..n]), events[n].q, events[n].net);
      }
    }
  }

  /** A success answer is true: the transfer is in the log, and unless it is
      reported as a duplicate this very call put it there. */
  lemma SuccessMeansApplied(c: Config, w: World, q: Request, net: Network)
    requires Safe(c) && Coherent(w)
    requires Pay(c, w, q, net).1.Paid?
    ensures var (w', reply) := Pay(c, w, q, net);
            && reply.id == DeriveId(q, w.nonce) && reply.id in Ids(w'.ledger.entries)
            && (!reply.duplicate ==>
                  w'.ledger == Applied(w.ledger, EnvelopeOf(c, reply.id, q, reply.nonce), q.id))
  {
    hide Submit, UniqueIds, NoncesIncrease;
    var id := DeriveId(q, w.nonce);
    SubmissionEffect(c, w.ledger, id, q, w.nonce, net.first);
    var (l1, o1) := SignAndSubmit(c, w.ledger, id, q, w.nonce, net.first);
    SubmissionEffect(c, l1, RetryId(c, id), q, l1.last + 1, net.second);
    if l1 != w.ledger {
      assert l1.entries[|l1.entries| - 1].env.id == id;
    }
    var w' := Pay(c, w, q, net).0;
    if w'.ledger != w.ledger {
      assert w'.ledger.entries[|w'.ledger.entries| - 1].env.id == id;
    }
  }

  /** Once a request's transfer is in the log, whether or not anybody was told, and
      however the run continues, paying the request again moves no money and never
      claims to be a new transfer. */
  lemma RetryIsDuplicate(c: Config, w: World, events: seq<Event>, again: Request, net: Network)
    requires Safe(c) && Coherent(w)
    requires again.id != "" && RequestId(again.purpose, again.id) in Ids(w.ledger.entries)
    ensures var now := Run(c, w, events);
            var (next, reply) := Pay(c, now, again, net);
            next.ledger == now.ledger && (reply.Paid? ==> reply.duplicate)
  {
    hide Pay;
    EntriesOnlyGrow(c, w, events);
    RunKeepsCoherent(c, w, events);
    var now := Run(c, w, events);
    var e :| e in w.ledger.entries && e.env.id == RequestId(again.purpose, again.id);
    assert e in now.ledger.entries;
    PayEffect(c, now, again, net);
    if Pay(c, now, again, net).1.Paid? {
      SuccessMeansApplied(c, now, again, net);
    }
  }

  // ---------------------------------------------------------------------
  // The retry as written
  // ---------------------------------------------------------------------

  /** A recipient address other than the wallet's own. */
  function Payee(c: Config): (s: string)
    ensures |s| == 64 && s != c.sender && forall i :: 0 <= i < 64 ==> IsHex(s[i])
  {
    var zeros := seq(64, _ => '0');
    var other := zeros[0 := '1'];
    assert zeros[0] == '0' && other[0] == '1';
    if zeros == c.sender then other else zeros
  }

  function SomeAmount(c: Config): real {
    if c.maxPay > 0.0 then c.maxPay else 1.0
  }

  function SomeRequest(c: Config, id: string): Request {
    Request(id, c.role, Payee(c), SomeAmount(c))
  }

  const CALM := Network(true, Delivered, true, Delivered, true)

  /** The first submission is applied and its reply lost; all else arrives. */
  function Losing(nonceText: bool): Network {
    Network(true, ReplyLost(nonceText), true, Delivered, true)
  }

  /** One lost reply, then a second request whose nonce is refused and whose
      retry goes out under a blank id, then that client asking again. */
  function BlankIdRun(c: Config): seq<Event> {
    [Payout(SomeRequest(c, "a"), Losing(false)),
     Payout(SomeRequest(c, "b"), CALM),
     Payout(SomeRequest(c, "b"), CALM)]
  }

  function RichStart(c: Config): World {
    var need := SomeAmount(c) + c.fee;
    World(1, Ledger(0, (if c.reserve > 0.0 then c.reserve else 0.0) + 3.0 * need, []))
  }

  /** A submission that reaches the node and meets all its checks. */
  lemma SubmissionApplied(c: Config, l: Ledger, id: TxId, q: Request, fate: Fate)
    requires q.amount > 0.0 && c.fee >= 0.0 && id !in Ids(l.entries) && (id == Blank ==> !c.refusesBlank)
    requires l.balance >= q.amount + c.fee && (fate.Delivered? || fate.ReplyLost?)
    ensures SignAndSubmit(c, l, id, q, l.last + 1, fate) ==
            (Applied(l, EnvelopeOf(c, id, q, l.last + 1), q.id),
             if fate.Delivered? then Submitted(id, false) else Failed(fate.nonceText))
  {
  }

  lemma LostReplyApplied(c: Config, w: World, q: Request)
    requires Admits(c, q) && c.fee >= 0.0 && q.id != "" && w.nonce == w.ledger.last + 1
    requires RequestId(q.purpose, q.id) !in Ids(w.ledger.entries)
    requires w.ledger.balance >= q.amount + c.fee && w.ledger.balance - q.amount - c.fee >= c.reserve
    ensures Pay(c, w, q, Losing(false)) ==
            (World(w.nonce, Applied(w.ledger, EnvelopeOf(c, RequestId(q.purpose, q.id), q, w.nonce), q.id)), BadGateway)
  {
    SubmissionApplied(c, w.ledger, RequestId(q.purpose, q.id), q, ReplyLost(false));
  }

  lemma StaleNonceAppliedBlank(c: Config, w: World, q: Request)
    requires !Safe(c) && Admits(c, q) && q.id != "" && 1 <= w.nonce <= w.ledger.last
    requires Blank !in Ids(w.ledger.entries)
    requires w.ledger.balance >= q.amount + c.fee && w.ledger.balance - q.amount - c.fee >= c.reserve
    ensures Pay(c, w, q, CALM).0 ==
            World(w.ledger.last + 2, Applied(w.ledger, EnvelopeOf(c, Blank, q, w.ledger.last + 1), q.id))
  {
    assert SignAndSubmit(c, w.ledger, RequestId(q.purpose, q.id), q, w.nonce, Delivered) == (w.ledger, Failed(true));
    SubmissionApplied(c, w.ledger, Blank, q, Delivered);
  }

  lemma FreshNonceApplied(c: Config, w: World, q: Request)
    requires Admits(c, q) && c.fee >= 0.0 && q.id != "" && w.nonce == w.ledger.last + 1
    requires RequestId(q.purpose, q.id) !in Ids(w.ledger.entries)
    requires w.ledger.balance >= q.amount + c.fee && w.ledger.balance - q.amount - c.fee >= c.reserve
    ensures Pay(c, w, q, CALM).0 ==
            World(w.nonce + 1, Applied(w.ledger, EnvelopeOf(c, RequestId(q.purpose, q.id), q, w.nonce), q.id))
  {
    SubmissionApplied(c, w.ledger, RequestId(q.purpose, q.id), q, Delivered);
  }

  lemma RunOfThree(c: Config, w: World, a: Event, b: Event, d: Event)
    ensures Run(c, w, [a, b, d]) == Step(c, Step(c, Step(c, w, a), b), d)
  {
    var run := [a, b, d];
    assert run[..2] == [a, b] && [a, b][..1] == [a] && [a][..0] == [];
    assert Run(c, w, [a]) == Step(c, w, a);
    assert Run(c, w, [a, b]) == Step(c, Step(c, w, a), b);
  }

  /** The run pays request "b" twice. */
  lemma BlankIdPaysTwice(c: Config)
    requires !Safe(c)
    ensures Start(RichStart(c))
    ensures !AtMostOnce(Run(c, RichStart(c), BlankIdRun(c)).ledger.entries)
  {
    var w0 := RichStart(c);
    var qa, qb := SomeRequest(c, "a"), SomeRequest(c, "b");
    LostReplyApplied(c, w0, qa);
    var w1 := Pay(c, w0, qa, Losing(false)).0;
    var ea := Entry(EnvelopeOf(c, RequestId(c.role, "a"), qa, 1), "a");
    assert w1.ledger.entries == [ea];
    StaleNonceAppliedBlank(c, w1, qb);
    var w2 := Pay(c, w1, qb, CALM).0;
    var eb := Entry(EnvelopeOf(c, Blank, qb, 2), "b");
    assert w2.ledger.entries == [ea, eb];
    FreshNonceApplied(c, w2, qb);
    var w3 := Pay(c, w2, qb, CALM).0;
    assert w3.ledger.entries[1].request == w3.ledger.entries[2].request;
    RunOfThree(c, w0, Payout(qa, Losing(false)), Payout(qb, CALM), Payout(qb, CALM));
  }

  /** At most one transfer per request, over every run, exactly for the safe
      configurations. */
  lemma OnceExactlyWhenSafe(c: Config)
    ensures AlwaysOnce(c) <==> Safe(c)
  {
    if Safe(c) {
      forall w, events | Coherent(w) && Labelled(w.ledger.entries) ensures AtMostOnce(Run(c, w, events).ledger.entries) {
        ExactlyOncePerRequest(c, w, events);
      }
    } else {
      BlankIdPaysTwice(c);
      assert Coherent(RichStart(c)) && Labelled(RichStart(c).ledger.entries);
    }
  }

  // ---------------------------------------------------------------------
  // The reserve
  // ---------------------------------------------------------------------

  /** However it is configured, a signer with no positive reserve to protect
      leaves the wallet above it, because the node allows no overdraft. */
  lemma PayKeepsNonPositiveReserve(c: Config, w: World, q: Request, net: Network)
    requires Coherent(w) && c.reserve <= 0.0 && w.ledger.balance >= c.reserve
    ensures Pay(c, w, q, net).0.ledger.balance >= c.reserve
  {
    var id := DeriveId(q, w.nonce);
    SubmissionEffect(c, w.ledger, id, q, w.nonce, net.first);
    var (l1, o1) := SignAndSubmit(c, w.ledger, id, q, w.nonce, net.first);
    SubmissionEffect(c, l1, RetryId(c, id), q, l1.last + 1, net.second);
  }

  lemma {:induction false} RunKeepsReserve(c: Config, w: World, events: seq<Event>)
    requires Safe(c) || c.reserve <= 0.0
    requires Coherent(w) && w.ledger.balance >= c.reserve
    ensures Run(c, w, events).ledger.balance >= c.reserve
    decreases |events|
  {
    hide Pay;
    if events != [] {
      var n := |events| - 1;
      RunKeepsReserve(c, w, events[..n]);
      RunKeepsCoherent(c, w, events[..n]);
      if events[n].Payout? {
        if Safe(c) {
          PayEffect(c, Run(c, w, events[..n]), events[n].q, events[n].net);
        } else {
          PayKeepsNonPositiveReserve(c, Run(c, w, events[..n]), events[n].q, events[n].net);
        }
      }
    }
  }

  /** The reserve check covers one transfer. A reply lost after the transfer was
      applied, with an error text that mentions a nonce, lets the blank-id retry
      spend a second one. */
  lemma BlankIdSpendsReserve(c: Config) returns (w: World, run: seq<Event>)
    requires !Safe(c) && c.reserve > 0.0
    ensures Start(w) && w.ledger.balance >= c.reserve
    ensures Run(c, w, run).ledger.balance < c.reserve
  {
    var q := SomeRequest(c, "a");
    var need := q.amount + c.fee;
    var left := if c.reserve >= need then c.reserve else need;
    w := World(1, Ledger(0, left + need, []));
    run := [Payout(q, Losing(true))];
    SubmissionApplied(c, w.ledger, RequestId(c.role, "a"), q, ReplyLost(true));
    var l1 := SignAndSubmit(c, w.ledger, RequestId(c.role, "a"), q, 1, ReplyLost(true)).0;
    assert l1.balance == left && l1.entries[0].env.id == RequestId(c.role, "a");
    SubmissionApplied(c, l1, Blank, q, Delivered);
    assert run[..0] == [];
    assert Run(c, w, run) == Pay(c, w, q, Losing(true)).0;
  }

  /** The reply to a first submission that was applied is lost, and the error text
      mentions a nonce. */
  predicate MistakenForNonce(e: Event) {
    e.Payout? && e.net.first == ReplyLost(true)
  }

  lemma PayKeepsReserveUnless(c: Config, w: World, q: Request, net: Network)
    requires Coherent(w) && w.ledger.balance >= c.reserve && net.first != ReplyLost(true)
    ensures Pay(c, w, q, net).0.ledger.balance >= c.reserve
  {
    var id := DeriveId(q, w.nonce);
    SubmissionEffect(c, w.ledger, id, q, w.nonce, net.first);
    var (l1, o1) := SignAndSubmit(c, w.ledger, id, q, w.nonce, net.first);
    SubmissionEffect(c, l1, RetryId(c, id), q, l1.last + 1, net.second);
  }

  /** That is the only way: in every run without it, every configuration keeps its
      reserve, the retry as written against any node included. */
  lemma {:induction false} ReserveNeedsMistake(c: Config, w: World, events: seq<Event>)
    requires Coherent(w) && w.ledger.balance >= c.reserve
    requires forall i :: 0 <= i < |events| ==> !MistakenForNonce(events[i])
    ensures Run(c, w, events).ledger.balance >= c.reserve
    decreases |events|
  {
    hide Pay;
    if events != [] {
      var n := |events| - 1;
      ReserveNeedsMistake(c, w, events[..n]);
      RunKeepsCoherent(c, w, events[..n]);
      assert !MistakenForNonce(events[n]);
      if events[n].Payout? {
        PayKeepsReserveUnless(c, Run(c, w, events[..n]), events[n].q, events[n].net);
      }
    }
  }

  lemma ReserveExactlyWhenSafe(c: Config)
    ensures AlwaysAboveReserve(c) <==> Safe(c) || c.reserve <= 0.0
  {
    if Safe(c) || c.reserve <= 0.0 {
      forall w, events | Coherent(w) && w.ledger.balance >= c.reserve
        ensures Run(c, w, events).ledger.balance >= c.reserve
      {
        RunKeepsReserve(c, w, events);
      }
    } else {
      var w, run := BlankIdSpendsReserve(c);
      assert Coherent(w);
    }
  }

  // ---------------------------------------------------------------------
  // Recovery
  // ---------------------------------------------------------------------

  /** The request can be paid: it is admitted and the wallet affords it. */
  predicate Payable(c: Config, w: World, q: Request) {
    && Admits(c, q) && c.fee >= 0.0
    && w.ledger.balance >= q.amount + c.fee
    && w.ledger.balance - q.amount - c.fee >= c.reserve
  }

  /** Whatever was lost before, when the network is up again a retry that keeps
      its id pays in that same call, and leaves the two nonces agreeing. */
  lemma KeptIdRecoversInOneCall(c: Config, w: World, q: Request)
    requires c.retry == KeepsId && Coherent(w) && Payable(c, w, q)
    ensures var (w', reply) := Pay(c, w, q, CALM);
            && reply == Paid(DeriveId(q, w.nonce), w.ledger.last + 1, DeriveId(q, w.nonce) in Ids(w.ledger.entries))
            && w'.nonce == w'.ledger.last + 1
  {
  }

  /** As written, against a node that refuses blank ids, a call succeeds exactly
      when the cached nonce was already right; otherwise it fails, moves nothing
      and leaves the nonce right, so the same call made again succeeds, as a
      duplicate exactly if its transfer was in the log. */
  lemma BlankedIdNeedsASecondCall(c: Config, w: World, q: Request)
    requires c.retry == BlanksId && c.refusesBlank && Coherent(w) && Payable(c, w, q)
    ensures var (w', reply) := Pay(c, w, q, CALM);
            var next := w.ledger.last + 1;
            && w'.nonce == w'.ledger.last + 1
            && (w.nonce == next ==> reply == Paid(DeriveId(q, next), next, DeriveId(q, next) in Ids(w.ledger.entries)))
            && (w.nonce != next ==>
                  && reply == BadGateway && w'.ledger == w.ledger
                  && Pay(c, w', q, CALM).1 == Paid(DeriveId(q, next), next, DeriveId(q, next) in Ids(w.ledger.entries)))
  {
  }

  /** The request's transfer is in the log. */
  predicate InLog(w: World, q: Request) {
    q.id != "" && RequestId(q.purpose, q.id) in Ids(w.ledger.entries)
  }

  /** The reserve check comes before the node is asked. */
  predicate Blocked(c: Config, w: World, q: Request) {
    w.ledger.balance - q.amount - c.fee < c.reserve
  }

  /** With the network up, the retry of an applied request is reported as a
      duplicate exactly when the reserve would still allow the payment that is no
      longer needed; otherwise it is answered as blocked by the reserve. */
  lemma AppliedRetryReports(c: Config, w: World, q: Request)
    requires c.retry == KeepsId && c.fee >= 0.0 && Coherent(w) && Admits(c, q) && InLog(w, q)
    ensures Pay(c, w, q, CALM).1 ==
            if Blocked(c, w, q) then ReserveBlocked else Paid(RequestId(q.purpose, q.id), w.ledger.last + 1, true)
  {
  }

  /** The same for the retry as written: with a stale nonce the first call fails
      and the second one reports the duplicate. */
  lemma AppliedRetryAsWritten(c: Config, w: World, q: Request)
    requires c.retry == BlanksId && c.refusesBlank && c.fee >= 0.0 && Coherent(w) && Admits(c, q) && InLog(w, q)
    ensures var (w', reply) := Pay(c, w, q, CALM);
            var duplicate := Paid(RequestId(q.purpose, q.id), w.ledger.last + 1, true);
            && w'.ledger == w.ledger
            && reply == (if Blocked(c, w, q) then ReserveBlocked else if w.nonce == w.ledger.last + 1 then duplicate else BadGateway)
            && (!Blocked(c, w, q) ==> Pay(c, w', q, CALM).1 == duplicate)
  {
  }
}
