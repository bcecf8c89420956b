/** The payout signer against a validator of the network.

    A validator does not apply a transfer when it is submitted. It queues it, and a
    later block applies the queue. It checks the nonce and the balance against the
    last block, and it knows a transfer id only while the transfer is queued. The
    flag `remembers` describes a validator that would also know the ids of its
    blocks; the one of this repository does not.

    Between any two calls of a payout the validator may seal a block, drop a queued
    transfer, receive money, or get any envelope ever sent to it. */
module PayoutValidator {
  import opened PayoutLedger
  import opened PayoutSigner
  import opened PayoutSafety

  /** The wallet in the last block, and its queued transfers. */
  datatype Chain = Chain(ledger: Ledger, pending: seq<Entry>)

  predicate NoncePending(pending: seq<Entry>, nonce: nat) {
    exists i :: 0 <= i < |pending| && pending[i].env.nonce == nonce
  }

  /** One submit-signed call. */
  function Admit(c: Config, remembers: bool, n: Chain, e: Entry): (Chain, Answer) {
    if e.env.amount <= 0.0 || e.env.fee < 0.0 || (c.refusesBlank && e.env.id == Blank) || e.env.nonce == 0 then
      (n, BadEnvelope)
    else if e.env.nonce != n.ledger.last + 1 then
      (n, NonceRejected)
    else if n.ledger.balance < e.env.amount + e.env.fee then
      (n, Insufficient)
    else if e.env.id in Ids(n.pending) || (remembers && e.env.id in Ids(n.ledger.entries)) then
      (n, Duplicate)
    else if NoncePending(n.pending, e.env.nonce) then
      (n, Duplicate)
    else
      (n.(pending := n.pending + [e]), Accepted)
  }

  /** A block applies a transfer whose nonce and balance are right, and drops any other. */
  function SealOne(l: Ledger, e: Entry): Ledger {
    if e.env.nonce == l.last + 1 && l.balance >= e.env.amount + e.env.fee then Applied(l, e.env, e.request) else l
  }

  function SealAll(l: Ledger, es: seq<Entry>): Ledger {
    if es == [] then l else SealOne(SealAll(l, es[..|es| - 1]), es[|es| - 1])
  }

  function Seal(n: Chain): Chain {
    Chain(SealAll(n.ledger, n.pending), [])
  }

  class Validator {
    const cfg: Config
    const remembers: bool
    var ledger: Ledger
    var pending: seq<Entry>

    ghost function View(): Chain
      reads this
    {
      Chain(ledger, pending)
    }

    constructor (cfg: Config, remembers: bool, ledger: Ledger)
      ensures this.cfg == cfg && this.remembers == remembers && View() == Chain(ledger, [])
    {
      this.cfg, this.remembers, this.ledger, this.pending := cfg, remembers, ledger, [];
    }

    method SubmitSigned(e: Entry) returns (a: Answer)
      modifies this
      ensures (View(), a) == Admit(cfg, remembers, old(View()), e)
    {
      if e.env.amount <= 0.0 || e.env.fee < 0.0 || (cfg.refusesBlank && e.env.id == Blank) {
        return BadEnvelope;
      }
      if e.env.nonce >= 1 && e.env.nonce != ledger.last + 1 {
        return NonceRejected;
      }
      if e.env.nonce == 0 {
        return BadEnvelope;
      }
      if ledger.balance < e.env.amount + e.env.fee {
        return Insufficient;
      }
      if e.env.id in Ids(pending) || (remembers && e.env.id in Ids(ledger.entries)) {
        return Duplicate;
      }
      if NoncePending(pending, e.env.nonce) {
        return Duplicate;
      }
      pending := pending + [e];
      a := Accepted;
    }

    method ProduceBlock()
      modifies this
      ensures View() == Seal(old(View()))
    {
      var txs := pending;
      pending := [];
      for i := 0 to |txs|
        invariant pending == [] && ledger == SealAll(old(ledger), txs[..i])
      {
        assert txs[..i + 1][..i] == txs[..i];
        if txs[i].env.nonce == ledger.last + 1 && ledger.balance >= txs[i].env.amount + txs[i].env.fee {
          ledger := Applied(ledger, txs[i].env, txs[i].request);
        }
      }
      assert txs[..|txs|] == txs;
    }

    method Remove(k: nat)
      requires k < |pending|
      modifies this
      ensures View() == old(View()).(pending := old(pending)[..k] + old(pending)[k + 1..])
    {
      pending := pending[..k] + pending[k + 1..];
    }
  }

  // ---------------------------------------------------------------------
  // The signer, the validator and the network
  // ---------------------------------------------------------------------

  /** The cached nonce, the validator, and every envelope sent so far. */
  datatype Net = Net(nonce: nat, node: Chain, sent: set<Entry>)

  datatype NodeEvent = SealBlock | Evict(k: nat) | Arrive(e: Entry) | Credit(amount: real)

  function Tick(c: Config, remembers: bool, s: Net, e: NodeEvent): Net {
    match e
    case SealBlock => s.(node := Seal(s.node))
    case Evict(k) =>
      if k < |s.node.pending| then s.(node := s.node.(pending := s.node.pending[..k] + s.node.pending[k + 1..])) else s
    case Arrive(x) => if x in s.sent then s.(node := Admit(c, remembers, s.node, x).0) else s
    case Credit(a) =>
      if a >= 0.0 then s.(node := s.node.(ledger := s.node.ledger.(balance := s.node.ledger.balance + a))) else s
  }

  function Ticks(c: Config, remembers: bool, s: Net, es: seq<NodeEvent>): Net {
    if es == [] then s else Tick(c, remembers, Ticks(c, remembers, s, es[..|es| - 1]), es[|es| - 1])
  }

  /** One submission under the cached nonce, remembered by the network. */
  function Send(c: Config, remembers: bool, s: Net, id: TxId, q: Request, fate: Fate): (Net, Outcome) {
    var e := Entry(EnvelopeOf(c, id, q, s.nonce), q.id);
    var (n, a) := Admit(c, remembers, s.node, e);
    var reached := s.(node := n, sent := s.sent + {e});
    var missed := s.(sent := s.sent + {e});
    match fate
    case Delivered => (reached, Understand(id, a))
    case RequestLost(t) => (missed, Failed(t))
    case ReplyLost(t) => (reached, Failed(t))
    case Refused(t) => (missed, Failed(t))
  }

  function Reread(s: Net): Net {
    s.(nonce := s.node.ledger.last + 1)
  }

  function Finish(s: Net, o: Outcome, dupResync: bool): (Net, Reply) {
    var (w, reply) := Conclude(s.nonce, s.node.ledger, o, dupResync);
    (s.(nonce := w.nonce), reply)
  }

  /** What the validator does between the calls of one payout. */
  datatype Gaps = Gaps(beforeFirst: seq<NodeEvent>, beforeResync: seq<NodeEvent>, beforeRetry: seq<NodeEvent>,
                       beforeEnd: seq<NodeEvent>)

  const NO_GAPS := Gaps([], [], [], [])

  /** What the signer reads: its nonce, and the last block's balance and nonce. */
  function Seen(s: Net): World {
    World(s.nonce, s.node.ledger)
  }

  function FirstPart(c: Config, remembers: bool, s: Net, q: Request, net: Network, gaps: Gaps): (Net, Outcome) {
    var (s1, o1) := Send(c, remembers, Ticks(c, remembers, s, gaps.beforeFirst), DeriveId(q, s.nonce), q, net.first);
    (Ticks(c, remembers, s1, gaps.beforeResync), o1)
  }

  function SecondPart(c: Config, remembers: bool, s: Net, id: TxId, q: Request, net: Network, gaps: Gaps): (Net, Outcome) {
    Send(c, remembers, Ticks(c, remembers, Reread(s), gaps.beforeRetry), RetryId(c, id), q, net.second)
  }

  /** One payout under the signer's lock, the same handler as `Pay`. */
  function PayQueued(c: Config, remembers: bool, s: Net, q: Request, net: Network, gaps: Gaps): (Net, Reply) {
    if !Admits(c, q) then (s, Denied)
    else if !net.balance then (s, BadGateway)
    else if Blocked(c, Seen(s), q) then (s, ReserveBlocked)
    else
      var (s1, o1) := FirstPart(c, remembers, s, q, net, gaps);
      if o1 == Failed(true) && net.resync then
        var (s2, o2) := SecondPart(c, remembers, s1, DeriveId(q, s.nonce), q, net, gaps);
        Finish(Ticks(c, remembers, s2, gaps.beforeEnd), o2, net.dupResync)
      else
        Finish(Ticks(c, remembers, s1, gaps.beforeEnd), o1, net.dupResync)
  }

  /** The signer of `PayoutSigner`, talking to a validator over such a network. */
  class QueueSigner {
    const cfg: Config
    const node: Validator
    var nonce: nat
    var sent: set<Entry>

    ghost predicate Valid() {
      node.cfg == cfg
    }

    ghost function View(): Net
      reads this, node
    {
      Net(nonce, node.View(), sent)
    }

    constructor (node: Validator)
      ensures Valid() && this.node == node && View() == Net(node.ledger.last + 1, node.View(), {})
    {
      this.cfg, this.node, this.nonce, this.sent := node.cfg, node, node.ledger.last + 1, {};
    }

    method Happens(e: NodeEvent)
      requires Valid()
      modifies node
      ensures View() == Tick(cfg, node.remembers, old(View()), e)
    {
      match e
      case SealBlock => node.ProduceBlock();
      case Evict(k) =>
        if k < |node.pending| {
          node.Remove(k);
        }
      case Arrive(x) =>
        if x in sent {
          var _ := node.SubmitSigned(x);
        }
      case Credit(a) =>
        if a >= 0.0 {
          node.ledger := node.ledger.(balance := node.ledger.balance + a);
        }
    }

    method Pass(es: seq<NodeEvent>)
      requires Valid()
      modifies node
      ensures View() == Ticks(cfg, node.remembers, old(View()), es)
    {
      for i := 0 to |es|
        invariant View() == Ticks(cfg, node.remembers, old(View()), es[..i])
      {
        assert es[..i + 1][..i] == es[..i];
        Happens(es[i]);
      }
      assert es[..|es|] == es;
    }

    method Attempt(id: TxId, q: Request, fate: Fate) returns (o: Outcome)
      requires Valid()
      modifies this, node
      ensures (View(), o) == Send(cfg, node.remembers, old(View()), id, q, fate)
    {
      var e := Entry(EnvelopeOf(cfg, id, q, nonce), q.id);
      sent := sent + {e};
      match fate
      case RequestLost(t) => o := Failed(t);
      case Refused(t) => o := Failed(t);
      case ReplyLost(t) =>
        var _ := node.SubmitSigned(e);
        o := Failed(t);
      case Delivered =>
        var a := node.SubmitSigned(e);
        o := Understand(id, a);
    }

    method HandlePay(q: Request, net: Network, gaps: Gaps) returns (reply: Reply)
      requires Valid()
      modifies this, node
      ensures Valid() && (View(), reply) == PayQueued(cfg, node.remembers, old(View()), q, net, gaps)
    {
      hide Admits, Ticks, Send, DeriveId, RetryId;
      if !Admits(cfg, q) {
        return Denied;
      }
      if !net.balance {
        return BadGateway;
      }
      if node.ledger.balance - q.amount - cfg.fee < cfg.reserve {
        return ReserveBlocked;
      }
      var id := DeriveId(q, nonce);
      Pass(gaps.beforeFirst);
      var o := Attempt(id, q, net.first);
      Pass(gaps.beforeResync);
      if o == Failed(true) && net.resync {
        nonce := node.ledger.last + 1;
        Pass(gaps.beforeRetry);
        o := Attempt(RetryId(cfg, id), q, net.second);
      }
      Pass(gaps.beforeEnd);
      match o
      case Failed(_) => reply := BadGateway;
      case Submitted(used, duplicate) =>
        reply := Paid(used, nonce, duplicate);
        if !duplicate {
          nonce := nonce + 1;
        } else if net.dupResync {
          nonce := node.ledger.last + 1;
        }
    }
  }

  datatype QueueEvent = Order(q: Request, net: Network, gaps: Gaps) | Refresh(answered: bool) | AtNode(e: NodeEvent)

  function QueueStep(c: Config, remembers: bool, s: Net, e: QueueEvent): Net {
    match e
    case Order(q, net, gaps) => PayQueued(c, remembers, s, q, net, gaps).0
    case Refresh(answered) => if answered then Reread(s) else s
    case AtNode(x) => Tick(c, remembers, s, x)
  }

  function QueueRun(c: Config, remembers: bool, s: Net, events: seq<QueueEvent>): Net
    decreases |events|
  {
    if events == [] then s
    else QueueStep(c, remembers, QueueRun(c, remembers, s, events[..|events| - 1]), events[|events| - 1])
  }

  // ---------------------------------------------------------------------
  // What holds of every validator
  // ---------------------------------------------------------------------

  /** A queued transfer that the next block will apply. */
  predicate Fits(c: Config, l: Ledger, e: Entry) {
    && e.env.nonce == l.last + 1 && l.balance >= e.env.amount + e.env.fee
    && e.env.amount > 0.0 && e.env.fee >= 0.0 && e.env.fee == c.fee
    && (e.env.id == Blank ==> !c.refusesBlank) && |c.role| <= 32
  }

  predicate Mailed(c: Config, e: Entry) {
    e.env.nonce >= 1 && e.env.fee == c.fee && |c.role| <= 32
  }

  /** At most one transfer of the wallet is queued and the next block will apply it;
      the cached nonce is at most one ahead of the next one; mined nonces increase. */
  ghost predicate Sound(c: Config, s: Net) {
    && 1 <= s.nonce <= s.node.ledger.last + 2 && NoncesIncrease(s.node.ledger)
    && |s.node.pending| <= 1
    && (s.node.pending != [] ==> Fits(c, s.node.ledger, s.node.pending[0]))
    && (forall e :: e in s.sent ==> Mailed(c, e))
  }

  /** Mined and queued transfers. */
  function Log(n: Chain): seq<Entry> {
    n.ledger.entries + n.pending
  }

  ghost predicate Tidy(c: Config, s: Net) {
    Labelled(Log(s.node)) && UniqueIds(Log(s.node)) && forall e :: e in s.sent ==> Harmless(c, e)
  }

  /** The configurations and validators that pay a request at most once. */
  predicate PaysOnce(c: Config, remembers: bool) {
    Inert(c) || (remembers && Safe(c))
  }

  /** The queue after `e` has reached the validator: unchanged, or `e` alone. */
  predicate Took(c: Config, remembers: bool, n: Chain, e: Entry, n': Chain) {
    || n' == n
    || (&& n.pending == [] && n' == n.(pending := [e]) && Fits(c, n.ledger, e)
        && (remembers ==> e.env.id !in Ids(n.ledger.entries)))
  }

  lemma AdmitTakes(c: Config, remembers: bool, s: Net, e: Entry)
    requires Sound(c, s) && Mailed(c, e)
    ensures var (n, a) := Admit(c, remembers, s.node, e);
            && Took(c, remembers, s.node, e, n)
            && (a == Accepted ==> n.pending == [e] && e.env.nonce == s.node.ledger.last + 1)
            && (a != Accepted ==> n == s.node)
  {
    if s.node.pending != [] {
      assert s.node.pending[0].env.nonce == s.node.ledger.last + 1;
    }
  }

  lemma TookKeeps(c: Config, remembers: bool, s: Net, e: Entry, n: Chain)
    requires Sound(c, s) && Took(c, remembers, s.node, e, n)
    ensures Sound(c, s.(node := n)) && n.ledger == s.node.ledger
    ensures Inert(c) ==> n == s.node
    ensures PaysOnce(c, remembers) && Tidy(c, s) && Harmless(c, e) ==> Tidy(c, s.(node := n))
  {
    if n != s.node && PaysOnce(c, remembers) && Tidy(c, s) && Harmless(c, e) {
      TookIsTidy(c, s, e);
    }
  }

  lemma TookIsTidy(c: Config, s: Net, e: Entry)
    requires Tidy(c, s) && Harmless(c, e) && Fits(c, s.node.ledger, e) && s.node.pending == []
    requires e.env.id !in Ids(s.node.ledger.entries)
    ensures Tidy(c, s.(node := s.node.(pending := [e])))
  {
    var entries := s.node.ledger.entries;
    assert Log(s.node) == entries;
    forall i | 0 <= i < |entries| ensures entries[i].env.id != e.env.id {
      assert entries[i] in entries;
    }
  }

  /** A block applies the queued transfer, if there is one. */
  lemma SealApplies(c: Config, s: Net)
    requires Sound(c, s)
    ensures var n := Seal(s.node);
            if s.node.pending == [] then n == s.node
            else n == Chain(Applied(s.node.ledger, s.node.pending[0].env, s.node.pending[0].request), [])
  {
    var es := s.node.pending;
    if es != [] {
      assert es == [es[0]] && es[..0] == [];
      assert SealAll(s.node.ledger, []) == s.node.ledger;
    }
  }

  lemma SealKeeps(c: Config, s: Net)
    requires Sound(c, s)
    ensures Sound(c, s.(node := Seal(s.node))) && Log(Seal(s.node)) == Log(s.node)
    ensures s.node.ledger.last <= Seal(s.node).ledger.last
    ensures c.reserve <= 0.0 && s.node.ledger.balance >= c.reserve ==> Seal(s.node).ledger.balance >= c.reserve
    ensures Inert(c) ==> Seal(s.node) == s.node
  {
    hide SealAll;
    SealApplies(c, s);
  }

  /** Whatever is queued, a block never overdraws the wallet. */
  lemma {:induction false} BlocksNeverOverdraw(l: Ledger, es: seq<Entry>)
    requires l.balance >= 0.0 && forall i :: 0 <= i < |es| ==> es[i].env.amount >= 0.0 && es[i].env.fee >= 0.0
    ensures SealAll(l, es).balance >= 0.0
    decreases |es|
  {
    if es != [] {
      BlocksNeverOverdraw(l, es[..|es| - 1]);
    }
  }

  /** What any step keeps. */
  ghost predicate Keeps(c: Config, remembers: bool, s: Net, s': Net) {
    && Sound(c, s') && s.node.ledger.last <= s'.node.ledger.last
    && (PaysOnce(c, remembers) && Tidy(c, s) ==> Tidy(c, s'))
    && (c.reserve <= 0.0 && s.node.ledger.balance >= c.reserve ==> s'.node.ledger.balance >= c.reserve)
    && (Inert(c) ==> s'.node.ledger.balance >= s.node.ledger.balance)
  }

  lemma TickKeeps(c: Config, remembers: bool, s: Net, e: NodeEvent)
    requires Sound(c, s)
    ensures Keeps(c, remembers, s, Tick(c, remembers, s, e)) && Tick(c, remembers, s, e).nonce == s.nonce
  {
    match e
    case SealBlock => SealKeeps(c, s);
    case Evict(k) => EvictKeeps(c, remembers, s, k);
    case Arrive(x) =>
      if x in s.sent {
        AdmitTakes(c, remembers, s, x);
        hide Admit, Fits, NoncesIncrease, Labelled, UniqueIds, Harmless;
        TookKeeps(c, remembers, s, x, Admit(c, remembers, s.node, x).0);
      }
    case Credit(a) =>
  }

  lemma EvictKeeps(c: Config, remembers: bool, s: Net, k: nat)
    requires Sound(c, s)
    ensures Keeps(c, remembers, s, Tick(c, remembers, s, Evict(k)))
  {
    if k < |s.node.pending| {
      var entries := s.node.ledger.entries;
      assert s.node.pending[..k] + s.node.pending[k + 1..] == [];
      assert Log(Tick(c, remembers, s, Evict(k)).node) == entries;
      assert forall i :: 0 <= i < |entries| ==> Log(s.node)[i] == entries[i];
    }
  }

  lemma {:induction false} TicksKeep(c: Config, remembers: bool, s: Net, es: seq<NodeEvent>)
    requires Sound(c, s)
    ensures Keeps(c, remembers, s, Ticks(c, remembers, s, es)) && Ticks(c, remembers, s, es).nonce == s.nonce
    decreases |es|
  {
    hide Tick, Sound, Tidy, PaysOnce, Inert;
    if es != [] {
      TicksKeep(c, remembers, s, es[..|es| - 1]);
      TickKeeps(c, remembers, Ticks(c, remembers, s, es[..|es| - 1]), es[|es| - 1]);
    }
  }

  lemma SendKeeps(c: Config, remembers: bool, s: Net, id: TxId, q: Request, fate: Fate)
    requires Sound(c, s) && Admits(c, q)
    requires PaysOnce(c, remembers) ==> Harmless(c, Entry(EnvelopeOf(c, id, q, s.nonce), q.id))
    ensures var (s', o) := Send(c, remembers, s, id, q, fate);
            && Keeps(c, remembers, s, s') && s'.nonce == s.nonce
            && (o.Submitted? && !o.duplicate ==> s.nonce <= s'.node.ledger.last + 1)
  {
    var e := Entry(EnvelopeOf(c, id, q, s.nonce), q.id);
    var more := s.(sent := s.sent + {e});
    assert Mailed(c, e);
    AdmitTakes(c, remembers, s, e);
    hide Admit, Fits, NoncesIncrease, Labelled, UniqueIds, Harmless, Admits;
    assert Sound(c, more);
    TookKeeps(c, remembers, more, e, Admit(c, remembers, s.node, e).0);
  }

  // ---------------------------------------------------------------------
  // One payout, every run
  // ---------------------------------------------------------------------

  lemma OwnIdIsHarmless(c: Config, q: Request, n: nat, nonce: nat)
    requires Admits(c, q)
    ensures Harmless(c, Entry(EnvelopeOf(c, DeriveId(q, n), q, nonce), q.id))
    ensures Safe(c) ==> Harmless(c, Entry(EnvelopeOf(c, RetryId(c, DeriveId(q, n)), q, nonce), q.id))
  {
  }

  lemma FirstPartKeeps(c: Config, remembers: bool, s: Net, q: Request, net: Network, gaps: Gaps)
    requires Sound(c, s) && Admits(c, q)
    ensures var (s', o) := FirstPart(c, remembers, s, q, net, gaps);
            && Keeps(c, remembers, s, s')
            && (o.Submitted? && !o.duplicate ==> s'.nonce <= s'.node.ledger.last + 1)
  {
    hide Sound, Admits, Tidy, Inert, Harmless, Safe, DeriveId, Send, Ticks, RetryId, PaysOnce;
    TicksKeep(c, remembers, s, gaps.beforeFirst);
    var s0 := Ticks(c, remembers, s, gaps.beforeFirst);
    OwnIdIsHarmless(c, q, s.nonce, s0.nonce);
    SendKeeps(c, remembers, s0, DeriveId(q, s.nonce), q, net.first);
    TicksKeep(c, remembers, Send(c, remembers, s0, DeriveId(q, s.nonce), q, net.first).0, gaps.beforeResync);
  }

  lemma RereadKeeps(c: Config, remembers: bool, s: Net)
    requires Sound(c, s)
    ensures Keeps(c, remembers, s, Reread(s))
  {
  }

  lemma PaysOnceIsSafe(c: Config, remembers: bool)
    requires PaysOnce(c, remembers)
    ensures Safe(c)
  {
  }

  lemma SecondPartKeeps(c: Config, remembers: bool, s: Net, q: Request, n: nat, net: Network, gaps: Gaps)
    requires Sound(c, s) && Admits(c, q)
    ensures var (s', o) := SecondPart(c, remembers, s, DeriveId(q, n), q, net, gaps);
            && Keeps(c, remembers, s, s')
            && (o.Submitted? && !o.duplicate ==> s'.nonce <= s'.node.ledger.last + 1)
  {
    hide Sound, Admits, Tidy, Inert, Harmless, Safe, DeriveId, Send, Ticks, RetryId, PaysOnce;
    RereadKeeps(c, remembers, s);
    TicksKeep(c, remembers, Reread(s), gaps.beforeRetry);
    var s1 := Ticks(c, remembers, Reread(s), gaps.beforeRetry);
    OwnIdIsHarmless(c, q, n, s1.nonce);
    if PaysOnce(c, remembers) {
      PaysOnceIsSafe(c, remembers);
    }
    SendKeeps(c, remembers, s1, RetryId(c, DeriveId(q, n)), q, net.second);
  }

  lemma FinishKeeps(c: Config, remembers: bool, start: Net, s: Net, o: Outcome, es: seq<NodeEvent>, dupResync: bool)
    requires Keeps(c, remembers, start, s)
    requires o.Submitted? && !o.duplicate ==> s.nonce <= s.node.ledger.last + 1
    ensures Keeps(c, remembers, start, Finish(Ticks(c, remembers, s, es), o, dupResync).0)
  {
    TicksKeep(c, remembers, s, es);
    hide NoncesIncrease, Fits, Mailed, Ticks, PaysOnce, Inert, Labelled, UniqueIds, Harmless;
  }

  lemma PayQueuedKeeps(c: Config, remembers: bool, s: Net, q: Request, net: Network, gaps: Gaps)
    requires Sound(c, s)
    ensures Keeps(c, remembers, s, PayQueued(c, remembers, s, q, net, gaps).0)
  {
    if Admits(c, q) && net.balance && !Blocked(c, Seen(s), q) {
      FirstPartKeeps(c, remembers, s, q, net, gaps);
      var (s1, o1) := FirstPart(c, remembers, s, q, net, gaps);
      hide Sound, Admits, Blocked, Tidy, PaysOnce, Inert, DeriveId, Ticks, Finish, FirstPart, SecondPart;
      if o1 == Failed(true) && net.resync {
        SecondPartKeeps(c, remembers, s1, q, s.nonce, net, gaps);
        var (s2, o2) := SecondPart(c, remembers, s1, DeriveId(q, s.nonce), q, net, gaps);
        FinishKeeps(c, remembers, s, s2, o2, gaps.beforeEnd, net.dupResync);
      } else {
        FinishKeeps(c, remembers, s, s1, o1, gaps.beforeEnd, net.dupResync);
      }
    }
  }

  lemma QueueStepKeeps(c: Config, remembers: bool, s: Net, e: QueueEvent)
    requires Sound(c, s)
    ensures Keeps(c, remembers, s, QueueStep(c, remembers, s, e))
  {
    match e
    case Order(q, net, gaps) => PayQueuedKeeps(c, remembers, s, q, net, gaps);
    case Refresh(_) => RereadKeeps(c, remembers, s);
    case AtNode(x) => TickKeeps(c, remembers, s, x);
  }

  /** Over every run: at most one transfer queued, the cached nonce at most one ahead,
      mined nonces increasing, and what `Keeps` says of ids and balance. */
  lemma {:induction false} QueueRunKeeps(c: Config, remembers: bool, s: Net, events: seq<QueueEvent>)
    requires Sound(c, s)
    ensures Keeps(c, remembers, s, QueueRun(c, remembers, s, events))
    decreases |events|
  {
    hide QueueStep, Sound, Tidy, PaysOnce, Inert;
    if events != [] {
      QueueRunKeeps(c, remembers, s, events[..|events| - 1]);
      QueueStepKeeps(c, remembers, QueueRun(c, remembers, s, events[..|events| - 1]), events[|events| - 1]);
    }
  }

  /** A signer on a wallet in order, new or used, with nothing queued. */
  function Fresh(w: World): Net {
    Net(w.nonce, Chain(w.ledger, []), {})
  }

  lemma FreshIsSound(c: Config, w: World)
    requires Coherent(w)
    ensures Sound(c, Fresh(w)) && (Labelled(w.ledger.entries) ==> Tidy(c, Fresh(w)))
  {
    assert Log(Fresh(w).node) == w.ledger.entries;
  }

  ghost predicate AlwaysOnceQueued(c: Config, remembers: bool) {
    forall w, events :: Coherent(w) && Labelled(w.ledger.entries)
                        ==> AtMostOnce(QueueRun(c, remembers, Fresh(w), events).node.ledger.entries)
  }

  lemma TidyMeansOnce(c: Config, s: Net)
    requires Tidy(c, s)
    ensures AtMostOnce(s.node.ledger.entries)
  {
    LabelsMeanOnce(Log(s.node));
    assert forall i :: 0 <= i < |s.node.ledger.entries| ==> Log(s.node)[i] == s.node.ledger.entries[i];
  }

  // ---------------------------------------------------------------------
  // Exact answers
  // ---------------------------------------------------------------------

  /** The validator says duplicate if anything at all is queued, or if it remembers the id. */
  predicate SaysDuplicate(remembers: bool, n: Chain, id: TxId) {
    n.pending != [] || (remembers && id in Ids(n.ledger.entries))
  }

  /** The validator's answer to a payable envelope at the next nonce. */
  lemma AnswerAtNextNonce(c: Config, remembers: bool, s: Net, id: TxId, q: Request)
    requires Sound(c, s) && Payable(c, Seen(s), q) && s.nonce == s.node.ledger.last + 1
    requires id == Blank ==> !c.refusesBlank
    ensures var (s', o) := Send(c, remembers, s, id, q, Delivered);
            var dup := SaysDuplicate(remembers, s.node, id);
            && o == Submitted(id, dup) && s'.nonce == s.nonce
            && s'.node == (if dup then s.node else s.node.(pending := [Entry(EnvelopeOf(c, id, q, s.nonce), q.id)]))
  {
    if s.node.pending != [] {
      assert s.node.pending[0].env.nonce == s.nonce;
    }
    assert Ids([]) == {};
  }

  lemma AnswerAtOtherNonce(c: Config, remembers: bool, s: Net, id: TxId, q: Request)
    requires Sound(c, s) && Payable(c, Seen(s), q) && s.nonce != s.node.ledger.last + 1
    requires id == Blank ==> !c.refusesBlank
    ensures var (s', o) := Send(c, remembers, s, id, q, Delivered);
            o == Failed(true) && s'.nonce == s.nonce && s'.node == s.node
  {
  }

  /** With the network up and no block in between, a retry that keeps its id gets this
      answer from every reachable state. */
  lemma CalmAnswer(c: Config, remembers: bool, s: Net, q: Request)
    requires c.retry == KeepsId && Sound(c, s) && Payable(c, Seen(s), q)
    ensures var (s', reply) := PayQueued(c, remembers, s, q, CALM, NO_GAPS);
            var id, next := DeriveId(q, s.nonce), s.node.ledger.last + 1;
            && reply == Paid(id, next, SaysDuplicate(remembers, s.node, id))
            && s'.node == (if SaysDuplicate(remembers, s.node, id) then s.node
                           else s.node.(pending := [Entry(EnvelopeOf(c, id, q, next), q.id)]))
  {
    var id := DeriveId(q, s.nonce);
    if s.nonce == s.node.ledger.last + 1 {
      AnswerAtNextNonce(c, remembers, s, id, q);
    } else {
      AnswerAtOtherNonce(c, remembers, s, id, q);
      var s1 := Send(c, remembers, s, id, q, Delivered).0;
      SendKeepsSound(c, remembers, s, id, q);
      AnswerAtNextNonce(c, remembers, Reread(s1), id, q);
    }
    hide Send, Sound, Payable, Ids;
  }

  lemma SendKeepsSound(c: Config, remembers: bool, s: Net, id: TxId, q: Request)
    requires Sound(c, s) && Admits(c, q)
    ensures Sound(c, Send(c, remembers, s, id, q, Delivered).0)
  {
    var e := Entry(EnvelopeOf(c, id, q, s.nonce), q.id);
    AdmitTakes(c, remembers, s, e);
    hide Admit, NoncesIncrease;
    TookKeeps(c, remembers, s.(sent := s.sent + {e}), e, Admit(c, remembers, s.node, e).0);
  }

  /** As written, against a validator that refuses the blank id: the same answer when
      the cached nonce is right, and otherwise a failure that repairs it. */
  lemma CalmAnswerAsWritten(c: Config, remembers: bool, s: Net, q: Request)
    requires c.retry == BlanksId && c.refusesBlank && Sound(c, s) && Payable(c, Seen(s), q)
    ensures var (s', reply) := PayQueued(c, remembers, s, q, CALM, NO_GAPS);
            var id, next := DeriveId(q, s.nonce), s.node.ledger.last + 1;
            && (s.nonce == next ==>
                  && reply == Paid(id, next, SaysDuplicate(remembers, s.node, id))
                  && s'.node == (if SaysDuplicate(remembers, s.node, id) then s.node
                                 else s.node.(pending := [Entry(EnvelopeOf(c, id, q, next), q.id)])))
            && (s.nonce != next ==> reply == BadGateway && s'.node == s.node && s'.nonce == next)
  {
    var id := DeriveId(q, s.nonce);
    if s.nonce == s.node.ledger.last + 1 {
      AnswerAtNextNonce(c, remembers, s, id, q);
      hide Send;
    } else {
      AnswerAtOtherNonce(c, remembers, s, id, q);
    }
  }

  /** The validator knows the transfer: it is mined or queued. */
  predicate Known(n: Chain, id: TxId) {
    id in Ids(Log(n))
  }

  lemma KnownWhere(n: Chain, id: TxId)
    ensures Known(n, id) <==> id in Ids(n.ledger.entries) || id in Ids(n.pending)
  {
    if id in Ids(n.ledger.entries) {
      var e :| e in n.ledger.entries && e.env.id == id;
      assert e in Log(n);
    }
    if id in Ids(n.pending) {
      var e :| e in n.pending && e.env.id == id;
      assert e in Log(n);
    }
  }

  /** A duplicate answer is true, that is it names a transfer the validator knows, if
      and only if no transfer with another id is queued, or this one is mined. */
  lemma DuplicateIsTrueExactlyWhen(c: Config, remembers: bool, s: Net, id: TxId)
    requires Sound(c, s) && SaysDuplicate(remembers, s.node, id)
    ensures Known(s.node, id) <==>
              s.node.pending == [] || s.node.pending[0].env.id == id || id in Ids(s.node.ledger.entries)
  {
    KnownWhere(s.node, id);
    if s.node.pending != [] {
      assert s.node.pending == [s.node.pending[0]];
    }
  }

  /** A queued transfer is applied by the next block, whatever else happens, unless it
      is dropped from the queue. */
  lemma {:induction false} QueuedIsApplied(c: Config, remembers: bool, s: Net, es: seq<NodeEvent>)
    requires Sound(c, s) && s.node.pending != [] && forall i :: 0 <= i < |es| ==> !es[i].Evict?
    ensures var n := Ticks(c, remembers, s, es).node;
            if SealBlock in es then s.node.pending[0] in n.ledger.entries else n.pending == s.node.pending
    decreases |es|
  {
    if es != [] {
      var k := |es| - 1;
      var mid := Ticks(c, remembers, s, es[..k]);
      QueuedIsApplied(c, remembers, s, es[..k]);
      TicksKeep(c, remembers, s, es[..k]);
      assert es == es[..k] + [es[k]];
      TickOfQueued(c, remembers, mid, es[k]);
    }
  }

  lemma TickOfQueued(c: Config, remembers: bool, s: Net, e: NodeEvent)
    requires Sound(c, s) && !e.Evict?
    ensures var n := Tick(c, remembers, s, e).node;
            && s.node.ledger.entries <= n.ledger.entries
            && (s.node.pending != [] ==>
                  if e == SealBlock then s.node.pending[0] in n.ledger.entries else n.pending == s.node.pending)
  {
    match e
    case SealBlock =>
      SealApplies(c, s);
      if s.node.pending != [] {
        var x := s.node.pending[0];
        assert x == Entry(x.env, x.request);
        assert Seal(s.node).ledger.entries[|s.node.ledger.entries|] == x;
      }
    case Arrive(x) =>
      if x in s.sent {
        AdmitTakes(c, remembers, s, x);
      }
    case _ =>
  }

  // ---------------------------------------------------------------------
  // Runs against a validator
  // ---------------------------------------------------------------------

  lemma TwoMore(c: Config, remembers: bool, s: Net, events: seq<QueueEvent>, a: QueueEvent, b: QueueEvent)
    ensures QueueRun(c, remembers, s, events + [a, b])
            == QueueStep(c, remembers, QueueStep(c, remembers, QueueRun(c, remembers, s, events), a), b)
  {
    hide QueueStep;
    var all := events + [a, b];
    assert all[..|all| - 1] == events + [a] && (events + [a])[..|events|] == events;
  }

  const MINE := AtNode(SealBlock)

  function AppliedTo(c: Config, n: Chain, id: TxId, q: Request): Chain {
    Chain(Applied(n.ledger, EnvelopeOf(c, id, q, n.ledger.last + 1), q.id), [])
  }

  /** Queueing one transfer and mining it. */
  lemma QueuedThenMined(c: Config, s: Net, e: Entry)
    requires Sound(c, s) && s.node.pending == [e]
    ensures QueueStep(c, false, s, MINE) == QueueStep(c, true, s, MINE)
         == s.(node := Chain(Applied(s.node.ledger, e.env, e.request), []))
  {
    SealApplies(c, s);
  }

  /** A payout at the right nonce, of an id the validator does not know, and a block:
      paid, in either form of the retry. */
  lemma PaidAndMined(c: Config, remembers: bool, s: Net, q: Request)
    requires Sound(c, s) && Payable(c, Seen(s), q) && s.nonce == s.node.ledger.last + 1 && q.id != ""
    requires s.node.pending == [] && (remembers ==> RequestId(q.purpose, q.id) !in Ids(s.node.ledger.entries))
    ensures var s' := QueueStep(c, remembers, QueueStep(c, remembers, s, Order(q, CALM, NO_GAPS)), MINE);
            && s'.node == AppliedTo(c, s.node, RequestId(q.purpose, q.id), q) && s'.nonce == s'.node.ledger.last + 1
            && Sound(c, s')
  {
    AnswerAtNextNonce(c, remembers, s, RequestId(q.purpose, q.id), q);
    PayQueuedKeeps(c, remembers, s, q, CALM, NO_GAPS);
    var s1 := QueueStep(c, remembers, s, Order(q, CALM, NO_GAPS));
    hide Send, Sound, Payable, Fits;
    QueuedThenMined(c, s1, s1.node.pending[0]);
    TickKeeps(c, remembers, s1, SealBlock);
  }

  /** Accepted, but the client is not told, and mined. */
  lemma LostAndMined(c: Config, remembers: bool, s: Net, q: Request)
    requires Sound(c, s) && Payable(c, Seen(s), q) && s.nonce == s.node.ledger.last + 1 && q.id != ""
    requires s.node.pending == [] && RequestId(q.purpose, q.id) !in Ids(s.node.ledger.entries)
    ensures var s' := QueueStep(c, remembers, QueueStep(c, remembers, s, Order(q, Losing(false), NO_GAPS)), MINE);
            && s'.node == AppliedTo(c, s.node, RequestId(q.purpose, q.id), q) && s'.nonce == s.nonce
            && Sound(c, s')
  {
    AnswerAtNextNonce(c, remembers, s, RequestId(q.purpose, q.id), q);
    PayQueuedKeeps(c, remembers, s, q, Losing(false), NO_GAPS);
    var s1 := QueueStep(c, remembers, s, Order(q, Losing(false), NO_GAPS));
    var e := Entry(EnvelopeOf(c, RequestId(q.purpose, q.id), q, s.nonce), q.id);
    assert s1.node == s.node.(pending := [e]) && s1.nonce == s.nonce;
    hide Send, Sound, Payable, Fits;
    QueuedThenMined(c, s1, e);
    TickKeeps(c, remembers, s1, SealBlock);
  }

  /** Refused for its nonce, accepted under the blank id, and mined. */
  lemma BlankAndMined(c: Config, remembers: bool, s: Net, q: Request)
    requires !Safe(c) && Sound(c, s) && Payable(c, Seen(s), q) && s.nonce == s.node.ledger.last && q.id != ""
    requires s.node.pending == [] && Blank !in Ids(s.node.ledger.entries)
    ensures var s' := QueueStep(c, remembers, QueueStep(c, remembers, s, Order(q, CALM, NO_GAPS)), MINE);
            && s'.node == AppliedTo(c, s.node, Blank, q) && s'.nonce == s'.node.ledger.last + 1
            && Sound(c, s')
  {
    var id := RequestId(q.purpose, q.id);
    AnswerAtOtherNonce(c, remembers, s, id, q);
    SendKeepsSound(c, remembers, s, id, q);
    var s1 := Reread(Send(c, remembers, s, id, q, Delivered).0);
    AnswerAtNextNonce(c, remembers, s1, Blank, q);
    PayQueuedKeeps(c, remembers, s, q, CALM, NO_GAPS);
    var s2 := QueueStep(c, remembers, s, Order(q, CALM, NO_GAPS));
    hide Send, Sound, Payable, Fits;
    QueuedThenMined(c, s2, Entry(EnvelopeOf(c, Blank, q, s1.nonce), q.id));
    TickKeeps(c, remembers, s2, SealBlock);
  }

  /** The rich wallet can afford three transfers. */
  lemma StillPayable(c: Config, w: World, l: Ledger, q: Request)
    requires !Inert(c) && w == RichStart(c) && q == SomeRequest(c, q.id) && 1 <= |q.id| <= 128
    requires l.balance >= w.ledger.balance - 2.0 * (q.amount + c.fee)
    ensures forall nonce: nat :: Payable(c, World(nonce, l), q)
  {
  }

  /** A request that is paid, mined and asked for again. */
  function AskedAgain(c: Config): seq<QueueEvent> {
    [] + [Order(SomeRequest(c, "a"), CALM, NO_GAPS), MINE] + [Order(SomeRequest(c, "a"), CALM, NO_GAPS), MINE]
  }

  /** A validator that forgets the ids of its blocks pays it again, in either form of
      the retry, with nothing lost and no nonce refused. */
  lemma MinedRequestIsPaidAgain(c: Config)
    requires !Inert(c)
    ensures !AtMostOnce(QueueRun(c, false, Fresh(RichStart(c)), AskedAgain(c)).node.ledger.entries)
  {
    var w, q := RichStart(c), SomeRequest(c, "a");
    var s0 := Fresh(w);
    var once := [] + [Order(q, CALM, NO_GAPS), MINE];
    FreshIsSound(c, w);
    StillPayable(c, w, w.ledger, q);
    PaidAndMined(c, false, s0, q);
    TwoMore(c, false, s0, [], Order(q, CALM, NO_GAPS), MINE);
    var s1 := QueueRun(c, false, s0, once);
    StillPayable(c, w, s1.node.ledger, q);
    hide QueueStep, Sound, Payable, Inert;
    PaidAndMined(c, false, s1, q);
    TwoMore(c, false, s0, once, Order(q, CALM, NO_GAPS), MINE);
    var es := QueueRun(c, false, s0, AskedAgain(c)).node.ledger.entries;
    assert |es| == 2 && es[0].request == es[1].request == "a";
  }

  /** A lost reply, a retry under the blank id, and its client asking again, with a
      block after each. */
  function BlankQueueRun(c: Config): seq<QueueEvent> {
    LostFirst(c) + [Order(SomeRequest(c, "b"), CALM, NO_GAPS), MINE] + [Order(SomeRequest(c, "b"), CALM, NO_GAPS), MINE]
  }

  function LostFirst(c: Config): seq<QueueEvent> {
    [] + [Order(SomeRequest(c, "a"), Losing(false), NO_GAPS), MINE]
  }

  /** A retry under a blank id that is not refused pays twice even if ids are remembered. */
  lemma BlankIdIsPaidAgain(c: Config)
    requires !Safe(c)
    ensures !AtMostOnce(QueueRun(c, true, Fresh(RichStart(c)), BlankQueueRun(c)).node.ledger.entries)
  {
    var w, qb := RichStart(c), SomeRequest(c, "b");
    var order := Order(qb, CALM, NO_GAPS);
    BlankQueueBegins(c);
    var s1 := QueueRun(c, true, Fresh(w), LostFirst(c));
    var ea, eb := s1.node.ledger.entries[0], Entry(EnvelopeOf(c, Blank, qb, 2), "b");
    StillPayable(c, w, s1.node.ledger, qb);
    assert !Inert(c);
    hide QueueStep, Sound, Payable, LostFirst, Safe, Inert;
    BlankAndMined(c, true, s1, qb);
    TwoMore(c, true, Fresh(w), LostFirst(c), order, MINE);
    var s2 := QueueRun(c, true, Fresh(w), LostFirst(c) + [order, MINE]);
    assert s2.node.ledger.entries == [ea, eb];
    StillPayable(c, w, s2.node.ledger, qb);
    PaidAndMined(c, true, s2, qb);
    TwoMore(c, true, Fresh(w), LostFirst(c) + [order, MINE], order, MINE);
    var es := QueueRun(c, true, Fresh(w), BlankQueueRun(c)).node.ledger.entries;
    assert |es| == 3 && es[1] == eb && es[2].request == "b";
  }

  lemma BlankQueueBegins(c: Config)
    requires !Safe(c)
    ensures var w, q := RichStart(c), SomeRequest(c, "a");
            var s := QueueRun(c, true, Fresh(w), LostFirst(c));
            && Sound(c, s) && s.nonce == 1 && s.node.pending == []
            && s.node.ledger == Applied(w.ledger, EnvelopeOf(c, RequestId(c.role, "a"), q, 1), "a")
            && s.node.ledger.entries == [Entry(EnvelopeOf(c, RequestId(c.role, "a"), q, 1), "a")]
  {
    var w, q := RichStart(c), SomeRequest(c, "a");
    FreshIsSound(c, w);
    StillPayable(c, w, w.ledger, q);
    LostAndMined(c, true, Fresh(w), q);
    hide QueueStep;
    TwoMore(c, true, Fresh(w), [], Order(q, Losing(false), NO_GAPS), MINE);
  }

  /** At most one transfer per request, over every run against a validator, if and only
      if nothing is ever paid, or the validator remembers the ids of its blocks and
      the retry is safe. */
  lemma OnceQueuedExactlyWhen(c: Config, remembers: bool)
    ensures AlwaysOnceQueued(c, remembers) <==> PaysOnce(c, remembers)
  {
    if PaysOnce(c, remembers) {
      forall w, events | Coherent(w) && Labelled(w.ledger.entries)
        ensures AtMostOnce(QueueRun(c, remembers, Fresh(w), events).node.ledger.entries)
      {
        hide Sound, Tidy, PaysOnce;
        FreshIsSound(c, w);
        QueueRunKeeps(c, remembers, Fresh(w), events);
        TidyMeansOnce(c, QueueRun(c, remembers, Fresh(w), events));
      }
    } else {
      var w := RichStart(c);
      assert Coherent(w) && Labelled(w.ledger.entries);
      if remembers {
        BlankIdIsPaidAgain(c);
      } else {
        MinedRequestIsPaidAgain(c);
      }
    }
  }

  /** While another transfer is queued, a request the validator has never heard of is
      reported as paid, in either form of the retry; the next block does not pay it,
      and the validator does not hear of it again. */
  lemma OtherQueuedMisreports(c: Config, remembers: bool, s: Net, q: Request)
    requires Sound(c, s) && Payable(c, Seen(s), q) && q.id != "" && s.nonce == s.node.ledger.last + 1
    requires s.node.pending != [] && !Known(s.node, RequestId(q.purpose, q.id))
    ensures var (s', reply) := PayQueued(c, remembers, s, q, CALM, NO_GAPS);
            && reply == Paid(RequestId(q.purpose, q.id), s.node.ledger.last + 1, true)
            && !Known(s'.node, RequestId(q.purpose, q.id)) && !Known(Seal(s'.node), RequestId(q.purpose, q.id))
  {
    AnswerAtNextNonce(c, remembers, s, RequestId(q.purpose, q.id), q);
    SealKeeps(c, s);
    hide Sound, Send, Payable, SealAll, Ids;
  }

  /** One transfer queued, and the signer's nonce read again. */
  lemma QueuedAndReread(c: Config, remembers: bool)
    requires !Inert(c)
    ensures var q := SomeRequest(c, "a");
            var s := QueueRun(c, remembers, Fresh(RichStart(c)), [] + [Order(q, CALM, NO_GAPS), Refresh(true)]);
            && Sound(c, s) && s.nonce == 1
            && s.node == Chain(RichStart(c).ledger, [Entry(EnvelopeOf(c, RequestId(c.role, "a"), q, 1), "a")])
  {
    var w, q := RichStart(c), SomeRequest(c, "a");
    var s0 := Fresh(w);
    FreshIsSound(c, w);
    StillPayable(c, w, w.ledger, q);
    AnswerAtNextNonce(c, remembers, s0, RequestId(c.role, "a"), q);
    PayQueuedKeeps(c, remembers, s0, q, CALM, NO_GAPS);
    var s1 := PayQueued(c, remembers, s0, q, CALM, NO_GAPS).0;
    assert s1.node == Chain(w.ledger, [Entry(EnvelopeOf(c, RequestId(c.role, "a"), q, 1), "a")]);
    hide PayQueued;
    RereadKeeps(c, remembers, s1);
    TwoMore(c, remembers, s0, [], Order(q, CALM, NO_GAPS), Refresh(true));
  }

  /** A run in which request "b" is reported as paid and only "a" is. */
  lemma QueuedNonceMisreports(c: Config, remembers: bool)
    requires !Inert(c)
    ensures var qa, qb := SomeRequest(c, "a"), SomeRequest(c, "b");
            var s := QueueRun(c, remembers, Fresh(RichStart(c)), [] + [Order(qa, CALM, NO_GAPS), Refresh(true)]);
            var (s', reply) := PayQueued(c, remembers, s, qb, CALM, NO_GAPS);
            && reply == Paid(RequestId(c.role, "b"), 1, true)
            && !Known(Seal(s'.node), RequestId(c.role, "b"))
  {
    var w, qa, qb := RichStart(c), SomeRequest(c, "a"), SomeRequest(c, "b");
    QueuedAndReread(c, remembers);
    var s := QueueRun(c, remembers, Fresh(w), [] + [Order(qa, CALM, NO_GAPS), Refresh(true)]);
    var ea := Entry(EnvelopeOf(c, RequestId(c.role, "a"), qa, 1), "a");
    StillPayable(c, w, w.ledger, qb);
    assert Log(s.node) == [ea];
    NotIn(ea, RequestId(c.role, "b"));
    hide QueueRun, Sound, Payable, PayQueued, Ids;
    OtherQueuedMisreports(c, remembers, s, qb);
  }

  lemma NotIn(e: Entry, id: TxId)
    requires e.env.id != id
    ensures id !in Ids([e])
  {
  }

  // ---------------------------------------------------------------------
  // The reserve
  // ---------------------------------------------------------------------

  ghost predicate AlwaysAboveReserveQueued(c: Config, remembers: bool) {
    forall w, events :: Coherent(w) && w.ledger.balance >= c.reserve
                        ==> QueueRun(c, remembers, Fresh(w), events).node.ledger.balance >= c.reserve
  }

  /** A block between the balance read and the submission: the balance that was
      checked did not yet show the transfer that was queued. */
  lemma BlockBetweenSpendsReserve(c: Config, remembers: bool) returns (w: World, run: seq<QueueEvent>)
    requires !Inert(c) && c.reserve > 0.0
    ensures Coherent(w) && w.ledger.balance >= c.reserve
    ensures QueueRun(c, remembers, Fresh(w), run).node.ledger.balance < c.reserve
  {
    var qa, qb := SomeRequest(c, "a"), SomeRequest(c, "b");
    var need := qa.amount + c.fee;
    var left := if c.reserve >= need then c.reserve else need;
    w := World(1, Ledger(0, left + need, []));
    run := BlockBetween(qa, qb);
    BothAreMined(c, remembers, w, qa, qb);
  }

  function BlockBetween(a: Request, b: Request): seq<QueueEvent> {
    [] + [Order(a, CALM, NO_GAPS), Order(b, CALM, Gaps([SealBlock], [], [], []))] + [MINE, Refresh(false)]
  }

  /** Both requests are checked against the same balance, and both are mined. */
  lemma BothAreMined(c: Config, remembers: bool, w: World, a: Request, b: Request)
    requires Coherent(w) && w.nonce == w.ledger.last + 1 && w.ledger.entries == []
    requires Payable(c, w, a) && Payable(c, w, b) && a.id != "" && b.id != "" && a.id != b.id
    requires w.ledger.balance - Debit(EnvelopeOf(c, RequestId(a.purpose, a.id), a, w.nonce)) >= b.amount + c.fee
    ensures QueueRun(c, remembers, Fresh(w), BlockBetween(a, b)).node.ledger
         == Applied(Applied(w.ledger, EnvelopeOf(c, RequestId(a.purpose, a.id), a, w.nonce), a.id),
                    EnvelopeOf(c, RequestId(b.purpose, b.id), b, w.nonce + 1), b.id)
  {
    var s1 := QueueStep(c, remembers, Fresh(w), Order(a, CALM, NO_GAPS));
    QueuedFirst(c, remembers, w, a);
    SecondIsQueued(c, remembers, w, s1, a, b);
    hide QueueStep, Sound, Payable, Debit;
    var second := Order(b, CALM, Gaps([SealBlock], [], [], []));
    var s2 := QueueStep(c, remembers, s1, second);
    QueuedThenMined(c, s2, s2.node.pending[0]);
    RefreshDoesNothing(c, remembers, QueueStep(c, remembers, s2, MINE));
    TwoMore(c, remembers, Fresh(w), [], Order(a, CALM, NO_GAPS), second);
    TwoMore(c, remembers, Fresh(w), [] + [Order(a, CALM, NO_GAPS), second], MINE, Refresh(false));
  }

  lemma RefreshDoesNothing(c: Config, remembers: bool, s: Net)
    ensures QueueStep(c, remembers, s, Refresh(false)) == s
  {
  }

  lemma SecondIsQueued(c: Config, remembers: bool, w: World, s: Net, a: Request, b: Request)
    requires Payable(c, w, b) && a.id != "" && b.id != "" && a.id != b.id && w.ledger.entries == []
    requires Sound(c, s) && s.nonce == w.ledger.last + 2
    requires s.node == Chain(w.ledger, [Entry(EnvelopeOf(c, RequestId(a.purpose, a.id), a, w.ledger.last + 1), a.id)])
    requires w.ledger.balance - Debit(EnvelopeOf(c, RequestId(a.purpose, a.id), a, w.ledger.last + 1)) >= b.amount + c.fee
    ensures var s' := QueueStep(c, remembers, s, Order(b, CALM, Gaps([SealBlock], [], [], [])));
            var e := s.node.pending[0];
            && Sound(c, s')
            && s'.node == Chain(Applied(w.ledger, e.env, e.request),
                                [Entry(EnvelopeOf(c, RequestId(b.purpose, b.id), b, w.ledger.last + 2), b.id)])
  {
    AlsoPayable(c, w, s, b);
    hide PayQueued, Sound, SealAll, Payable, Debit;
    PaidAfterBlock(c, remembers, s, b);
    SealApplies(c, s);
  }

  lemma AlsoPayable(c: Config, w: World, s: Net, q: Request)
    requires Payable(c, w, q) && s.node.ledger == w.ledger
    ensures Payable(c, Seen(s), q)
  {
  }

  lemma QueuedFirst(c: Config, remembers: bool, w: World, q: Request)
    requires Coherent(w) && w.nonce == w.ledger.last + 1 && Payable(c, w, q) && q.id != ""
    requires RequestId(q.purpose, q.id) !in Ids(w.ledger.entries)
    ensures var s := QueueStep(c, remembers, Fresh(w), Order(q, CALM, NO_GAPS));
            && Sound(c, s) && s.nonce == w.nonce + 1
            && s.node == Chain(w.ledger, [Entry(EnvelopeOf(c, RequestId(q.purpose, q.id), q, w.nonce), q.id)])
  {
    FreshIsSound(c, w);
    AnswerAtNextNonce(c, remembers, Fresh(w), RequestId(q.purpose, q.id), q);
    PayQueuedKeeps(c, remembers, Fresh(w), q, CALM, NO_GAPS);
    hide Send, Sound, Payable;
  }

  /** The first transfer mined between the balance read and the submission, and the
      second one queued. */
  lemma PaidAfterBlock(c: Config, remembers: bool, s: Net, q: Request)
    requires Sound(c, s) && Payable(c, Seen(s), q) && q.id != "" && s.nonce == s.node.ledger.last + 2
    requires |s.node.pending| == 1 && s.node.ledger.entries == [] && s.node.pending[0].env.id != RequestId(q.purpose, q.id)
    requires s.node.ledger.balance - Debit(s.node.pending[0].env) >= q.amount + c.fee
    ensures var s' := PayQueued(c, remembers, s, q, CALM, Gaps([SealBlock], [], [], [])).0;
            && Sound(c, s')
            && s'.node == Chain(Seal(s.node).ledger, [Entry(EnvelopeOf(c, RequestId(q.purpose, q.id), q, s.nonce), q.id)])
  {
    var id := RequestId(q.purpose, q.id);
    TickOfSeal(c, remembers, s);
    var s1 := Ticks(c, remembers, s, [SealBlock]);
    NotIn(s.node.pending[0], id);
    QueuesAfter(c, remembers, s1, id, q);
    var s2 := Send(c, remembers, s1, id, q, Delivered).0;
    assert Ticks(c, remembers, s2, []) == s2;
    PayQueuedKeeps(c, remembers, s, q, CALM, Gaps([SealBlock], [], [], []));
    hide Sound, Send, Ticks, Ids, Admits, SealAll;
  }

  lemma TickOfSeal(c: Config, remembers: bool, s: Net)
    requires Sound(c, s) && |s.node.pending| == 1 && s.node.ledger.entries == []
    ensures var s' := Ticks(c, remembers, s, [SealBlock]);
            var e := s.node.pending[0];
            && Sound(c, s') && s'.nonce == s.nonce && s'.node == Seal(s.node) && s'.node.pending == []
            && s'.node.ledger.last == s.node.ledger.last + 1 && s'.node.ledger.entries == [e]
            && s'.node.ledger.balance == s.node.ledger.balance - Debit(e.env)
  {
    SealApplies(c, s);
    SealKeeps(c, s);
    hide Sound, SealAll;
    assert [SealBlock][..0] == [] && Ticks(c, remembers, s, []) == s;
    assert Ticks(c, remembers, s, [SealBlock]) == Tick(c, remembers, s, SealBlock);
  }

  /** A payable envelope at the next nonce, of an id not seen before. */
  lemma QueuesAfter(c: Config, remembers: bool, s: Net, id: TxId, q: Request)
    requires Sound(c, s) && Admits(c, q) && c.fee >= 0.0 && id != Blank
    requires s.nonce == s.node.ledger.last + 1 && s.node.pending == []
    requires s.node.ledger.balance >= q.amount + c.fee && id !in Ids(s.node.ledger.entries)
    ensures var (s', o) := Send(c, remembers, s, id, q, Delivered);
            && o == Submitted(id, false) && s'.nonce == s.nonce
            && s'.node == s.node.(pending := [Entry(EnvelopeOf(c, id, q, s.nonce), q.id)])
  {
    var e := Entry(EnvelopeOf(c, id, q, s.nonce), q.id);
    assert Ids([]) == {} && s.node.pending + [e] == [e];
    assert Admit(c, remembers, s.node, e) == (s.node.(pending := [e]), Accepted);
  }

  /** Against a validator the reserve is kept over every run if and only if it is not
      positive or nothing is ever paid. */
  lemma ReserveQueuedExactlyWhen(c: Config, remembers: bool)
    ensures AlwaysAboveReserveQueued(c, remembers) <==> c.reserve <= 0.0 || Inert(c)
  {
    if c.reserve <= 0.0 || Inert(c) {
      forall w, events | Coherent(w) && w.ledger.balance >= c.reserve
        ensures QueueRun(c, remembers, Fresh(w), events).node.ledger.balance >= c.reserve
      {
        FreshIsSound(c, w);
        QueueRunKeeps(c, remembers, Fresh(w), events);
      }
    } else {
      var w, run := BlockBetweenSpendsReserve(c, remembers);
    }
  }
}
