/** The treasury payout signer and the node it submits to.

    The signer keeps one number in memory, the next nonce of the operator wallet,
    and turns a payout request into a signed transfer. The node keeps the
    wallet's last nonce, its balance and the log of applied transfers, and
    recognises a transfer it has seen by its id. Replies can be lost on the way
    back, so the two can disagree about what happened.

    The node here is the storage path, which applies a transfer when it is
    submitted and remembers its id for good; `PayoutValidator` has the other one.

    Hashing is idealised: an id is the value that the hash is computed from. */
module PayoutLedger {

  /** `NonceId` is derived from the transfer and its nonce, `RequestId` from the
      caller's idempotency key; `Blank` is the empty string. */
  datatype TxId =
    | Blank
    | NonceId(recipient: string, amount: real, nonce: nat)
    | RequestId(purpose: string, request: string)

  datatype Envelope = Envelope(id: TxId, sender: string, recipient: string, amount: real,
                               fee: real, geotag: string, nonce: nat)

  /** An applied transfer. `request` is history: the request the signer was
      answering when it submitted the envelope. It is not on the wire. */
  datatype Entry = Entry(env: Envelope, request: string)

  /** The wallet as the node sees it: last applied nonce, balance, applied log. */
  datatype Ledger = Ledger(last: nat, balance: real, entries: seq<Entry>)

  datatype Answer = Accepted | Duplicate | NonceRejected | Insufficient | BadEnvelope

  function Ids(entries: seq<Entry>): set<TxId> {
    set e | e in entries :: e.env.id
  }

  /** The balance change of one applied transfer; a transfer to the wallet itself
      is credited back. */
  function Debit(env: Envelope): real {
    env.amount + env.fee - (if env.recipient == env.sender then env.amount else 0.0)
  }

  /** One submit-signed call: the checks in the node's own order. Only a node
      that `refusesBlank` insists on a non-empty id. */
  function Submit(refusesBlank: bool, l: Ledger, env: Envelope, request: string): (Ledger, Answer) {
    if env.amount <= 0.0 || env.fee < 0.0 || (refusesBlank && env.id == Blank) then
      (l, BadEnvelope)
    else if env.nonce >= 1 && env.nonce != l.last + 1 then
      (l, NonceRejected)
    else if env.id in Ids(l.entries) then
      (l, Duplicate)
    else if l.balance < env.amount + env.fee then
      (l, Insufficient)
    else
      (Ledger(if env.nonce >= 1 then env.nonce else l.last,
              l.balance - Debit(env),
              l.entries + [Entry(env, request)]), Accepted)
  }

  class Node {
    const refusesBlank: bool
    var ledger: Ledger

    constructor (refusesBlank: bool, ledger: Ledger)
      ensures this.refusesBlank == refusesBlank && this.ledger == ledger
    {
      this.refusesBlank := refusesBlank;
      this.ledger := ledger;
    }

    method Receive(env: Envelope, request: string) returns (a: Answer)
      modifies this
      ensures (ledger, a) == Submit(refusesBlank, old(ledger), env, request)
    {
      if env.amount <= 0.0 || env.fee < 0.0 || (refusesBlank && env.id == Blank) {
        return BadEnvelope;
      }
      if env.nonce >= 1 && env.nonce != ledger.last + 1 {
        return NonceRejected;
      }
      if env.id in Ids(ledger.entries) {
        return Duplicate;
      }
      if ledger.balance < env.amount + env.fee {
        return Insufficient;
      }
      ledger := Ledger(if env.nonce >= 1 then env.nonce else ledger.last,
                       ledger.balance - Debit(env),
                       ledger.entries + [Entry(env, request)]);
      a := Accepted;
    }
  }
}

module PayoutSigner {
  import opened PayoutLedger

  /** `KeepsId` is the documented retry, which resubmits under the same id;
      `BlanksId` is the retry as written: the failed call has already overwritten
      the id with the empty string. */
  datatype RetryForm = KeepsId | BlanksId

  datatype Config = Config(sender: string, role: string, fee: real, maxPay: real, reserve: real,
                           retry: RetryForm, refusesBlank: bool)

  /** A request after trimming and lower-casing. */
  datatype Request = Request(id: string, purpose: string, recipient: string, amount: real)

  /** What the network does to one submission. `Refused` is an answer that
      applies nothing for a reason outside the wallet (a full queue, a storage
      error). The flag says whether the error text mentions a nonce. */
  datatype Fate =
    | Delivered
    | RequestLost(nonceText: bool)
    | ReplyLost(nonceText: bool)
    | Refused(nonceText: bool)

  /** The fates of the calls one payout makes: true means the read was answered. */
  datatype Network = Network(balance: bool, first: Fate, resync: bool, second: Fate, dupResync: bool)

  datatype Reply = Denied | ReserveBlocked | BadGateway | Paid(id: TxId, nonce: nat, duplicate: bool)

  datatype Outcome = Failed(nonceText: bool) | Submitted(id: TxId, duplicate: bool)

  datatype World = World(nonce: nat, ledger: Ledger)

  predicate IsHex(c: char) {
    '0' <= c <= '9' || 'a' <= c <= 'f'
  }

  /** The checks made before the lock is taken. */
  predicate Admits(c: Config, q: Request) {
    && |q.recipient| == 64
    && (forall i :: 0 <= i < 64 ==> IsHex(q.recipient[i]))
    && q.amount > 0.0
    && (c.role != "" ==> q.purpose == c.role)
    && (c.role == "referral" || c.role == "faucet" ==> q.id != "")
    && |q.id| <= 128 && |q.purpose| <= 32
    && (c.maxPay > 0.0 ==> q.amount <= c.maxPay)
  }

  function DeriveId(q: Request, nonce: nat): TxId {
    if q.id == "" then NonceId(q.recipient, q.amount, nonce) else RequestId(q.purpose, q.id)
  }

  function RetryId(c: Config, id: TxId): TxId {
    if c.retry == KeepsId then id else Blank
  }

  function EnvelopeOf(c: Config, id: TxId, q: Request, nonce: nat): Envelope {
    Envelope(id, c.sender, q.recipient, q.amount, c.fee, q.purpose, nonce)
  }

  function Understand(id: TxId, a: Answer): Outcome {
    match a
    case Accepted => Submitted(id, false)
    case Duplicate => Submitted(id, true)
    case NonceRejected => Failed(true)
    case Insufficient => Failed(false)
    case BadEnvelope => Failed(false)
  }

  function SignAndSubmit(c: Config, l: Ledger, id: TxId, q: Request, nonce: nat, fate: Fate): (Ledger, Outcome) {
    var (l', a) := Submit(c.refusesBlank, l, EnvelopeOf(c, id, q, nonce), q.id);
    match fate
    case Delivered => (l', Understand(id, a))
    case RequestLost(t) => (l, Failed(t))
    case ReplyLost(t) => (l', Failed(t))
    case Refused(t) => (l, Failed(t))
  }

  /** The end of a payout, once the last submission's outcome is known. */
  function Conclude(nonce: nat, l: Ledger, o: Outcome, dupResync: bool): (World, Reply) {
    match o
    case Failed(_) => (World(nonce, l), BadGateway)
    case Submitted(id, dup) =>
      (World(if !dup then nonce + 1 else if dupResync then l.last + 1 else nonce, l), Paid(id, nonce, dup))
  }

  /** One payout under the signer's lock. */
  function Pay(c: Config, w: World, q: Request, net: Network): (World, Reply) {
    if !Admits(c, q) then (w, Denied)
    else if !net.balance then (w, BadGateway)
    else if w.ledger.balance - q.amount - c.fee < c.reserve then (w, ReserveBlocked)
    else
      var id := DeriveId(q, w.nonce);
      var (l1, o1) := SignAndSubmit(c, w.ledger, id, q, w.nonce, net.first);
      if o1 == Failed(true) && net.resync then
        var nonce := l1.last + 1;
        var (l2, o2) := SignAndSubmit(c, l1, RetryId(c, id), q, nonce, net.second);
        Conclude(nonce, l2, o2, net.dupResync)
      else
        Conclude(w.nonce, l1, o1, net.dupResync)
  }

  class Signer {
    const cfg: Config
    const node: Node
    var nonce: nat

    ghost predicate Valid() {
      node.refusesBlank == cfg.refusesBlank
    }

    ghost function View(): World
      reads this, node
    {
      World(nonce, node.ledger)
    }

    /** A signer serves only after its first nonce read. */
    constructor (cfg: Config, node: Node)
      requires node.refusesBlank == cfg.refusesBlank
      ensures Valid() && this.cfg == cfg && this.node == node
      ensures View() == World(node.ledger.last + 1, node.ledger)
    {
      this.cfg := cfg;
      this.node := node;
      this.nonce := node.ledger.last + 1;
    }

    method Attempt(id: TxId, q: Request, fate: Fate) returns (o: Outcome)
      requires Valid()
      modifies node
      ensures (node.ledger, o) == SignAndSubmit(cfg, old(node.ledger), id, q, nonce, fate)
    {
      match fate
      case RequestLost(t) => o := Failed(t);
      case Refused(t) => o := Failed(t);
      case ReplyLost(t) =>
        var _ := node.Receive(EnvelopeOf(cfg, id, q, nonce), q.id);
        o := Failed(t);
      case Delivered =>
        var a := node.Receive(EnvelopeOf(cfg, id, q, nonce), q.id);
        o := Understand(id, a);
    }

    method HandlePay(q: Request, net: Network) returns (reply: Reply)
      requires Valid()
      modifies this, node
      ensures Valid() && (View(), reply) == Pay(cfg, old(View()), q, net)
    {
      if !Admits(cfg, q) {
        return Denied;
      }
      if !net.balance {
        return BadGateway;
      }
      if node.ledger.balance - q.amount - cfg.fee < cfg.reserve {
        return ReserveBlocked;
      }
      var id := DeriveId(q, nonce);
      var o := Attempt(id, q, net.first);
      if o == Failed(true) && net.resync {
        nonce := node.ledger.last + 1;
        o := Attempt(RetryId(cfg, id), q, net.second);
      }
      match o
      case Failed(_) => reply := BadGateway;
      case Submitted(used, duplicate) =>
        reply := Paid(used, nonce, duplicate);
        if !duplicate {
          nonce := nonce + 1;
        } else if net.dupResync {
          nonce := node.ledger.last + 1;
        }
    }

    method HandleResync(answered: bool) returns (ok: bool)
      modifies this
      ensures ok == answered && node.ledger == old(node.ledger)
      ensures View() == Step(cfg, old(View()), Resync(answered))
    {
      if answered {
        nonce := node.ledger.last + 1;
      }
      ok := answered;
    }
  }

  /** What can happen between two payouts: another payout (a new one or a
      client's retry), an explicit resync, or money coming in. */
  datatype Event =
    | Payout(q: Request, net: Network)
    | Resync(answered: bool)
    | Deposit(amount: real)

  function Step(c: Config, w: World, e: Event): World {
    match e
    case Payout(q, net) => Pay(c, w, q, net).0
    case Resync(answered) => if answered then w.(nonce := w.ledger.last + 1) else w
    case Deposit(a) =>
      if a >= 0.0 then w.(ledger := w.ledger.(balance := w.ledger.balance + a)) else w
  }

  function Run(c: Config, w: World, events: seq<Event>): World
    decreases |events|
  {
    if events == [] then w
    else Step(c, Run(c, w, events[..|events| - 1]), events[|events| - 1])
  }
}
