/** The wallet extension's request path: a page asks, a content script relays, a
    background worker calls the native host, and the answer travels back.

    `WalletPage` is the page's provider, `WalletNative` the background's call to
    the host, and `WalletProtocol` runs both with messages that can be reordered
    or lost, racing timeouts, disconnects and replies. */
module WalletPage {
  import opened Options

  /** A JavaScript value as it crosses a message port. */
  datatype Js = Undefined | Null | Boolean(b: bool) | Number(n: int) | Text(s: string) | Record(fields: map<string, Js>)

  predicate Truthy(v: Js) {
    match v
    case Undefined => false
    case Null => false
    case Boolean(b) => b
    case Number(n) => n != 0
    case Text(s) => s != ""
    case Record(_) => true
  }

  lemma FalsyValues(v: Js)
    ensures !Truthy(v) <==> v in {Undefined, Null, Boolean(false), Number(0), Text("")}
  {
  }

  function Get(v: Js, key: string): Js {
    if v.Record? && key in v.fields then v.fields[key] else Undefined
  }

  const RESPONSE_SOURCE := "QSD-hive-provider-response"

  datatype Outcome = Resolved(value: Js) | Rejected

  datatype Settlement = Settlement(id: string, outcome: Outcome)

  /** The provider: pending requests with their methods, the timers still armed,
      and the history of every call to a promise's resolve or reject. */
  datatype Page = Page(pending: map<string, string>, timers: set<string>, settled: seq<Settlement>)

  function Open(p: Page, id: string, name: string): Page {
    p.(pending := p.pending[id := name], timers := p.timers + {id})
  }

  function Close(p: Page, id: string, outcome: Outcome): Page {
    Page(p.pending - {id}, p.timers - {id}, p.settled + [Settlement(id, outcome)])
  }

  /** The methods whose success is announced to the page's listeners. */
  predicate Announced(name: string) {
    name == "QSD_requestAccounts" || name == "QSD_disconnect"
  }

  /** The message answers a request that is pending. */
  predicate Answers(p: Page, data: Js) {
    && Get(data, "source") == Text(RESPONSE_SOURCE) && Get(data, "id").Text?
    && Get(data, "id").s in p.pending
  }

  /** Handling the message runs the page's listeners, before the promise is settled. */
  predicate Emits(p: Page, data: Js) {
    Answers(p, data) && Truthy(Get(data, "ok")) && Announced(p.pending[Get(data, "id").s])
  }

  /** The request is forgotten and its timer cleared; its promise is left alone. */
  function Forget(p: Page, id: string): Page {
    p.(pending := p.pending - {id}, timers := p.timers - {id})
  }

  /** A message posted to the page's own window; `throws` says whether a listener,
      if any is run, throws. */
  function Receive(p: Page, data: Js, throws: bool): Page {
    if !Answers(p, data) then p
    else if Emits(p, data) && throws then Forget(p, Get(data, "id").s)
    else Close(p, Get(data, "id").s, if Truthy(Get(data, "ok")) then Resolved(Get(data, "result")) else Rejected)
  }

  /** A timer that is still armed fires. */
  function Expire(p: Page, id: string): Page {
    if id in p.timers then Close(p, id, Rejected) else p
  }

  class Provider {
    var pending: map<string, string>
    var timers: set<string>
    ghost var settled: seq<Settlement>

    ghost function View(): Page
      reads this
    {
      Page(pending, timers, settled)
    }

    constructor ()
      ensures View() == Page(map[], {}, [])
    {
      pending, timers, settled := map[], {}, [];
    }

    /** `id` is the fresh identifier drawn for this request. */
    method Request(id: string, name: string) returns (posted: bool)
      modifies this
      ensures posted <==> "QSD_" <= name
      ensures View() == if posted then Open(old(View()), id, name) else old(View())
    {
      if !("QSD_" <= name) {
        return false;
      }
      timers := timers + {id};
      pending := pending[id := name];
      posted := true;
    }

    /** Deletes, clears the timer, announces, and only then settles. */
    method OnMessage(data: Js, throws: bool) returns (outcome: Option<Outcome>)
      modifies this
      ensures View() == Receive(old(View()), data, throws)
      ensures outcome.Some? <==> |settled| > |old(settled)|
    {
      var id := Get(data, "id");
      if Get(data, "source") != Text(RESPONSE_SOURCE) || !id.Text? {
        return None;
      }
      if id.s !in pending {
        return None;
      }
      var name := pending[id.s];
      pending := pending - {id.s};
      timers := timers - {id.s};
      var o := Rejected;
      if Truthy(Get(data, "ok")) {
        if Announced(name) && throws {
          return None;
        }
        o := Resolved(Get(data, "result"));
      }
      settled := settled + [Settlement(id.s, o)];
      outcome := Some(o);
    }

    method OnTimeout(id: string)
      requires id in timers
      modifies this
      ensures View() == Expire(old(View()), id)
    {
      timers := timers - {id};
      pending := pending - {id};
      settled := settled + [Settlement(id, Rejected)];
    }
  }
}

module WalletNative {
  import opened Options
  import opened WalletPage

  function Failure(error: string): Js {
    Record(map["ok" := Boolean(false), "error" := Text(error)])
  }

  /** One call to the native host: whether it has settled, and with what. */
  datatype Call = Call(settled: bool, answer: Option<Js>)

  datatype Event = PortReply(reply: Js) | PortClosed(error: string) | Threw(error: string) | TimedOut

  function Finish(c: Call, response: Js): Call {
    if c.settled then c
    else Call(true, Some(if Truthy(response) then response else Failure("QSD Hive did not answer")))
  }

  function Handle(c: Call, e: Event): Call {
    match e
    case PortReply(reply) => Finish(c, reply)
    case PortClosed(error) => Finish(c, Failure(error))
    case Threw(error) => Finish(c, Failure(error))
    case TimedOut => Finish(c, Failure("QSD Hive wallet request timed out"))
  }

  class NativeCall {
    var settled: bool
    var timerArmed: bool
    var answer: Option<Js>

    ghost predicate Valid()
      reads this
    {
      (timerArmed <==> !settled) && (answer.Some? <==> settled)
    }

    constructor ()
      ensures Valid() && Call(settled, answer) == Call(false, None)
    {
      settled, timerArmed, answer := false, true, None;
    }

    method FinishWith(response: Js)
      requires Valid()
      modifies this
      ensures Valid() && Call(settled, answer) == Finish(old(Call(settled, answer)), response)
    {
      if settled {
        return;
      }
      settled := true;
      timerArmed := false;
      answer := Some(if Truthy(response) then response else Failure("QSD Hive did not answer"));
    }

    method OnEvent(e: Event)
      requires Valid()
      modifies this
      ensures Valid() && Call(settled, answer) == Handle(old(Call(settled, answer)), e)
    {
      match e
      case PortReply(reply) => FinishWith(reply);
      case PortClosed(error) => FinishWith(Failure(error));
      case Threw(error) => FinishWith(Failure(error));
      case TimedOut =>
        if settled {
          return;
        }
        settled := true;
        timerArmed := false;
        answer := Some(Failure("QSD Hive wallet request timed out"));
    }
  }
}

module WalletProtocol {
  import opened Options
  import opened WalletPage
  import opened WalletNative

  const METHODS := {"QSD_requestAccounts", "QSD_accounts", "QSD_getBalance", "QSD_signMessage",
                    "QSD_sendTransaction", "QSD_disconnect"}

  /** How far a request has travelled. `reply` is history: the port message that
      settled the call, if a port message did. */
  datatype Stage =
    | ToContent(name: string)
    | ToBackground(name: string)
    | Calling(call: Call, reply: Option<Js>)
    | Ended

  /** A response on its way from the background to the content script. */
  datatype TabMessage = TabMessage(id: string, response: Js)

  datatype State = State(page: Page, asked: set<string>, stage: map<string, Stage>,
                         toTab: multiset<TabMessage>, toPage: multiset<Js>)

  datatype Step =
    | Ask(id: string, name: string)
    | Relay(id: string)
    | RelayFailed(id: string, error: string)
    | Accept(id: string)
    | Refuse(id: string, error: string)
    | Native(id: string, event: Event)
    | PostToPage(m: TabMessage)
    | PageGets(data: Js, throws: bool)
    | PageTimer(id: string)
    | LoseRequest(id: string)
    | LoseTab(m: TabMessage)
    | LosePage(data: Js)

  /** The content script's message to the page: its own source and id fields are
      written over whatever the response carries. */
  function PageMessage(id: string, response: Js): Js {
    var fields := if response.Record? then response.fields else map[];
    Record(fields["source" := Text(RESPONSE_SOURCE)]["id" := Text(id)])
  }

  /** One step of any party, or of the network losing a message. Request ids are
      fresh and nobody else posts responses. */
  function Next(s: State, step: Step): State {
    match step
    case Ask(id, name) =>
      if id in s.asked || !("QSD_" <= name) then s
      else s.(page := Open(s.page, id, name), asked := s.asked + {id}, stage := s.stage[id := ToContent(name)])
    case Relay(id) =>
      if id !in s.stage || !s.stage[id].ToContent? then s
      else if s.stage[id].name in METHODS then s.(stage := s.stage[id := ToBackground(s.stage[id].name)])
      else s.(stage := s.stage[id := Ended],
              toPage := s.toPage + multiset{PageMessage(id, Failure("Unsupported QSD wallet method"))})
    case RelayFailed(id, error) =>
      if id !in s.stage || s.stage[id].ToContent? then s
      else s.(toPage := s.toPage + multiset{PageMessage(id, Failure(error))})
    case Accept(id) =>
      if id !in s.stage || !s.stage[id].ToBackground? then s
      else s.(stage := s.stage[id := Calling(Call(false, None), None)])
    case Refuse(id, error) =>
      if id !in s.stage || !s.stage[id].ToBackground? then s
      else s.(stage := s.stage[id := Ended], toTab := s.toTab + multiset{TabMessage(id, Failure(error))})
    case Native(id, event) =>
      if id !in s.stage || !s.stage[id].Calling? || s.stage[id].call.settled then s
      else
        var call := Handle(s.stage[id].call, event);
        s.(stage := s.stage[id := Calling(call, if event.PortReply? then Some(event.reply) else None)],
           toTab := s.toTab + multiset{TabMessage(id, call.answer.value)})
    case PostToPage(m) =>
      if m !in s.toTab then s
      else if !m.response.Record? then s.(toTab := s.toTab - multiset{m})
      else s.(toTab := s.toTab - multiset{m}, toPage := s.toPage + multiset{PageMessage(m.id, m.response)})
    case PageGets(data, throws) =>
      if data !in s.toPage then s
      else s.(page := Receive(s.page, data, throws), toPage := s.toPage - multiset{data})
    case PageTimer(id) => s.(page := Expire(s.page, id))
    case LoseRequest(id) =>
      if id !in s.stage || s.stage[id].Calling? then s else s.(stage := s.stage[id := Ended])
    case LoseTab(m) => s.(toTab := s.toTab - multiset{m})
    case LosePage(data) => s.(toPage := s.toPage - multiset{data})
  }

  const START := State(Page(map[], {}, []), {}, map[], multiset{}, multiset{})

  function After(steps: seq<Step>): State
    decreases |steps|
  {
    if steps == [] then START else Next(After(steps[..|steps| - 1]), steps[|steps| - 1])
  }

  // ---------------------------------------------------------------------
  // Settling
  // ---------------------------------------------------------------------

  ghost predicate IsSettled(p: Page, id: string) {
    exists k :: 0 <= k < |p.settled| && p.settled[k].id == id
  }

  /** This step delivers a good reply to an announced request, and a listener throws. */
  predicate Strands(s: State, step: Step, id: string) {
    && step.PageGets? && step.throws && step.data in s.toPage
    && Emits(s.page, step.data) && Get(step.data, "id") == Text(id)
  }

  /** Some step of the run did that to request `id`. */
  ghost predicate Stranded(steps: seq<Step>, id: string) {
    exists i :: 0 <= i < |steps| && Strands(After(steps[..i]), steps[i], id)
  }

  lemma StrandedStep(steps: seq<Step>, id: string)
    requires steps != []
    ensures var n := |steps| - 1;
            Stranded(steps, id) <==> Stranded(steps[..n], id) || Strands(After(steps[..n]), steps[n], id)
  {
    hide Strands, After;
    var n := |steps| - 1;
    assert forall i :: 0 <= i < n ==> steps[..n][..i] == steps[..i] && steps[..n][i] == steps[i];
    if Stranded(steps[..n], id) {
      var i :| 0 <= i < n && Strands(After(steps[..n][..i]), steps[..n][i], id);
      assert Strands(After(steps[..i]), steps[i], id);
    }
    if Stranded(steps, id) {
      var i :| 0 <= i < |steps| && Strands(After(steps[..i]), steps[i], id);
      if i < n {
        assert Strands(After(steps[..n][..i]), steps[..n][i], id);
      }
    }
  }

  /** A request is pending, with its timer armed, or settled once, or lost to a
      throwing listener, and never two of these. */
  ghost predicate Orderly(p: Page, asked: set<string>, lost: set<string>) {
    && p.timers == p.pending.Keys
    && (forall id :: id in asked <==> id in p.pending || IsSettled(p, id) || id in lost)
    && (forall id :: id in p.pending ==> !IsSettled(p, id) && id !in lost)
    && (forall id :: id in lost ==> !IsSettled(p, id))
    && (forall j, k :: 0 <= j < k < |p.settled| ==> p.settled[j].id != p.settled[k].id)
  }

  lemma OpenKeepsOrderly(p: Page, asked: set<string>, lost: set<string>, id: string, name: string)
    requires Orderly(p, asked, lost) && id !in asked
    ensures Orderly(Open(p, id, name), asked + {id}, lost)
  {
    var p' := Open(p, id, name);
    forall i ensures IsSettled(p', i) <==> IsSettled(p, i) {
    }
  }

  lemma CloseKeepsOrderly(p: Page, asked: set<string>, lost: set<string>, id: string, outcome: Outcome)
    requires Orderly(p, asked, lost) && id in p.pending
    ensures Orderly(Close(p, id, outcome), asked, lost)
  {
    var p' := Close(p, id, outcome);
    var n := |p.settled|;
    assert p'.settled[n] == Settlement(id, outcome);
    forall i ensures IsSettled(p', i) <==> IsSettled(p, i) || i == id {
      if IsSettled(p, i) {
        var k :| 0 <= k < |p.settled| && p.settled[k].id == i;
        assert p'.settled[k].id == i;
      }
    }
    assert !IsSettled(p, id);
  }

  lemma ForgetKeepsOrderly(p: Page, asked: set<string>, lost: set<string>, id: string)
    requires Orderly(p, asked, lost) && id in p.pending
    ensures Orderly(Forget(p, id), asked, lost + {id})
  {
    forall i ensures IsSettled(Forget(p, id), i) <==> IsSettled(p, i) {
    }
  }

  /** The requests one step loses: at most one. */
  function LostBy(s: State, step: Step): (lost: set<string>)
    ensures forall id :: id in lost <==> Strands(s, step, id)
  {
    if step.PageGets? && step.throws && step.data in s.toPage && Emits(s.page, step.data)
    then {Get(step.data, "id").s} else {}
  }

  lemma NextKeepsOrderly(s: State, step: Step, lost: set<string>)
    requires Orderly(s.page, s.asked, lost)
    ensures Orderly(Next(s, step).page, Next(s, step).asked, lost + LostBy(s, step))
  {
    hide Orderly;
    assert !step.PageGets? ==> lost + LostBy(s, step) == lost;
    match step
    case Ask(id, name) =>
      if id !in s.asked {
        OpenKeepsOrderly(s.page, s.asked, lost, id, name);
      }
    case PageGets(data, throws) =>
      if data in s.toPage && Answers(s.page, data) {
        var id := Get(data, "id").s;
        if Emits(s.page, data) && throws {
          ForgetKeepsOrderly(s.page, s.asked, lost, id);
        } else {
          assert lost + LostBy(s, step) == lost;
          CloseKeepsOrderly(s.page, s.asked, lost, id,
                            if Truthy(Get(data, "ok")) then Resolved(Get(data, "result")) else Rejected);
        }
      } else {
        assert lost + LostBy(s, step) == lost;
      }
    case PageTimer(id) =>
      if id in s.page.timers {
        TimerIsPending(s.page, s.asked, lost, id);
        CloseKeepsOrderly(s.page, s.asked, lost, id, Rejected);
      }
    case _ =>
  }

  lemma TimerIsPending(p: Page, asked: set<string>, lost: set<string>, id: string)
    requires Orderly(p, asked, lost) && id in p.timers
    ensures id in p.pending
  {
  }

  lemma {:induction false} AlwaysOrderly(steps: seq<Step>) returns (lost: set<string>)
    ensures Orderly(After(steps).page, After(steps).asked, lost)
    ensures forall id :: id in lost <==> Stranded(steps, id)
    decreases |steps|
  {
    hide Next, Orderly, Strands;
    lost := {};
    if steps == [] {
      StartIsOrderly();
    } else {
      var n := |steps| - 1;
      lost := AlwaysOrderly(steps[..n]);
      NextKeepsOrderly(After(steps[..n]), steps[n], lost);
      lost := lost + LostBy(After(steps[..n]), steps[n]);
      forall id ensures id in lost <==> Stranded(steps, id) {
        StrandedStep(steps, id);
      }
    }
  }

  lemma StartIsOrderly()
    ensures Orderly(START.page, START.asked, {})
  {
  }

  /** Whatever the order of replies, disconnects, errors, losses, timeouts and
      throwing listeners, every request settles at most once. One whose timer has
      fired or been cleared has settled exactly once if and only if no good reply
      to it met a throwing listener. */
  lemma SettlesOnce(steps: seq<Step>)
    ensures var s := After(steps);
            && (forall j, k :: 0 <= j < k < |s.page.settled| ==> s.page.settled[j].id != s.page.settled[k].id)
            && (forall k :: 0 <= k < |s.page.settled| ==> s.page.settled[k].id in s.asked)
            && (forall id :: id in s.asked && id !in s.page.timers ==> (IsSettled(s.page, id) <==> !Stranded(steps, id)))
  {
    hide After, Stranded;
    var lost := AlwaysOrderly(steps);
    var p := After(steps).page;
    forall k | 0 <= k < |p.settled| ensures p.settled[k].id in After(steps).asked {
      assert IsSettled(p, p.settled[k].id);
    }
  }

  /** So when no timer is left, every request has settled if and only if none was
      stranded. */
  lemma AllSettleExactlyWhen(steps: seq<Step>)
    requires After(steps).page.timers == {}
    ensures (forall id :: id in After(steps).asked ==> IsSettled(After(steps).page, id))
            <==> (forall id :: !Stranded(steps, id))
  {
    hide After, Stranded;
    SettlesOnce(steps);
    var lost := AlwaysOrderly(steps);
  }

  const GOOD_REPLY := Record(map["ok" := Boolean(true)])

  /** A page whose listener throws when its accounts arrive. */
  function ThrowingRun(): seq<Step> {
    [Ask("1", "QSD_requestAccounts"), Relay("1"), Accept("1"), Native("1", PortReply(GOOD_REPLY)),
     PostToPage(TabMessage("1", GOOD_REPLY)), PageGets(PageMessage("1", GOOD_REPLY), true)]
  }

  /** Request "1" is pending and has come to `stage`. */
  function At(stage: Stage, toTab: multiset<TabMessage>, toPage: multiset<Js>): State {
    State(Page(map["1" := "QSD_requestAccounts"], {"1"}, []), {"1"}, map["1" := stage], toTab, toPage)
  }

  function Called(): Stage {
    Calling(Call(true, Some(GOOD_REPLY)), Some(GOOD_REPLY))
  }

  lemma ThrowingRunBegins()
    ensures Next(START, ThrowingRun()[0]) == At(ToContent("QSD_requestAccounts"), multiset{}, multiset{})
    ensures Next(At(ToContent("QSD_requestAccounts"), multiset{}, multiset{}), ThrowingRun()[1])
            == At(ToBackground("QSD_requestAccounts"), multiset{}, multiset{})
  {
  }

  lemma ThrowingRunCalls()
    ensures Next(At(ToBackground("QSD_requestAccounts"), multiset{}, multiset{}), ThrowingRun()[2])
            == At(Calling(Call(false, None), None), multiset{}, multiset{})
    ensures Next(At(Calling(Call(false, None), None), multiset{}, multiset{}), ThrowingRun()[3])
            == At(Called(), multiset{TabMessage("1", GOOD_REPLY)}, multiset{})
  {
  }

  lemma ThrowingRunReturns()
    ensures Next(At(Called(), multiset{TabMessage("1", GOOD_REPLY)}, multiset{}), ThrowingRun()[4])
            == At(Called(), multiset{}, multiset{PageMessage("1", GOOD_REPLY)})
  {
    hide PageMessage;
  }

  lemma ThrowingRunEnds()
    ensures var s := Next(At(Called(), multiset{}, multiset{PageMessage("1", GOOD_REPLY)}), ThrowingRun()[5]);
            s.asked == {"1"} && s.page == Page(map[], {}, [])
  {
    PageMessageFields("1", GOOD_REPLY);
    hide PageMessage;
    assert Truthy(Get(GOOD_REPLY, "ok"));
  }

  lemma AfterOfSix(a: Step, b: Step, c: Step, d: Step, e: Step, f: Step)
    ensures After([a, b, c, d, e, f]) == Next(Next(Next(Next(Next(Next(START, a), b), c), d), e), f)
  {
    hide Next;
    var run := [a, b, c, d, e, f];
    assert forall i {:trigger run[..i]} :: 0 < i <= 6 ==> run[..i][..i - 1] == run[..i - 1];
    assert run[..6] == run && After(run[..0]) == START;
    assert After(run[..1]) == Next(START, a);
    assert After(run[..2]) == Next(After(run[..1]), b);
    assert After(run[..3]) == Next(After(run[..2]), c);
    assert After(run[..4]) == Next(After(run[..3]), d);
    assert After(run[..5]) == Next(After(run[..4]), e);
  }

  /** Its request is no longer pending, its timer is gone, and it never settles. */
  lemma ThrowingListenerStrands()
    ensures var s := After(ThrowingRun());
            "1" in s.asked && s.page.timers == {} && s.page.pending == map[] && !IsSettled(s.page, "1")
  {
    var run := ThrowingRun();
    AfterOfSix(run[0], run[1], run[2], run[3], run[4], run[5]);
    ThrowingRunBegins();
    ThrowingRunCalls();
    ThrowingRunReturns();
    ThrowingRunEnds();
    hide Next, At, Called;
    assert run == [run[0], run[1], run[2], run[3], run[4], run[5]];
  }

  // ---------------------------------------------------------------------
  // Correlation
  // ---------------------------------------------------------------------

  /** The port opened for request `id` replied with an object whose `ok` is
      truthy and whose `result` is `value`, and that reply settled the call. */
  predicate Genuine(s: State, id: string, value: Js) {
    && id in s.stage && s.stage[id].Calling? && s.stage[id].call.settled && s.stage[id].reply.Some?
    && Truthy(Get(s.stage[id].reply.value, "ok"))
    && Get(s.stage[id].reply.value, "result") == value
  }

  predicate TabGenuine(s: State, m: TabMessage) {
    Truthy(Get(m.response, "ok")) ==> Genuine(s, m.id, Get(m.response, "result"))
  }

  predicate PageGenuine(s: State, data: Js) {
    Truthy(Get(data, "ok")) ==> Get(data, "id").Text? && Genuine(s, Get(data, "id").s, Get(data, "result"))
  }

  predicate SettlementGenuine(s: State, t: Settlement) {
    t.outcome.Resolved? ==> Genuine(s, t.id, t.outcome.value)
  }

  ghost predicate Correlated(s: State) {
    && s.stage.Keys == s.asked
    && (forall m :: m in s.toTab ==> TabGenuine(s, m))
    && (forall d :: d in s.toPage ==> PageGenuine(s, d))
    && (forall k :: 0 <= k < |s.page.settled| ==> SettlementGenuine(s, s.page.settled[k]))
  }

  lemma GenuineStays(s: State, step: Step, id: string, value: Js)
    requires Genuine(s, id, value) && s.stage.Keys == s.asked
    ensures Genuine(Next(s, step), id, value)
  {
  }

  lemma FailureIsNotOk(error: string)
    ensures !Truthy(Get(Failure(error), "ok"))
  {
  }

  /** The content script's fields win: whatever `id` and `source` a response
      carries, the page sees the request's own id and the response's result. */
  lemma PageMessageFields(id: string, response: Js)
    ensures var m := PageMessage(id, response);
            && Get(m, "id") == Text(id) && Get(m, "source") == Text(RESPONSE_SOURCE)
            && Get(m, "ok") == Get(response, "ok") && Get(m, "result") == Get(response, "result")
  {
  }

  /** The answer posted when an event settles a call is truthy only if it is the
      port's own reply. */
  lemma NativeAnswerGenuine(s: State, id: string, event: Event)
    requires id in s.stage && s.stage[id].Calling? && !s.stage[id].call.settled
    ensures TabGenuine(Next(s, Native(id, event)), TabMessage(id, Handle(s.stage[id].call, event).answer.value))
  {
  }

  lemma NewTabGenuine(s: State, step: Step, m: TabMessage)
    requires Correlated(s) && m in Next(s, step).toTab
    ensures TabGenuine(Next(s, step), m)
  {
    if m in s.toTab {
      if Truthy(Get(m.response, "ok")) {
        GenuineStays(s, step, m.id, Get(m.response, "result"));
      }
    } else if step.Refuse? {
      FailureIsNotOk(step.error);
    } else {
      NativeAnswerGenuine(s, step.id, step.event);
    }
  }

  lemma NewPageGenuine(s: State, step: Step, d: Js)
    requires Correlated(s) && d in Next(s, step).toPage
    ensures PageGenuine(Next(s, step), d)
  {
    if d in s.toPage {
      if Truthy(Get(d, "ok")) {
        GenuineStays(s, step, Get(d, "id").s, Get(d, "result"));
      }
    } else if step.PostToPage? {
      PageMessageFields(step.m.id, step.m.response);
      if Truthy(Get(d, "ok")) {
        GenuineStays(s, step, step.m.id, Get(step.m.response, "result"));
      }
    } else if step.Relay? {
      PageMessageFields(step.id, Failure("Unsupported QSD wallet method"));
    } else {
      PageMessageFields(step.id, Failure(step.error));
    }
  }

  lemma NewSettlementGenuine(s: State, step: Step, k: nat)
    requires Correlated(s) && k < |Next(s, step).page.settled|
    ensures SettlementGenuine(Next(s, step), Next(s, step).page.settled[k])
  {
    if k < |s.page.settled| {
      var t := s.page.settled[k];
      assert Next(s, step).page.settled[k] == t;
      if t.outcome.Resolved? {
        GenuineStays(s, step, t.id, t.outcome.value);
      }
    } else if step.PageGets? {
      if Truthy(Get(step.data, "ok")) {
        GenuineStays(s, step, Get(step.data, "id").s, Get(step.data, "result"));
      }
    }
  }

  lemma StagesAreAsked(s: State, step: Step)
    requires s.stage.Keys == s.asked
    ensures Next(s, step).stage.Keys == Next(s, step).asked
  {
  }

  lemma NextKeepsCorrelated(s: State, step: Step)
    requires Correlated(s)
    ensures Correlated(Next(s, step))
  {
    hide Next, TabGenuine, PageGenuine, SettlementGenuine;
    var s' := Next(s, step);
    StagesAreAsked(s, step);
    forall m | m in s'.toTab ensures TabGenuine(s', m) {
      NewTabGenuine(s, step, m);
    }
    forall d | d in s'.toPage ensures PageGenuine(s', d) {
      NewPageGenuine(s, step, d);
    }
    forall k | 0 <= k < |s'.page.settled| ensures SettlementGenuine(s', s'.page.settled[k]) {
      NewSettlementGenuine(s, step, k);
    }
  }

  lemma {:induction false} AlwaysCorrelated(steps: seq<Step>)
    ensures Correlated(After(steps))
    decreases |steps|
  {
    hide Next;
    if steps != [] {
      AlwaysCorrelated(steps[..|steps| - 1]);
      NextKeepsCorrelated(After(steps[..|steps| - 1]), steps[|steps| - 1]);
    }
  }

  /** A promise resolves only with the result its own port replied, even if that
      reply named another request or another source. */
  lemma ResolvesWithOwnReply(steps: seq<Step>, k: nat)
    requires k < |After(steps).page.settled| && After(steps).page.settled[k].outcome.Resolved?
    ensures var t := After(steps).page.settled[k]; Genuine(After(steps), t.id, t.outcome.value)
  {
    hide After;
    AlwaysCorrelated(steps);
    assert SettlementGenuine(After(steps), After(steps).page.settled[k]);
  }

  // ---------------------------------------------------------------------
  // Good replies resolve
  // ---------------------------------------------------------------------

  lemma AfterOneMore(steps: seq<Step>, step: Step)
    ensures After(steps + [step]) == Next(After(steps), step)
  {
    assert (steps + [step])[..|steps|] == steps;
  }

  /** A message that names a pending request settles exactly that request: resolved
      with the message's result if its `ok` is truthy and no listener throws, and
      rejected if its `ok` is falsy. */
  lemma MessageSettles(steps: seq<Step>, data: Js, throws: bool, id: string)
    requires data in After(steps).toPage && id in After(steps).page.pending
    requires Get(data, "source") == Text(RESPONSE_SOURCE) && Get(data, "id") == Text(id)
    ensures var before, after := After(steps).page.settled, After(steps + [PageGets(data, throws)]).page.settled;
            && (Truthy(Get(data, "ok")) && !throws ==> after == before + [Settlement(id, Resolved(Get(data, "result")))])
            && (Truthy(Get(data, "ok")) && After(steps).page.pending[id] !in {"QSD_requestAccounts", "QSD_disconnect"}
                ==> after == before + [Settlement(id, Resolved(Get(data, "result")))])
            && (!Truthy(Get(data, "ok")) ==> after == before + [Settlement(id, Rejected)])
  {
    hide After;
    AfterOneMore(steps, PageGets(data, throws));
  }

  lemma {:induction false} SettledOnlyGrows(steps: seq<Step>, more: seq<Step>)
    ensures After(steps).page.settled <= After(steps + more).page.settled
    decreases |more|
  {
    if more == [] {
      assert steps + more == steps;
    } else {
      var n := |more| - 1;
      SettledOnlyGrows(steps, more[..n]);
      assert steps + more == steps + more[..n] + [more[n]];
      AfterOneMore(steps + more[..n], more[n]);
      NextSettles(After(steps + more[..n]), more[n]);
    }
  }

  lemma NextSettles(s: State, step: Step)
    ensures s.page.settled <= Next(s, step).page.settled
  {
  }

  predicate PostsOrLoses(step: Step, m: TabMessage) {
    step == PostToPage(m) || step == LoseTab(m)
  }

  predicate GetsOrLoses(step: Step, data: Js) {
    (step.PageGets? && step.data == data) || step == LosePage(data)
  }

  lemma AnswerStays(s: State, m: TabMessage, step: Step)
    requires m in s.toTab && !PostsOrLoses(step, m)
    ensures m in Next(s, step).toTab
  {
    hide Handle, PageMessage, Receive;
  }

  lemma MessageStays(s: State, data: Js, step: Step)
    requires data in s.toPage && !GetsOrLoses(step, data)
    ensures data in Next(s, step).toPage
  {
    hide Handle, PageMessage, Receive;
  }

  /** While nobody posts or loses it, an answer waits for the content script. */
  lemma {:induction false} AnswerWaits(steps: seq<Step>, m: TabMessage, more: seq<Step>)
    requires m in After(steps).toTab && forall i :: 0 <= i < |more| ==> !PostsOrLoses(more[i], m)
    ensures m in After(steps + more).toTab
    decreases |more|
  {
    hide After, Next, PostsOrLoses;
    if more == [] {
      assert steps + more == steps;
    } else {
      var n := |more| - 1;
      AnswerWaits(steps, m, more[..n]);
      assert steps + more == steps + more[..n] + [more[n]];
      AfterOneMore(steps + more[..n], more[n]);
      AnswerStays(After(steps + more[..n]), m, more[n]);
    }
  }

  /** While the page neither gets it nor loses it, a message waits for the page. */
  lemma {:induction false} MessageWaits(steps: seq<Step>, data: Js, more: seq<Step>)
    requires data in After(steps).toPage && forall i :: 0 <= i < |more| ==> !GetsOrLoses(more[i], data)
    ensures data in After(steps + more).toPage
    decreases |more|
  {
    hide After, Next, GetsOrLoses;
    if more == [] {
      assert steps + more == steps;
    } else {
      var n := |more| - 1;
      MessageWaits(steps, data, more[..n]);
      assert steps + more == steps + more[..n] + [more[n]];
      AfterOneMore(steps + more[..n], more[n]);
      MessageStays(After(steps + more[..n]), data, more[n]);
    }
  }

  /** End to end. The port of a request answers with truthy `ok` and a result. Whatever
      else happens before the answer is posted and before it is delivered, if it is
      not lost, if the request is still pending when it arrives and no listener
      throws, the promise is settled with that result, for good. */
  lemma ReplyReachesItsPromise(before: seq<Step>, id: string, reply: Js, between: seq<Step>, until: seq<Step>, later: seq<Step>)
    requires Truthy(Get(reply, "ok"))
    requires id in After(before).stage && After(before).stage[id] == Calling(Call(false, None), None)
    requires forall i :: 0 <= i < |between| ==> !PostsOrLoses(between[i], TabMessage(id, reply))
    requires forall i :: 0 <= i < |until| ==> !GetsOrLoses(until[i], PageMessage(id, reply))
    requires var run := before + [Native(id, PortReply(reply))] + between + [PostToPage(TabMessage(id, reply))] + until;
             id in After(run).page.pending
    ensures var run := before + [Native(id, PortReply(reply))] + between + [PostToPage(TabMessage(id, reply))] + until;
            Settlement(id, Resolved(Get(reply, "result")))
              in After(run + [PageGets(PageMessage(id, reply), false)] + later).page.settled
  {
    hide After;
    var m, data := TabMessage(id, reply), PageMessage(id, reply);
    var r1 := before + [Native(id, PortReply(reply))];
    AfterOneMore(before, Native(id, PortReply(reply)));
    var r2 := r1 + between;
    AnswerWaits(r1, m, between);
    var r3 := r2 + [PostToPage(m)];
    AfterOneMore(r2, PostToPage(m));
    var run := r3 + until;
    MessageWaits(r3, data, until);
    PageMessageFields(id, reply);
    hide PageMessage, Next;
    MessageSettles(run, data, false, id);
    var done := run + [PageGets(data, false)];
    SettledOnlyGrows(done, later);
    assert Settlement(id, Resolved(Get(reply, "result"))) in After(done).page.settled;
  }

  /** The first steps of a request: each of the six wallet methods gets to the
      background, and any other name is answered with a rejection at once. */
  lemma SixMethodsPass(steps: seq<Step>, id: string, name: string)
    requires id !in After(steps).asked && "QSD_" <= name
    ensures var s := After(steps + [Ask(id, name), Relay(id)]);
            && id in s.page.pending && id in s.stage
            && (s.stage[id] == ToBackground(name) <==>
                  name in {"QSD_requestAccounts", "QSD_accounts", "QSD_getBalance", "QSD_signMessage",
                           "QSD_sendTransaction", "QSD_disconnect"})
            && (s.stage[id] != ToBackground(name) ==>
                  s.stage[id] == Ended && exists d :: d in s.toPage && Get(d, "id") == Text(id) && !Truthy(Get(d, "ok")))
  {
    hide After;
    AfterOneMore(steps, Ask(id, name));
    AfterOneMore(steps + [Ask(id, name)], Relay(id));
    assert steps + [Ask(id, name)] + [Relay(id)] == steps + [Ask(id, name), Relay(id)];
    var refusal := PageMessage(id, Failure("Unsupported QSD wallet method"));
    PageMessageFields(id, Failure("Unsupported QSD wallet method"));
    FailureIsNotOk("Unsupported QSD wallet method");
    hide PageMessage, Failure;
    var s := After(steps + [Ask(id, name), Relay(id)]);
    if s.stage[id] != ToBackground(name) {
      assert refusal in s.toPage;
    }
  }
}
