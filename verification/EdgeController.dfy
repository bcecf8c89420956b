/** The Edge Control run controller: start, stop, settings changes and pairing,
    each split into the critical sections its mutex actually protects.

    `Controller` holds the fields and has one method per critical section.
    `EdgeInterleavings` lets any number of operations and runners interleave
    between those sections. */
module EdgeController {
  import opened Options

  /** `role` and `relayUrl` are the fields the controller itself rewrites;
      `sound` is the verdict of the remaining validation checks and `body` the
      rest of the settings. */
  datatype Settings = Settings(role: string, relayUrl: string, sound: bool, body: int)

  predicate Validates(s: Settings) {
    (s.role == "agent" || s.role == "relay") && s.sound
  }

  /** The controller's fields. A cancel function, a finished channel and a relay
      handle are each named by the run they belong to; runs count from 1. */
  datatype Fields = Fields(running: bool, activeRole: string, lastError: string,
                           cancel: Option<nat>, finished: Option<nat>, relay: Option<nat>,
                           runID: nat, settings: Settings)

  /** The committing section of start, given that no run is in progress. */
  function Commit(f: Fields, s: Settings): Fields {
    var k := f.runID + 1;
    Fields(true, s.role, "", Some(k), Some(k), if s.role == "relay" then Some(k) else None, k, f.settings)
  }

  /** The section in which runner `k` retires; `error` is its result, reported
      only if the run was not cancelled. */
  function Retire(f: Fields, k: nat, error: string, cancelled: bool): Fields {
    if f.runID != k then f
    else f.(running := false, cancel := None, relay := None,
            lastError := if error != "" && !cancelled then error else f.lastError)
  }

  function Store(f: Fields, s: Settings): Fields {
    f.(settings := s, lastError := "")
  }

  class Controller {
    var running: bool
    var activeRole: string
    var lastError: string
    var cancel: Option<nat>
    var finished: Option<nat>
    var relay: Option<nat>
    var runID: nat
    var settings: Settings

    ghost function View(): Fields
      reads this
    {
      Fields(running, activeRole, lastError, cancel, finished, relay, runID, settings)
    }

    constructor (s: Settings)
      ensures View() == Fields(false, "", "", None, None, None, 0, s)
    {
      running, activeRole, lastError := false, "", "";
      cancel, finished, relay := None, None, None;
      runID, settings := 0, s;
    }

    /** First section of start, updateSettings and pairAgent. */
    method CheckIdle() returns (snapshot: Option<Settings>)
      ensures snapshot == if running then None else Some(settings)
    {
      if running {
        return None;
      }
      snapshot := Some(settings);
    }

    /** Second section of start; None when another start committed first. */
    method CommitStart(s: Settings) returns (run: Option<nat>)
      modifies this
      ensures run == if old(running) then None else Some(old(runID) + 1)
      ensures View() == if old(running) then old(View()) else Commit(old(View()), s)
    {
      if running {
        return None;
      }
      runID := runID + 1;
      running := true;
      activeRole := s.role;
      lastError := "";
      cancel, finished := Some(runID), Some(runID);
      relay := if s.role == "relay" then Some(runID) else None;
      run := Some(runID);
    }

    method RetireRun(k: nat, error: string, cancelled: bool)
      modifies this
      ensures View() == Retire(old(View()), k, error, cancelled)
    {
      if runID == k {
        running := false;
        cancel := None;
        relay := None;
        if error != "" && !cancelled {
          lastError := error;
        }
      }
    }

    /** The only section of stop: which run to cancel and which to wait for. */
    method ObserveRun() returns (target: Option<(nat, nat)>)
      requires finished.None? ==> !running
      ensures target == if running && cancel.Some? then Some((cancel.value, finished.value)) else None
    {
      if !running || cancel.None? {
        return None;
      }
      target := Some((cancel.value, finished.value));
    }

    method StoreSettings(s: Settings)
      modifies this
      ensures View() == Store(old(View()), s)
    {
      settings := s;
      lastError := "";
    }
  }

  /** The bounded activity log. */
  class EventLog {
    var entries: seq<string>

    ghost predicate Valid()
      reads this
    {
      |entries| <= 100
    }

    constructor ()
      ensures Valid() && entries == []
    {
      entries := [];
    }

    method Write(data: string)
      requires Valid()
      modifies this
      ensures Valid() && entries == LastHundred(old(entries) + Kept(data))
    {
      var message := TrimNewlines(if |data| > 2048 then data[..2048] else data);
      if message == "" {
        assert entries + Kept(data) == entries;
        return;
      }
      entries := entries + [message];
      if |entries| > 100 {
        entries := entries[|entries| - 100..];
      }
    }
  }

  function TrimNewlines(s: string): (r: string)
    ensures r <= s
    ensures r != "" ==> r[|r| - 1] != '\n' && r[|r| - 1] != '\r'
    ensures forall i :: |r| <= i < |s| ==> s[i] == '\n' || s[i] == '\r'
  {
    if s != "" && (s[|s| - 1] == '\n' || s[|s| - 1] == '\r') then TrimNewlines(s[..|s| - 1]) else s
  }

  /** The entries one write adds: none or one. */
  function Kept(data: string): seq<string> {
    var message := TrimNewlines(if |data| > 2048 then data[..2048] else data);
    if message == "" then [] else [message]
  }

  function LastHundred(s: seq<string>): (r: seq<string>)
    ensures |r| == (if |s| < 100 then |s| else 100) && r == s[|s| - |r|..]
  {
    if |s| <= 100 then s else s[|s| - 100..]
  }

  /** A write keeps its first 2048 characters without the newlines at their end, and
      nothing if that leaves nothing. */
  lemma KeptIsTrimmed(data: string)
    ensures Kept(data) == [] <==> forall i :: 0 <= i < |data| && i < 2048 ==> data[i] == '\n' || data[i] == '\r'
    ensures Kept(data) != [] ==>
              var m := Kept(data)[0];
              && |Kept(data)| == 1 && m <= data && 1 <= |m| <= 2048 && m[|m| - 1] != '\n' && m[|m| - 1] != '\r'
              && forall i :: |m| <= i < |data| && i < 2048 ==> data[i] == '\n' || data[i] == '\r'
  {
    var head := if |data| > 2048 then data[..2048] else data;
    var m := TrimNewlines(head);
    assert forall i :: 0 <= i < |head| ==> head[i] == data[i];
    if m != "" {
      assert m[|m| - 1] == data[|m| - 1];
    }
  }

  function AllKept(writes: seq<string>): seq<string> {
    if writes == [] then [] else AllKept(writes[..|writes| - 1]) + Kept(writes[|writes| - 1])
  }

  function LogAfter(writes: seq<string>): seq<string> {
    if writes == [] then []
    else LastHundred(LogAfter(writes[..|writes| - 1]) + Kept(writes[|writes| - 1]))
  }

  /** Trimming at every write loses nothing that trimming once at the end keeps. */
  lemma {:induction false} LogIsLastHundred(writes: seq<string>)
    ensures LogAfter(writes) == LastHundred(AllKept(writes))
  {
    hide Kept;
    if writes != [] {
      var n := |writes| - 1;
      LogIsLastHundred(writes[..n]);
      TrimTwice(AllKept(writes[..n]), Kept(writes[n]));
    }
  }

  lemma TrimTwice(a: seq<string>, b: seq<string>)
    ensures LastHundred(LastHundred(a) + b) == LastHundred(a + b)
  {
  }
}

module EdgeInterleavings {
  import opened Options
  import opened EdgeController

  datatype Phase = Live | Retired | Closed

  /** A committed run: its runner's phase, whether it was cancelled, and the
      settings it was prepared from. */
  datatype RunRec = RunRec(phase: Phase, cancelled: bool, config: Settings)

  /** Where an operation stands between its critical sections. */
  datatype Op =
    | Starting(snapshot: Settings)
    | Stopping(target: nat, wait: nat)
    | Waiting(target: nat, wait: nat)
    | Stopped(target: nat, wait: nat)
    | GaveUp(target: nat, wait: nat)
    | Updating(next: Settings)
    | Pairing(snapshot: Settings, url: string)

  /** Run k is `runs[k - 1]`. `past` is the history of stored settings. */
  datatype State = State(f: Fields, runs: seq<RunRec>, ops: map<nat, Op>, past: seq<Settings>)

  /** Two changes to the code that could be made: rechecking `running` in the
      section that writes settings, and reading the settings again in the section
      that commits a start. The code as written makes neither. */
  datatype Mode = Mode(rechecksWrite: bool, rereadsStart: bool)

  const AS_WRITTEN := Mode(false, false)

  datatype Step =
    | StartCheck(t: nat)
    | StartCommit(t: nat, prepared: bool, failure: string := "")
    | Exit(run: nat, error: string)
    | Close(run: nat)
    | StopObserve(t: nat)
    | StopCancel(t: nat)
    | StopReturn(t: nat)
    | StopTimeout(t: nat)
    | UpdateCheck(t: nat, next: Settings)
    | PairCheck(t: nat, url: string)
    | WriteSettings(t: nat, saved: bool)

  predicate Init(s: State) {
    && s.f.running == false && s.f.runID == 0 && s.f.cancel == None && s.f.finished == None && s.f.relay == None
    && s.runs == [] && s.ops == map[] && s.past == [s.f.settings]
  }

  predicate Committed(s: State, k: nat) {
    1 <= k <= |s.runs|
  }

  predicate IsLive(s: State, k: nat) {
    Committed(s, k) && s.runs[k - 1].phase == Live
  }

  predicate IsCancelled(s: State, k: nat) {
    Committed(s, k) && s.runs[k - 1].cancelled
  }

  function Drop(s: State, t: nat): State {
    s.(ops := s.ops - {t})
  }

  /** The settings a write puts in place: saving has validated them. */
  function Written(op: Op): Settings
    requires op.Updating? || op.Pairing?
  {
    if op.Updating? then op.next else op.snapshot.(role := "agent", relayUrl := op.url, sound := true)
  }

  /** One atomic step; a step that is not enabled changes nothing. */
  function Next(m: Mode, s: State, step: Step): State {
    match step
    case StartCheck(t) =>
      if t in s.ops || s.f.running then s else s.(ops := s.ops[t := Starting(s.f.settings)])
    case StartCommit(t, prepared, failure) =>
      if t !in s.ops || !s.ops[t].Starting? then s
      else
        var config := if m.rereadsStart then s.f.settings else s.ops[t].snapshot;
        if !Validates(config) then Drop(s, t)
        else if !prepared then Drop(s, t).(f := s.f.(lastError := failure))
        else if s.f.running then Drop(s, t)
        else Drop(s, t).(f := Commit(s.f, config), runs := s.runs + [RunRec(Live, false, config)])
    case Exit(k, error) =>
      if !Committed(s, k) || s.runs[k - 1].phase != Live then s
      else s.(f := Retire(s.f, k, error, s.runs[k - 1].cancelled),
              runs := s.runs[k - 1 := s.runs[k - 1].(phase := Retired)])
    case Close(k) =>
      if !Committed(s, k) || s.runs[k - 1].phase != Retired then s
      else s.(runs := s.runs[k - 1 := s.runs[k - 1].(phase := Closed)])
    case StopObserve(t) =>
      if t in s.ops || !s.f.running || s.f.cancel.None? || s.f.finished.None? then s
      else s.(ops := s.ops[t := Stopping(s.f.cancel.value, s.f.finished.value)])
    case StopCancel(t) =>
      if t !in s.ops || !s.ops[t].Stopping? || !Committed(s, s.ops[t].target) then s
      else
        var k := s.ops[t].target;
        s.(ops := s.ops[t := Waiting(k, s.ops[t].wait)],
           runs := s.runs[k - 1 := s.runs[k - 1].(cancelled := true)])
    case StopReturn(t) =>
      if t !in s.ops || !s.ops[t].Waiting? || !Committed(s, s.ops[t].wait)
         || s.runs[s.ops[t].wait - 1].phase != Closed then s
      else s.(ops := s.ops[t := Stopped(s.ops[t].target, s.ops[t].wait)])
    case StopTimeout(t) =>
      if t !in s.ops || !s.ops[t].Waiting? then s
      else s.(ops := s.ops[t := GaveUp(s.ops[t].target, s.ops[t].wait)])
    case UpdateCheck(t, next) =>
      if t in s.ops || s.f.running || !Validates(next) then s else s.(ops := s.ops[t := Updating(next)])
    case PairCheck(t, url) =>
      if t in s.ops || s.f.running then s else s.(ops := s.ops[t := Pairing(s.f.settings, url)])
    case WriteSettings(t, saved) =>
      if t !in s.ops || !(s.ops[t].Updating? || s.ops[t].Pairing?) then s
      else if !saved || (m.rechecksWrite && s.f.running) then Drop(s, t)
      else
        var w := Written(s.ops[t]);
        Drop(s, t).(f := Store(s.f, w), past := s.past + [w])
  }

  function Run(m: Mode, s: State, steps: seq<Step>): State
    decreases |steps|
  {
    if steps == [] then s
    else Next(m, Run(m, s, steps[..|steps| - 1]), steps[|steps| - 1])
  }

  // ---------------------------------------------------------------------
  // One live run
  // ---------------------------------------------------------------------

  /** `running` says exactly whether the newest run is unretired; every older run
      has retired, and the handles kept for stop belong to the newest run. */
  ghost predicate OneRun(s: State) {
    && s.f.runID == |s.runs|
    && (forall k :: IsLive(s, k) ==> k == |s.runs|)
    && (s.f.running <==> IsLive(s, |s.runs|))
    && (s.f.running ==> s.f.cancel == Some(s.f.runID) && s.f.finished == Some(s.f.runID))
    && (s.f.relay.Some? ==> s.f.running && s.f.relay == Some(s.f.runID) && s.f.activeRole == "relay")
    && (s.f.running && s.f.activeRole == "relay" ==> s.f.relay.Some?)
  }

  predicate IsStop(op: Op) {
    op.Stopping? || op.Waiting? || op.Stopped? || op.GaveUp?
  }

  /** A stop waits for the run it cancels; past cancel() that run is cancelled,
      and a stop that returned normally has seen that run finish. */
  predicate StopsAim(s: State) {
    forall t :: t in s.ops && IsStop(s.ops[t]) ==>
      && s.ops[t].target == s.ops[t].wait && Committed(s, s.ops[t].target)
      && (!s.ops[t].Stopping? ==> s.runs[s.ops[t].target - 1].cancelled)
      && (s.ops[t].Stopped? ==> s.runs[s.ops[t].target - 1].phase == Closed)
  }

  predicate Cancels(op: Op, k: nat) {
    IsStop(op) && !op.Stopping? && op.target == k
  }

  /** Nothing but a stop that observed it cancels a run. */
  ghost predicate OnlyStopsCancel(s: State) {
    forall k :: IsCancelled(s, k) ==> exists t :: t in s.ops && Cancels(s.ops[t], k)
  }

  lemma NextKeepsOneRun(m: Mode, s: State, step: Step)
    requires OneRun(s)
    ensures OneRun(Next(m, s, step))
  {
    var s' := Next(m, s, step);
    forall k | IsLive(s', k) ensures k == |s'.runs| {
      assert IsLive(s, k) || k == |s'.runs|;
    }
  }

  lemma NextKeepsStopsAim(m: Mode, s: State, step: Step)
    requires OneRun(s) && StopsAim(s)
    ensures StopsAim(Next(m, s, step))
  {
    hide Next, OneRun, StopsAim;
    if step.StopObserve? || step.StopCancel? || step.StopReturn? || step.StopTimeout? {
      StopKeepsStopsAim(m, s, step);
    } else {
      OthersKeepStopsAim(m, s, step);
    }
  }

  lemma StopKeepsStopsAim(m: Mode, s: State, step: Step)
    requires OneRun(s) && StopsAim(s)
    requires step.StopObserve? || step.StopCancel? || step.StopReturn? || step.StopTimeout?
    ensures StopsAim(Next(m, s, step))
  {
  }

  lemma OthersKeepStopsAim(m: Mode, s: State, step: Step)
    requires StopsAim(s)
    requires !(step.StopObserve? || step.StopCancel? || step.StopReturn? || step.StopTimeout?)
    ensures StopsAim(Next(m, s, step))
  {
  }

  lemma NextKeepsOnlyStopsCancel(m: Mode, s: State, step: Step)
    requires OneRun(s) && StopsAim(s) && OnlyStopsCancel(s)
    ensures OnlyStopsCancel(Next(m, s, step))
  {
    var s' := Next(m, s, step);
    forall k | IsCancelled(s', k)
      ensures exists t :: t in s'.ops && Cancels(s'.ops[t], k)
    {
      if IsCancelled(s, k) {
        var t :| t in s.ops && Cancels(s.ops[t], k);
        CancelsPersist(m, s, step, t, k);
      } else {
        assert step.StopCancel?;
        assert Cancels(s'.ops[step.t], k);
      }
    }
  }

  lemma CancelsPersist(m: Mode, s: State, step: Step, t: nat, k: nat)
    requires t in s.ops && Cancels(s.ops[t], k)
    ensures t in Next(m, s, step).ops && Cancels(Next(m, s, step).ops[t], k)
  {
  }

  /** Under every interleaving of starts, stops, settings changes and runner exits. */
  lemma {:induction false} EveryInterleaving(m: Mode, s: State, steps: seq<Step>)
    requires Init(s)
    ensures var s' := Run(m, s, steps); OneRun(s') && StopsAim(s') && OnlyStopsCancel(s')
    decreases |steps|
  {
    hide Next;
    if steps != [] {
      var n := |steps| - 1;
      EveryInterleaving(m, s, steps[..n]);
      var mid := Run(m, s, steps[..n]);
      NextKeepsOneRun(m, mid, steps[n]);
      NextKeepsStopsAim(m, mid, steps[n]);
      NextKeepsOnlyStopsCancel(m, mid, steps[n]);
    }
  }

  /** At most one committed run is unretired, and it is the one `running` means. */
  lemma AtMostOneLiveRun(m: Mode, s: State, steps: seq<Step>)
    requires Init(s)
    ensures var s' := Run(m, s, steps);
            && (forall j, k :: IsLive(s', j) && IsLive(s', k) ==> j == k)
            && (s'.f.running <==> exists k :: IsLive(s', k))
  {
    hide Next, Run;
    EveryInterleaving(m, s, steps);
  }

  /** The identity guard of a retiring runner never fails: retiring any live run
      clears `running`. */
  lemma RetiringRunIsCurrent(m: Mode, s: State, steps: seq<Step>, k: nat, error: string)
    requires Init(s)
    requires IsLive(Run(m, s, steps), k)
    ensures Run(m, s, steps).f.runID == k
    ensures !Next(m, Run(m, s, steps), Exit(k, error)).f.running
  {
    hide Run;
    EveryInterleaving(m, s, steps);
  }

  /** A stop that returns through `finished` has cancelled and outlived the run it
      observed, and that run is over for good. */
  lemma StopOutlivesItsRun(m: Mode, s: State, steps: seq<Step>, t: nat)
    requires Init(s)
    requires t in Run(m, s, steps).ops && Run(m, s, steps).ops[t].Stopped?
    ensures var s' := Run(m, s, steps); var k := s'.ops[t].target;
            && Committed(s', k) && s'.runs[k - 1].cancelled && s'.runs[k - 1].phase == Closed
            && (s'.f.running ==> s'.f.runID != k)
  {
    hide Next, Run;
    EveryInterleaving(m, s, steps);
  }

  // ---------------------------------------------------------------------
  // Settings while a run is live
  // ---------------------------------------------------------------------

  /** No step changes the settings while a run is live. */
  ghost predicate Frozen(m: Mode) {
    forall s, steps, step :: Init(s) && Run(m, s, steps).f.running
      ==> Next(m, Run(m, s, steps), step).f.settings == Run(m, s, steps).f.settings
  }

  /** A live run was prepared from the settings now stored. */
  ghost predicate LiveMatches(m: Mode) {
    forall s, steps :: Init(s) && Run(m, s, steps).f.running && |Run(m, s, steps).runs| > 0
      ==> Run(m, s, steps).runs[|Run(m, s, steps).runs| - 1].config == Run(m, s, steps).f.settings
  }

  const BEFORE := Settings("relay", "", true, 0)
  const AFTER := Settings("agent", "", true, 1)

  function Idle(c: Settings): State {
    State(Fields(false, "", "", None, None, None, 0, c), [], map[], [c])
  }

  /** An update that has passed its check, overtaken by a start. */
  function Overtaken(): seq<Step> {
    [UpdateCheck(0, AFTER), StartCheck(1), StartCommit(1, true)]
  }

  /** A start that has taken its snapshot, overtaken by an update. */
  function StaleStart(): seq<Step> {
    [StartCheck(1), UpdateCheck(0, AFTER), WriteSettings(0, true), StartCommit(1, true)]
  }

  lemma RunAppend(m: Mode, s: State, steps: seq<Step>, step: Step)
    ensures Run(m, s, steps + [step]) == Next(m, Run(m, s, steps), step)
  {
    assert (steps + [step])[..|steps|] == steps;
  }

  lemma OvertakenRuns(m: Mode)
    ensures Init(Idle(BEFORE))
    ensures var s := Run(m, Idle(BEFORE), Overtaken());
            s.f.running && s.f.settings == BEFORE && s.ops == map[0 := Updating(AFTER)]
            && s.runs == [RunRec(Live, false, BEFORE)]
  {
    var s0 := Idle(BEFORE);
    var a, b, c := UpdateCheck(0, AFTER), StartCheck(1), StartCommit(1, true);
    RunOfThree(m, s0, a, b, c);
    var s1 := s0.(ops := map[0 := Updating(AFTER)]);
    assert Next(m, s0, a) == s1;
    var s2 := s0.(ops := map[0 := Updating(AFTER), 1 := Starting(BEFORE)]);
    assert Next(m, s1, b) == s2;
    OvertakingCommit(m, s2);
  }

  lemma OvertakingCommit(m: Mode, s: State)
    requires !s.f.running && s.f.settings == BEFORE && s.runs == []
    requires s.ops == map[0 := Updating(AFTER), 1 := Starting(BEFORE)]
    ensures var s' := Next(m, s, StartCommit(1, true));
            s'.f == Commit(s.f, BEFORE) && s'.runs == [RunRec(Live, false, BEFORE)] && s'.ops == map[0 := Updating(AFTER)]
  {
  }

  lemma RunOfThree(m: Mode, s: State, a: Step, b: Step, c: Step)
    ensures Run(m, s, [a, b, c]) == Next(m, Next(m, Next(m, s, a), b), c)
  {
    hide Next;
    RunAppend(m, s, [], a);
    RunAppend(m, s, [a], b);
    RunAppend(m, s, [a, b], c);
    assert [] + [a] == [a] && [a] + [b] == [a, b] && [a, b] + [c] == [a, b, c];
  }

  lemma StaleStartRuns(m: Mode)
    requires !m.rereadsStart
    ensures var s := Run(m, Idle(BEFORE), StaleStart());
            s.f.running && s.f.settings == AFTER && s.runs == [RunRec(Live, false, BEFORE)]
  {
    var s0 := Idle(BEFORE);
    var a, b, c, d := StartCheck(1), UpdateCheck(0, AFTER), WriteSettings(0, true), StartCommit(1, true);
    RunOfFour(m, s0, a, b, c, d);
    var s1 := s0.(ops := map[1 := Starting(BEFORE)]);
    assert Next(m, s0, a) == s1;
    var s2 := s0.(ops := map[1 := Starting(BEFORE), 0 := Updating(AFTER)]);
    assert Next(m, s1, b) == s2;
    StaleWrite(m, s2);
    var s3 := Next(m, s2, c);
    assert Validates(BEFORE);
  }

  /** The overtaking update is stored. */
  lemma StaleWrite(m: Mode, s: State)
    requires !s.f.running && s.ops == map[1 := Starting(BEFORE), 0 := Updating(AFTER)]
    ensures var s' := Next(m, s, WriteSettings(0, true));
            s'.f == Store(s.f, AFTER) && s'.runs == s.runs && s'.ops == map[1 := Starting(BEFORE)]
  {
  }

  lemma RunOfFour(m: Mode, s: State, a: Step, b: Step, c: Step, d: Step)
    ensures Run(m, s, [a, b, c, d]) == Next(m, Next(m, Next(m, Next(m, s, a), b), c), d)
  {
    hide Next;
    RunAppend(m, s, [], a);
    RunAppend(m, s, [a], b);
    RunAppend(m, s, [a, b], c);
    RunAppend(m, s, [a, b, c], d);
    assert [] + [a] == [a] && [a] + [b] == [a, b] && [a, b] + [c] == [a, b, c] && [a, b, c] + [d] == [a, b, c, d];
  }

  /** Settings are frozen while a run is live exactly when the writing section
      checks `running` again; the code as written does not. */
  lemma FrozenExactlyWhenRechecked(m: Mode)
    ensures Frozen(m) <==> m.rechecksWrite
  {
    if !m.rechecksWrite {
      OvertakenRuns(m);
      var s := Run(m, Idle(BEFORE), Overtaken());
      assert Next(m, s, WriteSettings(0, true)).f.settings == AFTER;
    }
  }

  /** With the recheck alone, a start can still run from a stale snapshot: the
      live run agrees with the stored settings exactly when both changes are made. */
  lemma LiveMatchesExactlyWhen(m: Mode)
    ensures LiveMatches(m) <==> m.rechecksWrite && m.rereadsStart
  {
    if !m.rereadsStart {
      StaleStartRuns(m);
      assert Init(Idle(BEFORE));
    } else if !m.rechecksWrite {
      OvertakenRuns(m);
      RunAppend(m, Idle(BEFORE), Overtaken(), WriteSettings(0, true));
      var s := Run(m, Idle(BEFORE), Overtaken() + [WriteSettings(0, true)]);
      assert s.f.running && s.f.settings == AFTER && s.runs[|s.runs| - 1].config == BEFORE;
    } else {
      forall s, steps | Init(s) && Run(m, s, steps).f.running && |Run(m, s, steps).runs| > 0
        ensures Run(m, s, steps).runs[|Run(m, s, steps).runs| - 1].config == Run(m, s, steps).f.settings
      {
        RunKeepsMatch(m, s, steps);
      }
    }
  }

  lemma {:induction false} RunKeepsMatch(m: Mode, s: State, steps: seq<Step>)
    requires Init(s) && m.rechecksWrite && m.rereadsStart
    ensures var s' := Run(m, s, steps);
            OneRun(s') && (s'.f.running ==> s'.runs[|s'.runs| - 1].config == s'.f.settings)
    decreases |steps|
  {
    hide Next;
    if steps != [] {
      var n := |steps| - 1;
      RunKeepsMatch(m, s, steps[..n]);
      NextKeepsOneRun(m, Run(m, s, steps[..n]), steps[n]);
      NextKeepsMatch(m, Run(m, s, steps[..n]), steps[n]);
    }
  }

  lemma NextKeepsMatch(m: Mode, s: State, step: Step)
    requires OneRun(s) && m.rechecksWrite && m.rereadsStart
    requires s.f.running ==> s.runs[|s.runs| - 1].config == s.f.settings
    ensures var s' := Next(m, s, step);
            |s'.runs| > 0 && s'.f.running ==> s'.runs[|s'.runs| - 1].config == s'.f.settings
  {
  }

  // ---------------------------------------------------------------------
  // The code as written: exactly when the settings stay put
  // ---------------------------------------------------------------------

  predicate IsWriter(op: Op) {
    op.Updating? || op.Pairing?
  }

  /** Operation `t` has passed its check and would store something else. */
  predicate WouldChange(s: State, t: nat) {
    t in s.ops && IsWriter(s.ops[t]) && Written(s.ops[t]) != s.f.settings
  }

  ghost predicate ChangePending(s: State) {
    exists t :: WouldChange(s, t)
  }

  /** A run that is live after more steps was live before them. */
  lemma {:induction false} LiveBefore(m: Mode, s: State, more: seq<Step>, k: nat)
    requires OneRun(s) && Committed(s, k) && IsLive(Run(m, s, more), k)
    ensures OneRun(Run(m, s, more)) && IsLive(s, k)
    decreases |more|
  {
    if more != [] {
      var n := |more| - 1;
      RunKeepsOneRun(m, s, more[..n]);
      StaysCommitted(m, s, more[..n], k);
      NextLiveBefore(m, Run(m, s, more[..n]), more[n], k);
      hide Next;
      LiveBefore(m, s, more[..n], k);
      NextKeepsOneRun(m, Run(m, s, more[..n]), more[n]);
    }
  }

  lemma NextLiveBefore(m: Mode, s: State, step: Step, k: nat)
    requires Committed(s, k) && IsLive(Next(m, s, step), k)
    ensures IsLive(s, k)
  {
  }

  lemma {:induction false} StaysCommitted(m: Mode, s: State, more: seq<Step>, k: nat)
    requires Committed(s, k)
    ensures Committed(Run(m, s, more), k)
    decreases |more|
  {
    if more != [] {
      StaysCommitted(m, s, more[..|more| - 1], k);
    }
  }

  lemma {:induction false} RunKeepsOneRun(m: Mode, s: State, more: seq<Step>)
    requires OneRun(s)
    ensures OneRun(Run(m, s, more))
    decreases |more|
  {
    hide Next;
    if more != [] {
      RunKeepsOneRun(m, s, more[..|more| - 1]);
      NextKeepsOneRun(m, Run(m, s, more[..|more| - 1]), more[|more| - 1]);
    }
  }

  /** While a run is live no operation becomes a writer, so with no change pending
      no step creates one or changes the settings. */
  lemma QuietStep(s: State, step: Step)
    requires s.f.running && !ChangePending(s)
    ensures var s' := Next(AS_WRITTEN, s, step); s'.f.settings == s.f.settings && !ChangePending(s')
  {
    var s' := Next(AS_WRITTEN, s, step);
    if step.WriteSettings? && step.t in s.ops && IsWriter(s.ops[step.t]) {
      assert !WouldChange(s, step.t);
    }
    forall t | WouldChange(s', t) ensures false {
      assert WouldChange(s, t);
    }
  }

  /** In every reachable state with a live run, some step can change the settings if
      and only if a change that passed its check is still pending with another
      value. */
  lemma ChangesExactlyWhenPending(s: State, steps: seq<Step>)
    requires Init(s) && Run(AS_WRITTEN, s, steps).f.running
    ensures var now := Run(AS_WRITTEN, s, steps);
            (exists step :: Next(AS_WRITTEN, now, step).f.settings != now.f.settings) <==> ChangePending(now)
  {
    var now := Run(AS_WRITTEN, s, steps);
    if ChangePending(now) {
      var t :| WouldChange(now, t);
      assert Next(AS_WRITTEN, now, WriteSettings(t, true)).f.settings != now.f.settings;
    } else {
      forall step ensures Next(AS_WRITTEN, now, step).f.settings == now.f.settings {
        QuietStep(now, step);
      }
    }
  }

  /** The settings stay as they are for as long as run `k` lives. */
  ghost predicate FrozenForLife(s: State, k: nat) {
    forall more :: IsLive(Run(AS_WRITTEN, s, more), k) ==> Run(AS_WRITTEN, s, more).f.settings == s.f.settings
  }

  lemma {:induction false} QuietLife(s: State, k: nat, more: seq<Step>)
    requires OneRun(s) && IsLive(s, k) && !ChangePending(s) && IsLive(Run(AS_WRITTEN, s, more), k)
    ensures var now := Run(AS_WRITTEN, s, more); now.f.settings == s.f.settings && !ChangePending(now)
    decreases |more|
  {
    hide ChangePending;
    if more != [] {
      var n := |more| - 1;
      var before := Run(AS_WRITTEN, s, more[..n]);
      StaysCommitted(AS_WRITTEN, s, more[..n], k);
      NextLiveBefore(AS_WRITTEN, before, more[n], k);
      hide Next;
      QuietLife(s, k, more[..n]);
      LiveBefore(AS_WRITTEN, s, more[..n], k);
      QuietStep(before, more[n]);
    }
  }

  /** From any reachable moment of a run's life, its commit included, the settings
      are frozen for the rest of it if and only if no differing change was in
      flight at that moment. */
  lemma FrozenForLifeExactlyWhen(s: State, steps: seq<Step>, k: nat)
    requires Init(s) && IsLive(Run(AS_WRITTEN, s, steps), k)
    ensures FrozenForLife(Run(AS_WRITTEN, s, steps), k) <==> !ChangePending(Run(AS_WRITTEN, s, steps))
  {
    EveryInterleaving(AS_WRITTEN, s, steps);
    LifeExactlyWhen(Run(AS_WRITTEN, s, steps), k);
  }

  lemma LifeExactlyWhen(s: State, k: nat)
    requires OneRun(s) && IsLive(s, k)
    ensures FrozenForLife(s, k) <==> !ChangePending(s)
  {
    if ChangePending(s) {
      var t :| WouldChange(s, t);
      var write := [WriteSettings(t, true)];
      assert write[..0] == [];
      assert Run(AS_WRITTEN, s, write) == Next(AS_WRITTEN, s, write[0]);
    } else {
      forall more | IsLive(Run(AS_WRITTEN, s, more), k)
        ensures Run(AS_WRITTEN, s, more).f.settings == s.f.settings
      {
        QuietLife(s, k, more);
      }
    }
  }

  /** A start keeps the snapshot of its check until it commits. */
  lemma {:induction false} SnapshotIsFromCheck(s: State, t: nat, between: seq<Step>)
    requires t !in s.ops && !s.f.running
    requires forall i :: 0 <= i < |between| ==> !(between[i].StartCommit? && between[i].t == t)
    ensures var now := Run(AS_WRITTEN, s, [StartCheck(t)] + between);
            t in now.ops && now.ops[t] == Starting(s.f.settings)
    decreases |between|
  {
    var run := [StartCheck(t)] + between;
    if between == [] {
      assert run[..0] == [] && run == [StartCheck(t)];
      assert Run(AS_WRITTEN, s, run) == Next(AS_WRITTEN, s, StartCheck(t));
    } else {
      var n := |between| - 1;
      SnapshotIsFromCheck(s, t, between[..n]);
      assert run[..n + 1] == [StartCheck(t)] + between[..n];
      KeepsStarting(Run(AS_WRITTEN, s, run[..n + 1]), between[n], t);
    }
  }

  lemma KeepsStarting(s: State, step: Step, t: nat)
    requires t in s.ops && s.ops[t].Starting? && !(step.StartCommit? && step.t == t)
    ensures t in Next(AS_WRITTEN, s, step).ops && Next(AS_WRITTEN, s, step).ops[t] == s.ops[t]
  {
  }

  /** Run `k` lives on the settings that are stored, for as long as it lives. */
  ghost predicate MatchesForLife(s: State, k: nat) {
    forall more :: IsLive(Run(AS_WRITTEN, s, more), k)
                   ==> |Run(AS_WRITTEN, s, more).runs| >= k >= 1
                       && Run(AS_WRITTEN, s, more).runs[k - 1].config == Run(AS_WRITTEN, s, more).f.settings
  }

  lemma {:induction false} ConfigStays(m: Mode, s: State, more: seq<Step>, k: nat)
    requires Committed(s, k)
    ensures Committed(Run(m, s, more), k) && Run(m, s, more).runs[k - 1].config == s.runs[k - 1].config
    decreases |more|
  {
    if more != [] {
      ConfigStays(m, s, more[..|more| - 1], k);
      NextConfigStays(m, Run(m, s, more[..|more| - 1]), more[|more| - 1], k);
      hide Next;
    }
  }

  lemma NextConfigStays(m: Mode, s: State, step: Step, k: nat)
    requires Committed(s, k)
    ensures Committed(Next(m, s, step), k) && Next(m, s, step).runs[k - 1].config == s.runs[k - 1].config
  {
  }

  /** A start that checks after `before`, waits through `between` and then commits
      runs on the stored settings for its whole life if and only if the settings at
      the commit are those at the check, and no differing change is pending at the
      commit. */
  lemma MatchesForLifeExactlyWhen(s: State, before: seq<Step>, t: nat, between: seq<Step>)
    requires Init(s)
    requires forall i :: 0 <= i < |between| ==> !(between[i].StartCommit? && between[i].t == t)
    requires var atCheck := Run(AS_WRITTEN, s, before);
             t !in atCheck.ops && !atCheck.f.running && Validates(atCheck.f.settings)
    requires !Run(AS_WRITTEN, s, before + [StartCheck(t)] + between).f.running
    ensures var atCheck := Run(AS_WRITTEN, s, before);
            var atCommit := Run(AS_WRITTEN, s, before + [StartCheck(t)] + between);
            var after := Next(AS_WRITTEN, atCommit, StartCommit(t, true));
            && IsLive(after, |after.runs|)
            && (MatchesForLife(after, |after.runs|)
                <==> atCommit.f.settings == atCheck.f.settings && !ChangePending(atCommit))
  {
    var atCheck := Run(AS_WRITTEN, s, before);
    var rest := [StartCheck(t)] + between;
    assert before + [StartCheck(t)] + between == before + rest;
    RunConcat(AS_WRITTEN, s, before, rest);
    var atCommit := Run(AS_WRITTEN, s, before + rest);
    SnapshotIsFromCheck(atCheck, t, between);
    EveryInterleaving(AS_WRITTEN, s, before + rest);
    CommitMatches(atCommit, t);
  }

  lemma CommitMatches(s: State, t: nat)
    requires OneRun(s) && !s.f.running && t in s.ops && s.ops[t].Starting? && Validates(s.ops[t].snapshot)
    ensures var after := Next(AS_WRITTEN, s, StartCommit(t, true));
            && IsLive(after, |after.runs|)
            && (MatchesForLife(after, |after.runs|) <==> s.f.settings == s.ops[t].snapshot && !ChangePending(s))
  {
    var after := Next(AS_WRITTEN, s, StartCommit(t, true));
    var k := |after.runs|;
    NextKeepsOneRun(AS_WRITTEN, s, StartCommit(t, true));
    assert after.runs[k - 1].config == s.ops[t].snapshot && after.f.settings == s.f.settings;
    assert ChangePending(after) <==> ChangePending(s) by {
      forall x ensures WouldChange(after, x) <==> WouldChange(s, x) {
      }
    }
    LifeExactlyWhen(after, k);
    assert Run(AS_WRITTEN, after, []) == after;
    hide Next;
    forall more ensures IsLive(Run(AS_WRITTEN, after, more), k) ==>
      Committed(Run(AS_WRITTEN, after, more), k)
      && Run(AS_WRITTEN, after, more).runs[k - 1].config == s.ops[t].snapshot
    {
      ConfigStays(AS_WRITTEN, after, more, k);
    }
  }

  lemma {:induction false} RunConcat(m: Mode, s: State, a: seq<Step>, b: seq<Step>)
    ensures Run(m, s, a + b) == Run(m, Run(m, s, a), b)
    decreases |b|
  {
    hide Next;
    if b == [] {
      assert a + b == a;
    } else {
      var n := |b| - 1;
      RunConcat(m, s, a, b[..n]);
      assert (a + b)[..|a + b| - 1] == a + b[..n];
    }
  }

  /** What holds as written: every run was prepared from a snapshot that passed
      validation and was at some time the stored settings, and `activeRole` is
      the role of the newest run's snapshot. */
  predicate Validated(s: State) {
    && s.f.settings in s.past
    && (forall k :: 0 <= k < |s.runs| ==> Validates(s.runs[k].config) && s.runs[k].config in s.past)
    && (forall t :: t in s.ops && s.ops[t].Starting? ==> s.ops[t].snapshot in s.past)
    && (|s.runs| > 0 ==> s.f.activeRole == s.runs[|s.runs| - 1].config.role)
  }

  lemma {:induction false} ActiveRoleIsValidated(m: Mode, s: State, steps: seq<Step>)
    requires Init(s)
    ensures Validated(Run(m, s, steps))
    decreases |steps|
  {
    hide Next;
    if steps != [] {
      ActiveRoleIsValidated(m, s, steps[..|steps| - 1]);
      NextKeepsValidated(m, Run(m, s, steps[..|steps| - 1]), steps[|steps| - 1]);
    }
  }

  lemma NextKeepsValidated(m: Mode, s: State, step: Step)
    requires Validated(s)
    ensures Validated(Next(m, s, step))
  {
    hide Next, Validated;
    if step.StartCheck? || step.StartCommit? {
      StartKeepsValidated(m, s, step);
    } else if step.Exit? || step.Close? || step.StopCancel? {
      RunnerKeepsValidated(m, s, step);
    } else {
      OthersKeepValidated(m, s, step);
    }
  }

  lemma StartKeepsValidated(m: Mode, s: State, step: Step)
    requires Validated(s) && (step.StartCheck? || step.StartCommit?)
    ensures Validated(Next(m, s, step))
  {
  }

  lemma RunnerKeepsValidated(m: Mode, s: State, step: Step)
    requires Validated(s) && (step.Exit? || step.Close? || step.StopCancel?)
    ensures Validated(Next(m, s, step))
  {
  }

  lemma OthersKeepValidated(m: Mode, s: State, step: Step)
    requires Validated(s)
    requires !(step.StartCheck? || step.StartCommit? || step.Exit? || step.Close? || step.StopCancel?)
    ensures Validated(Next(m, s, step))
  {
  }

  // ---------------------------------------------------------------------
  // Errors, pairing and roles
  // ---------------------------------------------------------------------

  /** Under every interleaving: when a live run exits with an error, the error is kept
      if the run was not cancelled, and what was there before if it was. */
  lemma ErrorKeptUnlessCancelled(m: Mode, s: State, steps: seq<Step>, k: nat, error: string)
    requires Init(s) && IsLive(Run(m, s, steps), k) && error != ""
    ensures var now := Run(m, s, steps);
            Next(m, now, Exit(k, error)).f.lastError == if now.runs[k - 1].cancelled then now.f.lastError else error
    ensures var now := Run(m, s, steps);
            error != now.f.lastError ==>
              (Next(m, now, Exit(k, error)).f.lastError == error <==> !now.runs[k - 1].cancelled)
  {
    hide Run;
    EveryInterleaving(m, s, steps);
  }

  /** Only a run that exits uncancelled, and a start that fails to prepare, leave an
      error; a commit and a settings change clear it; nothing else touches it. */
  lemma ErrorChangesOnlyBy(m: Mode, s: State, step: Step)
    ensures Next(m, s, step).f.lastError != s.f.lastError ==>
              match step
              case Exit(k, error) => error != "" && Next(m, s, step).f.lastError == error
              case StartCommit(_, prepared, failure) => Next(m, s, step).f.lastError == if prepared then "" else failure
              case WriteSettings(_, saved) => saved && Next(m, s, step).f.lastError == ""
              case _ => false
  {
  }

  /** A start that commits and a settings change that is stored leave no error. */
  lemma SuccessClearsError(m: Mode, s: State, step: Step)
    requires |Next(m, s, step).runs| > |s.runs| || |Next(m, s, step).past| > |s.past|
    ensures Next(m, s, step).f.lastError == ""
  {
  }

  /** A pairing stores the snapshot it took, as an agent of the paired relay. */
  lemma PairingStores(m: Mode, s: State, t: nat)
    requires t in s.ops && s.ops[t].Pairing? && !(m.rechecksWrite && s.f.running)
    ensures var stored := Next(m, s, WriteSettings(t, true)).f.settings;
            && stored.role == "agent" && stored.relayUrl == s.ops[t].url && stored.body == s.ops[t].snapshot.body
  {
  }

  /** Under every interleaving the role of a live run is one of the two. */
  lemma LiveRoleIsKnown(m: Mode, s: State, steps: seq<Step>)
    requires Init(s) && Run(m, s, steps).f.running
    ensures Run(m, s, steps).f.activeRole == "agent" || Run(m, s, steps).f.activeRole == "relay"
  {
    hide Run, Next;
    EveryInterleaving(m, s, steps);
    ActiveRoleIsValidated(m, s, steps);
  }
}
