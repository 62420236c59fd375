/**
 App.Run as a protocol: the goroutine that runs it, one goroutine for each server and
 runner, the goroutine that waits for them, the parent context and the shutdown deadline.
 Each action is one step of one of them; any interleaving is allowed, and a select picks
 freely among its ready branches. What a server, runner, shutdown or close function
 returns is part of the action.
 */
module AppLifecycle {
  import opened Common

  /** What was registered: for each server, whether it has a shutdown function; and how many of the others. */
  datatype Registry = Registry(servers: seq<bool>, runners: nat, closers: nat)

  function Components(r: Registry): nat {
    |r.servers| + r.runners
  }

  /** An error Run can return, with the name it is wrapped in and the underlying code. */
  datatype Error =
    | ComponentFailed(component: nat, code: int)
    | ShutdownFailed(server: nat, code: int)
    | DeadlineExceeded
    | CloseFailed(closer: nat, code: int)

  /** The goroutine started for one component. */
  datatype Stage =
    | Unspawned
    | Running                // inside fn
    | Checking(code: int)    // fn returned an error; runCtx.Err() not read yet
    | Sending(code: int)     // about to send on errCh
    | Cancelling             // sent, about to call runCancel
    | Leaving                // about to call wg.Done
    | Finished

  /** failed: fn has returned a non-nil error. */
  datatype Component = Component(stage: Stage, failed: bool)

  /** One call of a shutdown or close function, and what could be observed during it. */
  datatype Call = Call(target: nat, result: Option<int>, ready: bool, drained: bool)

  datatype Phase =
    | Spawning(next: nat) | Selecting | ClearReady | Stopping(left: nat) | CancelRunners
    | Draining | Closing(left: nat) | Returned(result: Option<Error>)

  /** errCh and the history of sends on it; contexts; the channel closed after wg.Wait; readiness. */
  datatype Shared = Shared(errCh: seq<Error>, sent: seq<Error>, parentDone: bool, runDone: bool,
                           deadline: bool, waited: bool, ready: bool)

  /** Run itself: runErr, shutdownErr, and the calls it has made. */
  datatype Main = Main(phase: Phase, runErr: Option<Error>, shutdownErr: Option<Error>,
                       stops: seq<Call>, expired: bool, closes: seq<Call>)

  datatype State = State(registry: Registry, components: seq<Component>, shared: Shared, main: Main)

  function Init(r: Registry, parentDone: bool): State {
    State(r, seq(Components(r), _ => Component(Unspawned, false)),
          Shared([], [], parentDone, false, false, false, false),
          Main(Spawning(0), None, None, [], false, []))
  }

  /** The buffer of errCh. */
  function Capacity(r: Registry): nat {
    Components(r) + 1
  }

  predicate AllFinished(s: State) {
    forall i :: 0 <= i < |s.components| ==> s.components[i].stage.Finished?
  }

  datatype Action =
    | Proceed(branch: bool, outcome: Option<int>)  // one step of Run: its select branch, the result of its call
    | Return(i: nat, err: Option<int>)             // the function of component i returns
    | Advance(i: nat)                              // the next step of component i after that
    | CancelParent | PropagateCancel | Expire | SeeAllDone

  // ---------- Run ----------

  predicate Started(p: Phase) {
    !p.Spawning?
  }

  /** The shutdown context exists. */
  predicate ShuttingDown(p: Phase) {
    p.Stopping? || p.CancelRunners? || Drained(p) || p.Draining?
  }

  predicate Drained(p: Phase) {
    p.Closing? || p.Returned?
  }

  predicate ProceedEnabled(s: State, branch: bool) {
    match s.main.phase
    case Selecting => if branch then s.shared.errCh != [] else s.shared.parentDone
    case Draining => if branch then s.shared.waited else s.shared.deadline
    case Returned(_) => false
    case _ => true
  }

  function Stop(s: State, server: nat, outcome: Option<int>): Main {
    s.main.(phase := Stopping(server),
            stops := s.main.stops + [Call(server, outcome, s.shared.ready, AllFinished(s))],
            shutdownErr := if outcome.Some? && s.main.shutdownErr.None? then Some(ShutdownFailed(server, outcome.value))
                           else s.main.shutdownErr)
  }

  function Close(s: State, closer: nat, outcome: Option<int>): Main {
    s.main.(phase := Closing(closer),
            closes := s.main.closes + [Call(closer, outcome, s.shared.ready, AllFinished(s))],
            shutdownErr := if outcome.Some? && s.main.shutdownErr.None? then Some(CloseFailed(closer, outcome.value))
                           else s.main.shutdownErr)
  }

  function Proceed'(s: State, branch: bool, outcome: Option<int>): State
    requires ProceedEnabled(s, branch)
  {
    var m := s.main;
    match m.phase
    case Spawning(next) =>
      if next < |s.components| then
        s.(components := s.components[next := Component(Running, false)], main := m.(phase := Spawning(next + 1)))
      else s.(shared := s.shared.(ready := true), main := m.(phase := Selecting))
    case Selecting =>
      if branch then s.(shared := s.shared.(errCh := s.shared.errCh[1..]),
                        main := m.(phase := ClearReady, runErr := Some(s.shared.errCh[0])))
      else s.(main := m.(phase := ClearReady))
    case ClearReady => s.(shared := s.shared.(ready := false), main := m.(phase := Stopping(|s.registry.servers|)))
    case Stopping(left) =>
      if left == 0 then s.(main := m.(phase := CancelRunners))
      else if left > |s.registry.servers| || !s.registry.servers[left - 1] then s.(main := m.(phase := Stopping(left - 1)))
      else s.(main := Stop(s, left - 1, outcome))
    case CancelRunners => s.(shared := s.shared.(runDone := true), main := m.(phase := Draining))
    case Draining =>
      if branch then s.(main := m.(phase := Closing(s.registry.closers)))
      else s.(main := m.(phase := Closing(s.registry.closers), expired := true,
                         shutdownErr := if m.shutdownErr.None? then Some(DeadlineExceeded) else m.shutdownErr))
    case Closing(left) =>
      if left == 0 then s.(main := m.(phase := Returned(if m.runErr.Some? then m.runErr else m.shutdownErr)))
      else s.(main := Close(s, left - 1, outcome))
  }

  // ---------- components and environment ----------

  predicate AdvanceEnabled(s: State, i: nat) {
    i < |s.components| &&
    match s.components[i].stage
    case Sending(_) => |s.shared.errCh| < Capacity(s.registry)   // a send on a full channel blocks
    case Unspawned | Running | Finished => false
    case _ => true
  }

  function Advance'(s: State, i: nat): State
    requires AdvanceEnabled(s, i)
  {
    var c := s.components[i];
    match c.stage
    case Checking(code) =>
      s.(components := s.components[i := c.(stage := if s.shared.runDone then Leaving else Sending(code))])
    case Sending(code) =>
      s.(components := s.components[i := c.(stage := Cancelling)],
         shared := s.shared.(errCh := s.shared.errCh + [ComponentFailed(i, code)],
                             sent := s.shared.sent + [ComponentFailed(i, code)]))
    case Cancelling =>
      s.(components := s.components[i := c.(stage := Leaving)], shared := s.shared.(runDone := true))
    case Leaving => s.(components := s.components[i := c.(stage := Finished)])
    case _ => s
  }

  predicate Enabled(s: State, a: Action) {
    match a
    case Proceed(branch, _) => ProceedEnabled(s, branch)
    case Return(i, _) => i < |s.components| && s.components[i].stage.Running?
    case Advance(i) => AdvanceEnabled(s, i)
    case CancelParent => true
    case PropagateCancel => s.shared.parentDone
    case Expire => ShuttingDown(s.main.phase)
    case SeeAllDone => (s.main.phase.Draining? || Drained(s.main.phase)) && AllFinished(s)
  }

  function Step(s: State, a: Action): State
    requires Enabled(s, a)
  {
    match a
    case Proceed(branch, outcome) => Proceed'(s, branch, outcome)
    case Return(i, err) =>
      s.(components := s.components[i := if err.Some? then Component(Checking(err.value), true) else Component(Leaving, false)])
    case Advance(i) => Advance'(s, i)
    case CancelParent => s.(shared := s.shared.(parentDone := true))
    case PropagateCancel => s.(shared := s.shared.(runDone := true))
    case Expire => s.(shared := s.shared.(deadline := true))
    case SeeAllDone => s.(shared := s.shared.(waited := true))
  }

  predicate Runs(s: State, actions: seq<Action>)
    decreases |actions|
  {
    actions == [] || (Enabled(s, actions[0]) && Runs(Step(s, actions[0]), actions[1..]))
  }

  function After(s: State, actions: seq<Action>): State
    requires Runs(s, actions)
    decreases |actions|
  {
    if actions == [] then s else After(Step(s, actions[0]), actions[1..])
  }

  // ---------- what the calls should be ----------

  /** The servers below n that have a shutdown function, last registered first. */
  function StopPlan(servers: seq<bool>): seq<nat> {
    if servers == [] then []
    else var k := |servers| - 1; (if servers[k] then [k] else []) + StopPlan(servers[..k])
  }

  /** All closers, last registered first. */
  function ClosePlan(n: nat): seq<nat> {
    if n == 0 then [] else [n - 1] + ClosePlan(n - 1)
  }

  function Targets(calls: seq<Call>): seq<nat> {
    seq(|calls|, i requires 0 <= i < |calls| => calls[i].target)
  }

  /** The first call that failed. */
  function FirstFailed(calls: seq<Call>): Option<Call> {
    if calls == [] then None else if calls[0].result.Some? then Some(calls[0]) else FirstFailed(calls[1..])
  }

  /** Which error wins: the first failing shutdown, then the deadline, then the first failing close. */
  function Precedence(stops: seq<Call>, expired: bool, closes: seq<Call>): Option<Error> {
    match FirstFailed(stops)
    case Some(c) => Some(ShutdownFailed(c.target, if c.result.Some? then c.result.value else 0))
    case None =>
      if expired then Some(DeadlineExceeded)
      else match FirstFailed(closes)
        case Some(c) => Some(CloseFailed(c.target, if c.result.Some? then c.result.value else 0))
        case None => None
  }

  lemma {:induction false} FirstFailedAppend(calls: seq<Call>, c: Call)
    ensures FirstFailed(calls + [c])
         == if FirstFailed(calls).Some? then FirstFailed(calls) else if c.result.Some? then Some(c) else None
    ensures FirstFailed(calls).Some? ==> FirstFailed(calls).value in calls && FirstFailed(calls).value.result.Some?
    ensures FirstFailed(calls).None? ==> forall d :: d in calls ==> d.result.None?
  {
    if calls != [] {
      FirstFailedAppend(calls[1..], c);
      assert (calls + [c])[1..] == calls[1..] + [c];
      assert forall d :: d in calls ==> d == calls[0] || d in calls[1..];
    }
  }

  predicate NoneFailed(calls: seq<Call>) {
    forall j :: 0 <= j < |calls| ==> calls[j].result.None?
  }

  /** The j-th of these calls failed with that code, and none before it. */
  predicate FailsFirst(calls: seq<Call>, j: nat, code: int) {
    j < |calls| && calls[j].result == Some(code) && NoneFailed(calls[..j])
  }

  lemma {:induction false} FirstFailedAt(calls: seq<Call>, j: nat, code: int)
    ensures NoneFailed(calls) ==> FirstFailed(calls).None?
    ensures FailsFirst(calls, j, code) ==> FirstFailed(calls) == Some(calls[j])
  {
    if calls != [] {
      FirstFailedAt(calls[1..], if j > 0 then j - 1 else 0, code);
      if FailsFirst(calls, j, code) && j > 0 {
        assert calls[..j][0] == calls[0] && calls[..j][1..] == calls[1..][..j - 1];
      }
    }
  }

  /** The error that wins: a failing shutdown before the deadline, and the deadline before a failing close, the first of each. */
  lemma PrecedenceExactly(stops: seq<Call>, expired: bool, closes: seq<Call>, j: nat, code: int)
    ensures FailsFirst(stops, j, code) ==> Precedence(stops, expired, closes) == Some(ShutdownFailed(stops[j].target, code))
    ensures NoneFailed(stops) && expired ==> Precedence(stops, expired, closes) == Some(DeadlineExceeded)
    ensures NoneFailed(stops) && !expired && FailsFirst(closes, j, code) ==>
      Precedence(stops, expired, closes) == Some(CloseFailed(closes[j].target, code))
    ensures NoneFailed(stops) && !expired && NoneFailed(closes) ==> Precedence(stops, expired, closes) == None
  {
    FirstFailedAt(stops, j, code);
    FirstFailedAt(closes, j, code);
  }

  // ---------- the invariant ----------

  /** Components are started in order. */
  ghost predicate Spawned(s: State) {
    && |s.components| == Components(s.registry)
    && (s.main.phase.Spawning? ==> s.main.phase.next <= |s.components|)
    && (forall i :: 0 <= i < |s.components| ==>
          (s.components[i].stage.Unspawned? <==> s.main.phase.Spawning? && i >= s.main.phase.next))
  }

  predicate HasSent(s: State, e: Error) {
    e.ComponentFailed? && e.component < |s.components| &&
    (var stage := s.components[e.component].stage; stage.Cancelling? || stage.Leaving? || stage.Finished?)
  }

  function Sender(e: Error): nat {
    if e.ComponentFailed? then e.component else 0
  }

  /** The component that sent this error is about to cancel the run context. */
  predicate SenderCancels(s: State, e: Error) {
    Sender(e) < |s.components| && s.components[Sender(e)].stage.Cancelling?
  }

  /** Every send was made by a component that is past its send, and no component sends twice; what follows is the cancel. */
  ghost predicate Sends(s: State) {
    && (forall j :: 0 <= j < |s.shared.sent| ==> HasSent(s, s.shared.sent[j]))
    && (forall j :: 0 <= j < |s.shared.sent| ==> s.shared.runDone || SenderCancels(s, s.shared.sent[j]))
    && (forall j, k :: 0 <= j < k < |s.shared.sent| ==> Sender(s.shared.sent[j]) != Sender(s.shared.sent[k]))
  }

  /** errCh holds what was sent, less the first error if Run has received it. */
  predicate Channel(s: State) {
    && (s.main.runErr.Some? ==> s.shared.sent != [] && s.main.runErr == Some(s.shared.sent[0]))
    && s.shared.errCh == (if s.main.runErr.Some? && s.shared.sent != [] then s.shared.sent[1..] else s.shared.sent)
  }

  /** Why runCtx can be cancelled, and what a failed component implies. */
  ghost predicate Reports(s: State) {
    && (forall i :: 0 <= i < |s.components| ==> Reported(s, s.components[i]))
    && (s.shared.runDone ==> s.shared.sent != [] || s.shared.parentDone || s.main.phase.Draining? || Drained(s.main.phase))
  }

  /** A component past its check either has sent its error, or saw runCtx already cancelled. */
  predicate Reported(s: State, c: Component) {
    && (c.stage.Checking? || c.stage.Sending? ==> c.failed)
    && (c.stage.Cancelling? ==> s.shared.sent != [])
    && (c.failed && (c.stage.Leaving? || c.stage.Finished?) ==> s.shared.sent != [] || s.shared.runDone)
  }

  /** Readiness, and why Run has left its select. */
  ghost predicate Readiness(s: State) {
    var p := s.main.phase;
    && (s.shared.ready <==> p.Selecting? || p.ClearReady?)
    && (p.Spawning? || p.Selecting? ==> s.main.runErr.None?)
    && (!p.Spawning? && !p.Selecting? ==> s.main.runErr.Some? || s.shared.parentDone)
    && (forall c :: c in s.main.stops || c in s.main.closes ==> !c.ready)
  }

  /** The calls made so far, followed by those still to come, are the plan. */
  predicate OnPlan(s: State) {
    var m := s.main;
    && (match m.phase
        case Spawning(_) | Selecting | ClearReady => m.stops == []
        case Stopping(left) =>
          left <= |s.registry.servers| && Targets(m.stops) + StopPlan(s.registry.servers[..left]) == StopPlan(s.registry.servers)
        case _ => Targets(m.stops) == StopPlan(s.registry.servers))
    && (match m.phase
        case Closing(left) => Targets(m.closes) + ClosePlan(left) == ClosePlan(s.registry.closers)
        case Returned(_) => Targets(m.closes) == ClosePlan(s.registry.closers)
        case _ => m.closes == [] && !m.expired)
  }

  /** shutdownErr is the error that wins among the calls so far. */
  predicate ErrorOrder(s: State) {
    var m := s.main;
    && m.shutdownErr == Precedence(m.stops, m.expired, m.closes)
    && (m.phase.Returned? ==> m.phase.result == if m.runErr.Some? then m.runErr else m.shutdownErr)
  }

  /** The deadline can pass only once the shutdown has begun, and only then does Run give up waiting. */
  predicate Deadline(s: State) {
    && (s.shared.deadline ==> ShuttingDown(s.main.phase))
    && (s.main.expired ==> s.shared.deadline)
  }

  /** Without the deadline, closers run only after every component has finished. */
  ghost predicate Drain(s: State) {
    && (s.shared.waited ==> AllFinished(s) && Started(s.main.phase))
    && (s.main.phase.Draining? || Drained(s.main.phase) ==> s.shared.runDone)
    && (Drained(s.main.phase) && !s.main.expired ==> AllFinished(s))
    && (forall c :: c in s.main.closes ==> c.drained || s.main.expired)
  }

  ghost predicate Inv(s: State) {
    && Spawned(s) && Sends(s) && Channel(s) && Reports(s)
    && Readiness(s) && OnPlan(s) && ErrorOrder(s) && Drain(s) && Deadline(s)
  }

  lemma InitInv(r: Registry, parentDone: bool)
    ensures Inv(Init(r, parentDone))
  {
  }

  lemma ProceedKeepsSends(s: State, branch: bool, outcome: Option<int>)
    requires Spawned(s) && Sends(s) && ProceedEnabled(s, branch)
    ensures Spawned(Proceed'(s, branch, outcome)) && Sends(Proceed'(s, branch, outcome))
  {
    var t := Proceed'(s, branch, outcome);
    forall j | 0 <= j < |s.shared.sent|
      ensures HasSent(t, s.shared.sent[j])
    {
      assert HasSent(s, s.shared.sent[j]);
    }
  }

  lemma ProceedKeepsReports(s: State, branch: bool, outcome: Option<int>)
    requires Channel(s) && Reports(s) && Readiness(s) && ProceedEnabled(s, branch)
    ensures Channel(Proceed'(s, branch, outcome)) && Reports(Proceed'(s, branch, outcome))
  {
  }

  lemma ProceedKeepsReadiness(s: State, branch: bool, outcome: Option<int>)
    requires Readiness(s) && ProceedEnabled(s, branch)
    ensures Readiness(Proceed'(s, branch, outcome))
  {
  }

  lemma StopPlanStep(servers: seq<bool>, k: nat)
    requires k < |servers|
    ensures StopPlan(servers[..k + 1]) == (if servers[k] then [k] else []) + StopPlan(servers[..k])
  {
    assert servers[..k + 1][..k] == servers[..k];
  }

  /** Making the next call of a plan moves it from what is still to come to what has been done. */
  lemma TargetsSnoc(calls: seq<Call>, c: Call, rest: seq<nat>)
    ensures Targets(calls + [c]) + rest == Targets(calls) + ([c.target] + rest)
  {
    assert Targets(calls + [c]) == Targets(calls) + [c.target];
  }

  lemma StoppingKeepsPlan(s: State, branch: bool, outcome: Option<int>)
    requires OnPlan(s) && s.main.phase.Stopping?
    ensures OnPlan(Proceed'(s, branch, outcome))
  {
    var left := s.main.phase.left;
    if left == 0 {
      assert s.registry.servers[..0] == [];
    } else {
      StopPlanStep(s.registry.servers, left - 1);
      TargetsSnoc(s.main.stops, Call(left - 1, outcome, s.shared.ready, AllFinished(s)),
                  StopPlan(s.registry.servers[..left - 1]));
    }
  }

  lemma ClosingKeepsPlan(s: State, branch: bool, outcome: Option<int>)
    requires OnPlan(s) && s.main.phase.Closing?
    ensures OnPlan(Proceed'(s, branch, outcome))
  {
    var left := s.main.phase.left;
    if left > 0 {
      TargetsSnoc(s.main.closes, Call(left - 1, outcome, s.shared.ready, AllFinished(s)), ClosePlan(left - 1));
    }
  }

  lemma ProceedKeepsPlan(s: State, branch: bool, outcome: Option<int>)
    requires OnPlan(s) && ProceedEnabled(s, branch)
    ensures OnPlan(Proceed'(s, branch, outcome))
  {
    if s.main.phase.Stopping? {
      StoppingKeepsPlan(s, branch, outcome);
    } else if s.main.phase.Closing? {
      ClosingKeepsPlan(s, branch, outcome);
    } else if s.main.phase.ClearReady? {
      assert s.registry.servers[..|s.registry.servers|] == s.registry.servers;
    }
  }

  lemma ProceedKeepsErrorOrder(s: State, branch: bool, outcome: Option<int>)
    requires OnPlan(s) && ErrorOrder(s) && ProceedEnabled(s, branch)
    ensures ErrorOrder(Proceed'(s, branch, outcome))
  {
    var m, t := s.main, Proceed'(s, branch, outcome).main;
    if t.stops != m.stops {
      FirstFailedAppend(m.stops, t.stops[|m.stops|]);
    }
    if t.closes != m.closes {
      FirstFailedAppend(m.closes, t.closes[|m.closes|]);
    }
  }

  lemma ProceedKeepsDrain(s: State, branch: bool, outcome: Option<int>)
    requires Drain(s) && ProceedEnabled(s, branch)
    ensures Drain(Proceed'(s, branch, outcome))
  {
  }

  lemma ProceedKeepsDeadline(s: State, branch: bool, outcome: Option<int>)
    requires Deadline(s) && ProceedEnabled(s, branch)
    ensures Deadline(Proceed'(s, branch, outcome))
  {
  }

  lemma ReturnKeepsSends(s: State, i: nat, err: Option<int>)
    requires Spawned(s) && Sends(s) && Enabled(s, Return(i, err))
    ensures Spawned(Step(s, Return(i, err))) && Sends(Step(s, Return(i, err)))
  {
    forall j | 0 <= j < |s.shared.sent|
      ensures HasSent(Step(s, Return(i, err)), s.shared.sent[j]) && Sender(s.shared.sent[j]) != i
    {
      assert HasSent(s, s.shared.sent[j]);
    }
  }

  lemma ReturnKeepsReports(s: State, i: nat, err: Option<int>)
    requires Channel(s) && Reports(s) && Enabled(s, Return(i, err))
    ensures Channel(Step(s, Return(i, err))) && Reports(Step(s, Return(i, err)))
  {
  }

  lemma ReturnKeepsInv(s: State, i: nat, err: Option<int>)
    requires Inv(s) && Enabled(s, Return(i, err))
    ensures Inv(Step(s, Return(i, err)))
  {
    ReturnKeepsSends(s, i, err);
    ReturnKeepsReports(s, i, err);
  }

  lemma AdvanceKeepsSends(s: State, i: nat)
    requires Spawned(s) && Sends(s) && AdvanceEnabled(s, i)
    ensures Spawned(Advance'(s, i)) && Sends(Advance'(s, i))
  {
    var t := Advance'(s, i);
    forall j | 0 <= j < |s.shared.sent|
      ensures HasSent(t, s.shared.sent[j])
      ensures s.components[i].stage.Sending? ==> Sender(s.shared.sent[j]) != i
    {
      assert HasSent(s, s.shared.sent[j]);
    }
  }

  lemma AdvanceKeepsReports(s: State, i: nat)
    requires Channel(s) && Reports(s) && AdvanceEnabled(s, i)
    ensures Channel(Advance'(s, i)) && Reports(Advance'(s, i))
  {
  }

  lemma AdvanceKeepsInv(s: State, i: nat)
    requires Inv(s) && AdvanceEnabled(s, i)
    ensures Inv(Advance'(s, i))
  {
    AdvanceKeepsSends(s, i);
    AdvanceKeepsReports(s, i);
  }

  lemma ProceedKeepsInv(s: State, branch: bool, outcome: Option<int>)
    requires Inv(s) && ProceedEnabled(s, branch)
    ensures Inv(Proceed'(s, branch, outcome))
  {
    ProceedKeepsSends(s, branch, outcome);
    ProceedKeepsReports(s, branch, outcome);
    ProceedKeepsReadiness(s, branch, outcome);
    ProceedKeepsPlan(s, branch, outcome);
    ProceedKeepsErrorOrder(s, branch, outcome);
    ProceedKeepsDrain(s, branch, outcome);
    ProceedKeepsDeadline(s, branch, outcome);
  }

  lemma EnvironmentKeepsInv(s: State, a: Action)
    requires Inv(s) && Enabled(s, a) && (a.CancelParent? || a.PropagateCancel? || a.Expire? || a.SeeAllDone?)
    ensures Inv(Step(s, a))
  {
    var t := Step(s, a);
    assert Spawned(t) && Sends(t) && Channel(t) && Reports(t) by {
      forall j | 0 <= j < |s.shared.sent|
        ensures HasSent(t, s.shared.sent[j])
      {
        assert HasSent(s, s.shared.sent[j]);
      }
    }
  }

  lemma StepKeepsInv(s: State, a: Action)
    requires Inv(s) && Enabled(s, a)
    ensures Inv(Step(s, a))
  {
    match a
    case Proceed(branch, outcome) => ProceedKeepsInv(s, branch, outcome);
    case Return(i, err) => ReturnKeepsInv(s, i, err);
    case Advance(i) => AdvanceKeepsInv(s, i);
    case _ => EnvironmentKeepsInv(s, a);
  }

  lemma {:induction false} RunKeepsInv(s: State, actions: seq<Action>)
    requires Inv(s) && Runs(s, actions)
    ensures Inv(After(s, actions))
    decreases |actions|
  {
    if actions != [] {
      StepKeepsInv(s, actions[0]);
      RunKeepsInv(Step(s, actions[0]), actions[1..]);
    }
  }

  /** The states some run of Run leads to. */
  ghost predicate Reachable(s: State) {
    exists r: Registry, parentDone: bool, actions: seq<Action> ::
      Runs(Init(r, parentDone), actions) && After(Init(r, parentDone), actions) == s
  }

  lemma ReachableInv(s: State)
    requires Reachable(s)
    ensures Inv(s)
  {
    var r: Registry, parentDone: bool, actions: seq<Action> :|
      Runs(Init(r, parentDone), actions) && After(Init(r, parentDone), actions) == s;
    InitInv(r, parentDone);
    RunKeepsInv(Init(r, parentDone), actions);
  }

  // ---------- no lost failure ----------

  /** Pigeonhole: numbers below n that are pairwise different are at most n many. */
  lemma {:induction false} Pigeonhole(ids: seq<nat>, n: nat)
    requires forall j :: 0 <= j < |ids| ==> ids[j] < n
    requires forall j, k :: 0 <= j < k < |ids| ==> ids[j] != ids[k]
    ensures |ids| <= n
    decreases n
  {
    if ids != [] {
      assert ids[0] < n;
      if j :| 0 <= j < |ids| && ids[j] == n - 1 {
        Pigeonhole(ids[..j] + ids[j + 1..], n - 1);
      } else {
        Pigeonhole(ids, n - 1);
      }
    }
  }

  /** Sends never exceed the number of components, so no component ever blocks on its send. */
  lemma SendNeverBlocks(s: State)
    requires Reachable(s)
    ensures |s.shared.errCh| <= |s.shared.sent| <= Components(s.registry) < Capacity(s.registry)
    ensures forall i :: 0 <= i < |s.components| && s.components[i].stage.Sending? ==> Enabled(s, Advance(i))
  {
    ReachableInv(s);
    var ids := seq(|s.shared.sent|, j requires 0 <= j < |s.shared.sent| => Sender(s.shared.sent[j]));
    assert forall j :: 0 <= j < |ids| ==> HasSent(s, s.shared.sent[j]);
    Pigeonhole(ids, Components(s.registry));
  }

  /**
   No lost failure: while the parent context is live and Run is parked in its select, if any
   component has finished with an error then errCh is not empty, so Run can move.
   */
  lemma NoLostFailure(s: State, i: nat)
    requires Reachable(s) && s.main.phase.Selecting? && !s.shared.parentDone
    requires i < |s.components| && s.components[i].stage.Finished? && s.components[i].failed
    ensures s.shared.errCh != [] && ProceedEnabled(s, true)
  {
    ReachableInv(s);
    assert Reported(s, s.components[i]);
  }

  /** Failures that come after the run context was cancelled are not reported: nothing more is sent. */
  lemma {:induction false} LateFailuresIgnored(s: State, actions: seq<Action>)
    requires s.shared.runDone && Runs(s, actions)
    requires forall i :: 0 <= i < |s.components| ==> !s.components[i].stage.Sending?
    ensures After(s, actions).shared.sent == s.shared.sent
    decreases |actions|
  {
    if actions != [] {
      LateFailuresIgnored(Step(s, actions[0]), actions[1..]);
    }
  }

  /** The result of Run is settled by who won its select. */
  lemma ResultOfRun(s: State)
    requires Reachable(s) && s.main.phase.Returned?
    // the parent never cancelled: the first error enqueued is returned
    ensures !s.shared.parentDone ==> s.shared.sent != [] && s.main.phase.result == Some(s.shared.sent[0])
    // a component error that was received is returned, and it is the first one enqueued
    ensures s.main.runErr.Some? ==> s.shared.sent != [] && s.main.phase.result == s.main.runErr == Some(s.shared.sent[0])
    // otherwise the first failure in the order servers, deadline, closers
    ensures s.main.runErr.None? ==> s.main.phase.result == Precedence(s.main.stops, s.main.expired, s.main.closes)
  {
    ReachableInv(s);
  }

  /**
   The calls of a finished Run are exactly the shutdown functions of the servers that have
   one, last registered first, then all closers, last registered first, each once, whatever
   failed before; readiness is false during every one of them.
   */
  lemma ShutdownTrace(s: State)
    requires Reachable(s) && s.main.phase.Returned?
    ensures Targets(s.main.stops) == StopPlan(s.registry.servers)
    ensures Targets(s.main.closes) == ClosePlan(s.registry.closers)
    ensures forall c :: c in s.main.stops || c in s.main.closes ==> !c.ready
  {
    ReachableInv(s);
  }

  /** Readiness is true only after every component has been started, and only up to the end of the select. */
  lemma ReadyMeansStarted(s: State)
    requires Reachable(s) && s.shared.ready
    ensures forall i :: 0 <= i < |s.components| ==> !s.components[i].stage.Unspawned?
    ensures s.main.stops == [] && s.main.closes == []
  {
    ReachableInv(s);
  }

  /**
   If Run returns nil, every server and runner goroutine had finished before the first
   closer was called, every shutdown and close call returned nil, and the parent was cancelled.
   */
  lemma NilMeansClean(s: State)
    requires Reachable(s) && s.main.phase == Returned(None)
    ensures AllFinished(s) && s.shared.parentDone && !s.main.expired
    ensures forall c :: c in s.main.closes ==> c.drained
    ensures forall c :: c in s.main.stops || c in s.main.closes ==> c.result.None?
  {
    ReachableInv(s);
    FirstFailedAppend(s.main.stops, Call(0, None, false, false));
    FirstFailedAppend(s.main.closes, Call(0, None, false, false));
  }

  /** Run gives up waiting, and reports it, only after the deadline has passed, which starts with the shutdown. */
  lemma GivesUpOnlyAtDeadline(s: State)
    requires Reachable(s)
    ensures s.main.expired ==> s.shared.deadline
    ensures s.shared.deadline ==> ShuttingDown(s.main.phase)
    ensures s.main.phase == Returned(Some(DeadlineExceeded)) ==> s.main.expired && s.shared.deadline
  {
    ReachableInv(s);
    PrecedenceIsDeadline(s.main.stops, s.main.expired, s.main.closes);
    assert s.main.runErr.Some? ==> HasSent(s, s.shared.sent[0]);
  }

  lemma PrecedenceIsDeadline(stops: seq<Call>, expired: bool, closes: seq<Call>)
    ensures Precedence(stops, expired, closes) == Some(DeadlineExceeded) ==> expired
  {
  }

  /**
   Whatever Run returns, closers ran only after every component had finished, unless its wait
   ended with the deadline.
   */
  lemma ClosersAfterComponents(s: State)
    requires Reachable(s) && s.main.phase.Returned? && !s.main.expired
    ensures AllFinished(s) && forall c :: c in s.main.closes ==> c.drained
  {
    ReachableInv(s);
  }

  // ---------- when the run context is cancelled ----------

  /** Run waits for its components, and closes anything, only after the run context has been cancelled. */
  lemma CancelledBeforeWait(s: State)
    requires Reachable(s) && (s.main.phase.Draining? || Drained(s.main.phase))
    ensures s.shared.runDone
  {
    ReachableInv(s);
  }

  /** The run context is cancelled, or the next step of a component or of the parent context cancels it. */
  predicate CancelPending(s: State) {
    || s.shared.runDone
    || Enabled(s, PropagateCancel)
    || exists i :: 0 <= i < |s.components| && s.components[i].stage.Cancelling?
  }

  /**
   Before Run cancels the run context itself, that context is or is about to be cancelled if and
   only if the parent was cancelled or a component has sent its error, whatever servers are
   still to be shut down.
   */
  lemma CancelledEarlyExactly(s: State)
    requires Reachable(s) && !s.main.phase.Draining? && !Drained(s.main.phase)
    ensures CancelPending(s) <==> s.shared.parentDone || s.shared.sent != []
    ensures s.shared.runDone ==> s.shared.parentDone || s.shared.sent != []
  {
    ReachableInv(s);
    if s.shared.sent != [] {
      assert s.shared.runDone || SenderCancels(s, s.shared.sent[0]);
    }
    forall i | 0 <= i < |s.components| && s.components[i].stage.Cancelling?
      ensures s.shared.sent != []
    {
      assert Reported(s, s.components[i]);
    }
  }

  lemma Prepend(s: State, a: Action, rest: seq<Action>)
    requires Enabled(s, a) && Runs(Step(s, a), rest)
    ensures Runs(s, [a] + rest) && After(s, [a] + rest) == After(Step(s, a), rest)
  {
    assert ([a] + rest)[1..] == rest;
  }

  /** With any component at all, a run in which it fails cancels the others before any shutdown call, the parent alive. */
  lemma FailureCancelsEarly(r: Registry, code: int) returns (actions: seq<Action>)
    requires Components(r) > 0
    ensures Runs(Init(r, false), actions)
    ensures var t := After(Init(r, false), actions);
      t.shared.runDone && !t.shared.parentDone && t.main.stops == [] && t.shared.sent == [ComponentFailed(0, code)]
  {
    var s0 := Init(r, false);
    var s1 := Step(s0, Proceed(true, None));
    var s2 := Step(s1, Return(0, Some(code)));
    var s3 := Step(s2, Advance(0));
    var s4 := Step(s3, Advance(0));
    Prepend(s4, Advance(0), []);
    var rest := [Advance(0)] + [];
    Prepend(s3, Advance(0), rest);
    Prepend(s2, Advance(0), [Advance(0)] + rest);
    Prepend(s1, Return(0, Some(code)), [Advance(0)] + ([Advance(0)] + rest));
    Prepend(s0, Proceed(true, None), [Return(0, Some(code))] + ([Advance(0)] + ([Advance(0)] + rest)));
    actions := [Proceed(true, None)] + ([Return(0, Some(code))] + ([Advance(0)] + ([Advance(0)] + rest)));
  }

  // ---------- progress ----------

  /** The steps Run has left: one per component to start, per server, per closer, and seven more. */
  function StepsLeft(s: State): nat {
    var servers, closers := |s.registry.servers|, s.registry.closers;
    match s.main.phase
    case Spawning(next) => (if next <= |s.components| then |s.components| - next else 0) + servers + closers + 7
    case Selecting => servers + closers + 6
    case ClearReady => servers + closers + 5
    case Stopping(left) => left + closers + 4
    case CancelRunners => closers + 3
    case Draining => closers + 2
    case Closing(left) => left + 1
    case Returned(_) => 0
  }

  function Proceeds(actions: seq<Action>): nat {
    if actions == [] then 0 else (if actions[0].Proceed? then 1 else 0) + Proceeds(actions[1..])
  }

  lemma StepDecreases(s: State, a: Action)
    requires Spawned(s) && OnPlan(s) && Enabled(s, a)
    ensures StepsLeft(Step(s, a)) + (if a.Proceed? then 1 else 0) <= StepsLeft(s)
  {
  }

  lemma {:induction false} RunDecreases(s: State, actions: seq<Action>)
    requires Inv(s) && Runs(s, actions)
    ensures Proceeds(actions) + StepsLeft(After(s, actions)) <= StepsLeft(s)
    decreases |actions|
  {
    if actions != [] {
      StepKeepsInv(s, actions[0]);
      StepDecreases(s, actions[0]);
      RunDecreases(Step(s, actions[0]), actions[1..]);
    }
  }

  /** Whatever the others do, Run takes a bounded number of steps of its own. */
  lemma RunTerminates(r: Registry, parentDone: bool, actions: seq<Action>)
    requires Runs(Init(r, parentDone), actions)
    ensures Proceeds(actions) <= Components(r) + |r.servers| + r.closers + 7
  {
    InitInv(r, parentDone);
    RunDecreases(Init(r, parentDone), actions);
  }

  /** Run has a reason to leave its select, if it has not left it yet. */
  predicate ToldToStop(s: State) {
    s.main.phase.Spawning? || s.main.phase.Selecting? ==> s.shared.parentDone || s.shared.errCh != []
  }

  /** Run's own steps, and the deadline. */
  predicate OwnSteps(actions: seq<Action>) {
    forall i :: 0 <= i < |actions| ==> actions[i].Proceed? || actions[i].Expire?
  }

  /** Told to stop, Run has a next step, or waits for nothing but the deadline. */
  function NextOwn(s: State): Action {
    if s.main.phase.Draining? && !s.shared.waited && !s.shared.deadline then Expire
    else Proceed(if s.main.phase.Selecting? then s.shared.errCh != [] else s.shared.waited, None)
  }

  function OwnLeft(s: State): nat {
    StepsLeft(s) + (if s.shared.deadline then 0 else 1)
  }

  lemma NextOwnEnabled(s: State)
    requires ToldToStop(s) && !s.main.phase.Returned?
    ensures Enabled(s, NextOwn(s)) && ToldToStop(Step(s, NextOwn(s)))
  {
  }

  lemma NextOwnDecreases(s: State)
    requires Inv(s) && Enabled(s, NextOwn(s))
    ensures OwnLeft(Step(s, NextOwn(s))) < OwnLeft(s)
  {
    StepDecreases(s, NextOwn(s));
  }

  /** Told to stop, Run returns in at most StepsLeft(s) steps of its own, and the deadline if the components do not finish. */
  lemma {:induction false} Returns(s: State) returns (actions: seq<Action>)
    requires Inv(s) && ToldToStop(s)
    ensures Runs(s, actions) && OwnSteps(actions) && After(s, actions).main.phase.Returned?
    ensures |actions| <= OwnLeft(s)
    decreases OwnLeft(s)
  {
    if s.main.phase.Returned? {
      actions := [];
    } else {
      var a := NextOwn(s);
      NextOwnEnabled(s);
      NextOwnDecreases(s);
      StepKeepsInv(s, a);
      var rest := Returns(Step(s, a));
      Prepend(s, a, rest);
      actions := [a] + rest;
    }
  }

  lemma {:induction false} NotTold(s: State, actions: seq<Action>)
    requires !ToldToStop(s) && Runs(s, actions) && OwnSteps(actions)
    ensures !ToldToStop(After(s, actions)) && !After(s, actions).main.phase.Returned?
    decreases |actions|
  {
    if actions != [] {
      assert actions[0].Proceed? || actions[0].Expire?;
      assert OwnSteps(actions[1..]) by {
        assert forall i :: 0 <= i < |actions| - 1 ==> actions[1..][i] == actions[i + 1];
      }
      NotTold(Step(s, actions[0]), actions[1..]);
    }
  }

  /** Run can return by its own steps and the deadline, whatever its components do, if and only if it was told to stop. */
  lemma ReturnsExactly(s: State)
    requires Reachable(s)
    ensures (exists actions :: Runs(s, actions) && OwnSteps(actions) && After(s, actions).main.phase.Returned?) <==> ToldToStop(s)
  {
    ReachableInv(s);
    if ToldToStop(s) {
      var actions := Returns(s);
    }
    if actions :| Runs(s, actions) && OwnSteps(actions) && After(s, actions).main.phase.Returned? && !ToldToStop(s) {
      NotTold(s, actions);
    }
  }

  /** The steps a component has left once its function has returned. */
  function StageLeft(stage: Stage): nat {
    match stage
    case Checking(_) => 4
    case Sending(_) => 3
    case Cancelling => 2
    case Leaving => 1
    case Unspawned | Running | Finished => 0
  }

  function ComponentSteps(components: seq<Component>): nat {
    if components == [] then 0
    else ComponentSteps(components[..|components| - 1]) + StageLeft(components[|components| - 1].stage)
  }

  lemma {:induction false} StepsOfUpdate(components: seq<Component>, i: nat, c: Component)
    requires i < |components|
    ensures ComponentSteps(components[i := c]) + StageLeft(components[i].stage) == ComponentSteps(components) + StageLeft(c.stage)
  {
    var last := |components| - 1;
    if i < last {
      StepsOfUpdate(components[..last], i, c);
      assert components[i := c][..last] == components[..last][i := c];
    } else {
      assert components[i := c][..last] == components[..last];
    }
  }

  /** Every component has been started and its function has returned. */
  predicate AllReturned(s: State) {
    forall i :: 0 <= i < |s.components| ==> !s.components[i].stage.Unspawned? && !s.components[i].stage.Running?
  }

  predicate OnlyAdvances(actions: seq<Action>) {
    forall i :: 0 <= i < |actions| ==> actions[i].Advance?
  }

  /** A component whose function has returned is never blocked, and each of its steps is one fewer to go. */
  lemma AdvanceProgresses(s: State, i: nat)
    requires Reachable(s) && i < |s.components| && StageLeft(s.components[i].stage) > 0
    ensures Enabled(s, Advance(i)) && ComponentSteps(Step(s, Advance(i)).components) < ComponentSteps(s.components)
  {
    SendNeverBlocks(s);
    StepsOfUpdate(s.components, i, Advance'(s, i).components[i]);
  }

  lemma {:induction false} AfterSnoc(s: State, actions: seq<Action>, a: Action)
    requires Runs(s, actions) && Enabled(After(s, actions), a)
    ensures Runs(s, actions + [a]) && After(s, actions + [a]) == Step(After(s, actions), a)
    decreases |actions|
  {
    if actions == [] {
      assert actions + [a] == [a];
      assert Runs(Step(s, a), [a][1..]);
    } else {
      AfterSnoc(Step(s, actions[0]), actions[1..], a);
      assert (actions + [a])[1..] == actions[1..] + [a];
    }
  }

  lemma {:induction false} RunsAppend(s: State, first: seq<Action>, second: seq<Action>)
    requires Runs(s, first) && Runs(After(s, first), second)
    ensures Runs(s, first + second) && After(s, first + second) == After(After(s, first), second)
    decreases |first|
  {
    if first == [] {
      assert first + second == second;
    } else {
      RunsAppend(Step(s, first[0]), first[1..], second);
      assert (first + second)[1..] == first[1..] + second;
    }
  }

  lemma ReachableStep(s: State, a: Action)
    requires Reachable(s) && Enabled(s, a)
    ensures Reachable(Step(s, a))
  {
    var r: Registry, parentDone: bool, actions: seq<Action> :|
      Runs(Init(r, parentDone), actions) && After(Init(r, parentDone), actions) == s;
    AfterSnoc(Init(r, parentDone), actions, a);
  }

  /** Once every function has returned, the components finish in at most ComponentSteps steps, nobody else moving. */
  lemma {:induction false} ComponentsFinish(s: State) returns (actions: seq<Action>)
    requires Reachable(s) && AllReturned(s)
    ensures Runs(s, actions) && OnlyAdvances(actions) && |actions| <= ComponentSteps(s.components)
    ensures var t := After(s, actions); Reachable(t) && AllFinished(t) && t.main == s.main && t.registry == s.registry
    decreases ComponentSteps(s.components)
  {
    if i :| 0 <= i < |s.components| && StageLeft(s.components[i].stage) > 0 {
      AdvanceProgresses(s, i);
      ReachableStep(s, Advance(i));
      var rest := ComponentsFinish(Step(s, Advance(i)));
      Prepend(s, Advance(i), rest);
      actions := [Advance(i)] + rest;
    } else {
      actions := [];
    }
  }

  lemma EndWait(s: State)
    requires OnPlan(s) && s.main.phase.Draining? && AllFinished(s)
    ensures Runs(s, [SeeAllDone] + ([Proceed(true, None)] + []))
    ensures var m := After(s, [SeeAllDone] + ([Proceed(true, None)] + [])).main; m.phase.Closing? && !m.expired
  {
    Prepend(Step(s, SeeAllDone), Proceed(true, None), []);
    Prepend(s, SeeAllDone, [Proceed(true, None)] + []);
  }

  /** So if every function returns, Run's wait can end without the deadline. */
  lemma WaitCanEnd(s: State) returns (actions: seq<Action>)
    requires Reachable(s) && s.main.phase.Draining? && AllReturned(s)
    ensures Runs(s, actions) && Expire !in actions
    ensures After(s, actions).main.phase.Closing? && !After(s, actions).main.expired
  {
    var finish := ComponentsFinish(s);
    ReachableInv(After(s, finish));
    EndWait(After(s, finish));
    RunsAppend(s, finish, [SeeAllDone] + ([Proceed(true, None)] + []));
    actions := finish + ([SeeAllDone] + ([Proceed(true, None)] + []));
  }

  // ---------- what the plans mean ----------

  predicate Descending(ids: seq<nat>) {
    forall j, k :: 0 <= j < k < |ids| ==> ids[j] > ids[k]
  }

  lemma {:induction false} StopPlanMembers(servers: seq<bool>)
    ensures forall i: nat :: i in StopPlan(servers) <==> i < |servers| && servers[i]
  {
    if servers != [] {
      StopPlanMembers(servers[..|servers| - 1]);
    }
  }

  /** The plan of shutdowns holds exactly the servers with a shutdown function, in descending order. */
  lemma {:induction false} StopPlanMeaning(servers: seq<bool>)
    ensures forall i: nat :: i in StopPlan(servers) <==> i < |servers| && servers[i]
    ensures Descending(StopPlan(servers))
  {
    StopPlanMembers(servers);
    if servers != [] {
      var rest := StopPlan(servers[..|servers| - 1]);
      StopPlanMeaning(servers[..|servers| - 1]);
      forall j | 0 <= j < |rest|
        ensures rest[j] < |servers| - 1
      {
        assert rest[j] in rest;
      }
    }
  }

  lemma {:induction false} ClosePlanMeaning(n: nat)
    ensures |ClosePlan(n)| == n && forall j :: 0 <= j < n ==> ClosePlan(n)[j] == n - 1 - j
  {
    if n > 0 {
      ClosePlanMeaning(n - 1);
    }
  }
}
