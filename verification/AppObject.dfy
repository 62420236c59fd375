/**
 The App object: registration, and the sequential code of the shutdown with its two backward
 loops, tied to the protocol of AppLifecycle.
 */
module AppObject {
  import opened Common
  import opened AppLifecycle

  // ---------- registration ----------

  /** A registered server: its name, and whether it has a shutdown function. */
  datatype Server = Server(name: string, hasShutdown: bool)

  /** A call that registers something; nil runners and closers are ignored. */
  datatype Registration =
    | AddHTTP(name: string)
    | AddGRPC(name: string)
    | AddServer(name: string, hasShutdown: bool)
    | AddRunner(name: string, isNil: bool)
    | AddCloser(name: string, isNil: bool)

  function Named(name: string, default: string): string {
    if name == "" then default else name
  }

  /** The server a call registers. */
  function Served(call: Registration): Option<Server> {
    match call
    case AddHTTP(name) => Some(Server(Named(name, "http"), true))
    case AddGRPC(name) => Some(Server(Named(name, "grpc"), true))
    case AddServer(name, hasShutdown) => Some(Server(Named(name, "server"), hasShutdown))
    case _ => None
  }

  function ServersOf(calls: seq<Registration>): seq<Server> {
    if calls == [] then []
    else ServersOf(calls[..|calls| - 1])
         + match Served(calls[|calls| - 1])
           case Some(server) => [server]
           case None => []
  }

  function RunnersOf(calls: seq<Registration>): seq<string> {
    if calls == [] then []
    else RunnersOf(calls[..|calls| - 1])
         + match calls[|calls| - 1]
           case AddRunner(name, isNil) => if isNil then [] else [Named(name, "runner")]
           case _ => []
  }

  function ClosersOf(calls: seq<Registration>): seq<string> {
    if calls == [] then []
    else ClosersOf(calls[..|calls| - 1])
         + match calls[|calls| - 1]
           case AddCloser(name, isNil) => if isNil then [] else [Named(name, "closer")]
           case _ => []
  }

  /** What is to be shut down after these registrations: from the last call to the first, every server that can be. */
  function ToShutDown(calls: seq<Registration>): seq<string> {
    if calls == [] then []
    else var last := Served(calls[|calls| - 1]);
      (if last.Some? && last.value.hasShutdown then [last.value.name] else []) + ToShutDown(calls[..|calls| - 1])
  }

  /** What is to be closed: from the last call to the first, every closer that is not nil. */
  function ToClose(calls: seq<Registration>): seq<string> {
    if calls == [] then []
    else var last := calls[|calls| - 1];
      (if last.AddCloser? && !last.isNil then [Named(last.name, "closer")] else []) + ToClose(calls[..|calls| - 1])
  }

  /** What each kind of call registers: its name, or a default one, unless what it is given is nil. */
  lemma EachCallRegisters(calls: seq<Registration>, name: string, given: bool)
    ensures var n := if name == "" then "http" else name; var after := calls + [AddHTTP(name)];
      ServersOf(after) == ServersOf(calls) + [Server(n, true)] && ToShutDown(after) == [n] + ToShutDown(calls)
    ensures var n := if name == "" then "grpc" else name; var after := calls + [AddGRPC(name)];
      ServersOf(after) == ServersOf(calls) + [Server(n, true)] && ToShutDown(after) == [n] + ToShutDown(calls)
    ensures var n := if name == "" then "server" else name; var after := calls + [AddServer(name, given)];
      && ServersOf(after) == ServersOf(calls) + [Server(n, given)]
      && ToShutDown(after) == (if given then [n] else []) + ToShutDown(calls)
    ensures var n := if name == "" then "runner" else name;
      RunnersOf(calls + [AddRunner(name, !given)]) == RunnersOf(calls) + (if given then [n] else [])
    ensures var n := if name == "" then "closer" else name; var after := calls + [AddCloser(name, !given)];
      && ClosersOf(after) == ClosersOf(calls) + (if given then [n] else [])
      && ToClose(after) == (if given then [n] else []) + ToClose(calls)
  {
    assert forall c: Registration :: (calls + [c])[..|calls + [c]| - 1] == calls;
  }

  /** The calls that make Run start a goroutine. */
  function Startable(calls: seq<Registration>): nat {
    if calls == [] then 0
    else var last := calls[|calls| - 1];
      Startable(calls[..|calls| - 1])
      + (if last.AddHTTP? || last.AddGRPC? || last.AddServer? || (last.AddRunner? && !last.isNil) then 1 else 0)
  }

  /** Run starts one component for every server and every runner that is not nil, and no other. */
  lemma {:induction false} ComponentsOf(calls: seq<Registration>)
    ensures Components(Registry(Flags(ServersOf(calls)), |RunnersOf(calls)|, |ClosersOf(calls)|)) == Startable(calls)
  {
    if calls != [] {
      ComponentsOf(calls[..|calls| - 1]);
    }
  }

  function Flags(servers: seq<Server>): seq<bool> {
    seq(|servers|, i requires 0 <= i < |servers| => servers[i].hasShutdown)
  }

  function ServerNames(servers: seq<Server>): seq<string> {
    seq(|servers|, i requires 0 <= i < |servers| => servers[i].name)
  }

  /** The names at these places. */
  function Pick(names: seq<string>, places: seq<nat>): seq<string>
    requires forall p :: p in places ==> p < |names|
  {
    seq(|places|, i requires 0 <= i < |places| => (assert places[i] in places; names[places[i]]))
  }

  lemma PickMore(names: seq<string>, name: string, places: seq<nat>)
    requires forall p :: p in places ==> p < |names|
    ensures Pick(names + [name], places) == Pick(names, places)
    ensures Pick(names + [name], [|names|] + places) == [name] + Pick(names, places)
  {
    assert forall k :: 0 <= k < |places| ==> places[k] in places;
  }

  lemma ServerAdded(before: seq<Server>, s: Server)
    requires forall p :: p in StopPlan(Flags(before)) ==> p < |before|
    requires forall p :: p in StopPlan(Flags(before + [s])) ==> p < |before| + 1
    ensures Pick(ServerNames(before + [s]), StopPlan(Flags(before + [s])))
         == (if s.hasShutdown then [s.name] else []) + Pick(ServerNames(before), StopPlan(Flags(before)))
  {
    assert Flags(before + [s])[..|before|] == Flags(before);
    assert ServerNames(before + [s]) == ServerNames(before) + [s.name];
    PickMore(ServerNames(before), s.name, StopPlan(Flags(before)));
  }

  lemma {:induction false} ServersPlanned(calls: seq<Registration>)
    ensures var servers := ServersOf(calls); var plan := StopPlan(Flags(servers));
      && (forall p :: p in plan ==> p < |servers|)
      && Pick(ServerNames(servers), plan) == ToShutDown(calls)
  {
    var servers := ServersOf(calls);
    StopPlanMembers(Flags(servers));
    if calls != [] {
      var last := |calls| - 1;
      ServersPlanned(calls[..last]);
      var before := ServersOf(calls[..last]);
      if Served(calls[last]).Some? {
        ServerAdded(before, servers[|before|]);
      } else {
        assert servers == before;
      }
    }
  }

  lemma {:induction false} ClosersPlanned(calls: seq<Registration>)
    ensures var closers := ClosersOf(calls); var plan := ClosePlan(|closers|);
      && (forall p :: p in plan ==> p < |closers|)
      && Pick(closers, plan) == ToClose(calls)
  {
    if calls != [] {
      var last := calls[|calls| - 1];
      var before := ClosersOf(calls[..|calls| - 1]);
      ClosersPlanned(calls[..|calls| - 1]);
      if last.AddCloser? && !last.isNil {
        PickMore(before, Named(last.name, "closer"), ClosePlan(|before|));
        assert ClosePlan(|before| + 1) == [|before|] + ClosePlan(|before|);
      } else {
        assert ClosersOf(calls) == before;
      }
    }
  }

  /** Each call returned what its function returns, and saw the given readiness. */
  predicate Answered(calls: seq<Call>, results: seq<Option<int>>, ready: bool) {
    forall j :: 0 <= j < |calls| ==>
      calls[j].ready == ready && calls[j].target < |results| && calls[j].result == results[calls[j].target]
  }

  /** One more shutdown call: it was planned, was answered, and its error counts if it is the first. */
  lemma NextStop(stops: seq<Call>, c: Call, rest: seq<nat>, results: seq<Option<int>>)
    requires c.target < |results| && c.result == results[c.target] && Answered(stops, results, c.ready)
    ensures Targets(stops + [c]) + rest == Targets(stops) + ([c.target] + rest) && Answered(stops + [c], results, c.ready)
    ensures Precedence(stops + [c], false, [])
         == if Precedence(stops, false, []).None? && c.result.Some? then Some(ShutdownFailed(c.target, c.result.value))
            else Precedence(stops, false, [])
  {
    FirstFailedAppend(stops, c);
    TargetsSnoc(stops, c, rest);
  }

  /** One more close call, likewise. */
  lemma NextClose(closes: seq<Call>, c: Call, rest: seq<nat>, results: seq<Option<int>>)
    requires c.target < |results| && c.result == results[c.target] && Answered(closes, results, c.ready)
    ensures Targets(closes + [c]) + rest == Targets(closes) + ([c.target] + rest) && Answered(closes + [c], results, c.ready)
    ensures Precedence([], false, closes + [c])
         == if Precedence([], false, closes).None? && c.result.Some? then Some(CloseFailed(c.target, c.result.value))
            else Precedence([], false, closes)
  {
    FirstFailedAppend(closes, c);
    TargetsSnoc(closes, c, rest);
  }

  /** The App object: its registrations and readiness; calls is the history of what was registered. */
  class App {
    var ready: bool
    var servers: seq<Server>
    var runners: seq<string>
    var closers: seq<string>
    ghost var calls: seq<Registration>

    ghost predicate Valid()
      reads this
    {
      servers == ServersOf(calls) && runners == RunnersOf(calls) && closers == ClosersOf(calls)
    }

    constructor ()
      ensures Valid() && !ready && calls == []
    {
      ready, servers, runners, closers, calls := false, [], [], [], [];
    }

    /** An HTTP server always has a shutdown function, and so has a gRPC server. */
    method AddHTTP(name: string)
      requires Valid()
      modifies this`servers, this`calls
      ensures Valid() && calls == old(calls) + [Registration.AddHTTP(name)]
    {
      servers := servers + [Server(if name == "" then "http" else name, true)];
      calls := calls + [Registration.AddHTTP(name)];
    }

    method AddGRPC(name: string)
      requires Valid()
      modifies this`servers, this`calls
      ensures Valid() && calls == old(calls) + [Registration.AddGRPC(name)]
    {
      servers := servers + [Server(if name == "" then "grpc" else name, true)];
      calls := calls + [Registration.AddGRPC(name)];
    }

    /** The shutdown function of any other server may be missing. */
    method AddServer(name: string, hasShutdown: bool)
      requires Valid()
      modifies this`servers, this`calls
      ensures Valid() && calls == old(calls) + [Registration.AddServer(name, hasShutdown)]
    {
      servers := servers + [Server(if name == "" then "server" else name, hasShutdown)];
      calls := calls + [Registration.AddServer(name, hasShutdown)];
    }

    /** AddRunner, AddWorker and AddConsumer. */
    method AddRunner(name: string, isNil: bool)
      requires Valid()
      modifies this`runners, this`calls
      ensures Valid() && calls == old(calls) + [Registration.AddRunner(name, isNil)]
    {
      calls := calls + [Registration.AddRunner(name, isNil)];
      if isNil {
        return;
      }
      runners := runners + [if name == "" then "runner" else name];
    }

    /** AddCloser and AddCloseFunc. */
    method AddCloser(name: string, isNil: bool)
      requires Valid()
      modifies this`closers, this`calls
      ensures Valid() && calls == old(calls) + [Registration.AddCloser(name, isNil)]
    {
      calls := calls + [Registration.AddCloser(name, isNil)];
      if isNil {
        return;
      }
      closers := closers + [if name == "" then "closer" else name];
    }

    /** The first loop of the shutdown: stopResults are what the shutdown functions return. */
    method StopServers(stopResults: seq<Option<int>>) returns (shutdownErr: Option<Error>, stops: seq<Call>)
      requires |stopResults| == |servers|
      ensures Targets(stops) == StopPlan(Flags(servers))
      ensures Answered(stops, stopResults, ready)
      ensures shutdownErr == Precedence(stops, false, [])
    {
      shutdownErr, stops := None, [];
      var i := |servers|;
      ghost var flags := Flags(servers);
      assert flags[..i] == flags;
      while i > 0
        invariant 0 <= i <= |servers| == |flags|
        invariant Targets(stops) + StopPlan(flags[..i]) == StopPlan(flags)
        invariant Answered(stops, stopResults, ready)
        invariant shutdownErr == Precedence(stops, false, [])
      {
        i := i - 1;
        StopPlanStep(flags, i);
        if !servers[i].hasShutdown {
          continue;
        }
        var call := Call(i, stopResults[i], ready, false);
        NextStop(stops, call, StopPlan(flags[..i]), stopResults);
        stops := stops + [call];
        if stopResults[i].Some? && shutdownErr.None? {
          shutdownErr := Some(ShutdownFailed(i, stopResults[i].value));
        }
      }
    }

    /** The second loop: closeResults are what the close functions return, earlier is the error so far. */
    method CloseAll(earlier: Option<Error>, finished: bool, closeResults: seq<Option<int>>)
      returns (shutdownErr: Option<Error>, closes: seq<Call>)
      requires |closeResults| == |closers|
      ensures Targets(closes) == ClosePlan(|closers|)
      ensures Answered(closes, closeResults, ready)
      ensures shutdownErr == if earlier.Some? then earlier else Precedence([], false, closes)
    {
      shutdownErr, closes := earlier, [];
      var i := |closers|;
      while i > 0
        invariant 0 <= i <= |closers|
        invariant Targets(closes) + ClosePlan(i) == ClosePlan(|closers|)
        invariant Answered(closes, closeResults, ready)
        invariant shutdownErr == if earlier.Some? then earlier else Precedence([], false, closes)
      {
        i := i - 1;
        var call := Call(i, closeResults[i], ready, finished);
        NextClose(closes, call, ClosePlan(i), closeResults);
        closes := closes + [call];
        if closeResults[i].Some? && shutdownErr.None? {
          shutdownErr := Some(CloseFailed(i, closeResults[i].value));
        }
      }
    }

    /**
     Run after its select: runErr is what the select received, finished tells which branch
     the wait for the components takes. What is called are the registrations that can be,
     the last one first.
     */
    method ShutDown(runErr: Option<Error>, finished: bool, stopResults: seq<Option<int>>, closeResults: seq<Option<int>>)
      returns (result: Option<Error>, stops: seq<Call>, closes: seq<Call>)
      requires Valid() && |stopResults| == |servers| && |closeResults| == |closers|
      modifies this`ready
      ensures Valid() && !ready
      ensures Outcome(Flags(servers), |closers|, runErr, finished, stopResults, closeResults, result, stops, closes)
      ensures (forall p :: p in Targets(stops) ==> p < |servers|) && (forall p :: p in Targets(closes) ==> p < |closers|)
      ensures Pick(ServerNames(servers), Targets(stops)) == ToShutDown(calls)
      ensures Pick(closers, Targets(closes)) == ToClose(calls)
    {
      ready := false;
      ServersPlanned(calls);
      ClosersPlanned(calls);
      var shutdownErr;
      shutdownErr, stops := StopServers(stopResults);
      if !finished && shutdownErr.None? {
        shutdownErr := Some(DeadlineExceeded);
      }
      shutdownErr, closes := CloseAll(shutdownErr, finished, closeResults);
      if runErr.Some? {
        return runErr, stops, closes;
      }
      return shutdownErr, stops, closes;
    }
  }

  // ---------- the sequential code as a run ----------

  /** What the shutdown of an App with these servers and closers returns and calls. */
  predicate Outcome(servers: seq<bool>, closers: nat, runErr: Option<Error>, finished: bool,
                    stopResults: seq<Option<int>>, closeResults: seq<Option<int>>,
                    result: Option<Error>, stops: seq<Call>, closes: seq<Call>)
  {
    && Targets(stops) == StopPlan(servers) && Answered(stops, stopResults, false)
    && Targets(closes) == ClosePlan(closers) && Answered(closes, closeResults, false)
    && result == if runErr.Some? then runErr else Precedence(stops, !finished, closes)
  }

  /** The same calls with the same results, whatever could be observed of the components. */
  predicate SameCalls(a: seq<Call>, b: seq<Call>) {
    |a| == |b| && forall j :: 0 <= j < |a| ==> a[j].target == b[j].target && a[j].result == b[j].result && a[j].ready == b[j].ready
  }

  lemma {:induction false} SameFirstFailed(a: seq<Call>, b: seq<Call>)
    requires SameCalls(a, b)
    ensures FirstFailed(a).Some? <==> FirstFailed(b).Some?
    ensures FirstFailed(a).Some? ==> var x, y := FirstFailed(a).value, FirstFailed(b).value; x.target == y.target && x.result == y.result
  {
    if a != [] {
      SameFirstFailed(a[1..], b[1..]);
    }
  }

  lemma SamePrecedence(a: seq<Call>, b: seq<Call>, expired: bool, c: seq<Call>, d: seq<Call>)
    requires SameCalls(a, b) && SameCalls(c, d)
    ensures Precedence(a, expired, c) == Precedence(b, expired, d)
  {
    SameFirstFailed(a, b);
    SameFirstFailed(c, d);
  }

  lemma AnsweredAgree(a: seq<Call>, b: seq<Call>, results: seq<Option<int>>)
    requires Targets(a) == Targets(b) && Answered(a, results, false) && Answered(b, results, false)
    ensures SameCalls(a, b)
  {
    forall j | 0 <= j < |a|
      ensures a[j].target == b[j].target
    {
      assert Targets(a)[j] == Targets(b)[j];
    }
  }

  /** Where Run stands in its shutdown, having been answered as given so far. */
  ghost predicate Following(s: State, finished: bool, stopResults: seq<Option<int>>, closeResults: seq<Option<int>>) {
    Inv(s) && AnsweredSoFar(s, finished, stopResults, closeResults)
  }

  predicate AnsweredSoFar(s: State, finished: bool, stopResults: seq<Option<int>>, closeResults: seq<Option<int>>) {
    && !s.main.phase.Spawning? && !s.main.phase.Selecting?
    && (finished ==> AllFinished(s)) && (s.main.expired <==> Drained(s.main.phase) && !finished)
    && |stopResults| == |s.registry.servers| && |closeResults| == s.registry.closers
    && Answered(s.main.stops, stopResults, false) && Answered(s.main.closes, closeResults, false)
  }

  /** The next step of that shutdown: a call returns its result, and the wait ends as told. */
  function NextFollowing(s: State, finished: bool, stopResults: seq<Option<int>>, closeResults: seq<Option<int>>): Action {
    match s.main.phase
    case Stopping(left) => Proceed(true, if 0 < left <= |stopResults| then stopResults[left - 1] else None)
    case Draining =>
      if finished then (if s.shared.waited then Proceed(true, None) else SeeAllDone)
      else if s.shared.deadline then Proceed(false, None) else Expire
    case Closing(left) => Proceed(true, if 0 < left <= |closeResults| then closeResults[left - 1] else None)
    case _ => Proceed(true, None)
  }

  function FollowingLeft(s: State): nat {
    StepsLeft(s) + (if s.shared.deadline then 0 else 1) + (if s.shared.waited then 0 else 1)
  }

  lemma FollowingEnabled(s: State, finished: bool, stopResults: seq<Option<int>>, closeResults: seq<Option<int>>)
    requires Following(s, finished, stopResults, closeResults) && !s.main.phase.Returned?
    ensures var a := NextFollowing(s, finished, stopResults, closeResults);
      Enabled(s, a) && FollowingLeft(Step(s, a)) < FollowingLeft(s)
  {
    StepDecreases(s, NextFollowing(s, finished, stopResults, closeResults));
  }

  lemma AnsweredSnoc(calls: seq<Call>, c: Call, results: seq<Option<int>>)
    requires Answered(calls, results, false) && !c.ready && c.target < |results| && c.result == results[c.target]
    ensures Answered(calls + [c], results, false)
  {
  }

  lemma StopFollows(s: State, finished: bool, stopResults: seq<Option<int>>, closeResults: seq<Option<int>>)
    requires OnPlan(s) && !s.shared.ready && AnsweredSoFar(s, finished, stopResults, closeResults)
    requires s.main.phase.Stopping? || s.main.phase.Closing?
    ensures AnsweredSoFar(Step(s, NextFollowing(s, finished, stopResults, closeResults)), finished, stopResults, closeResults)
  {
    var left, m := s.main.phase.left, Step(s, NextFollowing(s, finished, stopResults, closeResults)).main;
    if m.stops != s.main.stops {
      AnsweredSnoc(s.main.stops, m.stops[|s.main.stops|], stopResults);
    }
    if m.closes != s.main.closes {
      ClosePlanMeaning(left);
      ClosePlanMeaning(s.registry.closers);
      assert |Targets(s.main.closes) + ClosePlan(left)| == |ClosePlan(s.registry.closers)|;
      AnsweredSnoc(s.main.closes, m.closes[|s.main.closes|], closeResults);
    }
  }

  lemma WaitFollows(s: State, finished: bool, stopResults: seq<Option<int>>, closeResults: seq<Option<int>>)
    requires AnsweredSoFar(s, finished, stopResults, closeResults) && !s.main.phase.Returned?
    requires !s.main.phase.Stopping? && !s.main.phase.Closing?
    requires Enabled(s, NextFollowing(s, finished, stopResults, closeResults))
    ensures AnsweredSoFar(Step(s, NextFollowing(s, finished, stopResults, closeResults)), finished, stopResults, closeResults)
  {
  }

  lemma AnswersKept(s: State, finished: bool, stopResults: seq<Option<int>>, closeResults: seq<Option<int>>)
    requires OnPlan(s) && Readiness(s) && AnsweredSoFar(s, finished, stopResults, closeResults) && !s.main.phase.Returned?
    requires Enabled(s, NextFollowing(s, finished, stopResults, closeResults))
    ensures var t := Step(s, NextFollowing(s, finished, stopResults, closeResults));
      && AnsweredSoFar(t, finished, stopResults, closeResults)
      && t.registry == s.registry && t.main.runErr == s.main.runErr
  {
    if s.main.phase.Stopping? || s.main.phase.Closing? {
      StopFollows(s, finished, stopResults, closeResults);
    } else {
      WaitFollows(s, finished, stopResults, closeResults);
    }
  }

  lemma FollowingKept(s: State, finished: bool, stopResults: seq<Option<int>>, closeResults: seq<Option<int>>)
    requires Following(s, finished, stopResults, closeResults) && !s.main.phase.Returned?
    requires Enabled(s, NextFollowing(s, finished, stopResults, closeResults))
    ensures var t := Step(s, NextFollowing(s, finished, stopResults, closeResults));
      Following(t, finished, stopResults, closeResults) && t.registry == s.registry && t.main.runErr == s.main.runErr
  {
    StepKeepsInv(s, NextFollowing(s, finished, stopResults, closeResults));
    AnswersKept(s, finished, stopResults, closeResults);
  }

  lemma {:induction false} Follow(s: State, finished: bool, stopResults: seq<Option<int>>, closeResults: seq<Option<int>>)
    returns (actions: seq<Action>)
    requires Following(s, finished, stopResults, closeResults)
    ensures Runs(s, actions)
    ensures var t := After(s, actions);
      && t.main.phase.Returned? && t.registry == s.registry && t.main.runErr == s.main.runErr
      && Following(t, finished, stopResults, closeResults)
    decreases FollowingLeft(s)
  {
    if s.main.phase.Returned? {
      actions := [];
    } else {
      var a := NextFollowing(s, finished, stopResults, closeResults);
      FollowingEnabled(s, finished, stopResults, closeResults);
      FollowingKept(s, finished, stopResults, closeResults);
      var rest := Follow(Step(s, a), finished, stopResults, closeResults);
      Prepend(s, a, rest);
      actions := [a] + rest;
    }
  }

  /** The functions of the components from k on return, without an error. */
  lemma {:induction false} FunctionsReturn(s: State, k: nat) returns (actions: seq<Action>)
    requires Reachable(s) && k <= |s.components|
    requires forall i :: 0 <= i < |s.components| ==>
      !s.components[i].stage.Unspawned? && (i < k ==> !s.components[i].stage.Running?)
    ensures Runs(s, actions)
    ensures var t := After(s, actions); Reachable(t) && AllReturned(t) && t.main == s.main && t.registry == s.registry
    decreases |s.components| - k
  {
    if k == |s.components| {
      actions := [];
    } else if s.components[k].stage.Running? {
      ReachableStep(s, Return(k, None));
      var rest := FunctionsReturn(Step(s, Return(k, None)), k + 1);
      Prepend(s, Return(k, None), rest);
      actions := [Return(k, None)] + rest;
    } else {
      actions := FunctionsReturn(s, k + 1);
    }
  }

  /** The components finish, nothing else happening. */
  lemma EverythingFinishes(s: State) returns (actions: seq<Action>)
    requires Reachable(s) && Started(s.main.phase)
    ensures Runs(s, actions)
    ensures var t := After(s, actions); Reachable(t) && AllFinished(t) && t.main == s.main && t.registry == s.registry
  {
    ReachableInv(s);
    var first := FunctionsReturn(s, 0);
    var second := ComponentsFinish(After(s, first));
    RunsAppend(s, first, second);
    actions := first + second;
  }

  /**
   Every outcome of App.ShutDown is that of a run of the protocol from the end of its select:
   Run returns the same result after the same calls.
   */
  lemma ShutDownRuns(s: State, finished: bool, stopResults: seq<Option<int>>, closeResults: seq<Option<int>>,
                     result: Option<Error>, stops: seq<Call>, closes: seq<Call>) returns (actions: seq<Action>)
    requires Reachable(s) && s.main.phase.ClearReady?
    requires |stopResults| == |s.registry.servers| && |closeResults| == s.registry.closers
    requires Outcome(s.registry.servers, s.registry.closers, s.main.runErr, finished, stopResults, closeResults, result, stops, closes)
    ensures Runs(s, actions)
    ensures var m := After(s, actions).main;
      m.phase == Returned(result) && SameCalls(m.stops, stops) && SameCalls(m.closes, closes)
  {
    ReachableInv(s);
    var first := [];
    if finished {
      first := EverythingFinishes(s);
    }
    var t := After(s, first);
    ReachableInv(t);
    assert t.main.stops == [] && t.main.closes == [];
    var second := Follow(t, finished, stopResults, closeResults);
    RunsAppend(s, first, second);
    actions := first + second;
    var m := After(s, actions).main;
    AnsweredAgree(m.stops, stops, stopResults);
    AnsweredAgree(m.closes, closes, closeResults);
    SamePrecedence(m.stops, stops, !finished, m.closes, closes);
  }
}
