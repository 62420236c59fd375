/**
 Where the errors of App.Run come from, over whole runs: what a component's function returned
 decides whether it is a failure, what is sent, and what Run can return.
 */
module AppFailures {
  import opened Common
  import opened AppLifecycle

  /** What the function of component i has returned in these actions, if it has. */
  function ReturnOf(past: seq<Action>, i: nat): Option<Option<int>> {
    if past == [] then None
    else var a := past[|past| - 1];
      if a.Return? && a.i == i then Some(a.err) else ReturnOf(past[..|past| - 1], i)
  }

  lemma ReturnOfSnoc(past: seq<Action>, a: Action, i: nat)
    ensures ReturnOf(past + [a], i) == if a.Return? && a.i == i then Some(a.err) else ReturnOf(past, i)
  {
    assert (past + [a])[..|past|] == past;
  }

  /** What a component is doing goes back to what its function returned. */
  predicate CauseOk(c: Component, returned: Option<Option<int>>) {
    && (c.failed <==> returned.Some? && returned.value.Some?)
    && (c.stage.Checking? ==> returned == Some(Some(c.stage.code)))
    && (c.stage.Sending? ==> returned == Some(Some(c.stage.code)))
    && (c.stage.Unspawned? || c.stage.Running? ==> returned == None)
  }

  /** An error on errCh is that of a component, with the code its function returned. */
  predicate SentOk(e: Error, past: seq<Action>) {
    e.ComponentFailed? && ReturnOf(past, e.component) == Some(Some(e.code))
  }

  predicate Causes(s: State, past: seq<Action>) {
    && (forall i :: 0 <= i < |s.components| ==> CauseOk(s.components[i], ReturnOf(past, i)))
    && (forall j :: 0 <= j < |s.shared.sent| ==> SentOk(s.shared.sent[j], past))
    && (forall j :: 0 <= j < |s.shared.sent| ==> HasSent(s, s.shared.sent[j]))
  }

  lemma StepKeepsCause(s: State, past: seq<Action>, a: Action, i: nat)
    requires Spawned(s) && Enabled(s, a) && i < |s.components| == |Step(s, a).components|
    requires CauseOk(s.components[i], ReturnOf(past, i))
    ensures CauseOk(Step(s, a).components[i], ReturnOf(past + [a], i))
  {
    ReturnOfSnoc(past, a, i);
  }

  lemma StepKeepsSent(s: State, past: seq<Action>, a: Action, j: nat)
    requires Causes(s, past) && Enabled(s, a) && j < |Step(s, a).shared.sent|
    ensures SentOk(Step(s, a).shared.sent[j], past + [a])
  {
    var e := Step(s, a).shared.sent[j];
    if j < |s.shared.sent| {
      assert SentOk(s.shared.sent[j], past) && HasSent(s, s.shared.sent[j]);
      assert CauseOk(s.components[e.component], ReturnOf(past, e.component));
    } else {
      assert CauseOk(s.components[a.i], ReturnOf(past, a.i));
    }
    ReturnOfSnoc(past, a, e.component);
  }

  lemma StepKeepsCauses(s: State, past: seq<Action>, a: Action)
    requires Spawned(s) && Causes(s, past) && Enabled(s, a) && Sends(Step(s, a))
    ensures Causes(Step(s, a), past + [a])
  {
    var t := Step(s, a);
    forall i | 0 <= i < |t.components|
      ensures CauseOk(t.components[i], ReturnOf(past + [a], i))
    {
      StepKeepsCause(s, past, a, i);
    }
    forall j | 0 <= j < |t.shared.sent|
      ensures SentOk(t.shared.sent[j], past + [a])
    {
      StepKeepsSent(s, past, a, j);
    }
  }

  /** No function returns twice, so the last return of a component is the only one. */
  predicate Once(past: seq<Action>) {
    forall k :: 0 <= k < |past| && past[k].Return? ==> ReturnOf(past, past[k].i) == Some(past[k].err)
  }

  lemma StepKeepsOnce(s: State, past: seq<Action>, a: Action)
    requires Causes(s, past) && Enabled(s, a) && Once(past)
    ensures Once(past + [a])
  {
    if a.Return? {
      assert CauseOk(s.components[a.i], ReturnOf(past, a.i));
    }
    var after := past + [a];
    forall k | 0 <= k < |after| && after[k].Return?
      ensures ReturnOf(after, after[k].i) == Some(after[k].err)
    {
      ReturnOfSnoc(past, a, after[k].i);
      assert k < |past| ==> after[k] == past[k];
    }
  }

  lemma TraceStep(s: State, past: seq<Action>, a: Action)
    requires Reachable(s) && Causes(s, past) && Once(past) && Enabled(s, a)
    ensures Reachable(Step(s, a)) && Causes(Step(s, a), past + [a]) && Once(past + [a])
  {
    ReachableInv(s);
    StepKeepsInv(s, a);
    ReachableStep(s, a);
    StepKeepsCauses(s, past, a);
    StepKeepsOnce(s, past, a);
  }

  lemma {:induction false} RunKeepsCauses(s: State, past: seq<Action>, actions: seq<Action>, all: seq<Action>)
    requires Reachable(s) && Causes(s, past) && Once(past) && Runs(s, actions) && all == past + actions
    ensures Causes(After(s, actions), all) && Once(all)
    decreases |actions|
  {
    if actions == [] {
      assert all == past;
    } else {
      TraceStep(s, past, actions[0]);
      RunKeepsCauses(Step(s, actions[0]), past + [actions[0]], actions[1..], all);
    }
  }

  lemma RunCauses(r: Registry, parentDone: bool, actions: seq<Action>)
    requires Runs(Init(r, parentDone), actions)
    ensures Causes(After(Init(r, parentDone), actions), actions) && Once(actions)
  {
    assert Runs(Init(r, parentDone), []) && After(Init(r, parentDone), []) == Init(r, parentDone);
    RunKeepsCauses(Init(r, parentDone), [], actions, actions);
  }

  lemma {:induction false} ReturnOfMeans(past: seq<Action>, i: nat)
    ensures ReturnOf(past, i).Some? ==> Return(i, ReturnOf(past, i).value) in past
    ensures ReturnOf(past, i).None? ==> forall err :: Return(i, err) !in past
  {
    if past != [] {
      ReturnOfMeans(past[..|past| - 1], i);
      assert past == past[..|past| - 1] + [past[|past| - 1]];
    }
  }

  /** In a run, ReturnOf is what the function of the component returned. */
  lemma ReturnOfExactly(r: Registry, parentDone: bool, actions: seq<Action>, i: nat, err: Option<int>)
    requires Runs(Init(r, parentDone), actions)
    ensures Return(i, err) in actions <==> ReturnOf(actions, i) == Some(err)
  {
    RunCauses(r, parentDone, actions);
    ReturnOfMeans(actions, i);
    if Return(i, err) in actions {
      var k :| 0 <= k < |actions| && actions[k] == Return(i, err);
      assert ReturnOf(actions, actions[k].i) == Some(actions[k].err);
    }
  }

  lemma SentIsOk(r: Registry, parentDone: bool, actions: seq<Action>, e: Error)
    requires Runs(Init(r, parentDone), actions) && e in After(Init(r, parentDone), actions).shared.sent
    ensures SentOk(e, actions)
  {
    RunCauses(r, parentDone, actions);
    var sent := After(Init(r, parentDone), actions).shared.sent;
    var j :| 0 <= j < |sent| && sent[j] == e;
    assert SentOk(sent[j], actions);
  }

  /** Over every run: whatever is sent on errCh is the error with which the function of that component returned. */
  lemma SentWasReturned(r: Registry, parentDone: bool, actions: seq<Action>, e: Error)
    requires Runs(Init(r, parentDone), actions) && e in After(Init(r, parentDone), actions).shared.sent
    ensures e.ComponentFailed? && Return(e.component, Some(e.code)) in actions
  {
    SentIsOk(r, parentDone, actions, e);
    ReturnOfMeans(actions, e.component);
  }

  /** Among these actions the function of component i returns an error. */
  predicate ReturnedError(actions: seq<Action>, i: nat) {
    exists k :: 0 <= k < |actions| && actions[k].Return? && actions[k].i == i && actions[k].err.Some?
  }

  /** A component counts as failed exactly when its function has returned an error. */
  lemma FailedExactly(r: Registry, parentDone: bool, actions: seq<Action>, i: nat)
    requires Runs(Init(r, parentDone), actions) && i < |After(Init(r, parentDone), actions).components|
    ensures After(Init(r, parentDone), actions).components[i].failed <==> ReturnedError(actions, i)
  {
    RunCauses(r, parentDone, actions);
    var c := After(Init(r, parentDone), actions).components[i];
    assert CauseOk(c, ReturnOf(actions, i));
    if c.failed {
      ReturnOfMeans(actions, i);
      var k :| 0 <= k < |actions| && actions[k] == Return(i, ReturnOf(actions, i).value);
      assert actions[k].err.Some?;
    }
    if ReturnedError(actions, i) {
      var k :| 0 <= k < |actions| && actions[k].Return? && actions[k].i == i && actions[k].err.Some?;
      assert ReturnOf(actions, actions[k].i) == Some(actions[k].err);
    }
  }

  /** A component whose function returned nil is no failure and sends nothing. */
  lemma NilSendsNothing(r: Registry, parentDone: bool, actions: seq<Action>, i: nat)
    requires Runs(Init(r, parentDone), actions) && i < |After(Init(r, parentDone), actions).components|
    requires Return(i, None) in actions
    ensures var t := After(Init(r, parentDone), actions);
      !t.components[i].failed && forall e :: e in t.shared.sent ==> e.ComponentFailed? && e.component != i
  {
    RunCauses(r, parentDone, actions);
    var t := After(Init(r, parentDone), actions);
    assert CauseOk(t.components[i], ReturnOf(actions, i));
    ReturnOfExactly(r, parentDone, actions, i, None);
    forall e | e in t.shared.sent
      ensures e.ComponentFailed? && e.component != i
    {
      SentIsOk(r, parentDone, actions, e);
    }
  }

  /** An error that Run received, and so returns, is one that a component's function returned. */
  lemma ReceivedWasReturned(r: Registry, parentDone: bool, actions: seq<Action>)
    requires Runs(Init(r, parentDone), actions)
    ensures var m := After(Init(r, parentDone), actions).main;
      && (m.runErr.Some? ==> m.runErr.value.ComponentFailed?
                             && Return(m.runErr.value.component, Some(m.runErr.value.code)) in actions)
      && (m.phase.Returned? && m.phase.result.Some? && m.phase.result.value.ComponentFailed? ==>
            Return(m.phase.result.value.component, Some(m.phase.result.value.code)) in actions)
  {
    InitInv(r, parentDone);
    RunKeepsInv(Init(r, parentDone), actions);
    var t := After(Init(r, parentDone), actions);
    if t.main.runErr.Some? {
      SentWasReturned(r, parentDone, actions, t.main.runErr.value);
    }
    FirstFailedAppend(t.main.stops, Call(0, None, false, false));
    FirstFailedAppend(t.main.closes, Call(0, None, false, false));
  }

  /** The steps of component i after its function has returned, up to its next action on shared state. */
  function Reports(i: nat, err: Option<int>, sends: bool): seq<Action> {
    [Return(i, err)] + (if err.None? then [Advance(i)] else if sends then [Advance(i)] + ([Advance(i)] + [Advance(i)])
                        else [Advance(i)] + [Advance(i)])
  }

  /**
   What a running component reports when its function returns: with the run context live, an
   error is sent, once and as it is, and then the run context is cancelled; with it cancelled,
   nothing is sent; and without an error nothing is sent and nothing is cancelled.
   */
  lemma ErrorIsReported(s: State, i: nat, err: Option<int>)
    requires Reachable(s) && i < |s.components| && s.components[i].stage.Running?
    ensures var actions := Reports(i, err, !s.shared.runDone);
      && Runs(s, actions)
      && var t := After(s, actions);
         && |t.components| == |s.components|
         && t.shared.sent == s.shared.sent
              + (if err.Some? && !s.shared.runDone then [ComponentFailed(i, err.value)] else [])
         && t.shared.runDone == (s.shared.runDone || err.Some?)
         && (err.Some? && !s.shared.runDone ==> t.components[i].stage.Leaving?)
         && (err.None? || s.shared.runDone ==> t.components[i].stage.Finished?)
         && t.main == s.main
  {
    var s1 := Step(s, Return(i, err));
    ReachableStep(s, Return(i, err));
    if err.None? {
      Prepend(s1, Advance(i), []);
      assert [Advance(i)] + [] == [Advance(i)];
      Prepend(s, Return(i, err), [Advance(i)]);
    } else {
      ReachableStep(s1, Advance(i));
      var s2 := Step(s1, Advance(i));
      SendNeverBlocks(s2);
      var s3 := Step(s2, Advance(i));
      assert [Advance(i)] + [] == [Advance(i)];
      if s.shared.runDone {
        Prepend(s2, Advance(i), []);
        Prepend(s1, Advance(i), [Advance(i)]);
        Prepend(s, Return(i, err), [Advance(i)] + [Advance(i)]);
      } else {
        Prepend(s3, Advance(i), []);
        Prepend(s2, Advance(i), [Advance(i)]);
        Prepend(s1, Advance(i), [Advance(i)] + [Advance(i)]);
        Prepend(s, Return(i, err), [Advance(i)] + ([Advance(i)] + [Advance(i)]));
      }
    }
  }
}
