/**
 The sequential tick of Relay, seen as steps of one relay in the system of Outbox: whatever a
 tick returns, and however other relays, the store and the clock interleave with it, the
 system runs, and the tickets of the tick end as its iterations say.
 */
module RelayRuns {
  import opened Common
  import R = Relay
  import opened Outbox

  /** The next step of the loop of a tick: in iteration k, or none once the loop is left. */
  datatype Place = CheckAt(k: nat) | PublishAt(k: nat) | MarkAt(k: nat) | Left

  /** A tick that completes the given iterations leaves its loop at the check after them. */
  predicate Within(p: Place, its: seq<R.Iteration>) {
    match p
    case CheckAt(k) => k <= |its|
    case PublishAt(k) => k < |its|
    case MarkAt(k) => k < |its|
    case Left => true
  }

  function Next(p: Place, its: seq<R.Iteration>): Place {
    match p
    case CheckAt(k) => if k < |its| then PublishAt(k) else Left
    case PublishAt(k) => MarkAt(k)
    case MarkAt(k) => CheckAt(k + 1)
    case Left => Left
  }

  /** The action is that step, with the outcome its iteration records. */
  predicate Plays(a: Action, r: RelayId, its: seq<R.Iteration>, p: Place)
    requires Within(p, its)
  {
    match p
    case CheckAt(_) => a == Check(r)
    case PublishAt(k) =>
      a.Publish? && a.relay == r && PublishOk(a.confirm) == its[k].publishErr.None? && (a.confirm.Acked? ==> a.brokerAck)
    case MarkAt(k) => a.Mark? && a.relay == r && a.reported == !its[k].markFailed
    case Left => false
  }

  /** A context check finds what the tick found there. */
  predicate Finds(s: State, r: RelayId, its: seq<R.Iteration>, cancelled: bool, p: Place) {
    p.CheckAt? ==> if p.k < |its| then r !in s.stopped else cancelled ==> r in s.stopped
  }

  /**
   The actions are the steps of the loop from the given place on, in order, woven into steps of
   the others. Only the others are asked to be able to take theirs.
   */
  predicate Woven(s: State, actions: seq<Action>, r: RelayId, its: seq<R.Iteration>, cancelled: bool, p: Place)
    requires Within(p, its)
    decreases |actions|
  {
    if actions == [] then p.Left?
    else if ActsFor(actions[0], r) then
      && Plays(actions[0], r, its, p) && Finds(s, r, its, cancelled, p)
      && (Enabled(s, actions[0]) ==> Woven(Step(s, actions[0]), actions[1..], r, its, cancelled, Next(p, its)))
    else Enabled(s, actions[0]) && Woven(Step(s, actions[0]), actions[1..], r, its, cancelled, p)
  }

  /** What an iteration made of its ticket. */
  predicate Reflects(t: Ticket, it: R.Iteration) {
    && t.publishes == 1 && t.confirmed == it.publishErr.None?
    && t.markedPublished == (if it.publishErr.None? then 1 else 0)
    && t.markedFailed == (if it.publishErr.None? then 0 else 1)
  }

  /** Where the relay stands at a place. */
  function PcAt(queue: seq<nat>, its: seq<R.Iteration>, p: Place): RelayPc
    requires |its| <= |queue| && Within(p, its)
  {
    match p
    case CheckAt(k) => Checking(queue[k..])
    case PublishAt(k) => Publishing(queue[k..])
    case MarkAt(k) => Marking(queue[k..], its[k].publishErr.None?)
    case Left => Idle
  }

  /** How the ticket of the j-th event stands at a place. */
  predicate TicketAt(t: Ticket, its: seq<R.Iteration>, j: nat, p: Place) {
    if j < |its| && (p.Left? || j < p.k) then Reflects(t, its[j])
    else if j < |its| && p == MarkAt(j) then t.publishes == 1 && t.confirmed == its[j].publishErr.None? && !IsMarked(t)
    else Untouched(t)
  }

  /** The relay is at that place in its loop over the given events, whose tickets form the queue. */
  predicate AtPlace(s: State, r: RelayId, queue: seq<nat>, events: seq<R.Event>, its: seq<R.Iteration>, p: Place) {
    && |its| <= |queue| == |events| && Within(p, its) && PcOf(s, r) == PcAt(queue, its, p)
    && (forall j :: 0 <= j < |queue| ==> queue[j] < |s.tickets| && s.tickets[queue[j]].relay == r)
    && (forall j :: 0 <= j < |queue| ==> s.tickets[queue[j]].event == events[j].id && TicketAt(s.tickets[queue[j]], its, j, p))
    && (forall i, j :: 0 <= i < j < |queue| ==> queue[i] < queue[j])
  }

  lemma OwnCheck(s: State, r: RelayId, queue: seq<nat>, events: seq<R.Event>, its: seq<R.Iteration>, cancelled: bool, k: nat)
    requires AtPlace(s, r, queue, events, its, CheckAt(k)) && (cancelled <==> |its| < |queue|)
    requires Finds(s, r, its, cancelled, CheckAt(k))
    ensures Enabled(s, Check(r)) && AtPlace(Step(s, Check(r)), r, queue, events, its, Next(CheckAt(k), its))
  {
    forall j | 0 <= j < |queue|
      ensures TicketAt(s.tickets[queue[j]], its, j, Next(CheckAt(k), its))
    {
      assert TicketAt(s.tickets[queue[j]], its, j, CheckAt(k));
    }
  }

  lemma OwnPublish(s: State, a: Action, r: RelayId, queue: seq<nat>, events: seq<R.Event>, its: seq<R.Iteration>, k: nat)
    requires AtPlace(s, r, queue, events, its, PublishAt(k)) && Plays(a, r, its, PublishAt(k))
    ensures Enabled(s, a) && AtPlace(Step(s, a), r, queue, events, its, MarkAt(k))
  {
    assert queue[k..][0] == queue[k];
    var t := Step(s, a);
    forall j | 0 <= j < |queue|
      ensures TicketAt(t.tickets[queue[j]], its, j, MarkAt(k)) && t.tickets[queue[j]].event == events[j].id
    {
      assert TicketAt(s.tickets[queue[j]], its, j, PublishAt(k));
      assert j != k ==> queue[j] != queue[k] && t.tickets[queue[j]] == s.tickets[queue[j]];
    }
  }

  lemma OwnMark(s: State, a: Action, r: RelayId, queue: seq<nat>, events: seq<R.Event>, its: seq<R.Iteration>, k: nat)
    requires AtPlace(s, r, queue, events, its, MarkAt(k)) && Plays(a, r, its, MarkAt(k))
    ensures Enabled(s, a) && AtPlace(Step(s, a), r, queue, events, its, CheckAt(k + 1))
  {
    assert queue[k..][0] == queue[k] && queue[k..][1..] == queue[k + 1..];
    var t := Step(s, a);
    forall j | 0 <= j < |queue|
      ensures TicketAt(t.tickets[queue[j]], its, j, CheckAt(k + 1)) && t.tickets[queue[j]].event == events[j].id
    {
      assert TicketAt(s.tickets[queue[j]], its, j, MarkAt(k));
      assert j != k ==> queue[j] != queue[k] && t.tickets[queue[j]] == s.tickets[queue[j]];
    }
  }

  /** The relay can always take the step it is at. */
  lemma OwnStep(s: State, a: Action, r: RelayId, queue: seq<nat>, events: seq<R.Event>, its: seq<R.Iteration>,
                cancelled: bool, p: Place)
    requires AtPlace(s, r, queue, events, its, p) && (cancelled <==> |its| < |queue|)
    requires Plays(a, r, its, p) && Finds(s, r, its, cancelled, p)
    ensures Enabled(s, a) && AtPlace(Step(s, a), r, queue, events, its, Next(p, its))
  {
    match p
    case CheckAt(k) => OwnCheck(s, r, queue, events, its, cancelled, k);
    case PublishAt(k) => OwnPublish(s, a, r, queue, events, its, k);
    case MarkAt(k) => OwnMark(s, a, r, queue, events, its, k);
    case Left =>
  }

  /** Steps of the others leave it where it is. */
  lemma OtherStep(s: State, a: Action, r: RelayId, queue: seq<nat>, events: seq<R.Event>, its: seq<R.Iteration>, p: Place)
    requires Inv(s) && AtPlace(s, r, queue, events, its, p) && Enabled(s, a) && !ActsFor(a, r)
    ensures AtPlace(Step(s, a), r, queue, events, its, p)
  {
    if a.Publish? || a.Mark? {
      assert QueueOk(s, a.relay);
    }
    assert PcOf(Step(s, a), r) == PcOf(s, r);
    forall j | 0 <= j < |queue|
      ensures TicketAt(Step(s, a).tickets[queue[j]], its, j, p)
    {
      assert TicketAt(s.tickets[queue[j]], its, j, p);
    }
  }

  /** Every interleaving of the loop of a tick with steps of the others is a run, and ends with the tick done. */
  lemma {:induction false} LoopRuns(s: State, actions: seq<Action>, r: RelayId, queue: seq<nat>, events: seq<R.Event>,
                                    its: seq<R.Iteration>, cancelled: bool, p: Place)
    requires Inv(s) && AtPlace(s, r, queue, events, its, p) && (cancelled <==> |its| < |queue|)
    requires Woven(s, actions, r, its, cancelled, p)
    ensures Runs(s, actions) && AtPlace(After(s, actions), r, queue, events, its, Left)
    decreases |actions|
  {
    if actions != [] {
      var a := actions[0];
      if ActsFor(a, r) {
        OwnStep(s, a, r, queue, events, its, cancelled, p);
      } else {
        OtherStep(s, a, r, queue, events, its, p);
      }
      StepKeepsInv(s, a);
      LoopRuns(Step(s, a), actions[1..], r, queue, events, its, cancelled, if ActsFor(a, r) then Next(p, its) else p);
    }
  }

  function Ids(events: seq<R.Event>): seq<EventId> {
    seq(|events|, i requires 0 <= i < |events| => events[i].id)
  }

  function Tickets(s: State, events: seq<R.Event>): seq<nat> {
    seq(|events|, k => |s.tickets| + k)
  }

  /** The tickets of a tick, in the order of its events. */
  predicate Accounts(tickets: seq<Ticket>, events: seq<R.Event>, its: seq<R.Iteration>) {
    |its| <= |events| == |tickets| &&
    forall k :: 0 <= k < |tickets| ==>
      tickets[k].event == events[k].id && (if k < |its| then Reflects(tickets[k], its[k]) else Untouched(tickets[k]))
  }

  lemma ClaimStarts(s: State, r: RelayId, events: seq<R.Event>, its: seq<R.Iteration>)
    requires Enabled(s, Claim(r, Ids(events), true)) && |its| <= |events|
    ensures AtPlace(Step(s, Claim(r, Ids(events), true)), r, Tickets(s, events), events, its, CheckAt(0))
  {
    var queue, t := Tickets(s, events), Step(s, Claim(r, Ids(events), true));
    assert queue[0..] == queue && PcOf(t, r) == Checking(queue);
    forall k | 0 <= k < |queue|
      ensures queue[k] < |t.tickets| && Untouched(t.tickets[queue[k]])
      ensures t.tickets[queue[k]].relay == r && t.tickets[queue[k]].event == events[k].id
    {
    }
  }

  /**
   Every tick is a run: whatever events, iterations and cancellation R.Relay.Tick may return,
   an idle relay that can claim those events can do just that, in every interleaving with the
   others in which its context checks find what they found. It ends idle; the ticket of each
   processed event reflects its iteration, and those of the rest are untouched.
   */
  lemma TickRuns(s: State, r: RelayId, events: seq<R.Event>, its: seq<R.Iteration>, cancelled: bool, actions: seq<Action>)
    requires Reachable(s) && Enabled(s, Claim(r, Ids(events), true))
    requires |its| <= |events| && (cancelled <==> |its| < |events|)
    requires forall i :: 0 <= i < |its| ==> its[i].event == events[i]
    requires Woven(Step(s, Claim(r, Ids(events), true)), actions, r, its, cancelled, CheckAt(0))
    ensures var run, n := [Claim(r, Ids(events), true)] + actions, |s.tickets|;
      && Runs(s, run) && PcOf(After(s, run), r).Idle? && n + |events| <= |After(s, run).tickets|
      && Accounts(After(s, run).tickets[n..n + |events|], events, its)
  {
    ReachableInv(s);
    var claim, n := Claim(r, Ids(events), true), |s.tickets|;
    var s1, queue := Step(s, claim), Tickets(s, events);
    StepKeepsInv(s, claim);
    ClaimStarts(s, r, events, its);
    LoopRuns(s1, actions, r, queue, events, its, cancelled, CheckAt(0));
    Prepend(s, claim, actions);
    TicketsStay(s1, actions);
    DoneAccounts(After(s1, actions), r, n, events, its);
  }

  lemma DoneAccounts(t: State, r: RelayId, n: nat, events: seq<R.Event>, its: seq<R.Iteration>)
    requires AtPlace(t, r, seq(|events|, k => n + k), events, its, Left) && n + |events| <= |t.tickets|
    ensures Accounts(t.tickets[n..n + |events|], events, its)
  {
    var queue: seq<nat> := seq(|events|, k => n + k);
    forall k | 0 <= k < |events|
      ensures t.tickets[n..n + |events|][k].event == events[k].id
      ensures if k < |its| then Reflects(t.tickets[n..n + |events|][k], its[k]) else Untouched(t.tickets[n..n + |events|][k])
    {
      assert queue[k] == n + k && TicketAt(t.tickets[queue[k]], its, k, Left);
    }
  }

  lemma {:induction false} TicketsStay(s: State, actions: seq<Action>)
    requires Runs(s, actions)
    ensures |s.tickets| <= |After(s, actions).tickets|
    decreases |actions|
  {
    if actions != [] {
      TicketsStay(Step(s, actions[0]), actions[1..]);
    }
  }

  /** A step that plays a place. */
  function Played(r: RelayId, its: seq<R.Iteration>, p: Place): Action
    requires Within(p, its)
  {
    match p
    case PublishAt(k) => var ok := its[k].publishErr.None?; Publish(r, if ok then Acked else Nacked, ok)
    case MarkAt(k) => Mark(r, !its[k].markFailed, !its[k].markFailed)
    case _ => Check(r)
  }

  function PlacesLeft(p: Place, n: nat): int {
    match p
    case CheckAt(k) => 3 * (n - k) + 1
    case PublishAt(k) => 3 * (n - k)
    case MarkAt(k) => 3 * (n - k) - 1
    case Left => 0
  }

  /** The rest of the loop of a tick, undisturbed. */
  lemma {:induction false} LoopAlone(s: State, r: RelayId, queue: seq<nat>, events: seq<R.Event>, its: seq<R.Iteration>,
                                     cancelled: bool, p: Place) returns (actions: seq<Action>)
    requires AtPlace(s, r, queue, events, its, p) && (cancelled <==> |its| < |queue|) && r !in s.stopped && !p.Left?
    ensures Woven(s, actions, r, its, cancelled, p)
    decreases PlacesLeft(p, |its|)
  {
    if p == CheckAt(|its|) && cancelled {
      actions := [Cancel(r), Check(r)];
      assert actions[1..] == [Check(r)] && [Check(r)][1..] == [];
    } else if p == CheckAt(|its|) {
      actions := [Check(r)];
      assert actions[1..] == [];
    } else {
      var a := Played(r, its, p);
      OwnStep(s, a, r, queue, events, its, cancelled, p);
      var rest := LoopAlone(Step(s, a), r, queue, events, its, cancelled, Next(p, its));
      actions := [a] + rest;
      assert actions[1..] == rest;
    }
  }

  /** There always is such an interleaving: the tick on its own. */
  lemma TickAlone(s: State, r: RelayId, events: seq<R.Event>, its: seq<R.Iteration>, cancelled: bool)
    returns (actions: seq<Action>)
    requires r !in s.stopped && Enabled(s, Claim(r, Ids(events), true))
    requires |its| <= |events| && (cancelled <==> |its| < |events|)
    ensures Woven(Step(s, Claim(r, Ids(events), true)), actions, r, its, cancelled, CheckAt(0))
  {
    ClaimStarts(s, r, events, its);
    actions := LoopAlone(Step(s, Claim(r, Ids(events), true)), r, Tickets(s, events), events, its, cancelled, CheckAt(0));
  }

  // ---------- the log of the tick and the run ----------

  /** A call of the store or the publisher, as far as the two have it in common. */
  datatype StoreCall =
    | Claims(ids: seq<EventId>)
    | Publishes(id: EventId, ok: bool)
    | MarksPublished(id: EventId, failed: bool)
    | MarksFailed(id: EventId, failed: bool)

  /** The calls an entry of the log of a tick stands for. */
  function Logged(op: R.Op): seq<StoreCall> {
    match op
    case ClaimBatch(_, Some(events)) => [Claims(Ids(events))]
    case ClaimBatch(_, None) => []
    case CtxErr(_) => []
    case PublishWithConfirm(_, _, id, err) => [Publishes(id, err.None?)]
    case MarkPublished(id, failed) => [MarksPublished(id, failed)]
    case MarkFailed(id, _, _, failed) => [MarksFailed(id, failed)]
  }

  function LogCalls(log: seq<R.Op>): seq<StoreCall> {
    if log == [] then [] else LogCalls(log[..|log| - 1]) + Logged(log[|log| - 1])
  }

  /** The call a step of a relay makes; which mark it is can be seen from the ticket. */
  function Made(s: State, a: Action, r: RelayId): seq<StoreCall>
    requires Enabled(s, a)
  {
    if !ActsFor(a, r) then []
    else match a
      case Claim(_, events, _) => [Claims(events)]
      case Publish(_, confirm, _) =>
        var q := Queue(PcOf(s, r));
        if q == [] || q[0] >= |s.tickets| then [] else [Publishes(s.tickets[q[0]].event, PublishOk(confirm))]
      case Mark(_, _, reported) =>
        var q := Queue(PcOf(s, r));
        if q == [] || q[0] >= |s.tickets| || q[0] >= |Step(s, a).tickets| then []
        else if Step(s, a).tickets[q[0]].markedPublished > s.tickets[q[0]].markedPublished
        then [MarksPublished(s.tickets[q[0]].event, !reported)]
        else [MarksFailed(s.tickets[q[0]].event, !reported)]
      case _ => []
  }

  /** The calls relay r makes in a run. */
  function Trace(s: State, actions: seq<Action>, r: RelayId): seq<StoreCall>
    requires Runs(s, actions)
    decreases |actions|
  {
    if actions == [] then [] else Made(s, actions[0], r) + Trace(Step(s, actions[0]), actions[1..], r)
  }

  /** The mark the k-th iteration ends with. */
  function MarkOf(it: R.Iteration): StoreCall {
    if it.publishErr.None? then MarksPublished(it.event.id, it.markFailed) else MarksFailed(it.event.id, it.markFailed)
  }

  function CallsFrom(its: seq<R.Iteration>, k: nat): seq<StoreCall>
    requires k <= |its|
    decreases |its| - k
  {
    if k == |its| then []
    else [Publishes(its[k].event.id, its[k].publishErr.None?)] + ([MarkOf(its[k])] + CallsFrom(its, k + 1))
  }

  /** The calls still to come at a place. */
  function CallsAt(its: seq<R.Iteration>, p: Place): seq<StoreCall>
    requires Within(p, its)
  {
    match p
    case CheckAt(k) => CallsFrom(its, k)
    case PublishAt(k) => CallsFrom(its, k)
    case MarkAt(k) => [MarkOf(its[k])] + CallsFrom(its, k + 1)
    case Left => []
  }

  lemma OwnPublishMakes(s: State, a: Action, r: RelayId, queue: seq<nat>, events: seq<R.Event>, its: seq<R.Iteration>, k: nat)
    requires k < |its| && AtPlace(s, r, queue, events, its, PublishAt(k)) && Plays(a, r, its, PublishAt(k)) && Enabled(s, a)
    requires its[k].event == events[k]
    ensures Made(s, a, r) == [Publishes(its[k].event.id, its[k].publishErr.None?)]
  {
    assert queue[k..][0] == queue[k];
  }

  lemma OwnMarkMakes(s: State, a: Action, r: RelayId, queue: seq<nat>, events: seq<R.Event>, its: seq<R.Iteration>, k: nat)
    requires k < |its| && AtPlace(s, r, queue, events, its, MarkAt(k)) && Plays(a, r, its, MarkAt(k)) && Enabled(s, a)
    requires its[k].event == events[k]
    ensures Made(s, a, r) == [MarkOf(its[k])]
  {
    assert queue[k..][0] == queue[k];
    assert TicketAt(s.tickets[queue[k]], its, k, MarkAt(k));
  }

  lemma OwnStepMakes(s: State, a: Action, r: RelayId, queue: seq<nat>, events: seq<R.Event>, its: seq<R.Iteration>, p: Place)
    requires AtPlace(s, r, queue, events, its, p) && Plays(a, r, its, p) && Enabled(s, a)
    requires forall k :: 0 <= k < |its| ==> its[k].event == events[k]
    ensures Made(s, a, r) + CallsAt(its, Next(p, its)) == CallsAt(its, p)
  {
    match p
    case CheckAt(k) =>
    case PublishAt(k) => OwnPublishMakes(s, a, r, queue, events, its, k);
    case MarkAt(k) => OwnMarkMakes(s, a, r, queue, events, its, k);
    case Left =>
  }

  lemma {:induction false} LoopTrace(s: State, actions: seq<Action>, r: RelayId, queue: seq<nat>, events: seq<R.Event>,
                                     its: seq<R.Iteration>, cancelled: bool, p: Place)
    requires Inv(s) && AtPlace(s, r, queue, events, its, p) && (cancelled <==> |its| < |queue|)
    requires forall k :: 0 <= k < |its| ==> its[k].event == events[k]
    requires Woven(s, actions, r, its, cancelled, p) && Runs(s, actions)
    ensures Trace(s, actions, r) == CallsAt(its, p)
    decreases |actions|
  {
    if actions != [] {
      var a := actions[0];
      StepKeepsInv(s, a);
      if ActsFor(a, r) {
        OwnStep(s, a, r, queue, events, its, cancelled, p);
        OwnStepMakes(s, a, r, queue, events, its, p);
        LoopTrace(Step(s, a), actions[1..], r, queue, events, its, cancelled, Next(p, its));
      } else {
        OtherStep(s, a, r, queue, events, its, p);
        LoopTrace(Step(s, a), actions[1..], r, queue, events, its, cancelled, p);
      }
    }
  }

  lemma Regroup(a: seq<StoreCall>, b: seq<StoreCall>, c: seq<StoreCall>)
    ensures (a + b) + c == a + (b + c)
  {
  }

  lemma {:induction false} LogCallsAppend(a: seq<R.Op>, b: seq<R.Op>)
    ensures LogCalls(a + b) == LogCalls(a) + LogCalls(b)
    decreases |b|
  {
    if b == [] {
      assert a + b == a;
    } else {
      var last := |b| - 1;
      assert (a + b)[..|a + b| - 1] == a + b[..last] && (a + b)[|a + b| - 1] == b[last];
      LogCallsAppend(a, b[..last]);
      Regroup(LogCalls(a), LogCalls(b[..last]), Logged(b[last]));
    }
  }

  lemma OneCall(op: R.Op)
    ensures LogCalls([op]) == Logged(op)
  {
    assert [op][..0] == [];
  }

  lemma ThreeCalls(a: R.Op, b: R.Op, c: R.Op)
    ensures LogCalls(([a] + [b]) + [c]) == (Logged(a) + Logged(b)) + Logged(c)
  {
    LogCallsAppend([a] + [b], [c]);
    LogCallsAppend([a], [b]);
    OneCall(a);
    OneCall(b);
    OneCall(c);
  }

  lemma IterationLogs(settings: R.Settings, it: R.Iteration)
    ensures LogCalls(R.OpsOf(settings, it)) == [Publishes(it.event.id, it.publishErr.None?), MarkOf(it)]
  {
    var ops := R.OpsOf(settings, it);
    assert ops == ([ops[0]] + [ops[1]]) + [ops[2]];
    ThreeCalls(ops[0], ops[1], ops[2]);
  }

  lemma OpsLogStep(settings: R.Settings, its: seq<R.Iteration>, k: nat)
    requires k < |its|
    ensures LogCalls(R.Ops(settings, its[..k + 1]))
         == LogCalls(R.Ops(settings, its[..k])) + [Publishes(its[k].event.id, its[k].publishErr.None?), MarkOf(its[k])]
  {
    assert its[..k + 1][..k] == its[..k];
    LogCallsAppend(R.Ops(settings, its[..k]), R.OpsOf(settings, its[k]));
    IterationLogs(settings, its[k]);
  }

  lemma CallsFromStep(its: seq<R.Iteration>, k: nat)
    requires k < |its|
    ensures CallsFrom(its, k) == [Publishes(its[k].event.id, its[k].publishErr.None?), MarkOf(its[k])] + CallsFrom(its, k + 1)
  {
    Regroup([Publishes(its[k].event.id, its[k].publishErr.None?)], [MarkOf(its[k])], CallsFrom(its, k + 1));
  }

  lemma {:induction false} OpsLog(settings: R.Settings, its: seq<R.Iteration>, k: nat)
    requires k <= |its|
    ensures LogCalls(R.Ops(settings, its[..k])) + CallsFrom(its, k) == CallsFrom(its, 0)
    decreases k
  {
    if k > 0 {
      var it := its[k - 1];
      OpsLog(settings, its, k - 1);
      OpsLogStep(settings, its, k - 1);
      CallsFromStep(its, k - 1);
      Regroup(LogCalls(R.Ops(settings, its[..k - 1])), [Publishes(it.event.id, it.publishErr.None?), MarkOf(it)], CallsFrom(its, k));
    }
  }

  /** The whole log of a tick that claimed these events. */
  function TickLog(settings: R.Settings, events: seq<R.Event>, its: seq<R.Iteration>, cancelled: bool): seq<R.Op> {
    [R.ClaimBatch(settings.batchSize, Some(events))] + R.Ops(settings, its) + (if cancelled then [R.CtxErr(true)] else [])
  }

  lemma TickLogCalls(settings: R.Settings, events: seq<R.Event>, its: seq<R.Iteration>, cancelled: bool)
    ensures LogCalls(TickLog(settings, events, its, cancelled)) == [Claims(Ids(events))] + CallsFrom(its, 0)
  {
    var claim, ops := R.ClaimBatch(settings.batchSize, Some(events)), R.Ops(settings, its);
    var end := if cancelled then [R.CtxErr(true)] else [];
    OpsLog(settings, its, |its|);
    assert its[..|its|] == its;
    LogCallsAppend([claim], ops);
    LogCallsAppend([claim] + ops, end);
    OneCall(claim);
    OneCall(R.CtxErr(true));
    assert LogCalls(ops) == CallsFrom(its, 0);
  }

  /**
   The calls in the log of a tick are, one by one, the calls its relay makes in the run: the
   claim with its events, then each publish and each mark, of the same kind, for the same
   event and with the same result.
   */
  lemma TickLogIsTrace(settings: R.Settings, s: State, r: RelayId, events: seq<R.Event>, its: seq<R.Iteration>,
                       cancelled: bool, actions: seq<Action>)
    requires Reachable(s) && Enabled(s, Claim(r, Ids(events), true))
    requires |its| <= |events| && (cancelled <==> |its| < |events|)
    requires forall i :: 0 <= i < |its| ==> its[i].event == events[i]
    requires Woven(Step(s, Claim(r, Ids(events), true)), actions, r, its, cancelled, CheckAt(0))
    ensures var run := [Claim(r, Ids(events), true)] + actions;
      Runs(s, run) && Trace(s, run, r) == LogCalls(TickLog(settings, events, its, cancelled))
  {
    ReachableInv(s);
    var claim := Claim(r, Ids(events), true);
    var s1 := Step(s, claim);
    TickRuns(s, r, events, its, cancelled, actions);
    StepKeepsInv(s, claim);
    ClaimStarts(s, r, events, its);
    assert ([claim] + actions)[1..] == actions;
    LoopTrace(s1, actions, r, Tickets(s, events), events, its, cancelled, CheckAt(0));
    TickLogCalls(settings, events, its, cancelled);
  }
}
