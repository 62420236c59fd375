/**
 The dispatch metrics of any number of relays while they interleave: at every moment the claims
 counted for a label are its dispatches, its failures, and the relays in the middle of one of
 its events.
 */
module RelayMetrics {
  import opened Common
  import Backoff
  import R = Relay
  import opened Outbox
  import opened RelayRuns

  /** The label each event is counted under. */
  type Labels = map<EventId, R.Series>

  function LabelOf(labels: Labels, e: EventId): R.Series {
    if e in labels then labels[e] else ""
  }

  /** The event a relay is working on. */
  predicate WorksOn(s: State, r: RelayId) {
    Queue(PcOf(s, r)) != [] && Queue(PcOf(s, r))[0] < |s.tickets|
  }

  function Label(s: State, r: RelayId, labels: Labels): R.Series
    requires WorksOn(s, r)
  {
    LabelOf(labels, s.tickets[Queue(PcOf(s, r))[0]].event)
  }

  /** What a step records: tick counts a claim, and then one dispatch or failure. */
  function Records(s: State, a: Action): Option<R.Outcome> {
    match a
    case Check(r) => if r !in s.stopped then Some(R.Claimed) else None
    case Publish(_, confirm, _) => if PublishOk(confirm) then None else Some(R.Failed)
    case Mark(r, _, reported) =>
      if PcOf(s, r).Marking? && PcOf(s, r).ok then Some(if reported then R.Dispatched else R.Failed) else None
    case _ => None
  }

  function Metered(c: R.Counters, s: State, a: Action, labels: Labels): R.Counters {
    if Records(s, a).Some? && WorksOn(s, a.relay)
    then R.Recorded(c, Label(s, a.relay, labels), Records(s, a).value, !Records(s, a).value.Claimed?)
    else c
  }

  function MeteredRun(c: R.Counters, s: State, actions: seq<Action>, labels: Labels): R.Counters
    requires Runs(s, actions)
    decreases |actions|
  {
    if actions == [] then c else MeteredRun(Metered(c, s, actions[0], labels), Step(s, actions[0]), actions[1..], labels)
  }

  /** The relay has counted a claim for the label, and its outcome not yet. */
  predicate Between(s: State, r: RelayId, labels: Labels, x: R.Series) {
    (PcOf(s, r).Publishing? || (PcOf(s, r).Marking? && PcOf(s, r).ok)) && WorksOn(s, r) && Label(s, r, labels) == x
  }

  function MidIteration(s: State, labels: Labels, x: R.Series): set<RelayId> {
    set r | r in s.relays && Between(s, r, labels, x)
  }

  /** Claimed = dispatched + failed + open, for the label; the other two counters agree. */
  predicate Conserved(c: R.Counters, x: R.Series, open: nat) {
    && R.Count(c.counts, (x, R.Claimed)) == R.Count(c.counts, (x, R.Dispatched)) + R.Count(c.counts, (x, R.Failed)) + open
    && R.Count(c.failures, x) == R.Count(c.counts, (x, R.Failed))
    && R.Count(c.samples, x) + open == R.Count(c.counts, (x, R.Claimed))
  }

  /** Steps of one relay do not change whether another is in the middle of an event. */
  lemma OthersStay(s: State, a: Action, r: RelayId, labels: Labels, x: R.Series)
    requires Inv(s) && Enabled(s, a) && !ActsFor(a, r)
    ensures Between(Step(s, a), r, labels, x) <==> Between(s, r, labels, x)
  {
    assert QueueOk(s, r);
    assert PcOf(Step(s, a), r) == PcOf(s, r);
    if WorksOn(s, r) {
      var i := Queue(PcOf(s, r))[0];
      assert Step(s, a).tickets[i].event == s.tickets[i].event;
    }
  }

  lemma MidIterationChanges(s: State, a: Action, labels: Labels, x: R.Series)
    requires Inv(s) && Enabled(s, a)
    ensures (a.Claim? || a.Check? || a.Publish? || a.Mark?) ==>
      MidIteration(Step(s, a), labels, x) - {a.relay} == MidIteration(s, labels, x) - {a.relay}
    ensures !(a.Claim? || a.Check? || a.Publish? || a.Mark?) ==> MidIteration(Step(s, a), labels, x) == MidIteration(s, labels, x)
  {
    var t := Step(s, a);
    forall r: RelayId | !ActsFor(a, r)
      ensures r in MidIteration(t, labels, x) <==> r in MidIteration(s, labels, x)
    {
      OthersStay(s, a, r, labels, x);
    }
  }

  /** A change of one element changes the size by that element. */
  lemma SizeWithout(a: set<RelayId>, r: RelayId)
    ensures |a| == |a - {r}| + (if r in a then 1 else 0)
  {
    if r in a {
      assert a == (a - {r}) + {r};
    } else {
      assert a - {r} == a;
    }
  }

  /** A claim puts the relay in the middle of an event of its label, a dispatch or failure takes it out. */
  lemma OwnStepMoves(s: State, a: Action, labels: Labels, x: R.Series)
    requires Inv(s) && Enabled(s, a) && (a.Claim? || a.Check? || a.Publish? || a.Mark?)
    ensures var before, after := Between(s, a.relay, labels, x), Between(Step(s, a), a.relay, labels, x);
      if Records(s, a).Some? && WorksOn(s, a.relay) && Label(s, a.relay, labels) == x
      then (if Records(s, a).value.Claimed? then !before && after else before && !after)
      else before == after
  {
    assert QueueOk(s, a.relay);
  }

  lemma RecordConserves(c: R.Counters, series: R.Series, outcome: R.Outcome, x: R.Series, open: nat, after: nat)
    requires Conserved(c, x, open) && (outcome.Claimed? || outcome.Dispatched? || outcome.Failed?)
    requires after == if series != x then open else if outcome.Claimed? then open + 1 else open - 1
    ensures Conserved(R.Recorded(c, series, outcome, !outcome.Claimed?), x, after)
  {
  }

  lemma MidIterationSize(s: State, a: Action, labels: Labels, x: R.Series)
    requires Inv(s) && Enabled(s, a)
    ensures |MidIteration(Step(s, a), labels, x)|
         == if Records(s, a).Some? && WorksOn(s, a.relay) && Label(s, a.relay, labels) == x
            then |MidIteration(s, labels, x)| + (if Records(s, a).value.Claimed? then 1 else -1)
            else |MidIteration(s, labels, x)|
  {
    MidIterationChanges(s, a, labels, x);
    if a.Claim? || a.Check? || a.Publish? || a.Mark? {
      OwnStepMoves(s, a, labels, x);
      SizeWithout(MidIteration(s, labels, x), a.relay);
      SizeWithout(MidIteration(Step(s, a), labels, x), a.relay);
      assert a.relay in MidIteration(s, labels, x) <==> Between(s, a.relay, labels, x);
      assert a.relay in MidIteration(Step(s, a), labels, x) <==> Between(Step(s, a), a.relay, labels, x);
    }
  }

  lemma StepConserves(c: R.Counters, s: State, a: Action, labels: Labels, x: R.Series)
    requires Inv(s) && Enabled(s, a) && Conserved(c, x, |MidIteration(s, labels, x)|)
    ensures Conserved(Metered(c, s, a, labels), x, |MidIteration(Step(s, a), labels, x)|)
  {
    MidIterationSize(s, a, labels, x);
    if Records(s, a).Some? && WorksOn(s, a.relay) {
      RecordConserves(c, Label(s, a.relay, labels), Records(s, a).value, x,
                      |MidIteration(s, labels, x)|, |MidIteration(Step(s, a), labels, x)|);
    }
  }

  lemma {:induction false} RunConserves(c: R.Counters, s: State, actions: seq<Action>, labels: Labels, x: R.Series)
    requires Inv(s) && Runs(s, actions) && Conserved(c, x, |MidIteration(s, labels, x)|)
    ensures Conserved(MeteredRun(c, s, actions, labels), x, |MidIteration(After(s, actions), labels, x)|)
    decreases |actions|
  {
    if actions != [] {
      StepKeepsInv(s, actions[0]);
      StepConserves(c, s, actions[0], labels, x);
      RunConserves(Metered(c, s, actions[0], labels), Step(s, actions[0]), actions[1..], labels, x);
    }
  }

  /**
   Conservation of dispatch metrics over whole runs of any number of relays: for every label,
   claimed = dispatched + failed + relays in the middle of an event; the failure counter equals
   failed; and the duration samples are the claims whose outcome is known.
   */
  lemma MetricsConserved(config: Backoff.Config, batch: nat, actions: seq<Action>, labels: Labels, x: R.Series)
    requires Runs(Init(config, batch), actions)
    ensures var c := MeteredRun(R.Counters(map[], map[], map[]), Init(config, batch), actions, labels);
      var open := |MidIteration(After(Init(config, batch), actions), labels, x)|;
      && R.Count(c.counts, (x, R.Claimed)) == R.Count(c.counts, (x, R.Dispatched)) + R.Count(c.counts, (x, R.Failed)) + open
      && R.Count(c.failures, x) == R.Count(c.counts, (x, R.Failed))
      && R.Count(c.samples, x) + open == R.Count(c.counts, (x, R.Claimed))
  {
    InitInv(config, batch);
    RunConserves(R.Counters(map[], map[], map[]), Init(config, batch), actions, labels, x);
  }

  // ---------- the metrics of one tick ----------

  /** The counters after a run, counting the steps of relay r only. */
  function MeteredBy(c: R.Counters, s: State, actions: seq<Action>, labels: Labels, r: RelayId): R.Counters
    requires Runs(s, actions)
    decreases |actions|
  {
    if actions == [] then c
    else MeteredBy(if ActsFor(actions[0], r) then Metered(c, s, actions[0], labels) else c,
                   Step(s, actions[0]), actions[1..], labels, r)
  }

  function TallyFrom(c: R.Counters, its: seq<R.Iteration>, k: nat): R.Counters
    requires k <= |its|
    decreases |its| - k
  {
    if k == |its| then c else TallyFrom(R.TallyOf(c, its[k]), its, k + 1)
  }

  /** The counters at the end of the loop, when they are c at that place. */
  function TallyAt(c: R.Counters, its: seq<R.Iteration>, p: Place): R.Counters
    requires Within(p, its)
  {
    match p
    case CheckAt(k) => TallyFrom(c, its, k)
    case PublishAt(k) => TallyFrom(R.Recorded(c, its[k].event.series, OutcomeOf(its[k]), true), its, k + 1)
    case MarkAt(k) =>
      TallyFrom(if its[k].publishErr.Some? then c else R.Recorded(c, its[k].event.series, OutcomeOf(its[k]), true), its, k + 1)
    case Left => c
  }

  /** What an iteration ends as: a dispatch if it was published and the mark was reported, else a failure. */
  function OutcomeOf(it: R.Iteration): R.Outcome {
    if it.publishErr.None? && !it.markFailed then R.Dispatched else R.Failed
  }

  /** The labels are those of the events. */
  predicate Labelling(labels: Labels, its: seq<R.Iteration>) {
    forall k :: 0 <= k < |its| ==> LabelOf(labels, its[k].event.id) == its[k].event.series
  }

  lemma PlaceLabel(s: State, labels: Labels, r: RelayId, queue: seq<nat>, events: seq<R.Event>, its: seq<R.Iteration>, p: Place)
    requires AtPlace(s, r, queue, events, its, p) && !p.Left? && p.k < |its|
    requires Labelling(labels, its) && its[p.k].event == events[p.k]
    ensures WorksOn(s, r) && Label(s, r, labels) == its[p.k].event.series
  {
    assert queue[p.k..][0] == queue[p.k];
  }

  /** What the step at a place records. */
  function RecordAt(c: R.Counters, its: seq<R.Iteration>, p: Place): R.Counters
    requires Within(p, its)
  {
    match p
    case CheckAt(k) => if k < |its| then R.Recorded(c, its[k].event.series, R.Claimed, false) else c
    case PublishAt(k) => if its[k].publishErr.None? then c else R.Recorded(c, its[k].event.series, R.Failed, true)
    case MarkAt(k) => if its[k].publishErr.Some? then c else R.Recorded(c, its[k].event.series, OutcomeOf(its[k]), true)
    case Left => c
  }

  lemma RecordAtTallies(c: R.Counters, its: seq<R.Iteration>, p: Place)
    requires Within(p, its)
    ensures TallyAt(RecordAt(c, its, p), its, Next(p, its)) == TallyAt(c, its, p)
  {
  }

  lemma StepRecordsAt(c: R.Counters, s: State, a: Action, labels: Labels, r: RelayId, queue: seq<nat>, events: seq<R.Event>,
                      its: seq<R.Iteration>, cancelled: bool, p: Place)
    requires AtPlace(s, r, queue, events, its, p) && (cancelled <==> |its| < |queue|)
    requires Plays(a, r, its, p) && Finds(s, r, its, cancelled, p)
    requires Labelling(labels, its) && forall k :: 0 <= k < |its| ==> its[k].event == events[k]
    ensures Metered(c, s, a, labels) == RecordAt(c, its, p)
  {
    if !p.Left? && p.k < |its| {
      PlaceLabel(s, labels, r, queue, events, its, p);
    } else if p.CheckAt? {
      assert Queue(PcOf(s, r)) == [] || r in s.stopped;
    }
  }

  lemma {:induction false} LoopTallies(c: R.Counters, s: State, actions: seq<Action>, labels: Labels, r: RelayId, queue: seq<nat>,
                                       events: seq<R.Event>, its: seq<R.Iteration>, cancelled: bool, p: Place)
    requires Inv(s) && AtPlace(s, r, queue, events, its, p) && (cancelled <==> |its| < |queue|)
    requires Labelling(labels, its) && forall k :: 0 <= k < |its| ==> its[k].event == events[k]
    requires Woven(s, actions, r, its, cancelled, p) && Runs(s, actions)
    ensures MeteredBy(c, s, actions, labels, r) == TallyAt(c, its, p)
    decreases |actions|
  {
    if actions != [] {
      var a := actions[0];
      StepKeepsInv(s, a);
      if ActsFor(a, r) {
        OwnStep(s, a, r, queue, events, its, cancelled, p);
        StepRecordsAt(c, s, a, labels, r, queue, events, its, cancelled, p);
        RecordAtTallies(c, its, p);
        LoopTallies(Metered(c, s, a, labels), Step(s, a), actions[1..], labels, r, queue, events, its, cancelled, Next(p, its));
      } else {
        OtherStep(s, a, r, queue, events, its, p);
        LoopTallies(c, Step(s, a), actions[1..], labels, r, queue, events, its, cancelled, p);
      }
    }
  }

  lemma {:induction false} TallyFromStart(c: R.Counters, its: seq<R.Iteration>, k: nat)
    requires k <= |its|
    ensures TallyFrom(R.Tally(c, its[..k]), its, k) == TallyFrom(c, its, 0)
    decreases k
  {
    if k > 0 {
      TallyFromStart(c, its, k - 1);
      assert its[..k][..k - 1] == its[..k - 1];
    }
  }

  lemma TallyFromZero(c: R.Counters, its: seq<R.Iteration>)
    ensures TallyFrom(c, its, 0) == R.Tally(c, its)
  {
    TallyFromStart(c, its, |its|);
    assert its[..|its|] == its;
  }

  /** In every interleaving, what a tick counts in its own log is what its relay counts in the run. */
  lemma TickMetersAsLogged(c: R.Counters, s: State, r: RelayId, events: seq<R.Event>, its: seq<R.Iteration>, cancelled: bool,
                           actions: seq<Action>, labels: Labels)
    requires Reachable(s) && Enabled(s, Claim(r, Ids(events), true)) && Labelling(labels, its)
    requires |its| <= |events| && (cancelled <==> |its| < |events|)
    requires forall i :: 0 <= i < |its| ==> its[i].event == events[i]
    requires Woven(Step(s, Claim(r, Ids(events), true)), actions, r, its, cancelled, CheckAt(0))
    ensures Runs(Step(s, Claim(r, Ids(events), true)), actions)
    ensures MeteredBy(c, Step(s, Claim(r, Ids(events), true)), actions, labels, r) == R.Tally(c, its)
  {
    ReachableInv(s);
    var claim, queue := Claim(r, Ids(events), true), Tickets(s, events);
    var s1 := Step(s, claim);
    StepKeepsInv(s, claim);
    ClaimStarts(s, r, events, its);
    LoopRuns(s1, actions, r, queue, events, its, cancelled, CheckAt(0));
    LoopTallies(c, s1, actions, labels, r, queue, events, its, cancelled, CheckAt(0));
    TallyFromZero(c, its);
  }
}
