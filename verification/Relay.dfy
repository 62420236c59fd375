/**
 One tick of the outbox relay as sequential code, with its calls to the store and the
 publisher logged in order and its dispatch metrics counted.
 */
module Relay {
  import opened Common
  import opened Backoff

  /** A claimed event; series stands for the sanitized service, destination and event type of its metrics. */
  datatype Event = Event(id: string, exchange: string, routingKey: string, attempts: int64, series: Series)

  type Series = string

  datatype Outcome = Claimed | Dispatched | Failed | Success | Error

  // ---------- dispatch metrics ----------

  /** The counter by label and outcome, the failure counter, and the number of duration samples. */
  datatype Counters = Counters(counts: map<(Series, Outcome), nat>, failures: map<Series, nat>, samples: map<Series, nat>)

  function Count<K>(m: map<K, nat>, k: K): nat {
    if k in m then m[k] else 0
  }

  function Increment<K>(m: map<K, nat>, k: K): map<K, nat> {
    m[k := Count(m, k) + 1]
  }

  /** The counters after RecordOutboxDispatch; timed tells whether a start time was given. */
  function Recorded(c: Counters, series: Series, outcome: Outcome, timed: bool): Counters {
    Counters(
      Increment(c.counts, (series, outcome)),
      if outcome.Failed? || outcome.Error? then Increment(c.failures, series) else c.failures,
      if timed && !outcome.Claimed? then Increment(c.samples, series) else c.samples)
  }

  class Metrics {
    var counts: map<(Series, Outcome), nat>
    var failures: map<Series, nat>
    var samples: map<Series, nat>

    constructor ()
      ensures Value() == Counters(map[], map[], map[])
    {
      counts, failures, samples := map[], map[], map[];
    }

    function Value(): Counters
      reads this
    {
      Counters(counts, failures, samples)
    }

    /** RecordOutboxDispatch */
    method Record(series: Series, outcome: Outcome, timed: bool)
      modifies this
      ensures Value() == Recorded(old(Value()), series, outcome, timed)
    {
      counts := Increment(counts, (series, outcome));
      if outcome.Failed? || outcome.Error? {
        failures := Increment(failures, series);
      }
      if timed && (outcome.Dispatched? || outcome.Success? || outcome.Failed? || outcome.Error?) {
        samples := Increment(samples, series);
      }
    }
  }

  /** One call of RecordOutboxDispatch. */
  datatype Entry = Entry(series: Series, outcome: Outcome, timed: bool)

  function RecordedAll(entries: seq<Entry>): Counters {
    if entries == [] then Counters(map[], map[], map[])
    else var e := entries[|entries| - 1]; Recorded(RecordedAll(entries[..|entries| - 1]), e.series, e.outcome, e.timed)
  }

  function Matching(entries: seq<Entry>, p: Entry -> bool): nat {
    if entries == [] then 0
    else Matching(entries[..|entries| - 1], p) + (if p(entries[|entries| - 1]) then 1 else 0)
  }

  /**
   After any calls, each counter is the number of calls for its label and outcome, the failure
   counter that of failed and error outcomes, and the samples that of timed calls other than claims.
   */
  lemma {:induction false} CountersCount(entries: seq<Entry>, x: Series, outcome: Outcome)
    ensures var c := RecordedAll(entries);
      && Count(c.counts, (x, outcome)) == Matching(entries, (e: Entry) => e.series == x && e.outcome == outcome)
      && Count(c.failures, x) == Matching(entries, (e: Entry) => e.series == x && (e.outcome == Failed || e.outcome == Error))
      && Count(c.samples, x) == Matching(entries, (e: Entry) => e.series == x && e.timed && e.outcome != Claimed)
  {
    if entries != [] {
      CountersCount(entries[..|entries| - 1], x, outcome);
    }
  }

  // ---------- the world a relay calls ----------

  /** A Go string: bytes, which is what its length and its slices count. */
  type Octets = seq<Byte>

  function Ascii(s: string): Octets {
    seq(|s|, i requires 0 <= i < |s| => s[i] as int % 256)
  }

  /** A call and what it returned. */
  datatype Op =
    | ClaimBatch(size: nat, events: Option<seq<Event>>)
    | CtxErr(cancelled: bool)
    | PublishWithConfirm(exchange: string, routingKey: string, id: string, err: Option<Octets>)
    | MarkPublished(id: string, failed: bool)
    | MarkFailed(id: string, message: Octets, delay: int, failed: bool)

  /** The store, the publisher and the context: every call may return anything and is logged. */
  class World {
    var log: seq<Op>

    constructor ()
      ensures log == []
    {
      log := [];
    }

    method Claim(size: nat) returns (events: Option<seq<Event>>)
      modifies this
      ensures log == old(log) + [ClaimBatch(size, events)]
    {
      events := *;
      log := log + [ClaimBatch(size, events)];
    }

    method Cancelled() returns (cancelled: bool)
      modifies this
      ensures log == old(log) + [CtxErr(cancelled)]
    {
      cancelled := *;
      log := log + [CtxErr(cancelled)];
    }

    method Publish(exchange: string, routingKey: string, id: string) returns (err: Option<Octets>)
      modifies this
      ensures log == old(log) + [PublishWithConfirm(exchange, routingKey, id, err)]
    {
      err := *;
      log := log + [PublishWithConfirm(exchange, routingKey, id, err)];
    }

    method SetPublished(id: string) returns (failed: bool)
      modifies this
      ensures log == old(log) + [MarkPublished(id, failed)]
    {
      failed := *;
      log := log + [MarkPublished(id, failed)];
    }

    method SetFailed(id: string, message: Octets, delay: int) returns (failed: bool)
      modifies this
      ensures log == old(log) + [MarkFailed(id, message, delay, failed)]
    {
      failed := *;
      log := log + [MarkFailed(id, message, delay, failed)];
    }
  }

  // ---------- what a tick should do ----------

  datatype Settings = Settings(batchSize: nat, defaultExchange: string, backoff: Config)

  const DEFAULT_BATCH: nat := 100

  /** The settings New gives a relay. */
  function Completed(s: Settings): Settings {
    s.(batchSize := if s.batchSize == 0 then DEFAULT_BATCH else s.batchSize, backoff := WithDefaults(s.backoff))
  }

  /** A batch is 100 events unless another size is given, and the back-off settings are filled in. */
  lemma SettingsFilledIn(s: Settings)
    ensures Completed(s).batchSize == (if s.batchSize > 0 then s.batchSize else 100)
    ensures Completed(s).defaultExchange == s.defaultExchange && Completed(s).backoff == WithDefaults(s.backoff)
  {
  }

  /** One completed iteration of the loop: how the publish and the mark went. */
  datatype Iteration = Iteration(event: Event, publishErr: Option<Octets>, markFailed: bool)

  const MESSAGE_LIMIT: nat := 500
  const EXHAUSTED: Octets := Ascii("max attempts exceeded: ")

  /** The error text stored with a failure: cut to 500 bytes, and prefixed when the attempts are used up. */
  function FailMessage(c: Config, attempts: int64, err: Octets): Octets {
    var cut := if |err| > MESSAGE_LIMIT then err[..MESSAGE_LIMIT] else err;
    if c.maxAttempts > 0 && Wrap64(attempts as int + 1) >= c.maxAttempts then EXHAUSTED + cut else cut
  }

  /** The calls of an iteration: the context, exactly one publish, exactly one mark. */
  function OpsOf(s: Settings, it: Iteration): seq<Op> {
    var e := it.event;
    [CtxErr(false),
     PublishWithConfirm(if e.exchange == "" then s.defaultExchange else e.exchange, e.routingKey, e.id, it.publishErr),
     if it.publishErr.None? then MarkPublished(e.id, it.markFailed)
     else MarkFailed(e.id, FailMessage(s.backoff, e.attempts, it.publishErr.value),
                     FailDelay(s.backoff, e.attempts), it.markFailed)]
  }

  function Ops(s: Settings, its: seq<Iteration>): seq<Op> {
    if its == [] then [] else Ops(s, its[..|its| - 1]) + OpsOf(s, its[|its| - 1])
  }

  /** The metrics of an iteration: one claim, then one dispatch or failure with a duration. */
  function TallyOf(c: Counters, it: Iteration): Counters {
    Recorded(Recorded(c, it.event.series, Claimed, false), it.event.series,
             if it.publishErr.None? && !it.markFailed then Dispatched else Failed, true)
  }

  function Tally(c: Counters, its: seq<Iteration>): Counters {
    if its == [] then c else TallyOf(Tally(c, its[..|its| - 1]), its[|its| - 1])
  }

  lemma Snoc(s: Settings, c: Counters, its: seq<Iteration>, it: Iteration)
    ensures Ops(s, its + [it]) == Ops(s, its) + [CtxErr(false)] + OpsOf(s, it)[1..]
    ensures Tally(c, its + [it]) == TallyOf(Tally(c, its), it)
  {
    assert (its + [it])[..|its|] == its;
    assert OpsOf(s, it) == [CtxErr(false)] + OpsOf(s, it)[1..];
  }

  // ---------- the tick ----------

  class Relay {
    const settings: Settings
    const world: World
    const metrics: Metrics

    constructor (settings: Settings, world: World, metrics: Metrics)
      ensures this.settings == Completed(settings) && this.world == world && this.metrics == metrics
    {
      this.settings, this.world, this.metrics := Completed(settings), world, metrics;
    }

    /** fail: schedules the next attempt. */
    method Fail(event: Event, err: Octets) returns (failed: bool)
      modifies world
      ensures world.log == old(world.log)
        + [MarkFailed(event.id, FailMessage(settings.backoff, event.attempts, err), FailDelay(settings.backoff, event.attempts), failed)]
    {
      var attempt := Wrap64(event.attempts as int + 1);
      var message := err;
      if |message| > MESSAGE_LIMIT {
        message := message[..MESSAGE_LIMIT];
      }
      var backedOff, _ := Backoff.Backoff(attempt, settings.backoff.baseBackoff, settings.backoff.maxBackoff);
      var delay := backedOff;
      if settings.backoff.maxAttempts > 0 && attempt >= settings.backoff.maxAttempts {
        message := EXHAUSTED + message;
        delay := settings.backoff.maxBackoff;
      }
      failed := world.SetFailed(event.id, message, delay as int);
    }

    /** The body of the loop after the context check. */
    method Process(event: Event) returns (it: Iteration)
      modifies world, metrics
      ensures it.event == event
      ensures world.log == old(world.log) + OpsOf(settings, it)[1..]
      ensures metrics.Value() == TallyOf(old(metrics.Value()), it)
    {
      metrics.Record(event.series, Claimed, false);
      var exchange := event.exchange;
      if exchange == "" {
        exchange := settings.defaultExchange;
      }
      var err := world.Publish(exchange, event.routingKey, event.id);
      if err.Some? {
        metrics.Record(event.series, Failed, true);
        var lost := Fail(event, err.value);
        return Iteration(event, err, lost);
      }
      var failed := world.SetPublished(event.id);
      metrics.Record(event.series, if failed then Failed else Dispatched, true);
      return Iteration(event, None, failed);
    }

    /** The loop of tick. */
    method ProcessAll(events: seq<Event>) returns (its: seq<Iteration>, cancelled: bool)
      modifies world, metrics
      ensures |its| <= |events| && (cancelled <==> |its| < |events|)
      ensures forall i :: 0 <= i < |its| ==> its[i].event == events[i]
      ensures world.log == old(world.log) + Ops(settings, its) + (if cancelled then [CtxErr(true)] else [])
      ensures metrics.Value() == Tally(old(metrics.Value()), its)
    {
      its, cancelled := [], false;
      for i := 0 to |events|
        invariant !cancelled && |its| == i
        invariant forall j :: 0 <= j < i ==> its[j].event == events[j]
        invariant world.log == old(world.log) + Ops(settings, its)
        invariant metrics.Value() == Tally(old(metrics.Value()), its)
      {
        cancelled := world.Cancelled();
        if cancelled {
          return;
        }
        var it := Process(events[i]);
        Snoc(settings, old(metrics.Value()), its, it);
        its := its + [it];
      }
    }

    /**
     tick: after a failed claim nothing happens; otherwise the events are processed in order
     until the batch is done or the context is found cancelled before the next one.
     */
    method Tick() returns (events: Option<seq<Event>>, its: seq<Iteration>, cancelled: bool)
      modifies world, metrics
      ensures events.None? ==> its == [] && !cancelled
      ensures events.Some? ==> |its| <= |events.value| && (cancelled <==> |its| < |events.value|)
      ensures forall i :: 0 <= i < |its| ==> events.Some? && its[i].event == events.value[i]
      ensures world.log == old(world.log) + [ClaimBatch(settings.batchSize, events)] + Ops(settings, its)
                         + (if cancelled then [CtxErr(true)] else [])
      ensures metrics.Value() == Tally(old(metrics.Value()), its)
      ensures WellMarked(Ops(settings, its))
    {
      events := world.Claim(settings.batchSize);
      its, cancelled := [], false;
      if events.None? {
        return;
      }
      its, cancelled := ProcessAll(events.value);
      LogWellMarked(settings, its);
    }
  }

  // ---------- what follows ----------

  /** What is stored of an error text: its first 500 bytes, after a fixed prefix once the attempts are used up. */
  lemma MessageKeepsText(c: Config, attempts: int64, err: Octets)
    ensures var cut := if |err| <= 500 then err else err[..500];
      var exhausted := c.maxAttempts > 0 && Wrap64(attempts as int + 1) >= c.maxAttempts;
      FailMessage(c, attempts, err) == (if exhausted then Ascii("max attempts exceeded: ") else []) + cut
  {
  }

  lemma {:induction false} OpsAt(s: Settings, its: seq<Iteration>, k: nat)
    requires k < |its|
    ensures |Ops(s, its)| == 3 * |its|
    ensures Ops(s, its)[3 * k..3 * k + 3] == OpsOf(s, its[k])
  {
    var last := |its| - 1;
    if last > 0 {
      OpsAt(s, its[..last], if k < last then k else 0);
    }
    if k == last {
      assert |Ops(s, its[..last])| == 3 * last;
    }
  }

  /**
   In the log of a tick, the calls about the k-th event are its context check, its publish, on
   its own exchange unless it names none, and then its mark: MarkPublished if the publish
   succeeded, MarkFailed with the text of its error and the delay of its attempts if not.
   */
  lemma OnePublishThenOneMark(s: Settings, its: seq<Iteration>, k: nat)
    requires k < |its|
    ensures var log, e, err := Ops(s, its), its[k].event, its[k].publishErr;
      && |log| == 3 * |its| && log[3 * k] == CtxErr(false)
      && (e.exchange != "" ==> log[3 * k + 1] == PublishWithConfirm(e.exchange, e.routingKey, e.id, err))
      && (e.exchange == "" ==> log[3 * k + 1] == PublishWithConfirm(s.defaultExchange, e.routingKey, e.id, err))
      && (err.None? ==> log[3 * k + 2] == MarkPublished(e.id, its[k].markFailed))
      && (err.Some? ==> log[3 * k + 2] == MarkFailed(e.id, FailMessage(s.backoff, e.attempts, err.value),
                                                     FailDelay(s.backoff, e.attempts), its[k].markFailed))
  {
    OpsAt(s, its, k);
    var log, ops := Ops(s, its), Ops(s, its)[3 * k..3 * k + 3];
    assert log[3 * k] == ops[0] && log[3 * k + 1] == ops[1] && log[3 * k + 2] == ops[2];
  }

  /** The message stored for an error carries its text, cut to 500 bytes. */
  predicate Carries(message: Octets, err: Octets) {
    var cut := if |err| <= 500 then err else err[..500];
    message == cut || message == Ascii("max attempts exceeded: ") + cut
  }

  /**
   In a log, every mark stands right after the publish of the same event that calls for it, and
   every publish right after a context check that found nothing and right before its mark.
   */
  predicate WellMarked(log: seq<Op>) {
    forall j :: 0 <= j < |log| ==> WellMarkedAt(log, j)
  }

  predicate WellMarkedAt(log: seq<Op>, j: nat)
    requires j < |log|
  {
    match log[j]
    case PublishWithConfirm(_, _, _, err) =>
      0 < j < |log| - 1 && log[j - 1] == CtxErr(false) && (if err.None? then log[j + 1].MarkPublished? else log[j + 1].MarkFailed?)
    case MarkPublished(id, _) =>
      j > 0 && log[j - 1].PublishWithConfirm? && log[j - 1].id == id && log[j - 1].err.None?
    case MarkFailed(id, message, _, _) =>
      && j > 0 && log[j - 1].PublishWithConfirm? && log[j - 1].id == id
      && log[j - 1].err.Some? && Carries(message, log[j - 1].err.value)
    case _ => true
  }

  lemma WellMarkedAppend(a: seq<Op>, b: seq<Op>)
    requires WellMarked(a) && WellMarked(b)
    ensures WellMarked(a + b)
  {
    var log := a + b;
    forall j | 0 <= j < |log|
      ensures WellMarkedAt(log, j)
    {
      if j < |a| {
        assert WellMarkedAt(a, j);
      } else {
        assert WellMarkedAt(b, j - |a|) && log[j] == b[j - |a|];
      }
    }
  }

  lemma IterationWellMarked(s: Settings, it: Iteration)
    ensures WellMarked(OpsOf(s, it))
  {
    var log := OpsOf(s, it);
    if it.publishErr.Some? {
      MessageKeepsText(s.backoff, it.event.attempts, it.publishErr.value);
    }
    assert WellMarkedAt(log, 0) && WellMarkedAt(log, 1) && WellMarkedAt(log, 2);
  }

  /** The log of any completed iterations is such a log. */
  lemma {:induction false} LogWellMarked(s: Settings, its: seq<Iteration>)
    ensures WellMarked(Ops(s, its))
  {
    if its != [] {
      LogWellMarked(s, its[..|its| - 1]);
      IterationWellMarked(s, its[|its| - 1]);
      WellMarkedAppend(Ops(s, its[..|its| - 1]), OpsOf(s, its[|its| - 1]));
    }
  }

  /** Conservation for one label: every claim ended as a dispatch or a failure, was timed, and failures agree. */
  predicate Balanced(c: Counters, series: Series) {
    && Count(c.counts, (series, Claimed)) == Count(c.counts, (series, Dispatched)) + Count(c.counts, (series, Failed))
    && Count(c.failures, series) == Count(c.counts, (series, Failed))
    && Count(c.samples, series) == Count(c.counts, (series, Claimed))
  }

  lemma TallyOfBalanced(c: Counters, it: Iteration, series: Series)
    requires Balanced(c, series)
    ensures Balanced(TallyOf(c, it), series)
  {
  }

  /** Conservation of dispatch metrics over any number of completed iterations, for every label. */
  lemma {:induction false} TallyBalanced(c: Counters, its: seq<Iteration>, series: Series)
    requires Balanced(c, series)
    ensures Balanced(Tally(c, its), series)
  {
    if its != [] {
      TallyBalanced(c, its[..|its| - 1], series);
      TallyOfBalanced(Tally(c, its[..|its| - 1]), its[|its| - 1], series);
    }
  }

  /** The iterations with that label, and those of them that were published and marked so. */
  function Labelled(its: seq<Iteration>, series: Series, delivered: bool): nat {
    if its == [] then 0
    else var it := its[|its| - 1];
      Labelled(its[..|its| - 1], series, delivered)
      + (if it.event.series == series && (delivered ==> it.publishErr.None? && !it.markFailed) then 1 else 0)
  }

  /** As many claims as iterations with the label; as many dispatches as were published and marked published without an error. */
  lemma {:induction false} ClaimsCounted(c: Counters, its: seq<Iteration>, series: Series)
    ensures Count(Tally(c, its).counts, (series, Claimed)) == Count(c.counts, (series, Claimed)) + Labelled(its, series, false)
    ensures Count(Tally(c, its).counts, (series, Dispatched)) == Count(c.counts, (series, Dispatched)) + Labelled(its, series, true)
  {
    if its != [] {
      ClaimsCounted(c, its[..|its| - 1], series);
    }
  }
}
