/**
 Outbox relays working one store at the same time. The store is an abstract contract: a
 claim atomically locks claimable rows, marking and recovery unlock them. Each claim of an
 event is a ticket, so that publishes, marks and locks can be told apart claim by claim.
 Every store call may fail, with or without having taken effect; the broker may have
 acknowledged a publish whose confirmation never arrived.
 */
module Outbox {
  import opened Common
  import opened Backoff

  type EventId = string
  type RelayId = nat

  /** A stored event; lock is the ticket of the claim that holds it. */
  datatype Row = Row(published: bool, lock: Option<nat>, availableAt: int, attempts: int64)

  /**
   One claim of one event by one relay, with everything that relay did about it; lost: lock
   recovery has released the lock this claim took.
   */
  datatype Ticket = Ticket(event: EventId, relay: RelayId, attempts: int64,
                           publishes: nat, confirmed: bool, markedPublished: nat, markedFailed: nat, lost: bool)

  /** What the wait for the publisher confirm ends with. */
  datatype Confirm = NotSent | TimedOut | ChannelClosed | Nacked | Acked

  /** PublishWithConfirm returns nil only on a positive confirmation. */
  predicate PublishOk(c: Confirm) {
    c.Acked?
  }

  /** Where a relay stands in tick; the first ticket of a queue is the current one. */
  datatype RelayPc =
    | Idle
    | Checking(queue: seq<nat>)             // top of the loop over the claimed events
    | Publishing(queue: seq<nat>)
    | Marking(queue: seq<nat>, ok: bool)    // published, with this result

  datatype State = State(config: Config, batch: nat, rows: map<EventId, Row>, tickets: seq<Ticket>,
                         relays: map<RelayId, RelayPc>, stopped: set<RelayId>,
                         acked: set<EventId>, now: int)

  function Init(config: Config, batch: nat): State {
    State(WithDefaults(config), batch, map[], [], map[], {}, {}, 0)
  }

  function PcOf(s: State, r: RelayId): RelayPc {
    if r in s.relays then s.relays[r] else Idle
  }

  function Queue(pc: RelayPc): seq<nat> {
    if pc.Idle? then [] else pc.queue
  }

  predicate Claimable(s: State, e: EventId) {
    e in s.rows && !s.rows[e].published && s.rows[e].lock.None? && s.rows[e].availableAt <= s.now
  }

  datatype Action =
    | Insert(event: EventId)
    | Claim(relay: RelayId, events: seq<EventId>, delivered: bool)  // delivered: the reply reached the relay
    | Check(relay: RelayId)
    | Publish(relay: RelayId, confirm: Confirm, brokerAck: bool)
    | Mark(relay: RelayId, applied: bool, reported: bool)           // it took effect; it returned nil
    | Recover(stuck: set<EventId>)
    | Cancel(relay: RelayId)
    | AdvanceClock(to: int)

  predicate Enabled(s: State, a: Action) {
    match a
    case Insert(e) => e !in s.rows
    case Claim(r, events, _) =>
      && PcOf(s, r).Idle? && |events| <= s.batch
      && (forall i :: 0 <= i < |events| ==> Claimable(s, events[i]))
      && (forall i, j :: 0 <= i < j < |events| ==> events[i] != events[j])
    case Check(r) => PcOf(s, r).Checking?
    case Publish(r, confirm, brokerAck) => PcOf(s, r).Publishing? && (confirm.Acked? ==> brokerAck)
    case Mark(r, _, _) => PcOf(s, r).Marking?
    case Recover(_) => true
    case Cancel(_) => true
    case AdvanceClock(to) => s.now <= to
  }

  /** ClaimBatch: the rows are locked by new tickets, in the order of the events. */
  function Claimed(s: State, r: RelayId, events: seq<EventId>, delivered: bool): State
    requires forall i :: 0 <= i < |events| ==> events[i] in s.rows
  {
    var first := |s.tickets|;
    s.(tickets := s.tickets + seq(|events|, i requires 0 <= i < |events| =>
                    Ticket(events[i], r, s.rows[events[i]].attempts, 0, false, 0, 0, false)),
       rows := map e | e in s.rows :: if e in events then s.rows[e].(lock := Some(first + Position(events, e))) else s.rows[e],
       relays := if delivered then s.relays[r := Checking(seq(|events|, i => first + i))] else s.relays)
  }

  function Position(events: seq<EventId>, e: EventId): (p: nat)
    requires e in events
    ensures p < |events| && events[p] == e
  {
    if events[0] == e then 0 else 1 + Position(events[1..], e)
  }

  /** tick at the top of its loop: done, cancelled, or on to the next event. */
  function Checked(s: State, r: RelayId): State
    requires PcOf(s, r).Checking?
  {
    var queue := PcOf(s, r).queue;
    s.(relays := s.relays[r := if queue == [] || r in s.stopped then Idle else Publishing(queue)])
  }

  function Published(s: State, r: RelayId, confirm: Confirm, brokerAck: bool): State
    requires PcOf(s, r).Publishing?
  {
    var queue := PcOf(s, r).queue;
    if queue == [] || queue[0] >= |s.tickets| then s
    else
      var t := s.tickets[queue[0]];
      s.(tickets := s.tickets[queue[0] := t.(publishes := t.publishes + 1, confirmed := PublishOk(confirm))],
         acked := if brokerAck then s.acked + {t.event} else s.acked,
         relays := s.relays[r := Marking(queue, PublishOk(confirm))])
  }

  /** MarkPublished or MarkFailed on a row: it is unlocked; a published row stays published. */
  function MarkedRow(s: State, row: Row, t: Ticket, ok: bool): Row {
    if ok then row.(published := true, lock := None)
    else row.(lock := None, attempts := Wrap64(row.attempts as int + 1), availableAt := s.now + FailDelay(s.config, t.attempts))
  }

  function Marked(s: State, r: RelayId, applied: bool): State
    requires PcOf(s, r).Marking?
  {
    var Marking(queue, ok) := PcOf(s, r);
    if queue == [] || queue[0] >= |s.tickets| then s
    else
      var t := s.tickets[queue[0]];
      s.(tickets := s.tickets[queue[0] := if ok then t.(markedPublished := t.markedPublished + 1)
                                          else t.(markedFailed := t.markedFailed + 1)],
         rows := if applied && t.event in s.rows then s.rows[t.event := MarkedRow(s, s.rows[t.event], t, ok)] else s.rows,
         relays := s.relays[r := Checking(queue[1..])])
  }

  /** Ticket i holds the lock of its event. */
  predicate Holds(s: State, i: nat)
    requires i < |s.tickets|
  {
    s.tickets[i].event in s.rows && s.rows[s.tickets[i].event].lock == Some(i)
  }

  /** RecoverStuckLocks releases some set of locked rows; which ones are stuck is the store's business. */
  function Recovered(s: State, events: set<EventId>): State {
    s.(rows := map e | e in s.rows :: if e in events then s.rows[e].(lock := None) else s.rows[e],
       tickets := seq(|s.tickets|, i requires 0 <= i < |s.tickets| =>
                    if s.tickets[i].event in events && Holds(s, i) then s.tickets[i].(lost := true) else s.tickets[i]))
  }

  function Step(s: State, a: Action): State
    requires Enabled(s, a)
  {
    match a
    case Insert(e) => s.(rows := s.rows[e := Row(false, None, s.now, 0)])
    case Claim(r, events, delivered) => Claimed(s, r, events, delivered)
    case Check(r) => Checked(s, r)
    case Publish(r, confirm, brokerAck) => Published(s, r, confirm, brokerAck)
    case Mark(r, applied, _) => Marked(s, r, applied)
    case Recover(events) => Recovered(s, events)
    case Cancel(r) => s.(stopped := s.stopped + {r})
    case AdvanceClock(to) => s.(now := to)
  }

  predicate Runs(s: State, actions: seq<Action>)
    decreases |actions|
  {
    actions == [] || (Enabled(s, actions[0]) && Runs(Step(s, actions[0]), actions[1..]))
  }

  function After(s: State, actions: seq<Action>): State
    requires Runs(s, actions)
    decreases |actions|
  {
    if actions == [] then s else After(Step(s, actions[0]), actions[1..])
  }

  // ---------- the invariant ----------

  predicate Untouched(t: Ticket) {
    t.publishes == 0 && !t.confirmed && t.markedPublished == 0 && t.markedFailed == 0
  }

  predicate IsMarked(t: Ticket) {
    t.markedPublished + t.markedFailed > 0
  }

  /** The life of a ticket: untouched; published once; marked once, by the mark its publish calls for. */
  predicate Lifecycle(t: Ticket) {
    && t.publishes <= 1
    && t.markedPublished + t.markedFailed <= t.publishes
    && (t.confirmed ==> t.publishes == 1 && t.markedFailed == 0)
    && (t.markedPublished > 0 ==> t.confirmed)
  }

  predicate RowOk(s: State, e: EventId)
    requires e in s.rows
  {
    && (s.rows[e].published ==> e in s.acked)
    && (s.rows[e].lock.Some? ==>
          var i := s.rows[e].lock.value; i < |s.tickets| && s.tickets[i].event == e && !s.tickets[i].lost)
  }

  /** Up to ticket i, no claim of the event has lost its lock to recovery. */
  predicate NoneLost(tickets: seq<Ticket>, e: EventId, i: nat) {
    forall k :: 0 <= k <= i && k < |tickets| && tickets[k].event == e ==> !tickets[k].lost
  }

  predicate TicketOk(s: State, i: nat)
    requires i < |s.tickets|
  {
    var t := s.tickets[i];
    Lifecycle(t) && t.event in s.rows && (t.confirmed ==> t.event in s.acked)
  }

  /** Unless a lock was lost, a ticket that is not marked holds its row; so does one whose mark did not take effect. */
  predicate HoldOk(s: State, i: nat)
    requires i < |s.tickets|
  {
    var t := s.tickets[i];
    t.event in s.rows && NoneLost(s.tickets, t.event, i) ==>
      && (!IsMarked(t) ==> Holds(s, i))
      && (t.confirmed ==> s.rows[t.event].published || Holds(s, i))
  }

  /** Of two claims of one event, the earlier one was marked failed, unless a lock was lost before the later one. */
  predicate OrderOk(s: State, i: nat, j: nat)
    requires i < j < |s.tickets|
  {
    s.tickets[i].event == s.tickets[j].event && NoneLost(s.tickets, s.tickets[i].event, i) ==> s.tickets[i].markedFailed == 1
  }

  /** A relay's queue holds its own tickets; only the current one may have been published already. */
  predicate QueueOk(s: State, r: RelayId) {
    var pc := PcOf(s, r);
    var q := Queue(pc);
    && (forall i :: 0 <= i < |q| ==> q[i] < |s.tickets| && s.tickets[q[i]].relay == r)
    && (forall i :: 0 <= i < |q| && !(i == 0 && pc.Marking?) ==> Untouched(s.tickets[q[i]]))
    && (forall i, j :: 0 <= i < j < |q| ==> q[i] < q[j])
    && (pc.Publishing? || pc.Marking? ==> q != [])
    && (pc.Marking? ==> var t := s.tickets[q[0]]; t.publishes == 1 && t.confirmed == pc.ok && !IsMarked(t))
  }

  ghost predicate Inv(s: State) {
    && (forall e :: e in s.rows ==> RowOk(s, e))
    && (forall i :: 0 <= i < |s.tickets| ==> TicketOk(s, i) && HoldOk(s, i))
    && (forall i, j :: 0 <= i < j < |s.tickets| ==> OrderOk(s, i, j))
    && (forall r: RelayId :: QueueOk(s, r))
  }

  lemma InitInv(config: Config, batch: nat)
    ensures Inv(Init(config, batch))
  {
  }

  lemma {:induction false} PositionOf(events: seq<EventId>, k: nat)
    requires k < |events| && forall i, j :: 0 <= i < j < |events| ==> events[i] != events[j]
    ensures Position(events, events[k]) == k
  {
    if k > 0 {
      PositionOf(events[1..], k - 1);
    }
  }

  lemma StepKeepsRow(s: State, a: Action, e: EventId)
    requires Inv(s) && Enabled(s, a) && e in Step(s, a).rows
    ensures RowOk(Step(s, a), e)
  {
    if e in s.rows {
      assert RowOk(s, e);
    }
    if a.Mark? {
      assert QueueOk(s, a.relay);
      assert TicketOk(s, PcOf(s, a.relay).queue[0]);
    }
  }

  lemma StepKeepsTicket(s: State, a: Action, i: nat)
    requires Inv(s) && Enabled(s, a) && i < |Step(s, a).tickets|
    ensures TicketOk(Step(s, a), i)
  {
    if i < |s.tickets| {
      assert TicketOk(s, i);
    }
    if a.Publish? || a.Mark? {
      assert QueueOk(s, a.relay);
      assert TicketOk(s, PcOf(s, a.relay).queue[0]);
    }
  }

  /** A lost lock stays lost, and no ticket changes its event. */
  lemma LostStaysLost(s: State, a: Action, e: EventId, i: nat)
    requires Enabled(s, a) && i < |s.tickets| && NoneLost(Step(s, a).tickets, e, i)
    ensures NoneLost(s.tickets, e, i)
  {
    forall k | 0 <= k <= i && s.tickets[k].event == e
      ensures !s.tickets[k].lost
    {
      assert Step(s, a).tickets[k].event == e;
    }
  }

  /** While no lock of its event was lost, the row a ticket holds is not marked through any other ticket. */
  lemma MarkIsOwn(s: State, r: RelayId, i: nat)
    requires Inv(s) && PcOf(s, r).Marking? && i < |s.tickets| && NoneLost(s.tickets, s.tickets[i].event, i)
    requires !IsMarked(s.tickets[i]) || s.tickets[i].confirmed
    ensures PcOf(s, r).queue != [] && PcOf(s, r).queue[0] < |s.tickets|
    ensures s.tickets[PcOf(s, r).queue[0]].event == s.tickets[i].event ==> PcOf(s, r).queue[0] == i
  {
    assert QueueOk(s, r);
    var k := PcOf(s, r).queue[0];
    assert TicketOk(s, i);
    assert k < i ==> OrderOk(s, k, i);
    assert i < k ==> OrderOk(s, i, k);
  }

  lemma StepKeepsHold(s: State, a: Action, i: nat)
    requires Inv(s) && Enabled(s, a) && i < |s.tickets|
    ensures HoldOk(Step(s, a), i)
  {
    var t, e := Step(s, a), s.tickets[i].event;
    assert TicketOk(s, i) && HoldOk(s, i);
    if NoneLost(t.tickets, e, i) {
      LostStaysLost(s, a, e, i);
      if a.Recover? {
        assert !t.tickets[i].lost;
      } else if a.Publish? {
        assert QueueOk(s, a.relay);
      } else if a.Mark? && (!IsMarked(s.tickets[i]) || s.tickets[i].confirmed) {
        MarkIsOwn(s, a.relay, i);
        assert QueueOk(s, a.relay);
      } else if a.Mark? {
        assert QueueOk(s, a.relay);
      }
    }
  }

  lemma NewTicketHolds(s: State, a: Action, i: nat)
    requires Enabled(s, a) && |s.tickets| <= i < |Step(s, a).tickets|
    ensures HoldOk(Step(s, a), i)
  {
    PositionOf(a.events, i - |s.tickets|);
  }

  lemma StepKeepsOrder(s: State, a: Action, i: nat, j: nat)
    requires Inv(s) && Enabled(s, a) && i < j < |Step(s, a).tickets|
    ensures OrderOk(Step(s, a), i, j)
  {
    var t := Step(s, a);
    if i < |s.tickets| && NoneLost(t.tickets, s.tickets[i].event, i) {
      LostStaysLost(s, a, s.tickets[i].event, i);
      if j < |s.tickets| {
        assert OrderOk(s, i, j);
        if a.Publish? || a.Mark? {
          assert QueueOk(s, a.relay);
        }
      } else {
        assert TicketOk(s, i) && HoldOk(s, i);
      }
    }
  }

  /** The relay an action is a step of. */
  predicate ActsFor(a: Action, r: RelayId) {
    (a.Claim? || a.Check? || a.Publish? || a.Mark?) && a.relay == r
  }

  lemma ClaimKeepsQueue(s: State, a: Action, r: RelayId)
    requires QueueOk(s, r) && Enabled(s, a) && a.Claim? && a.relay == r
    ensures QueueOk(Step(s, a), r)
  {
  }

  lemma OwnStepKeepsQueue(s: State, a: Action, r: RelayId)
    requires Inv(s) && Enabled(s, a) && ActsFor(a, r) && !a.Claim?
    ensures QueueOk(Step(s, a), r)
  {
    assert QueueOk(s, r);
  }

  lemma OtherStepKeepsQueue(s: State, a: Action, r: RelayId)
    requires Inv(s) && Enabled(s, a) && !ActsFor(a, r)
    ensures QueueOk(Step(s, a), r)
  {
    assert QueueOk(s, r);
    if a.Publish? || a.Mark? {
      assert QueueOk(s, a.relay);
    }
    assert PcOf(Step(s, a), r) == PcOf(s, r);
  }

  lemma StepKeepsQueue(s: State, a: Action, r: RelayId)
    requires Inv(s) && Enabled(s, a)
    ensures QueueOk(Step(s, a), r)
  {
    assert QueueOk(s, r);
    if ActsFor(a, r) && a.Claim? {
      ClaimKeepsQueue(s, a, r);
    } else if ActsFor(a, r) {
      OwnStepKeepsQueue(s, a, r);
    } else {
      OtherStepKeepsQueue(s, a, r);
    }
  }

  lemma StepKeepsInv(s: State, a: Action)
    requires Inv(s) && Enabled(s, a)
    ensures Inv(Step(s, a))
  {
    var t := Step(s, a);
    forall e | e in t.rows
      ensures RowOk(t, e)
    {
      StepKeepsRow(s, a, e);
    }
    forall i | 0 <= i < |t.tickets|
      ensures TicketOk(t, i) && HoldOk(t, i)
    {
      StepKeepsTicket(s, a, i);
      if i < |s.tickets| {
        StepKeepsHold(s, a, i);
      } else {
        NewTicketHolds(s, a, i);
      }
    }
    forall i, j | 0 <= i < j < |t.tickets|
      ensures OrderOk(t, i, j)
    {
      StepKeepsOrder(s, a, i, j);
    }
    forall r: RelayId
      ensures QueueOk(t, r)
    {
      StepKeepsQueue(s, a, r);
    }
  }

  lemma {:induction false} RunKeepsInv(s: State, actions: seq<Action>)
    requires Inv(s) && Runs(s, actions)
    ensures Inv(After(s, actions))
    decreases |actions|
  {
    if actions != [] {
      StepKeepsInv(s, actions[0]);
      RunKeepsInv(Step(s, actions[0]), actions[1..]);
    }
  }

  /** The states some run of relays leads to. */
  ghost predicate Reachable(s: State) {
    exists config: Config, batch: nat, actions: seq<Action> ::
      Runs(Init(config, batch), actions) && After(Init(config, batch), actions) == s
  }

  lemma {:induction false} RunKeepsConfig(s: State, actions: seq<Action>)
    requires Runs(s, actions)
    ensures After(s, actions).config == s.config
    decreases |actions|
  {
    if actions != [] {
      RunKeepsConfig(Step(s, actions[0]), actions[1..]);
    }
  }

  lemma ReachableInv(s: State)
    requires Reachable(s)
    ensures Inv(s) && s.config == WithDefaults(s.config)
  {
    var config: Config, batch: nat, actions: seq<Action> :|
      Runs(Init(config, batch), actions) && After(Init(config, batch), actions) == s;
    InitInv(config, batch);
    RunKeepsInv(Init(config, batch), actions);
    RunKeepsConfig(Init(config, batch), actions);
  }

  /** A claim locks exactly the claimed rows, each by its own new ticket, queued in the order of the events. */
  lemma ClaimLocks(s: State, r: RelayId, events: seq<EventId>, i: nat)
    requires Enabled(s, Claim(r, events, true)) && i < |events|
    ensures var t := Step(s, Claim(r, events, true)); var ticket := |s.tickets| + i;
      && |t.tickets| == |s.tickets| + |events| && t.rows.Keys == s.rows.Keys
      && |Queue(PcOf(t, r))| == |events| && Queue(PcOf(t, r))[i] == ticket
      && t.tickets[ticket] == Ticket(events[i], r, s.rows[events[i]].attempts, 0, false, 0, 0, false)
      && t.rows[events[i]] == s.rows[events[i]].(lock := Some(ticket))
      && (forall e :: e in s.rows && e !in events ==> t.rows[e] == s.rows[e])
  {
    PositionOf(events, i);
  }

  // ---------- delivery ----------

  /** The step is a publish of the event that the broker acknowledged. */
  predicate IsAcked(s: State, a: Action, e: EventId) {
    && a.Publish? && a.brokerAck
    && var q := Queue(PcOf(s, a.relay)); q != [] && q[0] < |s.tickets| && s.tickets[q[0]].event == e
  }

  /** In that run the broker acknowledges a publish of the event. */
  predicate AckedIn(s: State, actions: seq<Action>, e: EventId)
    requires Runs(s, actions)
    decreases |actions|
  {
    actions != [] && (IsAcked(s, actions[0], e) || AckedIn(Step(s, actions[0]), actions[1..], e))
  }

  lemma {:induction false} AckedByRun(s: State, actions: seq<Action>, e: EventId)
    requires Inv(s) && Runs(s, actions)
    ensures Inv(After(s, actions)) && (e in After(s, actions).acked <==> e in s.acked || AckedIn(s, actions, e))
    decreases |actions|
  {
    if actions != [] {
      if actions[0].Publish? {
        assert QueueOk(s, actions[0].relay);
      }
      StepKeepsInv(s, actions[0]);
      AckedByRun(Step(s, actions[0]), actions[1..], e);
    }
  }

  /**
   At least once: in every run, a row is marked published only after the broker acknowledged a
   publish of that event.
   */
  lemma PublishedOnlyAfterAck(config: Config, batch: nat, actions: seq<Action>, e: EventId)
    requires Runs(Init(config, batch), actions)
    ensures var t := After(Init(config, batch), actions);
      e in t.rows && t.rows[e].published ==> AckedIn(Init(config, batch), actions, e)
  {
    InitInv(config, batch);
    AckedByRun(Init(config, batch), actions, e);
    var t := After(Init(config, batch), actions);
    assert e in t.rows ==> RowOk(t, e);
  }

  /**
   Each claim of an event leads to at most one publish and then at most one mark: MarkPublished
   if the publish was confirmed, MarkFailed if it was not.
   */
  lemma OnePublishOneMark(s: State, i: nat)
    requires Reachable(s) && i < |s.tickets|
    ensures var t := s.tickets[i];
      && t.publishes <= 1
      && (IsMarked(t) ==> t.publishes == 1 && t.markedPublished == (if t.confirmed then 1 else 0)
                          && t.markedFailed == (if t.confirmed then 0 else 1))
  {
    ReachableInv(s);
    assert TicketOk(s, i);
  }

  // ---------- cancellation in mid-batch ----------

  /** A claimed event no relay will come back to. */
  predicate Abandoned(s: State, i: nat)
    requires i < |s.tickets|
  {
    Untouched(s.tickets[i]) && i !in Queue(PcOf(s, s.tickets[i].relay))
  }

  /** A relay that sees its context cancelled leaves the rest of its batch untouched. */
  lemma CancelAbandonsSuffix(s: State, r: RelayId, i: nat)
    requires Reachable(s) && PcOf(s, r).Checking? && r in s.stopped && i in PcOf(s, r).queue
    ensures i < |s.tickets| && Abandoned(Step(s, Check(r)), i)
  {
    ReachableInv(s);
    assert QueueOk(s, r);
  }

  lemma StepKeepsAbandoned(s: State, a: Action, i: nat)
    requires Inv(s) && Enabled(s, a) && i < |s.tickets| && Abandoned(s, i)
    ensures i < |Step(s, a).tickets| && Abandoned(Step(s, a), i)
    ensures Step(s, a).tickets[i].event == s.tickets[i].event
  {
    if a.Claim? || a.Check? || a.Publish? || a.Mark? {
      assert QueueOk(s, a.relay);
    }
  }

  /** An abandoned event gets neither a publish nor a mark for that claim, in any continuation. */
  lemma {:induction false} AbandonedStaysUntouched(s: State, actions: seq<Action>, i: nat)
    requires Inv(s) && Runs(s, actions) && i < |s.tickets| && Abandoned(s, i)
    ensures var t := After(s, actions);
      i < |t.tickets| && Abandoned(t, i) && t.tickets[i].event == s.tickets[i].event
    decreases |actions|
  {
    if actions != [] {
      StepKeepsInv(s, actions[0]);
      StepKeepsAbandoned(s, actions[0], i);
      AbandonedStaysUntouched(Step(s, actions[0]), actions[1..], i);
    }
  }

  // ---------- nothing is lost ----------

  /** A failed publish makes its event available again after a positive delay of at most MaxBackoff. */
  lemma MarkFailedReschedules(s: State, r: RelayId)
    requires Reachable(s) && PcOf(s, r).Marking? && !PcOf(s, r).ok
    ensures PcOf(s, r).queue != [] && PcOf(s, r).queue[0] < |s.tickets|
    ensures var e := s.tickets[PcOf(s, r).queue[0]].event;
      && e in s.rows && e in Step(s, Mark(r, true, true)).rows
      && var row := Step(s, Mark(r, true, true)).rows[e];
         && row.lock.None? && row.published == s.rows[e].published
         && row.attempts == Wrap64(s.rows[e].attempts as int + 1)
         && row.availableAt == s.now + FailDelay(s.config, s.tickets[PcOf(s, r).queue[0]].attempts)
         && s.now < row.availableAt <= s.now + s.config.maxBackoff as int
  {
    ReachableInv(s);
    assert QueueOk(s, r);
    assert TicketOk(s, PcOf(s, r).queue[0]);
    FailDelayBounds(s.config, s.tickets[PcOf(s, r).queue[0]].attempts);
  }

  /** An applied MarkPublished settles its row for good and leaves every other row alone. */
  lemma MarkPublishedSettles(s: State, r: RelayId)
    requires Reachable(s) && PcOf(s, r).Marking? && PcOf(s, r).ok
    ensures PcOf(s, r).queue != [] && PcOf(s, r).queue[0] < |s.tickets|
    ensures var e, t := s.tickets[PcOf(s, r).queue[0]].event, Step(s, Mark(r, true, true));
      && e in s.acked && e in s.rows && t.rows.Keys == s.rows.Keys
      && t.rows[e] == s.rows[e].(published := true, lock := None)
      && (forall other :: other in s.rows && other != e ==> t.rows[other] == s.rows[other])
  {
    ReachableInv(s);
    assert QueueOk(s, r);
    assert TicketOk(s, PcOf(s, r).queue[0]);
  }

  lemma {:induction false} PublishedForGood(s: State, actions: seq<Action>, e: EventId)
    requires Runs(s, actions) && e in s.rows && s.rows[e].published
    ensures e in After(s, actions).rows && After(s, actions).rows[e].published
    decreases |actions|
  {
    if actions != [] {
      PublishedForGood(Step(s, actions[0]), actions[1..], e);
    }
  }

  lemma Prepend(s: State, a: Action, rest: seq<Action>)
    requires Enabled(s, a) && Runs(Step(s, a), rest)
    ensures Runs(s, [a] + rest) && After(s, [a] + rest) == After(Step(s, a), rest)
  {
    assert ([a] + rest)[1..] == rest;
  }

  /** An idle relay delivers a claimable event in four steps when nothing fails. */
  lemma Delivers(s: State, e: EventId, r: RelayId) returns (actions: seq<Action>)
    requires Inv(s) && Claimable(s, e) && PcOf(s, r).Idle? && r !in s.stopped && s.batch >= 1
    ensures Runs(s, actions) && e in After(s, actions).rows && After(s, actions).rows[e].published
  {
    var claim, publish, mark := Claim(r, [e], true), Publish(r, Acked, true), Mark(r, true, true);
    var s1 := Step(s, claim);
    assert PcOf(s1, r).queue == [|s.tickets|] && s1.tickets[|s.tickets|].event == e && e in s1.rows;
    var s2 := Step(s1, Check(r));
    var s3 := Step(s2, publish);
    assert s3.tickets[|s.tickets|].event == e && e in s3.rows;
    var s4 := Step(s3, mark);
    Prepend(s3, mark, []);
    Prepend(s2, publish, [mark]);
    Prepend(s1, Check(r), [publish] + [mark]);
    Prepend(s, claim, [Check(r)] + ([publish] + [mark]));
    actions := [claim] + ([Check(r)] + ([publish] + [mark]));
  }

  /** No event is ever lost: from every reachable state an idle relay can still deliver any unpublished event. */
  lemma NeverLost(s: State, e: EventId, r: RelayId) returns (actions: seq<Action>)
    requires Reachable(s) && e in s.rows && !s.rows[e].published
    requires PcOf(s, r).Idle? && r !in s.stopped && s.batch >= 1
    ensures Runs(s, actions) && e in After(s, actions).rows && After(s, actions).rows[e].published
  {
    ReachableInv(s);
    var unlock := Recover({e});
    var clock := AdvanceClock(if s.now <= s.rows[e].availableAt then s.rows[e].availableAt else s.now);
    StepKeepsInv(s, unlock);
    StepKeepsInv(Step(s, unlock), clock);
    var rest := Delivers(Step(Step(s, unlock), clock), e, r);
    Prepend(Step(s, unlock), clock, rest);
    Prepend(s, unlock, [clock] + rest);
    actions := [unlock] + ([clock] + rest);
  }
}
