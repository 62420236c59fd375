/**
 What the locks of the outbox guarantee, and exactly how much of it every lock recovery costs:
 how many claims of an event can be under way together, how many of its publishes can be
 confirmed, and how long an abandoned event stays locked.
 */
module OutboxLocks {
  import opened Common
  import opened Backoff
  import opened Outbox

  // ---------- counting tickets ----------

  function Count(tickets: seq<Ticket>, p: Ticket -> bool): nat {
    if tickets == [] then 0
    else Count(tickets[..|tickets| - 1], p) + (if p(tickets[|tickets| - 1]) then 1 else 0)
  }

  /** The claims of an event. */
  function ClaimOf(e: EventId): Ticket -> bool {
    (t: Ticket) => t.event == e
  }

  /** Those whose lock was released by lock recovery. */
  function LostOf(e: EventId): Ticket -> bool {
    (t: Ticket) => t.event == e && t.lost
  }

  /** Those still under way: not marked yet. */
  function UnmarkedOf(e: EventId): Ticket -> bool {
    (t: Ticket) => t.event == e && !IsMarked(t)
  }

  /** Those whose publish was confirmed to the relay. */
  function ConfirmedOf(e: EventId): Ticket -> bool {
    (t: Ticket) => t.event == e && t.confirmed
  }

  function UnfailedOf(e: EventId): Ticket -> bool {
    (t: Ticket) => t.event == e && t.markedFailed == 0
  }

  /** The publishes of an event. */
  function Publishes(tickets: seq<Ticket>, e: EventId): nat {
    if tickets == [] then 0
    else Publishes(tickets[..|tickets| - 1], e)
         + (if tickets[|tickets| - 1].event == e then tickets[|tickets| - 1].publishes else 0)
  }

  lemma {:induction false} CountAppend(a: seq<Ticket>, b: seq<Ticket>, p: Ticket -> bool)
    ensures Count(a + b, p) == Count(a, p) + Count(b, p)
    decreases |b|
  {
    if b == [] {
      assert a + b == a;
    } else {
      CountAppend(a, b[..|b| - 1], p);
      assert (a + b)[..|a + b| - 1] == a + b[..|b| - 1];
    }
  }

  lemma {:induction false} CountImplies(tickets: seq<Ticket>, p: Ticket -> bool, q: Ticket -> bool)
    requires forall i :: 0 <= i < |tickets| && p(tickets[i]) ==> q(tickets[i])
    ensures Count(tickets, p) <= Count(tickets, q)
  {
    if tickets != [] {
      CountImplies(tickets[..|tickets| - 1], p, q);
    }
  }

  lemma {:induction false} CountNone(tickets: seq<Ticket>, p: Ticket -> bool)
    requires forall i :: 0 <= i < |tickets| ==> !p(tickets[i])
    ensures Count(tickets, p) == 0
  {
    if tickets != [] {
      CountNone(tickets[..|tickets| - 1], p);
    }
  }

  lemma {:induction false} CountSame(a: seq<Ticket>, b: seq<Ticket>, p: Ticket -> bool)
    requires |a| == |b| && forall i :: 0 <= i < |a| ==> p(a[i]) == p(b[i])
    ensures Count(a, p) == Count(b, p)
  {
    if a != [] {
      CountSame(a[..|a| - 1], b[..|b| - 1], p);
    }
  }

  /** A change at one place changes the count by that place. */
  lemma {:induction false} CountChangedAt(a: seq<Ticket>, b: seq<Ticket>, i: nat, p: Ticket -> bool)
    requires i < |a| == |b| && forall k :: 0 <= k < |a| && k != i ==> p(a[k]) == p(b[k])
    ensures Count(b, p) + (if p(a[i]) then 1 else 0) == Count(a, p) + (if p(b[i]) then 1 else 0)
  {
    var last := |a| - 1;
    if i == last {
      CountSame(a[..last], b[..last], p);
    } else {
      CountChangedAt(a[..last], b[..last], i, p);
    }
  }

  // ---------- the budget of an event ----------

  predicate Taken(s: State, e: EventId) {
    e in s.rows && (s.rows[e].published || s.rows[e].lock.Some?)
  }

  /**
   Every claim of an event that was not marked failed is paid for: by the row being locked or
   published, or by a lock recovery that took the lock of some claim of it.
   */
  predicate Budget(s: State, e: EventId) {
    Count(s.tickets, UnfailedOf(e)) <= Count(s.tickets, LostOf(e)) + (if Taken(s, e) then 1 else 0)
  }

  lemma {:induction false} NewClaims(events: seq<EventId>, tickets: seq<Ticket>, e: EventId)
    requires |tickets| == |events| && forall i :: 0 <= i < |events| ==> tickets[i].event == events[i] && !tickets[i].lost
    requires forall i, j :: 0 <= i < j < |events| ==> events[i] != events[j]
    ensures Count(tickets, UnfailedOf(e)) <= (if e in events then 1 else 0) && Count(tickets, LostOf(e)) == 0
  {
    CountNone(tickets, LostOf(e));
    if events != [] {
      var last := |events| - 1;
      NewClaims(events[..last], tickets[..last], e);
      assert e in events[..last] ==> e in events && events[last] != e;
      assert events[last] in events;
    }
  }

  lemma ClaimAdds(s: State, a: Action) returns (added: seq<Ticket>)
    requires Enabled(s, a) && a.Claim?
    ensures Step(s, a).tickets == s.tickets + added && |added| == |a.events|
    ensures forall i :: 0 <= i < |added| ==> added[i].event == a.events[i] && !added[i].lost
  {
    added := Step(s, a).tickets[|s.tickets|..];
  }

  lemma ClaimTakes(s: State, a: Action, e: EventId)
    requires Enabled(s, a) && a.Claim?
    ensures e in a.events ==> !Taken(s, e) && Taken(Step(s, a), e)
    ensures e !in a.events ==> (Taken(Step(s, a), e) <==> Taken(s, e))
  {
    assert e in a.events ==> Claimable(s, e);
  }

  lemma ClaimKeepsBudget(s: State, a: Action, e: EventId)
    requires Enabled(s, a) && a.Claim? && Budget(s, e)
    ensures Budget(Step(s, a), e)
  {
    var added := ClaimAdds(s, a);
    CountAppend(s.tickets, added, UnfailedOf(e));
    CountAppend(s.tickets, added, LostOf(e));
    NewClaims(a.events, added, e);
    ClaimTakes(s, a, e);
  }

  lemma MarkKeepsBudget(s: State, a: Action, e: EventId)
    requires Inv(s) && Enabled(s, a) && (a.Publish? || a.Mark?) && Budget(s, e)
    ensures Budget(Step(s, a), e)
  {
    assert QueueOk(s, a.relay);
    var i := PcOf(s, a.relay).queue[0];
    CountChangedAt(s.tickets, Step(s, a).tickets, i, UnfailedOf(e));
    CountChangedAt(s.tickets, Step(s, a).tickets, i, LostOf(e));
  }

  lemma RecoverKeepsBudget(s: State, a: Action, e: EventId)
    requires Inv(s) && Enabled(s, a) && a.Recover? && Budget(s, e)
    ensures Budget(Step(s, a), e)
  {
    var t := Step(s, a);
    CountSame(s.tickets, t.tickets, UnfailedOf(e));
    if e in a.stuck && e in s.rows && s.rows[e].lock.Some? {
      assert RowOk(s, e);
      var i := s.rows[e].lock.value;
      assert Holds(s, i) && !s.tickets[i].lost && t.tickets[i].lost;
      CountChangedAt(s.tickets, t.tickets, i, LostOf(e));
    } else {
      CountSame(s.tickets, t.tickets, LostOf(e));
    }
  }

  lemma StepKeepsBudget(s: State, a: Action, e: EventId)
    requires Inv(s) && Enabled(s, a) && Budget(s, e)
    ensures Budget(Step(s, a), e)
  {
    match a
    case Claim(_, _, _) => ClaimKeepsBudget(s, a, e);
    case Publish(_, _, _) => MarkKeepsBudget(s, a, e);
    case Mark(_, _, _) => MarkKeepsBudget(s, a, e);
    case Recover(_) => RecoverKeepsBudget(s, a, e);
    case _ =>
  }

  lemma {:induction false} RunKeepsBudget(s: State, actions: seq<Action>, e: EventId)
    requires Inv(s) && Runs(s, actions) && Budget(s, e)
    ensures Budget(After(s, actions), e)
    decreases |actions|
  {
    if actions != [] {
      StepKeepsInv(s, actions[0]);
      StepKeepsBudget(s, actions[0], e);
      RunKeepsBudget(Step(s, actions[0]), actions[1..], e);
    }
  }

  lemma ReachableBudget(s: State, e: EventId)
    requires Reachable(s)
    ensures Budget(s, e)
  {
    var config: Config, batch: nat, actions: seq<Action> :|
      Runs(Init(config, batch), actions) && After(Init(config, batch), actions) == s;
    InitInv(config, batch);
    RunKeepsBudget(Init(config, batch), actions, e);
  }

  // ---------- upper bounds over every run ----------

  lemma {:induction false} PublishesAtMostClaims(tickets: seq<Ticket>, e: EventId)
    requires forall i :: 0 <= i < |tickets| ==> Lifecycle(tickets[i])
    ensures Publishes(tickets, e) <= Count(tickets, ClaimOf(e))
  {
    if tickets != [] {
      PublishesAtMostClaims(tickets[..|tickets| - 1], e);
    }
  }

  /**
   Over whole runs of any number of relays: publishes of an event never exceed its claims; and
   with n of its locks lost to recovery, at most n + 1 of its publishes are confirmed to a
   relay and at most n + 1 of its claims are under way together.
   */
  lemma PublishesBounded(s: State, e: EventId)
    requires Reachable(s)
    ensures Publishes(s.tickets, e) <= Count(s.tickets, ClaimOf(e))
    ensures Count(s.tickets, ConfirmedOf(e)) <= Count(s.tickets, LostOf(e)) + 1
    ensures Count(s.tickets, UnmarkedOf(e)) <= Count(s.tickets, LostOf(e)) + 1
  {
    ReachableInv(s);
    ReachableBudget(s, e);
    forall i | 0 <= i < |s.tickets|
      ensures Lifecycle(s.tickets[i])
    {
      assert TicketOk(s, i);
    }
    PublishesAtMostClaims(s.tickets, e);
    CountImplies(s.tickets, ConfirmedOf(e), UnfailedOf(e));
    CountImplies(s.tickets, UnmarkedOf(e), UnfailedOf(e));
  }

  /**
   Exclusive claims: an event is claimed again before an earlier claim of it was marked failed
   only if that claim, or one before it, had lost its lock to recovery.
   */
  lemma ClaimsExclusive(s: State, i: nat, j: nat)
    requires Reachable(s) && i < j < |s.tickets| && s.tickets[i].event == s.tickets[j].event
    requires s.tickets[i].markedFailed == 0
    ensures exists k :: 0 <= k <= i && s.tickets[k].event == s.tickets[i].event && s.tickets[k].lost
  {
    ReachableInv(s);
    assert OrderOk(s, i, j);
  }

  // ---------- the bounds are exact ----------

  lemma {:induction false} AfterSnoc(s: State, actions: seq<Action>, a: Action)
    requires Runs(s, actions) && Enabled(After(s, actions), a)
    ensures Runs(s, actions + [a]) && After(s, actions + [a]) == Step(After(s, actions), a)
    decreases |actions|
  {
    if actions == [] {
      assert actions + [a] == [a];
      assert Runs(Step(s, a), [a][1..]);
    } else {
      AfterSnoc(Step(s, actions[0]), actions[1..], a);
      assert (actions + [a])[1..] == actions[1..] + [a];
    }
  }

  lemma ReachableStep(s: State, a: Action)
    requires Reachable(s) && Enabled(s, a)
    ensures Reachable(Step(s, a))
  {
    var config: Config, batch: nat, actions: seq<Action> :|
      Runs(Init(config, batch), actions) && After(Init(config, batch), actions) == s;
    AfterSnoc(Init(config, batch), actions, a);
  }

  /** No relay numbered r or above is in the middle of a tick. */
  predicate IdleFrom(s: State, r: RelayId) {
    forall q :: q in s.relays && q >= r ==> s.relays[q].Idle?
  }

  /** The event can be claimed, and the relays from r on are idle. */
  ghost predicate Ready(s: State, e: EventId, r: RelayId) {
    Reachable(s) && s.batch >= 1 && Claimable(s, e) && s.stopped == {} && IdleFrom(s, r)
  }

  /** The last ticket, x, is relay r's claim of an event whose row it has locked; before it come the given tickets. */
  ghost predicate Last(s: State, before: seq<Ticket>, e: EventId, r: RelayId, x: Ticket) {
    && Reachable(s) && s.batch >= 1 && s.stopped == {} && s.tickets == before + [x] && x.event == e
    && e in s.rows && !s.rows[e].published && s.rows[e].availableAt <= s.now && s.rows[e].lock == Some(|before|)
    && IdleFrom(s, r + 1)
  }

  /** Relay r claims the event and is about to publish it. */
  lemma ClaimAlone(s: State, e: EventId, r: RelayId) returns (t: State, x: Ticket)
    requires Ready(s, e, r)
    ensures Last(t, s.tickets, e, r, x) && Untouched(x) && !x.lost
    ensures PcOf(t, r) == Publishing([|s.tickets|])
  {
    var claim := Claim(r, [e], true);
    ReachableStep(s, claim);
    var s1 := Step(s, claim);
    assert PcOf(s1, r).queue == [|s.tickets|];
    ReachableStep(s1, Check(r));
    t := Step(s1, Check(r));
    x := t.tickets[|s.tickets|];
    assert t.tickets == s.tickets + [x];
  }

  /** It publishes, with or without a confirmation. */
  lemma PublishLast(s: State, before: seq<Ticket>, e: EventId, r: RelayId, x: Ticket, ok: bool) returns (t: State, y: Ticket)
    requires Last(s, before, e, r, x) && PcOf(s, r) == Publishing([|before|])
    ensures Last(t, before, e, r, y) && PcOf(t, r) == Marking([|before|], ok)
    ensures y == x.(publishes := x.publishes + 1, confirmed := ok)
  {
    var publish := Publish(r, if ok then Acked else Nacked, ok);
    ReachableStep(s, publish);
    t := Step(s, publish);
    y := t.tickets[|before|];
    assert t.tickets == before + [y];
  }

  /** Its mark is lost on the way to the store. */
  lemma MarkLostLast(s: State, before: seq<Ticket>, e: EventId, r: RelayId, x: Ticket, ok: bool) returns (t: State, y: Ticket)
    requires Last(s, before, e, r, x) && PcOf(s, r) == Marking([|before|], ok)
    ensures Last(t, before, e, r, y) && IsMarked(y)
    ensures y.event == x.event && y.confirmed == x.confirmed && y.lost == x.lost
  {
    var mark := Mark(r, false, false);
    ReachableStep(s, mark);
    t := Step(s, mark);
    y := t.tickets[|before|];
    assert t.tickets == before + [y];
  }

  /** Recovery takes its lock. */
  lemma RecoverLast(s: State, before: seq<Ticket>, e: EventId, r: RelayId, x: Ticket) returns (t: State)
    requires Last(s, before, e, r, x)
    ensures Ready(t, e, r + 1) && t.tickets == before + [x.(lost := true)]
  {
    ReachableInv(s);
    ReachableStep(s, Recover({e}));
    t := Step(s, Recover({e}));
    assert Holds(s, |before|);
    forall i | 0 <= i < |before|
      ensures t.tickets[i] == before[i]
    {
      assert s.tickets[i] == before[i] && !(s.tickets[i].event == e && Holds(s, i));
    }
    assert t.tickets == before + [x.(lost := true)];
  }

  /** What a claim is asked to leave behind for good: being under way, or a confirmed publish. */
  datatype Trace = UnderWay | Confirmed

  function Of(trace: Trace, e: EventId): Ticket -> bool {
    if trace.UnderWay? then UnmarkedOf(e) else ConfirmedOf(e)
  }

  lemma CountLast(before: seq<Ticket>, x: Ticket, p: Ticket -> bool)
    ensures Count(before + [x], p) == Count(before, p) + (if p(x) then 1 else 0)
  {
    assert (before + [x])[..|before|] == before;
  }

  /** A claim that leaves the trace, or does not, and then loses its lock. */
  lemma ClaimAndLose(s: State, e: EventId, r: RelayId, trace: Trace, leaves: bool) returns (t: State)
    requires Ready(s, e, r)
    ensures Ready(t, e, r + 1)
    ensures Count(t.tickets, LostOf(e)) == Count(s.tickets, LostOf(e)) + 1
    ensures Count(t.tickets, Of(trace, e)) == Count(s.tickets, Of(trace, e)) + (if leaves then 1 else 0)
  {
    var t1, x := ClaimAlone(s, e, r);
    if !(leaves && trace.UnderWay?) {
      t1, x := PublishLast(t1, s.tickets, e, r, x, leaves);
      t1, x := MarkLostLast(t1, s.tickets, e, r, x, leaves);
    }
    t := RecoverLast(t1, s.tickets, e, r, x);
    CountLast(s.tickets, x.(lost := true), LostOf(e));
    CountLast(s.tickets, x.(lost := true), Of(trace, e));
  }

  /** n claims that lose their locks, c of which leave the trace. */
  lemma {:induction false} LoseLocks(e: EventId, trace: Trace, n: nat, c: nat) returns (s: State)
    requires c <= n
    ensures Ready(s, e, n) && Count(s.tickets, LostOf(e)) == n && Count(s.tickets, Of(trace, e)) == c
    decreases n
  {
    if n == 0 {
      var s0 := Init(Config(0, 0, 0), 1);
      assert Runs(s0, []) && After(s0, []) == s0;
      ReachableStep(s0, Insert(e));
      s := Step(s0, Insert(e));
    } else {
      var t := LoseLocks(e, trace, n - 1, if c == 0 then 0 else c - 1);
      s := ClaimAndLose(t, e, n - 1, trace, c > 0);
    }
  }

  /** One more claim leaves the trace without losing its lock. */
  lemma ClaimAndKeep(s: State, e: EventId, r: RelayId, trace: Trace) returns (t: State)
    requires Ready(s, e, r)
    ensures Reachable(t) && Count(t.tickets, LostOf(e)) == Count(s.tickets, LostOf(e))
    ensures Count(t.tickets, Of(trace, e)) == Count(s.tickets, Of(trace, e)) + 1
  {
    var x;
    t, x := ClaimAlone(s, e, r);
    if trace.Confirmed? {
      t, x := PublishLast(t, s.tickets, e, r, x, true);
    }
    CountLast(s.tickets, x, LostOf(e));
    CountLast(s.tickets, x, Of(trace, e));
  }

  /** Some run loses n locks of the event and leaves c of its claims with the trace. */
  ghost predicate Possible(e: EventId, trace: Trace, n: nat, c: nat) {
    exists s: State :: Reachable(s) && Count(s.tickets, LostOf(e)) == n && Count(s.tickets, Of(trace, e)) == c
  }

  lemma ExactlyOneMore(e: EventId, trace: Trace, n: nat, c: nat)
    ensures Possible(e, trace, n, c) <==> c <= n + 1
  {
    if Possible(e, trace, n, c) {
      var s: State :| Reachable(s) && Count(s.tickets, LostOf(e)) == n && Count(s.tickets, Of(trace, e)) == c;
      PublishesBounded(s, e);
    }
    if c <= n {
      var s := LoseLocks(e, trace, n, c);
    } else if c == n + 1 {
      var s := LoseLocks(e, trace, n, n);
      var t := ClaimAndKeep(s, e, n, trace);
    }
  }

  /**
   Exclusivity, exactly: with n locks of an event lost to recovery, c of its claims can be under
   way together if and only if c <= n + 1. So two can if and only if some lock was lost.
   */
  lemma ClaimsUnderWayExactly(e: EventId, n: nat, c: nat)
    ensures (exists s: State :: Reachable(s) && Count(s.tickets, LostOf(e)) == n && Count(s.tickets, UnmarkedOf(e)) == c)
            <==> c <= n + 1
  {
    ExactlyOneMore(e, UnderWay, n, c);
    assert Of(UnderWay, e) == UnmarkedOf(e);
  }

  /**
   Duplicates, exactly: with n locks of an event lost to recovery, c publishes of it can be
   confirmed if and only if c <= n + 1.
   */
  lemma ConfirmationsExactly(e: EventId, n: nat, c: nat)
    ensures (exists s: State :: Reachable(s) && Count(s.tickets, LostOf(e)) == n && Count(s.tickets, ConfirmedOf(e)) == c)
            <==> c <= n + 1
  {
    ExactlyOneMore(e, Confirmed, n, c);
    assert Of(Confirmed, e) == ConfirmedOf(e);
  }

  /** From any state, recovering the lock of a claim under way lets an idle relay claim the event beside it. */
  lemma RecoveryOverlaps(s: State, i: nat, r: RelayId)
    requires Reachable(s) && i < |s.tickets| && !IsMarked(s.tickets[i]) && PcOf(s, r).Idle? && s.batch >= 1
    requires var e := s.tickets[i].event; e in s.rows && !s.rows[e].published && s.rows[e].availableAt <= s.now
    ensures var e := s.tickets[i].event; var actions := [Recover({e}), Claim(r, [e], true)];
      && Runs(s, actions)
      && var t := After(s, actions);
         && |t.tickets| == |s.tickets| + 1 && !IsMarked(t.tickets[i]) && t.tickets[i].event == e
         && t.tickets[|s.tickets|].event == e && Untouched(t.tickets[|s.tickets|])
  {
    var e := s.tickets[i].event;
    var s1 := Step(s, Recover({e}));
    Prepend(s1, Claim(r, [e], true), []);
    Prepend(s, Recover({e}), [Claim(r, [e], true)]);
    assert [Recover({e})] + [Claim(r, [e], true)] == [Recover({e}), Claim(r, [e], true)];
    assert [Claim(r, [e], true)] + [] == [Claim(r, [e], true)];
  }

  // ---------- how long an event stays locked ----------

  /** No relay will come back to any claim of the event. */
  ghost predicate LeftAlone(s: State, e: EventId) {
    forall r: RelayId, i :: i in Queue(PcOf(s, r)) && i < |s.tickets| ==> s.tickets[i].event != e
  }

  predicate Recovers(actions: seq<Action>, e: EventId) {
    exists k :: 0 <= k < |actions| && actions[k].Recover? && e in actions[k].stuck
  }

  /** A ticket in a relay's queue was in it before, or has just been claimed. */
  lemma QueuedBefore(s: State, a: Action, r: RelayId, k: nat)
    requires Enabled(s, a) && k in Queue(PcOf(Step(s, a), r)) && k < |Step(s, a).tickets|
    ensures k < |s.tickets| ==> k in Queue(PcOf(s, r))
    ensures |s.tickets| <= k ==> a.Claim? && Step(s, a).tickets[k].event in a.events
  {
  }

  lemma StepLeavesAlone(s: State, a: Action, e: EventId)
    requires Enabled(s, a) && !Claimable(s, e) && LeftAlone(s, e)
    ensures LeftAlone(Step(s, a), e)
  {
    var t := Step(s, a);
    forall r: RelayId, k | k in Queue(PcOf(t, r)) && k < |t.tickets|
      ensures t.tickets[k].event != e
    {
      QueuedBefore(s, a, r, k);
      assert k < |s.tickets| ==> t.tickets[k].event == s.tickets[k].event;
    }
  }

  lemma StepKeepsLock(s: State, a: Action, e: EventId, i: nat)
    requires Inv(s) && Enabled(s, a) && i < |s.tickets| && e in s.rows && s.rows[e].lock == Some(i) && LeftAlone(s, e)
    requires !(a.Recover? && e in a.stuck)
    ensures var t := Step(s, a); i < |t.tickets| && e in t.rows && t.rows[e].lock == Some(i) && LeftAlone(t, e)
  {
    StepLeavesAlone(s, a, e);
    if a.Mark? {
      assert QueueOk(s, a.relay);
      assert PcOf(s, a.relay).queue[0] in Queue(PcOf(s, a.relay));
    }
  }

  lemma {:induction false} LostForGood(s: State, actions: seq<Action>, e: EventId, i: nat)
    requires Runs(s, actions) && i < |s.tickets| && e in s.rows && s.rows[e].lock != Some(i)
    ensures e in After(s, actions).rows && After(s, actions).rows[e].lock != Some(i)
    decreases |actions|
  {
    if actions != [] {
      LostForGood(Step(s, actions[0]), actions[1..], e, i);
    }
  }

  /**
   Locked until recovery: when no relay will come back to any claim of a locked event, its lock
   stays where it is in every continuation if and only if no recovery in it takes the event.
   */
  lemma {:induction false} LockedUntilRecovery(s: State, actions: seq<Action>, e: EventId, i: nat)
    requires Inv(s) && Runs(s, actions)
    requires i < |s.tickets| && e in s.rows && s.rows[e].lock == Some(i) && LeftAlone(s, e)
    ensures e in After(s, actions).rows
    ensures After(s, actions).rows[e].lock == Some(i) <==> !Recovers(actions, e)
    decreases |actions|
  {
    if actions != [] {
      var a, rest := actions[0], actions[1..];
      if a.Recover? && e in a.stuck {
        LostForGood(Step(s, a), rest, e, i);
      } else {
        StepKeepsInv(s, a);
        StepKeepsLock(s, a, e, i);
        LockedUntilRecovery(Step(s, a), rest, e, i);
        if Recovers(actions, e) {
          var k :| 0 <= k < |actions| && actions[k].Recover? && e in actions[k].stuck;
          assert rest[k - 1] == actions[k];
        }
        if Recovers(rest, e) {
          var k :| 0 <= k < |rest| && rest[k].Recover? && e in rest[k].stuck;
          assert actions[k + 1] == rest[k];
        }
      }
    }
  }

  /** What a relay still has to do is its own, and not marked. */
  lemma QueuedUnmarked(s: State, r: RelayId, k: nat)
    requires Inv(s) && k in Queue(PcOf(s, r))
    ensures k < |s.tickets| && s.tickets[k].relay == r && !IsMarked(s.tickets[k])
  {
    assert QueueOk(s, r);
  }

  /** An abandoned event whose claims have lost no lock up to then is locked by its claim and left alone. */
  lemma AbandonedAlone(s: State, i: nat)
    requires Inv(s) && i < |s.tickets| && Abandoned(s, i) && NoneLost(s.tickets, s.tickets[i].event, i)
    ensures Holds(s, i) && LeftAlone(s, s.tickets[i].event)
  {
    assert TicketOk(s, i) && HoldOk(s, i);
    forall r: RelayId, k | k in Queue(PcOf(s, r)) && k < |s.tickets|
      ensures s.tickets[k].event != s.tickets[i].event
    {
      QueuedUnmarked(s, r, k);
      assert k < i ==> OrderOk(s, k, i);
      assert i < k ==> OrderOk(s, i, k);
    }
  }

  /**
   An abandoned event gets neither a publish nor a mark for that claim in any continuation. It
   stays locked in exactly those that do not recover it, provided no lock of an earlier claim
   of it was lost, or else all its claims have been left and this one holds the lock.
   */
  lemma AbandonedStaysLocked(s: State, actions: seq<Action>, i: nat)
    requires Reachable(s) && Runs(s, actions) && i < |s.tickets| && Abandoned(s, i)
    ensures var t, e := After(s, actions), s.tickets[i].event;
      && i < |t.tickets| && Untouched(t.tickets[i]) && t.tickets[i].event == e
      && (NoneLost(s.tickets, e, i) || (Holds(s, i) && LeftAlone(s, e)) ==>
            e in t.rows && (t.rows[e].lock == Some(i) <==> !Recovers(actions, e)))
  {
    ReachableInv(s);
    AbandonedStaysUntouched(s, actions, i);
    if NoneLost(s.tickets, s.tickets[i].event, i) {
      AbandonedAlone(s, i);
    }
    if Holds(s, i) && LeftAlone(s, s.tickets[i].event) {
      LockedUntilRecovery(s, actions, s.tickets[i].event, i);
    }
  }

  /**
   Delays are respected: an unlocked event that no relay will come back to is neither claimed
   nor changed in any other way before the time it becomes available.
   */
  lemma {:induction false} NotClaimedEarly(s: State, actions: seq<Action>, e: EventId)
    requires Inv(s) && Runs(s, actions) && e in s.rows && s.rows[e].lock.None? && LeftAlone(s, e)
    requires After(s, actions).now < s.rows[e].availableAt
    ensures var t := After(s, actions);
      && e in t.rows && t.rows[e] == s.rows[e]
      && Count(t.tickets, ClaimOf(e)) == Count(s.tickets, ClaimOf(e))
    decreases |actions|
  {
    if actions != [] {
      var a, t := actions[0], Step(s, actions[0]);
      ClockGoesOn(t, actions[1..]);
      assert !Claimable(s, e);
      StepLeavesAlone(s, a, e);
      StepKeepsInv(s, a);
      EarlyStep(s, a, e);
      NotClaimedEarly(t, actions[1..], e);
    }
  }

  lemma {:induction false} ClockGoesOn(s: State, actions: seq<Action>)
    requires Runs(s, actions)
    ensures s.now <= After(s, actions).now
    decreases |actions|
  {
    if actions != [] {
      ClockGoesOn(Step(s, actions[0]), actions[1..]);
    }
  }

  lemma EarlyStep(s: State, a: Action, e: EventId)
    requires Inv(s) && Enabled(s, a) && !Claimable(s, e) && e in s.rows && s.rows[e].lock.None? && LeftAlone(s, e)
    ensures e in Step(s, a).rows && Step(s, a).rows[e] == s.rows[e]
    ensures Count(Step(s, a).tickets, ClaimOf(e)) == Count(s.tickets, ClaimOf(e))
  {
    if a.Claim? {
      var added := ClaimAdds(s, a);
      CountAppend(s.tickets, added, ClaimOf(e));
      CountNone(added, ClaimOf(e));
    } else {
      CountSame(s.tickets, Step(s, a).tickets, ClaimOf(e));
      if a.Mark? {
        assert QueueOk(s, a.relay);
        assert PcOf(s, a.relay).queue[0] in Queue(PcOf(s, a.relay));
      }
    }
  }
}
