/**
 The connection lifecycle of the AMQP client as a protocol between threads.

 One goroutine (first New, then the reconnect loop it starts) dials, sets up and
 installs connections. Any number of callers of Close race with it, connections drop
 and the parent context is cancelled at any moment. A state holds the shared fields of
 the client, a program counter for each thread, and the history needed to say who owns
 which connection. Each action is one shared read, one shared write, one critical
 section of mu, or one call into the AMQP library; isClosing is two actions, because it
 reads the closing flag and the context separately.
 */
module RabbitClient {
  import opened Common

  type ConnId = nat

  /** The eight places that consult isClosing. */
  datatype Site =
    | LoopTop | AfterNotify | RetryTop | RetryFailed | BeforeReconnect | BeforeDial | AfterDial | AfterSetup

  /** Where the goroutine that runs New and then reconnectLoop stands. */
  datatype WorkerPc =
    | ReadClosing(site: Site)        // isClosing, first read: closing.Load()
    | ReadCtx(site: Site)            // isClosing, second read: ctx.Err()
    | Dial | OpenChannel | RunSetup
    | Install                        // the critical section that re-checks closing and swaps conn
    | CheckPrior | ClosePrior        // the replaced connection: IsClosed, then Close
    | Discard                        // closing the connection in hand before returning an error
    | ReadConn | Subscribe | Parked  // closeNotifications, then the select
    | Backoff(retrying: bool)        // Wait inside waitReconnect; retrying tells its two callers apart
    | ReadAfterWait(retrying: bool)
    | Spawn | CancelNew | Failed     // New: starting the loop, or failing
    | Returning | Exited             // wg.Done still to run, then gone

  /** Where the body passed to closeOnce.Do stands. */
  datatype CloserPc =
    Idle | StoreClosing | CancelCtx | TakeConn | CloseTaken | AwaitLoop | TakeLeftover | CloseLeftover | Done

  /** The fields of the client that threads share. */
  datatype Shared = Shared(closing: bool, ctxDone: bool, conn: Option<ConnId>)

  /** New and the loop: local variables of connectAndSetup and reconnectLoop, and the dials started so far. */
  datatype Worker = Worker(building: bool, pc: WorkerPc, held: Option<ConnId>, prior: Option<ConnId>,
                           watch: Option<ConnId>, dials: nat)

  /** Close: the body run once, and the callers inside or past the call. */
  datatype Closer = Closer(pc: CloserPc, taken: Option<ConnId>, leftover: Option<ConnId>,
                           calling: set<nat>, returned: set<nat>)

  /**
   Connections 0 .. count have been dialled; those in channels had a channel opened for setup;
   setup has been started on some and has succeeded on the configured ones; the client has
   called Close on the released ones; the dropped ones went down by themselves.
   */
  datatype History = History(count: nat, channels: set<ConnId>, setupRun: set<ConnId>, configured: set<ConnId>,
                             released: set<ConnId>, dropped: set<ConnId>)

  datatype State = State(hasSetup: bool, shared: Shared, worker: Worker, closer: Closer, history: History)

  /** The client before New has run; the parent context may already be cancelled. */
  function Init(hasSetup: bool, ctxDone: bool): State {
    State(hasSetup, Shared(false, ctxDone, None),
          Worker(true, ReadClosing(BeforeDial), None, None, None, 0),
          Closer(Idle, None, None, {}, {}), History(0, {}, {}, {}, {}, {}))
  }

  datatype Action =
    | Work(ok: bool)             // one step of New or the loop; ok resolves its free choice
    | Shutdown                   // one step of the body of Close
    | CallClose(caller: nat) | ReturnClose(caller: nat)
    | Drop(id: ConnId) | CancelParent

  predicate IsDown(h: History, id: ConnId) {
    id in h.released || id in h.dropped
  }

  function Release(h: History, c: Option<ConnId>): History {
    if c.Some? then h.(released := h.released + {c.value}) else h
  }

  /** Setup was called on the connection in hand. */
  function SetUp(h: History, c: Option<ConnId>, ok: bool): History {
    if c.None? then h
    else h.(setupRun := h.setupRun + {c.value}, configured := if ok then h.configured + {c.value} else h.configured)
  }

  // ---------- the goroutine ----------

  /** connectAndSetup returns an error: New cancels, the loop asks isClosing again. */
  function FailConnect(w: Worker): Worker {
    w.(held := None, pc := if w.building then CancelNew else ReadClosing(RetryFailed))
  }

  /** connectAndSetup returns nil: New starts the loop, tryReconnect returns to the loop. */
  function FinishConnect(w: Worker): Worker {
    w.(prior := None, pc := if w.building then Spawn else ReadClosing(LoopTop))
  }

  /** waitReconnect returns false to its caller. */
  function GiveUp(w: Worker, retrying: bool): Worker {
    w.(pc := if retrying then ReadClosing(LoopTop) else Returning)
  }

  /** isClosing returned true. */
  function OnClosing(w: Worker, site: Site): Worker {
    match site
    case LoopTop | AfterNotify => w.(pc := Returning)
    case RetryTop | RetryFailed => w.(pc := ReadClosing(LoopTop))
    case BeforeReconnect => w.(pc := ReadClosing(RetryFailed))
    case BeforeDial => FailConnect(w)
    case AfterDial | AfterSetup => w.(pc := Discard)
  }

  /** isClosing returned false. */
  function OnOpen(w: Worker, site: Site, hasSetup: bool): Worker {
    match site
    case LoopTop => w.(pc := ReadConn)
    case AfterNotify => w.(pc := ReadClosing(RetryTop))
    case RetryTop => w.(pc := ReadClosing(BeforeReconnect))
    case RetryFailed => w.(pc := Backoff(true))
    case BeforeReconnect => w.(pc := ReadClosing(BeforeDial))
    case BeforeDial => w.(pc := Dial, dials := w.dials + 1)
    case AfterDial => w.(pc := if hasSetup then OpenChannel else ReadClosing(AfterSetup))
    case AfterSetup => w.(pc := Install)
  }

  /** Which choices the goroutine has: only the select, the timer and termination restrict it. */
  predicate WorkEnabled(s: State, ok: bool) {
    match s.worker.pc
    case Parked => if ok then s.worker.watch.Some? && IsDown(s.history, s.worker.watch.value) else s.shared.ctxDone
    case Backoff(_) => ok || s.shared.ctxDone
    case Failed | Exited => false
    case _ => true
  }

  function Work'(s: State, ok: bool): State {
    var w := s.worker;
    match w.pc
    case ReadClosing(site) =>
      s.(worker := if s.shared.closing then OnClosing(w, site) else w.(pc := ReadCtx(site)))
    case ReadCtx(site) =>
      s.(worker := if s.shared.ctxDone then OnClosing(w, site) else OnOpen(w, site, s.hasSetup))
    case Dial =>
      if ok then s.(worker := w.(held := Some(s.history.count), pc := ReadClosing(AfterDial)),
                    history := s.history.(count := s.history.count + 1))
      else s.(worker := FailConnect(w))
    case OpenChannel =>
      s.(worker := w.(pc := if ok then RunSetup else Discard),
         history := if ok && w.held.Some? then s.history.(channels := s.history.channels + {w.held.value}) else s.history)
    case RunSetup =>
      s.(worker := w.(pc := if ok then ReadClosing(AfterSetup) else Discard), history := SetUp(s.history, w.held, ok))
    case Install =>
      if s.shared.closing then s.(worker := w.(pc := Discard))
      else s.(worker := w.(prior := s.shared.conn, held := None, pc := CheckPrior),
              shared := s.shared.(conn := w.held))
    case CheckPrior =>
      s.(worker := if w.prior.Some? && !IsDown(s.history, w.prior.value) then w.(pc := ClosePrior) else FinishConnect(w))
    case ClosePrior => s.(worker := FinishConnect(w), history := Release(s.history, w.prior))
    case Discard => s.(worker := FailConnect(w), history := Release(s.history, w.held))
    case ReadConn =>
      s.(worker := w.(watch := s.shared.conn, pc := if s.shared.conn.Some? then Subscribe else Backoff(false)))
    case Subscribe => s.(worker := w.(pc := Parked))
    case Parked => s.(worker := w.(watch := None, pc := if ok then ReadClosing(AfterNotify) else Returning))
    case Backoff(retrying) => s.(worker := if ok then w.(pc := ReadAfterWait(retrying)) else GiveUp(w, retrying))
    case ReadAfterWait(retrying) =>
      s.(worker := if s.shared.closing then GiveUp(w, retrying) else w.(pc := ReadClosing(RetryTop)))
    case Spawn => s.(worker := w.(building := false, pc := ReadClosing(LoopTop)))
    case CancelNew => s.(worker := w.(pc := Failed), shared := s.shared.(ctxDone := true))
    case Returning => s.(worker := w.(pc := Exited))
    case Failed | Exited => s
  }

  // ---------- Close ----------

  /** Only wg.Wait can block the body of Close. */
  predicate ShutdownEnabled(s: State) {
    match s.closer.pc
    case Idle | Done => false
    case AwaitLoop => s.worker.pc.Exited?
    case _ => true
  }

  function Shutdown'(s: State): State {
    var c := s.closer;
    match c.pc
    case StoreClosing => s.(shared := s.shared.(closing := true), closer := c.(pc := CancelCtx))
    case CancelCtx => s.(shared := s.shared.(ctxDone := true), closer := c.(pc := TakeConn))
    case TakeConn => s.(shared := s.shared.(conn := None), closer := c.(pc := CloseTaken, taken := s.shared.conn))
    case CloseTaken => s.(history := Release(s.history, c.taken), closer := c.(pc := AwaitLoop, taken := None))
    case AwaitLoop => s.(closer := c.(pc := TakeLeftover))
    case TakeLeftover =>
      s.(shared := s.shared.(conn := None), closer := c.(pc := CloseLeftover, leftover := s.shared.conn))
    case CloseLeftover => s.(history := Release(s.history, c.leftover), closer := c.(pc := Done, leftover := None))
    case Idle | Done => s
  }

  // ---------- the whole system ----------

  predicate Enabled(s: State, a: Action) {
    match a
    case Work(ok) => WorkEnabled(s, ok)
    case Shutdown => ShutdownEnabled(s)
    // the client is handed out by New only after the loop has started
    case CallClose(c) => !s.worker.building && c !in s.closer.calling && c !in s.closer.returned
    // sync.Once: nobody returns before the first caller's body has finished
    case ReturnClose(c) => c in s.closer.calling && s.closer.pc.Done?
    case Drop(id) => id < s.history.count
    case CancelParent => true
  }

  function Step(s: State, a: Action): State
    requires Enabled(s, a)
  {
    match a
    case Work(ok) => Work'(s, ok)
    case Shutdown => Shutdown'(s)
    case CallClose(c) =>
      s.(closer := s.closer.(calling := s.closer.calling + {c},
                             pc := if s.closer.pc.Idle? then StoreClosing else s.closer.pc))
    case ReturnClose(c) =>
      s.(closer := s.closer.(calling := s.closer.calling - {c}, returned := s.closer.returned + {c}))
    case Drop(id) => s.(history := s.history.(dropped := s.history.dropped + {id}))
    case CancelParent => s.(shared := s.shared.(ctxDone := true))
  }

  predicate Runs(s: State, actions: seq<Action>)
    decreases |actions|
  {
    actions == [] || (Enabled(s, actions[0]) && Runs(Step(s, actions[0]), actions[1..]))
  }

  function After(s: State, actions: seq<Action>): State
    requires Runs(s, actions)
    decreases |actions|
  {
    if actions == [] then s else After(Step(s, actions[0]), actions[1..])
  }

  // ---------- the invariant ----------

  /** The program points at which connectAndSetup has a connection in hand. */
  predicate Holding(pc: WorkerPc) {
    match pc
    case ReadClosing(site) => site.AfterDial? || site.AfterSetup?
    case ReadCtx(site) => site.AfterDial? || site.AfterSetup?
    case OpenChannel | RunSetup | Install | Discard => true
    case _ => false
  }

  /** The program points New itself can be at. */
  predicate BuildingPc(pc: WorkerPc) {
    match pc
    case ReadClosing(site) => site.BeforeDial? || site.AfterDial? || site.AfterSetup?
    case ReadCtx(site) => site.BeforeDial? || site.AfterDial? || site.AfterSetup?
    case Dial | OpenChannel | RunSetup | Install | Discard | CheckPrior | Spawn | CancelNew | Failed => true
    case _ => false
  }

  /** Close has left its first critical section. */
  predicate PastTake(c: CloserPc) {
    c.CloseTaken? || c.AwaitLoop? || PastWait(c)
  }

  /** Close has seen the loop exit. */
  predicate PastWait(c: CloserPc) {
    c.TakeLeftover? || c.CloseLeftover? || c.Done?
  }

  /** How the program counters constrain each other and the shared flags. */
  predicate Control(s: State) {
    && (s.shared.closing <==> !s.closer.pc.Idle? && !s.closer.pc.StoreClosing?)
    && (PastTake(s.closer.pc) || s.closer.pc.TakeConn? ==> s.shared.ctxDone)
    && (PastWait(s.closer.pc) ==> s.worker.pc.Exited?)
    && (s.closer.returned != {} ==> s.closer.pc.Done?)
    && (s.worker.building ==> s.closer.pc.Idle? && BuildingPc(s.worker.pc))
    && (!s.worker.building ==> !s.worker.pc.Spawn? && !s.worker.pc.CancelNew? && !s.worker.pc.Failed?)
  }

  /** Why the loop ends, and that a failed New has cancelled its context. */
  predicate Ended(s: State) {
    s.worker.pc.Returning? || s.worker.pc.Exited? || s.worker.pc.Failed? ==> s.shared.closing || s.shared.ctxDone
  }

  /** Which of its variables the goroutine uses at which program point. */
  predicate Variables(w: Worker) {
    && (w.held.Some? <==> Holding(w.pc))
    && (w.prior.Some? ==> (w.pc.CheckPrior? || w.pc.ClosePrior?) && !w.building)
    && (w.pc.ClosePrior? ==> w.prior.Some?)
    && (w.watch.Some? <==> w.pc.Subscribe? || w.pc.Parked?)
  }

  /** When a connection is installed, and that the parked loop watches the installed one. */
  predicate Installed(s: State) {
    var w := s.worker;
    && (PastTake(s.closer.pc) ==> s.shared.conn.None?)
    && (w.building && s.shared.conn.Some? ==> w.pc.CheckPrior? || w.pc.Spawn?)
    && (!s.shared.closing && (!w.building || w.pc.CheckPrior? || w.pc.Spawn?) ==> s.shared.conn.Some?)
    && (w.watch.Some? ==> s.shared.conn == w.watch || s.shared.closing)
  }

  /** The local variables of all threads, and the conn field. */
  predicate Locals(s: State) {
    && Variables(s.worker) && Installed(s)
    && (s.closer.taken.Some? ==> s.closer.pc.CloseTaken?) && s.closer.leftover.None?
  }

  /** Who may hold a connection: the conn field, the goroutine, or the body of Close. */
  datatype Owner = Field | Loop | Body

  predicate Owns(s: State, o: Owner, id: ConnId) {
    match o
    case Field => s.shared.conn == Some(id)
    case Loop => s.worker.held == Some(id) || s.worker.prior == Some(id)
    case Body => s.closer.taken == Some(id) || s.closer.leftover == Some(id)
  }

  predicate Owned(s: State, id: ConnId) {
    Owns(s, Field, id) || Owns(s, Loop, id) || Owns(s, Body, id)
  }

  /** The life of one connection: up means owned, owned means dialled and not closed, and by one owner only. */
  predicate AccountedFor(s: State, id: ConnId) {
    && (IsDown(s.history, id) || id in s.history.setupRun ==> id < s.history.count)
    && (id < s.history.count && !IsDown(s.history, id) ==> Owned(s, id))
    && (Owned(s, id) ==> id < s.history.count && id !in s.history.released)
    && !(Owns(s, Field, id) && Owns(s, Loop, id))
    && !(Owns(s, Field, id) && Owns(s, Body, id))
    && !(Owns(s, Loop, id) && Owns(s, Body, id))
  }

  /** The program points past a successful setup. */
  predicate PastSetup(pc: WorkerPc) {
    pc == ReadClosing(AfterSetup) || pc == ReadCtx(AfterSetup) || pc.Install?
  }

  /** What is about to be installed, and what is installed, has been set up. */
  predicate Prepared(s: State) {
    s.hasSetup ==>
      && (PastSetup(s.worker.pc) && s.worker.held.Some? ==> s.worker.held.value in s.history.configured)
      && (s.shared.conn.Some? ==> s.shared.conn.value in s.history.configured)
  }

  /** Setup runs only where there is a callback, and on a connection whose channel was opened for it. */
  predicate Channelled(s: State) {
    && (s.worker.pc.RunSetup? && s.worker.held.Some? ==> s.worker.held.value in s.history.channels)
    && s.history.configured <= s.history.setupRun <= s.history.channels
    && (!s.hasSetup ==> s.history.setupRun == {} && !s.worker.pc.OpenChannel? && !s.worker.pc.RunSetup?)
  }

  ghost predicate Inv(s: State) {
    Control(s) && Ended(s) && Locals(s) && Prepared(s) && Channelled(s) && forall id: ConnId :: AccountedFor(s, id)
  }

  /** The steps of connectAndSetup that move a connection or record something about one. */
  predicate MovesConnection(pc: WorkerPc) {
    pc.Dial? || pc.RunSetup? || pc.Install? || pc.CheckPrior? || pc.ClosePrior? || pc.Discard?
  }

  lemma WorkKeepsControl(s: State, ok: bool)
    requires Control(s) && Locals(s) && WorkEnabled(s, ok)
    ensures Control(Work'(s, ok))
  {
  }

  lemma WorkKeepsHeld(s: State, ok: bool)
    requires s.worker.held.Some? <==> Holding(s.worker.pc)
    ensures Work'(s, ok).worker.held.Some? <==> Holding(Work'(s, ok).worker.pc)
  {
  }

  lemma WorkKeepsPrior(s: State, ok: bool)
    requires Variables(s.worker) && (s.worker.building && s.worker.pc.Install? ==> s.shared.conn.None?)
    ensures var w := Work'(s, ok).worker;
      && (w.prior.Some? ==> (w.pc.CheckPrior? || w.pc.ClosePrior?) && !w.building)
      && (w.pc.ClosePrior? ==> w.prior.Some?)
  {
  }

  lemma WorkKeepsWatch(s: State, ok: bool)
    requires s.worker.watch.Some? <==> s.worker.pc.Subscribe? || s.worker.pc.Parked?
    ensures var w := Work'(s, ok).worker; w.watch.Some? <==> w.pc.Subscribe? || w.pc.Parked?
  {
  }

  lemma WorkKeepsInstalled(s: State, ok: bool)
    requires Control(s) && Locals(s) && WorkEnabled(s, ok)
    ensures Installed(Work'(s, ok))
  {
  }

  lemma WorkKeepsLocals(s: State, ok: bool)
    requires Control(s) && Locals(s) && WorkEnabled(s, ok)
    ensures Locals(Work'(s, ok))
  {
    WorkKeepsHeld(s, ok);
    WorkKeepsPrior(s, ok);
    WorkKeepsWatch(s, ok);
    WorkKeepsInstalled(s, ok);
  }

  lemma WorkKeepsPrepared(s: State, ok: bool)
    requires Locals(s) && Prepared(s) && WorkEnabled(s, ok)
    ensures Prepared(Work'(s, ok))
  {
  }

  lemma WorkKeepsEnded(s: State, ok: bool)
    requires Ended(s) && WorkEnabled(s, ok)
    ensures Ended(Work'(s, ok))
  {
  }

  lemma WorkKeepsChannelled(s: State, ok: bool)
    requires Channelled(s)
    ensures Channelled(Work'(s, ok))
  {
  }

  lemma MoveKeepsAccounts(s: State, ok: bool, id: ConnId)
    requires Locals(s) && AccountedFor(s, id) && MovesConnection(s.worker.pc)
    ensures AccountedFor(Work'(s, ok), id)
  {
  }

  lemma WorkKeepsAccounts(s: State, ok: bool, id: ConnId)
    requires Locals(s) && AccountedFor(s, id)
    ensures AccountedFor(Work'(s, ok), id)
  {
    if MovesConnection(s.worker.pc) {
      MoveKeepsAccounts(s, ok, id);
    }
  }

  lemma ShutdownKeepsControl(s: State)
    requires Control(s) && Locals(s) && ShutdownEnabled(s)
    ensures Control(Shutdown'(s)) && Locals(Shutdown'(s))
  {
  }

  lemma ShutdownKeepsAccounts(s: State, id: ConnId)
    requires Locals(s) && AccountedFor(s, id)
    ensures AccountedFor(Shutdown'(s), id)
  {
  }

  lemma StepKeepsAccounts(s: State, a: Action, id: ConnId)
    requires Locals(s) && AccountedFor(s, id) && Enabled(s, a)
    ensures AccountedFor(Step(s, a), id)
  {
    match a
    case Work(ok) => WorkKeepsAccounts(s, ok, id);
    case Shutdown => ShutdownKeepsAccounts(s, id);
    case _ =>
  }

  lemma StepKeepsInv(s: State, a: Action)
    requires Inv(s) && Enabled(s, a)
    ensures Inv(Step(s, a))
  {
    match a {
      case Work(ok) =>
        WorkKeepsControl(s, ok);
        WorkKeepsLocals(s, ok);
        WorkKeepsPrepared(s, ok);
        WorkKeepsEnded(s, ok);
        WorkKeepsChannelled(s, ok);
      case Shutdown => ShutdownKeepsControl(s);
      case _ =>
    }
    forall id: ConnId
      ensures AccountedFor(Step(s, a), id)
    {
      StepKeepsAccounts(s, a, id);
    }
  }

  lemma {:induction false} RunKeepsInv(s: State, actions: seq<Action>)
    requires Inv(s) && Runs(s, actions)
    ensures Inv(After(s, actions))
    decreases |actions|
  {
    if actions != [] {
      StepKeepsInv(s, actions[0]);
      RunKeepsInv(Step(s, actions[0]), actions[1..]);
    }
  }

  lemma InitInv(hasSetup: bool, ctxDone: bool)
    ensures Inv(Init(hasSetup, ctxDone))
  {
  }

  /** The states some run of the client leads to. */
  ghost predicate Reachable(s: State) {
    exists hasSetup: bool, ctxDone: bool, actions: seq<Action> ::
      Runs(Init(hasSetup, ctxDone), actions) && After(Init(hasSetup, ctxDone), actions) == s
  }

  lemma ReachableInv(s: State)
    requires Reachable(s)
    ensures Inv(s)
  {
    var hasSetup: bool, ctxDone: bool, actions: seq<Action> :|
      Runs(Init(hasSetup, ctxDone), actions) && After(Init(hasSetup, ctxDone), actions) == s;
    InitInv(hasSetup, ctxDone);
    RunKeepsInv(Init(hasSetup, ctxDone), actions);
  }

  // ---------- safety over every run ----------

  predicate AllDown(s: State) {
    forall id :: 0 <= id < s.history.count ==> IsDown(s.history, id)
  }

  /**
   No connection leak: when any call of Close has returned, the loop has exited, conn is nil
   and every connection the client ever dialled is down. The same holds when New failed.
   */
  lemma NoLeak(s: State)
    requires Reachable(s)
    ensures s.closer.returned != {} ==> s.worker.pc.Exited? && s.shared.conn.None? && AllDown(s)
    ensures s.worker.pc.Failed? ==> s.shared.conn.None? && AllDown(s)
  {
    ReachableInv(s);
    forall id | 0 <= id < s.history.count && (s.closer.returned != {} || s.worker.pc.Failed?)
      ensures IsDown(s.history, id)
    {
      assert AccountedFor(s, id);
    }
  }

  lemma {:induction false} RunKeepsConnNil(s: State, actions: seq<Action>)
    requires Inv(s) && PastTake(s.closer.pc) && Runs(s, actions)
    ensures Inv(After(s, actions)) && PastTake(After(s, actions).closer.pc)
    decreases |actions|
  {
    if actions != [] {
      StepKeepsInv(s, actions[0]);
      RunKeepsConnNil(Step(s, actions[0]), actions[1..]);
    }
  }

  /**
   Once Close has left its first critical section, conn stays nil in every later state,
   and the leftover it looks for after joining the loop is never there.
   */
  lemma ConnStaysNil(s: State, actions: seq<Action>)
    requires Reachable(s) && PastTake(s.closer.pc) && Runs(s, actions)
    ensures After(s, actions).shared.conn.None? && After(s, actions).closer.leftover.None?
  {
    ReachableInv(s);
    RunKeepsConnNil(s, actions);
  }

  /**
   With a setup callback, the installed connection is always one on which setup has succeeded;
   setup is called only after a channel was opened, and never without a callback.
   */
  lemma InstalledIsConfigured(s: State)
    requires Reachable(s)
    ensures s.hasSetup && s.shared.conn.Some? ==> s.shared.conn.value in s.history.configured
    ensures s.history.configured <= s.history.setupRun <= s.history.channels
    ensures !s.hasSetup ==> s.history.setupRun == {}
  {
    ReachableInv(s);
  }

  /** A connection in hand that has not passed its last check yet, or one that has been discarded. */
  predicate NeverInstalled(s: State, id: ConnId) {
    s.shared.ctxDone && id < s.history.count && s.shared.conn != Some(id) && !(s.worker.pc.Install? && s.worker.held == Some(id))
  }

  lemma {:induction false} RunNeverInstalls(s: State, actions: seq<Action>, id: ConnId)
    requires Runs(s, actions) && NeverInstalled(s, id)
    ensures NeverInstalled(After(s, actions), id)
    decreases |actions|
  {
    if actions != [] {
      RunNeverInstalls(Step(s, actions[0]), actions[1..], id);
    }
  }

  /** A connection still being dialled or set up when the context is done is never installed. */
  lemma CancelledNotInstalled(s: State, actions: seq<Action>)
    requires Reachable(s) && s.shared.ctxDone && s.worker.held.Some? && !s.worker.pc.Install? && Runs(s, actions)
    ensures After(s, actions).shared.conn != s.worker.held
  {
    ReachableInv(s);
    assert AccountedFor(s, s.worker.held.value);
    RunNeverInstalls(s, actions, s.worker.held.value);
  }

  /** Cancelling the parent ends the loop but closes nothing: without Close the connection stays installed and open. */
  lemma ExitWithoutCloseKeepsConnection(s: State)
    requires Reachable(s) && s.worker.pc.Exited? && !s.shared.closing
    ensures s.shared.conn.Some? && s.shared.conn.value !in s.history.released
  {
    ReachableInv(s);
    assert AccountedFor(s, s.shared.conn.value);
  }

  /** The connections that are up. */
  function Live(s: State): set<ConnId> {
    set id | 0 <= id < s.history.count && !IsDown(s.history, id)
  }

  lemma OneOwner(s: State, id: ConnId)
    requires Locals(s) && AccountedFor(s, id) && id in Live(s)
    ensures exists o :: Owns(s, o, id) && forall p :: Owns(s, p, id) ==> p == o
    ensures s.shared.conn == Some(id) || s.closer.taken == Some(id) || s.worker.held == Some(id) || s.worker.prior == Some(id)
  {
    var o := if Owns(s, Field, id) then Field else if Owns(s, Loop, id) then Loop else Body;
    assert Owns(s, o, id) && forall p :: Owns(s, p, id) ==> p == o;
  }

  /**
   Ownership bound: in every reachable state at most two connections are up, each of them
   owned by exactly one of the conn field, the loop and the body of Close.
   */
  lemma AtMostTwoLive(s: State)
    requires Reachable(s)
    ensures |Live(s)| <= 2
    ensures forall id :: id in Live(s) ==>
      exists o :: Owns(s, o, id) && forall p :: Owns(s, p, id) ==> p == o
  {
    ReachableInv(s);
    var shared := if s.shared.conn.Some? then s.shared.conn else s.closer.taken;
    var local := if s.worker.held.Some? then s.worker.held else s.worker.prior;
    assert s.shared.conn.None? || s.closer.taken.None?;
    assert s.worker.held.None? || s.worker.prior.None?;
    forall id | id in Live(s)
      ensures Some(id) == shared || Some(id) == local
      ensures exists o :: Owns(s, o, id) && forall p :: Owns(s, p, id) ==> p == o
    {
      assert AccountedFor(s, id);
      OneOwner(s, id);
    }
    var bound := (if shared.Some? then {shared.value} else {}) + (if local.Some? then {local.value} else {});
    SubsetSize(Live(s), bound);
  }

  lemma SubsetSize(a: set<ConnId>, b: set<ConnId>)
    requires a <= b
    ensures |a| <= |b|
  {
    assert b == a + (b - a);
  }

  /**
   No missed disconnect: the parked loop watches the installed connection unless the client
   is closing, and the moment that connection goes down, or the context ends, the loop can move.
   */
  lemma NoMissedDisconnect(s: State)
    requires Reachable(s) && s.worker.pc.Parked?
    ensures s.shared.closing || (s.shared.conn.Some? && s.worker.watch == s.shared.conn)
    ensures s.shared.conn.Some? && IsDown(s.history, s.shared.conn.value) && !s.shared.closing
      ==> WorkEnabled(s, true) && Work'(s, true).worker.pc == ReadClosing(AfterNotify)
    ensures s.shared.ctxDone ==> WorkEnabled(s, false) && Work'(s, false).worker.pc.Returning?
  {
    ReachableInv(s);
  }

  /** No needless reconnect: while the watched connection is up and the context live, the loop stays where it is. */
  lemma {:induction false} StaysParked(s: State, actions: seq<Action>)
    requires s.worker.pc.Parked? && s.worker.watch.Some? && Runs(s, actions)
    requires !IsDown(After(s, actions).history, s.worker.watch.value) && !After(s, actions).shared.ctxDone
    ensures After(s, actions).worker == s.worker
    ensures !IsDown(s.history, s.worker.watch.value) && !s.shared.ctxDone
    decreases |actions|
  {
    if actions != [] {
      DownForGood(s, actions, s.worker.watch.value);
      StaysParked(Step(s, actions[0]), actions[1..]);
    }
  }

  /** What is down stays down, and a context that is done stays done. */
  lemma {:induction false} DownForGood(s: State, actions: seq<Action>, id: ConnId)
    requires Runs(s, actions)
    ensures IsDown(s.history, id) ==> IsDown(After(s, actions).history, id)
    ensures s.shared.ctxDone ==> After(s, actions).shared.ctxDone
    decreases |actions|
  {
    if actions != [] {
      DownForGood(Step(s, actions[0]), actions[1..], id);
    }
  }

  // ---------- progress after closing ----------

  /** The most steps the goroutine can still take once closing is set. */
  function WorkLeft(pc: WorkerPc): nat {
    match pc
    case ReadClosing(LoopTop) | ReadClosing(AfterNotify) => 2
    case ReadClosing(RetryFailed) | ReadClosing(RetryTop) => 3
    case ReadClosing(BeforeReconnect) | ReadClosing(BeforeDial) => 4
    case ReadClosing(AfterDial) | ReadClosing(AfterSetup) => 5
    case ReadCtx(AfterNotify) => 4
    case ReadCtx(RetryTop) | ReadCtx(RetryFailed) | ReadCtx(BeforeReconnect) => 5
    case ReadCtx(LoopTop) | ReadCtx(AfterSetup) => 6
    case ReadCtx(BeforeDial) => 7
    case ReadCtx(AfterDial) => 8
    case Dial | RunSetup => 6
    case OpenChannel => 7
    case Install => 5
    case CheckPrior => 4
    case ClosePrior => 3
    case Discard => 4
    case ReadConn => 5
    case Subscribe => 4
    case Parked => 3
    case Backoff(retrying) => if retrying then 4 else 3
    case ReadAfterWait(retrying) => if retrying then 3 else 2
    case Returning => 1
    case Exited | Spawn | CancelNew | Failed => 0
  }

  function ShutdownLeft(pc: CloserPc): nat {
    match pc
    case Idle => 8
    case StoreClosing => 7
    case CancelCtx => 6
    case TakeConn => 5
    case CloseTaken => 4
    case AwaitLoop => 3
    case TakeLeftover => 2
    case CloseLeftover => 1
    case Done => 0
  }

  function StepsLeft(s: State): nat {
    WorkLeft(s.worker.pc) + ShutdownLeft(s.closer.pc)
  }

  predicate IsThreadStep(a: Action) {
    a.Work? || a.Shutdown?
  }

  function ThreadSteps(actions: seq<Action>): nat {
    if actions == [] then 0 else (if IsThreadStep(actions[0]) then 1 else 0) + ThreadSteps(actions[1..])
  }

  lemma WorkDecreases(s: State, ok: bool)
    requires s.shared.closing && !s.worker.building && WorkEnabled(s, ok) && (s.worker.pc.ReadConn? ==> s.worker.watch.None?)
    requires !s.worker.pc.Spawn? && !s.worker.pc.CancelNew?
    ensures WorkLeft(Work'(s, ok).worker.pc) < WorkLeft(s.worker.pc)
  {
  }

  lemma StepDecreases(s: State, a: Action)
    requires Inv(s) && s.shared.closing && Enabled(s, a)
    ensures Step(s, a).shared.closing
    ensures StepsLeft(Step(s, a)) + (if IsThreadStep(a) then 1 else 0) <= StepsLeft(s)
  {
    if a.Work? {
      WorkDecreases(s, a.ok);
    }
  }

  lemma {:induction false} RunDecreases(s: State, actions: seq<Action>)
    requires Inv(s) && s.shared.closing && Runs(s, actions)
    ensures ThreadSteps(actions) + StepsLeft(After(s, actions)) <= StepsLeft(s) <= 14
    decreases |actions|
  {
    if actions != [] {
      StepKeepsInv(s, actions[0]);
      StepDecreases(s, actions[0]);
      RunDecreases(Step(s, actions[0]), actions[1..]);
    }
  }

  /**
   Close terminates: after closing is set, the loop and the body of Close together take at
   most StepsLeft more steps, never more than fourteen, under every interleaving.
   */
  lemma CloseTerminates(s: State, actions: seq<Action>)
    requires Reachable(s) && s.shared.closing && Runs(s, actions)
    ensures ThreadSteps(actions) <= StepsLeft(s) <= 14
  {
    ReachableInv(s);
    RunDecreases(s, actions);
  }

  /**
   Close never deadlocks: after closing is set, some thread can step until the loop has
   exited and the body of Close is done; then every caller can return.
   */
  lemma CloseNeverDeadlocks(s: State)
    requires Reachable(s) && s.shared.closing
    ensures (exists a :: IsThreadStep(a) && Enabled(s, a)) || (s.worker.pc.Exited? && s.closer.pc.Done?)
    ensures s.closer.pc.Done? ==> forall c :: c in s.closer.calling ==> Enabled(s, ReturnClose(c))
  {
    ReachableInv(s);
    if !s.closer.pc.Done? && !s.closer.pc.AwaitLoop? {
      assert IsThreadStep(Shutdown) && Enabled(s, Shutdown);
    } else if s.worker.pc.Exited? {
      assert s.closer.pc.AwaitLoop? ==> IsThreadStep(Shutdown) && Enabled(s, Shutdown);
    } else {
      assert IsThreadStep(Work(false)) && Enabled(s, Work(false));
    }
  }

  /** The one program point from which a dial can still start although closing is set. */
  function DialsLeft(s: State): nat {
    if s.worker.pc == ReadCtx(BeforeDial) then 1 else 0
  }

  /** A connection numbered n or above is in hand only between its dial and its being closed. */
  predicate FreshNotSetUp(s: State, n: nat) {
    && (forall id :: id in s.history.setupRun ==> id < n)
    && (s.worker.held.Some? && s.worker.held.value >= n ==> s.worker.pc == ReadClosing(AfterDial) || s.worker.pc.Discard?)
  }

  lemma StepStartsNoDial(s: State, a: Action, n: nat)
    requires Inv(s) && s.shared.closing && Enabled(s, a) && n <= s.history.count && FreshNotSetUp(s, n)
    ensures n <= Step(s, a).history.count && FreshNotSetUp(Step(s, a), n)
    ensures Step(s, a).worker.dials + DialsLeft(Step(s, a)) <= s.worker.dials + DialsLeft(s)
  {
  }

  lemma {:induction false} RunStartsNoDial(s: State, actions: seq<Action>, n: nat)
    requires Inv(s) && s.shared.closing && Runs(s, actions) && n <= s.history.count && FreshNotSetUp(s, n)
    ensures FreshNotSetUp(After(s, actions), n)
    ensures After(s, actions).worker.dials + DialsLeft(After(s, actions)) <= s.worker.dials + DialsLeft(s)
    decreases |actions|
  {
    if actions != [] {
      StepKeepsInv(s, actions[0]);
      StepDecreases(s, actions[0]);
      StepStartsNoDial(s, actions[0], n);
      RunStartsNoDial(Step(s, actions[0]), actions[1..], n);
    }
  }

  /**
   After closing is set at most one further dial starts, and only if the loop had already
   read the closing flag for it; setup runs on no connection obtained from then on.
   */
  lemma AtMostOneMoreDial(s: State, actions: seq<Action>)
    requires Reachable(s) && s.shared.closing && Runs(s, actions)
    ensures After(s, actions).worker.dials <= s.worker.dials + (if s.worker.pc == ReadCtx(BeforeDial) then 1 else 0)
    ensures forall id :: id in After(s, actions).history.setupRun ==> id < s.history.count
  {
    ReachableInv(s);
    if s.worker.held.Some? {
      assert AccountedFor(s, s.worker.held.value);
    }
    forall id | id in s.history.setupRun
      ensures id < s.history.count
    {
      assert AccountedFor(s, id);
    }
    RunStartsNoDial(s, actions, s.history.count);
  }

  // ---------- recovery while the client is open ----------

  /** How far the loop is from its select, when nothing fails and the client stays open. */
  function Distance(pc: WorkerPc): nat {
    match pc
    case Parked => 0
    case Subscribe => 1
    case ReadConn => 2
    case ReadCtx(LoopTop) => 3
    case ReadClosing(LoopTop) => 4
    case ClosePrior => 5
    case CheckPrior => 6
    case Install => 7
    case ReadCtx(AfterSetup) => 8
    case ReadClosing(AfterSetup) => 9
    case RunSetup => 10
    case OpenChannel => 11
    case ReadCtx(AfterDial) => 12
    case ReadClosing(AfterDial) => 13
    case Dial => 14
    case ReadCtx(BeforeDial) => 15
    case ReadClosing(BeforeDial) => 16
    case ReadCtx(BeforeReconnect) => 17
    case ReadClosing(BeforeReconnect) => 18
    case ReadCtx(RetryTop) => 19
    case ReadClosing(RetryTop) => 20
    case ReadCtx(AfterNotify) | ReadAfterWait(_) => 21
    case ReadClosing(AfterNotify) | Backoff(_) => 22
    case ReadCtx(RetryFailed) => 23
    case ReadClosing(RetryFailed) => 24
    case Discard => 25
    case Spawn => 5
    case CancelNew | Failed | Returning | Exited => 0
  }

  /** The connection the loop is about to watch: the installed one, the one in hand, or one not dialled yet. */
  function Expected(s: State): Option<ConnId> {
    match s.worker.pc
    case CheckPrior | ClosePrior | Spawn | ReadClosing(LoopTop) | ReadCtx(LoopTop) | ReadConn | Subscribe | Parked =>
      s.shared.conn
    case pc => if Holding(pc) && !pc.Discard? then s.worker.held else Some(s.history.count)
  }

  /** New or the loop is running, nothing has told it to stop, and New is not failing. */
  predicate Undisturbed(s: State) {
    && !s.shared.closing && !s.shared.ctxDone
    && !s.worker.pc.Returning? && !s.worker.pc.Exited?
    && (s.worker.building ==> !s.worker.pc.Discard? && !s.worker.pc.CancelNew? && !s.worker.pc.Failed?)
  }

  lemma StepNears(s: State)
    requires Control(s) && Locals(s) && Undisturbed(s) && !s.worker.pc.Parked?
    ensures WorkEnabled(s, true) && Undisturbed(Work'(s, true))
    ensures Distance(Work'(s, true).worker.pc) < Distance(s.worker.pc)
  {
  }

  lemma StepKeepsExpected(s: State)
    requires Control(s) && Locals(s) && Undisturbed(s) && !s.worker.pc.Parked?
    ensures Expected(Work'(s, true)) == Expected(s)
  {
  }

  lemma StepRecovers(s: State)
    requires Inv(s) && Undisturbed(s) && !s.worker.pc.Parked?
    ensures WorkEnabled(s, true) && Undisturbed(Work'(s, true))
    ensures Distance(Work'(s, true).worker.pc) < Distance(s.worker.pc) && Expected(Work'(s, true)) == Expected(s)
  {
    StepNears(s);
    StepKeepsExpected(s);
  }

  /** If every call succeeds, the undisturbed goroutine parks, watching the connection expected of it. */
  lemma {:induction false} LoopParks(s: State) returns (actions: seq<Action>)
    requires Inv(s) && Undisturbed(s)
    ensures Runs(s, actions) && |actions| <= Distance(s.worker.pc)
    ensures forall i :: 0 <= i < |actions| ==> actions[i] == Work(true)
    ensures var t := After(s, actions);
      Undisturbed(t) && t.worker.pc.Parked? && t.shared.conn == t.worker.watch == Expected(s)
    decreases Distance(s.worker.pc)
  {
    if s.worker.pc.Parked? {
      actions := [];
    } else {
      StepRecovers(s);
      StepKeepsInv(s, Work(true));
      var rest := LoopParks(Work'(s, true));
      actions := [Work(true)] + rest;
      assert actions[1..] == rest;
    }
  }

  /** New can succeed: with a live context and no failing call it hands out a client whose loop watches its first connection. */
  lemma NewSucceeds(hasSetup: bool) returns (actions: seq<Action>)
    ensures Runs(Init(hasSetup, false), actions)
    ensures forall i :: 0 <= i < |actions| ==> actions[i] == Work(true)
    ensures var t := After(Init(hasSetup, false), actions);
      && t.worker.pc.Parked? && !t.worker.building && !t.shared.closing && !t.shared.ctxDone
      && t.shared.conn == t.worker.watch == Some(0)
  {
    var s := Init(hasSetup, false);
    InitInv(hasSetup, false);
    actions := LoopParks(s);
    RunKeepsInv(s, actions);
  }

  /** The loop, once started, ends only because the client is closing or the context is done; New fails only with the context done. */
  lemma EndsOnlyWhenTold(s: State)
    requires Reachable(s)
    ensures s.worker.pc.Returning? || s.worker.pc.Exited? ==> s.shared.closing || s.shared.ctxDone
    ensures !s.worker.building && !s.shared.closing && !s.shared.ctxDone ==> Undisturbed(s)
  {
    ReachableInv(s);
  }

  /** From every state of an open client, at most 25 successful steps bring the loop to its select. */
  lemma OpenLoopParks(s: State) returns (actions: seq<Action>)
    requires Reachable(s) && !s.worker.building && !s.shared.closing && !s.shared.ctxDone
    ensures Runs(s, actions) && |actions| <= 25
    ensures forall i :: 0 <= i < |actions| ==> actions[i] == Work(true)
    ensures var t := After(s, actions);
      t.worker.pc.Parked? && t.shared.conn == t.worker.watch == Expected(s)
  {
    ReachableInv(s);
    actions := LoopParks(s);
  }

  /**
   A failed call gives the attempt up: nothing stays in hand, the connection in hand is closed,
   and New goes on to fail, the loop to its wait.
   */
  lemma FailedCallGivesUp(s: State, again: bool)
    requires Reachable(s) && (s.worker.pc.Dial? || s.worker.pc.OpenChannel? || s.worker.pc.RunSetup?)
    ensures var t := Work'(s, false);
      var u := if s.worker.pc.Dial? then t else Work'(t, again);
      && u.worker.held.None? && u.history.count == s.history.count && u.shared == s.shared
      && u.worker.pc == (if s.worker.building then CancelNew else ReadClosing(RetryFailed))
      && (!s.worker.pc.Dial? ==> s.worker.held.Some? && s.worker.held.value in u.history.released)
  {
    ReachableInv(s);
  }

  /** New then fails, and has cancelled its context. */
  lemma NewFails(s: State)
    requires Reachable(s) && s.worker.pc.CancelNew?
    ensures Work'(s, true) == Work'(s, false) && Work'(s, true).worker.pc.Failed? && Work'(s, true).shared.ctxDone
  {
  }

  /** No call fails and nobody cancels the context. */
  predicate Smooth(actions: seq<Action>) {
    forall i :: 0 <= i < |actions| ==> actions[i] != Work(false) && !actions[i].CancelParent?
  }

  lemma SmoothStep(s: State, a: Action)
    requires Inv(s) && Enabled(s, a) && a != Work(false) && !a.CancelParent?
    requires s.worker.building ==> Undisturbed(s)
    ensures Step(s, a).worker.building ==> Undisturbed(Step(s, a))
  {
  }

  lemma {:induction false} SmoothRun(s: State, actions: seq<Action>)
    requires Inv(s) && Runs(s, actions) && Smooth(actions) && (s.worker.building ==> Undisturbed(s))
    ensures var t := After(s, actions); Inv(t) && (t.worker.building ==> Undisturbed(t))
    decreases |actions|
  {
    if actions != [] {
      assert actions[0] != Work(false) && !actions[0].CancelParent?;
      StepKeepsInv(s, actions[0]);
      SmoothStep(s, actions[0]);
      assert forall i :: 0 <= i < |actions| - 1 ==> actions[1..][i] == actions[i + 1];
      SmoothRun(Step(s, actions[0]), actions[1..]);
    }
  }

  /** New fails only after a failed call or a cancelled context. */
  lemma NewFailsOnlyForCause(hasSetup: bool, actions: seq<Action>)
    requires Runs(Init(hasSetup, false), actions) && Smooth(actions)
    ensures !After(Init(hasSetup, false), actions).worker.pc.Failed?
  {
    InitInv(hasSetup, false);
    SmoothRun(Init(hasSetup, false), actions);
  }

  /**
   Reconnection: when the watched connection goes down while the client is open, at most 23
   steps of the loop, none of them failing, install and watch a newly dialled connection.
   */
  lemma Reconnects(s: State) returns (actions: seq<Action>)
    requires Reachable(s) && Undisturbed(s) && s.worker.pc.Parked? && s.worker.watch.Some?
    requires IsDown(s.history, s.worker.watch.value)
    ensures Runs(s, actions) && |actions| <= 23
    ensures forall i :: 0 <= i < |actions| ==> actions[i] == Work(true)
    ensures var t := After(s, actions);
      t.worker.pc.Parked? && t.shared.conn == t.worker.watch == Some(s.history.count)
  {
    ReachableInv(s);
    StepKeepsInv(s, Work(true));
    var rest := LoopParks(Work'(s, true));
    actions := [Work(true)] + rest;
    assert actions[1..] == rest;
  }

  /** The loop either has not noticed yet that the lost connection is down, or will watch one numbered n or above. */
  predicate Renewing(s: State, lost: ConnId, n: nat) {
    && n <= s.history.count
    && ((s.worker.pc.Parked? && s.worker.watch == Some(lost) && IsDown(s.history, lost))
        || (Expected(s).Some? && Expected(s).value >= n))
  }

  predicate Open(s: State) {
    !s.shared.closing && !s.shared.ctxDone
  }

  lemma StepRenews(s: State, a: Action, lost: ConnId, n: nat)
    requires Inv(s) && Enabled(s, a) && Renewing(s, lost, n) && !s.worker.building && Open(Step(s, a))
    ensures Open(s) && !Step(s, a).worker.building && Renewing(Step(s, a), lost, n)
  {
  }

  lemma {:induction false} StaysOpen(s: State, actions: seq<Action>)
    requires Runs(s, actions) && Open(After(s, actions))
    ensures Open(s)
    decreases |actions|
  {
    if actions != [] {
      StaysOpen(Step(s, actions[0]), actions[1..]);
    }
  }

  lemma {:induction false} RunRenews(s: State, actions: seq<Action>, lost: ConnId, n: nat)
    requires Inv(s) && Runs(s, actions) && Renewing(s, lost, n) && !s.worker.building && Open(After(s, actions))
    ensures var t := After(s, actions); Inv(t) && !t.worker.building && Renewing(t, lost, n)
    decreases |actions|
  {
    if actions != [] {
      var t := Step(s, actions[0]);
      StaysOpen(t, actions[1..]);
      StepKeepsInv(s, actions[0]);
      StepRenews(s, actions[0], lost, n);
      RunRenews(t, actions[1..], lost, n);
    }
  }

  /**
   Reconnection never gives up: after any run from a disconnect, whatever dials, channels and
   setups have failed and whatever else went down in it, an open client can still have its loop
   watch an installed connection dialled since, in at most 25 successful steps.
   */
  lemma RedialsUntilItWorks(s: State, failing: seq<Action>) returns (actions: seq<Action>)
    requires Reachable(s) && s.worker.pc.Parked? && s.worker.watch.Some? && IsDown(s.history, s.worker.watch.value)
    requires Runs(s, failing) && Open(After(s, failing))
    ensures Runs(After(s, failing), actions) && |actions| <= 25
    ensures forall i :: 0 <= i < |actions| ==> actions[i] == Work(true)
    ensures var t := After(After(s, failing), actions);
      && t.worker.pc.Parked? && t.worker.watch == t.shared.conn
      && t.shared.conn.Some? && t.shared.conn.value >= s.history.count
  {
    ReachableInv(s);
    var u, lost := After(s, failing), s.worker.watch.value;
    RunRenews(s, failing, lost, s.history.count);
    if u.worker.pc.Parked? && u.worker.watch == Some(lost) && IsDown(u.history, lost) {
      StepKeepsInv(u, Work(true));
      var rest := LoopParks(Work'(u, true));
      actions := [Work(true)] + rest;
      assert actions[1..] == rest;
    } else {
      actions := LoopParks(u);
    }
  }

  // ---------- no hot retry ----------

  /** The steps of a run in which the loop learns of a disconnect or ends a wait. */
  function Chances(s: State, actions: seq<Action>): nat
    requires Runs(s, actions)
    decreases |actions|
  {
    if actions == [] then 0
    else (if actions[0] == Work(true) && (s.worker.pc.Parked? || s.worker.pc.Backoff?) then 1 else 0)
         + Chances(Step(s, actions[0]), actions[1..])
  }

  /** A dial is still to come for the last of them. */
  predicate MayDial(pc: WorkerPc) {
    match pc
    case ReadClosing(site) => site.AfterNotify? || site.RetryTop? || site.BeforeReconnect? || site.BeforeDial?
    case ReadCtx(site) => site.AfterNotify? || site.RetryTop? || site.BeforeReconnect? || site.BeforeDial?
    case ReadAfterWait(_) => true
    case _ => false
  }

  function DialsAtMost(s: State): nat {
    s.worker.dials + (if MayDial(s.worker.pc) then 1 else 0)
  }

  lemma StepDials(s: State, a: Action)
    requires Enabled(s, a)
    ensures DialsAtMost(Step(s, a))
         <= DialsAtMost(s) + (if a == Work(true) && (s.worker.pc.Parked? || s.worker.pc.Backoff?) then 1 else 0)
  {
  }

  lemma {:induction false} RunDials(s: State, actions: seq<Action>)
    requires Runs(s, actions)
    ensures DialsAtMost(After(s, actions)) <= DialsAtMost(s) + Chances(s, actions)
    decreases |actions|
  {
    if actions != [] {
      StepDials(s, actions[0]);
      RunDials(Step(s, actions[0]), actions[1..]);
    }
  }

  /** No hot retry: apart from the first one, every dial has its own disconnect or completed wait before it. */
  lemma DialsAreSpaced(hasSetup: bool, ctxDone: bool, actions: seq<Action>)
    requires Runs(Init(hasSetup, ctxDone), actions)
    ensures After(Init(hasSetup, ctxDone), actions).worker.dials <= 1 + Chances(Init(hasSetup, ctxDone), actions)
  {
    RunDials(Init(hasSetup, ctxDone), actions);
  }
}
