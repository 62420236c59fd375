/**
 Concurrent callers of the service token client: every interleaving of their steps around the
 mutex, which is held from the cache test to the end of the fetch, amounts to a sequence of
 requests as TokenCache describes it.
 */
module TokenCallers {
  import opened Common
  import opened Text
  import opened TokenCache

  type CallerId = nat

  /** Where a call of Token stands; since is how many requests had been served when it began. */
  datatype Pc =
    | Waiting(audience: string, since: nat)
    | Locked(audience: string, since: nat)
    | Fetching(audience: string, since: nat, now: Time)     // the cache test failed, at that time
    | Done(audience: string, since: nat, index: nat, result: Result<string, Error>)

  /** served: the requests in the order in which they held the mutex. */
  datatype State = State(fallback: string, cache: Cache, holder: Option<CallerId>, calls: map<CallerId, Pc>,
                         served: seq<Request>, clock: Time)

  function Init(fallback: string, clock: Time): State {
    State(fallback, EMPTY, None, map[], [], clock)
  }

  datatype Action =
    | Begin(caller: CallerId, audience: string)
    | Acquire(caller: CallerId)
    | Test(caller: CallerId)                   // reads the clock and the cache; a hit returns and unlocks
    | Receive(caller: CallerId, reply: Reply)  // the fetch ends; the call returns and unlocks
    | Tick(to: Time)

  predicate Enabled(s: State, a: Action) {
    match a
    case Begin(c, _) => c !in s.calls
    case Acquire(c) => c in s.calls && s.calls[c].Waiting? && s.holder.None?
    case Test(c) => c in s.calls && s.calls[c].Locked?
    case Receive(c, _) => c in s.calls && s.calls[c].Fetching?
    case Tick(to) => s.clock <= to
  }

  /** The call serves its request and lets go of the mutex. */
  function Finished(s: State, c: CallerId, since: nat, r: Request): State {
    var (result, cache) := Serve(s.cache, r);
    s.(cache := cache, holder := None, served := s.served + [r],
       calls := s.calls[c := Done(r.audience, since, |s.served|, result)])
  }

  function Step(s: State, a: Action): State
    requires Enabled(s, a)
  {
    match a
    case Begin(c, audience) => s.(calls := s.calls[c := Waiting(Resolve(audience, s.fallback), |s.served|)])
    case Acquire(c) => s.(holder := Some(c), calls := s.calls[c := Locked(s.calls[c].audience, s.calls[c].since)])
    case Test(c) =>
      var audience, since := s.calls[c].audience, s.calls[c].since;
      // what a fetch would return does not matter to a hit
      if Hit(s.cache, audience, s.clock) then Finished(s, c, since, Request(audience, s.clock, Err(Unavailable(0))))
      else s.(calls := s.calls[c := Fetching(audience, since, s.clock)])
    case Receive(c, reply) =>
      var Fetching(audience, since, now) := s.calls[c];
      Finished(s, c, since, Request(audience, now, Fetch(reply, s.clock)))
    case Tick(to) => s.(clock := to)
  }

  predicate Runs(s: State, actions: seq<Action>)
    decreases |actions|
  {
    actions == [] || (Enabled(s, actions[0]) && Runs(Step(s, actions[0]), actions[1..]))
  }

  function After(s: State, actions: seq<Action>): State
    requires Runs(s, actions)
    decreases |actions|
  {
    if actions == [] then s else After(Step(s, actions[0]), actions[1..])
  }

  ghost predicate Reachable(s: State) {
    exists fallback: string, clock: Time, actions: seq<Action> ::
      Runs(Init(fallback, clock), actions) && After(Init(fallback, clock), actions) == s
  }

  // ---------- the invariant ----------

  predicate InSection(pc: Pc) {
    pc.Locked? || pc.Fetching?
  }

  predicate Mutex(s: State) {
    && (forall c :: c in s.calls ==> (InSection(s.calls[c]) <==> s.holder == Some(c)))
    && (s.holder.Some? ==> s.holder.value in s.calls)
  }

  /** What a finished call knows of the requests served. */
  predicate DoneOk(served: seq<Request>, pc: Pc) {
    && pc.since <= |served|
    && (pc.Done? ==> pc.since <= pc.index < |served| && pc.result == ResultOf(served, pc.index)
                     && served[pc.index].audience == pc.audience)
  }

  predicate CallOk(s: State, pc: Pc) {
    && DoneOk(s.served, pc)
    && (pc.Fetching? ==> pc.now <= s.clock && forall k :: 0 <= k < |s.served| ==> s.served[k].now <= pc.now)
  }

  /** Requests are served in the order of their clock readings. */
  predicate Ordered(s: State) {
    && (forall k :: 0 <= k < |s.served| ==> s.served[k].now <= s.clock)
    && (forall j, k :: 0 <= j < k < |s.served| ==> s.served[j].now <= s.served[k].now)
  }

  ghost predicate Inv(s: State) {
    && Mutex(s) && Ordered(s) && s.cache == CacheAt(s.served, |s.served|)
    && (forall c :: c in s.calls ==> CallOk(s, s.calls[c]))
  }

  lemma {:induction false} CacheAtPrefix(run: seq<Request>, r: Request, k: nat)
    requires k <= |run|
    ensures CacheAt(run + [r], k) == CacheAt(run, k)
    decreases k
  {
    if k > 0 {
      CacheAtPrefix(run, r, k - 1);
    }
  }

  lemma ResultOfPrefix(run: seq<Request>, r: Request, k: nat)
    requires k < |run|
    ensures ResultOf(run + [r], k) == ResultOf(run, k)
  {
    CacheAtPrefix(run, r, k);
  }

  lemma DoneStays(served: seq<Request>, r: Request, pc: Pc)
    requires DoneOk(served, pc)
    ensures DoneOk(served + [r], pc)
  {
    if pc.Done? {
      ResultOfPrefix(served, r, pc.index);
    }
  }

  lemma FinishedServes(s: State, c: CallerId, since: nat, r: Request)
    requires s.cache == CacheAt(s.served, |s.served|) && since <= |s.served|
    ensures var t := Finished(s, c, since, r);
      t.cache == CacheAt(t.served, |t.served|) && DoneOk(t.served, t.calls[c])
  {
    CacheAtPrefix(s.served, r, |s.served|);
  }

  lemma FinishedKeepsInv(s: State, c: CallerId, since: nat, r: Request)
    requires Inv(s) && s.holder == Some(c) && since <= |s.served| && r.now <= s.clock
    requires forall k :: 0 <= k < |s.served| ==> s.served[k].now <= r.now
    ensures Inv(Finished(s, c, since, r))
  {
    var t := Finished(s, c, since, r);
    FinishedServes(s, c, since, r);
    forall d | d in t.calls
      ensures CallOk(t, t.calls[d])
    {
      if d != c {
        assert CallOk(s, s.calls[d]) && !InSection(s.calls[d]);
        DoneStays(s.served, r, s.calls[d]);
      }
    }
  }

  lemma StepKeepsInv(s: State, a: Action)
    requires Inv(s) && Enabled(s, a)
    ensures Inv(Step(s, a))
  {
    match a {
      case Test(c) =>
        var pc := s.calls[c];
        assert CallOk(s, pc);
        if Hit(s.cache, pc.audience, s.clock) {
          FinishedKeepsInv(s, c, pc.since, Request(pc.audience, s.clock, Err(Unavailable(0))));
        }
      case Receive(c, reply) =>
        var pc := s.calls[c];
        assert CallOk(s, pc);
        FinishedKeepsInv(s, c, pc.since, Request(pc.audience, pc.now, Fetch(reply, s.clock)));
      case _ =>
        forall d | d in Step(s, a).calls
          ensures CallOk(Step(s, a), Step(s, a).calls[d])
        {
          assert d in s.calls ==> CallOk(s, s.calls[d]);
        }
    }
  }

  lemma {:induction false} RunKeepsInv(s: State, actions: seq<Action>)
    requires Inv(s) && Runs(s, actions)
    ensures Inv(After(s, actions))
    decreases |actions|
  {
    if actions != [] {
      StepKeepsInv(s, actions[0]);
      RunKeepsInv(Step(s, actions[0]), actions[1..]);
    }
  }

  lemma ReachableInv(s: State)
    requires Reachable(s)
    ensures Inv(s)
  {
    var fallback: string, clock: Time, actions: seq<Action> :|
      Runs(Init(fallback, clock), actions) && After(Init(fallback, clock), actions) == s;
    RunKeepsInv(Init(fallback, clock), actions);
  }

  // ---------- what callers can rely on ----------

  /** At most one fetch is in flight. */
  lemma AtMostOneFetch(s: State, c: CallerId, d: CallerId)
    requires Reachable(s) && c in s.calls && d in s.calls && s.calls[c].Fetching? && s.calls[d].Fetching?
    ensures c == d
  {
    ReachableInv(s);
  }

  /** No deadlock: a call that is not done can go on, or waits for one that can, whatever its fetch is answered. */
  lemma CallersCanProceed(s: State, c: CallerId)
    requires Reachable(s) && c in s.calls && !s.calls[c].Done?
    ensures var d := if s.calls[c].Waiting? && s.holder.Some? then s.holder.value else c;
      d in s.calls && (Enabled(s, Acquire(d)) || Enabled(s, Test(d)) || forall reply :: Enabled(s, Receive(d, reply)))
  {
    ReachableInv(s);
  }

  /**
   Linearizable: the cache is that of the requests served one after another, in the order of
   their clock readings; and a call returns what one request for its audience, served between
   its beginning and its return, is given in that sequence.
   */
  lemma CallsAreServedInTurn(s: State)
    requires Reachable(s)
    ensures s.cache == CacheAt(s.served, |s.served|)
    ensures forall j, k :: 0 <= j < k < |s.served| ==> s.served[j].now <= s.served[k].now
    ensures forall c :: c in s.calls && s.calls[c].Done? ==> var pc := s.calls[c];
      pc.since <= pc.index < |s.served| && s.served[pc.index].audience == pc.audience
      && pc.result == ResultOf(s.served, pc.index)
  {
    ReachableInv(s);
    forall c | c in s.calls
      ensures CallOk(s, s.calls[c])
    {
    }
  }

  /** Every token a caller gets was granted for its audience, to it or as the last grant, with over 30 seconds left. */
  lemma CallerGetsGrantedToken(s: State, c: CallerId)
    requires Reachable(s) && c in s.calls && s.calls[c].Done? && s.calls[c].result.Ok?
    ensures var pc := s.calls[c]; pc.index < |s.served| && exists j: nat ::
      && j <= pc.index && Obtains(s.served, j)
      && pc.result.value == Grant(s.served, j).token && Grant(s.served, j).audience == pc.audience
      && (j < pc.index ==> LastObtained(s.served, j, pc.index) && s.served[pc.index].now + 30_000_000_000 < Grant(s.served, j).expiresAt)
  {
    CallsAreServedInTurn(s);
    TokenComesFromService(s.served, s.calls[c].index);
  }

  lemma {:induction false} SinceStays(s: State, actions: seq<Action>, c: CallerId)
    requires Runs(s, actions) && c in s.calls
    ensures c in After(s, actions).calls && After(s, actions).calls[c].since == s.calls[c].since
    decreases |actions|
  {
    if actions != [] {
      SinceStays(Step(s, actions[0]), actions[1..], c);
    }
  }

  /** The request a call is served as comes after all those served before the call began. */
  lemma ServedAfterItsBeginning(s: State, c: CallerId, asked: string, actions: seq<Action>)
    requires Reachable(s) && Enabled(s, Begin(c, asked)) && Runs(Step(s, Begin(c, asked)), actions)
    ensures var t := After(Step(s, Begin(c, asked)), actions);
      c in t.calls && (t.calls[c].Done? ==> |s.served| <= t.calls[c].index < |t.served|)
  {
    ReachableInv(s);
    StepKeepsInv(s, Begin(c, asked));
    RunKeepsInv(Step(s, Begin(c, asked)), actions);
    SinceStays(Step(s, Begin(c, asked)), actions, c);
    var t := After(Step(s, Begin(c, asked)), actions);
    assert CallOk(t, t.calls[c]);
  }

  // ---------- whose token ----------

  /** Every call that was begun is about the audience it asked for. */
  ghost predicate Begun(s: State, past: seq<Action>) {
    forall c, asked :: Begin(c, asked) in past ==> c in s.calls && s.calls[c].audience == Resolve(asked, s.fallback)
  }

  lemma {:induction false} RunKeepsBegun(s: State, past: seq<Action>, actions: seq<Action>)
    requires Begun(s, past) && Runs(s, actions)
    ensures Begun(After(s, actions), past + actions) && After(s, actions).fallback == s.fallback
    decreases |actions|
  {
    if actions == [] {
      assert past + actions == past;
    } else {
      var t := Step(s, actions[0]);
      forall c, asked | Begin(c, asked) in past + [actions[0]]
        ensures c in t.calls && t.calls[c].audience == Resolve(asked, t.fallback)
      {
      }
      RunKeepsBegun(t, past + [actions[0]], actions[1..]);
      assert past + [actions[0]] + actions[1..] == past + actions;
    }
  }

  /**
   Over every run: the token a call returns was granted for exactly the audience it began with,
   if that has no white space at its ends, and for the configured default if it is blank.
   */
  lemma CallerGetsTokenForAudience(fallback: string, clock: Time, actions: seq<Action>, c: CallerId, asked: string)
    requires Runs(Init(fallback, clock), actions) && Begin(c, asked) in actions
    ensures var s := After(Init(fallback, clock), actions);
      && c in s.calls
      && (s.calls[c].Done? && s.calls[c].result.Ok? ==>
            exists j: nat :: j <= s.calls[c].index < |s.served| && Obtains(s.served, j)
              && s.calls[c].result.value == Grant(s.served, j).token
              && (asked != "" && Trimmed(asked) ==> Grant(s.served, j).audience == asked)
              && (Blank(asked) ==> Grant(s.served, j).audience == fallback))
  {
    var s := After(Init(fallback, clock), actions);
    RunKeepsBegun(Init(fallback, clock), [], actions);
    assert [] + actions == actions;
    ResolveWithoutSpace(asked, fallback);
    if s.calls[c].Done? && s.calls[c].result.Ok? {
      assert Reachable(s);
      CallerGetsGrantedToken(s, c);
    }
  }
}
