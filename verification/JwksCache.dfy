/**
 The JWKS cache: the object itself, and every interleaving of its callers with a remote
 server whose document changes over time.
 */
module JwksCache {
  import opened Common
  import opened Text
  import opened Jwks

  /** The guarded fields: the key table, the time of the last success, and the ETag to revalidate with. */
  datatype Cache = Cache(keys: KeyTable, fetchedAt: Option<int>, etag: string)

  const EMPTY: Cache := Cache(map[], None, "")

  /** What Do and reading the body give: no response, a 304, another status, or a 200 with its decoded document. */
  datatype Response =
    | NoResponse
    | NotModified
    | OtherStatus(code: int)
    | OK(body: Option<Document>, etag: string)   // no body: reading or decoding it failed

  datatype Error = EmptyUrl | FetchFailed | BadStatus(code: int) | BadBody | BadDocument(why: ParseError) | MissingKid | UnknownKid

  /** The key table after seeding: good entries are added, later ones winning, bad ones ignored. */
  function Seeded(keys: KeyTable, entries: seq<Entry>): KeyTable {
    if entries == [] then keys
    else var e := entries[|entries| - 1];
      var rest := Seeded(keys, entries[..|entries| - 1]);
      if GoodEntry(e) then rest[e.kid := e.publicKey] else rest
  }

  function SeededCache(c: Cache, entries: seq<Entry>, now: int): Cache {
    var keys := Seeded(c.keys, entries);
    c.(keys := keys, fetchedAt := if keys != map[] then Some(now) else c.fetchedAt)
  }

  /** How Refresh ends for a response, and the cache it leaves. */
  function Refreshed(c: Cache, response: Response, now: int): (Option<Error>, Cache) {
    match response
    case NoResponse => (Some(FetchFailed), c)
    case NotModified => (None, c.(fetchedAt := Some(now)))
    case OtherStatus(code) => (Some(BadStatus(code)), c)
    case OK(None, _) => (Some(BadBody), c)
    case OK(Some(doc), etag) =>
      match Parse(doc)
      case Err(why) => (Some(BadDocument(why)), c)
      case Ok(keys) => (None, Cache(keys, Some(now), if etag != "" then etag else c.etag))
  }

  predicate NeedsRefresh(c: Cache, url: string, ttl: int, now: int) {
    var stale := c.fetchedAt.None? || now - c.fetchedAt.value > ttl;
    !(c.keys != map[] && (!stale || url == ""))
  }

  // ---------- the object ----------

  class KeyCache {
    const url: string
    const ttl: int
    var keys: KeyTable
    var fetchedAt: Option<int>
    var lastETag: string

    constructor (url: string, ttl: int)
      ensures this.url == TrimSpace(url) && this.ttl == (if ttl <= 0 then 900_000_000_000 else ttl) && Contents() == EMPTY
    {
      this.url, this.ttl := TrimSpace(url), if ttl <= 0 then 900_000_000_000 else ttl;
      keys, fetchedAt, lastETag := map[], None, "";
    }

    function Contents(): Cache
      reads this
    {
      Cache(keys, fetchedAt, lastETag)
    }

    method Seed(entries: seq<Entry>, now: int)
      modifies this
      ensures Contents() == SeededCache(old(Contents()), entries, now)
    {
      for i := 0 to |entries|
        invariant keys == Seeded(old(keys), entries[..i])
        invariant fetchedAt == old(fetchedAt) && lastETag == old(lastETag)
      {
        var e := entries[i];
        assert entries[..i + 1][..i] == entries[..i];
        if e.kid != "" && |e.publicKey| == KEY_SIZE {
          keys := keys[e.kid := e.publicKey];
        }
      }
      assert entries[..|entries|] == entries;
      if |keys| > 0 {
        fetchedAt := Some(now);
      }
    }

    method Get(kid: string) returns (key: Option<PublicKey>)
      ensures key == if kid in keys then Some(keys[kid]) else None
    {
      key := if kid in keys then Some(keys[kid]) else None;
    }

    /** Refresh, given what the server answers. */
    method Refresh(response: Response, now: int) returns (err: Option<Error>)
      modifies this
      ensures url == "" ==> err == Some(EmptyUrl) && Contents() == old(Contents())
      ensures url != "" ==> (err, Contents()) == Refreshed(old(Contents()), response, now)
    {
      if url == "" {
        return Some(EmptyUrl);
      }
      match response
      case NoResponse => return Some(FetchFailed);
      case NotModified =>
        fetchedAt := Some(now);
        return None;
      case OtherStatus(code) => return Some(BadStatus(code));
      case OK(body, etag) =>
        if body.None? {
          return Some(BadBody);
        }
        var parsed := ParseDocument(body.value);
        if parsed.Err? {
          return Some(BadDocument(parsed.error));
        }
        keys := parsed.value;
        fetchedAt := Some(now);
        if etag != "" {
          lastETag := etag;
        }
        return None;
    }

    method EnsureFresh(response: Response, now: int) returns (err: Option<Error>)
      modifies this
      ensures !NeedsRefresh(old(Contents()), url, ttl, now) ==> err.None? && Contents() == old(Contents())
      ensures NeedsRefresh(old(Contents()), url, ttl, now) ==>
        if url == "" then err == Some(EmptyUrl) && Contents() == old(Contents())
        else (err, Contents()) == Refreshed(old(Contents()), response, now)
      // without a remote, any key is good enough for ever
      ensures url == "" && old(keys) != map[] ==> err.None? && Contents() == old(Contents())
      ensures old(keys) == map[] && url != "" ==> (err, Contents()) == Refreshed(old(Contents()), response, now)
    {
      var stale := fetchedAt.None? || now - fetchedAt.value > ttl;
      if |keys| > 0 && (!stale || url == "") {
        return None;
      }
      err := Refresh(response, now);
    }

    /** Lookup: a missing key costs one refresh, and is returned even if that refresh fails but the key has arrived. */
    method Lookup(kid: string, response: Response, now: int) returns (result: Result<PublicKey, Error>)
      modifies this
      ensures kid == "" ==> result == Err(MissingKid)
      ensures kid == "" || kid in old(keys) || url == "" ==> Contents() == old(Contents())
      ensures kid != "" && kid !in old(keys) && url != "" ==> Contents() == Refreshed(old(Contents()), response, now).1
      ensures kid != "" && kid in old(keys) ==> result == Ok(old(keys)[kid])
      ensures kid != "" && kid !in old(keys) ==>
        var (err, after) := if url == "" then (Some(EmptyUrl), old(Contents())) else Refreshed(old(Contents()), response, now);
        result == if kid in after.keys then Ok(after.keys[kid]) else Err(if err.Some? then err.value else UnknownKid)
    {
      if kid == "" {
        return Err(MissingKid);
      }
      var key := Get(kid);
      if key.Some? {
        return Ok(key.value);
      }
      var err := Refresh(response, now);
      key := Get(kid);
      if key.Some? {
        return Ok(key.value);
      }
      return Err(if err.Some? then err.value else UnknownKid);
    }
  }

  /** Seeding a new cache with good entries gives their last-wins table. */
  lemma {:induction false} SeededIsLastWins(entries: seq<Entry>)
    requires forall i :: 0 <= i < |entries| ==> GoodEntry(entries[i])
    ensures Seeded(map[], entries) == LastWins(entries)
  {
    if entries != [] {
      SeededIsLastWins(entries[..|entries| - 1]);
    }
  }

  /** A cache without keys is always refreshed; with keys, one without a remote never is. */
  lemma RefreshNeededWithoutRemote(c: Cache, url: string, ttl: int, now: int)
    ensures c.keys == map[] ==> NeedsRefresh(c, url, ttl, now)
    ensures c.keys != map[] && url == "" ==> !NeedsRefresh(c, url, ttl, now)
    ensures c.keys != map[] && url != "" && c.fetchedAt.None? ==> NeedsRefresh(c, url, ttl, now)
  {
  }

  /** Seeding that leaves a key keeps the cache from being refreshed for exactly the time to live. */
  lemma SeededFreshForTtl(c: Cache, entries: seq<Entry>, now: int, url: string, ttl: int, later: int)
    requires url != "" && Seeded(c.keys, entries) != map[]
    ensures NeedsRefresh(SeededCache(c, entries, now), url, ttl, later) <==> later > now + ttl
  {
  }

  /** Seeding leaves a key exactly when there was one or a good entry is seeded; otherwise it changes nothing. */
  lemma {:induction false} SeedingLeavesKeys(c: Cache, entries: seq<Entry>, now: int)
    ensures Seeded(c.keys, entries) != map[] <==> c.keys != map[] || exists i :: 0 <= i < |entries| && GoodEntry(entries[i])
    ensures Seeded(c.keys, entries) == map[] ==> SeededCache(c, entries, now) == c
    decreases |entries|
  {
    if entries != [] {
      var last := |entries| - 1;
      SeedingLeavesKeys(c, entries[..last], now);
      if GoodEntry(entries[last]) {
        assert entries[last].kid in Seeded(c.keys, entries);
      } else if i :| 0 <= i < |entries| && GoodEntry(entries[i]) {
        assert GoodEntry(entries[..last][i]);
      }
    }
  }

  /** A refresh succeeds exactly on a 304, or on a 200 whose document parses; any other outcome has its own error. */
  lemma RefreshSucceedsExactly(c: Cache, response: Response, now: int)
    ensures Refreshed(c, response, now).0.None? <==>
      response.NotModified? || (response.OK? && response.body.Some? && Parse(response.body.value).Ok?)
    ensures response.NoResponse? ==> Refreshed(c, response, now).0 == Some(FetchFailed)
    ensures response.OtherStatus? ==> Refreshed(c, response, now).0 == Some(BadStatus(response.code))
    ensures response.OK? && response.body.None? ==> Refreshed(c, response, now).0 == Some(BadBody)
  {
  }

  /** A successful refresh keeps the cache from being refreshed again for exactly the time to live. */
  lemma FreshForTtl(c: Cache, response: Response, now: int, url: string, ttl: int, later: int)
    requires url != "" && Refreshed(c, response, now).0.None? && (response.NotModified? ==> c.keys != map[])
    ensures NeedsRefresh(Refreshed(c, response, now).1, url, ttl, later) <==> later > now + ttl
  {
    if response.OK? {
      ParseExactly(response.body.value);
    }
  }

  // ---------- callers and the server ----------

  type CallerId = nat

  /** What a caller wants from Refresh: to be done, or to look a kid up afterwards; since is when its call began. */
  datatype Goal = Refreshing | Finding(kid: string, since: nat)

  /** Where a call of Refresh or Lookup stands. */
  datatype Pc =
    | FirstGet(kid: string, since: nat)
    | Waiting(goal: Goal)                                    // for the refreshing mutex
    | Locked(goal: Goal)                                     // holding it, ETag not read yet
    | Sending(goal: Goal, tag: string)                       // request with If-None-Match: tag, if not empty
    | Replied(goal: Goal, response: Response, doc: Document) // doc: the server's document when it answered
    | SecondGet(kid: string, since: nat, err: Option<Error>)
    | DoneRefresh(err: Option<Error>)
    | DoneLookup(kid: string, since: nat, key: Option<PublicKey>)

  /** The server's current document and tag, and the document each tag it ever used stands for. */
  datatype Server = Server(doc: Document, tag: string, tags: map<string, Document>)

  /** history: every key table the cache has held, the current one last. */
  datatype State = State(cache: Cache, server: Server, holder: Option<CallerId>, calls: map<CallerId, Pc>, history: seq<KeyTable>)

  function Init(doc: Document, tag: string): State {
    State(EMPTY, Server(doc, tag, map[tag := doc]), None, map[], [map[]])
  }

  datatype Action =
    | CallRefresh(caller: CallerId) | CallLookup(caller: CallerId, kid: string)
    | Advance(caller: CallerId)                      // the next step of a call, other than the two below
    | Answer(caller: CallerId, response: Response)   // the server answers its request
    | Apply(caller: CallerId, now: int)              // the response is applied and the mutex released
    | Seed(entries: seq<Entry>, now: int)
    | Deploy(doc: Document, tag: string)             // the server changes its document

  /**
   What the server may answer: a 200 carries its current document and tag; a 304 is sent only
   to a request whose tag is the current one (sections 13.1.2 and 15.4.5 of RFC 9110); the
   request may also fail in any way.
   */
  predicate MayAnswer(server: Server, tag: string, response: Response) {
    match response
    case NotModified => tag != "" && tag == server.tag
    case OK(Some(doc), etag) => doc == server.doc && etag == server.tag
    case _ => true
  }

  predicate InSection(pc: Pc) {
    pc.Locked? || pc.Sending? || pc.Replied?
  }

  predicate Enabled(s: State, a: Action) {
    match a
    case CallRefresh(c) => c !in s.calls
    case CallLookup(c, kid) => c !in s.calls && kid != ""
    case Advance(c) => c in s.calls && (match s.calls[c]
                                        case Waiting(_) => s.holder.None?
                                        case FirstGet(_, _) | Locked(_) | SecondGet(_, _, _) => true
                                        case _ => false)
    case Answer(c, response) => c in s.calls && s.calls[c].Sending? && MayAnswer(s.server, s.calls[c].tag, response)
    case Apply(c, _) => c in s.calls && s.calls[c].Replied?
    case Seed(_, _) => true
    // a tag names one document for ever
    case Deploy(doc, tag) => tag in s.server.tags ==> tag == "" || s.server.tags[tag] == doc
  }

  function Lookup(keys: KeyTable, kid: string): Option<PublicKey> {
    if kid in keys then Some(keys[kid]) else None
  }

  function WithCache(s: State, c: Cache): State {
    s.(cache := c, history := s.history + [c.keys])
  }

  function Ended(goal: Goal, err: Option<Error>): Pc {
    match goal
    case Refreshing => DoneRefresh(err)
    case Finding(kid, since) => SecondGet(kid, since, err)
  }

  function Advanced(s: State, c: CallerId): State
    requires Enabled(s, Advance(c))
  {
    match s.calls[c]
    case FirstGet(kid, since) =>
      s.(calls := s.calls[c := if kid in s.cache.keys then DoneLookup(kid, since, Lookup(s.cache.keys, kid))
                               else Waiting(Finding(kid, since))])
    case Waiting(goal) => s.(holder := Some(c), calls := s.calls[c := Locked(goal)])
    case Locked(goal) => s.(calls := s.calls[c := Sending(goal, s.cache.etag)])
    case SecondGet(kid, since, _) => s.(calls := s.calls[c := DoneLookup(kid, since, Lookup(s.cache.keys, kid))])
    case _ => s
  }

  function Applied(s: State, c: CallerId, now: int): State
    requires Enabled(s, Apply(c, now))
  {
    var (err, cache) := Refreshed(s.cache, s.calls[c].response, now);
    WithCache(s.(holder := None, calls := s.calls[c := Ended(s.calls[c].goal, err)]), cache)
  }

  function Step(s: State, a: Action): State
    requires Enabled(s, a)
  {
    match a
    case CallRefresh(c) => s.(calls := s.calls[c := Waiting(Refreshing)])
    case CallLookup(c, kid) => s.(calls := s.calls[c := FirstGet(kid, if |s.history| == 0 then 0 else |s.history| - 1)])
    case Advance(c) => Advanced(s, c)
    case Answer(c, response) => s.(calls := s.calls[c := Replied(s.calls[c].goal, response, s.server.doc)])
    case Apply(c, now) => Applied(s, c, now)
    case Seed(entries, now) => WithCache(s, SeededCache(s.cache, entries, now))
    case Deploy(doc, tag) => s.(server := Server(doc, tag, s.server.tags[tag := doc]))
  }

  predicate Runs(s: State, actions: seq<Action>)
    decreases |actions|
  {
    actions == [] || (Enabled(s, actions[0]) && Runs(Step(s, actions[0]), actions[1..]))
  }

  function After(s: State, actions: seq<Action>): State
    requires Runs(s, actions)
    decreases |actions|
  {
    if actions == [] then s else After(Step(s, actions[0]), actions[1..])
  }

  // ---------- safety over every run ----------

  predicate GoodKeys(keys: KeyTable) {
    forall kid :: kid in keys ==> kid != "" && |keys[kid]| == KEY_SIZE
  }

  /** In the j-th table the cache has held, the kid is bound to what the lookup returned, or not bound. */
  predicate Held(history: seq<KeyTable>, j: nat, kid: string, key: Option<PublicKey>) {
    j < |history| && Lookup(history[j], kid) == key
  }

  /** A finished lookup returned what the cache held for its kid at some moment during the call. */
  ghost predicate Honest(s: State, pc: Pc) {
    pc.DoneLookup? ==> exists j :: pc.since <= j && Held(s.history, j, pc.kid, pc.key)
  }

  function Since(pc: Pc): nat {
    match pc
    case FirstGet(_, since) => since
    case SecondGet(_, since, _) => since
    case DoneLookup(_, since, _) => since
    case Waiting(Finding(_, since)) => since
    case Locked(Finding(_, since)) => since
    case Sending(Finding(_, since), _) => since
    case Replied(Finding(_, since), _, _) => since
    case _ => 0
  }

  ghost predicate Safe(s: State) {
    && |s.history| > 0 && s.history[|s.history| - 1] == s.cache.keys
    && GoodKeys(s.cache.keys)
    && (s.cache.etag != "" ==> s.cache.keys != map[])
    && (forall c :: c in s.calls ==> (InSection(s.calls[c]) <==> s.holder == Some(c)))
    && (s.holder.Some? ==> s.holder.value in s.calls)
    && (forall c :: c in s.calls ==> Since(s.calls[c]) < |s.history| && Honest(s, s.calls[c]))
  }

  lemma {:induction false} SeededKeepsGood(keys: KeyTable, entries: seq<Entry>)
    requires GoodKeys(keys)
    ensures GoodKeys(Seeded(keys, entries)) && keys.Keys <= Seeded(keys, entries).Keys
  {
    if entries != [] {
      SeededKeepsGood(keys, entries[..|entries| - 1]);
    }
  }

  lemma RefreshedKeepsGood(c: Cache, response: Response, now: int)
    requires GoodKeys(c.keys) && (c.etag != "" ==> c.keys != map[])
    ensures var (err, d) := Refreshed(c, response, now);
      && GoodKeys(d.keys) && (d.etag != "" ==> d.keys != map[])
      && (c.keys != map[] ==> d.keys != map[])
      && (err.Some? ==> d == c)
  {
    if response.OK? && response.body.Some? {
      ParseExactly(response.body.value);
    }
  }

  /** Seeding and refreshing keep every stored kid named and every key whole, and never empty the cache. */
  lemma StepKeepsKeys(s: State, a: Action)
    requires GoodKeys(s.cache.keys) && (s.cache.etag != "" ==> s.cache.keys != map[]) && Enabled(s, a)
    ensures var c := Step(s, a).cache;
      GoodKeys(c.keys) && (c.etag != "" ==> c.keys != map[]) && (s.cache.keys != map[] ==> c.keys != map[])
  {
    if a.Seed? {
      SeededKeepsGood(s.cache.keys, a.entries);
      if s.cache.keys != map[] {
        var kid :| kid in s.cache.keys;
        assert kid in Seeded(s.cache.keys, a.entries);
      }
    } else if a.Apply? {
      RefreshedKeepsGood(s.cache, s.calls[a.caller].response, a.now);
    }
  }

  lemma StepKeepsMutex(s: State, a: Action)
    requires Safe(s) && Enabled(s, a)
    ensures var t := Step(s, a);
      && (forall c :: c in t.calls ==> (InSection(t.calls[c]) <==> t.holder == Some(c)))
      && (t.holder.Some? ==> t.holder.value in t.calls)
  {
  }

  lemma StepKeepsHonest(s: State, a: Action, c: CallerId)
    requires Safe(s) && Enabled(s, a) && c in Step(s, a).calls
    ensures var t := Step(s, a); Since(t.calls[c]) < |t.history| && Honest(t, t.calls[c])
  {
    var t := Step(s, a);
    assert s.history <= t.history;
    var now := |s.history| - 1;
    if c in s.calls {
      assert Since(s.calls[c]) <= now && Honest(s, s.calls[c]);
      var pc := t.calls[c];
      if pc == s.calls[c] && pc.DoneLookup? {
        var j :| pc.since <= j && Held(s.history, j, pc.kid, pc.key);
        assert t.history[j] == s.history[j];
        assert Held(t.history, j, pc.kid, pc.key);
      } else if pc.DoneLookup? {
        assert t.history[now] == s.cache.keys;
        assert Held(t.history, now, pc.kid, pc.key);
      }
    }
  }

  lemma StepKeepsSafe(s: State, a: Action)
    requires Safe(s) && Enabled(s, a)
    ensures Safe(Step(s, a))
  {
    StepKeepsKeys(s, a);
    StepKeepsMutex(s, a);
    forall c | c in Step(s, a).calls
      ensures Since(Step(s, a).calls[c]) < |Step(s, a).history| && Honest(Step(s, a), Step(s, a).calls[c])
    {
      StepKeepsHonest(s, a, c);
    }
  }

  lemma {:induction false} RunKeepsSafe(s: State, actions: seq<Action>)
    requires Safe(s) && Runs(s, actions)
    ensures Safe(After(s, actions))
    ensures s.cache.keys != map[] ==> After(s, actions).cache.keys != map[]
    decreases |actions|
  {
    if actions != [] {
      StepKeepsSafe(s, actions[0]);
      StepKeepsKeys(s, actions[0]);
      RunKeepsSafe(Step(s, actions[0]), actions[1..]);
    }
  }

  lemma InitSafe(doc: Document, tag: string)
    ensures Safe(Init(doc, tag))
  {
  }

  /** The states some run leads to. */
  ghost predicate Reachable(s: State) {
    exists doc: Document, tag: string, actions: seq<Action> ::
      Runs(Init(doc, tag), actions) && After(Init(doc, tag), actions) == s
  }

  lemma ReachableSafe(s: State)
    requires Reachable(s)
    ensures Safe(s)
  {
    var doc: Document, tag: string, actions: seq<Action> :|
      Runs(Init(doc, tag), actions) && After(Init(doc, tag), actions) == s;
    InitSafe(doc, tag);
    RunKeepsSafe(Init(doc, tag), actions);
  }

  /**
   Cache safety: in every reachable state each stored kid is named and bound to 32 bytes, a
   stored ETag implies keys, and at most one call is past the refreshing mutex.
   */
  lemma CacheSafety(s: State)
    requires Reachable(s)
    ensures forall kid :: kid in s.cache.keys ==> kid != "" && |s.cache.keys[kid]| == 32
    ensures s.cache.etag != "" ==> s.cache.keys != map[]
    ensures forall c, d :: c in s.calls && d in s.calls && InSection(s.calls[c]) && InSection(s.calls[d]) ==> c == d
  {
    ReachableSafe(s);
  }

  /** Once the cache holds a key it is never empty again. */
  lemma NeverEmptyAgain(s: State, actions: seq<Action>)
    requires Reachable(s) && s.cache.keys != map[] && Runs(s, actions)
    ensures After(s, actions).cache.keys != map[]
  {
    ReachableSafe(s);
    RunKeepsSafe(s, actions);
  }

  /**
   What Lookup returns is what the cache held for its kid at some moment during the call: a key
   that was bound to the kid then, or nothing only if nothing was.
   */
  lemma LookupReturnsHeldKey(s: State, c: CallerId)
    requires Reachable(s) && c in s.calls && s.calls[c].DoneLookup?
    ensures var pc := s.calls[c];
      exists j :: pc.since <= j < |s.history|
        && (pc.key.Some? ==> pc.kid in s.history[j] && s.history[j][pc.kid] == pc.key.value)
        && (pc.key.None? ==> pc.kid !in s.history[j])
  {
    ReachableSafe(s);
    var pc := s.calls[c];
    assert Honest(s, pc);
    var j :| pc.since <= j && Held(s.history, j, pc.kid, pc.key);
    assert pc.since <= j < |s.history|;
  }

  /** A lookup keeps its kid and the moment it began. */
  predicate Looking(pc: Pc, kid: string, since: nat) {
    match pc
    case FirstGet(k, n) => k == kid && n == since
    case Waiting(goal) => goal == Finding(kid, since)
    case Locked(goal) => goal == Finding(kid, since)
    case Sending(goal, _) => goal == Finding(kid, since)
    case Replied(goal, _, _) => goal == Finding(kid, since)
    case SecondGet(k, n, _) => k == kid && n == since
    case DoneRefresh(_) => false
    case DoneLookup(k, n, _) => k == kid && n == since
  }

  lemma {:induction false} RunKeepsLooking(s: State, actions: seq<Action>, c: CallerId, kid: string, since: nat)
    requires Runs(s, actions) && c in s.calls && Looking(s.calls[c], kid, since)
    ensures c in After(s, actions).calls && Looking(After(s, actions).calls[c], kid, since)
    decreases |actions|
  {
    if actions != [] {
      RunKeepsLooking(Step(s, actions[0]), actions[1..], c, kid, since);
    }
  }

  /**
   Over every run: a lookup that has returned gives what the cache held for the kid it was called
   with at some moment since its call, and no earlier one: a key bound to it, or nothing if unbound.
   */
  lemma LookupSeesItsCall(s: State, c: CallerId, kid: string, actions: seq<Action>)
    requires Reachable(s) && Enabled(s, CallLookup(c, kid)) && Runs(Step(s, CallLookup(c, kid)), actions)
    ensures var t := After(Step(s, CallLookup(c, kid)), actions);
      && c in t.calls
      && (t.calls[c].DoneLookup? ==>
            exists j :: |s.history| - 1 <= j && Held(t.history, j, kid, t.calls[c].key))
  {
    ReachableSafe(s);
    StepKeepsSafe(s, CallLookup(c, kid));
    RunKeepsSafe(Step(s, CallLookup(c, kid)), actions);
    RunKeepsLooking(Step(s, CallLookup(c, kid)), actions, c, kid, |s.history| - 1);
    var t := After(Step(s, CallLookup(c, kid)), actions);
    assert Honest(t, t.calls[c]);
  }

  /** No deadlock: a call that is not done can go on, or waits for one that can. */
  lemma CallersCanProceed(s: State, c: CallerId)
    requires Reachable(s) && c in s.calls && !s.calls[c].DoneRefresh? && !s.calls[c].DoneLookup?
    ensures var d := if s.calls[c].Waiting? && s.holder.Some? then s.holder.value else c;
      d in s.calls && (Enabled(s, Advance(d)) || Enabled(s, Answer(d, NoResponse)) || forall now :: Enabled(s, Apply(d, now)))
  {
    ReachableSafe(s);
  }

  // ---------- what seeding changes ----------

  /** Entry i is the last good one for its kid. */
  predicate LastGood(entries: seq<Entry>, i: nat) {
    i < |entries| && GoodEntry(entries[i])
    && forall j :: i < j < |entries| && GoodEntry(entries[j]) ==> entries[j].kid != entries[i].kid
  }

  /** Every last good entry is already in the table. */
  predicate Confirms(keys: KeyTable, entries: seq<Entry>) {
    forall i :: 0 <= i < |entries| && LastGood(entries, i) ==>
      entries[i].kid in keys && keys[entries[i].kid] == entries[i].publicKey
  }

  lemma {:induction false} SeededLast(keys: KeyTable, entries: seq<Entry>, i: nat)
    requires LastGood(entries, i)
    ensures entries[i].kid in Seeded(keys, entries) && Seeded(keys, entries)[entries[i].kid] == entries[i].publicKey
  {
    var last := |entries| - 1;
    if i < last {
      SeededLast(keys, entries[..last], i);
    }
  }

  lemma {:induction false} SeededElse(keys: KeyTable, entries: seq<Entry>, kid: string)
    requires forall i :: 0 <= i < |entries| && GoodEntry(entries[i]) ==> entries[i].kid != kid
    ensures kid in Seeded(keys, entries) <==> kid in keys
    ensures kid in keys ==> Seeded(keys, entries)[kid] == keys[kid]
  {
    if entries != [] {
      SeededElse(keys, entries[..|entries| - 1], kid);
    }
  }

  lemma {:induction false} LastGoodExists(entries: seq<Entry>, i: nat) returns (last: nat)
    requires i < |entries| && GoodEntry(entries[i])
    ensures LastGood(entries, last) && entries[last].kid == entries[i].kid
    decreases |entries| - i
  {
    if j :| i < j < |entries| && GoodEntry(entries[j]) && entries[j].kid == entries[i].kid {
      last := LastGoodExists(entries, j);
    } else {
      last := i;
    }
  }

  /** Seeding changes no key exactly when every last good entry is already in the table. */
  lemma SeedingChangesNothing(keys: KeyTable, entries: seq<Entry>)
    ensures Seeded(keys, entries) == keys <==> Confirms(keys, entries)
  {
    forall i | 0 <= i < |entries| && LastGood(entries, i)
      ensures entries[i].kid in Seeded(keys, entries) && Seeded(keys, entries)[entries[i].kid] == entries[i].publicKey
    {
      SeededLast(keys, entries, i);
    }
    if Confirms(keys, entries) {
      forall kid: string
        ensures kid in Seeded(keys, entries) <==> kid in keys
        ensures kid in keys ==> Seeded(keys, entries)[kid] == keys[kid]
      {
        if i :| 0 <= i < |entries| && GoodEntry(entries[i]) && entries[i].kid == kid {
          var last := LastGoodExists(entries, i);
        } else {
          SeededElse(keys, entries, kid);
        }
      }
    }
  }

  // ---------- coherence with the server ----------

  /** A stored ETag names the document the cached keys come from. */
  predicate CoherentWith(c: Cache, tags: map<string, Document>) {
    c.etag != "" ==> c.etag in tags && Parse(tags[c.etag]) == Ok(c.keys)
  }

  /** What a request or response under way knows. */
  predicate InFlight(s: State, pc: Pc) {
    match pc
    case Sending(_, tag) => tag == s.cache.etag
    case Replied(_, NotModified, doc) => s.cache.etag != "" && s.cache.etag in s.server.tags && s.server.tags[s.cache.etag] == doc
    case Replied(_, OK(Some(d), etag), doc) => d == doc && (etag != "" ==> etag in s.server.tags && s.server.tags[etag] == d)
    case _ => true
  }

  /** The current tag names the current document, and every response under way was one the server could give. */
  ghost predicate Tracking(s: State) {
    && (s.server.tag != "" ==> s.server.tag in s.server.tags && s.server.tags[s.server.tag] == s.server.doc)
    && (forall c :: c in s.calls ==> InFlight(s, s.calls[c]))
  }

  lemma StepKeepsTracking(s: State, a: Action)
    requires Safe(s) && Tracking(s) && Enabled(s, a)
    ensures Tracking(Step(s, a))
  {
    var t := Step(s, a);
    forall c | c in t.calls
      ensures InFlight(t, t.calls[c])
    {
      if a.Apply? {
        assert !InSection(t.calls[c]);
      } else {
        assert c in s.calls ==> InFlight(s, s.calls[c]);
      }
    }
  }

  lemma {:induction false} RunKeepsTracking(s: State, actions: seq<Action>)
    requires Safe(s) && Tracking(s) && Runs(s, actions)
    ensures Tracking(After(s, actions))
    decreases |actions|
  {
    if actions != [] {
      StepKeepsSafe(s, actions[0]);
      StepKeepsTracking(s, actions[0]);
      RunKeepsTracking(Step(s, actions[0]), actions[1..]);
    }
  }

  lemma ReachableTracking(s: State)
    requires Reachable(s)
    ensures Safe(s) && Tracking(s)
  {
    var doc: Document, tag: string, actions: seq<Action> :|
      Runs(Init(doc, tag), actions) && After(Init(doc, tag), actions) == s;
    InitSafe(doc, tag);
    RunKeepsTracking(Init(doc, tag), actions);
    RunKeepsSafe(Init(doc, tag), actions);
  }

  predicate Coherent(s: State) {
    CoherentWith(s.cache, s.server.tags)
  }

  /**
   The steps that keep the cache coherent: any seeding and any untagged document while no tag
   is stored; beside a stored tag only a seeding whose last good entries are all cached, and
   only an untagged document with the cached keys. A document that does not parse is harmless.
   */
  predicate Harmless(s: State, a: Action) {
    match a
    case Seed(entries, _) => s.cache.etag == "" || Confirms(s.cache.keys, entries)
    case Apply(c, _) =>
      if c in s.calls && s.calls[c].Replied? then
        match s.calls[c].response
        case OK(Some(doc), etag) => etag != "" || s.cache.etag == "" || Parse(doc).Err? || Parse(doc).value == s.cache.keys
        case _ => true
      else true
    case _ => true
  }

  /** Coherence is lost in exactly the steps that are not harmless. */
  lemma StepKeepsCoherence(s: State, a: Action)
    requires Safe(s) && Tracking(s) && Enabled(s, a) && Coherent(s)
    ensures Coherent(Step(s, a)) <==> Harmless(s, a)
  {
    if a.Seed? {
      SeedingChangesNothing(s.cache.keys, a.entries);
    } else if a.Apply? {
      assert InFlight(s, s.calls[a.caller]);
    }
  }

  /** A 200 without a tag keeps the old one, which stays right exactly when both documents have the same keys. */
  lemma UntaggedReply(c: Cache, tags: map<string, Document>, doc: Document, now: int)
    requires CoherentWith(c, tags) && Parse(doc).Ok?
    ensures CoherentWith(Refreshed(c, OK(Some(doc), ""), now).1, tags)
      <==> c.etag == "" || Parse(doc) == Parse(tags[c.etag])
  {
  }

  /** Seeding beside a stored tag keeps coherence exactly when every last good entry is already cached. */
  lemma SeedingBesideTag(c: Cache, tags: map<string, Document>, entries: seq<Entry>, now: int)
    requires CoherentWith(c, tags)
    ensures CoherentWith(SeededCache(c, entries, now), tags) <==> c.etag == "" || Confirms(c.keys, entries)
  {
    SeedingChangesNothing(c.keys, entries);
  }

  predicate CoherentThroughout(s: State, actions: seq<Action>)
    requires Runs(s, actions)
    decreases |actions|
  {
    Coherent(s) && (actions != [] ==> CoherentThroughout(Step(s, actions[0]), actions[1..]))
  }

  predicate HarmlessThroughout(s: State, actions: seq<Action>)
    requires Runs(s, actions)
    decreases |actions|
  {
    actions != [] ==> Harmless(s, actions[0]) && HarmlessThroughout(Step(s, actions[0]), actions[1..])
  }

  lemma {:induction false} CoherentFrom(s: State, actions: seq<Action>)
    requires Safe(s) && Tracking(s) && Coherent(s) && Runs(s, actions)
    ensures CoherentThroughout(s, actions) <==> HarmlessThroughout(s, actions)
    ensures HarmlessThroughout(s, actions) ==> Coherent(After(s, actions))
    decreases |actions|
  {
    if actions != [] {
      var t := Step(s, actions[0]);
      StepKeepsSafe(s, actions[0]);
      StepKeepsTracking(s, actions[0]);
      StepKeepsCoherence(s, actions[0]);
      if Harmless(s, actions[0]) {
        CoherentFrom(t, actions[1..]);
      }
    }
  }

  /** Coherence over whole runs, exactly: at every moment of a run if and only if all its steps are harmless. */
  lemma CoherentExactly(doc: Document, tag: string, actions: seq<Action>)
    requires Runs(Init(doc, tag), actions)
    ensures CoherentThroughout(Init(doc, tag), actions) <==> HarmlessThroughout(Init(doc, tag), actions)
  {
    InitSafe(doc, tag);
    CoherentFrom(Init(doc, tag), actions);
  }

  /** The states of runs all of whose steps are harmless. */
  ghost predicate ReachableHarmlessly(s: State) {
    exists doc: Document, tag: string, actions: seq<Action> ::
      Runs(Init(doc, tag), actions) && HarmlessThroughout(Init(doc, tag), actions) && After(Init(doc, tag), actions) == s
  }

  lemma HarmlessCoherent(s: State)
    requires ReachableHarmlessly(s)
    ensures Reachable(s) && Coherent(s)
  {
    var doc: Document, tag: string, actions: seq<Action> :|
      Runs(Init(doc, tag), actions) && HarmlessThroughout(Init(doc, tag), actions) && After(Init(doc, tag), actions) == s;
    InitSafe(doc, tag);
    CoherentFrom(Init(doc, tag), actions);
  }

  /** Coherence: a stored tag names the document whose keys are cached. */
  lemma TagNamesCachedKeys(s: State)
    requires ReachableHarmlessly(s) && s.cache.etag != ""
    ensures s.cache.etag in s.server.tags && Parse(s.server.tags[s.cache.etag]) == Ok(s.cache.keys)
  {
    HarmlessCoherent(s);
  }

  /** The response a call is about to apply makes its refresh succeed. */
  predicate Succeeds(s: State, c: CallerId, now: int) {
    Enabled(s, Apply(c, now)) && Refreshed(s.cache, s.calls[c].response, now).0.None?
  }

  /**
   A successful refresh leaves the server's keys at the moment it answered in the cache exactly
   when it was a 200, or a 304 that found the cache coherent.
   */
  lemma RefreshMatchesExactly(s: State, c: CallerId, now: int)
    requires Reachable(s) && Succeeds(s, c, now)
    ensures Parse(s.calls[c].doc) == Ok(Step(s, Apply(c, now)).cache.keys) <==> (s.calls[c].response.NotModified? ==> Coherent(s))
  {
    ReachableTracking(s);
    assert InFlight(s, s.calls[c]);
  }

  /** After harmless steps, a successful refresh always installs or confirms the server's keys. */
  lemma RefreshMatchesServer(s: State, c: CallerId, now: int)
    requires ReachableHarmlessly(s) && Succeeds(s, c, now)
    ensures Parse(s.calls[c].doc) == Ok(Step(s, Apply(c, now)).cache.keys)
  {
    HarmlessCoherent(s);
    RefreshMatchesExactly(s, c, now);
  }

  // ---------- a run that loses coherence ----------

  lemma {:induction false} RunsAppend(s: State, first: seq<Action>, second: seq<Action>)
    requires Runs(s, first) && Runs(After(s, first), second)
    ensures Runs(s, first + second) && After(s, first + second) == After(After(s, first), second)
    decreases |first|
  {
    if first == [] {
      assert first + second == second;
    } else {
      RunsAppend(Step(s, first[0]), first[1..], second);
      assert (first + second)[1..] == first[1..] + second;
    }
  }

  function RefreshActions(c: CallerId, response: Response, now: int): seq<Action> {
    [CallRefresh(c), Advance(c), Advance(c), Answer(c, response), Apply(c, now)]
  }

  lemma Prepend(s: State, a: Action, rest: seq<Action>)
    requires Enabled(s, a) && Runs(Step(s, a), rest)
    ensures Runs(s, [a] + rest) && After(s, [a] + rest) == After(Step(s, a), rest)
  {
    assert ([a] + rest)[1..] == rest;
  }

  /** A refresh on its own, from its call to its return. */
  lemma RefreshAlone(s: State, c: CallerId, response: Response, now: int)
    requires c !in s.calls && s.holder.None? && MayAnswer(s.server, s.cache.etag, response)
    ensures Runs(s, RefreshActions(c, response, now))
    ensures var t, (err, cache) := After(s, RefreshActions(c, response, now)), Refreshed(s.cache, response, now);
      && t.cache == cache && t.server == s.server && t.holder.None?
      && t.calls.Keys == s.calls.Keys + {c} && t.calls[c] == DoneRefresh(err)
  {
    var s1 := Step(s, CallRefresh(c));
    var s2 := Step(s1, Advance(c));
    var s3 := Step(s2, Advance(c));
    var s4 := Step(s3, Answer(c, response));
    var rest := [Apply(c, now)] + [];
    Prepend(s4, Apply(c, now), []);
    Prepend(s3, Answer(c, response), rest);
    Prepend(s2, Advance(c), [Answer(c, response)] + rest);
    Prepend(s1, Advance(c), [Advance(c)] + ([Answer(c, response)] + rest));
    Prepend(s, CallRefresh(c), [Advance(c)] + ([Advance(c)] + ([Answer(c, response)] + rest)));
    assert RefreshActions(c, response, now)
        == [CallRefresh(c)] + ([Advance(c)] + ([Advance(c)] + ([Answer(c, response)] + rest)));
  }

  /** The server changes its document, and a refresh on its own follows. */
  lemma DeployAndRefresh(s: State, doc: Document, tag: string, c: CallerId, response: Response, now: int)
    requires Enabled(s, Deploy(doc, tag)) && c !in s.calls && s.holder.None?
    requires MayAnswer(Step(s, Deploy(doc, tag)).server, s.cache.etag, response)
    ensures var actions := [Deploy(doc, tag)] + RefreshActions(c, response, now);
      && Runs(s, actions)
      && var t, (err, cache) := After(s, actions), Refreshed(s.cache, response, now);
         && t.cache == cache && t.server == Step(s, Deploy(doc, tag)).server && t.holder.None?
         && t.calls.Keys == s.calls.Keys + {c} && t.calls[c] == DoneRefresh(err)
  {
    RefreshAlone(Step(s, Deploy(doc, tag)), c, response, now);
    Prepend(s, Deploy(doc, tag), RefreshActions(c, response, now));
  }

  /** A tagged document, an untagged one with other keys, then the first again, each followed by a refresh. */
  function StaleTagRun(first: Document, second: Document, now: int): seq<Action> {
    RefreshActions(0, OK(Some(first), "v1"), now)
    + (([Deploy(second, "")] + RefreshActions(1, OK(Some(second), ""), now))
       + ([Deploy(first, "v1")] + RefreshActions(2, NotModified, now)))
  }

  /**
   A run that ends with a successful 304 confirming keys that are not the server's: whenever
   two documents parse to different keys and the second is served without a tag.
   */
  lemma StaleTagConfirmsOtherKeys(first: Document, second: Document, now: int)
    requires Parse(first).Ok? && Parse(second).Ok? && Parse(first) != Parse(second)
    ensures Runs(Init(first, "v1"), StaleTagRun(first, second, now))
    ensures var t := After(Init(first, "v1"), StaleTagRun(first, second, now));
      && 2 in t.calls && t.calls[2] == DoneRefresh(None) && t.server.doc == first
      && Ok(t.cache.keys) == Parse(second) && !Coherent(t)
  {
    var s0 := Init(first, "v1");
    RefreshAlone(s0, 0, OK(Some(first), "v1"), now);
    var s1 := After(s0, RefreshActions(0, OK(Some(first), "v1"), now));
    DeployAndRefresh(s1, second, "", 1, OK(Some(second), ""), now);
    var other := [Deploy(second, "")] + RefreshActions(1, OK(Some(second), ""), now);
    var s2 := After(s1, other);
    DeployAndRefresh(s2, first, "v1", 2, NotModified, now);
    var again := [Deploy(first, "v1")] + RefreshActions(2, NotModified, now);
    RunsAppend(s1, other, again);
    RunsAppend(s0, RefreshActions(0, OK(Some(first), "v1"), now), other + again);
  }
}
