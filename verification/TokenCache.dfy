/**
 The service token client: one token cached with its audience and expiry, in front of an
 authentication service, as served to one call after another; each call carries what the clock
 and the service would answer. TokenCallers shows that concurrent callers are served so.
 */
module TokenCache {
  import opened Common
  import opened Text

  /** Nanoseconds. */
  type Time = int

  const MARGIN: int := 30 * SECOND
  const FALLBACK: int := 240 * SECOND

  /** What a fetch would meet: a failure at any stage, or a decoded response of the service. */
  datatype Reply = Failed(code: int) | Response(accessToken: string, expiresIn: int64)

  datatype Error = Unavailable(code: int) | EmptyAccessToken

  /** One call: the audience asked for, the clock at the cache test, the reply to a fetch for an audience, the clock after it. */
  datatype Call = Call(audience: string, now: Time, reply: string -> Reply, after: Time)

  /** The cached triple; the empty token means nothing is cached. */
  datatype Cache = Cache(token: string, audience: string, expiresAt: Time)

  const EMPTY: Cache := Cache("", "", 0)

  /** The audience a call is about: the configured default stands in for a blank one. */
  function Resolve(audience: string, fallback: string): string {
    if TrimSpace(audience) == "" then fallback else TrimSpace(audience)
  }

  /** The recorded expiry; the product of seconds and nanoseconds wraps at 64 bits. */
  function Expiry(expiresIn: int64, after: Time): Time {
    if expiresIn <= 0 then after + FALLBACK else after + Wrap64(expiresIn as int * SECOND) as int
  }

  /** fetch: a non-empty access token and its expiry, or an error. */
  function Fetch(reply: Reply, after: Time): (r: Result<(string, Time), Error>)
    ensures r.Ok? <==> reply.Response? && reply.accessToken != ""
    ensures r.Ok? ==> r.value.0 == reply.accessToken
  {
    match reply
    case Failed(code) => Err(Unavailable(code))
    case Response(token, expiresIn) =>
      if token == "" then Err(EmptyAccessToken) else Ok((token, Expiry(expiresIn, after)))
  }

  /** What a call amounts to for the cache: the resolved audience, the clock, and what a fetch would return. */
  datatype Request = Request(audience: string, now: Time, fetched: Result<(string, Time), Error>)

  function RequestOf(call: Call, fallback: string): Request {
    var audience := Resolve(call.audience, fallback);
    Request(audience, call.now, Fetch(call.reply(audience), call.after))
  }

  predicate Hit(c: Cache, audience: string, now: Time) {
    c.token != "" && c.audience == audience && now < c.expiresAt - MARGIN
  }

  /** One call of Token: its result and the cache it leaves. */
  function Serve(c: Cache, r: Request): (Result<string, Error>, Cache) {
    if Hit(c, r.audience, r.now) then (Ok(c.token), c)
    else match r.fetched
      case Err(e) => (Err(e), c)
      case Ok((token, expiresAt)) => (Ok(token), Cache(token, r.audience, expiresAt))
  }

  /** The client object, with the fields the mutex guards. */
  class Client {
    const fallback: string
    var token: string
    var tokenAudience: string
    var expiresAt: Time

    constructor (audience: string)
      ensures fallback == TrimSpace(audience) && Contents() == EMPTY
    {
      fallback := TrimSpace(audience);
      token, tokenAudience, expiresAt := "", "", 0;
    }

    /** NewServiceTokenClient, as far as the audience goes: a blank one is refused. */
    static method New(audience: string) returns (client: Client?)
      ensures client == null <==> Blank(audience)
      ensures client != null ==> fresh(client) && client.fallback == TrimSpace(audience) != "" && client.Contents() == EMPTY
    {
      BlankExactly(audience);
      if TrimSpace(audience) == "" {
        return null;
      }
      client := new Client(audience);
    }

    function Contents(): Cache
      reads this
    {
      Cache(token, tokenAudience, expiresAt)
    }

    method Token(call: Call) returns (result: Result<string, Error>)
      modifies this
      ensures (result, Contents()) == Serve(old(Contents()), RequestOf(call, fallback))
    {
      var audience := TrimSpace(call.audience);
      if audience == "" {
        audience := fallback;
      }
      if token != "" && tokenAudience == audience && call.now < expiresAt - MARGIN {
        return Ok(token);
      }
      var fetched := Fetch(call.reply(audience), call.after);
      if fetched.Err? {
        return Err(fetched.error);
      }
      token := fetched.value.0;
      tokenAudience := audience;
      expiresAt := fetched.value.1;
      return Ok(fetched.value.0);
    }
  }

  // ---------- whole runs ----------

  /** The cache of a new client after the first k requests of a run. */
  function CacheAt(run: seq<Request>, k: nat): Cache
    requires k <= |run|
  {
    if k == 0 then EMPTY else Serve(CacheAt(run, k - 1), run[k - 1]).1
  }

  /** The result of request k of a run. */
  function ResultOf(run: seq<Request>, k: nat): Result<string, Error>
    requires k < |run|
  {
    Serve(CacheAt(run, k), run[k]).0
  }

  /** Request k of a run misses the cache and so reaches the service. */
  predicate Misses(run: seq<Request>, k: nat)
    requires k < |run|
  {
    !Hit(CacheAt(run, k), run[k].audience, run[k].now)
  }

  /** Request k of a run obtains a token from the service. */
  predicate Obtains(run: seq<Request>, k: nat)
    requires k < |run|
  {
    Misses(run, k) && run[k].fetched.Ok?
  }

  /** Request j is the last one before k that obtained a token. */
  ghost predicate LastObtained(run: seq<Request>, j: nat, k: nat)
    requires k <= |run|
  {
    j < k && Obtains(run, j) && forall i :: j < i < k ==> !Obtains(run, i)
  }

  /** The triple the service granted to request j. */
  function Grant(run: seq<Request>, j: nat): Cache
    requires j < |run| && run[j].fetched.Ok?
  {
    Cache(run[j].fetched.value.0, run[j].audience, run[j].fetched.value.1)
  }

  lemma CacheStep(run: seq<Request>, k: nat)
    requires 0 < k <= |run|
    ensures CacheAt(run, k) == if Obtains(run, k - 1) then Grant(run, k - 1) else CacheAt(run, k - 1)
  {
  }

  /** The cached triple is always, as a whole, the last one granted; before the first grant nothing is cached. */
  lemma {:induction false} CacheIsLastGrant(run: seq<Request>, k: nat) returns (last: Option<nat>)
    requires k <= |run|
    ensures last.Some? ==> LastObtained(run, last.value, k) && CacheAt(run, k) == Grant(run, last.value)
    ensures last.None? ==> CacheAt(run, k) == EMPTY && forall i :: 0 <= i < k ==> !Obtains(run, i)
    decreases k
  {
    if k == 0 {
      last := None;
    } else {
      CacheStep(run, k);
      var earlier := CacheIsLastGrant(run, k - 1);
      last := if Obtains(run, k - 1) then Some(k - 1) else earlier;
    }
  }

  /**
   Refinement of the uncached source: every token a run returns was granted by the service
   for the very audience asked for, to this request or to the last earlier one that obtained
   a token; and in the latter case more than 30 seconds remain before its recorded expiry.
   */
  lemma TokenComesFromService(run: seq<Request>, k: nat)
    requires k < |run| && ResultOf(run, k).Ok?
    ensures exists j: nat ::
      && j <= k && Obtains(run, j)
      && ResultOf(run, k).value == Grant(run, j).token
      && Grant(run, j).audience == run[k].audience
      && (j < k ==> LastObtained(run, j, k) && run[k].now + 30_000_000_000 < Grant(run, j).expiresAt)
  {
    var last := CacheIsLastGrant(run, k);
    if Misses(run, k) {
      assert Obtains(run, k);
    }
  }

  /** A request reaches the service exactly when the last grant is for another audience, empty, or within its margin. */
  lemma MissesExactlyWhenStale(run: seq<Request>, k: nat)
    requires k < |run|
    ensures Misses(run, k) <==>
      forall j: nat :: LastObtained(run, j, k) ==>
        Grant(run, j).token == "" || Grant(run, j).audience != run[k].audience
        || run[k].now + MARGIN >= Grant(run, j).expiresAt
  {
    var last := CacheIsLastGrant(run, k);
    forall i: nat, j: nat | LastObtained(run, i, k) && LastObtained(run, j, k)
      ensures i == j
    {
    }
  }

  /** A failed call returns the error of its fetch and leaves the cached triple alone. */
  lemma FailedFetchKeepsCache(c: Cache, r: Request)
    ensures Serve(c, r).0.Err? ==> Serve(c, r).1 == c && r.fetched == Err(Serve(c, r).0.error)
  {
  }

  /** Once a grant has come within its margin it is never returned again, if the clock does not go back. */
  lemma StaleGrantNeverReturns(run: seq<Request>, j: nat, i: nat, k: nat)
    requires forall a, b :: 0 <= a < b < |run| ==> run[a].now <= run[b].now
    requires j < i < k < |run|
    requires Obtains(run, j) && run[i].now + MARGIN >= Grant(run, j).expiresAt
    ensures LastObtained(run, j, k) ==> Misses(run, k)
  {
    MissesExactlyWhenStale(run, k);
    if LastObtained(run, j, k) {
      forall m: nat | LastObtained(run, m, k)
        ensures m == j
      {
      }
    }
  }

  // ---------- audiences ----------

  /** The audience of a call: what is left without outer white space, or the default if that is nothing. */
  lemma ResolveExactly(left: string, audience: string, right: string, fallback: string)
    requires Blank(left) && Blank(right) && Trimmed(audience)
    ensures Resolve(left + audience + right, fallback) == if audience == "" then fallback else audience
  {
    TrimOf(left, audience, right);
  }

  lemma ResolveWithoutSpace(audience: string, fallback: string)
    ensures Trimmed(audience) && audience != "" ==> Resolve(audience, fallback) == audience
    ensures Blank(audience) ==> Resolve(audience, fallback) == fallback
  {
    assert "" + audience + "" == audience && audience + "" + "" == audience;
    if Trimmed(audience) {
      ResolveExactly("", audience, "", fallback);
    }
    if Blank(audience) {
      ResolveExactly(audience, "", "", fallback);
    }
  }

  /** What calls of a client with that default amount to for its cache. */
  function RequestsOf(calls: seq<Call>, fallback: string): seq<Request> {
    seq(|calls|, i requires 0 <= i < |calls| => RequestOf(calls[i], fallback))
  }

  /** The grant is the service's reply to a fetch of that call for that audience. */
  predicate Grants(call: Call, audience: string, grant: Cache) {
    && grant.audience == audience && call.reply(audience).Response?
    && grant.token == call.reply(audience).accessToken != ""
  }

  /** The call whose fetch granted the token that call k of a run returns. */
  ghost predicate ServedBy(run: seq<Request>, k: nat, j: nat)
    requires k < |run|
  {
    if Misses(run, k) then j == k && Obtains(run, k) else LastObtained(run, j, k)
  }

  /**
   Over runs of calls: a returned token is what the service replied to a fetch for exactly the
   audience asked for, if that has no white space at its ends, and for the configured default if
   it is blank.
   */
  lemma TokenForAudience(calls: seq<Call>, fallback: string, k: nat)
    requires k < |calls| && ResultOf(RequestsOf(calls, fallback), k).Ok?
    ensures var run, asked := RequestsOf(calls, fallback), calls[k].audience;
      exists j: nat :: j <= k && ServedBy(run, k, j) && Obtains(run, j)
        && ResultOf(run, k).value == Grant(run, j).token
        && (asked != "" && Trimmed(asked) ==> Grants(calls[j], asked, Grant(run, j)))
        && (Blank(asked) ==> Grants(calls[j], fallback, Grant(run, j)))
  {
    var run := RequestsOf(calls, fallback);
    var last := CacheIsLastGrant(run, k);
    ResolveWithoutSpace(calls[k].audience, fallback);
    if Misses(run, k) {
      assert ServedBy(run, k, k) && Obtains(run, k);
    } else {
      assert ServedBy(run, k, last.value);
    }
  }

  lemma ResolveIgnoresSpace(asked: string, fallback: string, left: string, right: string)
    requires Blank(left) && Blank(right)
    ensures Resolve(left + asked + right, fallback) == Resolve(asked, fallback)
  {
    var l, r := TrimParts(asked);
    var core := TrimSpace(asked);
    assert left + asked + right == left + (l + core + r) + right == (left + l) + core + (r + right);
    ResolveExactly(left + l, core, r + right, fallback);
    ResolveExactly(l, core, r, fallback);
  }

  /** White space around the audience of a call changes nothing about the run. */
  lemma OuterSpaceIgnored(calls: seq<Call>, fallback: string, k: nat, left: string, right: string)
    requires k < |calls| && Blank(left) && Blank(right)
    ensures RequestsOf(calls[k := calls[k].(audience := left + calls[k].audience + right)], fallback) == RequestsOf(calls, fallback)
  {
    ResolveIgnoresSpace(calls[k].audience, fallback, left, right);
  }

  /** Calls for different audiences never share a grant. */
  lemma GrantsNotShared(calls: seq<Call>, fallback: string, i: nat, k: nat, j: nat)
    requires i < |calls| && k < |calls|
    requires ServedBy(RequestsOf(calls, fallback), i, j) && ServedBy(RequestsOf(calls, fallback), k, j)
    requires !Blank(calls[i].audience) && !Blank(calls[k].audience)
    ensures TrimSpace(calls[i].audience) == TrimSpace(calls[k].audience)
  {
    var run := RequestsOf(calls, fallback);
    ServedForAudience(run, i, j);
    ServedForAudience(run, k, j);
    BlankExactly(calls[i].audience);
    BlankExactly(calls[k].audience);
  }

  lemma ServedForAudience(run: seq<Request>, k: nat, j: nat)
    requires k < |run| && ServedBy(run, k, j)
    ensures j < |run| && Obtains(run, j) && Grant(run, j).audience == run[k].audience
  {
    var last := CacheIsLastGrant(run, k);
  }

  lemma BlankExactly(s: string)
    ensures TrimSpace(s) == "" <==> Blank(s)
  {
    var left, right := TrimParts(s);
    assert TrimSpace(s) == "" ==> s == left + right;
    if Blank(s) {
      TrimOf(s, "", "");
      assert s + "" + "" == s;
    }
  }

  // ---------- lifetimes ----------

  /** The largest lifetime in seconds whose nanoseconds fit 64 bits. */
  const LONGEST: int := MAX_INT64 / SECOND

  /** The recorded expiry is the announced one exactly for lifetimes that fit; just above, it lies in the past. */
  lemma ExpiryFitsUpToLongest(expiresIn: int64, after: Time)
    requires expiresIn > 0
    ensures Expiry(expiresIn, after) == after + expiresIn as int * SECOND <==> expiresIn as int <= LONGEST
    ensures expiresIn as int == LONGEST + 1 ==> Expiry(expiresIn, after) < after
  {
    var x := expiresIn as int * SECOND;
    assert x > MAX_INT64 ==> Wrap64(x) as int != x;
  }

  /** The lifetime a response stands for, in nanoseconds; none announced means four minutes. */
  function Lifetime(expiresIn: int64): int {
    if expiresIn <= 0 then 240_000_000_000 else expiresIn as int * 1_000_000_000
  }

  /** A new grant serves exactly the calls for its audience until 30 seconds before its lifetime ends. */
  lemma GrantServedUntilMargin(c: Cache, call: Call, next: Call, fallback: string)
    requires !Hit(c, Resolve(call.audience, fallback), call.now)
    requires var reply := call.reply(Resolve(call.audience, fallback));
      reply.Response? && reply.accessToken != "" && reply.expiresIn as int <= LONGEST
    ensures Hit(Serve(c, RequestOf(call, fallback)).1, Resolve(next.audience, fallback), next.now)
      <==> Resolve(next.audience, fallback) == Resolve(call.audience, fallback)
           && next.now < call.after + Lifetime(call.reply(Resolve(call.audience, fallback)).expiresIn) - 30_000_000_000
  {
    var reply := call.reply(Resolve(call.audience, fallback));
    if reply.expiresIn > 0 {
      ExpiryFitsUpToLongest(reply.expiresIn, call.after);
    }
  }
}
