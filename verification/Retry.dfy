/** Bounded redelivery of a failed message, counted in a header. */
module Retry {
  import opened Common

  newtype int32 = x: int | -0x8000_0000 <= x <= 0x7fff_ffff

  /** A floating-point header value whose integer part fits the machine integer. */
  type Float64 = r: real | MIN_INT64 as real <= r < MAX_INT64 as real + 1.0 witness 0.0

  /** The dynamic type and value of a header. */
  datatype Value =
    | IntValue(i: int64) | Int32Value(i32: int32) | Int64Value(i64: int64)
    | FloatValue(f: Float64) | StringValue(s: string) | OtherValue

  type Headers = map<string, Value>

  const HEADER: string := "x-retry-count"
  const MAX_UINT64: int := 0xffff_ffff_ffff_ffff

  datatype Action = Ack | Retry | DeadLetter

  datatype Decision = Decision(action: Action, attempt: int64, reason: string)

  // ---------- reading the count ----------

  predicate IsDigit(c: char) {
    '0' <= c <= '9'
  }

  /**
   strconv.ParseUint in base 10: nothing on a character that is not a digit; past 64 bits
   it stops at the largest value without looking at the rest.
   */
  function ParseDigits(s: string, acc: nat): Option<nat> {
    if s == "" then Some(acc)
    else if !IsDigit(s[0]) then None
    else var next := acc * 10 + (s[0] - '0') as int;
      if next > MAX_UINT64 then Some(MAX_UINT64) else ParseDigits(s[1..], next)
  }

  /** The value strconv.Atoi returns beside its error: 0 for bad syntax, the nearest bound when out of range. */
  function Atoi(s: string): int64 {
    var signed := s != "" && (s[0] == '-' || s[0] == '+');
    var digits := if signed then s[1..] else s;
    match if digits == "" then None else ParseDigits(digits, 0)
    case None => 0
    case Some(n) =>
      if signed && s[0] == '-' then (if n > MAX_INT64 + 1 then MIN_INT64 else -n) as int64
      else Min(n, MAX_INT64) as int64
  }

  /** Conversion of a floating-point number to an integer truncates toward zero. */
  function Truncate(r: Float64): int64 {
    var x: real := r;
    if x >= 0.0 then x.Floor as int64 else (-((-x).Floor)) as int64
  }

  function Attempt(headers: Headers): int64 {
    if HEADER in headers then
      match headers[HEADER]
      case IntValue(i) => i
      case Int32Value(j) => j as int64
      case Int64Value(i) => i
      case FloatValue(f) => Truncate(f)
      case StringValue(s) => Atoi(s)
      case OtherValue => 0
    else 0
  }

  /** The count a table carries, for every type of header value; no header and any other type count as 0. */
  lemma CountOfEachType(headers: Headers, i: int64, j: int32, f: Float64, s: string)
    ensures "x-retry-count" !in headers ==> Attempt(headers) == 0
    ensures Attempt(headers["x-retry-count" := IntValue(i)]) == i
    ensures Attempt(headers["x-retry-count" := Int32Value(j)]) as int == j as int
    ensures Attempt(headers["x-retry-count" := Int64Value(i)]) == i
    ensures Attempt(headers["x-retry-count" := StringValue(s)]) == Atoi(s)
    ensures Attempt(headers["x-retry-count" := OtherValue]) == 0
    ensures var n := Attempt(headers["x-retry-count" := FloatValue(f)]) as real;
      if f >= 0.0 then 0.0 <= n <= f < n + 1.0 else n - 1.0 < f <= n <= 0.0
  {
    TruncateTowardZero(f);
  }

  lemma TruncateTowardZero(f: Float64)
    ensures var n := Truncate(f) as real; if f >= 0.0 then 0.0 <= n <= f < n + 1.0 else n - 1.0 < f <= n <= 0.0
  {
  }

  /** The number a text of digits stands for, read after the number acc. */
  function ValueFrom(digits: string, acc: nat): nat
    requires forall i :: 0 <= i < |digits| ==> IsDigit(digits[i])
  {
    if digits == "" then acc
    else (assert IsDigit(digits[0]); ValueFrom(digits[1..], acc * 10 + (digits[0] - '0') as int))
  }

  lemma {:induction false} ValueGrows(digits: string, acc: nat)
    requires forall i :: 0 <= i < |digits| ==> IsDigit(digits[i])
    ensures acc <= ValueFrom(digits, acc)
    decreases |digits|
  {
    if digits != "" {
      ValueGrows(digits[1..], acc * 10 + (digits[0] - '0') as int);
    }
  }

  lemma {:induction false} ParseOfDigits(digits: string, acc: nat)
    requires forall i :: 0 <= i < |digits| ==> IsDigit(digits[i])
    requires acc <= MAX_UINT64
    ensures ParseDigits(digits, acc) == Some(Min(ValueFrom(digits, acc), MAX_UINT64))
    decreases |digits|
  {
    if digits != "" {
      var next := acc * 10 + (digits[0] - '0') as int;
      ValueGrows(digits[1..], next);
      if next <= MAX_UINT64 {
        ParseOfDigits(digits[1..], next);
      }
    }
  }

  /** A text of digits, with or without a sign, is read as its number, clamped to the machine integer. */
  lemma AtoiOfDigits(digits: string)
    requires digits != "" && forall i :: 0 <= i < |digits| ==> IsDigit(digits[i])
    ensures var n := ValueFrom(digits, 0);
      && Atoi(digits) as int == Atoi("+" + digits) as int == Min(n, MAX_INT64)
      && Atoi("-" + digits) as int == (if n <= MAX_INT64 + 1 then -(n as int) else MIN_INT64)
  {
    ParseOfDigits(digits, 0);
    assert ("+" + digits)[1..] == digits && ("-" + digits)[1..] == digits;
  }

  lemma {:induction false} ParseOfBadText(text: string, i: nat, acc: nat)
    requires i < |text| && !IsDigit(text[i]) && acc <= MAX_UINT64
    requires forall j :: 0 <= j < i ==> IsDigit(text[j])
    requires ValueFrom(text[..i], acc) <= MAX_UINT64
    ensures ParseDigits(text, acc) == None
    decreases i
  {
    if i > 0 {
      assert text[..i][1..] == text[1..][..i - 1];
      ValueGrows(text[..i][1..], acc * 10 + (text[0] - '0') as int);
      ParseOfBadText(text[1..], i - 1, acc * 10 + (text[0] - '0') as int);
    }
  }

  /** A text with another character, before which the number fits 64 bits, counts as 0, and so does one without digits. */
  lemma AtoiOfBadText(text: string, i: nat)
    requires i < |text| && !IsDigit(text[i]) && (i == 0 ==> text[0] != '-' && text[0] != '+')
    requires forall j :: 0 <= j < i ==> IsDigit(text[j])
    requires ValueFrom(text[..i], 0) <= MAX_UINT64
    ensures Atoi(text) == 0 && Atoi("-" + text) == 0 && Atoi("+" + text) == 0
    ensures Atoi("") == 0 && Atoi("-") == 0 && Atoi("+") == 0
  {
    ParseOfBadText(text, i, 0);
    assert ("+" + text)[1..] == text && ("-" + text)[1..] == text;
    assert "-"[1..] == "" && "+"[1..] == "";
  }

  function Effective(maxAttempts: int64): int64 {
    if maxAttempts <= 0 then 8 else maxAttempts
  }

  function Decide(retriable: bool, headers: Headers, maxAttempts: int64): Decision {
    var limit := Effective(maxAttempts);
    var n := Attempt(headers);
    if !retriable then Decision(DeadLetter, n, "terminal")
    else if Wrap64(n as int + 1) > limit then Decision(DeadLetter, n, "retries_exhausted")
    else Decision(Retry, Wrap64(n as int + 1), "retriable")
  }

  /** Without a limit of its own, a message is retried up to a count of 8. */
  lemma LimitOfEight(headers: Headers, maxAttempts: int64)
    requires maxAttempts <= 0
    ensures Decide(true, headers, maxAttempts) == Decide(true, headers, 8)
    ensures Attempt(headers) as int < MAX_INT64 ==>
      (Decide(true, headers, maxAttempts).action == Retry <==> Attempt(headers) < 8)
  {
  }

  // ---------- writing the count ----------

  /** The headers with the count set and everything else kept. */
  function Stamped(headers: Headers, n: int64): Headers {
    headers[HEADER := IntValue(n)]
  }

  /** A header table, which callers share by reference. */
  class Table {
    var entries: Headers

    constructor ()
      ensures entries == map[]
    {
      entries := map[];
    }
  }

  function Entries(t: Table?): Headers
    reads t
  {
    if t == null then map[] else t.entries
  }

  /** WithAttempt as written: the entries are copied one by one into a new table; the given one is left alone. */
  method WithAttempt(headers: Table?, n: int64) returns (out: Table)
    ensures fresh(out)
    ensures out.entries == Stamped(Entries(headers), n)
  {
    out := new Table();
    var source := Entries(headers);
    var todo := source.Keys;
    while todo != {}
      invariant todo <= source.Keys
      invariant out.entries.Keys == source.Keys - todo
      invariant forall k :: k in out.entries ==> out.entries[k] == source[k]
      decreases todo
    {
      var k :| k in todo;
      out.entries := out.entries[k := source[k]];
      todo := todo - {k};
    }
    out.entries := out.entries[HEADER := IntValue(n)];
  }

  /** Reading back a stamped count gives that count, and no other header changes. */
  lemma AttemptOfStamped(headers: Headers, n: int64)
    ensures Attempt(Stamped(headers, n)) == n
    ensures "x-retry-count" in Stamped(headers, n) && Stamped(headers, n)["x-retry-count"] == IntValue(n)
    ensures Stamped(headers, n) - {HEADER} == headers - {HEADER}
  {
    assert forall k :: k != HEADER ==> (k in Stamped(headers, n) <==> k in headers);
  }

  /** Decimal notation of a number, as strconv.Itoa writes it. */
  function Decimal(n: nat): string {
    if n < 10 then [('0' as int + n) as char] else Decimal(n / 10) + [('0' as int + n % 10) as char]
  }

  lemma {:induction false} ParseDecimal(n: nat, rest: string)
    requires n <= MAX_UINT64
    ensures Decimal(n) != "" && IsDigit(Decimal(n)[0])
    ensures ParseDigits(Decimal(n) + rest, 0) == ParseDigits(rest, n)
    decreases n
  {
    if n < 10 {
      assert (Decimal(n) + rest)[1..] == rest;
    } else {
      var last := [('0' as int + n % 10) as char];
      ParseDecimal(n / 10, last + rest);
      assert Decimal(n) + rest == Decimal(n / 10) + (last + rest);
      assert (last + rest)[1..] == rest;
    }
  }

  /** A count carried as decimal text reads back as itself, with either sign. */
  lemma AtoiOfDecimal(n: int64)
    ensures Atoi(if n >= 0 then Decimal(n as int) else "-" + Decimal(-(n as int))) == n
  {
    var abs := if n >= 0 then n as int else -(n as int);
    ParseDecimal(abs, "");
    assert Decimal(abs) + "" == Decimal(abs);
    assert ("-" + Decimal(abs))[1..] == Decimal(abs);
  }

  // ---------- the chain of redeliveries ----------

  /** The headers of a message that has failed retriably and been republished k times. */
  function Redelivered(headers: Headers, maxAttempts: int64, k: nat): Headers {
    if k == 0 then headers
    else var h := Redelivered(headers, maxAttempts, k - 1); Stamped(h, Decide(true, h, maxAttempts).attempt)
  }

  /** How many times a message carrying count n is retried under the given limit, below the largest integer. */
  function Budget(n: int64, limit: int64): nat {
    if n as int == MAX_INT64 then 1 + limit as int - MIN_INT64   // the increment wraps to the smallest integer
    else if n < limit then limit as int - n as int
    else 0
  }

  /** The count after k retries: one more each time, past the largest integer from the smallest. */
  function CountAfter(n: int64, k: nat): int {
    if n as int == MAX_INT64 && k > 0 then MIN_INT64 + k - 1 else n as int + k
  }

  lemma OneDecision(headers: Headers, maxAttempts: int64, n: int64, k: nat)
    requires Effective(maxAttempts) as int < MAX_INT64
    requires k <= Budget(n, Effective(maxAttempts)) && Attempt(headers) as int == CountAfter(n, k)
    ensures k < Budget(n, Effective(maxAttempts)) ==>
      var d := Decide(true, headers, maxAttempts); d.action == Retry && d.attempt as int == CountAfter(n, k + 1)
    ensures k == Budget(n, Effective(maxAttempts)) ==>
      Decide(true, headers, maxAttempts) == Decision(DeadLetter, Attempt(headers), "retries_exhausted")
  {
  }

  /**
   Bounded redelivery: under a limit below the largest integer the message is retried exactly
   Budget times, the count rising by one each time, then dead-lettered; all other headers survive.
   */
  lemma {:induction false} RetriesThenDeadLetters(headers: Headers, maxAttempts: int64, k: nat)
    requires Effective(maxAttempts) as int < MAX_INT64
    requires k <= Budget(Attempt(headers), Effective(maxAttempts))
    ensures var h, budget := Redelivered(headers, maxAttempts, k), Budget(Attempt(headers), Effective(maxAttempts));
      && Attempt(h) as int == CountAfter(Attempt(headers), k)
      && h - {HEADER} == headers - {HEADER}
      && (k < budget ==> Decide(true, h, maxAttempts).action == Retry)
      && (k == budget ==> Decide(true, h, maxAttempts) == Decision(DeadLetter, Attempt(h), "retries_exhausted"))
    decreases k
  {
    if k > 0 {
      RetriesThenDeadLetters(headers, maxAttempts, k - 1);
      var h := Redelivered(headers, maxAttempts, k - 1);
      OneDecision(h, maxAttempts, Attempt(headers), k - 1);
      AttemptOfStamped(h, Decide(true, h, maxAttempts).attempt);
    }
    OneDecision(Redelivered(headers, maxAttempts, k), maxAttempts, Attempt(headers), k);
  }

  /** The usual case: from a count n0 below the largest integer, exactly limit - n0 retries. */
  lemma RetriedLimitMinusCount(headers: Headers, maxAttempts: int64)
    requires Attempt(headers) <= Effective(maxAttempts) && Effective(maxAttempts) as int < MAX_INT64
    ensures Budget(Attempt(headers), Effective(maxAttempts)) == Effective(maxAttempts) as int - Attempt(headers) as int
  {
  }

  /** With the largest integer as limit the comparison after the wrapping increment never succeeds. */
  lemma {:induction false} LargestLimitAlwaysRetries(headers: Headers, k: nat)
    ensures Decide(true, Redelivered(headers, MAX_INT64 as int64, k), MAX_INT64 as int64).action == Retry
  {
  }

  /** Redelivery of an ever-failing message ends if and only if the limit is below the largest integer. */
  lemma BoundedIffLimitBelowLargest(headers: Headers, maxAttempts: int64)
    ensures (exists k: nat :: Decide(true, Redelivered(headers, maxAttempts, k), maxAttempts).action == DeadLetter)
      <==> Effective(maxAttempts) as int < MAX_INT64
  {
    if Effective(maxAttempts) as int < MAX_INT64 {
      RetriesThenDeadLetters(headers, maxAttempts, Budget(Attempt(headers), Effective(maxAttempts)));
    } else {
      forall k: nat
        ensures Decide(true, Redelivered(headers, maxAttempts, k), maxAttempts).action == Retry
      {
        LargestLimitAlwaysRetries(headers, k);
      }
    }
  }

  /** Terminal failures go straight to the dead-letter queue with their count; no decision is ever Ack. */
  lemma NeverHotRequeues(retriable: bool, headers: Headers, maxAttempts: int64)
    ensures var d := Decide(retriable, headers, maxAttempts);
      && d.action != Ack
      && (!retriable ==> d == Decision(DeadLetter, Attempt(headers), "terminal"))
      && (d.action == Retry ==> retriable && d.attempt <= Effective(maxAttempts) && d.reason == "retriable")
  {
  }
}
