/** Small shared vocabulary: optional values, results, and 64-bit machine integers. */
module Common {

  datatype Option<+T> = None | Some(value: T)

  datatype Result<+T, +E> = Ok(value: T) | Err(error: E)

  type Byte = x: int | 0 <= x < 256

  /** Nanoseconds. */
  const SECOND: int := 1_000_000_000

  const MIN_INT64: int := -0x8000_0000_0000_0000
  const MAX_INT64: int := 0x7fff_ffff_ffff_ffff

  /** A signed 64-bit machine integer: Go's int64, and its int on 64-bit platforms. */
  newtype int64 = x: int | MIN_INT64 <= x <= MAX_INT64

  /** Two's complement wrap-around of a mathematical integer to 64 bits. */
  function Wrap64(x: int): (r: int64)
    ensures MIN_INT64 <= x <= MAX_INT64 ==> r as int == x
    ensures x == MAX_INT64 + 1 ==> r as int == MIN_INT64
  {
    ((x - MIN_INT64) % 0x1_0000_0000_0000_0000 + MIN_INT64) as int64
  }

  function Min(a: int, b: int): int {
    if a <= b then a else b
  }
}

/** White space and trimming as Go's unicode and strings packages define them. */
module Text {

  /** Unicode white space, as unicode.IsSpace decides it. */
  predicate IsSpace(c: char) {
    '\t' <= c <= '\r' || c == ' ' || c == '\U{0085}' || c == '\U{00A0}' || c == '\U{1680}'
    || '\U{2000}' <= c <= '\U{200A}' || c == '\U{2028}' || c == '\U{2029}' || c == '\U{202F}'
    || c == '\U{205F}' || c == '\U{3000}'
  }

  function TrimLeft(s: string): string {
    if s != "" && IsSpace(s[0]) then TrimLeft(s[1..]) else s
  }

  function TrimRight(s: string): string {
    if s != "" && IsSpace(s[|s| - 1]) then TrimRight(s[..|s| - 1]) else s
  }

  /** The white space characters, by code points. */
  lemma SpaceCharacters(c: char)
    ensures var n := c as int;
      IsSpace(c) <==> 9 <= n <= 13 || n == 32 || n == 133 || n == 160 || n == 5760 || 8192 <= n <= 8202
                      || n == 8232 || n == 8233 || n == 8239 || n == 8287 || n == 12288
  {
  }

  predicate Blank(s: string) {
    forall i :: 0 <= i < |s| ==> IsSpace(s[i])
  }

  /** No white space at either end. */
  predicate Trimmed(s: string) {
    s != "" ==> !IsSpace(s[0]) && !IsSpace(s[|s| - 1])
  }

  /** strings.TrimSpace */
  function TrimSpace(s: string): string {
    TrimRight(TrimLeft(s))
  }

  lemma {:induction false} TrimLeftOf(left: string, s: string)
    requires Blank(left) && (s == "" || !IsSpace(s[0]))
    ensures TrimLeft(left + s) == s
    decreases |left|
  {
    if left == "" {
      assert left + s == s;
    } else {
      assert (left + s)[1..] == left[1..] + s;
      TrimLeftOf(left[1..], s);
    }
  }

  lemma {:induction false} TrimRightOf(s: string, right: string)
    requires Blank(right) && (s == "" || !IsSpace(s[|s| - 1]))
    ensures TrimRight(s + right) == s
    decreases |right|
  {
    if right == "" {
      assert s + right == s;
    } else {
      var last := |right| - 1;
      assert (s + right)[|s + right| - 1] == right[last] && (s + right)[..|s + right| - 1] == s + right[..last];
      TrimRightOf(s, right[..last]);
    }
  }

  /** Trimming takes the white space around a text that has none at its ends, and nothing else. */
  lemma TrimOf(left: string, s: string, right: string)
    requires Blank(left) && Blank(right) && Trimmed(s)
    ensures TrimSpace(left + s + right) == s
  {
    if s == "" {
      assert left + s + right == (left + right) + "";
      TrimLeftOf(left + right, "");
    } else {
      assert left + s + right == left + (s + right);
      TrimLeftOf(left, s + right);
      TrimRightOf(s, right);
    }
  }

  lemma {:induction false} TrimLeftParts(s: string) returns (left: string)
    ensures s == left + TrimLeft(s) && Blank(left)
    ensures TrimLeft(s) == "" || !IsSpace(TrimLeft(s)[0])
  {
    if s != "" && IsSpace(s[0]) {
      var rest := TrimLeftParts(s[1..]);
      left := [s[0]] + rest;
      assert s == [s[0]] + s[1..];
    } else {
      left := "";
    }
  }

  lemma {:induction false} TrimRightParts(s: string) returns (right: string)
    ensures s == TrimRight(s) + right && Blank(right)
    ensures TrimRight(s) == "" || (!IsSpace(TrimRight(s)[|TrimRight(s)| - 1]) && TrimRight(s)[0] == s[0])
  {
    if s != "" && IsSpace(s[|s| - 1]) {
      var rest := TrimRightParts(s[..|s| - 1]);
      right := rest + [s[|s| - 1]];
      assert s == s[..|s| - 1] + [s[|s| - 1]];
    } else {
      right := "";
    }
  }

  /** Every text is such a text with white space around it. */
  lemma TrimParts(s: string) returns (left: string, right: string)
    ensures s == left + TrimSpace(s) + right && Blank(left) && Blank(right) && Trimmed(TrimSpace(s))
  {
    left := TrimLeftParts(s);
    right := TrimRightParts(TrimLeft(s));
  }
}
