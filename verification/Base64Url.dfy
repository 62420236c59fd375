/** Unpadded base64url, bit group by bit group (section 5 of RFC 4648), as Go's RawURLEncoding does it. */
module Base64Url {
  import opened Common

  type Sextet = x: int | 0 <= x < 64

  function EncodeChar(v: Sextet): char {
    if v < 26 then 'A' + v as char
    else if v < 52 then 'a' + (v - 26) as char
    else if v < 62 then '0' + (v - 52) as char
    else if v == 62 then '-' else '_'
  }

  function DecodeChar(c: char): Option<Sextet> {
    if 'A' <= c <= 'Z' then Some((c - 'A') as int)
    else if 'a' <= c <= 'z' then Some((c - 'a') as int + 26)
    else if '0' <= c <= '9' then Some((c - '0') as int + 52)
    else if c == '-' then Some(62)
    else if c == '_' then Some(63)
    else None
  }

  /** The four groups of six bits that three bytes consist of. */
  function Group1(x: Byte): Sextet {
    x / 4
  }

  function Group2(x: Byte, y: Byte): Sextet {
    x % 4 * 16 + y / 16
  }

  function Group3(y: Byte, z: Byte): Sextet {
    y % 16 * 4 + z / 64
  }

  function Group4(z: Byte): Sextet {
    z % 64
  }

  /** Three bytes become four groups of six bits; one or two left-over bytes become two or three groups. */
  function Encode(b: seq<Byte>): string {
    if |b| == 0 then ""
    else if |b| == 1 then [EncodeChar(Group1(b[0])), EncodeChar(Group2(b[0], 0))]
    else if |b| == 2 then [EncodeChar(Group1(b[0])), EncodeChar(Group2(b[0], b[1])), EncodeChar(Group3(b[1], 0))]
    else [EncodeChar(Group1(b[0])), EncodeChar(Group2(b[0], b[1])), EncodeChar(Group3(b[1], b[2])), EncodeChar(Group4(b[2]))]
         + Encode(b[3..])
  }

  /** The sextets of a text, or nothing if a character is outside the alphabet. */
  function Sextets(s: string): Option<seq<Sextet>> {
    if s == "" then Some([])
    else match (DecodeChar(s[0]), Sextets(s[1..]))
      case (Some(v), Some(rest)) => Some([v] + rest)
      case _ => None
  }

  /** The three bytes that four groups of six bits hold. */
  function First(a: int, b: int): Byte
    requires 0 <= a < 64 && 0 <= b < 64
  {
    a * 4 + b / 16
  }

  function Second(b: int, c: int): Byte
    requires 0 <= b < 64 && 0 <= c < 64
  {
    b % 16 * 16 + c / 4
  }

  function Third(c: int, d: int): Byte
    requires 0 <= c < 64 && 0 <= d < 64
  {
    c % 4 * 64 + d
  }

  /** Groups of six bits back to bytes; a single left-over group is an error, unused low bits are ignored. */
  function Bytes(v: seq<Sextet>): Option<seq<Byte>> {
    if |v| == 0 then Some([])
    else if |v| == 1 then None
    else if |v| == 2 then Some([First(v[0], v[1])])
    else if |v| == 3 then Some([First(v[0], v[1]), Second(v[1], v[2])])
    else match Bytes(v[4..])
      case Some(rest) => Some([First(v[0], v[1]), Second(v[1], v[2]), Third(v[2], v[3])] + rest)
      case None => None
  }

  /** The decoder skips line breaks wherever they stand. */
  function WithoutBreaks(s: string): string {
    if s == "" then "" else if s[0] == '\r' || s[0] == '\n' then WithoutBreaks(s[1..]) else [s[0]] + WithoutBreaks(s[1..])
  }

  function Decode(s: string): Option<seq<Byte>> {
    match Sextets(WithoutBreaks(s))
    case Some(v) => Bytes(v)
    case None => None
  }

  /** The URL and filename safe alphabet of section 5 of RFC 4648, by code points. */
  lemma Alphabet(v: Sextet)
    ensures EncodeChar(v) as int ==
      if v < 26 then 65 + v else if v < 52 then 97 + (v - 26) else if v < 62 then 48 + (v - 52) else if v == 62 then 45 else 95
  {
  }

  /** The groups of three bytes are the digits, in base 64, of the number whose digits in base 256 the bytes are. */
  lemma SameNumber(x: Byte, y: Byte, z: Byte)
    ensures (Group1(x) * 64 + Group2(x, y)) * 4096 + Group3(y, z) * 64 + Group4(z) == (x * 256 + y) * 256 + z
  {
  }

  /** The texts of section 10 of RFC 4648. */
  lemma TestVectors()
    ensures Encode([]) == "" && Encode([102]) == "Zg" && Encode([102, 111]) == "Zm8" && Encode([102, 111, 111]) == "Zm9v"
    ensures Encode([102, 111, 111, 98]) == "Zm9vYg" && Encode([251, 255]) == "-_8"
  {
    assert [102, 111, 111, 98][3..] == [98];
    assert [102, 111, 111][3..] == [];
  }

  lemma CharRoundTrip(v: Sextet)
    ensures DecodeChar(EncodeChar(v)) == Some(v)
  {
  }

  predicate InAlphabet(s: string) {
    forall i :: 0 <= i < |s| ==> DecodeChar(s[i]).Some?
  }

  lemma {:induction false} WithoutBreaksOfAlphabet(s: string)
    requires InAlphabet(s)
    ensures WithoutBreaks(s) == s
  {
    if s != "" {
      assert DecodeChar(s[0]).Some?;
      assert forall i :: 0 <= i < |s[1..]| ==> s[1..][i] == s[i + 1];
      WithoutBreaksOfAlphabet(s[1..]);
    }
  }

  /** The groups an encoding consists of. */
  function Groups(b: seq<Byte>): seq<Sextet> {
    if |b| == 0 then []
    else if |b| == 1 then [Group1(b[0]), Group2(b[0], 0)]
    else if |b| == 2 then [Group1(b[0]), Group2(b[0], b[1]), Group3(b[1], 0)]
    else [Group1(b[0]), Group2(b[0], b[1]), Group3(b[1], b[2]), Group4(b[2])] + Groups(b[3..])
  }

  function Text(v: seq<Sextet>): string {
    seq(|v|, i requires 0 <= i < |v| => EncodeChar(v[i]))
  }

  lemma {:induction false} EncodeIsText(b: seq<Byte>)
    ensures Encode(b) == Text(Groups(b))
  {
    if |b| >= 3 {
      EncodeIsText(b[3..]);
    }
  }

  lemma {:induction false} SextetsOfText(v: seq<Sextet>)
    ensures InAlphabet(Text(v)) && Sextets(Text(v)) == Some(v)
  {
    if v != [] {
      CharRoundTrip(v[0]);
      assert Text(v)[0] == EncodeChar(v[0]) && Text(v)[1..] == Text(v[1..]);
      SextetsOfText(v[1..]);
      assert [v[0]] + v[1..] == v;
      assert forall i :: 0 < i < |v| ==> Text(v)[i] == Text(v[1..])[i - 1];
    }
  }

  /** A quotient and a remainder put together come apart again. */
  lemma Split4(q: nat, r: nat)
    requires r < 4
    ensures (q * 4 + r) / 4 == q && (q * 4 + r) % 4 == r
  {
  }

  lemma Split16(q: nat, r: nat)
    requires r < 16
    ensures (q * 16 + r) / 16 == q && (q * 16 + r) % 16 == r
  {
  }

  lemma Split64(q: nat, r: nat)
    requires r < 64
    ensures (q * 64 + r) / 64 == q && (q * 64 + r) % 64 == r
  {
  }

  lemma FirstByte(x: Byte, y: Byte)
    ensures First(Group1(x), Group2(x, y)) == x
  {
    Split16(x % 4, y / 16);
  }

  lemma SecondByte(x: Byte, y: Byte, z: Byte)
    ensures Second(Group2(x, y), Group3(y, z)) == y
  {
    Split16(x % 4, y / 16);
    Split4(y % 16, z / 64);
  }

  lemma ThirdByte(y: Byte, z: Byte)
    ensures Third(Group3(y, z), Group4(z)) == z
  {
    Split4(y % 16, z / 64);
  }

  lemma GroupsOfThree(x: Byte, y: Byte, z: Byte, rest: seq<Byte>)
    ensures Groups([x, y, z] + rest) == [Group1(x), Group2(x, y), Group3(y, z), Group4(z)] + Groups(rest)
  {
    assert ([x, y, z] + rest)[3..] == rest;
  }

  lemma BytesOfFour(a: Sextet, b: Sextet, c: Sextet, d: Sextet, rest: seq<Sextet>)
    ensures Bytes([a, b, c, d] + rest).Some? <==> Bytes(rest).Some?
    ensures Bytes(rest).Some? ==>
      Bytes([a, b, c, d] + rest).value == [First(a, b), Second(b, c), Third(c, d)] + Bytes(rest).value
  {
    assert ([a, b, c, d] + rest)[4..] == rest;
  }

  lemma BytesOfTwoGroups(x: Byte)
    ensures Bytes(Groups([x])) == Some([x])
  {
    var v := [Group1(x), Group2(x, 0)];
    assert Groups([x]) == v && Bytes(v) == Some([First(v[0], v[1])]);
    FirstByte(x, 0);
  }

  lemma BytesOfThreeGroups(x: Byte, y: Byte)
    ensures Bytes(Groups([x, y])) == Some([x, y])
  {
    var v := [Group1(x), Group2(x, y), Group3(y, 0)];
    assert Groups([x, y]) == v && Bytes(v) == Some([First(v[0], v[1]), Second(v[1], v[2])]);
    FirstByte(x, y);
    SecondByte(x, y, 0);
  }

  lemma BytesStep(x: Byte, y: Byte, z: Byte, rest: seq<Byte>)
    requires Bytes(Groups(rest)) == Some(rest)
    ensures Bytes(Groups([x, y, z] + rest)) == Some([x, y, z] + rest)
  {
    GroupsOfThree(x, y, z, rest);
    BytesOfFour(Group1(x), Group2(x, y), Group3(y, z), Group4(z), Groups(rest));
    FirstByte(x, y);
    SecondByte(x, y, z);
    ThirdByte(y, z);
  }

  lemma {:induction false} BytesOfGroups(b: seq<Byte>)
    ensures Bytes(Groups(b)) == Some(b)
  {
    if |b| == 1 {
      BytesOfTwoGroups(b[0]);
      assert b == [b[0]];
    } else if |b| == 2 {
      BytesOfThreeGroups(b[0], b[1]);
      assert b == [b[0], b[1]];
    } else if |b| >= 3 {
      BytesOfGroups(b[3..]);
      BytesStep(b[0], b[1], b[2], b[3..]);
      assert b == [b[0], b[1], b[2]] + b[3..];
    }
  }

  lemma {:induction false} GroupsLength(b: seq<Byte>)
    ensures |Groups(b)| == (4 * |b| + 2) / 3
  {
    if |b| >= 3 {
      GroupsLength(b[3..]);
    }
  }

  /** Decoding an encoding gives the bytes back, and the encoding has the length of section 5 without padding. */
  lemma DecodeEncode(b: seq<Byte>)
    ensures Decode(Encode(b)) == Some(b)
    ensures |Encode(b)| == (4 * |b| + 2) / 3
  {
    EncodeIsText(b);
    SextetsOfText(Groups(b));
    WithoutBreaksOfAlphabet(Encode(b));
    BytesOfGroups(b);
    GroupsLength(b);
  }

  /** The bits the decoder ignores are zero. */
  predicate UnusedBitsZero(v: seq<Sextet>) {
    if |v| == 2 then v[1] % 16 == 0
    else if |v| == 3 then v[2] % 4 == 0
    else |v| < 2 || UnusedBitsZero(v[4..])
  }

  lemma FourGroups(a: Sextet, b: Sextet, c: Sextet, d: Sextet)
    ensures Group1(First(a, b)) == a && Group2(First(a, b), Second(b, c)) == b
    ensures Group3(Second(b, c), Third(c, d)) == c && Group4(Third(c, d)) == d
    ensures Group2(First(a, b), 0) == b - b % 16 && Group3(Second(b, c), 0) == c - c % 4
  {
    Split4(a, b / 16);
    Split16(b % 16, c / 4);
    Split64(c % 4, d);
  }

  lemma TwoGroups(a: Sextet, b: Sextet)
    ensures Groups([First(a, b)]) == [a, b] <==> b % 16 == 0
  {
    FourGroups(a, b, 0, 0);
    var groups := Groups([First(a, b)]);
    assert groups[0] == a && groups[1] == b - b % 16;
  }

  lemma ThreeGroups(a: Sextet, b: Sextet, c: Sextet)
    ensures Groups([First(a, b), Second(b, c)]) == [a, b, c] <==> c % 4 == 0
  {
    FourGroups(a, b, c, 0);
    var groups := Groups([First(a, b), Second(b, c)]);
    assert groups[0] == a && groups[1] == b && groups[2] == c - c % 4;
  }

  lemma GroupsStep(a: Sextet, b: Sextet, c: Sextet, d: Sextet, rest: seq<Sextet>)
    requires Bytes(rest).Some?
    ensures Bytes([a, b, c, d] + rest).Some?
    ensures Groups(Bytes([a, b, c, d] + rest).value) == [a, b, c, d] + Groups(Bytes(rest).value)
  {
    BytesOfFour(a, b, c, d, rest);
    GroupsOfThree(First(a, b), Second(b, c), Third(c, d), Bytes(rest).value);
    FourGroups(a, b, c, d);
  }

  lemma {:induction false} GroupsOfBytes(v: seq<Sextet>)
    requires Bytes(v).Some?
    ensures Groups(Bytes(v).value) == v <==> UnusedBitsZero(v)
  {
    if |v| == 2 {
      TwoGroups(v[0], v[1]);
      assert v == [v[0], v[1]];
    } else if |v| == 3 {
      ThreeGroups(v[0], v[1], v[2]);
      assert v == [v[0], v[1], v[2]];
    } else if |v| >= 4 {
      var head, rest := [v[0], v[1], v[2], v[3]], v[4..];
      assert v == head + rest;
      BytesOfFour(v[0], v[1], v[2], v[3], rest);
      GroupsStep(v[0], v[1], v[2], v[3], rest);
      GroupsOfBytes(rest);
      var groups := Groups(Bytes(rest).value);
      assert (head + groups)[4..] == groups && (head + rest)[4..] == rest;
    }
  }

  lemma {:induction false} TextOfSextets(s: string)
    requires Sextets(s).Some?
    ensures Text(Sextets(s).value) == s
  {
    if s != "" {
      var rest := Sextets(s[1..]).value;
      TextOfSextets(s[1..]);
      assert EncodeChar(DecodeChar(s[0]).value) == s[0];
      assert Text([DecodeChar(s[0]).value] + rest) == [s[0]] + Text(rest);
    }
  }

  /** A text that decodes is the encoding of what it decodes to exactly when it has no line break and no stray bits. */
  lemma EncodeDecode(s: string)
    requires Decode(s).Some?
    ensures Encode(Decode(s).value) == s <==> WithoutBreaks(s) == s && UnusedBitsZero(Sextets(WithoutBreaks(s)).value)
  {
    var v, b := Sextets(WithoutBreaks(s)).value, Decode(s).value;
    EncodeIsText(b);
    GroupsOfBytes(v);
    TextOfSextets(WithoutBreaks(s));
    SextetsOfText(Groups(b));
    if Encode(b) == s {
      WithoutBreaksOfAlphabet(s);
    }
  }
}
