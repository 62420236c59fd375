/**
 Reading and replacing the database name in a key=value connection string. The string is
 split around white space as strings.Fields does and put back together with single spaces.
 */
module Dsn {
  import opened Text

  predicate NoSpace(s: string) {
    forall i :: 0 <= i < |s| ==> !IsSpace(s[i])
  }

  /** What strings.Fields returns consists of such parts. */
  predicate IsField(s: string) {
    s != "" && NoSpace(s)
  }

  /** Nothing, or something that begins with white space. */
  predicate AtBreak(s: string) {
    s == "" || IsSpace(s[0])
  }

  /** The length of the longest prefix without white space. */
  function WordLength(s: string): (n: nat)
    ensures n <= |s| && NoSpace(s[..n]) && (n < |s| ==> IsSpace(s[n]))
    ensures s != "" && !IsSpace(s[0]) ==> n > 0
  {
    if s == "" || IsSpace(s[0]) then 0 else 1 + WordLength(s[1..])
  }

  /** strings.Fields: the maximal runs of characters that are not white space. */
  function Fields(s: string): (parts: seq<string>)
    ensures forall i :: 0 <= i < |parts| ==> IsField(parts[i])
    decreases |s|
  {
    if s == "" then []
    else if IsSpace(s[0]) then Fields(s[1..])
    else [s[..WordLength(s)]] + Fields(s[WordLength(s)..])
  }

  /** strings.Join with a single space. */
  function Join(parts: seq<string>): string {
    if parts == [] then "" else if |parts| == 1 then parts[0] else parts[0] + " " + Join(parts[1..])
  }

  const KEY: string := "dbname="

  predicate IsDbName(part: string) {
    |part| >= |KEY| && part[..|KEY|] == KEY
  }

  predicate HasDbName(dsn: string) {
    exists i :: 0 <= i < |Fields(dsn)| && IsDbName(Fields(dsn)[i])
  }

  /** extractDBName over the split parts: the value of the first dbname field, or empty. */
  function NameIn(parts: seq<string>): string {
    if parts == [] then ""
    else if IsDbName(parts[0]) then parts[0][|KEY|..]
    else NameIn(parts[1..])
  }

  function ExtractDbName(dsn: string): string {
    NameIn(Fields(dsn))
  }

  /** The split parts with every dbname field rewritten. */
  function Rewritten(parts: seq<string>, name: string): seq<string> {
    seq(|parts|, i requires 0 <= i < |parts| => if IsDbName(parts[i]) then KEY + name else parts[i])
  }

  function ReplaceDbName(dsn: string, name: string): string {
    Join(Rewritten(Fields(dsn), name))
  }

  /** replaceDBName as written: the parts are overwritten in place, then joined. */
  method Replace(dsn: string, name: string) returns (result: string)
    ensures result == ReplaceDbName(dsn, name)
  {
    var fields := Fields(dsn);
    var parts := new string[|fields|](i requires 0 <= i < |fields| => fields[i]);
    for i := 0 to parts.Length
      invariant forall j :: 0 <= j < i ==> parts[j] == Rewritten(fields, name)[j]
      invariant forall j :: i <= j < parts.Length ==> parts[j] == fields[j]
    {
      if IsDbName(parts[i]) {
        parts[i] := KEY + name;
      }
    }
    assert parts[..] == Rewritten(fields, name);
    result := Join(parts[..]);
  }

  /** extractDBName as written. */
  method Extract(dsn: string) returns (name: string)
    ensures name == ExtractDbName(dsn)
  {
    var parts := Fields(dsn);
    for i := 0 to |parts|
      invariant NameIn(parts) == NameIn(parts[i..])
    {
      if IsDbName(parts[i]) {
        return parts[i][|KEY|..];
      }
    }
    return "";
  }

  // ---------- splitting undoes joining ----------

  lemma {:induction false} WordLengthAppend(w: string, rest: string)
    requires NoSpace(w) && AtBreak(rest)
    ensures WordLength(w + rest) == |w|
  {
    if w != "" {
      assert (w + rest)[1..] == w[1..] + rest;
      WordLengthAppend(w[1..], rest);
    }
  }

  lemma FieldsOfWord(w: string, rest: string)
    requires IsField(w) && AtBreak(rest)
    ensures Fields(w + rest) == [w] + Fields(rest)
  {
    WordLengthAppend(w, rest);
    assert (w + rest)[..|w|] == w && (w + rest)[|w|..] == rest;
  }

  lemma FirstWord(word: string, rest: string, t: string)
    requires IsField(word) && AtBreak(rest) && AtBreak(t)
    ensures Fields((word + rest) + t) == [word] + Fields(rest + t)
  {
    assert rest == "" ==> rest + t == t;
    assert (word + rest) + t == word + (rest + t);
    FieldsOfWord(word, rest + t);
  }

  lemma SpaceFirst(a: string, t: string)
    requires a != "" && IsSpace(a[0])
    ensures Fields(a) == Fields(a[1..]) && Fields(a + t) == Fields(a[1..] + t)
  {
    assert (a + t)[1..] == a[1..] + t;
  }

  /** A string that begins a word, and the rest after that word. */
  lemma WordFirst(a: string) returns (word: string, rest: string)
    requires a != "" && !IsSpace(a[0])
    ensures a == word + rest && IsField(word) && AtBreak(rest)
  {
    word, rest := a[..WordLength(a)], a[WordLength(a)..];
  }

  /** Splitting works separately on either side of a place where white space begins. */
  lemma {:induction false} FieldsBeforeSpace(a: string, t: string)
    requires AtBreak(t)
    ensures Fields(a + t) == Fields(a) + Fields(t)
    decreases |a|
  {
    if a == "" {
      assert a + t == t;
    } else if IsSpace(a[0]) {
      SpaceFirst(a, t);
      FieldsBeforeSpace(a[1..], t);
    } else {
      var word, rest := WordFirst(a);
      FirstWord(word, rest, t);
      FieldsOfWord(word, rest);
      FieldsBeforeSpace(rest, t);
    }
  }

  lemma FieldsAfterSpace(word: string, s: string)
    requires IsField(word)
    ensures Fields(word + (" " + s)) == [word] + Fields(s)
  {
    FieldsOfWord(word, " " + s);
    SpaceFirst(" " + s, "");
    assert (" " + s)[1..] == s;
  }

  /** Splitting a joined list of fields returns exactly that list. */
  lemma {:induction false} FieldsOfJoin(parts: seq<string>)
    requires forall i :: 0 <= i < |parts| ==> IsField(parts[i])
    ensures Fields(Join(parts)) == parts
  {
    if |parts| == 1 {
      FieldsOfWord(parts[0], "");
      assert parts[0] + "" == parts[0];
    } else if |parts| > 1 {
      FieldsOfJoin(parts[1..]);
      FieldsAfterSpace(parts[0], Join(parts[1..]));
      assert Join(parts) == parts[0] + (" " + Join(parts[1..]));
      assert parts == [parts[0]] + parts[1..];
    }
  }

  // ---------- the laws ----------

  lemma RewrittenAreFields(dsn: string, name: string)
    requires NoSpace(name)
    ensures var parts := Rewritten(Fields(dsn), name); forall i :: 0 <= i < |parts| ==> IsField(parts[i])
  {
  }

  /** Re-splitting the replaced string returns the rewritten field list: other fields keep value and order. */
  lemma FieldsOfReplace(dsn: string, name: string)
    requires NoSpace(name)
    ensures Fields(ReplaceDbName(dsn, name)) == Rewritten(Fields(dsn), name)
  {
    RewrittenAreFields(dsn, name);
    FieldsOfJoin(Rewritten(Fields(dsn), name));
  }

  lemma {:induction false} NameInRewritten(parts: seq<string>, name: string)
    ensures NameIn(Rewritten(parts, name))
         == if exists i :: 0 <= i < |parts| && IsDbName(parts[i]) then name else ""
  {
    if parts != [] {
      assert Rewritten(parts, name)[1..] == Rewritten(parts[1..], name);
      NameInRewritten(parts[1..], name);
      assert parts[1..] != [] ==> forall i :: 0 <= i < |parts[1..]| ==> parts[1..][i] == parts[i + 1];
      if exists i :: 0 <= i < |parts| && IsDbName(parts[i]) {
        var i :| 0 <= i < |parts| && IsDbName(parts[i]);
        assert i > 0 ==> IsDbName(parts[1..][i - 1]);
      }
    }
  }

  /** The name found in a string never holds white space. */
  lemma {:induction false} NameInHasNoSpace(parts: seq<string>)
    requires forall i :: 0 <= i < |parts| ==> IsField(parts[i])
    ensures NoSpace(NameIn(parts))
  {
    if parts != [] {
      NameInHasNoSpace(parts[1..]);
    }
  }

  /** Extracting after replacing returns the new name exactly when there is a field to replace and the name is whole. */
  lemma ExtractAfterReplace(dsn: string, name: string)
    ensures ExtractDbName(ReplaceDbName(dsn, name)) == name <==> if HasDbName(dsn) then NoSpace(name) else name == ""
  {
    var parts := Fields(dsn);
    if NoSpace(name) {
      FieldsOfReplace(dsn, name);
      NameInRewritten(parts, name);
    } else if !HasDbName(dsn) {
      assert Rewritten(parts, name) == parts;
      FieldsOfJoin(parts);
      NameInRewritten(parts, name);
    }
    NameInHasNoSpace(Fields(ReplaceDbName(dsn, name)));
  }

  /** Replacing twice is replacing once with the second name. */
  lemma ReplaceTwice(dsn: string, first: string, second: string)
    requires NoSpace(first)
    ensures ReplaceDbName(ReplaceDbName(dsn, first), second) == ReplaceDbName(dsn, second)
  {
    FieldsOfReplace(dsn, first);
    assert forall i :: 0 <= i < |Fields(dsn)| && IsDbName(Fields(dsn)[i]) ==> IsDbName(Rewritten(Fields(dsn), first)[i]);
    assert Rewritten(Rewritten(Fields(dsn), first), second) == Rewritten(Fields(dsn), second);
  }

  /** Putting back the name that was read changes no field exactly when all dbname fields agree. */
  lemma ReplaceWithOwnName(dsn: string)
    ensures Fields(ReplaceDbName(dsn, ExtractDbName(dsn))) == Fields(dsn)
      <==> forall i :: 0 <= i < |Fields(dsn)| && IsDbName(Fields(dsn)[i]) ==> Fields(dsn)[i] == KEY + ExtractDbName(dsn)
  {
    var parts, name := Fields(dsn), ExtractDbName(dsn);
    NameInHasNoSpace(parts);
    FieldsOfReplace(dsn, name);
    if forall i :: 0 <= i < |parts| && IsDbName(parts[i]) ==> parts[i] == KEY + name {
      assert Rewritten(parts, name) == parts;
    } else {
      var i :| 0 <= i < |parts| && IsDbName(parts[i]) && parts[i] != KEY + name;
      assert Rewritten(parts, name)[i] != parts[i];
    }
  }

  // ---------- the fields themselves ----------

  /** A dbname field is the text dbname= followed by a name. */
  lemma DbNameField(part: string)
    ensures IsDbName(part) <==> exists name: string :: part == "dbname=" + name
  {
    if IsDbName(part) {
      assert part == "dbname=" + part[7..];
    }
    forall name: string | part == "dbname=" + name
      ensures IsDbName(part)
    {
      assert part[..7] == "dbname=";
    }
  }

  lemma {:induction false} NameInFirst(before: seq<string>, name: string, rest: seq<string>)
    requires forall i :: 0 <= i < |before| ==> !IsDbName(before[i])
    ensures NameIn(before + (["dbname=" + name] + rest)) == name
    decreases |before|
  {
    var parts := before + (["dbname=" + name] + rest);
    if before == [] {
      assert parts[0] == "dbname=" + name;
      assert ("dbname=" + name)[..7] == "dbname=" && ("dbname=" + name)[7..] == name;
    } else {
      assert parts[1..] == before[1..] + (["dbname=" + name] + rest);
      NameInFirst(before[1..], name, rest);
    }
  }

  /** The name read is that of the first dbname field, whatever fields follow; without one it is empty. */
  lemma FirstFieldWins(dsn: string, before: seq<string>, name: string, rest: seq<string>)
    requires forall i :: 0 <= i < |before| ==> !IsDbName(before[i])
    ensures Fields(dsn) == before + (["dbname=" + name] + rest) ==> ExtractDbName(dsn) == name
    ensures Fields(dsn) == before ==> ExtractDbName(dsn) == ""
  {
    NameInFirst(before, name, rest);
    NoName(before);
  }

  lemma {:induction false} NoName(parts: seq<string>)
    requires forall i :: 0 <= i < |parts| ==> !IsDbName(parts[i])
    ensures NameIn(parts) == ""
  {
    if parts != [] {
      NoName(parts[1..]);
    }
  }

  /** Replacing rewrites every dbname field, keeps every other field, and puts one space between two fields. */
  lemma {:induction false} JoinSpacing(a: seq<string>, b: seq<string>)
    requires a != [] && b != []
    ensures Join(a + b) == Join(a) + " " + Join(b)
    decreases |a|
  {
    assert (a + b)[0] == a[0];
    if |a| == 1 {
      assert (a + b)[1..] == b;
    } else {
      assert (a + b)[1..] == a[1..] + b;
      JoinSpacing(a[1..], b);
    }
  }

  /** The string that replaces a connection string, when its fields are known. */
  lemma ReplaceKnownFields(dsn: string, before: seq<string>, name: string, rest: seq<string>, other: string)
    requires before != [] && rest != [] && Fields(dsn) == before + ["dbname=" + name] + rest
    requires forall i :: 0 <= i < |before| ==> !IsDbName(before[i])
    requires forall i :: 0 <= i < |rest| ==> !IsDbName(rest[i])
    ensures ReplaceDbName(dsn, other) == Join(before) + " " + ("dbname=" + other) + " " + Join(rest)
  {
    DbNameField("dbname=" + name);
    assert Rewritten(Fields(dsn), other) == before + ["dbname=" + other] + rest;
    JoinSpacing(before + ["dbname=" + other], rest);
    JoinSpacing(before, ["dbname=" + other]);
  }
}
