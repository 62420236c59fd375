/** JWKS documents: building Ed25519 keys and reading a document into a key table (section 2 of RFC 8037). */
module Jwks {
  import opened Common
  import opened Base64Url

  type PublicKey = seq<Byte>
  type KeyTable = map<string, PublicKey>

  const KEY_SIZE: nat := 32

  datatype Key = Key(kty: string, crv: string, use: string, alg: string, kid: string, x: string)
  datatype Document = Document(keys: seq<Key>)
  datatype Entry = Entry(kid: string, publicKey: PublicKey)
  datatype ParseError = InvalidX(kid: string) | InvalidLength(kid: string) | NoUsableKeys

  /** Simple case folding of the characters that can fold to an ASCII letter. */
  function Fold(c: char): char {
    if 'A' <= c <= 'Z' then 'a' + (c - 'A')
    else if c == '\U{212A}' then 'k'
    else if c == '\U{017F}' then 's'
    else c
  }

  /** strings.EqualFold against an ASCII constant. */
  predicate EqualFold(s: string, ascii: string) {
    |s| == |ascii| && forall i :: 0 <= i < |s| ==> Fold(s[i]) == Fold(ascii[i])
  }

  /** The keys Parse does not skip. */
  predicate Usable(k: Key) {
    EqualFold(k.kty, "OKP") && EqualFold(k.crv, "Ed25519") && (k.alg == "" || EqualFold(k.alg, "EdDSA"))
    && k.kid != "" && k.x != ""
  }

  function KeyBytes(k: Key): Result<PublicKey, ParseError> {
    match Decode(k.x)
    case None => Err(InvalidX(k.kid))
    case Some(raw) => if |raw| != KEY_SIZE then Err(InvalidLength(k.kid)) else Ok(raw)
  }

  /** The table of the keys read so far, or the first error. */
  function Collect(keys: seq<Key>): Result<KeyTable, ParseError> {
    if keys == [] then Ok(map[])
    else match Collect(keys[..|keys| - 1])
      case Err(e) => Err(e)
      case Ok(table) =>
        var k := keys[|keys| - 1];
        if !Usable(k) then Ok(table)
        else match KeyBytes(k)
          case Err(e) => Err(e)
          case Ok(raw) => Ok(table[k.kid := raw])
  }

  function Parse(doc: Document): Result<KeyTable, ParseError> {
    match Collect(doc.keys)
    case Err(e) => Err(e)
    case Ok(table) => if table == map[] then Err(NoUsableKeys) else Ok(table)
  }

  /** Parse as written: the table is filled in a loop that stops at the first bad key. */
  method ParseDocument(doc: Document) returns (result: Result<KeyTable, ParseError>)
    ensures result == Parse(doc)
  {
    var out: KeyTable := map[];
    for i := 0 to |doc.keys|
      invariant Collect(doc.keys[..i]) == Ok(out)
    {
      var k := doc.keys[i];
      CollectStep(doc.keys, i);
      if !Usable(k) {
        continue;
      }
      var raw := Decode(k.x);
      if raw.None? {
        CollectStops(doc.keys, i + 1, |doc.keys|);
        return Err(InvalidX(k.kid));
      }
      if |raw.value| != KEY_SIZE {
        CollectStops(doc.keys, i + 1, |doc.keys|);
        return Err(InvalidLength(k.kid));
      }
      out := out[k.kid := raw.value];
    }
    assert doc.keys[..|doc.keys|] == doc.keys;
    if |out| == 0 {
      return Err(NoUsableKeys);
    }
    return Ok(out);
  }

  lemma CollectStep(keys: seq<Key>, i: nat)
    requires i < |keys| && Collect(keys[..i]).Ok?
    ensures Collect(keys[..i + 1])
         == if !Usable(keys[i]) then Collect(keys[..i])
            else match KeyBytes(keys[i])
              case Err(e) => Err(e)
              case Ok(raw) => Ok(Collect(keys[..i]).value[keys[i].kid := raw])
  {
    assert keys[..i + 1][..i] == keys[..i];
  }

  /** An error in a prefix is the error of the whole. */
  lemma {:induction false} CollectStops(keys: seq<Key>, i: nat, n: nat)
    requires i <= n <= |keys| && Collect(keys[..i]).Err?
    ensures Collect(keys[..n]) == Collect(keys[..i])
    ensures n == |keys| ==> Collect(keys) == Collect(keys[..i])
  {
    if i < n {
      CollectStops(keys, i, n - 1);
      assert keys[..n][..n - 1] == keys[..n - 1];
    }
    assert keys[..|keys|] == keys;
  }

  /** Key i is the last usable one with its kid among the first n. */
  predicate LastOfKid(keys: seq<Key>, i: nat, n: nat)
    requires n <= |keys|
  {
    i < n && Usable(keys[i]) && forall j :: i < j < n && Usable(keys[j]) ==> keys[j].kid != keys[i].kid
  }

  /** What a parsed prefix means: all its usable keys are good, and each kid is bound to its last key. */
  ghost predicate Meaning(keys: seq<Key>, n: nat, table: KeyTable)
    requires n <= |keys|
  {
    && (forall i :: 0 <= i < n && Usable(keys[i]) ==> KeyBytes(keys[i]).Ok? && keys[i].kid in table)
    && (forall i :: 0 <= i < n && LastOfKid(keys, i, n) ==> KeyBytes(keys[i]) == Ok(table[keys[i].kid]))
    && (forall kid :: kid in table ==> kid != "" && |table[kid]| == KEY_SIZE
                                       && exists i :: 0 <= i < n && Usable(keys[i]) && keys[i].kid == kid)
  }

  lemma {:induction false} CollectMeaning(keys: seq<Key>, n: nat)
    requires n <= |keys|
    ensures Collect(keys[..n]).Ok? <==> forall i :: 0 <= i < n && Usable(keys[i]) ==> KeyBytes(keys[i]).Ok?
    ensures Collect(keys[..n]).Ok? ==> Meaning(keys, n, Collect(keys[..n]).value)
  {
    if n > 0 {
      CollectMeaning(keys, n - 1);
      assert keys[..n][..n - 1] == keys[..n - 1];
      if Collect(keys[..n]).Ok? {
        var table := Collect(keys[..n - 1]).value;
        if Usable(keys[n - 1]) {
          UsableStep(keys, n, table);
        } else {
          SkippedStep(keys, n, table);
        }
      }
    }
  }

  lemma SkippedStep(keys: seq<Key>, n: nat, table: KeyTable)
    requires 0 < n <= |keys| && Meaning(keys, n - 1, table) && !Usable(keys[n - 1])
    ensures Meaning(keys, n, table)
  {
    forall i | 0 <= i < n && LastOfKid(keys, i, n)
      ensures KeyBytes(keys[i]) == Ok(table[keys[i].kid])
    {
      assert LastOfKid(keys, i, n - 1);
    }
    forall kid | kid in table
      ensures exists i :: 0 <= i < n && Usable(keys[i]) && keys[i].kid == kid
    {
      var i :| 0 <= i < n - 1 && Usable(keys[i]) && keys[i].kid == kid;
    }
  }

  lemma UsableStep(keys: seq<Key>, n: nat, table: KeyTable)
    requires 0 < n <= |keys| && Meaning(keys, n - 1, table)
    requires Usable(keys[n - 1]) && KeyBytes(keys[n - 1]).Ok?
    ensures Meaning(keys, n, table[keys[n - 1].kid := KeyBytes(keys[n - 1]).value])
  {
    var k := keys[n - 1];
    var after := table[k.kid := KeyBytes(k).value];
    forall i | 0 <= i < n && LastOfKid(keys, i, n)
      ensures KeyBytes(keys[i]) == Ok(after[keys[i].kid])
    {
      if i < n - 1 {
        assert LastOfKid(keys, i, n - 1) && keys[i].kid != k.kid;
      }
    }
    forall kid | kid in after
      ensures kid != "" && |after[kid]| == KEY_SIZE
      ensures exists i :: 0 <= i < n && Usable(keys[i]) && keys[i].kid == kid
    {
      if kid == k.kid {
        assert Usable(keys[n - 1]) && keys[n - 1].kid == kid;
      } else {
        var i :| 0 <= i < n - 1 && Usable(keys[i]) && keys[i].kid == kid;
      }
    }
  }

  /**
   Parse succeeds exactly when the document has a usable key and every usable key carries 32
   bytes; then each kid of a usable key is bound to the last such key, and nothing else is bound.
   */
  lemma ParseExactly(doc: Document)
    ensures Parse(doc).Ok? <==>
      && (exists i :: 0 <= i < |doc.keys| && Usable(doc.keys[i]))
      && forall i :: 0 <= i < |doc.keys| && Usable(doc.keys[i]) ==> KeyBytes(doc.keys[i]).Ok?
    ensures Parse(doc).Ok? ==> Parse(doc).value != map[] && Meaning(doc.keys, |doc.keys|, Parse(doc).value)
  {
    CollectMeaning(doc.keys, |doc.keys|);
    assert doc.keys[..|doc.keys|] == doc.keys;
    if Collect(doc.keys).Ok? {
      var table := Collect(doc.keys).value;
      if table != map[] {
        var kid :| kid in table;
      }
    }
  }

  // ---------- which keys count, and which error is returned ----------

  function Lower(c: char): char {
    if 'A' <= c <= 'Z' then 'a' + (c - 'A') else c
  }

  /** The text in ASCII lower case. */
  function LowerAll(s: string): string {
    seq(|s|, i requires 0 <= i < |s| => Lower(s[i]))
  }

  predicate IsAscii(s: string) {
    forall i :: 0 <= i < |s| ==> s[i] < '\U{0080}'
  }

  lemma FoldIsLower(s: string, ascii: string)
    requires IsAscii(s) && IsAscii(ascii)
    ensures EqualFold(s, ascii) <==> LowerAll(s) == LowerAll(ascii)
  {
    if LowerAll(s) == LowerAll(ascii) {
      assert |LowerAll(s)| == |LowerAll(ascii)|;
      forall i | 0 <= i < |s|
        ensures Fold(s[i]) == Fold(ascii[i])
      {
        assert LowerAll(s)[i] == LowerAll(ascii)[i];
      }
    }
  }

  /** Beyond ASCII only the Kelvin sign and the long s are the same as an ASCII character, under simple folding. */
  lemma FoldBeyondAscii(c: char, ascii: char)
    requires c >= '\U{0080}' > ascii
    ensures EqualFold([c], [ascii]) <==>
      (c == '\U{212A}' && (ascii == 'k' || ascii == 'K')) || (c == '\U{017F}' && (ascii == 's' || ascii == 'S'))
  {
    if Fold(c) == Fold(ascii) {
      assert forall i :: 0 <= i < 1 ==> Fold([c][i]) == Fold([ascii][i]);
    } else {
      assert Fold([c][0]) != Fold([ascii][0]);
    }
  }

  /** The keys that count: octet key pairs on Ed25519, for EdDSA or anything, with a kid and a public key. */
  lemma UsableExactly(k: Key)
    requires IsAscii(k.kty) && IsAscii(k.crv) && IsAscii(k.alg)
    ensures Usable(k) <==>
      && LowerAll(k.kty) == "okp" && LowerAll(k.crv) == "ed25519" && (k.alg == "" || LowerAll(k.alg) == "eddsa")
      && k.kid != "" && k.x != ""
  {
    FoldIsLower(k.kty, "OKP");
    FoldIsLower(k.crv, "Ed25519");
    FoldIsLower(k.alg, "EdDSA");
    assert LowerAll("OKP") == "okp" && LowerAll("Ed25519") == "ed25519" && LowerAll("EdDSA") == "eddsa";
  }

  /** A usable key is good exactly when its public key decodes to 32 bytes, which it then stands for. */
  lemma KeyBytesExactly(k: Key)
    ensures KeyBytes(k).Ok? <==> Decode(k.x).Some? && |Decode(k.x).value| == 32
    ensures KeyBytes(k).Ok? ==> KeyBytes(k).value == Decode(k.x).value
    ensures KeyBytes(k).Err? ==> KeyBytes(k).error == if Decode(k.x).None? then InvalidX(k.kid) else InvalidLength(k.kid)
  {
  }

  lemma {:induction false} CollectWithout(keys: seq<Key>, i: nat, n: nat)
    requires i < n <= |keys| && !Usable(keys[i])
    ensures Collect(keys[..i] + keys[i + 1..n]) == Collect(keys[..n])
    decreases n
  {
    var without := keys[..i] + keys[i + 1..n];
    assert keys[..n][..n - 1] == keys[..n - 1];
    if n == i + 1 {
      assert without == keys[..i];
    } else {
      CollectWithout(keys, i, n - 1);
      assert without[..|without| - 1] == keys[..i] + keys[i + 1..n - 1];
    }
  }

  /** A key of any other kind has no effect, good or bad. */
  lemma OtherKeysIgnored(keys: seq<Key>, i: nat)
    requires i < |keys| && !Usable(keys[i])
    ensures Parse(Document(keys[..i] + keys[i + 1..])) == Parse(Document(keys))
  {
    CollectWithout(keys, i, |keys|);
    assert keys[..|keys|] == keys && keys[i + 1..|keys|] == keys[i + 1..];
  }

  /** The error is that of the first usable key that is bad; without a usable key there is an error of its own. */
  lemma ParseFailsWith(keys: seq<Key>, i: nat)
    requires i < |keys| && Usable(keys[i]) && KeyBytes(keys[i]).Err?
    requires forall j :: 0 <= j < i && Usable(keys[j]) ==> KeyBytes(keys[j]).Ok?
    ensures Parse(Document(keys)) == Err(KeyBytes(keys[i]).error)
  {
    CollectMeaning(keys, i);
    CollectStep(keys, i);
    CollectStops(keys, i + 1, |keys|);
  }

  lemma {:induction false} NothingUsable(keys: seq<Key>)
    requires forall i :: 0 <= i < |keys| ==> !Usable(keys[i])
    ensures Collect(keys) == Ok(map[]) && Parse(Document(keys)) == Err(NoUsableKeys)
  {
    if keys != [] {
      NothingUsable(keys[..|keys| - 1]);
    }
  }

  // ---------- the round trip ----------

  /** Ed25519: the key entry for a public key. */
  function Ed25519(kid: string, publicKey: PublicKey): Key {
    Key("OKP", "Ed25519", "sig", "EdDSA", kid, Encode(publicKey))
  }

  function DocumentOf(entries: seq<Entry>): Document {
    Document(seq(|entries|, i requires 0 <= i < |entries| => Ed25519(entries[i].kid, entries[i].publicKey)))
  }

  /** The table in which a later entry replaces an earlier one. */
  function LastWins(entries: seq<Entry>): KeyTable {
    if entries == [] then map[]
    else LastWins(entries[..|entries| - 1])[entries[|entries| - 1].kid := entries[|entries| - 1].publicKey]
  }

  predicate GoodEntry(e: Entry) {
    e.kid != "" && |e.publicKey| == KEY_SIZE
  }

  lemma Ed25519IsUsable(e: Entry)
    requires GoodEntry(e)
    ensures var k := Ed25519(e.kid, e.publicKey);
      k.kty == "OKP" && k.crv == "Ed25519" && k.use == "sig" && k.alg == "EdDSA" && k.kid == e.kid && |k.x| == 43
    ensures Usable(Ed25519(e.kid, e.publicKey)) && KeyBytes(Ed25519(e.kid, e.publicKey)) == Ok(e.publicKey)
  {
    DecodeEncode(e.publicKey);
  }

  lemma {:induction false} CollectOfEntries(entries: seq<Entry>)
    requires forall i :: 0 <= i < |entries| ==> GoodEntry(entries[i])
    ensures Collect(DocumentOf(entries).keys) == Ok(LastWins(entries))
  {
    if entries != [] {
      var last := |entries| - 1;
      CollectOfEntries(entries[..last]);
      assert DocumentOf(entries).keys[..last] == DocumentOf(entries[..last]).keys;
      Ed25519IsUsable(entries[last]);
    }
  }

  /** Round trip: a non-empty list of named 32-byte keys, published and parsed, yields exactly its last-wins table. */
  lemma ParseOfEd25519(entries: seq<Entry>)
    requires entries != [] && forall i :: 0 <= i < |entries| ==> GoodEntry(entries[i])
    ensures Parse(DocumentOf(entries)) == Ok(LastWins(entries))
  {
    CollectOfEntries(entries);
    assert entries[|entries| - 1].kid in LastWins(entries);
  }
}
