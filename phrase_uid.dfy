/** The numeric bind-phrase parser `generateUIDFromPhrase`: a phrase such as
    "1,2,3,4" names the UID bytes directly. */
module PhraseUid {
  import opened CTypes

  /** The six-byte receiver identifier. */
  type Uid = s: seq<Byte> | |s| == 6 witness [0, 0, 0, 0, 0, 0]

  // ---------------------------------------------------------------------
  // Tokens: what successive strtok(…, ",") calls return
  // ---------------------------------------------------------------------

  /** Length of the leading run of non-comma characters of `s`. */
  function RunLength(s: CString): (n: nat)
    ensures n <= |s|
    ensures forall i :: 0 <= i < n ==> s[i] != ','
    ensures n < |s| ==> s[n] == ','
  {
    if s == [] || s[0] == ',' then 0 else 1 + RunLength(s[1..])
  }

  /** The three facts RunLength ensures pin it down. */
  lemma {:induction false} RunLengthUnique(s: CString, m: nat)
    requires m <= |s|
    requires forall i :: 0 <= i < m ==> s[i] != ','
    requires m < |s| ==> s[m] == ','
    ensures RunLength(s) == m
    decreases m
  {
    if m > 0 {
      assert s[0] != ',';
      RunLengthUnique(s[1..], m - 1);
    }
  }

  /** The tokens `strtok(…, ",")` hands out one by one: the maximal runs of
      non-comma characters, in order. A comma is never part of a token and
      an empty field (two commas in a row, a leading or a trailing comma)
      yields no token at all. */
  function Fields(s: CString): seq<CString>
    decreases |s|
  {
    if s == [] then []
    else if s[0] == ',' then Fields(s[1..])
    else
      var n := RunLength(s);
      [s[..n]] + Fields(s[n..])
  }

  /** Splitting at every comma, keeping the empty fields: the plain
      comma-separated reading of a phrase, against which Fields is checked. */
  function Split(s: CString): (parts: seq<CString>)
    ensures |parts| >= 1
    decreases |s|
  {
    var n := RunLength(s);
    if n == |s| then [s] else [s[..n]] + Split(s[n + 1..])
  }

  /** The non-empty strings of `parts`, in order. */
  function NonEmpty(parts: seq<CString>): seq<CString>
  {
    if parts == [] then []
    else (if parts[0] == [] then [] else [parts[0]]) + NonEmpty(parts[1..])
  }

  /** strtok's tokens are exactly the non-empty comma-separated fields. */
  lemma {:induction false} FieldsAreNonEmptySplit(s: CString)
    ensures Fields(s) == NonEmpty(Split(s))
    decreases |s|
  {
    var n := RunLength(s);
    if s == [] {
      assert Split(s) == [[]];
      assert NonEmpty([[]]) == [] + NonEmpty([]);
    } else if n == |s| {
      assert s[n..] == [] && s[..n] == s;
      assert Fields(s) == [s];
      assert NonEmpty([s]) == [s] + NonEmpty([]);
    } else {
      var rest := Split(s[n + 1..]);
      assert Split(s) == [s[..n]] + rest;
      assert ([s[..n]] + rest)[1..] == rest;
      FieldsAreNonEmptySplit(s[n + 1..]);
      assert s[n..][1..] == s[n + 1..];
      if n == 0 {
        assert s[1..] == s[n + 1..];
        assert s[..n] == [];
        assert NonEmpty(Split(s)) == NonEmpty(rest);
      } else {
        assert Fields(s[n..]) == Fields(s[n + 1..]);
        assert NonEmpty(Split(s)) == [s[..n]] + NonEmpty(rest);
      }
    }
  }

  /** A comma between two strings separates their tokens. */
  lemma {:induction false} FieldsAppend(a: CString, b: CString)
    ensures Fields(a + [','] + b) == Fields(a) + Fields(b)
    decreases |a|
  {
    var s := a + [','] + b;
    if a == [] {
      assert s[1..] == b;
    } else if a[0] == ',' {
      assert s[1..] == a[1..] + [','] + b;
      FieldsAppend(a[1..], b);
    } else {
      var n := RunLength(a);
      RunLengthUnique(s, n);
      assert s[..n] == a[..n];
      assert s[n..] == a[n..] + [','] + b;
      FieldsAppend(a[n..], b);
    }
  }

  /** A non-empty string without commas is a single token. */
  lemma {:induction false} FieldsOfToken(f: CString)
    requires f != [] && ',' !in f
    ensures Fields(f) == [f]
  {
    RunLengthUnique(f, |f|);
    assert f[|f|..] == [];
    assert f[..|f|] == f;
  }

  // ---------------------------------------------------------------------
  // Validating one token
  // ---------------------------------------------------------------------

  predicate IsDigit(c: CChar)
  {
    '0' <= c <= '9'
  }

  predicate AllDigits(s: CString)
  {
    forall i :: 0 <= i < |s| ==> IsDigit(s[i])
  }

  function DigitValue(c: CChar): (d: nat)
    requires IsDigit(c)
    ensures d < 10
  {
    c as int - '0' as int
  }

  /** The value `atoi` gives a string of decimal digits (0 for the empty
      string); the integers are unbounded, so a long digit string simply has
      a large value. */
  function DecimalValue(ds: CString): nat
    requires AllDigits(ds)
  {
    if ds == [] then 0
    else 10 * DecimalValue(ds[..|ds| - 1]) + DigitValue(ds[|ds| - 1])
  }

  /** Number of leading ' ' characters; only the space character is skipped. */
  function LeadingSpaces(f: CString): (n: nat)
    ensures n <= |f|
    ensures forall i :: 0 <= i < n ==> f[i] == ' '
    ensures n < |f| ==> f[n] != ' '
  {
    if f == [] || f[0] != ' ' then 0 else 1 + LeadingSpaces(f[1..])
  }

  lemma {:induction false} LeadingSpacesUnique(f: CString, m: nat)
    requires m <= |f|
    requires forall i :: 0 <= i < m ==> f[i] == ' '
    requires m < |f| ==> f[m] != ' '
    ensures LeadingSpaces(f) == m
    decreases m
  {
    if m > 0 {
      assert f[0] == ' ';
      LeadingSpacesUnique(f[1..], m - 1);
    }
  }

  /** The byte one token contributes, or None when the token rejects the
      whole phrase: after the leading spaces every character must be a
      decimal digit and the value must lie in 0..255. */
  function FieldValue(f: CString): Option<Byte>
  {
    var ds := f[LeadingSpaces(f)..];
    if AllDigits(ds) && DecimalValue(ds) < 256 then Some(DecimalValue(ds) as Byte)
    else None
  }

  /** A token made only of spaces passes the digit check vacuously and
      stands for 0. */
  lemma {:induction false} SpacesFieldIsZero(f: CString)
    requires forall i :: 0 <= i < |f| ==> f[i] == ' '
    ensures FieldValue(f) == Some(0)
  {
    LeadingSpacesUnique(f, |f|);
    assert f[|f|..] == [];
  }

  /** Any character other than a space or a digit rejects the token. */
  lemma {:induction false} StrayCharRejects(f: CString, i: nat)
    requires i < |f| && f[i] != ' ' && !IsDigit(f[i])
    ensures FieldValue(f) == None
  {
    var n := LeadingSpaces(f);
    assert n <= i;
    assert f[n..][i - n] == f[i];
  }

  /** A space after a digit (a trailing or an inner space) rejects the token. */
  lemma {:induction false} SpaceAfterDigitRejects(f: CString, i: nat, j: nat)
    requires i < j < |f| && IsDigit(f[i]) && f[j] == ' '
    ensures FieldValue(f) == None
  {
    var n := LeadingSpaces(f);
    assert n <= i;
    assert f[n..][j - n] == f[j];
  }

  /** Leading spaces followed by decimal digits: accepted exactly when the
      value is below 256, and then the token stands for that value. */
  lemma {:induction false} SpacedDigitsField(k: nat, ds: CString)
    requires AllDigits(ds)
    ensures var f := seq(k, _ => ' ') + ds;
            FieldValue(f) == if DecimalValue(ds) < 256 then Some(DecimalValue(ds) as Byte) else None
  {
    var f := seq(k, _ => ' ') + ds;
    LeadingSpacesUnique(f, k);
    assert f[k..] == ds;
  }

  // ---------------------------------------------------------------------
  // The whole phrase
  // ---------------------------------------------------------------------

  /** The tokens the parser looks at: the loop stops after six accepted
      tokens, so later tokens are never read. */
  function Examined(phrase: CString): (fs: seq<CString>)
    ensures |fs| <= 6
  {
    var fs := Fields(phrase);
    if |fs| <= 6 then fs else fs[..6]
  }

  predicate AllAccepted(fs: seq<CString>)
  {
    forall i :: 0 <= i < |fs| ==> FieldValue(fs[i]).Some?
  }

  /** The bytes of accepted tokens, in input order. */
  function Values(fs: seq<CString>): (vs: seq<Byte>)
    requires AllAccepted(fs)
    ensures |vs| == |fs|
    ensures forall i :: 0 <= i < |fs| ==> FieldValue(fs[i]) == Some(vs[i])
  {
    seq(|fs|, i requires 0 <= i < |fs| => FieldValue(fs[i]).value)
  }

  /** What `generateUIDFromPhrase` computes: the UID when the phrase has 4
      to 6 examined tokens, all accepted, right-aligned and zero-padded on
      the left; None otherwise. */
  function ParseUid(phrase: CString): Option<Uid>
  {
    var fs := Examined(phrase);
    if AllAccepted(fs) && 4 <= |fs| then
      var u: Uid := Zeros(6 - |fs|) + Values(fs);
      Some(u)
    else None
  }

  /** Success exactly when at least four tokens exist and each of the first
      (at most six) is accepted; the UID then holds the zero padding
      followed by the token values in input order. */
  lemma {:induction false} ParseUidCharacterised(phrase: CString)
    ensures var fs := Fields(phrase);
            var c := if |fs| < 6 then |fs| else 6;
            && (ParseUid(phrase).Some? <==>
                 4 <= |fs| && forall i :: 0 <= i < c ==> FieldValue(fs[i]).Some?)
            && (ParseUid(phrase).Some? ==>
                 && (forall i :: 0 <= i < 6 - c ==> ParseUid(phrase).value[i] == 0)
                 && (forall i :: 0 <= i < c ==> FieldValue(fs[i]) == Some(ParseUid(phrase).value[6 - c + i])))
  {
    var fs := Fields(phrase);
    var c := if |fs| < 6 then |fs| else 6;
    assert Examined(phrase) == fs[..c];
  }

  /** One rejected token among the first six rejects the whole phrase. */
  lemma {:induction false} RejectedFieldRejectsPhrase(phrase: CString, i: nat)
    requires i < 6 && i < |Fields(phrase)|
    requires FieldValue(Fields(phrase)[i]) == None
    ensures ParseUid(phrase) == None
  {
    assert Examined(phrase)[i] == Fields(phrase)[i];
  }

  /** The tokens the parser has read and accepted decide its result. */
  lemma {:induction false} AcceptedPrefix(phrase: CString, count: nat, vs: seq<Byte>)
    requires count <= 6 && count <= |Fields(phrase)|
    requires count == 6 || count == |Fields(phrase)|
    requires |vs| == count
    requires forall k :: 0 <= k < count ==> FieldValue(Fields(phrase)[k]) == Some(vs[k])
    ensures ParseUid(phrase) == if 4 <= count then Some(Zeros(6 - count) + vs) else None
  {
    var fs := Fields(phrase);
    if |fs| <= 6 {
      assert fs[..count] == fs;
    }
    assert Examined(phrase) == fs[..count];
    if 4 <= count {
      assert Values(fs[..count]) == vs;
    }
  }

  /** Once six tokens have been read, whatever follows the next comma,
      even text that would be rejected, is never looked at. */
  lemma {:induction false} IgnoresTextAfterSixthToken(phrase: CString, rest: CString)
    requires |Fields(phrase)| == 6
    ensures ParseUid(phrase + [','] + rest) == ParseUid(phrase)
  {
    FieldsAppend(phrase, rest);
    assert Examined(phrase + [','] + rest) == Examined(phrase);
  }

  // ---------------------------------------------------------------------
  // Rendering bytes as a phrase: the inverse of ParseUid
  // ---------------------------------------------------------------------

  function Digit(d: nat): (c: CChar)
    requires d < 10
    ensures IsDigit(c) && DigitValue(c) == d
  {
    (48 + d) as char
  }

  /** The shortest decimal spelling of `v`. */
  function Decimal(v: nat): (s: CString)
    ensures s != [] && AllDigits(s)
  {
    if v < 10 then [Digit(v)] else Decimal(v / 10) + [Digit(v % 10)]
  }

  lemma {:induction false} DecimalValueOfDecimal(v: nat)
    ensures DecimalValue(Decimal(v)) == v
  {
    if v >= 10 {
      var s := Decimal(v);
      assert s[..|s| - 1] == Decimal(v / 10);
      DecimalValueOfDecimal(v / 10);
    }
  }

  /** The phrase "v0,v1,…" for a non-empty list of bytes. */
  function Render(vs: seq<Byte>): CString
    requires vs != []
  {
    if |vs| == 1 then Decimal(vs[0] as nat)
    else Decimal(vs[0] as nat) + [','] + Render(vs[1..])
  }

  lemma {:induction false} FieldsOfRender(vs: seq<Byte>)
    requires vs != []
    ensures |Fields(Render(vs))| == |vs|
    ensures forall i :: 0 <= i < |vs| ==> Fields(Render(vs))[i] == Decimal(vs[i] as nat)
  {
    var d := Decimal(vs[0] as nat);
    assert ',' !in d by {
      forall i | 0 <= i < |d| ensures d[i] != ',' { assert IsDigit(d[i]); }
    }
    FieldsOfToken(d);
    if |vs| > 1 {
      FieldsAppend(d, Render(vs[1..]));
      FieldsOfRender(vs[1..]);
    }
  }

  lemma {:induction false} DecimalFieldValue(v: Byte)
    ensures FieldValue(Decimal(v as nat)) == Some(v)
  {
    var d := Decimal(v as nat);
    DecimalValueOfDecimal(v as nat);
    LeadingSpacesUnique(d, 0);
    assert d[0..] == d;
  }

  /** Rendering four to six bytes and parsing the result gives them back,
      right-aligned in the UID. */
  lemma {:induction false} ParseRender(vs: seq<Byte>)
    requires 4 <= |vs| <= 6
    ensures ParseUid(Render(vs)) == Some(Zeros(6 - |vs|) + vs)
  {
    FieldsOfRender(vs);
    var fs := Fields(Render(vs));
    assert Examined(Render(vs)) == fs;
    forall i | 0 <= i < |vs| ensures FieldValue(fs[i]) == Some(vs[i]) {
      DecimalFieldValue(vs[i]);
    }
    assert Values(fs) == vs;
  }

  /** Every UID has a phrase that names it. */
  lemma {:induction false} EveryUidHasAPhrase(u: Uid)
    ensures ParseUid(Render(u)) == Some(u)
  {
    ParseRender(u);
    assert Zeros(0) + u == u;
  }

  // ---------------------------------------------------------------------
  // The C procedure
  // ---------------------------------------------------------------------

  lemma {:induction false} FieldsSkipComma(s: CString, i: nat)
    requires i < |s| && s[i] == ','
    ensures Fields(s[i..]) == Fields(s[i + 1..])
  {
    assert s[i..][1..] == s[i + 1..];
  }

  lemma {:induction false} FieldsAtToken(s: CString, i: nat, j: nat)
    requires i < j <= |s| && s[i] != ','
    requires forall k :: i <= k < j ==> s[k] != ','
    requires j < |s| ==> s[j] == ','
    ensures Fields(s[i..]) == [s[i..j]] + Fields(s[j..])
  {
    RunLengthUnique(s[i..], j - i);
    assert s[i..][..j - i] == s[i..j];
    assert s[i..][j - i..] == s[j..];
  }

  /** strtok's skip over leading delimiters: the first non-comma at or
      after `from`, or the end; the tokens from there are the same. */
  method SkipCommas(s: CString, from: nat) returns (i: nat)
    requires from <= |s|
    ensures from <= i <= |s| && (i < |s| ==> s[i] != ',')
    ensures Fields(s[from..]) == Fields(s[i..])
  {
    i := from;
    while i < |s| && s[i] == ','
      invariant from <= i <= |s|
      invariant Fields(s[from..]) == Fields(s[i..])
    {
      FieldsSkipComma(s, i);
      i := i + 1;
    }
  }

  /** strtok's scan to the end of a token that starts at `i`: the next
      comma or the end of the string. */
  method ScanToken(s: CString, i: nat) returns (j: nat)
    requires i < |s| && s[i] != ','
    ensures i < j <= |s| && (j < |s| ==> s[j] == ',')
    ensures forall k :: i <= k < j ==> s[k] != ','
  {
    j := i + 1;
    while j < |s| && s[j] != ','
      invariant i < j <= |s|
      invariant forall k :: i <= k < j ==> s[k] != ','
    {
      j := j + 1;
    }
  }

  /** One `strtok(…, ",")` call that resumes at `from`: skips commas and
      returns the token [start, end) and where the next call resumes. The
      token is a range of the phrase instead of a NUL-terminated piece of a
      mutated copy. */
  method Strtok(s: CString, from: nat) returns (found: bool, start: nat, end: nat, next: nat)
    requires from <= |s|
    ensures found <==> Fields(s[from..]) != []
    ensures found ==> from <= start < end <= next <= |s|
    ensures found ==> Fields(s[from..]) == [s[start..end]] + Fields(s[next..])
  {
    var i := SkipCommas(s, from);
    if i == |s| {
      assert s[i..] == [];
      return false, i, i, i;
    }
    var j := ScanToken(s, i);
    FieldsAtToken(s, i, j);
    if j < |s| {
      FieldsSkipComma(s, j);
      next := j + 1;
    } else {
      next := j;
    }
    return true, i, j, next;
  }

  /** `atoi` on a range holding only decimal digits. */
  method Atoi(s: CString, from: nat, to: nat) returns (value: int)
    requires from <= to <= |s| && AllDigits(s[from..to])
    ensures value == DecimalValue(s[from..to])
  {
    value := 0;
    var i := from;
    while i < to
      invariant from <= i <= to
      invariant AllDigits(s[from..i])
      invariant value == DecimalValue(s[from..i])
    {
      assert s[from..i + 1][..i - from] == s[from..i];
      assert s[from..i + 1][i - from] == s[from..to][i - from];
      value := 10 * value + DigitValue(s[i]);
      i := i + 1;
    }
  }

  /** The checks one token undergoes: skip leading spaces, require only
      digits after them, convert with `atoi` and require 0..255. */
  method CheckToken(phrase: CString, start: nat, end: nat) returns (isValid: bool, value: int)
    requires start <= end <= |phrase|
    ensures isValid <==> FieldValue(phrase[start..end]).Some?
    ensures isValid ==> 0 <= value < 256 && FieldValue(phrase[start..end]) == Some(value as Byte)
  {
    value := 0;
    ghost var f := phrase[start..end];
    // skip leading spaces
    var t := start;
    while t < end && phrase[t] == ' '
      invariant start <= t <= end
      invariant forall k :: start <= k < t ==> phrase[k] == ' '
    {
      t := t + 1;
    }
    LeadingSpacesUnique(f, t - start);
    assert f[t - start..] == phrase[t..end];
    // every remaining character must be a digit
    isValid := true;
    var i := t;
    while i < end
      invariant t <= i <= end
      invariant forall k :: t <= k < i ==> IsDigit(phrase[k])
    {
      if phrase[i] < '0' || phrase[i] > '9' {
        isValid := false;
        break;
      }
      i := i + 1;
    }
    if !isValid {
      assert phrase[t..end][i - t] == phrase[i];
      return;
    }
    value := Atoi(phrase, t, end);
    if !(value >= 0 && value < 256) {
      isValid := false;
    }
  }

  /** The UID cleared to zeros, then the first `count` bytes of `src`
      copied to its end: those bytes right-aligned behind zeros. */
  method PadLeft(uid: array<Byte>, src: array<Byte>, count: nat)
    requires uid.Length == 6 && count <= src.Length && count <= 6 && uid != src
    modifies uid
    ensures uid[..] == Zeros(6 - count) + old(src[..count])
  {
    forall k | 0 <= k < 6 {
      uid[k] := 0;
    }
    forall k | 0 <= k < count {
      uid[6 - count + k] := src[k];
    }
  }

  /** Splitting off the head of a suffix of a sequence. */
  lemma {:induction false} DropFirst<T>(xs: seq<T>, i: nat, x: T, rest: seq<T>)
    requires i <= |xs| && xs[i..] == [x] + rest
    ensures i < |xs| && xs[i] == x && xs[i + 1..] == rest
  {
    assert xs[i..][0] == x;
    assert xs[i + 1..] == xs[i..][1..];
  }

  /** The strtok loop of generateUIDFromPhrase: reads tokens until none is
      left or six have been accepted, and stops at the first rejected one,
      which is then token number `count`. */
  method CollectTokens(phrase: CString) returns (valid: bool, count: nat, tempUid: array<Byte>)
    ensures fresh(tempUid) && tempUid.Length == 6 && count <= 6
    ensures valid ==> count <= |Fields(phrase)| && (count == 6 || count == |Fields(phrase)|)
    ensures !valid ==> count < 6 && count < |Fields(phrase)| && FieldValue(Fields(phrase)[count]) == None
    ensures forall k :: 0 <= k < count ==> FieldValue(Fields(phrase)[k]) == Some(tempUid[k])
  {
    ghost var fs := Fields(phrase);
    assert phrase[0..] == phrase;
    var found: bool, start: nat, end: nat, next: nat := Strtok(phrase, 0);
    count := 0;
    tempUid := new Byte[6](_ => 0);
    while found && count < 6
      invariant count <= 6 && count <= |fs|
      invariant found ==> && count < |fs| && start < end <= next <= |phrase|
                          && fs[count..] == [phrase[start..end]] + Fields(phrase[next..])
      invariant !found ==> count == |fs|
      invariant forall k :: 0 <= k < count ==> FieldValue(fs[k]) == Some(tempUid[k])
      decreases |fs| - count
    {
      DropFirst(fs, count, phrase[start..end], Fields(phrase[next..]));
      var isValid, value := CheckToken(phrase, start, end);
      if !isValid {
        assert FieldValue(fs[count]) == None;
        return false, count, tempUid;
      }
      tempUid[count] := value as Byte;
      count := count + 1;
      found, start, end, next := Strtok(phrase, next);
    }
    valid := true;
  }

  /** generateUIDFromPhrase: on success writes the UID into `uid`; every
      false return leaves `uid` as it was. `copyFails` stands for `strdup`
      returning NULL. */
  method GenerateUidFromPhrase(phrase: CString, uid: array<Byte>, copyFails: bool) returns (ok: bool)
    requires uid.Length == 6
    modifies uid
    ensures ok <==> !copyFails && ParseUid(phrase).Some?
    ensures ok ==> uid[..] == ParseUid(phrase).value
    ensures !ok ==> uid[..] == old(uid[..])
  {
    if copyFails {
      return false;
    }
    var valid, count, tempUid := CollectTokens(phrase);
    if !valid {
      RejectedFieldRejectsPhrase(phrase, count);
      return false;
    }
    AcceptedPrefix(phrase, count, tempUid[..count]);
    if count < 4 || count > 6 {
      return false;
    }
    PadLeft(uid, tempUid, count);
    return true;
  }

  // ---------------------------------------------------------------------
  // Examples
  // ---------------------------------------------------------------------
  // Each example takes its phrase and its values as parameters pinned by
  // `requires`: written as literals inside the lemma, the parser's whole
  // definition would be unfolded on them at once, which is too costly.

  lemma {:induction false} DecimalOfDigit(v: Byte)
    requires v < 10
    ensures Decimal(v as nat) == [Digit(v as nat)]
  {
  }

  /** "1,2,3,4" names the UID 0, 0, 1, 2, 3, 4: four values, right-aligned. */
  lemma {:induction false} FourValues(phrase: CString, vs: seq<Byte>)
    requires phrase == "1,2,3,4" && vs == [1, 2, 3, 4]
    ensures ParseUid(phrase) == Some([0, 0, 1, 2, 3, 4])
  {
    DecimalOfDigit(1);
    DecimalOfDigit(2);
    DecimalOfDigit(3);
    DecimalOfDigit(4);
    assert Render(vs[3..]) == "4";
    assert Render(vs[2..]) == "3,4";
    assert Render(vs[1..]) == "2,3,4";
    assert Render(vs) == phrase;
    ParseRender(vs);
    assert Zeros(2) + vs == [0, 0, 1, 2, 3, 4];
  }

  lemma {:induction false} RenderOneToSix(vs: seq<Byte>)
    requires vs == [1, 2, 3, 4, 5, 6]
    ensures Render(vs) == "1,2,3,4,5,6"
  {
    DecimalOfDigit(1);
    DecimalOfDigit(2);
    DecimalOfDigit(3);
    DecimalOfDigit(4);
    DecimalOfDigit(5);
    DecimalOfDigit(6);
    assert Render(vs[5..]) == "6";
    assert Render(vs[4..]) == "5,6";
    assert Render(vs[3..]) == "4,5,6";
    assert Render(vs[2..]) == "3,4,5,6";
    assert Render(vs[1..]) == "2,3,4,5,6";
  }

  /** "1,2,3,4,5,6" names the UID 1, 2, 3, 4, 5, 6. */
  lemma {:induction false} SixValues(phrase: CString, vs: seq<Byte>)
    requires phrase == "1,2,3,4,5,6" && vs == [1, 2, 3, 4, 5, 6]
    ensures ParseUid(phrase) == Some([1, 2, 3, 4, 5, 6])
  {
    RenderOneToSix(vs);
    ParseRender(vs);
    assert Zeros(0) + vs == vs;
  }

  /** "1,2,3,4,5,6,7" is accepted too: the seventh value is never read. */
  lemma {:induction false} SeventhValueIgnored(phrase: CString, vs: seq<Byte>)
    requires phrase == "1,2,3,4,5,6,7" && vs == [1, 2, 3, 4, 5, 6]
    ensures ParseUid(phrase) == Some([1, 2, 3, 4, 5, 6])
  {
    var six := phrase[..11];
    var rest := phrase[12..];
    assert phrase == six + [','] + rest;
    assert six == "1,2,3,4,5,6";
    RenderOneToSix(vs);
    FieldsOfRender(vs);
    SixValues(six, vs);
    IgnoresTextAfterSixthToken(six, rest);
  }
}
