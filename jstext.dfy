/** What the transmitter does to the typed text before encoding it:
    `String.prototype.trim` and iteration of a string character by
    character, both over UTF-16 code units. */
module JsText {
  import opened Codec

  /** The code units ECMAScript's `trim` removes: WhiteSpace (TAB, VT, FF,
      ZWNBSP and the Unicode space separators) and LineTerminator (LF, CR,
      LS, PS). All of them lie in the Basic Multilingual Plane. */
  predicate IsWhitespace(c: CharCode)
  {
    c == 0x09 || c == 0x0A || c == 0x0B || c == 0x0C || c == 0x0D ||
    c == 0x20 || c == 0xA0 || c == 0x1680 || (0x2000 <= c <= 0x200A) ||
    c == 0x2028 || c == 0x2029 || c == 0x202F || c == 0x205F ||
    c == 0x3000 || c == 0xFEFF
  }

  /** The text with its leading whitespace removed. */
  function TrimStart(s: seq<CharCode>): (r: seq<CharCode>)
    ensures |r| <= |s| && r == s[|s| - |r|..]
    ensures forall i :: 0 <= i < |s| - |r| ==> IsWhitespace(s[i])
    ensures r != [] ==> !IsWhitespace(r[0])
  {
    if s != [] && IsWhitespace(s[0]) then
      var r := TrimStart(s[1..]);
      assert s[1..][|s| - 1 - |r|..] == s[|s| - |r|..];
      assert forall i :: 1 <= i < |s| - |r| ==> s[i] == s[1..][i - 1];
      r
    else s
  }

  /** The text with its trailing whitespace removed. */
  function TrimEnd(s: seq<CharCode>): (r: seq<CharCode>)
    ensures |r| <= |s| && r == s[..|r|]
    ensures forall i :: |r| <= i < |s| ==> IsWhitespace(s[i])
    ensures r != [] ==> !IsWhitespace(r[|r| - 1])
  {
    if s != [] && IsWhitespace(s[|s| - 1]) then
      var r := TrimEnd(s[..|s| - 1]);
      assert s[..|s| - 1][..|r|] == s[..|r|];
      assert forall i :: |r| <= i < |s| - 1 ==> s[i] == s[..|s| - 1][i];
      r
    else s
  }

  /** `trim`: the text with whitespace removed from both ends. */
  function Trim(s: seq<CharCode>): seq<CharCode>
  {
    TrimEnd(TrimStart(s))
  }

  /** The trimmed text is the contiguous piece of the text starting at the
      returned offset; neither of its ends is whitespace, and everything cut
      off is whitespace. */
  lemma TrimIsInnerSlice(s: seq<CharCode>) returns (a: nat)
    ensures a + |Trim(s)| <= |s| && Trim(s) == s[a..a + |Trim(s)|]
    ensures forall i :: 0 <= i < a ==> IsWhitespace(s[i])
    ensures forall i :: a + |Trim(s)| <= i < |s| ==> IsWhitespace(s[i])
    ensures Trim(s) != [] ==> !IsWhitespace(Trim(s)[0]) && !IsWhitespace(Trim(s)[|Trim(s)| - 1])
  {
    var t := TrimStart(s);
    a := |s| - |t|;
    var r := TrimEnd(t);
    assert Trim(s) == r;
    assert t == s[a..] && r == t[..|r|];
    assert r == s[a..a + |r|];
    forall i | a + |r| <= i < |s| ensures IsWhitespace(s[i]) {
      assert s[i] == t[i - a];
    }
    if r != [] {
      assert r[0] == t[0];
    }
  }

  /** The text trims to nothing exactly when every code unit of it is
      whitespace (which includes the empty text). */
  lemma TrimEmptyIffBlank(s: seq<CharCode>)
    ensures Trim(s) == [] <==> forall i :: 0 <= i < |s| ==> IsWhitespace(s[i])
  {
    var t := TrimStart(s);
    if Trim(s) == [] {
      forall i | 0 <= i < |s| ensures IsWhitespace(s[i]) {
        if i >= |s| - |t| {
          assert s[i] == t[i - (|s| - |t|)];
        }
      }
    } else {
      var r := Trim(s);
      assert !IsWhitespace(r[0]);
      assert r[0] == s[|s| - |t|];
    }
  }

  predicate IsHighSurrogate(c: CharCode) { 0xD800 <= c <= 0xDBFF }

  predicate IsLowSurrogate(c: CharCode) { 0xDC00 <= c <= 0xDFFF }

  /** Whether a character of the iteration starts at index i and takes two
      code units: a high surrogate followed by a low one. */
  predicate PairAt(s: seq<CharCode>, i: nat)
    requires i < |s|
  {
    i + 1 < |s| && IsHighSurrogate(s[i]) && IsLowSurrogate(s[i + 1])
  }

  /** The code `charCodeAt(0)` gives for each character `for (char of s)`
      yields. The iteration is by code point, so a surrogate pair is one
      character, whose first code unit is its high surrogate; any other code
      unit, a lone surrogate included, is a character by itself. */
  function LeadUnits(s: seq<CharCode>): (r: seq<CharCode>)
    ensures |r| <= |s|
    ensures r == [] <==> s == []
    decreases |s|
  {
    if s == [] then []
    else if PairAt(s, 0) then [s[0]] + LeadUnits(s[2..])
    else [s[0]] + LeadUnits(s[1..])
  }

  /** Index of the character after the one starting at index i. */
  function NextCharIndex(s: seq<CharCode>, i: nat): (j: nat)
    requires i < |s|
    ensures i < j <= |s|
  {
    if PairAt(s, i) then i + 2 else i + 1
  }

  /** The iteration of the text from index i yields the character there,
      then the iteration from the next character. */
  lemma LeadUnitsFrom(s: seq<CharCode>, i: nat)
    requires i < |s|
    ensures LeadUnits(s[i..]) == [s[i]] + LeadUnits(s[NextCharIndex(s, i)..])
  {
    assert s[i..][1..] == s[i + 1..];
    if PairAt(s, i) {
      assert s[i..][2..] == s[i + 2..];
    }
  }

  /** One step of the iteration: if the characters before index i have
      yielded `done`, then after the character at i they have yielded `done`
      followed by its first code unit. */
  lemma LeadUnitsStep(s: seq<CharCode>, i: nat, done: seq<CharCode>)
    requires i < |s| && LeadUnits(s) == done + LeadUnits(s[i..])
    ensures LeadUnits(s) == (done + [s[i]]) + LeadUnits(s[NextCharIndex(s, i)..])
  {
    LeadUnitsFrom(s, i);
    assert done + ([s[i]] + LeadUnits(s[NextCharIndex(s, i)..])) ==
           (done + [s[i]]) + LeadUnits(s[NextCharIndex(s, i)..]);
  }

  /** A text in which no surrogate pair starts (lone surrogates allowed)
      has one character per code unit, so the iteration yields the text
      itself. */
  lemma {:induction false} LeadUnitsWithoutPairs(s: seq<CharCode>)
    requires forall i :: 0 <= i < |s| ==> !PairAt(s, i)
    ensures LeadUnits(s) == s
    decreases |s|
  {
    if s != [] {
      assert !PairAt(s, 0);
      forall i | 0 <= i < |s[1..]|
        ensures !PairAt(s[1..], i)
      {
        assert !PairAt(s, i + 1);
      }
      LeadUnitsWithoutPairs(s[1..]);
    }
  }

  /** A lone high surrogate is a character by itself: the iteration of
      [0xD800, 'A'] yields both code units. */
  lemma LeadUnitsOfLoneSurrogate()
    ensures LeadUnits([0xD800, 0x41]) == [0xD800, 0x41]
  {
    LeadUnitsWithoutPairs([0xD800, 0x41]);
  }
}
