/** The optional-value wrapper used by both backends (a JSON field that may be absent or null). */
module Wrappers {
  datatype Option<+T> = None | Some(value: T) {
    function GetOr(default: T): T
    {
      match this
      case Some(v) => v
      case None => default
    }
  }
}

/**
 * Two facts about concatenation, named so that the proofs about the
 * accumulated lists of both backends can state one regrouping step at a
 * time instead of asking the solver to find it among everything in scope.
 */
module Seqs {
  /** Regrouping a concatenation of three sequences. */
  lemma AppendAssoc<T>(a: seq<T>, b: seq<T>, c: seq<T>)
    ensures a + (b + c) == (a + b) + c
  {
  }

  /** Appending nothing. */
  lemma AppendEmpty<T>(a: seq<T>, b: seq<T>)
    requires b == []
    ensures a + b == a
  {
  }
}

/**
 * String helpers shared by both backends: the two whitespace classes the
 * trimming functions use (Go's unicode.IsSpace and ECMAScript's
 * String.prototype.trim), trimming, substring search, prefix removal and
 * decimal rendering of natural numbers.
 */
module Text {

  // ---------------------------------------------------------------- whitespace

  /** The Unicode White_Space characters that both Go and ECMAScript trim. */
  predicate IsSharedSpace(c: char)
  {
    || c == '\t' || c == '\n' || c == '\U{000B}' || c == '\U{000C}' || c == '\r'
    || c == ' ' || c == '\U{00A0}' || c == '\U{1680}'
    || ('\U{2000}' <= c <= '\U{200A}')
    || c == '\U{2028}' || c == '\U{2029}' || c == '\U{202F}' || c == '\U{205F}' || c == '\U{3000}'
  }

  /** Which language's notion of whitespace a trim uses. */
  datatype Charset = GoSpace | JsSpace

  /**
   * GoSpace: Go's unicode.IsSpace, used by strings.TrimSpace, is the shared
   * set plus NEL (U+0085). JsSpace: ECMAScript's WhiteSpace and
   * LineTerminator, used by String.prototype.trim, is the shared set plus
   * the byte order mark (U+FEFF).
   */
  predicate IsSpace(cs: Charset, c: char)
  {
    IsSharedSpace(c) || (if cs == GoSpace then c == '\U{0085}' else c == '\U{FEFF}')
  }

  // ---------------------------------------------------------------- trimming

  /** The index of the first character at or after i that is not whitespace in cs (|s| if none). */
  function SkipSpace(s: string, cs: Charset, i: nat): (j: nat)
    requires i <= |s|
    ensures i <= j <= |s|
    ensures forall k :: i <= k < j ==> IsSpace(cs, s[k])
    ensures j < |s| ==> !IsSpace(cs, s[j])
    decreases |s| - i
  {
    if i < |s| && IsSpace(cs, s[i]) then SkipSpace(s, cs, i + 1) else i
  }

  /** The end of s[lo..j] once its trailing whitespace in cs is dropped. */
  function SkipSpaceBack(s: string, cs: Charset, lo: nat, j: nat): (e: nat)
    requires lo <= j <= |s|
    ensures lo <= e <= j
    ensures forall k :: e <= k < j ==> IsSpace(cs, s[k])
    ensures lo < e ==> !IsSpace(cs, s[e - 1])
    decreases j
  {
    if lo < j && IsSpace(cs, s[j - 1]) then SkipSpaceBack(s, cs, lo, j - 1) else j
  }

  /**
   * Drops leading and trailing whitespace in cs: what remains is the slice
   * of s from its first to its last non-whitespace character.
   */
  function Trim(s: string, cs: Charset): (r: string)
    ensures |r| <= |s|
    ensures r != [] ==> !IsSpace(cs, r[0]) && !IsSpace(cs, r[|r| - 1])
  {
    var lo := SkipSpace(s, cs, 0);
    s[lo..SkipSpaceBack(s, cs, lo, |s|)]
  }

  /** A string is blank in cs when every character of it is whitespace in cs. */
  predicate IsBlank(s: string, cs: Charset)
  {
    forall k :: 0 <= k < |s| ==> IsSpace(cs, s[k])
  }

  /** Trimming leaves nothing exactly when the string is blank. */
  lemma TrimEmptyIffBlank(s: string, cs: Charset)
    ensures Trim(s, cs) == [] <==> IsBlank(s, cs)
  {
    var lo := SkipSpace(s, cs, 0);
    if lo < |s| {
      assert !IsSpace(cs, s[lo]);
    }
  }

  // ---------------------------------------------------------------- substrings

  /** w occurs in s starting at index i. */
  predicate OccursAt(s: string, w: string, i: nat)
  {
    i + |w| <= |s| && s[i..i + |w|] == w
  }

  /** The substring test of ECMAScript's String.prototype.includes. */
  predicate Contains(s: string, w: string)
  {
    exists i: nat :: i <= |s| && OccursAt(s, w, i)
  }

  /** Go's strings.TrimPrefix: removes p from the front of s when s starts with it. */
  function TrimPrefix(s: string, p: string): (r: string)
    ensures |p| <= |s| && s[..|p|] == p ==> p + r == s
    ensures !(|p| <= |s| && s[..|p|] == p) ==> r == s
  {
    if |p| <= |s| && s[..|p|] == p then s[|p|..] else s
  }

  // ---------------------------------------------------------------- decimal numbers

  predicate IsDigit(c: char)
  {
    '0' <= c <= '9'
  }

  predicate AllDigits(s: string)
  {
    forall k :: 0 <= k < |s| ==> IsDigit(s[k])
  }

  predicate NoDigits(s: string)
  {
    forall k :: 0 <= k < |s| ==> !IsDigit(s[k])
  }

  function DigitChar(d: nat): (c: char)
    requires d < 10
    ensures IsDigit(c) && c as int - '0' as int == d
  {
    ('0' as int + d) as char
  }

  /** The decimal rendering of n, as fmt's %d and a JavaScript template literal print it. */
  function NatToString(n: nat): (s: string)
    ensures s != [] && AllDigits(s)
  {
    if n < 10 then [DigitChar(n)] else NatToString(n / 10) + [DigitChar(n % 10)]
  }

  /** The value of a string of decimal digits. */
  function DigitsValue(s: string): nat
    requires AllDigits(s)
  {
    if s == [] then 0 else 10 * DigitsValue(s[..|s| - 1]) + (s[|s| - 1] as int - '0' as int)
  }

  /** Reading the rendering back gives the number: the rendering loses nothing. */
  lemma {:induction false} NatToStringRoundTrip(n: nat)
    ensures DigitsValue(NatToString(n)) == n
  {
    var s := NatToString(n);
    if n >= 10 {
      NatToStringRoundTrip(n / 10);
      assert s[..|s| - 1] == NatToString(n / 10);
    }
  }

  /** Distinct numbers have distinct renderings. */
  lemma NatToStringInjective(m: nat, n: nat)
    requires NatToString(m) == NatToString(n)
    ensures m == n
  {
    NatToStringRoundTrip(m);
    NatToStringRoundTrip(n);
  }

  /** A three-digit number renders as exactly its three digits. */
  lemma ThreeDigits(n: nat)
    requires 100 <= n <= 999
    ensures NatToString(n) == [DigitChar(n / 100), DigitChar(n / 10 % 10), DigitChar(n % 10)]
  {
    assert NatToString(n / 10) == NatToString(n / 10 / 10) + [DigitChar(n / 10 % 10)];
    assert n / 10 / 10 == n / 100;
  }
}
