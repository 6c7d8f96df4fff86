/**
 * Text helpers standing in for the Swift String and Foundation calls the app uses.
 *
 * A Swift `String` is modelled as its sequence of Unicode scalars. Swift's `count`
 * counts Characters (extended grapheme clusters) instead; `CharCount` approximates
 * the segmentation: a scalar continues the previous Character when it is a combining
 * mark, a variation selector, a zero-width joiner or an emoji skin-tone modifier, and
 * a line feed continues a preceding carriage return. Every other scalar starts a new
 * Character.
 */
module Text {
  import opened Wrappers

  predicate IsAsciiUpper(c: char) { 'A' <= c <= 'Z' }
  predicate IsAsciiLower(c: char) { 'a' <= c <= 'z' }
  predicate IsAsciiLetter(c: char) { IsAsciiUpper(c) || IsAsciiLower(c) }
  predicate IsDigit(c: char) { '0' <= c <= '9' }

  /** Foundation's `.whitespacesAndNewlines`: space separators, tab, and the line and paragraph breaks. */
  predicate IsWhitespaceOrNewline(c: char) {
    c == ' ' || c == '\t' || ('\n' <= c <= '\r') || c == '\U{85}' || c == '\U{A0}' || c == '\U{1680}'
    || ('\U{2000}' <= c <= '\U{200A}') || c == '\U{2028}' || c == '\U{2029}' || c == '\U{202F}'
    || c == '\U{205F}' || c == '\U{3000}'
  }

  /** `lowercased()` restricted to the ASCII letters; every other scalar is kept. */
  function LowerChar(c: char): (r: char)
    ensures IsAsciiUpper(c) ==> IsAsciiLower(r)
    ensures !IsAsciiUpper(c) ==> r == c
  {
    if IsAsciiUpper(c) then (c as int + 32) as char else c
  }

  function Lower(s: string): (r: string)
    ensures |r| == |s|
    ensures forall i | 0 <= i < |s| :: r[i] == LowerChar(s[i])
  {
    seq(|s|, i requires 0 <= i < |s| => LowerChar(s[i]))
  }

  // ---------------------------------------------------------------------------
  // Substring search (`String.contains(_:)`)

  /** `p` occurs in `s` starting at index `i`. */
  predicate Occurs(s: string, p: string, i: int) {
    0 <= i && i + |p| <= |s| && s[i..i + |p|] == p
  }

  predicate Contains(s: string, p: string) {
    exists i | 0 <= i <= |s| - |p| :: Occurs(s, p, i)
  }

  /** An occurrence inside a slice is an occurrence in the whole text. */
  lemma ContainsInSlice(s: string, lo: int, hi: int, p: string)
    requires 0 <= lo <= hi <= |s|
    requires Contains(s[lo..hi], p)
    ensures Contains(s, p)
  {
    var i :| 0 <= i <= hi - lo - |p| && Occurs(s[lo..hi], p, i);
    forall t | 0 <= t < |p| ensures s[lo + i..lo + i + |p|][t] == p[t] {
      assert s[lo..hi][i..i + |p|][t] == s[lo + i + t];
    }
    assert Occurs(s, p, lo + i);
  }

  /** Every scalar of a contained pattern is a scalar of the text. */
  lemma ContainedScalars(s: string, p: string)
    requires Contains(s, p)
    ensures forall j | 0 <= j < |p| :: p[j] in s
  {
    var i :| 0 <= i <= |s| - |p| && Occurs(s, p, i);
    forall j | 0 <= j < |p| ensures p[j] in s {
      assert s[i..i + |p|][j] == s[i + j];
    }
  }

  /** A pattern with a scalar the text lacks does not occur in it. */
  lemma MissingScalar(s: string, p: string, c: char)
    ensures c in p && c !in s ==> !Contains(s, p)
  {
    if Contains(s, p) {
      ContainedScalars(s, p);
    }
  }

  /** A pattern whose first scalar is absent from every index an occurrence could start at does not occur. */
  lemma MissingFirstScalar(s: string, p: string)
    requires |p| > 0 && |p| <= |s|
    ensures p[0] !in s[..|s| - |p| + 1] ==> !Contains(s, p)
  {
    if Contains(s, p) {
      var i :| 0 <= i <= |s| - |p| && Occurs(s, p, i);
      assert s[i..i + |p|][0] == s[..|s| - |p| + 1][i];
    }
  }

  /**
   * None of the patterns other than number `skip` occurs in `s` when each has a witness: a
   * scalar `miss[k]` of the pattern that `s` lacks.
   */
  lemma NoneContained(s: string, patterns: seq<string>, miss: seq<char>, skip: int)
    requires |miss| == |patterns|
    requires forall k | 0 <= k < |patterns| && k != skip :: miss[k] in patterns[k] && miss[k] !in s
    ensures forall k | 0 <= k < |patterns| && k != skip :: !Contains(s, patterns[k])
  {
    forall k | 0 <= k < |patterns| && k != skip ensures !Contains(s, patterns[k]) {
      MissingScalar(s, patterns[k], miss[k]);
    }
  }

  /** As `NoneContained`, for the patterns numbered `lo` to `lo + |miss| - 1` only. */
  lemma NoneContainedFrom(s: string, patterns: seq<string>, lo: nat, miss: seq<char>, skip: int)
    requires lo + |miss| <= |patterns|
    requires forall k | 0 <= k < |miss| && lo + k != skip :: miss[k] in patterns[lo + k] && miss[k] !in s
    ensures forall k | lo <= k < lo + |miss| && k != skip :: !Contains(s, patterns[k])
  {
    forall k | lo <= k < lo + |miss| && k != skip ensures !Contains(s, patterns[k]) {
      MissingScalar(s, patterns[k], miss[k - lo]);
    }
  }

  // ---------------------------------------------------------------------------
  // Trimming (`trimmingCharacters(in: .whitespacesAndNewlines)`)

  /** The index of the first scalar at or after `k` that is not a blank (`|s|` if there is none). */
  function SkipBlanks(s: string, k: nat): (i: nat)
    requires k <= |s|
    ensures k <= i <= |s|
    ensures forall t | k <= t < i :: IsWhitespaceOrNewline(s[t])
    ensures i < |s| ==> !IsWhitespaceOrNewline(s[i])
    decreases |s| - k
  {
    if k == |s| || !IsWhitespaceOrNewline(s[k]) then k else SkipBlanks(s, k + 1)
  }

  /** The end of `s[lo..hi]` once its trailing blanks are dropped. */
  function SkipBlanksBack(s: string, lo: nat, hi: nat): (j: nat)
    requires lo <= hi <= |s|
    ensures lo <= j <= hi
    ensures forall t | j <= t < hi :: IsWhitespaceOrNewline(s[t])
    ensures lo < j ==> !IsWhitespaceOrNewline(s[j - 1])
    decreases hi
  {
    if hi == lo || !IsWhitespaceOrNewline(s[hi - 1]) then hi else SkipBlanksBack(s, lo, hi - 1)
  }

  predicate AllBlank(s: string) {
    forall j | 0 <= j < |s| :: IsWhitespaceOrNewline(s[j])
  }

  /** `r` neither starts nor ends with a blank. */
  predicate Unpadded(r: string) {
    r != [] ==> !IsWhitespaceOrNewline(r[0]) && !IsWhitespaceOrNewline(r[|r| - 1])
  }

  /** `r` is `s[i..j]` with only blanks cut off on either side, and `r` neither starts nor ends with a blank. */
  predicate TrimmedAt(s: string, r: string, i: int, j: int) {
    0 <= i <= j <= |s| && r == s[i..j] && AllBlank(s[..i]) && AllBlank(s[j..]) && Unpadded(r)
  }

  function Trim(s: string): (r: string)
    ensures exists i, j | 0 <= i <= j <= |s| :: TrimmedAt(s, r, i, j)
    ensures r == [] <==> AllBlank(s)
  {
    var i := SkipBlanks(s, 0);
    var j := SkipBlanksBack(s, i, |s|);
    TrimBounds(s, i, j);
    s[i..j]
  }

  /** The blanks skipped from both ends delimit the trimmed text. */
  lemma TrimBounds(s: string, i: nat, j: nat)
    requires i == SkipBlanks(s, 0) && j == SkipBlanksBack(s, i, |s|)
    ensures TrimmedAt(s, s[i..j], i, j)
    ensures s[i..j] == [] <==> AllBlank(s)
  {
    BlankSlice(s, 0, i);
    BlankSlice(s, j, |s|);
    if i < j {
      EndsUnpadded(s, i, j);
    } else {
      assert s[i..j] == [];
      BlankSlice(s, i, j);
    }
  }

  /** A run of blank scalars makes a blank slice. */
  lemma BlankSlice(s: string, lo: nat, hi: nat)
    requires lo <= hi <= |s| && forall t | lo <= t < hi :: IsWhitespaceOrNewline(s[t])
    ensures AllBlank(s[lo..hi])
  {
    forall t | 0 <= t < hi - lo ensures IsWhitespaceOrNewline(s[lo..hi][t]) {
      assert s[lo..hi][t] == s[lo + t];
    }
  }

  lemma EndsUnpadded(s: string, i: nat, j: nat)
    requires i < j <= |s| && !IsWhitespaceOrNewline(s[i]) && !IsWhitespaceOrNewline(s[j - 1])
    ensures Unpadded(s[i..j])
  {
    assert s[i..j][0] == s[i];
    assert s[i..j][j - i - 1] == s[j - 1];
  }

  lemma TrimEmpty()
    ensures Trim([]) == []
  {
    assert AllBlank([]);
  }

  /** A text that neither starts nor ends with a blank is its own trimming. */
  lemma TrimUnpadded(s: string)
    requires s != [] && !IsWhitespaceOrNewline(s[0]) && !IsWhitespaceOrNewline(s[|s| - 1])
    ensures Trim(s) == s
  {
    assert SkipBlanks(s, 0) == 0;
    assert SkipBlanksBack(s, 0, |s|) == |s|;
    assert s[0..|s|] == s;
  }

  /** Trimming a trimmed text changes nothing. */
  lemma TrimIdempotent(s: string)
    ensures Trim(Trim(s)) == Trim(s)
  {
    var t := Trim(s);
    if t != [] {
      var i, j :| 0 <= i <= j <= |s| && TrimmedAt(s, t, i, j);
      TrimUnpadded(t);
    }
  }

  // ---------------------------------------------------------------------------
  // Characters (grapheme clusters)

  /** Scalars that continue the preceding Character. */
  predicate Extends(c: char) {
    ('\U{300}' <= c <= '\U{36F}') || ('\U{1AB0}' <= c <= '\U{1AFF}') || ('\U{20D0}' <= c <= '\U{20FF}')
    || ('\U{FE00}' <= c <= '\U{FE0F}') || c == '\U{200D}' || ('\U{1F3FB}' <= c <= '\U{1F3FF}')
  }

  /** Scalar `i` of `s` starts a new Character. */
  predicate StartsCharacter(s: string, i: nat)
    requires i < |s|
  {
    i == 0 || !(Extends(s[i]) || (s[i - 1] == '\r' && s[i] == '\n'))
  }

  /** The number of Characters that start among the first `k` scalars of `s`. */
  function Starts(s: string, k: nat): (n: nat)
    requires k <= |s|
    ensures n <= k
    ensures k > 0 ==> n > 0
  {
    if k == 0 then 0 else Starts(s, k - 1) + (if StartsCharacter(s, k - 1) then 1 else 0)
  }

  /** Swift's `String.count`. */
  function CharCount(s: string): nat {
    Starts(s, |s|)
  }

  /** A text without extending scalars and without line feeds has one Character per scalar. */
  lemma {:induction false} PlainStarts(s: string, k: nat)
    requires k <= |s|
    requires forall i | 0 <= i < |s| :: !Extends(s[i]) && s[i] != '\n'
    ensures Starts(s, k) == k
  {
    if k > 0 {
      PlainStarts(s, k - 1);
      assert StartsCharacter(s, k - 1);
    }
  }

  /** A text has at least one Character exactly when it has a scalar, and never more Characters than scalars. */
  lemma CharCountBounds(s: string)
    ensures CharCount(s) == 0 <==> s == []
    ensures CharCount(s) <= |s|
  {
  }

  lemma {:induction false} StartsMonotone(s: string, j: nat, k: nat)
    requires j <= k <= |s|
    ensures Starts(s, j) <= Starts(s, k)
    decreases k - j
  {
    if j < k {
      StartsMonotone(s, j, k - 1);
    }
  }

  /** Character starts inside a prefix are those of the whole text: a start depends only on the scalars before it. */
  lemma {:induction false} StartsOfPrefix(s: string, k: nat, j: nat)
    requires j <= k <= |s|
    ensures Starts(s[..k], j) == Starts(s, j)
  {
    if j > 0 {
      StartsOfPrefix(s, k, j - 1);
      assert StartsCharacter(s[..k], j - 1) == StartsCharacter(s, j - 1);
    }
  }

  /** The scalar index at which Character number `n` (counting from 0) starts, or `|s|` when `s` has at most `n`. */
  function CutFrom(s: string, n: nat, i: nat): (k: nat)
    requires i <= |s| && Starts(s, i) <= n
    ensures i <= k <= |s|
    ensures k < |s| ==> StartsCharacter(s, k) && Starts(s, k) == n
    ensures k == |s| ==> CharCount(s) <= n
    decreases |s| - i
  {
    if i == |s| then i
    else if StartsCharacter(s, i) && Starts(s, i) == n then i
    else CutFrom(s, n, i + 1)
  }

  /** Swift's `prefix(n)` on a String: the first `n` Characters, cut at a Character boundary. */
  function CharPrefix(s: string, n: nat): (r: string)
    ensures |r| <= |s| && r == s[..|r|]
    ensures CharCount(r) == if CharCount(s) <= n then CharCount(s) else n
    ensures CharCount(s) <= n ==> r == s
  {
    var k := CutFrom(s, n, 0);
    StartsOfPrefix(s, k, k);
    StartsMonotone(s, k, |s|);
    CutBeforeEnd(s, n, k);
    s[..k]
  }

  /** A cut before the end leaves at least one more Character after it. */
  lemma CutBeforeEnd(s: string, n: nat, k: nat)
    requires k < |s| ==> StartsCharacter(s, k) && Starts(s, k) == n
    requires k <= |s|
    ensures k < |s| ==> CharCount(s) > n
  {
    if k < |s| {
      StartsMonotone(s, k + 1, |s|);
    }
  }

  // ---------------------------------------------------------------------------
  // Decimal numbers (`Int(_:)` on a String, `String(format: "%d")`)

  predicate AllDigits(s: string) {
    forall i | 0 <= i < |s| :: IsDigit(s[i])
  }

  function DigitChar(d: nat): (c: char)
    requires d < 10
    ensures IsDigit(c)
  {
    ('0' as int + d) as char
  }

  function DigitValue(c: char): (d: nat)
    requires IsDigit(c)
    ensures d < 10
  {
    c as int - '0' as int
  }

  /** The decimal rendering of a natural number, without leading zeros. */
  function NatToString(n: nat): (r: string)
    ensures |r| >= 1 && AllDigits(r)
    ensures n >= 10 ==> |r| >= 2
    decreases n
  {
    if n < 10 then [DigitChar(n)] else NatToString(n / 10) + [DigitChar(n % 10)]
  }

  /** The value of a string of decimal digits. */
  function DigitsValue(s: string): nat
    requires AllDigits(s)
    decreases |s|
  {
    if s == [] then 0 else DigitsValue(s[..|s| - 1]) * 10 + DigitValue(s[|s| - 1])
  }

  lemma {:induction false} NatToStringRoundTrip(n: nat)
    ensures DigitsValue(NatToString(n)) == n
    decreases n
  {
    if n >= 10 {
      NatToStringRoundTrip(n / 10);
      var r := NatToString(n);
      assert r[..|r| - 1] == NatToString(n / 10);
    }
  }

  /** `String(i)` / `%d` for any integer. */
  function IntToString(i: int): (r: string)
    ensures |r| >= 1
  {
    if i < 0 then "-" + NatToString(-i) else NatToString(i)
  }

  /** The range of Swift's 64-bit `Int`. */
  const IntMin: int := -0x8000_0000_0000_0000
  const IntMax: int := 0x7FFF_FFFF_FFFF_FFFF

  /**
   * Swift's `Int(_ text: String)`: an optional `+` or `-` followed by at least one ASCII
   * digit and nothing else; a value outside the 64-bit range gives nil.
   */
  function ParseInt(s: string): (r: Option<int>)
    ensures r.Some? ==> IntMin <= r.value <= IntMax
    ensures s == [] ==> r.None?
  {
    var negative := |s| > 0 && s[0] == '-';
    var digits := if |s| > 0 && (s[0] == '+' || s[0] == '-') then s[1..] else s;
    if digits == [] || !AllDigits(digits) then None
    else
      var magnitude: int := DigitsValue(digits);
      var v := if negative then -magnitude else magnitude;
      if IntMin <= v <= IntMax then Some(v) else None
  }

  /** Rendering a 64-bit integer and parsing it back gives the integer. */
  lemma ParseIntRoundTrip(i: int)
    requires IntMin <= i <= IntMax
    ensures ParseInt(IntToString(i)) == Some(i)
  {
    var n: nat := if i < 0 then -i else i;
    var digits := NatToString(n);
    NatToStringRoundTrip(n);
    if i < 0 {
      ParseNegative(digits);
      assert IntToString(i) == "-" + digits;
    } else {
      ParseUnsigned(digits);
      assert IntToString(i) == digits;
    }
  }

  /** Digits alone parse to their value, when it fits. */
  lemma ParseUnsigned(digits: string)
    requires digits != [] && AllDigits(digits)
    ensures ParseInt(digits) == if DigitsValue(digits) <= IntMax then Some(DigitsValue(digits) as int) else None
  {
    assert IsDigit(digits[0]);
  }

  /** A minus sign followed by digits parses to the negated value, when it fits. */
  lemma ParseNegative(digits: string)
    requires digits != [] && AllDigits(digits)
    ensures ParseInt("-" + digits) ==
      if IntMin <= -(DigitsValue(digits) as int) then Some(-(DigitsValue(digits) as int)) else None
  {
    assert ("-" + digits)[1..] == digits;
  }

  // ---------------------------------------------------------------------------
  // Splitting (`components(separatedBy:)` with a one-scalar separator)

  /** The pieces of `s` between occurrences of `sep`; consecutive separators give empty pieces. */
  function Split(s: string, sep: char): (r: seq<string>)
    ensures |r| >= 1
    ensures forall i | 0 <= i < |r| :: sep !in r[i]
    decreases |s|
  {
    if s == [] then [[]]
    else if s[0] == sep then [[]] + Split(s[1..], sep)
    else
      var rest := Split(s[1..], sep);
      [[s[0]] + rest[0]] + rest[1..]
  }

  /** A text without the separator is a single piece. */
  lemma {:induction false} SplitWithoutSeparator(s: string, sep: char)
    requires sep !in s
    ensures Split(s, sep) == [s]
    decreases |s|
  {
    if s != [] {
      SplitWithoutSeparator(s[1..], sep);
      assert [s[0]] + s[1..] == s;
    }
  }

  /** The piece before the first separator comes first, followed by the pieces of the rest. */
  lemma {:induction false} SplitAtFirst(a: string, sep: char, b: string)
    requires sep !in a
    ensures Split(a + [sep] + b, sep) == [a] + Split(b, sep)
    decreases |a|
  {
    var s := a + [sep] + b;
    if a == [] {
      assert s[1..] == b;
    } else {
      assert s[1..] == a[1..] + [sep] + b;
      SplitAtFirst(a[1..], sep, b);
      assert [a[0]] + a[1..] == a;
    }
  }

  /** The pieces joined back with the separator between them. */
  function Join(parts: seq<string>, sep: char): string
    decreases |parts|
  {
    if |parts| == 0 then [] else if |parts| == 1 then parts[0] else parts[0] + [sep] + Join(parts[1..], sep)
  }

  lemma JoinConsHead(c: char, parts: seq<string>, sep: char)
    requires |parts| >= 1
    ensures Join([[c] + parts[0]] + parts[1..], sep) == [c] + Join(parts, sep)
  {
    var q := [[c] + parts[0]] + parts[1..];
    assert q[1..] == parts[1..];
  }

  /** Splitting loses nothing: joining the pieces gives back the text. */
  lemma {:induction false} SplitJoin(s: string, sep: char)
    ensures Join(Split(s, sep), sep) == s
    decreases |s|
  {
    if s != [] {
      SplitJoin(s[1..], sep);
      var rest := Split(s[1..], sep);
      if s[0] == sep {
        assert ([[]] + rest)[1..] == rest;
      } else {
        JoinConsHead(s[0], rest, sep);
      }
      assert s == [s[0]] + s[1..];
    }
  }
}
