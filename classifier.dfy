/**
 * The chat service's input classifier: the validation chain and the spam check that
 * decide whether an input is answered at all.
 */
module Classifier {
  import opened Text
  import opened Seqs
  import ChatApi

  const MaxCharacterLimit: nat := 500
  const MinCharacterLimit: nat := 3
  const GibberishCharThreshold: nat := 3
  const GibberishLengthThreshold: nat := 5

  // ---------------------------------------------------------------------------
  // The alphanumeric ratio

  /**
   * `CharacterSet.alphanumerics`, restricted to the ASCII letters and digits, the letters
   * and digits of Latin-1 and Latin Extended, the combining marks, and the assigned Greek
   * and Cyrillic letters, numerals and marks (Greek punctuation and symbols are left out).
   */
  predicate IsAlphanumericScalar(c: char) {
    IsAsciiLetter(c) || IsDigit(c)
    || c == '\U{AA}' || c == '\U{B2}' || c == '\U{B3}' || c == '\U{B5}' || c == '\U{B9}' || c == '\U{BA}'
    || ('\U{BC}' <= c <= '\U{BE}') || ('\U{C0}' <= c <= '\U{D6}') || ('\U{D8}' <= c <= '\U{F6}')
    || ('\U{F8}' <= c <= '\U{2C1}') || ('\U{300}' <= c <= '\U{36F}') || IsGreekOrCyrillicAlphanumeric(c)
  }

  /** The alphanumerics of the Greek and Coptic, Cyrillic and Cyrillic Supplement blocks. */
  predicate IsGreekOrCyrillicAlphanumeric(c: char) {
    ('\U{370}' <= c <= '\U{374}') || ('\U{376}' <= c <= '\U{377}') || ('\U{37A}' <= c <= '\U{37D}')
    || c == '\U{37F}' || c == '\U{386}' || ('\U{388}' <= c <= '\U{38A}') || c == '\U{38C}'
    || ('\U{38E}' <= c <= '\U{3A1}') || ('\U{3A3}' <= c <= '\U{3F5}') || ('\U{3F7}' <= c <= '\U{481}')
    || ('\U{483}' <= c <= '\U{52F}')
  }

  /** `CharacterSet.whitespaces`: the space separators and the tab. */
  predicate IsHorizontalSpace(c: char) {
    c == ' ' || c == '\t' || c == '\U{A0}' || c == '\U{1680}' || ('\U{2000}' <= c <= '\U{200A}')
    || c == '\U{202F}' || c == '\U{205F}' || c == '\U{3000}'
  }

  predicate IsAllowedScalar(c: char) {
    IsAlphanumericScalar(c) || IsHorizontalSpace(c)
  }

  /** The number of allowed Unicode scalars (not Characters) of the text. */
  function AllowedCount(s: string): (n: nat)
    ensures n <= |s|
    ensures n == |s| <==> forall i | 0 <= i < |s| :: IsAllowedScalar(s[i])
    decreases |s|
  {
    if s == [] then 0
    else AllowedCount(s[..|s| - 1]) + (if IsAllowedScalar(s[|s| - 1]) then 1 else 0)
  }

  /** Allowed scalars of a concatenation add up. */
  lemma {:induction false} AllowedCountAppend(a: string, b: string)
    ensures AllowedCount(a + b) == AllowedCount(a) + AllowedCount(b)
    decreases |b|
  {
    if b == [] {
      assert a + b == a;
    } else {
      AllowedCountAppend(a, b[..|b| - 1]);
      assert (a + b)[..|a + b| - 1] == a + b[..|b| - 1];
    }
  }

  /**
   * `Double(allowed) / Double(text.count) >= 0.6`, as the exact cross-multiplication. An empty
   * text divides zero by zero, which is NaN and fails the comparison.
   */
  predicate IsMostlyAlphanumeric(s: string) {
    CharCount(s) > 0 && 5 * AllowedCount(s) >= 3 * CharCount(s)
  }

  // ---------------------------------------------------------------------------
  // The two regular expressions

  /** ICU's `\s`: tab, line feed, form feed, carriage return and the separators (categories Zs, Zl, Zp). */
  predicate IsRegexSpace(c: char) {
    c == '\t' || c == '\n' || c == '\U{C}' || c == '\r' || IsHorizontalSpace(c) || c == '\U{2028}' || c == '\U{2029}'
  }

  /** A match of `https?://\S+` starts at index `i`. */
  predicate LinkAt(s: string, i: int) {
    (Occurs(s, "http://", i) && i + 7 < |s| && !IsRegexSpace(s[i + 7]))
    || (Occurs(s, "https://", i) && i + 8 < |s| && !IsRegexSpace(s[i + 8]))
  }

  predicate ContainsLink(s: string) {
    exists i | 0 <= i < |s| :: LinkAt(s, i)
  }

  /** Five ASCII letters immediately followed by three ASCII digits start at index `i`. */
  predicate JunkAt(s: string, i: int) {
    0 <= i && i + 8 <= |s|
    && (forall t | i <= t < i + 5 :: IsAsciiLetter(s[t]))
    && (forall t | i + 5 <= t < i + 8 :: IsDigit(s[t]))
  }

  predicate ContainsJunkPattern(s: string) {
    exists i | 0 <= i <= |s| - 8 :: JunkAt(s, i)
  }

  /** A match of `[a-zA-Z]{5,}\d{3,}`: `a >= 5` letters from index `i`, then `b >= 3` digits. */
  predicate JunkRun(s: string, i: int, a: int, b: int) {
    5 <= a && 3 <= b && 0 <= i && i + a + b <= |s|
    && (forall t | i <= t < i + a :: IsAsciiLetter(s[t]))
    && (forall t | i + a <= t < i + a + b :: IsDigit(s[t]))
  }

  /** The fixed window test finds a junk pattern exactly when the regular expression matches somewhere. */
  lemma JunkPatternIsRegex(s: string)
    ensures ContainsJunkPattern(s) <==> exists i, a, b | 0 <= i <= |s| && 0 <= a <= |s| && 0 <= b <= |s| :: JunkRun(s, i, a, b)
  {
    if ContainsJunkPattern(s) {
      var i :| 0 <= i <= |s| - 8 && JunkAt(s, i);
      assert JunkRun(s, i, 5, 3);
    }
    if exists i, a, b | 0 <= i <= |s| && 0 <= a <= |s| && 0 <= b <= |s| :: JunkRun(s, i, a, b) {
      var i, a, b :| 0 <= i <= |s| && 0 <= a <= |s| && 0 <= b <= |s| && JunkRun(s, i, a, b);
      assert JunkAt(s, i + a - 5);
    }
  }

  // ---------------------------------------------------------------------------
  // Gibberish

  /** `lowercased()` with every scalar outside `a`–`z` removed: the ASCII letters, lowered, in order. */
  function Cleaned(s: string): (r: string)
    ensures |r| <= |s|
    ensures forall i | 0 <= i < |r| :: IsAsciiLower(r[i])
    decreases |s|
  {
    if s == [] then [] else (if IsAsciiLetter(s[0]) then [LowerChar(s[0])] else []) + Cleaned(s[1..])
  }

  /** Cleaning keeps every ASCII letter, lowered. */
  lemma {:induction false} CleanedKeepsLetter(s: string, i: nat)
    requires i < |s| && IsAsciiLetter(s[i])
    ensures LowerChar(s[i]) in Cleaned(s)
    decreases i
  {
    if i > 0 {
      CleanedKeepsLetter(s[1..], i - 1);
      assert s[1..][i - 1] == s[i];
    }
  }

  /** `Set(text)`: the distinct Characters of a text of single-scalar Characters. */
  function Distinct(s: string): set<char> {
    set i | 0 <= i < |s| :: s[i]
  }

  /** More than 5 letters `a`–`z` remain after cleaning, drawn from at most 3 distinct letters. */
  predicate IsGibberish(s: string) {
    var cleaned := Cleaned(s);
    |cleaned| > GibberishLengthThreshold && |Distinct(cleaned)| <= GibberishCharThreshold
  }

  /** A text whose cleaned letters include more than three distinct ones is not gibberish. */
  lemma VariedLettersAreNotGibberish(s: string, letters: set<char>)
    requires |letters| > GibberishCharThreshold
    requires forall c | c in letters :: c in Cleaned(s)
    ensures !IsGibberish(s)
  {
    var distinct := Distinct(Cleaned(s));
    assert letters <= distinct;
    assert distinct == letters + (distinct - letters);
  }

  /** Letters are single-scalar Characters, so `cleaned.count` is the length used by `IsGibberish`. */
  lemma CleanedCountIsLength(s: string)
    ensures CharCount(Cleaned(s)) == |Cleaned(s)|
  {
    PlainStarts(Cleaned(s), |Cleaned(s)|);
  }

  // ---------------------------------------------------------------------------
  // The chain

  /** The lowercased text contains an entry of the spam list. */
  predicate IsSpamMessage(s: string) {
    exists k | 0 <= k < |ChatApi.CommonSpamPatterns| :: Contains(Lower(s), ChatApi.CommonSpamPatterns[k])
  }

  /** The validation chain, in its order: every guard must pass. */
  predicate ValidateGeneralText(s: string) {
    s != []
    && CharCount(s) <= MaxCharacterLimit
    && CharCount(s) >= MinCharacterLimit
    && IsMostlyAlphanumeric(s)
    && !ContainsLink(s)
    && !ContainsJunkPattern(s)
    && !IsGibberish(s)
  }

  /** An (already trimmed) input is answered from the tables only when it is valid and not spam. */
  predicate Accepted(s: string) {
    ValidateGeneralText(s) && !IsSpamMessage(s)
  }

  /** Both link prefixes start with "http". */
  lemma LinkStartsWithHttp(s: string, i: int)
    requires LinkAt(s, i)
    ensures Occurs(s, "http", i)
  {
    if Occurs(s, "http://", i) {
      assert s[i..i + 4] == s[i..i + 7][..4];
    } else {
      assert s[i..i + 4] == s[i..i + 8][..4];
    }
  }

  /** Every text with a link contains "http". */
  lemma LinkHasHttp(s: string)
    requires ContainsLink(s)
    ensures Contains(s, "http")
  {
    var i :| 0 <= i < |s| && LinkAt(s, i);
    LinkStartsWithHttp(s, i);
  }

  /** A text lacking one of the scalars of "http" has no link. */
  lemma NoLinkWithout(s: string, c: char)
    requires c in "http" && c !in s
    ensures !ContainsLink(s)
  {
    MissingScalar(s, "http", c);
    if ContainsLink(s) {
      LinkHasHttp(s);
    }
  }

  /** An occurrence of a text without capitals survives lowercasing. */
  lemma OccursLowered(s: string, p: string, i: int)
    requires Occurs(s, p, i)
    requires forall t | 0 <= t < |p| :: !IsAsciiUpper(p[t])
    ensures Occurs(Lower(s), p, i)
  {
    forall t | 0 <= t < |p| ensures Lower(s)[i + t] == p[t] {
      assert s[i + t] == s[i..i + |p|][t];
    }
    assert Lower(s)[i..i + |p|] == p;
  }

  /** The link guard never decides alone: every text with a link also contains the spam entry "http". */
  lemma LinkIsSpam(s: string)
    requires ContainsLink(s)
    ensures IsSpamMessage(s)
  {
    var i :| 0 <= i < |s| && LinkAt(s, i);
    LinkStartsWithHttp(s, i);
    OccursLowered(s, "http", i);
    assert ChatApi.CommonSpamPatterns[5] == "http";
    assert Contains(Lower(s), ChatApi.CommonSpamPatterns[5]);
  }

  /**
   * The ratio's numerator counts scalars and its denominator Characters: an `e` carrying three
   * combining accents between two exclamation marks has one alphanumeric Character in three,
   * yet passes the 0.6 test with four allowed scalars.
   */
  lemma CombiningMarksInflateRatio()
    ensures var s := "!e\U{301}\U{301}\U{301}!";
      AllowedCount(s) == 4 && CharCount(s) == 3 && IsMostlyAlphanumeric(s)
  {
    var s := "!e\U{301}\U{301}\U{301}!";
    assert s[..5][..4] == s[..4] && s[..4][..3] == s[..3] && s[..3][..2] == s[..2] && s[..2][..1] == s[..1];
    assert AllowedCount(s[..1]) == 0;
    assert AllowedCount(s[..2]) == 1;
    assert AllowedCount(s[..3]) == 2;
    assert AllowedCount(s[..4]) == 3;
    assert AllowedCount(s[..5]) == 4;
    assert s[..|s| - 1] == s[..5];
    assert AllowedCount(s) == 4;
    assert Starts(s, 2) == 2;
    assert !StartsCharacter(s, 2) && !StartsCharacter(s, 3) && !StartsCharacter(s, 4);
    assert Starts(s, 5) == 2;
    assert StartsCharacter(s, 5);
  }

  /**
   * The Greek question mark is punctuation, not an alphanumeric: three of them before one
   * letter leave one allowed scalar in four Characters, below the 0.6 bar.
   */
  lemma GreekQuestionMarksNotAllowed()
    ensures var s := "\U{37E}\U{37E}\U{37E}a";
      AllowedCount(s) == 1 && CharCount(s) == 4 && !IsMostlyAlphanumeric(s)
  {
    var s := "\U{37E}\U{37E}\U{37E}a";
    assert s[..3][..2] == s[..2] && s[..2][..1] == s[..1];
    assert AllowedCount(s[..1]) == 0;
    assert AllowedCount(s[..2]) == 0;
    assert AllowedCount(s[..3]) == 0;
    assert s[..|s| - 1] == s[..3];
    assert AllowedCount(s) == 1;
    assert StartsCharacter(s, 1) && StartsCharacter(s, 2) && StartsCharacter(s, 3);
  }

  /** Cleaning "I did it!" leaves "ididit". */
  lemma CleanedOwnSuggestion()
    ensures Cleaned("I did it!") == "ididit"
  {
    CleanedOwnSuggestionTail();
    CleanedCons(' ', "did it!");
    CleanedCons('I', " did it!");
  }

  lemma CleanedOwnSuggestionTail()
    ensures Cleaned("did it!") == "didit"
  {
    CleanedLastWord();
    CleanedCons('d', " it!");
    CleanedCons('i', "d it!");
    CleanedCons('d', "id it!");
  }

  lemma CleanedLastWord()
    ensures Cleaned(" it!") == "it"
  {
  }

  /** Cleaning works one scalar at a time from the front. */
  lemma CleanedCons(c: char, rest: string)
    ensures Cleaned([c] + rest) == (if IsAsciiLetter(c) then [LowerChar(c)] else []) + Cleaned(rest)
  {
    assert ([c] + rest)[1..] == rest;
  }

  /** "ididit" is drawn from the three letters i, d and t. */
  lemma ThreeLettersOfOwnSuggestion()
    ensures Distinct("ididit") == {'i', 'd', 't'}
  {
    var cleaned := "ididit";
    assert cleaned[0] == 'i' && cleaned[1] == 'd' && cleaned[5] == 't';
  }

  /**
   * The app's own suggestion "I did it!" is gibberish, so the last guard of `ValidateGeneralText`
   * refuses it: its letters "ididit" are six drawn from three.
   */
  lemma OwnSuggestionIsGibberish()
    ensures IsGibberish("I did it!")
  {
    CleanedOwnSuggestion();
    ThreeLettersOfOwnSuggestion();
    assert |{'i', 'd', 't'}| == 3;
  }
}
