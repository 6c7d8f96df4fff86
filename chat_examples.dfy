/**
 * Two inputs that show how keyword dispatch behaves on the app's own suggestion chips.
 * Both pass every guard of the classifier; the first matches three keyword groups, the
 * second, offered under the "missed it" group, matches only the "done" group.
 */
module ChatExamples {
  import opened Text
  import opened Classifier
  import opened ChatApi
  import opened ChatServiceModel

  /** A keyword group none of whose keywords occurs, each shown absent by a missing scalar. */
  lemma NoKeywordOf(lowered: string, group: set<string>, keywords: seq<string>, miss: seq<char>)
    requires forall k | k in group :: k in keywords
    requires |miss| == |keywords|
    requires forall i | 0 <= i < |keywords| :: miss[i] in keywords[i] && miss[i] !in lowered
    ensures !GroupMatches(group, lowered)
  {
    NoneContained(lowered, keywords, miss, -1);
  }

  /** When the group at index `m` is the only one whose keywords occur, it is the only match. */
  lemma OnlyGroup(lowered: string, m: nat)
    requires m < |KeywordGroups|
    requires forall i | 0 <= i < |KeywordGroups| :: GroupMatches(KeywordGroups[i], lowered) <==> i == m
    ensures MatchingGroups(lowered) == {KeywordGroups[m]}
  {
    ResponseKeysAreGroups();
    forall g | g in MatchingGroups(lowered) ensures g == KeywordGroups[m] {
      var i :| 0 <= i < |KeywordGroups| && KeywordGroups[i] == g;
    }
  }

  // ---------------------------------------------------------------------------
  // "Daily challenge done!"

  lemma DailyDoneText()
    ensures Trim("Daily challenge done!") == "Daily challenge done!"
    ensures Lower("Daily challenge done!") == "daily challenge done!"
  {
    DailyDoneTrimmed();
    DailyDoneLowered();
  }

  lemma DailyDoneTrimmed()
    ensures Trim("Daily challenge done!") == "Daily challenge done!"
  {
    TrimUnpadded("Daily challenge done!");
  }

  lemma DailyDoneLowered()
    ensures Lower("Daily challenge done!") == "daily challenge done!"
  {
  }

  lemma DailyDoneCharCount()
    ensures CharCount("Daily challenge done!") == 21
  {
    PlainStarts("Daily challenge done!", 21);
  }

  lemma DailyDoneAllowedCount()
    ensures AllowedCount("Daily challenge done!") == 20
  {
    DailyDoneWordsAllowed();
    AllowedCountAppend("Daily challenge done", "!");
    assert "Daily challenge done" + "!" == "Daily challenge done!";
  }

  lemma DailyDoneWordsAllowed()
    ensures AllowedCount("Daily challenge done") == 20
    ensures AllowedCount("!") == 0
  {
    var w := "Daily challenge done";
    assert forall i | 0 <= i < |w| :: IsAsciiLetter(w[i]) || w[i] == ' ';
  }

  lemma DailyDoneNoLink()
    ensures !ContainsLink("Daily challenge done!")
  {
    NoLinkWithout("Daily challenge done!", 't');
  }

  lemma DailyDoneNoJunk()
    ensures !ContainsJunkPattern("Daily challenge done!")
  {
    var w := "Daily challenge done!";
    assert forall i | 0 <= i < |w| :: !IsDigit(w[i]);
    forall i | 0 <= i <= |w| - 8 ensures !JunkAt(w, i) {
      assert !IsDigit(w[i + 5]);
    }
  }

  lemma DailyDoneVaried(w: string)
    requires w == "Daily challenge done!"
    ensures !IsGibberish(w)
  {
    assert w[0] == 'D' && w[1] == 'a' && w[2] == 'i' && w[3] == 'l';
    CleanedKeepsLetter(w, 0);
    CleanedKeepsLetter(w, 1);
    CleanedKeepsLetter(w, 2);
    CleanedKeepsLetter(w, 3);
    FourLetters('d', 'a', 'i', 'l');
    VariedLettersAreNotGibberish(w, {'d', 'a', 'i', 'l'});
  }

  /** Four different letters make a set of four. */
  lemma FourLetters(a: char, b: char, c: char, d: char)
    requires a != b && a != c && a != d && b != c && b != d && c != d
    ensures |{a, b, c, d}| == 4
  {
    assert {a, b, c, d} == {a, b, c} + {d};
    assert {a, b, c} == {a, b} + {c};
  }

  /** The lowercased suggestion contains no spam entry but "!!!", seven entries at a time. */
  lemma DailyDoneSpamFreeA()
    ensures forall k | 0 <= k < 7 :: !Contains("daily challenge done!", CommonSpamPatterns[k])
  {
    NoneContainedFrom("daily challenge done!", CommonSpamPatterns, 0, ['f', 'v', 'k', 'b', 's', 't', 't'], -1);
  }

  lemma DailyDoneSpamFreeB()
    ensures forall k | 7 <= k < 14 :: !Contains("daily challenge done!", CommonSpamPatterns[k])
  {
    NoneContainedFrom("daily challenge done!", CommonSpamPatterns, 7, ['.', '.', '.', 'p', 'm', 'p', 't'], -1);
  }

  lemma DailyDoneSpamFreeC()
    ensures forall k | 14 <= k < 21 && k != 20 :: !Contains("daily challenge done!", CommonSpamPatterns[k])
  {
    NoneContainedFrom("daily challenge done!", CommonSpamPatterns, 14, ['r', 'u', 't', 'b', '@', '#', '!'], 20);
  }

  lemma DailyDoneSpamFreeD()
    ensures forall k | 21 <= k < 28 :: !Contains("daily challenge done!", CommonSpamPatterns[k])
  {
    NoneContainedFrom("daily challenge done!", CommonSpamPatterns, 21, ['m', 'k', 'w', 'm', 'j', 'x', 'r'], -1);
  }

  /** The single "!" at the end cannot start "!!!". */
  lemma DailyDoneNoTripleBang()
    ensures !Contains("daily challenge done!", "!!!")
  {
    MissingFirstScalar("daily challenge done!", "!!!");
  }

  lemma DailyDoneValid()
    ensures ValidateGeneralText("Daily challenge done!")
  {
    DailyDoneCharCount();
    DailyDoneAllowedCount();
    DailyDoneNoLink();
    DailyDoneNoJunk();
    DailyDoneVaried("Daily challenge done!");
  }

  lemma DailyDoneNotSpam()
    ensures !IsSpamMessage("Daily challenge done!")
  {
    DailyDoneLowered();
    DailyDoneSpamFree();
  }

  lemma DailyDoneSpamFree()
    ensures forall k | 0 <= k < |CommonSpamPatterns| :: !Contains("daily challenge done!", CommonSpamPatterns[k])
  {
    DailyDoneSpamFreeA();
    DailyDoneSpamFreeB();
    DailyDoneSpamFreeC();
    DailyDoneSpamFreeD();
    DailyDoneNoTripleBang();
    assert |CommonSpamPatterns| == 28 && CommonSpamPatterns[20] == "!!!";
  }

  lemma DailyDoneGroupsMatch()
    ensures GroupMatches(ChallengeKeys, "daily challenge done!")
    ensures GroupMatches(DoneKeys, "daily challenge done!")
    ensures GroupMatches(StreakKeys, "daily challenge done!")
  {
    var l := "daily challenge done!";
    assert Occurs(l, "daily", 0);
    assert Occurs(l, "challenge", 6);
    assert Occurs(l, "done", 16);
    assert "daily" in StreakKeys;
    assert "challenge" in ChallengeKeys;
    assert "done" in DoneKeys;
  }

  lemma ThreeGroupsAreKeys()
    ensures ChallengeKeys in KeywordToResponses.Keys
    ensures DoneKeys in KeywordToResponses.Keys
    ensures StreakKeys in KeywordToResponses.Keys
  {
    ResponseKeysAreGroups();
    assert KeywordGroups[2] == ChallengeKeys && KeywordGroups[3] == DoneKeys && KeywordGroups[4] == StreakKeys;
  }

  lemma DailyDoneGroups()
    ensures {ChallengeKeys, DoneKeys, StreakKeys} <= MatchingGroups("daily challenge done!")
  {
    DailyDoneGroupsMatch();
    ThreeGroupsAreKeys();
  }

  /**
   * "Daily challenge done!" (a suggestion of the streak group) is accepted and matches the
   * challenge, done and streak groups, so by `ReplyFromAnyMatchingGroup` its reply may come
   * from any of the three, depending on the tables' iteration order.
   */
  lemma DailyChallengeDoneMatchesThreeGroups()
    ensures Accepted(Trim("Daily challenge done!"))
    ensures {ChallengeKeys, DoneKeys, StreakKeys} <= MatchingGroups(Lower(Trim("Daily challenge done!")))
  {
    DailyDoneText();
    DailyDoneValid();
    DailyDoneNotSpam();
    DailyDoneGroups();
  }

  // ---------------------------------------------------------------------------
  // "Didn\U{2019}t get it done."

  lemma DidntText()
    ensures Trim("Didn\U{2019}t get it done.") == "Didn\U{2019}t get it done."
    ensures Lower("Didn\U{2019}t get it done.") == "didn\U{2019}t get it done."
  {
    DidntTrimmed();
    DidntLowered();
  }

  lemma DidntTrimmed()
    ensures Trim("Didn\U{2019}t get it done.") == "Didn\U{2019}t get it done."
  {
    TrimUnpadded("Didn\U{2019}t get it done.");
  }

  lemma DidntLowered()
    ensures Lower("Didn\U{2019}t get it done.") == "didn\U{2019}t get it done."
  {
  }

  lemma DidntCharCount()
    ensures CharCount("Didn\U{2019}t get it done.") == 19
  {
    PlainStarts("Didn\U{2019}t get it done.", 19);
  }

  /** Allowed scalars of a text made of two allowed runs, each followed by one scalar that is not. */
  lemma TwoAllowedRuns(a: string, x: char, b: string, y: char)
    requires forall i | 0 <= i < |a| :: IsAllowedScalar(a[i])
    requires forall i | 0 <= i < |b| :: IsAllowedScalar(b[i])
    requires !IsAllowedScalar(x) && !IsAllowedScalar(y)
    ensures AllowedCount(a + [x] + b + [y]) == |a| + |b|
  {
    AllowedCountAppend(a, [x]);
    AllowedCountAppend(a + [x], b);
    AllowedCountAppend(a + [x] + b, [y]);
  }

  lemma DidntAllowedCount()
    ensures AllowedCount("Didn\U{2019}t get it done.") == 17
  {
    DidntPiecesAllowed("Didn", "t get it done");
    TwoAllowedRuns("Didn", '\U{2019}', "t get it done", '.');
    assert "Didn" + ['\U{2019}'] + "t get it done" + ['.'] == "Didn\U{2019}t get it done.";
  }

  lemma DidntPiecesAllowed(a: string, b: string)
    requires a == "Didn" && b == "t get it done"
    ensures forall i | 0 <= i < |a| :: IsAllowedScalar(a[i])
    ensures forall i | 0 <= i < |b| :: IsAllowedScalar(b[i])
    ensures !IsAllowedScalar('\U{2019}') && !IsAllowedScalar('.')
  {
    assert forall i | 0 <= i < |a| :: IsAsciiLetter(a[i]);
    assert forall i | 0 <= i < |b| :: IsAsciiLetter(b[i]) || b[i] == ' ';
  }

  lemma DidntNoLinkOrJunk()
    ensures !ContainsLink("Didn\U{2019}t get it done.")
    ensures !ContainsJunkPattern("Didn\U{2019}t get it done.")
  {
    var w := "Didn\U{2019}t get it done.";
    NoLinkWithout(w, 'h');
    assert forall i | 0 <= i < |w| :: !IsDigit(w[i]);
    forall i | 0 <= i <= |w| - 8 ensures !JunkAt(w, i) {
      assert !IsDigit(w[i + 5]);
    }
  }

  lemma DidntVaried(w: string)
    requires w == "Didn\U{2019}t get it done."
    ensures !IsGibberish(w)
  {
    assert w[0] == 'D' && w[1] == 'i' && w[3] == 'n' && w[5] == 't';
    CleanedKeepsLetter(w, 0);
    CleanedKeepsLetter(w, 1);
    CleanedKeepsLetter(w, 3);
    CleanedKeepsLetter(w, 5);
    FourLetters('d', 'i', 'n', 't');
    VariedLettersAreNotGibberish(w, {'d', 'i', 'n', 't'});
  }

  lemma DidntValid()
    ensures ValidateGeneralText("Didn\U{2019}t get it done.")
  {
    DidntCharCount();
    DidntAllowedCount();
    DidntNoLinkOrJunk();
    DidntVaried("Didn\U{2019}t get it done.");
  }

  /** The lowercased suggestion contains none of the spam entries, seven at a time. */
  lemma DidntSpamFreeA()
    ensures forall k | 0 <= k < 7 :: !Contains("didn\U{2019}t get it done.", CommonSpamPatterns[k])
  {
    NoneContainedFrom("didn\U{2019}t get it done.", CommonSpamPatterns, 0, ['f', 'v', 'c', 'b', 's', 'h', 'h'], -1);
  }

  lemma DidntSpamFreeB()
    ensures forall k | 7 <= k < 14 :: !Contains("didn\U{2019}t get it done.", CommonSpamPatterns[k])
  {
    NoneContainedFrom("didn\U{2019}t get it done.", CommonSpamPatterns, 7, ['c', 'r', 'x', 'c', 'l', 'p', 'r'], -1);
  }

  lemma DidntSpamFreeC()
    ensures forall k | 14 <= k < 21 :: !Contains("didn\U{2019}t get it done.", CommonSpamPatterns[k])
  {
    NoneContainedFrom("didn\U{2019}t get it done.", CommonSpamPatterns, 14, ['a', 'u', 'm', 'b', '@', '#', '!'], -1);
  }

  lemma DidntSpamFreeD()
    ensures forall k | 21 <= k < 28 :: !Contains("didn\U{2019}t get it done.", CommonSpamPatterns[k])
  {
    NoneContainedFrom("didn\U{2019}t get it done.", CommonSpamPatterns, 21, ['m', 'c', 'w', 'm', 'j', 'x', 'r'], -1);
  }

  lemma DidntNotSpam()
    ensures !IsSpamMessage("Didn\U{2019}t get it done.")
  {
    DidntText();
    DidntSpamFreeA();
    DidntSpamFreeB();
    DidntSpamFreeC();
    DidntSpamFreeD();
    assert |CommonSpamPatterns| == 28;
  }

  lemma DidntMissesNervous(l: string)
    requires l == "didn\U{2019}t get it done."
    ensures !GroupMatches(NervousKeys, l)
  {
    NoKeywordOf(l, NervousKeys, ["nervous", "worried", "anxious", "stressed"], ['r', 'w', 'a', 's']);
  }

  lemma DidntMissesDistracted(l: string)
    requires l == "didn\U{2019}t get it done."
    ensures !GroupMatches(DistractedKeys, l)
  {
    NoKeywordOf(l, DistractedKeys, ["distracted", "unfocused", "can't concentrate"], ['s', 'u', 'c']);
  }

  lemma DidntMissesChallenge(l: string)
    requires l == "didn\U{2019}t get it done."
    ensures !GroupMatches(ChallengeKeys, l)
  {
    NoKeywordOf(l, ChallengeKeys,
      ["challenge", "today's challenge", "what's my challenge", "give challenge", "show task", "new task"],
      ['c', 'a', 'w', 'v', 's', 'w']);
  }

  lemma DidntMissesStreak(l: string)
    requires l == "didn\U{2019}t get it done."
    ensures !GroupMatches(StreakKeys, l)
  {
    NoKeywordOf(l, StreakKeys, ["streak", "momentum", "habit", "routine", "daily"], ['s', 'm', 'h', 'r', 'a']);
  }

  lemma DidntMissesMotivation(l: string)
    requires l == "didn\U{2019}t get it done."
    ensures !GroupMatches(MotivateKeys, l)
  {
    NoKeywordOf(l, MotivateKeys, ["motivate", "inspire", "need push", "boost"], ['m', 's', 'p', 'b']);
  }

  lemma DidntMissesFail(l: string)
    requires l == "didn\U{2019}t get it done."
    ensures !GroupMatches(FailKeys, l)
  {
    NoKeywordOf(l, FailKeys, ["fail", "missed", "couldn't", "can't do", "didn't"], ['f', 'm', 'c', 'c', '\'']);
  }

  lemma DidntMatchesDone(l: string)
    requires l == "didn\U{2019}t get it done."
    ensures GroupMatches(DoneKeys, l)
  {
    assert Occurs(l, "done", 14);
  }

  lemma DidntGroups()
    ensures MatchingGroups("didn\U{2019}t get it done.") == {DoneKeys}
  {
    var l := "didn\U{2019}t get it done.";
    DidntMissesNervous(l);
    DidntMissesDistracted(l);
    DidntMissesChallenge(l);
    DidntMissesStreak(l);
    DidntMissesMotivation(l);
    DidntMissesFail(l);
    DidntMatchesDone(l);
    OnlyGroup(l, 3);
  }

  /**
   * "Didn\U{2019}t get it done." (a suggestion of the missed-it group) is accepted, yet its curly
   * apostrophe defeats the keyword "didn't": the only group it matches is the done group, so it
   * is always answered with congratulations.
   */
  lemma DidntGetItDoneIsCongratulated()
    ensures Accepted(Trim("Didn\U{2019}t get it done."))
    ensures MatchingGroups(Lower(Trim("Didn\U{2019}t get it done."))) == {DoneKeys}
  {
    DidntText();
    DidntValid();
    DidntNotSpam();
    DidntGroups();
  }
}
