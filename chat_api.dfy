/**
 * The chat assistant's data types and its constant tables: the canned messages, the
 * spam substrings, and the two keyword tables that map the same seven keyword sets to
 * candidate replies and to follow-up suggestions.
 */
module ChatApi {
  import opened Wrappers
  import opened Text

  datatype Sender = User | Ai

  /** A displayed fragment: fixed text, or a streamer revealing the reply of the chat with the given id. */
  datatype MessageType = TextMessage(text: string) | TextSub(conversationId: nat)

  datatype Message = Message(kind: MessageType)

  /** A display grouping of fragments from one sender; `id` stands for the block's fresh UUID. */
  datatype MessageBlock = MessageBlock(id: nat, sender: Sender, messages: seq<Message>)

  /**
   * One persisted exchange. `day` stands for `timestamp`: every use of the timestamp in the
   * app asks only which calendar day it falls on.
   */
  datatype Chat = Chat(id: nat, query: string, reply: string, responseMessage: Option<string>, isSuccess: bool, day: int)

  datatype ChatResponse = ChatResponse(isSuccess: bool, conversationId: nat, message: Option<string>)

  const FallbackMessage: string := "That's interesting! Could you elaborate a bit?"

  const OutOfScopeMessage: string := "Hmm, that doesn't look like something I can help with. Try asking about your challenge!"

  const FallbackSuggestions: seq<string> := [
    "Tell me more about your experience.",
    "What was the most difficult part?",
    "What helped you stay focused?",
    "Any reflections after the challenge?",
    "Want to try something new today?"
  ]

  const CommonSpamPatterns: seq<string> := [
    "free money", "visit my site", "click here", "buy now", "subscribe", "http", "https", ".com", ".ru", ".xyz",
    "cheap deal", "limited offer", "promo code", "get rich", "earn fast", "guaranteed income",
    "t.me/", "bit.ly", "@everyone", "#giveaway", "!!!", "dm me", "check my page",
    "win big", "make $$$", "join group", "exclusive access", "referral link"
  ]

  const NervousKeys: set<string> := {"nervous", "worried", "anxious", "stressed"}
  const DistractedKeys: set<string> := {"distracted", "unfocused", "can't concentrate"}
  const ChallengeKeys: set<string> := {"challenge", "today's challenge", "what's my challenge", "give challenge", "show task", "new task"}
  const DoneKeys: set<string> := {"done", "completed", "finished", "i did it", "check", "marked"}
  const StreakKeys: set<string> := {"streak", "momentum", "habit", "routine", "daily"}
  const MotivateKeys: set<string> := {"motivate", "inspire", "need push", "boost"}
  const FailKeys: set<string> := {"fail", "missed", "couldn't", "can't do", "didn't"}

  /** The seven keyword sets, in the order the source declares them (the dictionaries do not keep this order). */
  const KeywordGroups: seq<set<string>> := [NervousKeys, DistractedKeys, ChallengeKeys, DoneKeys, StreakKeys, MotivateKeys, FailKeys]

  const KeywordToResponses: map<set<string>, seq<string>> := map[
    NervousKeys := [
      "Start small. 5 minutes is a great place to begin.",
      "It's okay to feel nervous. Every expert was once a beginner.",
      "Breathe deeply. You've got this! \U{1F4AA}",
      "Stress is temporary. Take a mindful pause."
    ],
    DistractedKeys := [
      "Try counting your breaths from 1 to 10, then repeat.",
      "Bring your attention gently back. No judgment.",
      "Totally normal! Just return to your breath.",
      "Focus comes in waves \U{2014} you're doing fine."
    ],
    ChallengeKeys := [
      "Your challenge today is a 30-minute meditation. \U{2728}",
      "Today you're trying mindful silence for 30 minutes.",
      "Let's start strong: 30-minute meditation is today's goal.",
      "Here\U{2019}s your new challenge \U{2014} dive in when you're ready."
    ],
    DoneKeys := [
      "Awesome work! How did that feel?",
      "Nice job completing the challenge! What was the hardest part?",
      "\U{1F389} You did it! What stood out to you?",
      "That\U{2019}s another step forward. Great work!"
    ],
    StreakKeys := [
      "You're crushing it! \U{1F525} Keep the streak alive!",
      "Consider setting a daily reminder to build consistency.",
      "Every day counts. Tomorrow is waiting!",
      "Momentum is growing \U{2014} stay with it!"
    ],
    MotivateKeys := [
      "One step at a time. You've got this.",
      "Even a small effort today brings big change tomorrow.",
      "Every champion was once a beginner. Start now.",
      "Need a boost? Keep your why close."
    ],
    FailKeys := [
      "It's okay to miss a day. What matters is you're back now.",
      "Progress isn't linear. You're still on the path.",
      "Tomorrow is a new chance. Let's go again!",
      "Failure isn't the end \U{2014} it's part of the process."
    ]
  ]

  const KeywordToSuggestions: map<set<string>, seq<string>> := map[
    NervousKeys := [
      "Feeling anxious today.",
      "Bit nervous, honestly.",
      "Worried about messing up.",
      "I'm stressed out.",
      "Having an anxious moment.",
      "Pretty nervous about starting.",
      "Feeling a little worried."
    ],
    DistractedKeys := [
      "Totally distracted today.",
      "Can\U{2019}t concentrate right now.",
      "Unfocused and scattered.",
      "I\U{2019}m really distracted.",
      "Struggling to concentrate.",
      "Mind keeps wandering.",
      "Focus is off today."
    ],
    ChallengeKeys := [
      "What\U{2019}s today\U{2019}s challenge?",
      "Give me a new challenge.",
      "Show me my task.",
      "Ready for today\U{2019}s challenge!",
      "Challenge me please.",
      "What\U{2019}s my challenge today?",
      "Show task for the day."
    ],
    DoneKeys := [
      "Just completed it.",
      "Challenge done!",
      "I did it!",
      "Marked as done.",
      "Finished my task.",
      "Checked it off.",
      "Wrapped it up."
    ],
    StreakKeys := [
      "How\U{2019}s my streak going?",
      "Still on my habit streak!",
      "Keeping my routine strong.",
      "Daily challenge done!",
      "Let\U{2019}s keep the momentum.",
      "Show my streak progress.",
      "Routine is building."
    ],
    MotivateKeys := [
      "Need some motivation.",
      "Looking for a boost.",
      "Inspire me today!",
      "Push me forward.",
      "Could use a bit of motivation.",
      "Help me stay inspired.",
      "Give me a boost!"
    ],
    FailKeys := [
      "I missed today\U{2019}s challenge.",
      "Couldn\U{2019}t finish it.",
      "Didn\U{2019}t get it done.",
      "Feel like I failed today.",
      "Can\U{2019}t do it today.",
      "Slipped up today.",
      "Didn\U{2019}t go well."
    ]
  ]

  /** A keyword group applies to a lowercased text when one of its keywords is a substring of it. */
  predicate GroupMatches(keywords: set<string>, lowered: string) {
    exists k | k in keywords :: Contains(lowered, k)
  }

  /** The response table is keyed by exactly the seven keyword sets. */
  lemma ResponseKeysAreGroups()
    ensures forall g :: g in KeywordToResponses <==> g in KeywordGroups
  {
  }

  /** The suggestion table is keyed by exactly the seven keyword sets. */
  lemma SuggestionKeysAreGroups()
    ensures forall g :: g in KeywordToSuggestions <==> g in KeywordGroups
  {
  }

  /** The seven keyword sets are pairwise different. */
  lemma GroupsDistinct()
    ensures |KeywordGroups| == 7
    ensures forall i, j | 0 <= i < j < |KeywordGroups| :: KeywordGroups[i] != KeywordGroups[j]
  {
  }

  /** Both tables are keyed by the same seven keyword sets. */
  lemma TablesShareKeys()
    ensures KeywordToResponses.Keys == KeywordToSuggestions.Keys
    ensures KeywordToResponses.Keys == set g | g in KeywordGroups
    ensures |KeywordGroups| == 7
    ensures forall i, j | 0 <= i < j < |KeywordGroups| :: KeywordGroups[i] != KeywordGroups[j]
  {
    ResponseKeysAreGroups();
    SuggestionKeysAreGroups();
    GroupsDistinct();
  }

  /** Every keyword group has four replies, none of them empty. */
  lemma ResponseSizes()
    ensures forall g | g in KeywordToResponses :: |KeywordToResponses[g]| == 4
    ensures forall g, i | g in KeywordToResponses && 0 <= i < |KeywordToResponses[g]| :: |KeywordToResponses[g][i]| > 0
  {
  }

  /** Every keyword group has seven suggestions. */
  lemma SuggestionSizes()
    ensures forall g | g in KeywordToSuggestions :: |KeywordToSuggestions[g]| == 7
  {
  }

  /** Every random pick and every `prefix(3)` has enough entries: 4 non-empty replies and 7 suggestions per group, 5 fallbacks. */
  lemma TableSizes()
    ensures forall g | g in KeywordToResponses :: |KeywordToResponses[g]| == 4
    ensures forall g, i | g in KeywordToResponses && 0 <= i < |KeywordToResponses[g]| :: |KeywordToResponses[g][i]| > 0
    ensures forall g | g in KeywordToSuggestions :: |KeywordToSuggestions[g]| == 7
    ensures |FallbackSuggestions| == 5
  {
    ResponseSizes();
    SuggestionSizes();
  }
}
