/**
 * The chat screen's reducer: the conversation shown, the suggestion chips, the loading and
 * streaming flags and the history page. `Step` is the reducer as a function of the state and
 * the action; its `.send` and `.run` effects are `Effect` values, and the actions a `.run`
 * effect dispatches back are `ReplyFollowUps` and `FetchFollowUps`. `ChatSession` holds the
 * same state in fields and mutates them in place as the reducer does.
 */
module ChatStoreModel {
  import opened Wrappers
  import opened Seqs
  import opened Text
  import opened ChatApi
  import opened ChatStorageModel
  import opened ChatServiceModel

  /**
   * `ChatStore.State` without `lastResponseTime`. `nextId` stands for the source of fresh
   * block UUIDs: every block the reducer builds takes the next one.
   */
  datatype State = State(
    messages: seq<MessageBlock>,
    currentSuggestions: seq<string>,
    isStreaming: bool,
    isLoading: bool,
    userInput: string,
    currentPage: int,
    typingIndicatorVisible: bool,
    nextId: nat)

  const Initial: State := State([], [], false, false, "", 1, false, 0)

  datatype Action =
    | OnAppear
    | UserInputChanged(input: string)
    | SendMessage(text: string)
    | SetLoading(loading: bool)
    | SetStreaming(streaming: bool)
    | AddMessage(block: MessageBlock)
    | HideTypingIndicator
    | AddSuggestion(suggestion: string)
    | ClearSuggestions
    | OnSend
    | LoadMessages
    | SuggestionTapped(tapped: string)
    | LoadMessagesResponse(conversations: seq<Chat>)

  /** What a reducer case returns besides the new state: nothing, one action, or a `.run` task. */
  datatype Effect = NoEffect | SendAction(action: Action) | RunGenerate(input: string) | RunFetch(page: int)

  datatype Transition = Transition(state: State, effect: Effect)

  predicate CanSend(s: State) {
    !s.isLoading && !s.isStreaming && Trim(s.userInput) != []
  }

  predicate IsNearCharacterLimit(s: State) {
    CharCount(s.userInput) > 450
  }

  predicate IsAtCharacterLimit(s: State) {
    CharCount(s.userInput) >= 500
  }

  /** The limit flag is the stronger of the two. */
  lemma AtLimitIsNearLimit(s: State)
    ensures IsAtCharacterLimit(s) ==> IsNearCharacterLimit(s)
    ensures CharCount(s.userInput) <= 450 ==> !IsNearCharacterLimit(s) && !IsAtCharacterLimit(s)
  {
  }

  /** The greeting as written in the source file, whose wave emoji was saved as four Latin-1/Windows-1252 characters. */
  const WelcomeMessage: string :=
    "Hey there! \U{F0}\U{178}\U{2018}\U{2039} I'm your challenge assistant. I'm here to help you with today's challenge, provide motivation, and answer any questions you might have. What would you like to know?"

  /** One text message per text, in order. */
  function TextMessages(texts: seq<string>): (r: seq<Message>)
    ensures |r| == |texts|
    ensures forall i | 0 <= i < |texts| :: r[i] == Message(TextMessage(texts[i]))
    decreases |texts|
  {
    if texts == [] then [] else [Message(TextMessage(texts[0]))] + TextMessages(texts[1..])
  }

  function TextBlock(id: nat, sender: Sender, texts: seq<string>): (b: MessageBlock)
    ensures b.id == id && b.sender == sender && |b.messages| == |texts|
    ensures forall i | 0 <= i < |texts| :: b.messages[i] == Message(TextMessage(texts[i]))
  {
    MessageBlock(id, sender, TextMessages(texts))
  }

  /** The AI block of a stored exchange: its optional response message, then its reply. */
  function ReplyTexts(c: Chat): (r: seq<string>)
    ensures c.responseMessage.None? ==> r == [c.reply]
    ensures c.responseMessage.Some? ==> r == [c.responseMessage.value, c.reply]
  {
    (if c.responseMessage.Some? then [c.responseMessage.value] else []) + [c.reply]
  }

  /** The blocks `loadMessagesResponse` builds for `chats`, taking ids from `firstId` on. */
  function HistoryBlocks(chats: seq<Chat>, firstId: nat): (r: seq<MessageBlock>)
    decreases |chats|
  {
    if chats == [] then []
    else
      var n := |chats| - 1;
      HistoryBlocks(chats[..n], firstId)
      + [TextBlock(firstId + 2 * n, User, [chats[n].query]), TextBlock(firstId + 2 * n + 1, Ai, ReplyTexts(chats[n]))]
  }

  /**
   * Every exchange becomes two blocks in conversation order: the user block with the query,
   * then the AI block with the optional response message and the reply.
   */
  lemma HistoryBlocksPairUp(chats: seq<Chat>, firstId: nat)
    ensures |HistoryBlocks(chats, firstId)| == 2 * |chats|
    ensures forall i | 0 <= i < |chats| ::
      HistoryBlocks(chats, firstId)[2 * i] == TextBlock(firstId + 2 * i, User, [chats[i].query])
      && HistoryBlocks(chats, firstId)[2 * i + 1] == TextBlock(firstId + 2 * i + 1, Ai, ReplyTexts(chats[i]))
  {
    HistoryLength(chats, firstId);
    forall i | 0 <= i < |chats|
      ensures HistoryBlocks(chats, firstId)[2 * i] == TextBlock(firstId + 2 * i, User, [chats[i].query])
      ensures HistoryBlocks(chats, firstId)[2 * i + 1] == TextBlock(firstId + 2 * i + 1, Ai, ReplyTexts(chats[i]))
    {
      HistoryPairAt(chats, firstId, i);
    }
  }

  lemma {:induction false} HistoryLength(chats: seq<Chat>, firstId: nat)
    ensures |HistoryBlocks(chats, firstId)| == 2 * |chats|
    decreases |chats|
  {
    if chats != [] {
      HistoryLength(chats[..|chats| - 1], firstId);
    }
  }

  /** The two blocks of exchange `i`, by induction on the exchanges after it. */
  lemma {:induction false} HistoryPairAt(chats: seq<Chat>, firstId: nat, i: nat)
    requires i < |chats|
    ensures |HistoryBlocks(chats, firstId)| == 2 * |chats|
    ensures HistoryBlocks(chats, firstId)[2 * i] == TextBlock(firstId + 2 * i, User, [chats[i].query])
    ensures HistoryBlocks(chats, firstId)[2 * i + 1] == TextBlock(firstId + 2 * i + 1, Ai, ReplyTexts(chats[i]))
    decreases |chats|
  {
    var n := |chats| - 1;
    var prev := HistoryBlocks(chats[..n], firstId);
    HistoryLength(chats[..n], firstId);
    if i < n {
      HistoryPairAt(chats[..n], firstId, i);
      assert chats[..n][i] == chats[i];
    }
  }

  /** One group's keyword occurs in the lowercased text. */
  function MatchesIn(lowered: string): set<string> -> bool {
    g => GroupMatches(g, lowered)
  }

  /**
   * `generateSuggestionsForInput`: the suggestions of a group with a keyword in the lowercased
   * input, chosen by `pick` among those groups as the dictionary order is unspecified, or the
   * fallback suggestions when no group has one.
   */
  function SuggestionsFor(input: string, pick: nat): (r: seq<string>)
    ensures (forall g | g in KeywordToSuggestions :: !GroupMatches(g, Lower(input))) ==> r == FallbackSuggestions
    ensures (exists g | g in KeywordToSuggestions :: GroupMatches(g, Lower(input))) ==>
      exists g | g in KeywordToSuggestions :: GroupMatches(g, Lower(input)) && r == KeywordToSuggestions[g]
  {
    SuggestionKeysAreGroups();
    var matching := Filter(KeywordGroups, MatchesIn(Lower(input)));
    if matching == [] then
      assert forall g | g in KeywordToSuggestions :: !GroupMatches(g, Lower(input));
      FallbackSuggestions
    else
      var g := matching[pick % |matching|];
      assert g in KeywordToSuggestions && GroupMatches(g, Lower(input));
      KeywordToSuggestions[g]
  }

  /** `onAppear`'s suggestions: the list of one table entry, `pick` standing for `randomElement()`. */
  function WelcomeSuggestions(pick: nat): (r: seq<string>)
    ensures r in KeywordToSuggestions.Values
  {
    SuggestionKeysAreGroups();
    KeywordToSuggestions[KeywordGroups[pick % 7]]
  }

  /** One `.addSuggestion` per entry. */
  function AddSuggestions(ss: seq<string>): (r: seq<Action>)
    ensures |r| == |ss| && forall i | 0 <= i < |ss| :: r[i] == AddSuggestion(ss[i])
  {
    seq(|ss|, i requires 0 <= i < |ss| => AddSuggestion(ss[i]))
  }

  /**
   * The reducer. `pick` stands for the random choice of `onAppear`'s suggestion list, an
   * entry of the suggestion table.
   */
  function Step(s: State, a: Action, pick: nat): Transition {
    match a
    case OnAppear =>
      if s.messages == [] then
        Transition(s.(messages := s.messages + [TextBlock(s.nextId, Ai, [WelcomeMessage])],
                      currentSuggestions := WelcomeSuggestions(pick),
                      nextId := s.nextId + 1), NoEffect)
      else Transition(s, NoEffect)
    case UserInputChanged(input) => Transition(s.(userInput := input), NoEffect)
    case OnSend =>
      if Trim(s.userInput) == [] || s.isLoading || s.isStreaming then Transition(s, NoEffect)
      else Transition(s.(userInput := ""), SendAction(SendMessage(Trim(s.userInput))))
    case SendMessage(input) =>
      Transition(s.(messages := s.messages + [TextBlock(s.nextId, User, [input])],
                    isLoading := true, currentSuggestions := [], nextId := s.nextId + 1),
                 RunGenerate(input))
    case SetLoading(loading) => Transition(s.(isLoading := loading), NoEffect)
    case SetStreaming(streaming) => Transition(s.(isStreaming := streaming), NoEffect)
    case AddMessage(block) => Transition(s.(messages := s.messages + [block]), NoEffect)
    case HideTypingIndicator => Transition(s.(typingIndicatorVisible := false), NoEffect)
    case AddSuggestion(suggestion) => Transition(s.(currentSuggestions := s.currentSuggestions + [suggestion]), NoEffect)
    case ClearSuggestions => Transition(s.(currentSuggestions := []), NoEffect)
    case SuggestionTapped(tapped) =>
      if s.isLoading || s.isStreaming then Transition(s, NoEffect)
      else Transition(s, SendAction(SendMessage(tapped)))
    case LoadMessages => Transition(s, RunFetch(s.currentPage))
    case LoadMessagesResponse(conversations) =>
      Transition(s.(messages := HistoryBlocks(conversations, s.nextId) + s.messages,
                    currentPage := s.currentPage + 1, nextId := s.nextId + 2 * |conversations|), NoEffect)
  }

  /** The state after the reducer has run the actions in order (none of which is `onAppear`). */
  function Run(s: State, actions: seq<Action>): State
    decreases |actions|
  {
    if actions == [] then s
    else Step(Run(s, actions[..|actions| - 1]), actions[|actions| - 1], 0).state
  }

  lemma {:induction false} RunAppend(s: State, f: seq<Action>, g: seq<Action>)
    ensures Run(s, f + g) == Run(Run(s, f), g)
    decreases |g|
  {
    if g == [] {
      assert f + g == f;
    } else {
      RunAppend(s, f, g[..|g| - 1]);
      assert (f + g)[..|f + g| - 1] == f + g[..|g| - 1];
    }
  }

  /** A run of `.addSuggestion`s appends exactly those suggestions and changes nothing else. */
  lemma {:induction false} RunAddSuggestions(s: State, ss: seq<string>)
    ensures Run(s, AddSuggestions(ss)) == s.(currentSuggestions := s.currentSuggestions + ss)
    decreases |ss|
  {
    if ss != [] {
      var n := |ss| - 1;
      RunAddSuggestions(s, ss[..n]);
      assert AddSuggestions(ss)[..n] == AddSuggestions(ss[..n]);
      assert ss[..n] + [ss[n]] == ss;
    }
  }

  // ---------------------------------------------------------------------------
  // The `.run` effects

  /** The streaming AI block: it reveals the reply of the conversation with the given id. */
  function StreamBlock(id: nat, conversationId: nat): MessageBlock {
    MessageBlock(id, Ai, [Message(TextSub(conversationId))])
  }

  /**
   * The actions `sendMessage`'s task dispatches once `generate` has answered with `response`.
   * `stored` is what `getMessage(response.conversationId)` finds (the streamer looks it up too),
   * `blockId` the new AI block's UUID and `suggestions` the ones to add. On success the
   * streamer's completion, which runs only when the record is found, ends streaming and adds
   * the suggestions; on failure the task stops early when the message or the record is missing.
   */
  function FollowUps(response: ChatResponse, stored: Option<Chat>, blockId: nat, suggestions: seq<string>): seq<Action> {
    if response.isSuccess then
      [SetLoading(false), SetStreaming(true), AddMessage(StreamBlock(blockId, response.conversationId))]
      + (if stored.Some? then [SetStreaming(false)] + AddSuggestions(suggestions) else [])
    else if response.message.None? || stored.None? then
      [SetLoading(false)]
    else
      [SetLoading(false), AddMessage(TextBlock(blockId, Ai, [response.message.value, stored.value.reply]))]
      + AddSuggestions(suggestions)
  }

  /** The follow-ups for an input: its suggestions are the first three for the input as sent. */
  function ReplyFollowUps(input: string, response: ChatResponse, stored: Option<Chat>, blockId: nat, pick: nat): seq<Action> {
    FollowUps(response, stored, blockId, Take(SuggestionsFor(input, pick), 3))
  }

  /** The actions `loadMessages`' task dispatches for what `getMessages(page:)` returned. */
  function FetchFollowUps(fetched: Option<seq<Chat>>): (r: seq<Action>)
    ensures fetched.None? ==> r == []
    ensures fetched.Some? ==> r == [LoadMessagesResponse(fetched.value)]
  {
    if fetched.Some? then [LoadMessagesResponse(fetched.value)] else []
  }

  /** The reply shown by a reply's follow-ups: a streaming block, the failure texts, or nothing. */
  function ReplyBlocks(response: ChatResponse, stored: Option<Chat>, blockId: nat): seq<MessageBlock> {
    if response.isSuccess then [StreamBlock(blockId, response.conversationId)]
    else if response.message.None? || stored.None? then []
    else [TextBlock(blockId, Ai, [response.message.value, stored.value.reply])]
  }

  /**
   * Where a reply leaves the session: loading is off; the reply's block, if any, is appended;
   * streaming stays on exactly when a successful reply's record cannot be found (the streamer
   * then never completes); and the suggestions are appended whenever the record was found and
   * a block was shown.
   */
  lemma ReplyOutcome(s: State, response: ChatResponse, stored: Option<Chat>, blockId: nat, ss: seq<string>)
    ensures var t := Run(s, FollowUps(response, stored, blockId, ss));
      !t.isLoading
      && t.isStreaming == (if response.isSuccess then stored.None? else s.isStreaming)
      && t.messages == s.messages + ReplyBlocks(response, stored, blockId)
      && t.currentSuggestions ==
         (if stored.Some? && (response.isSuccess || response.message.Some?) then s.currentSuggestions + ss
          else s.currentSuggestions)
      && t.userInput == s.userInput && t.currentPage == s.currentPage
  {
    if response.isSuccess {
      StreamedReplyOutcome(s, response, stored, blockId, ss);
    } else {
      FailedReplyOutcome(s, response, stored, blockId, ss);
    }
  }

  lemma StreamedReplyOutcome(s: State, response: ChatResponse, stored: Option<Chat>, blockId: nat, ss: seq<string>)
    requires response.isSuccess
    ensures var t := Run(s, FollowUps(response, stored, blockId, ss));
      t == s.(isLoading := false, isStreaming := stored.None?,
              messages := s.messages + [StreamBlock(blockId, response.conversationId)],
              currentSuggestions := if stored.Some? then s.currentSuggestions + ss else s.currentSuggestions)
  {
    var block := StreamBlock(blockId, response.conversationId);
    var head := [SetLoading(false), SetStreaming(true), AddMessage(block)];
    StreamedHead(s, block);
    var h := s.(isLoading := false, isStreaming := true, messages := s.messages + [block]);
    if stored.Some? {
      var tail := [SetStreaming(false)] + AddSuggestions(ss);
      assert FollowUps(response, stored, blockId, ss) == head + tail;
      RunAppend(s, head, tail);
      StreamedTail(h, ss);
    } else {
      assert FollowUps(response, stored, blockId, ss) == head;
    }
  }

  /** The follow-ups of a found record: streaming off, then the chips. */
  lemma StreamedTail(h: State, ss: seq<string>)
    ensures Run(h, [SetStreaming(false)] + AddSuggestions(ss))
         == h.(isStreaming := false, currentSuggestions := h.currentSuggestions + ss)
  {
    RunAppend(h, [SetStreaming(false)], AddSuggestions(ss));
    RunTwo(h, SetStreaming(false), SetStreaming(false));
    RunAddSuggestions(h.(isStreaming := false), ss);
  }

  /** The first three follow-ups of a successful reply: loading off, streaming on, the block shown. */
  lemma StreamedHead(s: State, block: MessageBlock)
    ensures Run(s, [SetLoading(false), SetStreaming(true), AddMessage(block)])
         == s.(isLoading := false, isStreaming := true, messages := s.messages + [block])
  {
    RunThree(s, SetLoading(false), SetStreaming(true), AddMessage(block));
  }

  lemma FailedReplyOutcome(s: State, response: ChatResponse, stored: Option<Chat>, blockId: nat, ss: seq<string>)
    requires !response.isSuccess
    ensures var t := Run(s, FollowUps(response, stored, blockId, ss));
      t == s.(isLoading := false, messages := s.messages + ReplyBlocks(response, stored, blockId),
              currentSuggestions := if stored.Some? && response.message.Some? then s.currentSuggestions + ss
                                    else s.currentSuggestions)
  {
    if response.message.None? || stored.None? {
      RunTwo(s, SetLoading(false), SetLoading(false));
    } else {
      FailureTextOutcome(s, TextBlock(blockId, Ai, [response.message.value, stored.value.reply]), ss);
    }
  }

  /** A failure whose texts are shown: loading off, the block appended, then the chips. */
  lemma FailureTextOutcome(s: State, block: MessageBlock, ss: seq<string>)
    ensures Run(s, [SetLoading(false), AddMessage(block)] + AddSuggestions(ss))
      == s.(isLoading := false, messages := s.messages + [block], currentSuggestions := s.currentSuggestions + ss)
  {
    var head := [SetLoading(false), AddMessage(block)];
    RunTwo(s, head[0], head[1]);
    RunAppend(s, head, AddSuggestions(ss));
    RunAddSuggestions(Run(s, head), ss);
  }

  /** Runs of one, two and three actions, unfolded. */
  lemma RunTwo(s: State, a: Action, b: Action)
    ensures Run(s, [a]) == Step(s, a, 0).state
    ensures Run(s, [a, b]) == Step(Step(s, a, 0).state, b, 0).state
  {
    assert [a][..0] == [];
    assert [a, b][..1] == [a];
  }

  lemma RunThree(s: State, a: Action, b: Action, c: Action)
    ensures Run(s, [a, b, c]) == Step(Step(Step(s, a, 0).state, b, 0).state, c, 0).state
  {
    RunTwo(s, a, b);
    assert [a, b, c][..2] == [a, b];
  }

  /** No state along a reply's follow-ups is loading and streaming at once. */
  lemma NeverLoadingWhileStreaming(s: State, response: ChatResponse, stored: Option<Chat>, blockId: nat, ss: seq<string>)
    requires !s.isStreaming
    ensures var f := FollowUps(response, stored, blockId, ss);
      forall k | 0 <= k <= |f| :: !(Run(s, f[..k]).isLoading && Run(s, f[..k]).isStreaming)
  {
    var f := FollowUps(response, stored, blockId, ss);
    assert f[0] == SetLoading(false);
    forall k | 0 <= k <= |f| ensures !(Run(s, f[..k]).isLoading && Run(s, f[..k]).isStreaming) {
      if k == 0 {
        assert f[..k] == [];
      } else {
        LoadingStaysOff(s, f, k);
      }
    }
  }

  /** After a leading `setLoading(false)`, actions that never set loading keep it off. */
  lemma {:induction false} LoadingStaysOff(s: State, f: seq<Action>, k: nat)
    requires 1 <= k <= |f| && f[0] == SetLoading(false)
    requires forall i | 1 <= i < |f| :: !f[i].SetLoading? && !f[i].SendMessage?
    ensures !Run(s, f[..k]).isLoading
    decreases k
  {
    if k == 1 {
      assert f[..1][..0] == [];
    } else {
      LoadingStaysOff(s, f, k - 1);
      assert f[..k][..k - 1] == f[..k - 1];
      StepKeepsLoading(Run(s, f[..k - 1]), f[k - 1]);
    }
  }

  /** Only `setLoading` and `sendMessage` change the loading flag. */
  lemma StepKeepsLoading(t: State, a: Action)
    requires !a.SetLoading? && !a.SendMessage?
    ensures Step(t, a, 0).state.isLoading == t.isLoading
  {
  }

  /**
   * A send from a sendable state, followed by whatever the reply task dispatches, never holds
   * both flags, shows at most three suggestions at the end, and leaves the input cleared.
   */
  lemma SendFlow(s: State, response: ChatResponse, stored: Option<Chat>, blockId: nat, pick: nat)
    requires CanSend(s)
    ensures var input := Trim(s.userInput);
      var t := Step(Step(s, OnSend, 0).state, SendMessage(input), 0).state;
      var f := ReplyFollowUps(input, response, stored, blockId, pick);
      t.isLoading && !t.isStreaming && t.userInput == []
      && (forall k | 0 <= k <= |f| :: !(Run(t, f[..k]).isLoading && Run(t, f[..k]).isStreaming))
      && |Run(t, f).currentSuggestions| <= 3 && Run(t, f).userInput == []
  {
    var input := Trim(s.userInput);
    var t := Step(Step(s, OnSend, 0).state, SendMessage(input), 0).state;
    SendLeavesLoading(s);
    var ss := Take(SuggestionsFor(input, pick), 3);
    NeverLoadingWhileStreaming(t, response, stored, blockId, ss);
    ReplyOutcome(t, response, stored, blockId, ss);
  }

  lemma SendLeavesLoading(s: State)
    requires CanSend(s)
    ensures var t := Step(Step(s, OnSend, 0).state, SendMessage(Trim(s.userInput)), 0).state;
      t.isLoading && !t.isStreaming && t.userInput == [] && t.currentSuggestions == []
  {
  }

  // ---------------------------------------------------------------------------
  // Reducer properties

  /** `onSend` does nothing exactly when sending is not allowed; otherwise it clears the input and sends it trimmed. */
  lemma OnSendGatedByCanSend(s: State, pick: nat)
    ensures Step(s, OnSend, pick) == Transition(s, NoEffect) <==> !CanSend(s)
    ensures CanSend(s) ==>
      Step(s, OnSend, pick) == Transition(s.(userInput := ""), SendAction(SendMessage(Trim(s.userInput))))
  {
    TrimEmpty();
  }

  /** A tapped suggestion is sent as typed, unless a reply is loading or streaming. */
  lemma SuggestionTappedGuard(s: State, tapped: string, pick: nat)
    ensures Step(s, SuggestionTapped(tapped), pick).state == s
    ensures Step(s, SuggestionTapped(tapped), pick).effect ==
      if s.isLoading || s.isStreaming then NoEffect else SendAction(SendMessage(tapped))
  {
  }

  /**
   * Sending appends exactly one user block holding the text, marks the session loading, clears
   * the suggestions, and starts the reply task for that text.
   */
  lemma SendMessageAppendsOneBlock(s: State, text: string, pick: nat)
    ensures var t := Step(s, SendMessage(text), pick);
      t.effect == RunGenerate(text)
      && |t.state.messages| == |s.messages| + 1
      && t.state.messages[..|s.messages|] == s.messages
      && t.state.messages[|s.messages|].sender == User
      && t.state.messages[|s.messages|].messages == [Message(TextMessage(text))]
      && t.state.isLoading && t.state.currentSuggestions == []
      && t.state.isStreaming == s.isStreaming && t.state.userInput == s.userInput
  {
  }

  /** The welcome block and its suggestions are added once: a second `onAppear` changes nothing. */
  lemma OnAppearIdempotent(s: State, p: nat, q: nat)
    ensures var t := Step(s, OnAppear, p).state;
      Step(t, OnAppear, q).state == t && t.messages != []
      && (s.messages == [] ==>
            t.messages == [TextBlock(s.nextId, Ai, [WelcomeMessage])] && t.currentSuggestions in KeywordToSuggestions.Values)
  {
  }

  /** Loading history puts the pairs before what is shown and moves to the next page. */
  lemma LoadedHistoryPrecedes(s: State, chats: seq<Chat>, pick: nat)
    ensures var t := Step(s, LoadMessagesResponse(chats), pick).state;
      |t.messages| == 2 * |chats| + |s.messages|
      && t.messages[2 * |chats|..] == s.messages
      && (forall i | 0 <= i < |chats| ::
           t.messages[2 * i].sender == User && t.messages[2 * i].messages == [Message(TextMessage(chats[i].query))]
           && t.messages[2 * i + 1].sender == Ai && |t.messages[2 * i + 1].messages| == |ReplyTexts(chats[i])|)
      && t.currentPage == s.currentPage + 1
  {
    HistoryBlocksPairUp(chats, s.nextId);
  }

  // ---------------------------------------------------------------------------
  // The reducer holding its state in place

  class ChatSession {
    var messages: seq<MessageBlock>
    var currentSuggestions: seq<string>
    var isStreaming: bool
    var isLoading: bool
    var userInput: string
    var currentPage: int
    var typingIndicatorVisible: bool
    var nextId: nat

    function Snapshot(): State
      reads this
    {
      State(messages, currentSuggestions, isStreaming, isLoading, userInput, currentPage, typingIndicatorVisible, nextId)
    }

    constructor ()
      ensures Snapshot() == Initial
    {
      messages := [];
      currentSuggestions := [];
      isStreaming := false;
      isLoading := false;
      userInput := "";
      currentPage := 1;
      typingIndicatorVisible := false;
      nextId := 0;
    }

    /** One reducer case, applied to the fields. */
    method Reduce(a: Action, pick: nat) returns (effect: Effect)
      modifies this
      ensures Snapshot() == Step(old(Snapshot()), a, pick).state
      ensures effect == Step(old(Snapshot()), a, pick).effect
    {
      if a.OnAppear? || a.SendMessage? || a.AddMessage? || a.LoadMessagesResponse? {
        effect := ReduceBlocks(a, pick);
      } else {
        effect := ReduceFields(a);
      }
    }

    /** The cases that add message blocks. */
    method ReduceBlocks(a: Action, pick: nat) returns (effect: Effect)
      requires a.OnAppear? || a.SendMessage? || a.AddMessage? || a.LoadMessagesResponse?
      modifies this
      ensures Snapshot() == Step(old(Snapshot()), a, pick).state
      ensures effect == Step(old(Snapshot()), a, pick).effect
    {
      if a.SendMessage? || a.LoadMessagesResponse? {
        effect := ReduceExchange(a);
      } else {
        effect := NoEffect;
        match a
        case OnAppear =>
          if messages == [] {
            messages := messages + [TextBlock(nextId, Ai, [WelcomeMessage])];
            currentSuggestions := WelcomeSuggestions(pick);
            nextId := nextId + 1;
          }
        case AddMessage(block) =>
          messages := messages + [block];
      }
    }

    /** The cases that add the blocks of a sent message or of a loaded page of history. */
    method ReduceExchange(a: Action) returns (effect: Effect)
      requires a.SendMessage? || a.LoadMessagesResponse?
      modifies this
      ensures Snapshot() == Step(old(Snapshot()), a, 0).state
      ensures effect == Step(old(Snapshot()), a, 0).effect
    {
      effect := NoEffect;
      match a
      case SendMessage(input) =>
        messages := messages + [TextBlock(nextId, User, [input])];
        nextId := nextId + 1;
        isLoading := true;
        currentSuggestions := [];
        effect := RunGenerate(input);
      case LoadMessagesResponse(conversations) =>
        var newMessages := BuildHistory(conversations, nextId);
        messages := newMessages + messages;
        currentPage := currentPage + 1;
        nextId := nextId + 2 * |conversations|;
    }

    /** The cases that set a flag, the input or the chips, or only send an effect. */
    method ReduceFields(a: Action) returns (effect: Effect)
      requires !(a.OnAppear? || a.SendMessage? || a.AddMessage? || a.LoadMessagesResponse?)
      modifies this
      ensures Snapshot() == Step(old(Snapshot()), a, 0).state
      ensures effect == Step(old(Snapshot()), a, 0).effect
    {
      if a.UserInputChanged? || a.OnSend? || a.SuggestionTapped? || a.LoadMessages? {
        effect := ReduceInput(a);
      } else {
        effect := NoEffect;
        ReduceFlags(a);
      }
    }

    /** The cases that read the input or the flags and may send an effect. */
    method ReduceInput(a: Action) returns (effect: Effect)
      requires a.UserInputChanged? || a.OnSend? || a.SuggestionTapped? || a.LoadMessages?
      modifies this
      ensures Snapshot() == Step(old(Snapshot()), a, 0).state
      ensures effect == Step(old(Snapshot()), a, 0).effect
    {
      effect := NoEffect;
      match a
      case UserInputChanged(input) =>
        userInput := input;
      case OnSend =>
        if Trim(userInput) != [] && !isLoading && !isStreaming {
          var input := Trim(userInput);
          userInput := "";
          effect := SendAction(SendMessage(input));
        }
      case SuggestionTapped(tapped) =>
        if !isLoading && !isStreaming {
          effect := SendAction(SendMessage(tapped));
        }
      case LoadMessages =>
        effect := RunFetch(currentPage);
    }

    /** The cases that only set a flag or the chips. */
    method ReduceFlags(a: Action)
      requires a.SetLoading? || a.SetStreaming? || a.HideTypingIndicator? || a.AddSuggestion? || a.ClearSuggestions?
      modifies this
      ensures Snapshot() == Step(old(Snapshot()), a, 0).state
      ensures Step(old(Snapshot()), a, 0).effect == NoEffect
    {
      match a
      case SetLoading(loading) =>
        isLoading := loading;
      case SetStreaming(streaming) =>
        isStreaming := streaming;
      case HideTypingIndicator =>
        typingIndicatorVisible := false;
      case AddSuggestion(suggestion) =>
        currentSuggestions := currentSuggestions + [suggestion];
      case ClearSuggestions =>
        currentSuggestions := [];
    }

    /** The loop of `loadMessagesResponse`: a user block and an AI block per exchange. */
    static method BuildHistory(conversations: seq<Chat>, firstId: nat) returns (newMessages: seq<MessageBlock>)
      ensures newMessages == HistoryBlocks(conversations, firstId)
    {
      newMessages := [];
      var i := 0;
      while i < |conversations|
        invariant 0 <= i <= |conversations|
        invariant newMessages == HistoryBlocks(conversations[..i], firstId)
      {
        var conversation := conversations[i];
        newMessages := newMessages + [TextBlock(firstId + 2 * i, User, [conversation.query])];
        var aiContent: seq<string> := [];
        if conversation.responseMessage.Some? {
          aiContent := aiContent + [conversation.responseMessage.value];
        }
        aiContent := aiContent + [conversation.reply];
        assert aiContent == ReplyTexts(conversation);
        newMessages := newMessages + [TextBlock(firstId + 2 * i + 1, Ai, aiContent)];
        assert conversations[..i + 1][..i] == conversations[..i];
        i := i + 1;
      }
      assert conversations[..i] == conversations;
    }

    /** Dispatch the actions in order. */
    method Dispatch(actions: seq<Action>)
      modifies this
      ensures Snapshot() == Run(old(Snapshot()), actions)
    {
      var i := 0;
      while i < |actions|
        invariant 0 <= i <= |actions|
        invariant Snapshot() == Run(old(Snapshot()), actions[..i])
      {
        var _ := Reduce(actions[i], 0);
        assert actions[..i + 1][..i] == actions[..i];
        i := i + 1;
      }
      assert actions[..i] == actions;
    }

    /**
     * `sendMessage`'s task: ask the service, then dispatch the follow-ups for its answer, the
     * record looked up by the answer's id standing for what the streamer and the failure path find.
     */
    method RunReply(service: ChatService, input: string, id: nat, today: int, pick: nat, encodable: bool, blockId: nat)
      returns (ghost conversation: Chat)
      modifies this, service.store
      ensures IsOutcome(input, conversation, id, today)
      ensures encodable ==> service.store.chats == SavedChats(old(service.store.chats), conversation, today)
      ensures !encodable ==> service.store.chats == old(service.store.chats)
      ensures Snapshot() == Run(old(Snapshot()),
        ReplyFollowUps(input, ResponseOf(conversation), service.GetMessage(conversation.id), blockId, pick))
      ensures encodable && (forall i | 0 <= i < |old(service.store.chats)| :: old(service.store.chats)[i].id != id) ==>
        service.GetMessage(conversation.id) == Some(conversation)
    {
      var response, stored;
      response, stored, conversation := Respond(service, input, id, today, pick, encodable);
      Dispatch(ReplyFollowUps(input, response, stored, blockId, pick));
    }

    /** The service's side of a reply: generate and save the record, then look it up again. */
    static method Respond(service: ChatService, input: string, id: nat, today: int, pick: nat, encodable: bool)
      returns (response: ChatResponse, stored: Option<Chat>, ghost conversation: Chat)
      modifies service.store
      ensures IsOutcome(input, conversation, id, today)
      ensures response == ResponseOf(conversation) && stored == service.GetMessage(conversation.id)
      ensures encodable ==> service.store.chats == SavedChats(old(service.store.chats), conversation, today)
      ensures !encodable ==> service.store.chats == old(service.store.chats)
      ensures encodable && (forall i | 0 <= i < |old(service.store.chats)| :: old(service.store.chats)[i].id != id) ==>
        stored == Some(conversation)
    {
      response, conversation := service.Generate(input, id, today, pick, encodable);
      if encodable && (forall i | 0 <= i < |old(service.store.chats)| :: old(service.store.chats)[i].id != id) {
        SavedRecordIsFound(old(service.store.chats), conversation, today);
      }
      stored := service.GetMessage(response.conversationId);
    }

    /** `loadMessages`' task: fetch the current page and dispatch what came back. */
    method RunLoad(service: ChatService)
      modifies this, service`lastFetchedStartIndex
      ensures var f := FetchPage(|service.store.chats|, old(service.lastFetchedStartIndex), old(currentPage));
        service.lastFetchedStartIndex == f.cursor
        && (f.window.None? ==> Snapshot() == old(Snapshot()))
        && (f.window.Some? ==>
             Snapshot() == Run(old(Snapshot()),
               [LoadMessagesResponse(service.store.chats[f.window.value.first..f.window.value.last + 1])]))
    {
      var fetched := service.GetMessages(currentPage);
      Dispatch(FetchFollowUps(fetched));
    }
  }
}
