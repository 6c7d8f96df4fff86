/**
 * The chat service: it pages through the day's history with a stored cursor, and it answers
 * an input by classifying it, picking a reply and saving exactly one record.
 */
module ChatServiceModel {
  import opened Wrappers
  import opened Seqs
  import opened Text
  import opened ChatApi
  import opened Classifier
  import opened ChatStorageModel

  // ---------------------------------------------------------------------------
  // Paging (`getMessages(page:)`)

  /** The inclusive index range `first...last` of `chats` that one fetch serves. */
  datatype Window = Window(first: nat, last: nat)

  /** The result of one fetch: the window served, if any, and the cursor afterwards. */
  datatype Fetched = Fetched(window: Option<Window>, cursor: Option<int>)

  /** `max(0, x)`. */
  function Clamp0(x: int): nat {
    if x < 0 then 0 else x
  }

  /**
   * One fetch of `page` from a store of `total` records, with the cursor `lastFetchedStartIndex`.
   * Page 1 is the newest ten records, counted back from the end.
   */
  function FetchPage(total: nat, cursor: Option<int>, page: int): (f: Fetched)
    ensures !(0 < page <= Pages(total)) ==> f == Fetched(None, cursor)
    ensures f.window.Some? ==>
      var w := f.window.value;
      w.last == total - (page - 1) * 10 - 1 && w.first == Clamp0(w.last - 9)
      && w.first <= w.last < total && w.last - w.first < 10
      && f.cursor == Some(w.first) && (cursor.None? || cursor.value > w.first)
    ensures (0 < page <= Pages(total) && total - (page - 1) * 10 - 1 >= 0
             && (cursor.None? || cursor.value > Clamp0(total - (page - 1) * 10 - 10))) ==> f.window.Some?
    ensures f.window.None? ==> f.cursor == cursor || f.cursor == Some(0)
  {
    if !(page > 0 && page <= Pages(total)) then Fetched(None, cursor)
    else
      var offset := (page - 1) * 10;
      var lastIndex := total - offset - 1;
      if lastIndex < 0 then Fetched(None, Some(0))
      else
        var firstIndex := if lastIndex - 9 < 0 then 0 else lastIndex - 9;
        match cursor
        case None => Fetched(Some(Window(firstIndex, lastIndex)), Some(firstIndex))
        case Some(c) =>
          if c > firstIndex then Fetched(Some(Window(firstIndex, lastIndex)), Some(firstIndex))
          else Fetched(None, cursor)
  }

  /** Once the cursor is 0 no fetch serves anything again: every window starts at 0 or later. */
  lemma CursorZeroIsFinal(total: nat, page: int)
    ensures FetchPage(total, Some(0), page) == Fetched(None, Some(0))
  {
  }

  /** One fetch request: the store size at the time and the page asked for. */
  datatype Request = Request(total: nat, page: int)

  /** The windows served by a run of fetches starting from `cursor`. */
  function Serve(cursor: Option<int>, requests: seq<Request>): seq<Window>
    decreases |requests|
  {
    if requests == [] then []
    else
      var f := FetchPage(requests[0].total, cursor, requests[0].page);
      (if f.window.Some? then [f.window.value] else []) + Serve(f.cursor, requests[1..])
  }

  /** Windows whose start indices strictly decrease. */
  predicate Descending(ws: seq<Window>) {
    forall i, j | 0 <= i < j < |ws| :: ws[j].first < ws[i].first
  }

  /** Windows that all start below `bound`. */
  predicate AllBelow(ws: seq<Window>, bound: int) {
    forall i | 0 <= i < |ws| :: ws[i].first < bound
  }

  lemma ConsDescending(w: Window, rest: seq<Window>)
    requires Descending(rest) && AllBelow(rest, w.first)
    ensures Descending([w] + rest)
  {
    var ws := [w] + rest;
    forall i, j | 0 <= i < j < |ws| ensures ws[j].first < ws[i].first {
      assert ws[j] == rest[j - 1];
      if i > 0 {
        assert ws[i] == rest[i - 1];
      }
    }
  }

  lemma ConsBelow(w: Window, rest: seq<Window>, bound: int)
    requires w.first < bound && AllBelow(rest, w.first)
    ensures AllBelow([w] + rest, bound)
  {
  }

  /** From cursor 0 no run of fetches serves anything. */
  lemma {:induction false} ServeFromZero(requests: seq<Request>)
    ensures Serve(Some(0), requests) == []
    decreases |requests|
  {
    if requests != [] {
      CursorZeroIsFinal(requests[0].total, requests[0].page);
      ServeFromZero(requests[1..]);
    }
  }

  /** The served windows descend, each below the cursor they started from. */
  lemma {:induction false} ServedDescending(cursor: Option<int>, requests: seq<Request>)
    ensures Descending(Serve(cursor, requests))
    ensures cursor.Some? ==> AllBelow(Serve(cursor, requests), cursor.value)
    decreases |requests|
  {
    if requests != [] {
      var f := FetchPage(requests[0].total, cursor, requests[0].page);
      ServedDescending(f.cursor, requests[1..]);
      var rest := Serve(f.cursor, requests[1..]);
      if f.window.Some? {
        var w := f.window.value;
        assert f.cursor == Some(w.first);
        assert AllBelow(rest, w.first);
        assert Serve(cursor, requests) == [w] + rest;
        ConsDescending(w, rest);
        if cursor.Some? {
          ConsBelow(w, rest, cursor.value);
        }
      } else {
        assert Serve(cursor, requests) == rest;
        if f.cursor == Some(0) {
          ServeFromZero(requests[1..]);
        }
      }
    }
  }

  /**
   * However the store grows between fetches, the served windows start at strictly decreasing
   * indices, below the starting cursor, so no window is served twice.
   */
  lemma ServedWindowsDescend(cursor: Option<int>, requests: seq<Request>)
    ensures var ws := Serve(cursor, requests);
      (forall i, j | 0 <= i < j < |ws| :: ws[j].first < ws[i].first)
      && (forall i, j | 0 <= i < j < |ws| :: ws[i] != ws[j])
      && (cursor.Some? ==> forall i | 0 <= i < |ws| :: ws[i].first < cursor.value)
      && (cursor == Some(0) ==> ws == [])
  {
    ServedDescending(cursor, requests);
    if cursor == Some(0) {
      ServeFromZero(requests);
    }
  }

  /** Twenty-five records come back as pages 15...24, 5...14 and 0...4; page 4 does not exist. */
  lemma TwentyFiveRecords()
    ensures FetchPage(25, None, 1) == Fetched(Some(Window(15, 24)), Some(15))
    ensures FetchPage(25, Some(15), 2) == Fetched(Some(Window(5, 14)), Some(5))
    ensures FetchPage(25, Some(5), 3) == Fetched(Some(Window(0, 4)), Some(0))
    ensures FetchPage(25, Some(0), 4) == Fetched(None, Some(0))
  {
  }

  /**
   * Records saved between two fetches shift the pages: after page 1 of 25 records and five new
   * saves, page 2 is 10...19 and serves records 15...19 a second time.
   */
  lemma GrowingStoreRepeatsRecords()
    ensures FetchPage(25, None, 1).window == Some(Window(15, 24))
    ensures FetchPage(30, Some(15), 2).window == Some(Window(10, 19))
  {
  }

  /** Ten records fill page 1 and leave an empty page 2, whose fetch resets the cursor to 0. */
  lemma TenRecords()
    ensures FetchPage(10, None, 1) == Fetched(Some(Window(0, 9)), Some(0))
    ensures FetchPage(10, None, 2) == Fetched(None, Some(0))
  {
  }

  /** `getMessage`: the first record with the id. */
  function FirstWithId(chats: seq<Chat>, id: nat): (r: Option<Chat>)
    ensures r.Some? ==> exists i | 0 <= i < |chats| ::
      chats[i] == r.value && r.value.id == id && forall j | 0 <= j < i :: chats[j].id != id
    ensures r.None? <==> forall i | 0 <= i < |chats| :: chats[i].id != id
    decreases |chats|
  {
    if chats == [] then None
    else if chats[0].id == id then Some(chats[0])
    else
      var r := FirstWithId(chats[1..], id);
      assert r.Some? ==> exists i | 0 <= i < |chats[1..]| ::
        chats[1..][i] == r.value && r.value.id == id && forall j | 0 <= j < i :: chats[1..][j].id != id;
      assert forall i | 0 <= i < |chats[1..]| :: chats[1..][i] == chats[i + 1];
      r
  }

  /** After a save with a fresh id, looking the id up finds exactly the record just saved. */
  lemma SavedRecordIsFound(chats: seq<Chat>, chat: Chat, today: int)
    requires forall i | 0 <= i < |chats| :: chats[i].id != chat.id
    ensures FirstWithId(SavedChats(chats, chat, today), chat.id) == Some(chat)
  {
    var saved := SavedChats(chats, chat, today);
    var r := FirstWithId(saved, chat.id);
    assert saved[|saved| - 1].id == chat.id;
    var i :| 0 <= i < |saved| && saved[i] == r.value && r.value.id == chat.id
      && forall j | 0 <= j < i :: saved[j].id != chat.id;
  }

  // ---------------------------------------------------------------------------
  // Answering (`generate(for:)`)

  /** The keyword groups with a keyword found in the lowercased text. */
  function MatchingGroups(lowered: string): (gs: set<set<string>>)
    ensures gs <= KeywordToResponses.Keys
  {
    set g | g in KeywordToResponses.Keys && GroupMatches(g, lowered)
  }

  /**
   * The records `generate` may save for `input`: refused input gets a fallback suggestion
   * with the out-of-scope message; matched input gets a reply of some matching group; the
   * rest gets a fallback suggestion with the fallback message. The query is the input as typed.
   */
  predicate IsOutcome(input: string, c: Chat, id: nat, today: int) {
    var trimmed := Trim(input);
    var lowered := Lower(trimmed);
    c.id == id && c.query == input && c.day == today
    && if !Accepted(trimmed) then
      !c.isSuccess && c.responseMessage == Some(OutOfScopeMessage) && c.reply in FallbackSuggestions
    else if MatchingGroups(lowered) != {} then
      c.isSuccess && c.responseMessage.None?
      && exists g | g in MatchingGroups(lowered) :: c.reply in KeywordToResponses[g]
    else
      !c.isSuccess && c.responseMessage == Some(FallbackMessage) && c.reply in FallbackSuggestions
  }

  /** The response handed back for a saved record. */
  function ResponseOf(c: Chat): (r: ChatResponse)
    ensures r.isSuccess == c.isSuccess && r.conversationId == c.id && r.message == c.responseMessage
  {
    ChatResponse(c.isSuccess, c.id, c.responseMessage)
  }

  /** Everything but the reply text is decided by the input: the group choice only changes the reply. */
  lemma OutcomeDeterminedUpToReply(input: string, c1: Chat, c2: Chat, id: nat, today: int)
    requires IsOutcome(input, c1, id, today) && IsOutcome(input, c2, id, today)
    ensures ResponseOf(c1) == ResponseOf(c2)
    ensures c1 == c2.(reply := c1.reply)
  {
  }

  /** An accepted input may be answered with any reply of any matching group. */
  lemma ReplyFromAnyMatchingGroup(input: string, g: set<string>, reply: string, id: nat, today: int)
    requires Accepted(Trim(input)) && g in MatchingGroups(Lower(Trim(input)))
    requires reply in KeywordToResponses[g]
    ensures IsOutcome(input, Chat(id, input, reply, None, true, today), id, today)
  {
  }

  /** The record `generate(for:)` builds before saving it: the validation chain, then keyword dispatch. */
  method Answer(userInput: string, id: nat, today: int, pick: nat) returns (chat: Chat)
    ensures IsOutcome(userInput, chat, id, today)
  {
    TableSizes();
    var trimmed := Trim(userInput);
    if !(ValidateGeneralText(trimmed) && !IsSpamMessage(trimmed)) {
      var reply := RandomElement(FallbackSuggestions, pick).value;
      chat := Chat(id, userInput, reply, Some(OutOfScopeMessage), false, today);
    } else {
      var lowered := Lower(trimmed);
      var matching := MatchingGroups(lowered);
      if matching != {} {
        var keywords :| keywords in matching;
        var reply := RandomElement(KeywordToResponses[keywords], pick).GetOr(FallbackMessage);
        chat := Chat(id, userInput, reply, None, true, today);
      } else {
        var reply := RandomElement(FallbackSuggestions, pick).value;
        chat := Chat(id, userInput, reply, Some(FallbackMessage), false, today);
      }
    }
  }

  class ChatService {
    const store: ChatStorage
    var lastFetchedStartIndex: Option<int>

    constructor (store: ChatStorage)
      ensures this.store == store && lastFetchedStartIndex.None?
    {
      this.store := store;
      lastFetchedStartIndex := None;
    }

    /** `getMessages(page:)`: serve the window `FetchPage` computes and move the cursor with it. */
    method GetMessages(page: int) returns (r: Option<seq<Chat>>)
      modifies this`lastFetchedStartIndex
      ensures var f := FetchPage(|store.chats|, old(lastFetchedStartIndex), page);
        lastFetchedStartIndex == f.cursor
        && (r.Some? <==> f.window.Some?)
        && (r.Some? ==> r.value == store.chats[f.window.value.first..f.window.value.last + 1])
    {
      if !(page > 0 && page <= store.TotalPages()) {
        return None;
      }
      var offset := (page - 1) * 10;
      var lastIndex := |store.chats| - offset - 1;
      if lastIndex < 0 {
        lastFetchedStartIndex := Some(0);
        return None;
      }
      var firstIndex := if lastIndex - 9 < 0 then 0 else lastIndex - 9;
      if lastFetchedStartIndex.None? {
        lastFetchedStartIndex := Some(firstIndex);
        return Some(store.chats[firstIndex..lastIndex + 1]);
      }
      if !(lastFetchedStartIndex.value > firstIndex) {
        return None;
      }
      lastFetchedStartIndex := Some(firstIndex);
      return Some(store.chats[firstIndex..lastIndex + 1]);
    }

    /** `getMessage(_:)`. */
    function GetMessage(id: nat): Option<Chat>
      reads store
    {
      FirstWithId(store.chats, id)
    }

    /**
     * `generate(for:)` without its delay: answer `userInput` with a record whose id is `id`,
     * dated `today`, save it, and hand back its response. `pick` stands for the random choices;
     * the group answered from is any matching one, as the tables' iteration order is unspecified.
     */
    method Generate(userInput: string, id: nat, today: int, pick: nat, encodable: bool)
      returns (response: ChatResponse, ghost conversation: Chat)
      modifies store
      ensures IsOutcome(userInput, conversation, id, today)
      ensures response == ResponseOf(conversation)
      ensures encodable ==> store.chats == SavedChats(old(store.chats), conversation, today)
      ensures encodable ==> store.defaults == SavedDefaults(old(store.defaults), store.chats, today)
      ensures !encodable ==> store.chats == old(store.chats) && store.defaults == old(store.defaults)
    {
      var chat := Answer(userInput, id, today, pick);
      store.Save(chat, today, encodable);
      response := ChatResponse(chat.isSuccess, chat.id, chat.responseMessage);
      conversation := chat;
    }
  }
}
