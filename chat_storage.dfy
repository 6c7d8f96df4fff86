/**
 * The day-scoped chat history. Records live in `chats` and are persisted under two keys of
 * a key-value store: the encoded records under "history" and the day of the last save
 * under "lastSavedOn". Only the current day's records are ever kept.
 */
module ChatStorageModel {
  import opened Wrappers
  import opened Seqs
  import opened ChatApi

  /** The bytes stored under "history": either they decode to records or they do not. */
  datatype HistoryData = EncodedChats(records: seq<Chat>) | Undecodable

  /**
   * A value of the key-value store: an ISO 8601 date string (given by the day it denotes),
   * any other string, or a data blob.
   */
  datatype Stored = IsoDate(day: int) | OtherText(text: string) | Blob(data: HistoryData)

  const HistoryKey: string := "history"
  const LastSavedOnKey: string := "lastSavedOn"

  /** `totalPages`: pages of ten, plus one; a count that is a multiple of ten gets an empty last page. */
  function Pages(total: nat): (p: nat)
    ensures p >= 1
    ensures (p - 1) * 10 <= total < p * 10
  {
    total / 10 + 1
  }

  /** The test `calendar.isDate(_, inSameDayAs: today)` on a record. */
  function OnDay(today: int): Chat -> bool {
    (c: Chat) => c.day == today
  }

  /** The day `lastSavedOn` parses to, if it holds an ISO 8601 string. */
  function SavedDay(defaults: map<string, Stored>): Option<int> {
    if LastSavedOnKey in defaults && defaults[LastSavedOnKey].IsoDate? then Some(defaults[LastSavedOnKey].day) else None
  }

  /** The records that decode from "history", if there are any. */
  function StoredRecords(defaults: map<string, Stored>): Option<seq<Chat>> {
    if HistoryKey in defaults && defaults[HistoryKey].Blob? && defaults[HistoryKey].data.EncodedChats?
    then Some(defaults[HistoryKey].data.records)
    else None
  }

  /** `loadChats`: the records `chats` holds after loading from `defaults` on day `today`. */
  function LoadedChats(defaults: map<string, Stored>, today: int): (r: seq<Chat>)
    ensures forall i | 0 <= i < |r| :: r[i].day == today
    ensures r != [] ==> SavedDay(defaults) == Some(today) && StoredRecords(defaults).Some?
    ensures SavedDay(defaults) == Some(today) && StoredRecords(defaults).Some? ==>
      r == Filter(StoredRecords(defaults).value, OnDay(today))
  {
    match SavedDay(defaults)
    case None => []
    case Some(day) =>
      if day != today then []
      else match StoredRecords(defaults)
        case None => []
        case Some(records) => Filter(records, OnDay(today))
  }

  /** `loadChats`' effect on the store: a save from another day removes both keys, nothing else is touched. */
  function LoadedDefaults(defaults: map<string, Stored>, today: int): (d: map<string, Stored>)
    ensures SavedDay(defaults).Some? && SavedDay(defaults).value != today ==>
      d == defaults - {HistoryKey, LastSavedOnKey}
    ensures !(SavedDay(defaults).Some? && SavedDay(defaults).value != today) ==> d == defaults
  {
    match SavedDay(defaults)
    case Some(day) => if day != today then defaults - {HistoryKey, LastSavedOnKey} else defaults
    case None => defaults
  }

  /** The records a successful save leaves: today's old records in order, then the new one. */
  function SavedChats(chats: seq<Chat>, chat: Chat, today: int): (r: seq<Chat>)
    ensures |r| >= 1 && r[|r| - 1] == chat
    ensures forall i | 0 <= i < |r| - 1 :: r[i].day == today && r[i] in chats
    ensures forall i | 0 <= i < |chats| :: chats[i].day == today ==> chats[i] in r
  {
    Filter(chats, OnDay(today)) + [chat]
  }

  /** The store after a successful save: both keys written. */
  function SavedDefaults(defaults: map<string, Stored>, records: seq<Chat>, today: int): (d: map<string, Stored>)
    ensures d.Keys == defaults.Keys + {HistoryKey, LastSavedOnKey}
    ensures StoredRecords(d) == Some(records) && SavedDay(d) == Some(today)
    ensures forall k | k in defaults && k != HistoryKey && k != LastSavedOnKey :: d[k] == defaults[k]
  {
    defaults[HistoryKey := Blob(EncodedChats(records))][LastSavedOnKey := IsoDate(today)]
  }

  class ChatStorage {
    var chats: seq<Chat>
    var defaults: map<string, Stored>

    /** `totalPages`. */
    function TotalPages(): (p: nat)
      reads this
      ensures p >= 1 && (p - 1) * 10 <= |chats| < p * 10
    {
      Pages(|chats|)
    }

    /** `init`, which runs `loadChats` against the persisted store on day `today`. */
    constructor (stored: map<string, Stored>, today: int)
      ensures chats == LoadedChats(stored, today)
      ensures defaults == LoadedDefaults(stored, today)
    {
      var day := SavedDay(stored);
      if day.None? {
        chats := [];
        defaults := stored;
      } else if day.value != today {
        defaults := stored - {HistoryKey, LastSavedOnKey};
        chats := [];
      } else {
        defaults := stored;
        var records := StoredRecords(stored);
        if records.None? {
          chats := [];
        } else {
          chats := Filter(records.value, OnDay(today));
        }
      }
    }

    /** `save`: keep today's records, append `chat`, and persist unless encoding fails. */
    method Save(chat: Chat, today: int, encodable: bool)
      modifies this
      ensures encodable ==> chats == SavedChats(old(chats), chat, today)
      ensures encodable ==> defaults == SavedDefaults(old(defaults), chats, today)
      ensures !encodable ==> chats == old(chats) && defaults == old(defaults)
    {
      var existing := Filter(chats, OnDay(today));
      existing := existing + [chat];
      if !encodable {
        return;
      }
      chats := existing;
      defaults := defaults[HistoryKey := Blob(EncodedChats(existing))];
      defaults := defaults[LastSavedOnKey := IsoDate(today)];
    }
  }

  /** A relaunch on the day of a save restores exactly the records the save left in memory. */
  lemma SaveThenLoad(defaults: map<string, Stored>, chats: seq<Chat>, chat: Chat, today: int)
    requires chat.day == today
    ensures var saved := SavedChats(chats, chat, today);
      var stored := SavedDefaults(defaults, saved, today);
      LoadedChats(stored, today) == saved && LoadedDefaults(stored, today) == stored
  {
    var saved := SavedChats(chats, chat, today);
    FilterAppend(Filter(chats, OnDay(today)), [chat], OnDay(today));
    FilterIdempotent(chats, OnDay(today));
    assert Filter([chat], OnDay(today)) == [chat] by {
      assert [chat][1..] == [];
    }
  }

  /** A relaunch on any later day finds nothing and removes both keys. */
  lemma LoadOnAnotherDay(defaults: map<string, Stored>, records: seq<Chat>, saveDay: int, today: int)
    requires saveDay != today
    ensures var stored := SavedDefaults(defaults, records, saveDay);
      LoadedChats(stored, today) == [] && HistoryKey !in LoadedDefaults(stored, today)
      && LastSavedOnKey !in LoadedDefaults(stored, today)
  {
  }

  /** A missing or unparseable "lastSavedOn" yields no records and leaves the store as it was. */
  lemma LoadWithoutSavedDay(defaults: map<string, Stored>, today: int)
    requires LastSavedOnKey !in defaults || defaults[LastSavedOnKey].OtherText? || defaults[LastSavedOnKey].Blob?
    ensures LoadedChats(defaults, today) == [] && LoadedDefaults(defaults, today) == defaults
  {
  }
}
