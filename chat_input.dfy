/**
 * The chat input field: the colour of its character counter, the 500-Character cap applied
 * on every edit, and the send button, which only ever dispatches a send that goes through.
 */
module ChatInputModel {
  import opened Wrappers
  import opened Text
  import opened ChatStoreModel

  datatype CounterColor = Green | Orange | Red

  /** `characterCountColor`: the colour band of a Character count. */
  function CharacterCountColor(count: nat): (c: CounterColor)
    ensures c == Green <==> count < 400
    ensures c == Orange <==> 400 <= count < 500
    ensures c == Red <==> count >= 500
  {
    if count < 400 then Green else if count < 500 then Orange else Red
  }

  /** The counter turns red exactly when the session reports the input at its limit. */
  lemma RedMeansAtLimit(s: State)
    ensures CharacterCountColor(CharCount(s.userInput)) == Red <==> IsAtCharacterLimit(s)
    ensures IsNearCharacterLimit(s) ==> CharacterCountColor(CharCount(s.userInput)) != Green
  {
  }

  /** The text the field holds after an edit to `newText`: the edit, cut to 500 Characters when longer. */
  function Limited(newText: string): (r: string)
    ensures CharCount(r) <= 500
    ensures CharCount(newText) <= 500 ==> r == newText
    ensures CharCount(newText) > 500 ==> CharCount(r) == 500 && |r| <= |newText| && r == newText[..|r|]
  {
    if CharCount(newText) > 500 then CharPrefix(newText, 500) else newText
  }

  /** Cutting is idempotent: an edit that leaves the text as it is changes nothing more. */
  lemma LimitedIdempotent(t: string)
    ensures Limited(Limited(t)) == Limited(t)
  {
  }

  /** What tapping the send button dispatches: `onSend`, only when sending is allowed (the button is hidden otherwise). */
  function SendTapped(s: State): (r: Option<Action>)
    ensures r.Some? <==> CanSend(s)
    ensures r.Some? ==> r.value == OnSend
  {
    if CanSend(s) then Some(OnSend) else None
  }

  /** Every send the button dispatches reaches `sendMessage`: the reducer's own guard never stops it. */
  lemma ButtonSendsGoThrough(s: State, pick: nat)
    requires SendTapped(s).Some?
    ensures Step(s, SendTapped(s).value, pick).effect == SendAction(SendMessage(Trim(s.userInput)))
  {
    OnSendGatedByCanSend(s, pick);
  }

  class ChatInputField {
    /** The bound text (`@Binding var text`). */
    var text: string

    constructor (text: string)
      ensures this.text == text
    {
      this.text := text;
    }

    /** `limitInputText(for:)`: replace the text with the first 500 Characters of the edit when it is longer. */
    method LimitInputText(newText: string)
      modifies this
      ensures CharCount(old(text)) > 500 ==> text == CharPrefix(newText, 500)
      ensures CharCount(old(text)) <= 500 ==> text == old(text)
    {
      if CharCount(text) > 500 {
        text := CharPrefix(newText, 500);
      }
    }

    /** An edit: the binding takes the new text, then `onChange(of: text)` caps it. */
    method Edit(newText: string)
      modifies this
      ensures text == Limited(newText) && CharCount(text) <= 500
    {
      text := newText;
      LimitInputText(newText);
    }
  }
}
