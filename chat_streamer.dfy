/**
 * The character streamer behind an AI reply bubble: it looks the conversation up once and
 * reveals its reply one Character at a time, then reports completion exactly once.
 */
module ChatStreamerModel {
  import opened Wrappers
  import opened Text
  import opened ChatApi
  import opened ChatServiceModel

  /** The text shown after `k` appends: the reply's first `k` Characters. */
  function Shown(reply: string, k: nat): (r: string)
    ensures |r| <= |reply| && r == reply[..|r|]
    ensures CharCount(r) == if k <= CharCount(reply) then k else CharCount(reply)
  {
    CharPrefix(reply, k)
  }

  /**
   * Each append adds exactly the next Character: the text after `k + 1` appends extends the
   * text after `k` by a non-empty run of scalars that forms one Character.
   */
  lemma {:induction false} EachAppendIsOneCharacter(reply: string, k: nat)
    requires k < CharCount(reply)
    ensures |Shown(reply, k)| < |Shown(reply, k + 1)|
    ensures Shown(reply, k) == Shown(reply, k + 1)[..|Shown(reply, k)|]
    ensures CharCount(Shown(reply, k + 1)) == CharCount(Shown(reply, k)) + 1
  {
    var a := Shown(reply, k);
    var b := Shown(reply, k + 1);
    if |b| <= |a| {
      StartsOfPrefix(reply, |a|, |b|);
      StartsOfPrefix(reply, |a|, |a|);
      StartsOfPrefix(reply, |b|, |b|);
      StartsMonotone(reply, |b|, |a|);
      assert false;
    }
  }

  /** Appending the next Character to the text after `k` appends gives the text after `k + 1`. */
  lemma AppendNext(start: string, reply: string, k: nat)
    requires k < CharCount(reply)
    ensures var a := Shown(reply, k); var b := Shown(reply, k + 1);
      |a| <= |b| && start + a + b[|a|..] == start + b
  {
    EachAppendIsOneCharacter(reply, k);
    var a := Shown(reply, k);
    var b := Shown(reply, k + 1);
    assert a + b[|a|..] == b;
  }

  /** After every Character has been appended the whole reply is shown. */
  lemma AllAppendsShowReply(reply: string)
    ensures Shown(reply, CharCount(reply)) == reply
  {
  }

  class ChatMessageStreamer {
    /** The revealed text (`@Published var result`). */
    var result: string
    /** Whether a streaming task is in flight (`streamingTask != nil`). */
    var streaming: bool
    /** How many times the completion closure has run. */
    var completions: nat

    /** `init(conversationId:completion:)`: start empty and stream the conversation's reply. */
    constructor (service: ChatService, id: nat)
      ensures service.GetMessage(id).None? ==> result == [] && completions == 0
      ensures service.GetMessage(id).Some? ==> result == service.GetMessage(id).value.reply && completions == 1
      ensures !streaming
    {
      result := [];
      streaming := false;
      completions := 0;
      new;
      var _ := Stream(service, id);
    }

    /**
     * `stream(for:)` without its delays: when the id is unknown nothing happens; otherwise the
     * reply is appended Character by Character, the task is cleared and completion runs once.
     * `shown` lists the text after each append.
     */
    method Stream(service: ChatService, id: nat) returns (ghost shown: seq<string>)
      modifies this
      ensures service.GetMessage(id).None? ==>
        result == old(result) && streaming == old(streaming) && completions == old(completions) && shown == []
      ensures service.GetMessage(id).Some? ==>
        var reply := service.GetMessage(id).value.reply;
        result == old(result) + reply && !streaming && completions == old(completions) + 1
        && |shown| == CharCount(reply)
        && forall k | 0 <= k < |shown| :: shown[k] == old(result) + Shown(reply, k + 1)
    {
      var response := service.GetMessage(id);
      if response.None? {
        return [];
      }
      var reply := response.value.reply;
      streaming := true;
      var start := result;
      var n := CharCount(reply);
      var k := 0;
      shown := [];
      while k < n
        invariant 0 <= k <= n
        invariant result == start + Shown(reply, k)
        invariant |shown| == k
        invariant streaming && completions == old(completions)
        invariant forall j | 0 <= j < k :: shown[j] == start + Shown(reply, j + 1)
      {
        AppendNext(start, reply, k);
        result := result + Shown(reply, k + 1)[|Shown(reply, k)|..];
        k := k + 1;
        shown := shown + [result];
      }
      AllAppendsShowReply(reply);
      streaming := false;
      completions := completions + 1;
    }
  }
}
