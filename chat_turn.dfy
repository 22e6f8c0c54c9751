/**
 * The chat page's turn accumulator as pure functions: the message list, the
 * id of the AI message the current turn streams into, and the typing
 * indicator, and how one received frame changes them (the `setMessages`
 * updaters of the WebSocket message handler).
 */
module ChatTurn {
  import opened Wire

  datatype Option<T> = None | Some(value: T)

  datatype Sender = User | Ai

  /** A chat bubble; its timestamp is not modelled. */
  datatype Message = Message(id: string, content: string, sender: Sender)

  /** The part of the page's state that received frames change. */
  datatype TurnState = TurnState(messages: seq<Message>, currentId: Option<string>, isTyping: bool)

  /**
   * The `prev.map(...)` updater: every message whose id is `id` gets `delta`
   * appended to its content; every other message is kept as it is.
   */
  function AppendDelta(messages: seq<Message>, id: string, delta: string): (r: seq<Message>)
    ensures |r| == |messages|
    ensures forall i :: 0 <= i < |messages| && messages[i].id != id ==> r[i] == messages[i]
    ensures forall i :: 0 <= i < |messages| && messages[i].id == id ==>
      r[i] == messages[i].(content := messages[i].content + delta)
  {
    if messages == [] then []
    else
      var m := messages[0];
      [if m.id == id then m.(content := m.content + delta) else m] + AppendDelta(messages[1..], id, delta)
  }

  /** Two deltas appended one after the other are one delta of both. */
  lemma {:induction false} AppendDeltaTwice(messages: seq<Message>, id: string, d1: string, d2: string)
    ensures AppendDelta(AppendDelta(messages, id, d1), id, d2) == AppendDelta(messages, id, d1 + d2)
  {
    if messages != [] {
      AppendDeltaTwice(messages[1..], id, d1, d2);
      assert AppendDelta(messages, id, d1)[1..] == AppendDelta(messages[1..], id, d1);
      assert messages[0].content + d1 + d2 == messages[0].content + (d1 + d2);
    }
  }

  /**
   * One received frame. A text delta sets the typing indicator; with no open
   * turn it appends a new AI message under the fresh id `freshId` and opens
   * the turn, otherwise it appends the delta to the open turn's message.
   * `turn_complete` closes the turn and clears the indicator; `interrupted`
   * clears the indicator but keeps the turn open. Audio and unknown frames
   * leave this state alone.
   */
  function OnFrame(s: TurnState, f: Frame, freshId: string): (r: TurnState)
    ensures f.TurnComplete? ==> r.messages == s.messages && r.currentId == None && !r.isTyping
    ensures f.Interrupted? ==> r.messages == s.messages && r.currentId == s.currentId && !r.isTyping
    ensures f.AudioPcm? || f.Unhandled? ==> r == s
    ensures f.TextPlain? ==> r.isTyping
    ensures f.TextPlain? && s.currentId == None ==>
      && |r.messages| == |s.messages| + 1
      && r.messages[..|s.messages|] == s.messages
      && r.messages[|s.messages|] == Message(freshId, f.delta, Ai)
      && r.currentId == Some(freshId)
    ensures f.TextPlain? && s.currentId.Some? ==>
      && |r.messages| == |s.messages|
      && r.currentId == s.currentId
      && (forall i :: 0 <= i < |s.messages| && s.messages[i].id != s.currentId.value ==>
            r.messages[i] == s.messages[i])
      && (forall i :: 0 <= i < |s.messages| && s.messages[i].id == s.currentId.value ==>
            && r.messages[i].id == s.messages[i].id
            && r.messages[i].sender == s.messages[i].sender
            && r.messages[i].content == s.messages[i].content + f.delta)
  {
    match f
    case TurnComplete => s.(currentId := None, isTyping := false)
    case Interrupted => s.(isTyping := false)
    case AudioPcm(_) => s
    case Unhandled => s
    case TextPlain(delta) =>
      if s.currentId == None then
        TurnState(s.messages + [Message(freshId, delta, Ai)], Some(freshId), true)
      else
        TurnState(AppendDelta(s.messages, s.currentId.value, delta), s.currentId, true)
  }

  /** Some message in the list carries `id`. */
  ghost predicate HasId(messages: seq<Message>, id: string) {
    exists i :: 0 <= i < |messages| && messages[i].id == id
  }

  /**
   * The accumulator's invariant: the typing indicator is only on while a turn
   * is open, and an open turn's id names a message in the list.
   */
  ghost predicate WellFormed(s: TurnState) {
    && (s.isTyping ==> s.currentId.Some?)
    && (s.currentId.Some? ==> HasId(s.messages, s.currentId.value))
  }

  /** Every frame keeps the invariant. */
  lemma OnFramePreservesWellFormed(s: TurnState, f: Frame, freshId: string)
    requires WellFormed(s)
    ensures WellFormed(OnFrame(s, f, freshId))
  {
    var r := OnFrame(s, f, freshId);
    if f.TextPlain? {
      if s.currentId == None {
        assert r.messages[|s.messages|].id == freshId;
      } else {
        var i :| 0 <= i < |s.messages| && s.messages[i].id == s.currentId.value;
        assert r.messages[i].id == s.currentId.value;
      }
    }
  }

  /** Appending a message (as sending a user message does) keeps the invariant. */
  lemma AppendPreservesWellFormed(s: TurnState, m: Message)
    requires WellFormed(s)
    ensures WellFormed(s.(messages := s.messages + [m]))
  {
    if s.currentId.Some? {
      var i :| 0 <= i < |s.messages| && s.messages[i].id == s.currentId.value;
      assert (s.messages + [m])[i].id == s.currentId.value;
    }
  }

  /** The deltas of a streamed reply, joined in order. */
  function Joined(deltas: seq<string>): string {
    if deltas == [] then "" else deltas[0] + Joined(deltas[1..])
  }

  /** The state after receiving the text frames `deltas` one after another. */
  function FeedText(s: TurnState, deltas: seq<string>, freshId: string): TurnState
    decreases |deltas|
  {
    if deltas == [] then s else FeedText(OnFrame(s, TextPlain(deltas[0]), freshId), deltas[1..], freshId)
  }

  /** No message in the list carries `id`. */
  ghost predicate Unused(messages: seq<Message>, id: string) {
    forall i :: 0 <= i < |messages| ==> messages[i].id != id
  }

  /** Further deltas of an open turn all land in its (last) message. */
  lemma {:induction false} FeedOpenTurn(prefix: seq<Message>, id: string, content: string, deltas: seq<string>, freshId: string)
    requires Unused(prefix, id)
    decreases |deltas|
    ensures FeedText(TurnState(prefix + [Message(id, content, Ai)], Some(id), true), deltas, freshId)
         == TurnState(prefix + [Message(id, content + Joined(deltas), Ai)], Some(id), true)
  {
    var s := TurnState(prefix + [Message(id, content, Ai)], Some(id), true);
    if deltas == [] {
      assert content + Joined(deltas) == content;
    } else {
      var d := deltas[0];
      var next := OnFrame(s, TextPlain(d), freshId);
      assert next.messages == prefix + [Message(id, content + d, Ai)];
      FeedOpenTurn(prefix, id, content + d, deltas[1..], freshId);
      assert content + d + Joined(deltas[1..]) == content + Joined(deltas);
    }
  }

  /**
   * A whole streamed reply: starting with no open turn and an id not yet in
   * the list, the text frames add exactly one AI message, under that id,
   * holding all the deltas in the order they arrived, and the turn stays open
   * with the typing indicator on.
   */
  lemma StreamedReplyIsOneMessage(s: TurnState, deltas: seq<string>, freshId: string)
    requires s.currentId == None
    requires deltas != []
    requires Unused(s.messages, freshId)
    ensures FeedText(s, deltas, freshId)
         == TurnState(s.messages + [Message(freshId, Joined(deltas), Ai)], Some(freshId), true)
  {
    var first := OnFrame(s, TextPlain(deltas[0]), freshId);
    assert first == TurnState(s.messages + [Message(freshId, deltas[0], Ai)], Some(freshId), true);
    FeedOpenTurn(s.messages, freshId, deltas[0], deltas[1..], freshId);
  }

  /** After `turn_complete` the next text frame opens a new message. */
  lemma TurnCompleteThenTextOpensNewMessage(s: TurnState, delta: string, id1: string, id2: string)
    ensures var r := OnFrame(OnFrame(s, TurnComplete, id1), TextPlain(delta), id2);
      r.messages == s.messages + [Message(id2, delta, Ai)] && r.currentId == Some(id2)
  {
  }

  /** After `interrupted` the next text frame still extends the open turn. */
  lemma InterruptedKeepsTurnOpen(s: TurnState, delta: string, id1: string, id2: string)
    requires s.currentId.Some?
    ensures OnFrame(OnFrame(s, Interrupted, id1), TextPlain(delta), id2) == OnFrame(s, TextPlain(delta), id2)
    ensures |OnFrame(OnFrame(s, Interrupted, id1), TextPlain(delta), id2).messages| == |s.messages|
  {
  }
}
