/**
 * The chat page as an object: its React state and refs become fields, its
 * event handlers become methods. The browser is abstracted: the socket is its
 * ready state plus the list of frames sent on it, the audio player is the list
 * of commands posted to its port, and the recorder's interval timer is a flag
 * plus a count of live intervals.
 */
module Chat {
  import opened Wire
  import opened ChatTurn
  import JsText

  /**
   * What `wsRef.current` holds: no socket, or a socket in one of its ready
   * states (`Closed` stands for both CLOSING and CLOSED).
   */
  datatype SocketState = NoSocket | Connecting | Open | Closed

  /** A message posted to the audio player worklet's port. */
  datatype PlayerCommand = PlayPcm(pcm: seq<byte>) | EndOfAudio

  /** How a call of `sendMessage` ends. */
  datatype SendOutcome =
    | Skipped    // blank input or no socket: nothing happens
    | Sent       // the frame went out on an open socket
    | Discarded  // the socket is closing or closed: `send` drops the frame silently
    | Threw      // the socket is still connecting: `send` throws InvalidStateError

  const Greeting: string := "Hello! I'm your ThalCare AI assistant. I'm here to help you with blood management, donor coordination, emergency requests, and any questions about thalassemia care. How can I assist you today?"

  class ChatPage {
    var messages: seq<Message>
    var inputValue: string
    /** Set by a socket's `onopen`, cleared by any socket's `onclose` or `onerror`. */
    var isConnected: bool
    var isTyping: bool
    var currentMessageId: Option<string>
    var isVoiceEnabled: bool
    var isRecording: bool
    var socket: SocketState
    /** Every frame sent on the page's sockets, in order. */
    var outbox: seq<Outgoing>
    /** `audioPlayerNodeRef.current` is set. */
    var playerAttached: bool
    var playerPort: seq<PlayerCommand>
    /** `audioBufferRef.current`: recorded chunks not yet sent. */
    var audioBuffer: seq<seq<byte>>
    /** `bufferTimerRef.current` is set. */
    var timerArmed: bool
    /** Intervals created by `setInterval` and not yet cleared. */
    var liveIntervals: nat

    /** The turn accumulator's view of the page. */
    function Turn(): TurnState
      reads this
    {
      TurnState(messages, currentMessageId, isTyping)
    }

    /**
     * The page's invariant: the turn accumulator is well formed, and the
     * flush timer ref holds the one live interval, if any (none is leaked).
     */
    ghost predicate Valid()
      reads this
    {
      && WellFormed(Turn())
      && liveIntervals == (if timerArmed then 1 else 0)
    }

    /** Mounting the page: the greeting, empty input, and a socket being opened. */
    constructor ()
      ensures Valid()
      ensures messages == [Message("1", Greeting, Ai)] && currentMessageId == None && !isTyping
      ensures inputValue == "" && !isConnected && !isVoiceEnabled && !isRecording
      ensures socket == Connecting && outbox == []
      ensures !playerAttached && playerPort == []
      ensures audioBuffer == [] && !timerArmed && liveIntervals == 0
    {
      messages := [Message("1", Greeting, Ai)];
      inputValue := "";
      isConnected := false;
      isTyping := false;
      currentMessageId := None;
      isVoiceEnabled := false;
      isRecording := false;
      socket := Connecting;
      outbox := [];
      playerAttached := false;
      playerPort := [];
      audioBuffer := [];
      timerArmed := false;
      liveIntervals := 0;
    }

    /** The current socket's handshake completes (`onopen`). */
    method SocketOpened()
      requires socket == Connecting
      modifies this`socket, this`isConnected
      ensures socket == Open && isConnected
    {
      socket := Open;
      isConnected := true;
    }

    /**
     * The server starts closing the current socket: its ready state is
     * CLOSING, and `onclose` has not run yet, so `isConnected` is unchanged.
     */
    method SocketClosing()
      requires socket == Open
      modifies this`socket
      ensures socket == Closed
    {
      socket := Closed;
    }

    /** The current socket reports `onclose` or `onerror`. */
    method SocketClosed()
      requires socket != NoSocket
      modifies this`socket, this`isConnected
      ensures socket == Closed && !isConnected
    {
      socket := Closed;
      isConnected := false;
    }

    /**
     * A socket that was replaced by a reconnect reports `onclose`: its
     * handler still clears `isConnected`, though `wsRef.current` holds
     * another socket whose state is unchanged.
     */
    method ReplacedSocketClosed()
      modifies this`isConnected
      ensures !isConnected
    {
      isConnected := false;
    }

    /** The input box's `onChange`, and the quick-action buttons. */
    method SetInput(value: string)
      modifies this`inputValue
      ensures inputValue == value
    {
      inputValue := value;
    }

    /**
     * `ws.onmessage`. `freshId` stands for the random id a new turn gets;
     * `decodedAudio` stands for what `atob` returns on an audio frame's data.
     */
    method OnMessage(msg: Incoming, freshId: string, decodedAudio: string)
      requires Valid()
      modifies this`messages, this`currentMessageId, this`isTyping, this`playerPort
      ensures Valid()
      ensures Turn() == OnFrame(old(Turn()), Classify(msg), freshId)
      ensures playerPort == old(playerPort) + (
        match Classify(msg)
        case Interrupted => if playerAttached then [EndOfAudio] else []
        case AudioPcm(_) => if playerAttached then [PlayPcm(BytesOfBinary(decodedAudio))] else []
        case _ => [])
    {
      var frame := Classify(msg);
      OnFramePreservesWellFormed(Turn(), frame, freshId);
      match frame {
        case TurnComplete =>
          isTyping := false;
          currentMessageId := None;
        case Interrupted =>
          isTyping := false;
          if playerAttached {
            playerPort := playerPort + [EndOfAudio];
          }
        case AudioPcm(_) =>
          if playerAttached {
            var pcm := BinaryToBytes(decodedAudio);
            playerPort := playerPort + [PlayPcm(pcm)];
          }
        case TextPlain(delta) =>
          isTyping := true;
          if currentMessageId == None {
            currentMessageId := Some(freshId);
            messages := messages + [Message(freshId, delta, Ai)];
          } else {
            messages := AppendDelta(messages, currentMessageId.value, delta);
          }
        case Unhandled =>
      }
    }

    /** The test `!inputValue.trim()`: the input is white space only. */
    method InputIsBlank() returns (blank: bool)
      ensures blank <==> JsText.IsBlank(inputValue)
    {
      JsText.TrimEmptyIffBlank(inputValue);
      blank := JsText.Trim(inputValue) == [];
    }

    /** `setMessages((prev) => [...prev, m])`: the page invariant survives. */
    method AppendMessage(m: Message)
      requires Valid()
      modifies this`messages
      ensures Valid()
      ensures messages == old(messages) + [m]
    {
      AppendPreservesWellFormed(Turn(), m);
      messages := messages + [m];
    }

    /**
     * `sendMessage`, as written: the guard only asks whether a socket exists.
     * The user message is added before `send` runs, so on a socket that is
     * still connecting it is shown although `send` throws and the input is
     * kept; on a closed socket it is shown although the frame is dropped.
     * `sentAt` stands for the `Date.now()` id.
     */
    method SendMessage(sentAt: string) returns (outcome: SendOutcome)
      requires Valid()
      modifies this`messages, this`outbox, this`inputValue
      ensures Valid()
      ensures JsText.IsBlank(old(inputValue)) || socket == NoSocket ==>
        && outcome == Skipped
        && messages == old(messages) && outbox == old(outbox) && inputValue == old(inputValue)
      ensures !JsText.IsBlank(old(inputValue)) && socket != NoSocket ==>
        && messages == old(messages) + [Message(sentAt, old(inputValue), User)]
        && outcome == (if socket == Open then Sent else if socket == Closed then Discarded else Threw)
        && outbox == old(outbox) + (if socket == Open then [TextMessage(old(inputValue))] else [])
        && inputValue == (if socket == Connecting then old(inputValue) else "")
    {
      var blank := InputIsBlank();
      if blank || socket == NoSocket {
        return Skipped;
      }
      AppendMessage(Message(sentAt, inputValue, User));
      if socket == Connecting {
        return Threw;
      }
      if socket == Open {
        outbox := outbox + [TextMessage(inputValue)];
        outcome := Sent;
      } else {
        outcome := Discarded;
      }
      inputValue := "";
    }

    /**
     * The two ways the user reaches `sendMessage`: Enter in the input box
     * (`handleKeyPress`) and the Send button. Both controls are disabled
     * while `isConnected` is false, so nothing happens then.
     */
    method Submit(sentAt: string) returns (outcome: SendOutcome)
      requires Valid()
      modifies this`messages, this`outbox, this`inputValue
      ensures Valid()
      ensures !isConnected ==>
        && outcome == Skipped
        && messages == old(messages) && outbox == old(outbox) && inputValue == old(inputValue)
      ensures isConnected && !JsText.IsBlank(old(inputValue)) && socket != NoSocket ==>
        && messages == old(messages) + [Message(sentAt, old(inputValue), User)]
        && outcome == (if socket == Open then Sent else if socket == Closed then Discarded else Threw)
        && outbox == old(outbox) + (if socket == Open then [TextMessage(old(inputValue))] else [])
        && inputValue == (if socket == Connecting then old(inputValue) else "")
      ensures isConnected && (JsText.IsBlank(old(inputValue)) || socket == NoSocket) ==>
        && outcome == Skipped
        && messages == old(messages) && outbox == old(outbox) && inputValue == old(inputValue)
    {
      if !isConnected {
        return Skipped;
      }
      outcome := SendMessage(sentAt);
    }

    /**
     * `sendMessage` with the readiness guard the page uses for audio and
     * location frames: a user message is shown exactly when its frame is sent.
     */
    method SendMessageWhenOpen(sentAt: string) returns (sent: bool)
      requires Valid()
      modifies this`messages, this`outbox, this`inputValue
      ensures Valid()
      ensures sent <==> !JsText.IsBlank(old(inputValue)) && socket == Open
      ensures messages == old(messages) + (if sent then [Message(sentAt, old(inputValue), User)] else [])
      ensures outbox == old(outbox) + (if sent then [TextMessage(old(inputValue))] else [])
      ensures inputValue == (if sent then "" else old(inputValue))
      ensures |messages| - |old(messages)| == |outbox| - |old(outbox)|
    {
      var text := inputValue;
      var blank := InputIsBlank();
      if blank || socket != Open {
        return false;
      }
      AppendMessage(Message(sentAt, text, User));
      outbox := outbox + [TextMessage(text)];
      inputValue := "";
      sent := true;
    }

    /**
     * `audioRecorderHandler`: queue one chunk of recorded PCM and arm the
     * flush interval unless one is armed already.
     */
    method RecordChunk(pcm: seq<byte>) returns (armedNow: bool)
      requires Valid()
      modifies this`audioBuffer, this`timerArmed, this`liveIntervals
      ensures Valid()
      ensures audioBuffer == old(audioBuffer) + [pcm]
      ensures timerArmed && liveIntervals == 1
      ensures armedNow <==> !old(timerArmed)
    {
      audioBuffer := audioBuffer + [pcm];
      armedNow := !timerArmed;
      if !timerArmed {
        timerArmed := true;
        liveIntervals := liveIntervals + 1;
      }
    }

    /**
     * `sendBufferedAudio`, run by the interval: nothing on an empty buffer;
     * otherwise the chunks are joined in order, sent as one audio frame if the
     * socket is open, and the buffer is emptied either way.
     */
    method SendBufferedAudio()
      modifies this`audioBuffer, this`outbox
      ensures audioBuffer == []
      ensures outbox == old(outbox) + (
        if old(audioBuffer) != [] && socket == Open
        then [AudioMessage(BinaryString(Concat(old(audioBuffer))))]
        else [])
    {
      if |audioBuffer| == 0 {
        return;
      }
      var combined := CombineChunks(audioBuffer);
      if socket == Open {
        var binary := BufferToBinary(combined);
        outbox := outbox + [AudioMessage(binary)];
      }
      audioBuffer := [];
    }

    /**
     * `startVoiceConversation` once its asynchronous set-up has run:
     * `playerStarted` and `recorderStarted` say whether the player worklet
     * and then the recorder (microphone included) could be started. Only
     * when both are up does voice turn on and the socket reconnect in audio
     * mode; a player started before the recorder failed stays attached.
     */
    method StartVoiceConversation(playerStarted: bool, recorderStarted: bool)
      modifies this`playerAttached, this`isVoiceEnabled, this`isRecording, this`socket
      ensures playerAttached == (old(playerAttached) || playerStarted)
      ensures playerStarted && recorderStarted ==> isVoiceEnabled && isRecording && socket == Connecting
      ensures !(playerStarted && recorderStarted) ==>
        isVoiceEnabled == old(isVoiceEnabled) && isRecording == old(isRecording) && socket == old(socket)
    {
      if !playerStarted {
        return;
      }
      playerAttached := true;
      if !recorderStarted {
        return;
      }
      isVoiceEnabled := true;
      isRecording := true;
      socket := Connecting;
    }

    /**
     * `stopVoiceConversation`: voice off, the flush interval cleared, what is
     * left in the buffer flushed (on the old socket), and a new text-mode
     * socket opened. The player ref is not cleared.
     */
    method StopVoiceConversation()
      requires Valid()
      modifies this`isRecording, this`isVoiceEnabled, this`timerArmed, this`liveIntervals
      modifies this`audioBuffer, this`outbox, this`socket
      ensures Valid()
      ensures !isRecording && !isVoiceEnabled
      ensures !timerArmed && liveIntervals == 0
      ensures audioBuffer == []
      ensures outbox == old(outbox) + (
        if old(audioBuffer) != [] && old(socket) == Open
        then [AudioMessage(BinaryString(Concat(old(audioBuffer))))]
        else [])
      ensures socket == Connecting
    {
      isRecording := false;
      isVoiceEnabled := false;
      if timerArmed {
        liveIntervals := liveIntervals - 1;
        timerArmed := false;
      }
      if |audioBuffer| > 0 {
        SendBufferedAudio();
      }
      socket := Connecting;
    }
  }

  /**
   * The as-written `sendMessage` in the window after starting voice mode:
   * the new socket is still connecting, but the old one has not reported
   * `onclose`, so `isConnected` is still true and the Send button is
   * enabled. The typed message is shown, yet nothing is sent and the call
   * throws.
   */
  method SendWhileConnecting() returns (shown: bool, sent: bool, outcome: SendOutcome)
    ensures shown && !sent && outcome == Threw
  {
    var page := new ChatPage();
    page.SocketOpened();
    page.StartVoiceConversation(true, true);
    page.SetInput("hi");
    assert !JsText.IsBlank(page.inputValue) by {
      assert !JsText.IsWhitespace(page.inputValue[0]);
    }
    outcome := page.Submit("42");
    shown := page.messages[|page.messages| - 1] == Message("42", "hi", User);
    sent := |page.outbox| > 0;
  }
}
