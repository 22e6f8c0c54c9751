# Blood-donation front end: chat turn logic, audio buffering and request filtering

This Dafny project models the three pieces of logic in the blood-donation
web front end that are more than rendering:

- **The AI chat page** (`src/app/chatbot/page.tsx`). An agent streams frames
  over a WebSocket. The page keeps one open *turn*, keyed by a generated id.
  The first `text/plain` delta opens a new AI message. Later deltas are
  appended to the message with that id. `turn_complete` closes the turn.
  `interrupted` only stops the typing indicator. The user sends typed
  messages. In voice mode, recorded PCM chunks are buffered and flushed by an
  interval timer as one base64 audio frame.
- **The byte helpers around base64.** These are the Latin-1 byte/character
  loops of `base64ToArray` and `arrayBufferToBase64`, and the two loops that
  join buffered chunks.
- **The patient dashboard's request list** (`src/app/dashboard/patient/page.tsx`).
  It has a case-insensitive search over hospital, blood type and status, a
  status filter, and the status and priority styling maps.

Modules:

- `JsText` (`js_text.dfy`): the JavaScript string built-ins used by the pages (`trim`, `toLowerCase`, `includes`).
- `Wire` (`wire.dfy`): the frames received and sent, how a received frame is classified, and the byte loops.
- `ChatTurn` (`chat_turn.dfy`): the turn accumulator as pure functions over a `TurnState`.
- `Chat` (`chat_page.dfy`): class `ChatPage`. Its fields are the page's state and refs; its methods are the event handlers.
- `PatientRequests` (`patient_requests.dfy`): the filter predicate, `clearSearch` and the style maps.

The browser is abstracted. The socket is its ready state (`NoSocket`,
`Connecting`, `Open`, `Closed`) plus an `outbox` of every frame sent. The
audio player is the list of commands posted to its port. The flush timer is a
flag (`timerArmed`) plus a count of live intervals. Random and clock-based
ids, and the result of `atob`, are method parameters.

Two behaviours of the code that the model follows:

- Text deltas are appended to the message whose id equals the current turn
  id, not to "the last message". The two coincide only while no other message
  has been added since the turn opened.
- Starting and stopping voice mode closes the socket and opens a new one
  (`connectWebSocket(true/false)`). The model's `StartVoiceConversation` and
  `StopVoiceConversation` therefore leave the socket `Connecting`.

## Model

| member | source | states |
|---|---|---|
| `JsText.TrimStart` | src/app/chatbot/page.tsx:300 | The result is a suffix of the input. It is empty or starts with a non-whitespace character. Everything dropped is ECMAScript whitespace. |
| `JsText.TrimEnd` | src/app/chatbot/page.tsx:300 | The result is a prefix of the input. It is empty or ends with a non-whitespace character. Everything dropped is whitespace. |
| `JsText.Trim` | src/app/chatbot/page.tsx:300 | `trim()` returns the part of the input between a blank prefix and a blank suffix, and that part neither starts nor ends with white space (so it is the shortest such part: the longest blank prefix and suffix are cut). |
| `JsText.TrimEmptyIffBlank` | src/app/chatbot/page.tsx:300 | `!inputValue.trim()` holds exactly when the input is whitespace only, in both directions. |
| `JsText.ToLower` | src/app/dashboard/patient/page.tsx:146-148 | The case fold keeps the length, maps each character through the ASCII fold, and leaves no upper-case ASCII letter. |
| `JsText.ToLowerIdempotent` | src/app/dashboard/patient/page.tsx:146-148 | Lower-casing an already lower-cased string changes nothing. |
| `JsText.IncludesIffOccurs` | src/app/dashboard/patient/page.tsx:146-148 | The start-position scan of `includes` succeeds exactly when the needle occurs at some index of the haystack. |
| `JsText.Includes` | src/app/dashboard/patient/page.tsx:146-148 | `includes` of the empty string holds for every string, and a string never includes one longer than itself. |
| `Wire.Classify` | src/app/chatbot/page.tsx:219-240 | A frame is tested in this order: `turn_complete === true` first, then `interrupted`, then the MIME type. Each kind is recognised exactly under its condition, and the payload is carried unchanged. |
| `Wire.Envelope` | src/app/chatbot/page.tsx:219-240 | Each frame kind has an envelope that the handler classifies back as that same kind. |
| `Wire.CharOfByte` | src/app/chatbot/page.tsx:63 | `String.fromCharCode` of a byte is the character with the byte's value as its code, and storing that character back into a `Uint8Array` gives the same byte. |
| `Wire.ByteOfChar` | src/app/chatbot/page.tsx:53 | Storing a character code into a `Uint8Array` keeps it modulo 256, so a Latin-1 character keeps its code. |
| `Wire.BinaryString` | src/app/chatbot/page.tsx:58-64 | `String.fromCharCode` per byte gives one character per byte, with the byte's value as its code. |
| `Wire.BytesOfBinary` | src/app/chatbot/page.tsx:48-54 | Storing `charCodeAt(i)` into a `Uint8Array` gives one byte per character, equal to the code modulo 256. |
| `Wire.BytesRoundTrip` | src/app/chatbot/page.tsx:48-66 | byte → char → byte is the identity for every byte sequence. The intermediate string is Latin-1. |
| `Wire.BinaryRoundTrip` | src/app/chatbot/page.tsx:48-66 | char → byte → char is the identity on Latin-1 strings, which is all that `atob` returns. |
| `Wire.BinaryToBytes` | src/app/chatbot/page.tsx:48-56 | The array loop of `base64ToArray` produces exactly `BytesOfBinary` of its input. |
| `Wire.BufferToBinary` | src/app/chatbot/page.tsx:58-66 | The string-building loop of `arrayBufferToBase64` produces exactly the Latin-1 string of the bytes. |
| `Wire.ConcatLength` | src/app/chatbot/page.tsx:115-120 | The joined chunks are exactly as long as the sum of the chunk lengths (`totalLength`). |
| `Wire.ConcatAppend` | src/app/chatbot/page.tsx:122-125 | Joining a split chunk list gives the two joined halves, one after the other. |
| `Wire.ChunkPlacement` | src/app/chatbot/page.tsx:122-125 | Chunk j appears in the joined buffer intact, at the offset equal to the lengths of the chunks before it. |
| `Wire.TotalLengthPrefix` | src/app/chatbot/page.tsx:115-124 | The running offset never passes `totalLength`, so every `set` stays in bounds. |
| `Wire.CombineChunks` | src/app/chatbot/page.tsx:115-125 | The two loops of `sendBufferedAudio` yield the in-order concatenation of the chunks, of length equal to the sum of their lengths. |
| `ChatTurn.AppendDelta` | src/app/chatbot/page.tsx:254-258 | The `map` updater keeps the list length. Every message with the turn id gets the delta appended. Every other message is unchanged. |
| `ChatTurn.AppendDeltaTwice` | src/app/chatbot/page.tsx:252-258 | Two deltas appended in turn are the same as their concatenation appended once. |
| `ChatTurn.OnFrame` | src/app/chatbot/page.tsx:219-260 | A text frame with no open turn appends exactly one AI message holding the delta, and opens the turn under its id. A text frame during an open turn keeps the length and the turn id, and changes only the matching messages. `turn_complete` closes the turn and clears typing. `interrupted` clears typing and keeps the messages and the turn. Audio and unknown frames change nothing. Every text frame sets typing. |
| `ChatTurn.OnFramePreservesWellFormed` | src/app/chatbot/page.tsx:219-260 | Every frame keeps the invariant: typing implies an open turn, and an open turn's id names a message in the list. |
| `ChatTurn.AppendPreservesWellFormed` | src/app/chatbot/page.tsx:309 | Appending a user message keeps that invariant. |
| `ChatTurn.FeedOpenTurn` | src/app/chatbot/page.tsx:252-258 | While a turn is open on the last message, and no other message has its id, further deltas all land in that message, in order. |
| `ChatTurn.StreamedReplyIsOneMessage` | src/app/chatbot/page.tsx:240-259 | A streamed reply starts with no open turn and an unused id. It adds exactly one AI message, holding all the deltas joined in arrival order, and leaves the turn open with typing on. |
| `ChatTurn.TurnCompleteThenTextOpensNewMessage` | src/app/chatbot/page.tsx:222-251 | After `turn_complete`, the next text frame appends a new message under a new id. |
| `ChatTurn.InterruptedKeepsTurnOpen` | src/app/chatbot/page.tsx:228-258 | After `interrupted`, the next text frame still extends the open turn. It adds no message. |
| `Chat.ChatPage.constructor` | src/app/chatbot/page.tsx:22-46 | On mount there is the single greeting message, empty input, no connection reported yet, no open turn, an empty audio buffer, no timer, and a socket that is connecting (opened by the mount effect at `src/app/chatbot/page.tsx:276-277`). |
| `Chat.ChatPage.SocketOpened` | src/app/chatbot/page.tsx:214-217 | `onopen` of a connecting socket makes it open and sets `isConnected`. |
| `Chat.ChatPage.SocketClosing` | src/app/chatbot/page.tsx:263-265 | When the server starts closing an open socket, its state is CLOSING before `onclose` runs, so `isConnected` is still set. |
| `Chat.ChatPage.SocketClosed` | src/app/chatbot/page.tsx:263-271 | `onclose` and `onerror` of the current socket leave it closed and clear `isConnected`. |
| `Chat.ChatPage.ReplacedSocketClosed` | src/app/chatbot/page.tsx:263-265 | The `onclose` of a socket that a reconnect replaced still clears `isConnected`, whatever state the current socket is in. |
| `Chat.ChatPage.SetInput` | src/app/chatbot/page.tsx:535 | Typing, or a quick action, sets the input value. |
| `Chat.ChatPage.OnMessage` | src/app/chatbot/page.tsx:219-261 | The turn fields change exactly as `OnFrame` on the classified frame, and the page invariant is kept. `interrupted` posts `endOfAudio` to an attached player. An audio frame posts the decoded bytes to an attached player. Nothing else changes. |
| `Chat.ChatPage.InputIsBlank` | src/app/chatbot/page.tsx:300 | The `!inputValue.trim()` test holds exactly when the input is white space only. It changes nothing. |
| `Chat.ChatPage.AppendMessage` | src/app/chatbot/page.tsx:309 | Appending the user message adds exactly that message at the end and keeps the page invariant. |
| `Chat.ChatPage.SendMessage` | src/app/chatbot/page.tsx:299-319 | As written: blank input or no socket changes nothing. Otherwise exactly one user message holding the input is appended. The text frame is sent only on an open socket. The input is cleared unless `send` threw on a connecting socket. |
| `Chat.ChatPage.Submit` | src/app/chatbot/page.tsx:532-542 | Enter in the input and the Send button reach `sendMessage` only while `isConnected` is set. Otherwise nothing changes. When it is set, the outcome and the new state are those of `sendMessage`. |
| `Chat.ChatPage.SendMessageWhenOpen` | src/app/chatbot/page.tsx:299-319 | Corrected: a message is shown and sent exactly when the input is not blank and the socket is open. The input is cleared exactly then. Messages shown and frames sent grow together. |
| `Chat.SendWhileConnecting` | src/app/chatbot/page.tsx:299-319 | Counterexample: open the socket, start voice mode (the new socket is connecting, the old one has not closed yet), type and submit. The controls are enabled, the message is shown, nothing is sent, and the call throws. |
| `Chat.ChatPage.RecordChunk` | src/app/chatbot/page.tsx:104-110 | Appends exactly one chunk at the end of the buffer. It arms the interval only when none is armed, so exactly one interval is live afterwards. |
| `Chat.ChatPage.SendBufferedAudio` | src/app/chatbot/page.tsx:112-137 | On an empty buffer it sends nothing and changes nothing. Otherwise it sends one audio frame holding the Latin-1 string of the in-order concatenation, but only if the socket is open. The buffer is emptied either way. |
| `Chat.ChatPage.StartVoiceConversation` | src/app/chatbot/page.tsx:139-163 | A started player stays attached. Voice and recording turn on, and the socket reconnects, only when the player and the recorder both started. |
| `Chat.ChatPage.StopVoiceConversation` | src/app/chatbot/page.tsx:165-195 | Voice and recording turn off, and the interval is cleared with none leaked. Leftover chunks are flushed (sent only if the old socket was open), the buffer is emptied, and a new socket is connecting. |
| `PatientRequests.FilteredRequests` | src/app/dashboard/patient/page.tsx:144-154 | The result is an order-preserving subsequence of the requests, so no longer than the total shown at :403. A request occurs in it exactly as often as in the full list when it matches both the search and the status filter, and not at all otherwise. |
| `PatientRequests.MatchesSearch` | src/app/dashboard/patient/page.tsx:145-148 | A request matches the search exactly when the lower-cased query occurs at some index of the lower-cased hospital, blood type or status. |
| `PatientRequests.MatchesStatus` | src/app/dashboard/patient/page.tsx:150-151 | A definition with no contract of its own: the filter is "All" or equals the status exactly. `StatusFilterIsExact` and `EmptySearchKeeps` state its consequences. |
| `PatientRequests.Kept` | src/app/dashboard/patient/page.tsx:153 | A definition with no contract of its own: both tests must pass. `FilteredRequests` states what it selects. |
| `PatientRequests.ClearSearch` | src/app/dashboard/patient/page.tsx:177-180 | Under the filters that `clearSearch` sets, every request matches. |
| `PatientRequests.ClearSearchShowsAll` | src/app/dashboard/patient/page.tsx:144-154 | With those filters, the filtered list is the full request list, in order. |
| `PatientRequests.EmptySearchKeeps` | src/app/dashboard/patient/page.tsx:145-151 | With an empty search, a request is kept exactly when its status passes the filter. |
| `PatientRequests.StatusFilterIsExact` | src/app/dashboard/patient/page.tsx:150-151 | When the filter is not "All", every shown request has exactly the selected status. |
| `PatientRequests.SearchIgnoresCase` | src/app/dashboard/patient/page.tsx:145-148 | Two queries with the same lower-case form select the same list. |
| `PatientRequests.SearchLowerCaseSame` | src/app/dashboard/patient/page.tsx:145-148 | A query and its lower-cased form give the same list. |
| `PatientRequests.StatusNarrowsAll` | src/app/dashboard/patient/page.tsx:144-154 | The list under a status filter is a subsequence of the list that the same query gives under "All". |
| `PatientRequests.RequestStyles` | src/app/dashboard/patient/page.tsx:195-206 | The function is total. Each known status gets its own colour, and the grey default goes exactly to strings outside the three statuses. |
| `PatientRequests.BadgeVariant` | src/app/dashboard/patient/page.tsx:208-219 | It returns "destructive" exactly for "Searching Donors", and "outline" for every other input. |
| `PatientRequests.BadgeClassName` | src/app/dashboard/patient/page.tsx:221-230 | It returns a yellow class exactly for "Donor Matched", a green class exactly for "Completed", and the empty default otherwise. |
| `PatientRequests.DestructiveBadgeHasNoClass` | src/app/dashboard/patient/page.tsx:208-230 | A destructive badge gets no extra colour class. |

## Findings

| source | as written | input that shows it | evidently intended | confidence | as-written member | corrected member |
|---|---|---|---|---|---|---|
| src/app/chatbot/page.tsx:300-318 | `sendMessage` checks only that a socket exists (`!wsRef.current`), and appends the user message before calling `send`. | Non-blank input right after starting or stopping voice mode: `wsRef.current` is already the new connecting socket (:273), while `isConnected` is still true until the old socket's `onclose` (:263-264), so the input and the Send button (:538, :542) stay enabled. `send` throws InvalidStateError, the message is shown, nothing is sent, and the input is kept. While the server is closing the socket, before `onclose`, the message is shown and the frame is dropped. | Guard on the open ready state, as `sendBufferedAudio` (:127) and `sendLocation` (:337) do, so a message is shown exactly when it is sent. | medium; not executed | `Chat.ChatPage.SendMessage`, `Chat.SendWhileConnecting` | `Chat.ChatPage.SendMessageWhenOpen` |

## Left out

- WebSocket construction, the endpoint URL and its random user id, `JSON.parse`/`JSON.stringify` and console logging are I/O. Frames are the `Incoming` and `Outgoing` datatypes, and the socket is its ready state plus the `outbox`.
- `btoa` and `atob` are browser functions. Outgoing audio frames carry the Latin-1 string that is handed to `btoa`. An incoming audio frame's `atob` result is a parameter of `OnMessage`. `atob` throwing on malformed base64 is not modelled.
- `Chat.ChatPage.OnMessage`: does not test `isMuted` before posting audio, because `toggleMute` (the only thing that sets it) is audio plumbing that is not modelled. The handler also reads `isMuted` from the render that created the socket, a stale value this model does not track.
- `convertFloat32ToPCM`, the audio worklets, `AudioContext`, `getUserMedia` and stopping media tracks are browser audio plumbing. Recorded chunks arrive as byte sequences.
- `setInterval` timing: the interval is a flag and a count of live intervals. Any call of `SendBufferedAudio` can be an interval tick.
- React state batching: the updaters are applied when the frame arrives. In the page, the `map` updater reads `currentMessageIdRef` when React runs it. A delta followed by `turn_complete` before a render could therefore be dropped. The model does not capture that.
- `isConnected` is modelled only as far as it gates `sendMessage` through `Submit`. Its other uses (the status badge, the spinner on the Send button) are rendering. The model does not fix the order in which the replaced socket's `onclose` and the new socket's `onopen` arrive. Either order is a sequence of the modelled events.
- The `Discarded` outcome of `sendMessage` is reachable through `Submit` only between the start of a closing handshake and `onclose`. That is the CLOSING state of `SocketClosing`.
- Message timestamps and the unused `type` field are not modelled.
- `sendLocation` (geolocation), the unmount clean-up effect and the auto-scroll effect are left out. Each is I/O or a direct call of a modelled method.
- `JsText.ToLower`: folds only ASCII letters, whereas `toLowerCase` folds all of Unicode.
- `Wire.BytesOfBinary`: uses Dafny characters (Unicode scalar values) where `charCodeAt` reads UTF-16 code units. The two agree on the Latin-1 strings that `atob` returns.
- Dashboard: the REST fetches, `localStorage`, toasts, `getRequestIcon` and `handleRequest` (JSX and notifications), and the mock request data. `src/components/Maps.tsx` (haversine distance filter, floating point, and map UI) is not part of this model.
- `RequestItem` status and priority are plain strings. The TypeScript unions are not enforced, matching the style helpers, which accept any string.
