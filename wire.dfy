/**
 * What travels over the chat page's WebSocket: the JSON envelope
 * `{mime_type, data}` and the control frames `{turn_complete}` and
 * `{interrupted}` as the page reads them, the frames the page sends, and the
 * byte-level helpers around the browser's base64 functions: the Latin-1
 * byte/character loops and the concatenation of recorded audio chunks.
 */
module Wire {

  /** One element of a `Uint8Array`. */
  newtype byte = x: int | 0 <= x < 256

  const TextMime: string := "text/plain"
  const AudioMime: string := "audio/pcm"

  /**
   * A received frame after `JSON.parse`, reduced to the fields the handler
   * reads. The handler tests `turn_complete` and `interrupted` with
   * `=== true`, so a missing field, and any value other than the boolean
   * `true` (`1`, `"true"`), reads as false; a missing `mime_type` reads as
   * the empty string.
   */
  datatype Incoming = Incoming(turnComplete: bool, interrupted: bool, mimeType: string, data: string)

  /** The kinds of frame the handler tells apart. */
  datatype Frame =
    | TurnComplete
    | Interrupted
    | AudioPcm(base64: string)
    | TextPlain(delta: string)
    | Unhandled

  /**
   * The order in which the message handler tests a frame: `turn_complete`
   * first, then `interrupted`, then the MIME type.
   */
  function Classify(e: Incoming): (f: Frame)
    ensures f.TurnComplete? <==> e.turnComplete
    ensures f.Interrupted? <==> !e.turnComplete && e.interrupted
    ensures f.TextPlain? <==> !e.turnComplete && !e.interrupted && e.mimeType == TextMime
    ensures f.AudioPcm? <==> !e.turnComplete && !e.interrupted && e.mimeType == AudioMime
    ensures f.TextPlain? ==> f.delta == e.data
    ensures f.AudioPcm? ==> f.base64 == e.data
  {
    if e.turnComplete then TurnComplete
    else if e.interrupted then Interrupted
    else if e.mimeType == AudioMime then AudioPcm(e.data)
    else if e.mimeType == TextMime then TextPlain(e.data)
    else Unhandled
  }

  /** The envelope an agent sends for each kind of frame. */
  function Envelope(f: Frame): (e: Incoming)
    ensures Classify(e) == f
  {
    match f
    case TurnComplete => Incoming(true, false, "", "")
    case Interrupted => Incoming(false, true, "", "")
    case AudioPcm(b) => Incoming(false, false, AudioMime, b)
    case TextPlain(d) => Incoming(false, false, TextMime, d)
    case Unhandled => Incoming(false, false, "", "")
  }

  /**
   * A frame the page sends. On the wire a text message is
   * `{mime_type: "text/plain", data: text}`; an audio message is
   * `{mime_type: "audio/pcm", data: btoa(binary)}`, where `binary` is the
   * Latin-1 string built from the PCM bytes.
   */
  datatype Outgoing = TextMessage(text: string) | AudioMessage(binary: string)

  /**
   * `String.fromCharCode(b)`: the character whose code is the byte's value,
   * which a `Uint8Array` store gives back unchanged.
   */
  function CharOfByte(b: byte): (c: char)
    ensures c as int == b as int
    ensures ByteOfChar(c) == b
  {
    (b as int) as char
  }

  /**
   * Storing `s.charCodeAt(i)` into a `Uint8Array` keeps the code modulo 256,
   * so a Latin-1 character keeps its code.
   */
  function ByteOfChar(c: char): (b: byte)
    ensures b as int == c as int % 256
    ensures c as int < 256 ==> b as int == c as int
  {
    (c as int % 256) as byte
  }

  /** The Latin-1 "binary string" of a byte sequence, one character per byte. */
  function BinaryString(bytes: seq<byte>): (s: string)
    ensures |s| == |bytes|
    ensures forall i :: 0 <= i < |bytes| ==> s[i] as int == bytes[i] as int
  {
    seq(|bytes|, i requires 0 <= i < |bytes| => CharOfByte(bytes[i]))
  }

  /** The bytes of a binary string, one per character. */
  function BytesOfBinary(s: string): (bytes: seq<byte>)
    ensures |bytes| == |s|
    ensures forall i :: 0 <= i < |s| ==> bytes[i] as int == s[i] as int % 256
  {
    seq(|s|, i requires 0 <= i < |s| => ByteOfChar(s[i]))
  }

  /** Every character code of `s` fits in a byte, as in any result of `atob`. */
  predicate IsLatin1(s: string) {
    forall i :: 0 <= i < |s| ==> s[i] as int < 256
  }

  /** byte -> char -> byte is the identity. */
  lemma BytesRoundTrip(bytes: seq<byte>)
    ensures IsLatin1(BinaryString(bytes))
    ensures BytesOfBinary(BinaryString(bytes)) == bytes
  {
    var back := BytesOfBinary(BinaryString(bytes));
    assert forall i :: 0 <= i < |bytes| ==> back[i] == bytes[i];
  }

  /** char -> byte -> char is the identity on Latin-1 strings. */
  lemma BinaryRoundTrip(s: string)
    requires IsLatin1(s)
    ensures BinaryString(BytesOfBinary(s)) == s
  {
    var back := BinaryString(BytesOfBinary(s));
    assert forall i :: 0 <= i < |s| ==> back[i] as int == s[i] as int;
  }

  /** The loop of `base64ToArray` that runs on the result of `atob`. */
  method BinaryToBytes(binaryString: string) returns (bytes: seq<byte>)
    ensures bytes == BytesOfBinary(binaryString)
  {
    var len := |binaryString|;
    var buffer := new byte[len];
    for i := 0 to len
      invariant forall k :: 0 <= k < i ==> buffer[k] == ByteOfChar(binaryString[k])
    {
      buffer[i] := ByteOfChar(binaryString[i]);
    }
    bytes := buffer[..];
  }

  /** The loop of `arrayBufferToBase64` that builds the string handed to `btoa`. */
  method BufferToBinary(bytes: seq<byte>) returns (binary: string)
    ensures binary == BinaryString(bytes)
  {
    binary := "";
    for i := 0 to |bytes|
      invariant |binary| == i
      invariant forall k :: 0 <= k < i ==> binary[k] == CharOfByte(bytes[k])
    {
      binary := binary + [CharOfByte(bytes[i])];
    }
  }

  /** The sum of the chunk lengths. */
  function TotalLength(chunks: seq<seq<byte>>): nat {
    if chunks == [] then 0 else TotalLength(chunks[..|chunks| - 1]) + |chunks[|chunks| - 1]|
  }

  /** The chunks laid end to end, in order. */
  function Concat(chunks: seq<seq<byte>>): seq<byte> {
    if chunks == [] then [] else Concat(chunks[..|chunks| - 1]) + chunks[|chunks| - 1]
  }

  /** The concatenation is as long as the sum of the chunk lengths. */
  lemma {:induction false} ConcatLength(chunks: seq<seq<byte>>)
    ensures |Concat(chunks)| == TotalLength(chunks)
  {
    if chunks != [] {
      ConcatLength(chunks[..|chunks| - 1]);
    }
  }

  /** Concatenation distributes over splitting the chunk list. */
  lemma {:induction false} ConcatAppend(a: seq<seq<byte>>, b: seq<seq<byte>>)
    ensures Concat(a + b) == Concat(a) + Concat(b)
  {
    if b != [] {
      assert (a + b)[..|a + b| - 1] == a + b[..|b| - 1];
      ConcatAppend(a, b[..|b| - 1]);
    } else {
      assert a + b == a;
    }
  }

  /** Chunk `j` sits in the concatenation right after the chunks before it. */
  lemma ChunkPlacement(chunks: seq<seq<byte>>, j: nat)
    requires j < |chunks|
    ensures TotalLength(chunks[..j]) + |chunks[j]| <= TotalLength(chunks) == |Concat(chunks)|
    ensures Concat(chunks)[TotalLength(chunks[..j])..TotalLength(chunks[..j]) + |chunks[j]|] == chunks[j]
  {
    var before, after := chunks[..j], chunks[j + 1..];
    assert chunks == before + [chunks[j]] + after;
    ConcatAppend(before + [chunks[j]], after);
    ConcatAppend(before, [chunks[j]]);
    assert Concat([chunks[j]]) == chunks[j] by {
      assert [chunks[j]][..0] == [];
    }
    ConcatLength(before);
    ConcatLength(chunks);
  }

  /** A prefix of the chunk list is no longer than the whole list. */
  lemma {:induction false} TotalLengthPrefix(chunks: seq<seq<byte>>, j: nat)
    requires j <= |chunks|
    ensures TotalLength(chunks[..j]) <= TotalLength(chunks)
  {
    if j < |chunks| {
      TotalLengthPrefix(chunks[..|chunks| - 1], j);
      assert chunks[..|chunks| - 1][..j] == chunks[..j];
    } else {
      assert chunks[..j] == chunks;
    }
  }

  /**
   * The two loops of `sendBufferedAudio`: sum the chunk lengths, allocate a
   * buffer of that size, and copy each chunk in at the running offset.
   */
  method CombineChunks(chunks: seq<seq<byte>>) returns (combined: seq<byte>)
    ensures combined == Concat(chunks)
    ensures |combined| == TotalLength(chunks)
  {
    var totalLength := 0;
    for i := 0 to |chunks|
      invariant totalLength == TotalLength(chunks[..i])
    {
      assert chunks[..i + 1][..i] == chunks[..i];
      totalLength := totalLength + |chunks[i]|;
    }
    assert chunks[..|chunks|] == chunks;
    var buffer := new byte[totalLength];
    var offset := 0;
    for j := 0 to |chunks|
      invariant offset == TotalLength(chunks[..j]) <= totalLength
      invariant buffer[..offset] == Concat(chunks[..j])
    {
      var chunk := chunks[j];
      assert chunks[..j + 1][..j] == chunks[..j];
      TotalLengthPrefix(chunks, j + 1);
      forall k | 0 <= k < |chunk| {
        buffer[offset + k] := chunk[k];
      }
      assert buffer[..offset + |chunk|] == buffer[..offset] + chunk;
      offset := offset + |chunk|;
    }
    combined := buffer[..];
    ConcatLength(chunks);
  }
}
