// The payload of one journal batch: a fixed 60-byte little-endian header in front
// of the command line that the daemon accepted (apps/freemixd/src/journal.rs).
module Codec {
  import opened Basics

  const PROTOCOL_BYTES: nat := 4
  const SUBMITTED_AT_BYTES: nat := 8
  const POSITION_BYTES: nat := 6 * 8
  const HEADER_BYTES: nat := PROTOCOL_BYTES + SUBMITTED_AT_BYTES + POSITION_BYTES

  datatype ProtocolVersion = ProtocolVersion(major: u16, minor: u16)

  const CURRENT_PROTOCOL_VERSION := ProtocolVersion(2, 18)

  datatype ProjectPosition = ProjectPosition(
    revision: u64,
    stateEpoch: u64,
    eventSequence: u64,
    framesRendered: u64,
    runtimeGeneration: u64,
    clockTimeNanos: u64)

  datatype CommandMessage = CommandMessage(
    id: string,
    idempotencyKey: string,
    expectedRevision: Option<u64>,
    deadlineMs: Option<u64>,
    payload: seq<byte>)

  datatype WireMessage = Command(command: CommandMessage) | OtherMessage(tag: nat)

  datatype RecordedMutation = RecordedMutation(
    command: CommandMessage,
    submittedAtMillis: u64,
    position: ProjectPosition)

  datatype DecodeError = TooShort | WrongProtocol | NotUtf8 | MalformedLine | NotACommand

  // The line codec of fm-protocol and the UTF-8 check in front of it.
  datatype LineCodec = LineCodec(
    encodeLine: WireMessage -> Option<seq<byte>>,
    utf8: seq<byte> -> bool,
    decodeLine: seq<byte> -> Option<WireMessage>)

  // What the journal relies on: a command line that was encoded reads back as that command.
  ghost predicate Invertible(codec: LineCodec) {
    forall c: CommandMessage {:trigger codec.encodeLine(Command(c))} ::
      codec.encodeLine(Command(c)).Some? ==>
        var line := codec.encodeLine(Command(c)).value;
        codec.utf8(line) && codec.decodeLine(line) == Some(Command(c))
  }

  function Power256(width: nat): (p: nat)
    ensures p > 0
  {
    if width == 0 then 1 else 256 * Power256(width - 1)
  }

  function LittleEndian(value: nat, width: nat): (bytes: seq<byte>)
    ensures |bytes| == width
  {
    if width == 0 then [] else [value % 256] + LittleEndian(value / 256, width - 1)
  }

  function FromLittleEndian(bytes: seq<byte>): (value: nat)
    ensures value < Power256(|bytes|)
  {
    if bytes == [] then 0 else bytes[0] + 256 * FromLittleEndian(bytes[1..])
  }

  lemma {:induction false} FromOfLittleEndian(value: nat, width: nat)
    requires value < Power256(width)
    ensures FromLittleEndian(LittleEndian(value, width)) == value
  {
    if width > 0 {
      FromOfLittleEndian(value / 256, width - 1);
      assert LittleEndian(value, width)[1..] == LittleEndian(value / 256, width - 1);
    }
  }

  lemma {:induction false} LittleEndianOfFrom(bytes: seq<byte>)
    ensures LittleEndian(FromLittleEndian(bytes), |bytes|) == bytes
  {
    if bytes != [] {
      LittleEndianOfFrom(bytes[1..]);
      assert bytes == [bytes[0]] + bytes[1..];
      LowByte(bytes[0], FromLittleEndian(bytes[1..]));
      hide Power256;
    }
  }

  lemma LowByte(low: byte, high: nat)
    ensures (low + 256 * high) % 256 == low && (low + 256 * high) / 256 == high
  {
  }

  lemma WidthOfWords()
    ensures Power256(2) == U16_MAX + 1 && Power256(8) == U64_MAX + 1
  {
    assert Power256(4) == 0x1_0000_0000;
    assert Power256(8) == 256 * 256 * 256 * 256 * Power256(4);
  }

  // The six words of a position in their place in the header.
  function PositionFields(position: ProjectPosition): (fields: seq<u64>)
    ensures |fields| == 6
  {
    [position.revision, position.stateEpoch, position.eventSequence,
     position.framesRendered, position.runtimeGeneration, position.clockTimeNanos]
  }

  function EncodeWords(words: seq<u64>): (bytes: seq<byte>)
    ensures |bytes| == 8 * |words|
  {
    if words == [] then [] else EncodeWords(words[..|words| - 1]) + LittleEndian(words[|words| - 1], 8)
  }

  function WordAt(bytes: seq<byte>, index: nat): (word: u64)
    requires 8 * index + 8 <= |bytes|
  {
    WidthOfWords();
    FromLittleEndian(bytes[8 * index..8 * index + 8])
  }

  lemma {:induction false} WordOfEncodedWords(words: seq<u64>, index: nat)
    requires index < |words|
    ensures EncodeWords(words)[8 * index..8 * index + 8] == LittleEndian(words[index], 8)
    ensures WordAt(EncodeWords(words), index) == words[index]
  {
    WidthOfWords();
    EncodeWordsLast(words);
    hide EncodeWords, LittleEndian, FromLittleEndian, Power256;
    var front, last := words[..|words| - 1], LittleEndian(words[|words| - 1], 8);
    if index < |words| - 1 {
      WordOfEncodedWords(front, index);
      assert EncodeWords(words)[8 * index..8 * index + 8] == EncodeWords(front)[8 * index..8 * index + 8];
    } else {
      assert EncodeWords(words)[8 * index..8 * index + 8] == last;
    }
    FromOfLittleEndian(words[index], 8);
  }

  // Splitting bytes into words and encoding those words again gives the bytes back.
  lemma {:induction false} EncodedWordsOfBytes(bytes: seq<byte>, words: seq<u64>)
    requires |bytes| == 8 * |words|
    requires forall i :: 0 <= i < |words| ==> words[i] == WordAt(bytes, i)
    ensures EncodeWords(words) == bytes
  {
    EncodeWordsLast(words);
    hide *;
    if words == [] {
      assert bytes == [];
    } else {
      var last := |words| - 1;
      var front, tail := bytes[..8 * last], bytes[8 * last..8 * last + 8];
      forall i | 0 <= i < last ensures words[..last][i] == WordAt(front, i) {
        WordInFront(bytes, last, i);
      }
      EncodedWordsOfBytes(front, words[..last]);
      WordBytes(bytes, last);
      assert bytes == front + tail;
    }
  }

  lemma WordBytes(bytes: seq<byte>, index: nat)
    requires 8 * index + 8 <= |bytes|
    ensures LittleEndian(WordAt(bytes, index), 8) == bytes[8 * index..8 * index + 8]
  {
    hide LittleEndian, FromLittleEndian, Power256;
    LittleEndianOfFrom(bytes[8 * index..8 * index + 8]);
  }

  lemma WordInFront(bytes: seq<byte>, words: nat, index: nat)
    requires index < words && 8 * words <= |bytes|
    ensures WordAt(bytes[..8 * words], index) == WordAt(bytes, index)
  {
    hide FromLittleEndian;
    assert bytes[..8 * words][8 * index..8 * index + 8] == bytes[8 * index..8 * index + 8];
  }

  lemma EncodeWordsLast(words: seq<u64>)
    ensures words == [] ==> EncodeWords(words) == []
    ensures words != [] ==>
              EncodeWords(words) == EncodeWords(words[..|words| - 1]) + LittleEndian(words[|words| - 1], 8)
  {
    hide LittleEndian;
  }

  function HeaderWords(submittedAt: u64, position: ProjectPosition): (words: seq<u64>) {
    [submittedAt] + PositionFields(position)
  }

  function EncodeHeader(version: ProtocolVersion, submittedAt: u64, position: ProjectPosition): (header: seq<byte>)
    ensures |header| == HEADER_BYTES
  {
    LittleEndian(version.major, 2) + LittleEndian(version.minor, 2)
      + EncodeWords(HeaderWords(submittedAt, position))
  }

  function EncodeMutation(codec: LineCodec, command: CommandMessage, now: u64, position: ProjectPosition)
    : (payload: Option<seq<byte>>)
  {
    match codec.encodeLine(Command(command))
    case None => None
    case Some(line) => Some(EncodeHeader(CURRENT_PROTOCOL_VERSION, now, position) + line)
  }

  // The buffer is filled field by field, as the daemon does it.
  method BuildPayload(codec: LineCodec, command: CommandMessage, now: u64, position: ProjectPosition)
    returns (payload: Option<seq<byte>>)
    ensures payload == EncodeMutation(codec, command, now, position)
  {
    var encoded := codec.encodeLine(Command(command));
    if encoded.None? {
      return None;
    }
    var buffer := LittleEndian(CURRENT_PROTOCOL_VERSION.major, 2);
    buffer := buffer + LittleEndian(CURRENT_PROTOCOL_VERSION.minor, 2);
    ghost var opening := buffer;
    buffer := buffer + LittleEndian(now, 8);
    var fields := PositionFields(position);
    ghost var words := HeaderWords(now, position);
    for i := 0 to |fields|
      invariant buffer == opening + EncodeWords(words[..i + 1])
    {
      buffer := buffer + LittleEndian(fields[i], 8);
      assert words[..i + 2][..i + 1] == words[..i + 1];
    }
    assert words[..7] == words;
    return Some(buffer + encoded.value);
  }

  function DecodeHeader(header: seq<byte>): (fields: (ProtocolVersion, u64, ProjectPosition))
    requires |header| == HEADER_BYTES
  {
    WidthOfWords();
    var words := header[PROTOCOL_BYTES..];
    (ProtocolVersion(FromLittleEndian(header[0..2]), FromLittleEndian(header[2..4])),
     WordAt(words, 0),
     ProjectPosition(WordAt(words, 1), WordAt(words, 2), WordAt(words, 3),
                     WordAt(words, 4), WordAt(words, 5), WordAt(words, 6)))
  }

  function DecodeMutation(codec: LineCodec, payload: seq<byte>): (decoded: Result<RecordedMutation, DecodeError>) {
    if |payload| < HEADER_BYTES then Err(TooShort)
    else
      var (version, submittedAt, position) := DecodeHeader(payload[..HEADER_BYTES]);
      var line := payload[HEADER_BYTES..];
      if version != CURRENT_PROTOCOL_VERSION then Err(WrongProtocol)
      else if !codec.utf8(line) then Err(NotUtf8)
      else
        match codec.decodeLine(line)
        case None => Err(MalformedLine)
        case Some(Command(command)) => Ok(RecordedMutation(command, submittedAt, position))
        case Some(OtherMessage(_)) => Err(NotACommand)
  }

  lemma DecodeOfEncodedHeader(version: ProtocolVersion, submittedAt: u64, position: ProjectPosition)
    ensures DecodeHeader(EncodeHeader(version, submittedAt, position)) == (version, submittedAt, position)
  {
    WidthOfWords();
    var header := EncodeHeader(version, submittedAt, position);
    var words := HeaderWords(submittedAt, position);
    assert header[0..2] == LittleEndian(version.major, 2);
    assert header[2..4] == LittleEndian(version.minor, 2);
    assert header[4..] == EncodeWords(words);
    FromOfLittleEndian(version.major, 2);
    FromOfLittleEndian(version.minor, 2);
    forall i | 0 <= i < 7 ensures WordAt(header[4..], i) == words[i] {
      WordOfEncodedWords(words, i);
    }
  }

  lemma EncodeOfDecodedHeader(header: seq<byte>)
    requires |header| == HEADER_BYTES
    ensures var (version, submittedAt, position) := DecodeHeader(header);
            EncodeHeader(version, submittedAt, position) == header
  {
    var (version, submittedAt, position) := DecodeHeader(header);
    var words := HeaderWords(submittedAt, position);
    LittleEndianOfFrom(header[0..2]);
    LittleEndianOfFrom(header[2..4]);
    forall i | 0 <= i < |words| ensures words[i] == WordAt(header[4..], i) {
    }
    EncodedWordsOfBytes(header[4..], words);
    assert header == header[0..2] + header[2..4] + header[4..];
  }

  // Decoding undoes encoding for every command, instant and position.
  lemma RoundTrip(codec: LineCodec, command: CommandMessage, now: u64, position: ProjectPosition)
    requires Invertible(codec)
    requires EncodeMutation(codec, command, now, position).Some?
    ensures DecodeMutation(codec, EncodeMutation(codec, command, now, position).value)
            == Ok(RecordedMutation(command, now, position))
  {
    var line := codec.encodeLine(Command(command)).value;
    var header := EncodeHeader(CURRENT_PROTOCOL_VERSION, now, position);
    var payload := header + line;
    assert payload[..HEADER_BYTES] == header;
    assert payload[HEADER_BYTES..] == line;
    DecodeOfEncodedHeader(CURRENT_PROTOCOL_VERSION, now, position);
  }

  // Nothing else is accepted: the header of an accepted payload is, byte for byte, the
  // header this build writes for the decoded mutation.
  lemma AcceptedPayloadIsCanonical(codec: LineCodec, payload: seq<byte>)
    requires DecodeMutation(codec, payload).Ok?
    ensures |payload| >= HEADER_BYTES == 60
    ensures var mutation := DecodeMutation(codec, payload).value;
            && payload[..HEADER_BYTES]
               == EncodeHeader(CURRENT_PROTOCOL_VERSION, mutation.submittedAtMillis, mutation.position)
            && codec.decodeLine(payload[HEADER_BYTES..]) == Some(Command(mutation.command))
  {
    EncodeOfDecodedHeader(payload[..HEADER_BYTES]);
  }

  // Two payloads that decode to one mutation differ at most in the command line.
  lemma AcceptedHeadersAgree(codec: LineCodec, left: seq<byte>, right: seq<byte>)
    requires DecodeMutation(codec, left).Ok? && DecodeMutation(codec, left) == DecodeMutation(codec, right)
    ensures left[..HEADER_BYTES] == right[..HEADER_BYTES]
  {
    AcceptedPayloadIsCanonical(codec, left);
    AcceptedPayloadIsCanonical(codec, right);
  }
}
