// Where every byte of a journal payload's header stands, and which payloads are refused and why.
module CodecAnswers {
  import opened Basics
  import opened Codec

  lemma DivideTwice(value: nat, divisor: nat)
    requires divisor > 0
    ensures value / 256 / divisor == value / (256 * divisor)
  {
    var quotient := value / 256 / divisor;
    var rest := value - 256 * divisor * quotient;
    assert 256 * (value / 256) <= value < 256 * (value / 256) + 256;
    assert divisor * quotient <= value / 256 < divisor * quotient + divisor;
    assert 0 <= rest < 256 * divisor;
    QuotientIs(value, 256 * divisor, quotient, rest);
  }

  lemma QuotientIs(value: nat, divisor: nat, quotient: nat, rest: nat)
    requires divisor > 0 && value == divisor * quotient + rest && rest < divisor
    ensures value / divisor == quotient
  {
    var other := value / divisor;
    SmallerProduct(divisor, other, quotient);
    SmallerProduct(divisor, quotient, other);
  }

  lemma {:induction false} SmallerProduct(divisor: nat, left: nat, right: nat)
    ensures left < right ==> divisor * left + divisor <= divisor * right
  {
    if left + 1 < right {
      SmallerProduct(divisor, left, right - 1);
    }
    if left < right {
      assert divisor * right == divisor * (right - 1) + divisor;
    }
  }

  function Digit(value: nat, k: nat): (digit: byte) { value / Power256(k) % 256 }

  // Byte `k` is digit `k` to the base 256, the lowest first.
  lemma {:induction false} LowestFirst(value: nat, width: nat, k: nat)
    requires k < width
    ensures LittleEndian(value, width)[k] == Digit(value, k)
  {
    if k > 0 {
      LowestFirst(value / 256, width - 1, k - 1);
      DivideTwice(value, Power256(k - 1));
    }
  }

  // A payload opens with the protocol version 2.18, the instant of submission and the six words
  // of the position in this order, each lowest byte first, and the command line follows.
  lemma HeaderLayout(codec: LineCodec, command: CommandMessage, now: u64, position: ProjectPosition, word: nat, k: nat)
    requires EncodeMutation(codec, command, now, position).Some? && word < 7 && k < 8
    ensures var payload := EncodeMutation(codec, command, now, position).value;
            var words := [now, position.revision, position.stateEpoch, position.eventSequence,
                          position.framesRendered, position.runtimeGeneration, position.clockTimeNanos];
            && |payload| >= 60
            && payload[..4] == [2, 0, 18, 0]
            && payload[4 + 8 * word + k] == Digit(words[word], k)
            && Some(payload[60..]) == codec.encodeLine(Command(command))
  {
    hide LittleEndian, EncodeWords, Power256, FromLittleEndian, EncodeHeader, Digit;
    var payload := EncodeMutation(codec, command, now, position).value;
    var words := HeaderWords(now, position);
    PayloadParts(now, position, codec.encodeLine(Command(command)).value);
    OpeningBytes();
    WordOfEncodedWords(words, word);
    LowestFirst(words[word], 8, k);
    ByteOfPart(payload, EncodeWords(words), 8 * word, k);
  }

  lemma PayloadParts(now: u64, position: ProjectPosition, line: seq<byte>)
    ensures var payload := EncodeHeader(CURRENT_PROTOCOL_VERSION, now, position) + line;
            && payload[..4] == LittleEndian(2, 2) + LittleEndian(18, 2)
            && payload[4..60] == EncodeWords(HeaderWords(now, position))
            && payload[60..] == line
  {
    hide LittleEndian, EncodeWords, HeaderWords;
  }

  lemma ByteOfPart(payload: seq<byte>, part: seq<byte>, start: nat, k: nat)
    requires |payload| >= 60 && part == payload[4..60] && start + 8 <= |part| && k < 8
    ensures part[start..start + 8][k] == payload[4 + start + k]
  {
  }

  lemma OpeningBytes()
    ensures LittleEndian(2, 2) == [2, 0] && LittleEndian(18, 2) == [18, 0]
  {
    assert LittleEndian(0, 1) == [0];
  }

  // A payload is accepted exactly if it is long enough, was written by this protocol version and
  // carries a command in valid UTF-8; otherwise the first of these that fails is the error.
  lemma RefusesExactly(codec: LineCodec, payload: seq<byte>)
    ensures var decoded := DecodeMutation(codec, payload);
            if |payload| < 60 then decoded == Err(TooShort)
            else if payload[..4] != [2, 0, 18, 0] then decoded == Err(WrongProtocol)
            else if !codec.utf8(payload[60..]) then decoded == Err(NotUtf8)
            else if codec.decodeLine(payload[60..]).None? then decoded == Err(MalformedLine)
            else if codec.decodeLine(payload[60..]).value.Command? then
              decoded.Ok? && decoded.value.command == codec.decodeLine(payload[60..]).value.command
            else decoded == Err(NotACommand)
  {
    if |payload| >= 60 {
      VersionIs(payload);
    }
    hide LittleEndian, FromLittleEndian;
  }

  lemma VersionIs(payload: seq<byte>)
    requires |payload| >= 60
    ensures DecodeHeader(payload[..60]).0 == ProtocolVersion(2, 18) <==> payload[..4] == [2, 0, 18, 0]
  {
    hide FromLittleEndian, WordAt;
    TwoBytes(payload[..60][0..2]);
    TwoBytes(payload[..60][2..4]);
    assert payload[..4] == [payload[0], payload[1], payload[2], payload[3]];
  }

  lemma TwoBytes(bytes: seq<byte>)
    requires |bytes| == 2
    ensures FromLittleEndian(bytes) == bytes[0] as int + 256 * (bytes[1] as int)
  {
    assert FromLittleEndian(bytes[1..]) == bytes[1] as int + 256 * FromLittleEndian(bytes[1..][1..]);
  }
}
