// The command line's reader of daemon messages: bounded lines, stream status absorbed on the
// way, everything else returned in order (apps/freemix-cli/src/remote.rs).
module RemoteReader {
  import opened Basics
  import Wire
  import opened Readers

  datatype Message = StreamStatus(server: nat, sequence: nat) | Plain(tag: nat)

  datatype RemoteError =
    | LineTooLong | DaemonClosed | ResponseTimedOut | Transport | Undecodable | WrongServer | NotIncreasing

  // The session's server, its last status sequence and all the sequences it has absorbed.
  datatype StatusLog = StatusLog(server: nat, last: Option<nat>, absorbed: seq<nat>)

  type Decoder = seq<byte> -> Option<Message>

  function Absorbed(log: StatusLog, status: Message): (result: Result<StatusLog, RemoteError>)
    requires status.StreamStatus?
  {
    if status.server != log.server then Err(WrongServer)
    else if log.last.Some? && status.sequence <= log.last.value then Err(NotIncreasing)
    else Ok(log.(last := Some(status.sequence), absorbed := log.absorbed + [status.sequence]))
  }

  function EndError(end: End): RemoteError {
    match end case Closed => DaemonClosed case TimedOut => ResponseTimedOut case Broken => Transport
  }

  // What one whole line leads to: a return, or another turn with the status absorbed.
  datatype Verdict = Return(result: Result<Message, RemoteError>) | Again(log: StatusLog)

  function VerdictOf(log: StatusLog, message: Option<Message>): (verdict: Verdict) {
    match message
    case None => Return(Err(Undecodable))
    case Some(Plain(tag)) => Return(Ok(Plain(tag)))
    case Some(StreamStatus(server, sequence)) =>
      match Absorbed(log, StreamStatus(server, sequence))
      case Err(error) => Return(Err(error))
      case Ok(next) => Again(next)
  }

  // The first line of an input seen as a whole, within the limit.
  function FirstLine(bytes: seq<byte>, end: End): (line: Result<seq<byte>, RemoteError>)
    ensures line.Ok? ==> line.value <= bytes && line.value != []
  {
    match FirstNewline(bytes)
    case None => Err(if |bytes| >= MAX_LINE_BYTES then LineTooLong else EndError(end))
    case Some(index) => if index + 1 > MAX_LINE_BYTES then Err(LineTooLong) else Ok(bytes[..index + 1])
  }

  datatype Reading = Reading(result: Result<Message, RemoteError>, log: StatusLog, rest: seq<byte>)

  // Reading one message from an input seen as a whole.
  function ReadMessage(bytes: seq<byte>, end: End, log: StatusLog, decode: Decoder): (reading: Reading)
    ensures reading.result.Ok? ==> |reading.rest| < |bytes|
    decreases |bytes|
  {
    match FirstLine(bytes, end)
    case Err(error) => Reading(Err(error), log, bytes)
    case Ok(line) =>
      match VerdictOf(log, decode(line))
      case Return(result) => Reading(result, log, bytes[|line|..])
      case Again(next) => ReadMessage(bytes[|line|..], end, next, decode)
  }

  // Collecting one line, whatever pieces it comes in.
  method ReadLine(input: BufferedInput) returns (result: Result<seq<byte>, RemoteError>)
    requires NonEmpty(input.pieces)
    modifies input
    ensures NonEmpty(input.pieces)
    ensures result == FirstLine(AllBytes(old(input.pieces)), input.end)
    ensures result.Ok? ==> AllBytes(input.pieces) == AllBytes(old(input.pieces))[|result.value|..]
  {
    var line: seq<byte> := [];
    ghost var whole := AllBytes(input.pieces);
    NothingIsUnbroken();
    hide *;
    while true
      invariant NonEmpty(input.pieces)
      invariant Unbroken(line) && |line| < MAX_LINE_BYTES
      invariant whole == line + AllBytes(input.pieces)
      decreases |AllBytes(input.pieces)|, |input.pieces|
    {
      var filled := input.FillBuffer();
      if filled == Err(Interrupted) {
        continue;
      }
      if filled.Err? || filled.value == [] {
        NothingLeft(input.pieces);
        assert whole == line;
        LineEnds(whole, input.end);
        return Err(if filled.Ok? then DaemonClosed else if filled.error.Late? then ResponseTimedOut else Transport);
      }
      var buffer := filled.value;
      var newline := FirstNewline(buffer);
      var count := if newline.Some? then newline.value + 1 else |buffer|;
      Pieces(whole, line, buffer, AllBytes(input.pieces), count);
      if newline.Some? {
        LineCompletes(whole, input.end, line, buffer);
      } else {
        LineContinues(whole, input.end, line, buffer);
        assert buffer[..count] == buffer;
      }
      if |line| + count > MAX_LINE_BYTES {
        return Err(LineTooLong);
      }
      line := line + buffer[..count];
      input.Consume(count);
      if newline.Some? {
        return Ok(line);
      }
      if |line| == MAX_LINE_BYTES {
        return Err(LineTooLong);
      }
    }
  }

  lemma NothingIsUnbroken()
    ensures Unbroken([])
  {
  }

  lemma NothingLeft(pieces: seq<Piece>)
    ensures pieces == [] ==> AllBytes(pieces) == []
  {
  }

  lemma LineEnds(whole: seq<byte>, end: End)
    requires Unbroken(whole) && |whole| < MAX_LINE_BYTES
    ensures FirstLine(whole, end) ==
              Err(if end.Closed? then DaemonClosed else if end.TimedOut? then ResponseTimedOut else Transport)
  {
  }

  lemma LineContinues(whole: seq<byte>, end: End, line: seq<byte>, buffer: seq<byte>)
    requires line + buffer <= whole && Unbroken(line) && FirstNewline(buffer).None?
    ensures |line| + |buffer| >= MAX_LINE_BYTES ==> FirstLine(whole, end) == Err(LineTooLong)
    ensures Unbroken(line + buffer)
  {
    NewlineAfter(whole, line, buffer);
    hide FirstNewline, Unbroken;
  }

  lemma LineCompletes(whole: seq<byte>, end: End, line: seq<byte>, buffer: seq<byte>)
    requires line + buffer <= whole && Unbroken(line) && FirstNewline(buffer).Some?
    ensures var text := line + buffer[..FirstNewline(buffer).value + 1];
            FirstLine(whole, end) == if |text| > MAX_LINE_BYTES then Err(LineTooLong) else Ok(text)
  {
    NewlineAfter(whole, line, buffer);
    var count := FirstNewline(buffer).value + 1;
    hide FirstNewline, Unbroken;
    assert whole[..|line| + count] == line + buffer[..count];
  }

  // The session that reads, as it updates itself.
  class RemoteSession {
    const server: nat
    const decode: Decoder
    var lastSequence: Option<nat>
    var absorbed: seq<nat>

    ghost function View(): (log: StatusLog)
      reads this
    {
      StatusLog(server, lastSequence, absorbed)
    }

    constructor (server: nat, decode: Decoder)
      ensures View() == StatusLog(server, None, []) && this.decode == decode
    {
      this.server, this.decode := server, decode;
      lastSequence, absorbed := None, [];
    }

    method Absorb(status: Message) returns (error: Option<RemoteError>)
      requires status.StreamStatus?
      modifies this
      ensures var result := Absorbed(old(View()), status);
              if result.Ok? then error.None? && View() == result.value
              else error == Some(result.error) && View() == old(View())
    {
      if status.server != server {
        return Some(WrongServer);
      }
      if lastSequence.Some? && status.sequence <= lastSequence.value {
        return Some(NotIncreasing);
      }
      lastSequence, absorbed := Some(status.sequence), absorbed + [status.sequence];
      return None;
    }

    method JudgeLine(line: seq<byte>) returns (answer: Option<Result<Message, RemoteError>>)
      modifies this
      ensures var verdict := VerdictOf(old(View()), decode(line));
              if verdict.Return? then answer == Some(verdict.result) && View() == old(View())
              else answer.None? && View() == verdict.log
    {
      var message := decode(line);
      if message.None? {
        return Some(Err(Undecodable));
      }
      if message.value.StreamStatus? {
        var error := Absorb(message.value);
        if error.Some? {
          return Some(Err(error.value));
        }
        return None;
      }
      return Some(Ok(message.value));
    }

    method ReadUntil(input: BufferedInput) returns (result: Result<Message, RemoteError>)
      requires NonEmpty(input.pieces)
      modifies this, input
      ensures NonEmpty(input.pieces)
      ensures var reading := ReadMessage(AllBytes(old(input.pieces)), input.end, old(View()), decode);
              && result == reading.result
              && View() == reading.log
              && (result.Ok? ==> AllBytes(input.pieces) == reading.rest)
    {
      ghost var reading := ReadMessage(AllBytes(input.pieces), input.end, View(), decode);
      hide FirstLine, VerdictOf, AllBytes, UntilInterrupt;
      while true
        invariant NonEmpty(input.pieces)
        invariant ReadMessage(AllBytes(input.pieces), input.end, View(), decode) == reading
        decreases |AllBytes(input.pieces)|
      {
        var line := ReadLine(input);
        if line.Err? {
          return Err(line.error);
        }
        var answer := JudgeLine(line.value);
        if answer.Some? {
          return answer.value;
        }
      }
    }
  }

  // ----- reading until the input gives out -----

  // The messages that repeated reads return, the status log they leave and the final error.
  datatype Reads = Reads(messages: seq<Message>, log: StatusLog, error: RemoteError)

  function ReadAll(bytes: seq<byte>, end: End, log: StatusLog, decode: Decoder): (outcome: Reads)
    decreases |bytes|
  {
    var reading := ReadMessage(bytes, end, log, decode);
    match reading.result
    case Err(error) => Reads([], reading.log, error)
    case Ok(message) =>
      var later := ReadAll(reading.rest, end, reading.log, decode);
      later.(messages := [message] + later.messages)
  }

  // The same, told in messages instead of bytes.
  function Expected(messages: seq<Message>, end: End, log: StatusLog): (outcome: Reads) {
    if messages == [] then Reads([], log, EndError(end))
    else if messages[0].Plain? then
      var later := Expected(messages[1..], end, log);
      later.(messages := [messages[0]] + later.messages)
    else
      match Absorbed(log, messages[0])
      case Err(error) => Reads([], log, error)
      case Ok(next) => Expected(messages[1..], end, next)
  }

  lemma FirstLineOfMany(line: seq<byte>, rest: seq<byte>, end: End)
    requires Wire.LineShaped(line) && |line| <= MAX_LINE_BYTES
    ensures FirstLine(line + rest, end) == Ok(line) && (line + rest)[|line|..] == rest
  {
    NewlineIsFirst(line + rest, |line| - 1);
    assert (line + rest)[..|line|] == line;
  }

  lemma OneMoreLine(line: seq<byte>, rest: seq<byte>, end: End, log: StatusLog, decode: Decoder)
    requires Wire.LineShaped(line) && |line| <= MAX_LINE_BYTES
    ensures var verdict := VerdictOf(log, decode(line));
            ReadMessage(line + rest, end, log, decode) ==
              if verdict.Return? then Reading(verdict.result, log, rest)
              else ReadMessage(rest, end, verdict.log, decode)
  {
    FirstLineOfMany(line, rest, end);
    hide FirstLine, VerdictOf;
  }

  // Whole lines, in whatever pieces they arrive, are read as the messages they encode.
  lemma {:induction false} LinesAreReadInOrder(
    lines: seq<seq<byte>>, messages: seq<Message>, end: End, log: StatusLog, decode: Decoder)
    requires |lines| == |messages|
    requires forall i :: 0 <= i < |lines| ==>
               Wire.LineShaped(lines[i]) && |lines[i]| <= MAX_LINE_BYTES && decode(lines[i]) == Some(messages[i])
    ensures ReadAll(Flatten(lines), end, log, decode) == Expected(messages, end, log)
  {
    if lines == [] {
      NothingIsUnbroken();
      LineEnds([], end);
    } else {
      OneMoreLine(lines[0], Flatten(lines[1..]), end, log, decode);
      hide ReadMessage, FirstLine, Wire.LineShaped;
      if messages[0].Plain? {
        LinesAreReadInOrder(lines[1..], messages[1..], end, log, decode);
      } else if Absorbed(log, messages[0]).Ok? {
        LinesAreReadInOrder(lines[1..], messages[1..], end, Absorbed(log, messages[0]).value, decode);
      }
    }
  }

  // ----- what is returned, what is absorbed -----

  function PlainOf(messages: seq<Message>): (plain: seq<Message>) {
    if messages == [] then []
    else if messages[0].Plain? then [messages[0]] + PlainOf(messages[1..]) else PlainOf(messages[1..])
  }

  function SequencesOf(messages: seq<Message>): (sequences: seq<nat>) {
    if messages == [] then []
    else if messages[0].Plain? then SequencesOf(messages[1..])
    else [messages[0].sequence] + SequencesOf(messages[1..])
  }

  predicate Ascending(sequences: seq<nat>) { forall i, j :: 0 <= i < j < |sequences| ==> sequences[i] < sequences[j] }

  predicate OwnServer(messages: seq<Message>, server: nat) {
    forall i :: 0 <= i < |messages| && messages[i].StreamStatus? ==> messages[i].server == server
  }

  ghost predicate Orderly(log: StatusLog) {
    && Ascending(log.absorbed)
    && log.last == (if log.absorbed == [] then None else Some(log.absorbed[|log.absorbed| - 1]))
  }

  lemma AbsorbedIsOrderly(log: StatusLog, status: Message)
    requires Orderly(log) && status.StreamStatus? && Absorbed(log, status).Ok?
    ensures Orderly(Absorbed(log, status).value)
  {
  }

  // On every input whatsoever the absorbed status sequences are strictly increasing.
  lemma {:induction false} ReadingIsOrderly(bytes: seq<byte>, end: End, log: StatusLog, decode: Decoder)
    requires Orderly(log)
    ensures Orderly(ReadMessage(bytes, end, log, decode).log)
    ensures log.absorbed <= ReadMessage(bytes, end, log, decode).log.absorbed
    decreases |bytes|
  {
    hide Orderly;
    var line := FirstLine(bytes, end);
    if line.Ok? && VerdictOf(log, decode(line.value)).Again? {
      AbsorbedIsOrderly(log, decode(line.value).value);
      ReadingIsOrderly(bytes[|line.value|..], end, VerdictOf(log, decode(line.value)).log, decode);
    }
  }

  lemma {:induction false} StatusSequencesIncrease(bytes: seq<byte>, end: End, log: StatusLog, decode: Decoder)
    requires Orderly(log)
    ensures Orderly(ReadAll(bytes, end, log, decode).log)
    ensures log.absorbed <= ReadAll(bytes, end, log, decode).log.absorbed
    ensures forall i :: 0 <= i < |ReadAll(bytes, end, log, decode).messages| ==>
              ReadAll(bytes, end, log, decode).messages[i].Plain?
    decreases |bytes|
  {
    ReadingIsOrderly(bytes, end, log, decode);
    var reading := ReadMessage(bytes, end, log, decode);
    if reading.result.Ok? {
      PlainIsReturned(bytes, end, log, decode);
      hide ReadMessage, Orderly;
      StatusSequencesIncrease(reading.rest, end, reading.log, decode);
    }
  }

  lemma {:induction false} PlainIsReturned(bytes: seq<byte>, end: End, log: StatusLog, decode: Decoder)
    ensures ReadMessage(bytes, end, log, decode).result.Ok? ==> ReadMessage(bytes, end, log, decode).result.value.Plain?
    decreases |bytes|
  {
    var line := FirstLine(bytes, end);
    if line.Ok? && VerdictOf(log, decode(line.value)).Again? {
      PlainIsReturned(bytes[|line.value|..], end, VerdictOf(log, decode(line.value)).log, decode);
    }
  }

  // All messages other than status come out, in order, and the reads end only with the input,
  // exactly when every status is from this server and the sequences keep increasing.
  lemma {:induction false} EverythingIsReturned(messages: seq<Message>, end: End, log: StatusLog)
    requires Orderly(log)
    ensures var outcome := Expected(messages, end, log);
            && outcome.messages <= PlainOf(messages)
            && ((outcome.error == EndError(end) && outcome.messages == PlainOf(messages)
                 && outcome.log.absorbed == log.absorbed + SequencesOf(messages)) <==>
                (OwnServer(messages, log.server) && Ascending(log.absorbed + SequencesOf(messages))))
  {
    if messages == [] {
      assert log.absorbed + [] == log.absorbed;
    } else {
      var head, tail := messages[0], messages[1..];
      assert messages == [head] + tail;
      if head.Plain? {
        EverythingIsReturned(tail, end, log);
        assert OwnServer(messages, log.server) <==> OwnServer(tail, log.server);
      } else {
        StatusIsJudged(messages, end, log);
        if Absorbed(log, head).Ok? {
          var next := Absorbed(log, head).value;
          EverythingIsReturned(tail, end, next);
          assert next.absorbed + SequencesOf(tail) == log.absorbed + SequencesOf(messages);
        }
      }
    }
  }

  lemma StatusIsJudged(messages: seq<Message>, end: End, log: StatusLog)
    requires Orderly(log) && messages != [] && messages[0].StreamStatus?
    ensures var head, tail := messages[0], messages[1..];
            if Absorbed(log, head).Ok? then
              && Orderly(Absorbed(log, head).value)
              && (OwnServer(messages, log.server) <==> OwnServer(tail, log.server))
            else
              && !(OwnServer(messages, log.server) && Ascending(log.absorbed + SequencesOf(messages)))
              && Absorbed(log, head).error != EndError(end)
  {
    var head, tail := messages[0], messages[1..];
    assert messages == [head] + tail;
    var all := log.absorbed + SequencesOf(messages);
    assert all[|log.absorbed|] == head.sequence;
    if Absorbed(log, head) == Err(NotIncreasing) {
      assert all[|log.absorbed| - 1] == log.last.value;
    }
  }
}
