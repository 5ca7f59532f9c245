// Which lines the three readers return and what they say of the others.
module ReaderAnswers {
  import opened Basics
  import opened Readers
  import opened RemoteReader

  // An input that starts with one whole line.
  function Terminated(text: seq<byte>, rest: seq<byte>): (bytes: seq<byte>)
    ensures |bytes| == |text| + 1 + |rest|
  {
    text + [10] + rest
  }

  lemma TerminatedLine(text: seq<byte>, rest: seq<byte>)
    requires Unbroken(text)
    ensures var bytes := Terminated(text, rest);
            && FirstNewline(bytes) == Some(|text|)
            && bytes[..|text| + 1] == text + [10] && bytes[|text| + 1..] == rest
  {
    var bytes := Terminated(text, rest);
    assert bytes[..|text|] == text && bytes[|text|] == NEWLINE;
    NewlineIsFirst(bytes, |text|);
    assert bytes[..|text| + 1] == text + [10];
    assert bytes[|text| + 1..] == rest;
  }

  // ----- control lines -----

  // A line of at most 4096 bytes, the newline among them, is returned as it is whatever follows.
  lemma ControlLineIsReturned(text: seq<byte>, rest: seq<byte>, end: End)
    requires Unbroken(text)
    ensures ControlLine(Terminated(text, rest), end) ==
              if |text| + 1 <= 4096 then Ok(text + [10]) else Err(ControlLineTooLong)
  {
    TerminatedLine(text, rest);
  }

  // Without a newline the last bytes count as a line if the input is closed, and silence is no line.
  lemma LastControlLineCounts(text: seq<byte>, end: End)
    requires Unbroken(text)
    ensures |text| > 4096 ==> ControlLine(text, end) == Err(ControlLineTooLong)
    ensures |text| <= 4096 ==> ControlLine(text, end) == if end == Closed then Ok(text) else Err(ControlIo)
  {
  }

  // ----- the readiness record -----

  // A record of at most 4096 bytes, the newline among them, is returned as it is if it is valid
  // UTF-8, whatever follows.
  lemma RecordIsReturned(text: seq<byte>, rest: seq<byte>, end: End, utf8: seq<byte> -> bool)
    requires Unbroken(text)
    ensures var record := ReadinessRecord(Terminated(text, rest), end, utf8);
            && (|text| + 1 > 4096 ==> record == Err(TooLong))
            && (|text| + 1 <= 4096 && utf8(text + [10]) ==> record == Ok(text + [10]))
            && (|text| + 1 <= 4096 && !utf8(text + [10]) ==> record == Err(NotUtf8))
  {
    TerminatedLine(text, rest);
  }

  // A daemon that closes without a word gives an empty record; one that stops in the middle, says
  // nothing in time or says too much gives an error.
  lemma SilenceIsEmpty(text: seq<byte>, end: End, utf8: seq<byte> -> bool)
    requires Unbroken(text)
    ensures var record := ReadinessRecord(text, end, utf8);
            && (record.Ok? <==> text == [] && end == Closed)
            && (record.Ok? ==> record.value == [])
            && (record == Err(TooLong) <==> |text| >= 4096)
            && (record == Err(RecordIo) <==> |text| < 4096 && end != Closed)
            && (record == Err(NotTerminated) <==> 0 < |text| < 4096 && end == Closed)
  {
  }

  // ----- the command line's messages -----

  // A line that cannot be decoded ends the read with an error and is gone.
  lemma UndecodableEndsTheRead(text: seq<byte>, rest: seq<byte>, end: End, log: StatusLog, decode: Decoder)
    requires Unbroken(text) && |text| + 1 <= 65536 && decode(text + [10]) == None
    ensures ReadMessage(Terminated(text, rest), end, log, decode) == Reading(Err(Undecodable), log, rest)
  {
    TerminatedLine(text, rest);
  }

  // A message that is no status is returned and leaves what follows.
  lemma MessageIsReturned(text: seq<byte>, rest: seq<byte>, end: End, log: StatusLog, decode: Decoder, tag: nat)
    requires Unbroken(text) && |text| + 1 <= 65536 && decode(text + [10]) == Some(Plain(tag))
    ensures ReadMessage(Terminated(text, rest), end, log, decode) == Reading(Ok(Plain(tag)), log, rest)
  {
    TerminatedLine(text, rest);
  }

  // A status of this server with a sequence above the last one is noted and the read goes on; any
  // other status ends it and is not noted.
  lemma StatusIsAbsorbedExactly(text: seq<byte>, rest: seq<byte>, end: End, log: StatusLog, decode: Decoder,
                                server: nat, sequence: nat)
    requires Unbroken(text) && |text| + 1 <= 65536 && decode(text + [10]) == Some(StreamStatus(server, sequence))
    ensures var reading := ReadMessage(Terminated(text, rest), end, log, decode);
            if server != log.server then reading == Reading(Err(WrongServer), log, rest)
            else if log.last.None? || sequence > log.last.value then
              reading == ReadMessage(rest, end, StatusLog(log.server, Some(sequence), log.absorbed + [sequence]), decode)
            else reading == Reading(Err(NotIncreasing), log, rest)
  {
    TerminatedLine(text, rest);
  }

  // A line beyond 65536 bytes is refused before it is decoded, whether or not it ever ends, and a
  // shorter one that does not end is refused for the reason the input ends.
  lemma UnreadableEndsTheRead(text: seq<byte>, rest: seq<byte>, end: End, log: StatusLog, decode: Decoder)
    requires Unbroken(text)
    ensures |text| + 1 > 65536 ==>
              ReadMessage(Terminated(text, rest), end, log, decode) == Reading(Err(LineTooLong), log, Terminated(text, rest))
    ensures var result := ReadMessage(text, end, log, decode).result;
            && (result == Err(LineTooLong) <==> |text| >= 65536)
            && (result == Err(DaemonClosed) <==> |text| < 65536 && end == Closed)
            && (result == Err(ResponseTimedOut) <==> |text| < 65536 && end == TimedOut)
            && (result == Err(Transport) <==> |text| < 65536 && end == Broken)
  {
    TerminatedLine(text, rest);
  }
}
