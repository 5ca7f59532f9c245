// Bounded line readers over a buffered input that arrives in arbitrary pieces, each against a
// specification that sees the whole input at once (apps/freemix-plugin-host/src/lib.rs,
// apps/freemix-studio/src/supervisor.rs, apps/freemix-cli/src/remote.rs).
module Readers {
  import opened Basics

  const MAX_CONTROL_LINE_BYTES: nat := 4096
  const MAX_READINESS_RECORD_BYTES: nat := 4096
  const MAX_LINE_BYTES: nat := 65536

  // ----- the input -----

  datatype Piece = Data(bytes: seq<byte>) | Interrupt
  datatype End = Closed | TimedOut | Broken
  datatype ReadFault = Interrupted | Late | Failed

  // What a reader that gives up on an interruption sees, and how its input ends.
  function UntilInterrupt(pieces: seq<Piece>): (bytes: seq<byte>) {
    if pieces == [] || pieces[0].Interrupt? then [] else pieces[0].bytes + UntilInterrupt(pieces[1..])
  }

  function EndAfter(pieces: seq<Piece>, end: End): End {
    if pieces == [] then end else if pieces[0].Interrupt? then Broken else EndAfter(pieces[1..], end)
  }

  // What a reader that retries after an interruption sees.
  function AllBytes(pieces: seq<Piece>): (bytes: seq<byte>) {
    if pieces == [] then []
    else if pieces[0].Interrupt? then AllBytes(pieces[1..]) else pieces[0].bytes + AllBytes(pieces[1..])
  }

  ghost predicate NonEmpty(pieces: seq<Piece>) {
    forall i :: 0 <= i < |pieces| && pieces[i].Data? ==> pieces[i].bytes != []
  }

  // A buffered reader: a fill shows the bytes at hand, a consume takes some of them.
  class BufferedInput {
    var pieces: seq<Piece>
    const end: End

    constructor (pieces: seq<Piece>, end: End)
      ensures this.pieces == pieces && this.end == end
    {
      this.pieces, this.end := pieces, end;
    }

    method FillBuffer() returns (buffer: Result<seq<byte>, ReadFault>)
      requires NonEmpty(pieces)
      modifies this
      ensures NonEmpty(pieces)
      ensures buffer == Err(Interrupted) ==> old(pieces) != [] && pieces == old(pieces)[1..]
      ensures buffer != Err(Interrupted) ==> pieces == old(pieces)
      ensures AllBytes(pieces) == AllBytes(old(pieces))
      ensures buffer.Ok? && buffer.value != [] ==>
                && pieces != [] && pieces[0] == Data(buffer.value)
                && buffer.value <= UntilInterrupt(pieces) && buffer.value <= AllBytes(pieces)
      ensures buffer.Ok? && buffer.value == [] ==> pieces == [] && end.Closed? && EndAfter(old(pieces), end).Closed?
      ensures buffer.Err? || buffer.value == [] ==> UntilInterrupt(old(pieces)) == []
      ensures buffer.Err? ==> !EndAfter(old(pieces), end).Closed?
      ensures buffer != Err(Interrupted) && (buffer.Err? || buffer.value == []) ==> pieces == []
      ensures buffer == Err(Late) ==> pieces == [] && end.TimedOut?
      ensures buffer == Err(Failed) ==> pieces == [] && end.Broken?
    {
      if pieces == [] {
        return EndOfInput(end);
      }
      if pieces[0].Data? {
        return Ok(pieces[0].bytes);
      }
      pieces := pieces[1..];
      return Err(Interrupted);
    }

    method Consume(count: nat)
      requires pieces != [] && pieces[0].Data? && 0 < count <= |pieces[0].bytes| && NonEmpty(pieces)
      modifies this
      ensures NonEmpty(pieces)
      ensures UntilInterrupt(pieces) == UntilInterrupt(old(pieces))[count..]
      ensures EndAfter(pieces, end) == EndAfter(old(pieces), end)
      ensures AllBytes(pieces) == AllBytes(old(pieces))[count..]
      ensures |pieces| <= |old(pieces)|
    {
      var bytes := pieces[0].bytes;
      if count == |bytes| {
        pieces := pieces[1..];
      } else {
        pieces := [Data(bytes[count..])] + pieces[1..];
      }
    }
  }

  function EndOfInput(end: End): Result<seq<byte>, ReadFault> {
    match end case Closed => Ok([]) case TimedOut => Err(Late) case Broken => Err(Failed)
  }

  // ----- the first newline -----

  predicate Unbroken(bytes: seq<byte>) { forall i :: 0 <= i < |bytes| ==> bytes[i] != NEWLINE }

  function FirstNewline(bytes: seq<byte>): (index: Option<nat>)
    ensures index.None? <==> Unbroken(bytes)
    ensures index.Some? ==> index.value < |bytes| && bytes[index.value] == NEWLINE && Unbroken(bytes[..index.value])
  {
    if bytes == [] then None
    else if bytes[0] == NEWLINE then Some(0)
    else
      match FirstNewline(bytes[1..])
      case None => None
      case Some(index) =>
        assert bytes[..index + 1] == [bytes[0]] + bytes[1..][..index];
        Some(index + 1)
  }

  lemma NewlineIsFirst(bytes: seq<byte>, index: nat)
    requires index < |bytes| && bytes[index] == NEWLINE && Unbroken(bytes[..index])
    ensures FirstNewline(bytes) == Some(index)
  {
    var found := FirstNewline(bytes).value;
    assert forall i :: 0 <= i < found ==> bytes[..found][i] == bytes[i];
    assert forall i :: 0 <= i < index ==> bytes[..index][i] == bytes[i];
  }

  // The start of the input is an unbroken line and then a piece: no newline of the whole comes
  // before the one of the piece, or before the end of the piece.
  lemma NewlineAfter(whole: seq<byte>, line: seq<byte>, piece: seq<byte>)
    requires line + piece <= whole && Unbroken(line)
    ensures FirstNewline(piece).Some? ==> FirstNewline(whole) == Some(|line| + FirstNewline(piece).value)
    ensures FirstNewline(piece).None? ==>
              && Unbroken(line + piece)
              && (FirstNewline(whole).Some? ==> FirstNewline(whole).value >= |line| + |piece|)
  {
    if FirstNewline(piece).Some? {
      assert whole == line + piece + whole[|line + piece|..];
      NewlineWithin(line, piece, whole[|line + piece|..]);
    } else {
      JoinUnbroken(line, piece);
      hide Unbroken;
      if FirstNewline(whole).Some? {
        NewlineBeyond(whole, line + piece);
      }
    }
  }

  lemma NewlineWithin(line: seq<byte>, piece: seq<byte>, rest: seq<byte>)
    requires Unbroken(line) && FirstNewline(piece).Some?
    ensures FirstNewline(line + piece + rest) == Some(|line| + FirstNewline(piece).value)
  {
    var whole, index := line + piece + rest, FirstNewline(piece).value;
    JoinUnbroken(line, piece[..index]);
    hide FirstNewline, Unbroken;
    assert whole[|line| + index] == NEWLINE;
    assert whole[..|line| + index] == line + piece[..index];
    NewlineIsFirst(whole, |line| + index);
  }

  lemma JoinUnbroken(left: seq<byte>, right: seq<byte>)
    requires Unbroken(left) && Unbroken(right)
    ensures Unbroken(left + right)
  {
  }

  lemma NewlineBeyond(whole: seq<byte>, front: seq<byte>)
    requires front <= whole && Unbroken(front) && FirstNewline(whole).Some?
    ensures FirstNewline(whole).value >= |front|
  {
    assert forall i :: 0 <= i < |front| ==> whole[i] == front[i];
  }

  // ----- the plugin host's control lines -----

  datatype ControlError = ControlIo | ControlLineTooLong

  // The line and whether there is one; at the end of the input a last unterminated line counts.
  function ControlLine(bytes: seq<byte>, end: End): (result: Result<seq<byte>, ControlError>) {
    match FirstNewline(bytes)
    case Some(index) => if index + 1 <= MAX_CONTROL_LINE_BYTES then Ok(bytes[..index + 1]) else Err(ControlLineTooLong)
    case None =>
      if |bytes| > MAX_CONTROL_LINE_BYTES then Err(ControlLineTooLong)
      else if end.Closed? then Ok(bytes) else Err(ControlIo)
  }

  method ReadControlLine(input: BufferedInput) returns (found: Result<bool, ControlError>, line: seq<byte>)
    requires NonEmpty(input.pieces)
    modifies input
    ensures NonEmpty(input.pieces)
    ensures var expected := ControlLine(UntilInterrupt(old(input.pieces)), EndAfter(old(input.pieces), input.end));
            && found == (match expected case Ok(text) => Ok(text != []) case Err(error) => Err(error))
            && (expected.Ok? ==>
                  && line == expected.value
                  && UntilInterrupt(old(input.pieces)) == line + UntilInterrupt(input.pieces)
                  && EndAfter(input.pieces, input.end) == EndAfter(old(input.pieces), input.end))
  {
    line := [];
    ghost var whole, end := UntilInterrupt(input.pieces), EndAfter(input.pieces, input.end);
    assert Unbroken(line);
    hide *;
    while true
      invariant NonEmpty(input.pieces)
      invariant whole == line + UntilInterrupt(input.pieces) && end == EndAfter(input.pieces, input.end)
      invariant Unbroken(line) && |line| <= MAX_CONTROL_LINE_BYTES
      decreases |UntilInterrupt(input.pieces)|
    {
      var filled := input.FillBuffer();
      if filled.Err? {
        assert whole == line;
        ControlLineEnds(whole, end);
        return Err(ControlIo), line;
      }
      var buffer := filled.value;
      if buffer == [] {
        assert whole == line;
        ControlLineEnds(whole, end);
        return Ok(line != []), line;
      }
      var newline := FirstNewline(buffer);
      var length := if newline.Some? then newline.value + 1 else |buffer|;
      Pieces(whole, line, buffer, UntilInterrupt(input.pieces), length);
      if newline.Some? {
        ControlLineCompletes(whole, end, line, buffer);
      } else {
        ControlLineContinues(whole, end, line, buffer);
        assert buffer[..length] == buffer;
      }
      if |line| + length > MAX_CONTROL_LINE_BYTES {
        return Err(ControlLineTooLong), line;
      }
      line := line + buffer[..length];
      input.Consume(length);
      if newline.Some? {
        return Ok(true), line;
      }
    }
  }

  // Moving the front of the piece at hand from the input to the line.
  lemma Pieces(whole: seq<byte>, line: seq<byte>, buffer: seq<byte>, ahead: seq<byte>, length: nat)
    requires whole == line + ahead && buffer <= ahead && length <= |buffer|
    ensures line + buffer <= whole
    ensures whole == line + buffer[..length] + ahead[length..]
  {
    assert ahead == buffer[..length] + ahead[length..];
  }

  lemma FrontOf(whole: seq<byte>, line: seq<byte>, buffer: seq<byte>, length: nat)
    requires line + buffer <= whole && length <= |buffer|
    ensures whole[..|line| + length] == line + buffer[..length]
  {
    assert whole[..|line| + length] == (line + buffer)[..|line| + length];
  }

  lemma ControlLineEnds(whole: seq<byte>, end: End)
    requires Unbroken(whole) && |whole| <= MAX_CONTROL_LINE_BYTES
    ensures ControlLine(whole, end) == if end.Closed? then Ok(whole) else Err(ControlIo)
  {
  }

  lemma ControlLineContinues(whole: seq<byte>, end: End, line: seq<byte>, buffer: seq<byte>)
    requires line + buffer <= whole && Unbroken(line) && FirstNewline(buffer).None?
    ensures |line| + |buffer| > MAX_CONTROL_LINE_BYTES ==> ControlLine(whole, end) == Err(ControlLineTooLong)
    ensures Unbroken(line + buffer)
  {
    NewlineAfter(whole, line, buffer);
    hide FirstNewline, Unbroken;
  }

  lemma ControlLineCompletes(whole: seq<byte>, end: End, line: seq<byte>, buffer: seq<byte>)
    requires line + buffer <= whole && Unbroken(line) && FirstNewline(buffer).Some?
    ensures var text := line + buffer[..FirstNewline(buffer).value + 1];
            ControlLine(whole, end) == if |text| > MAX_CONTROL_LINE_BYTES then Err(ControlLineTooLong) else Ok(text)
  {
    NewlineAfter(whole, line, buffer);
    var length := FirstNewline(buffer).value + 1;
    hide FirstNewline, Unbroken;
    FrontOf(whole, line, buffer, length);
  }

  // ----- the supervisor's readiness record -----

  datatype RecordError = RecordIo | NotTerminated | TooLong | NotUtf8

  function AsText(record: seq<byte>, utf8: seq<byte> -> bool): (result: Result<seq<byte>, RecordError>) {
    if utf8(record) then Ok(record) else Err(NotUtf8)
  }

  // What the end of the input makes of an unterminated record.
  function AtEnd(record: seq<byte>): (result: Result<seq<byte>, RecordError>) {
    if record == [] then Ok([]) else Err(NotTerminated)
  }

  // A terminated record within the limit, or nothing at all if the daemon said nothing.
  function ReadinessRecord(bytes: seq<byte>, end: End, utf8: seq<byte> -> bool): (result: Result<seq<byte>, RecordError>) {
    match FirstNewline(bytes)
    case Some(index) =>
      if index + 1 > MAX_READINESS_RECORD_BYTES then Err(TooLong)
      else AsText(bytes[..index + 1], utf8)
    case None =>
      if |bytes| >= MAX_READINESS_RECORD_BYTES then Err(TooLong)
      else if !end.Closed? then Err(RecordIo)
      else AtEnd(bytes)
  }

  method ReadReadinessRecord(input: BufferedInput, utf8: seq<byte> -> bool)
    returns (result: Result<seq<byte>, RecordError>)
    requires NonEmpty(input.pieces)
    modifies input
    ensures NonEmpty(input.pieces)
    ensures result ==
              ReadinessRecord(UntilInterrupt(old(input.pieces)), EndAfter(old(input.pieces), input.end), utf8)
    ensures result.Ok? ==>
              && UntilInterrupt(old(input.pieces)) == result.value + UntilInterrupt(input.pieces)
              && EndAfter(input.pieces, input.end) == EndAfter(old(input.pieces), input.end)
  {
    var record: seq<byte> := [];
    ghost var whole, end := UntilInterrupt(input.pieces), EndAfter(input.pieces, input.end);
    assert Collected(whole, end, record, input.pieces, input.end);
    hide *;
    while true
      invariant NonEmpty(input.pieces) && |record| < MAX_READINESS_RECORD_BYTES
      invariant Collected(whole, end, record, input.pieces, input.end)
      decreases |UntilInterrupt(input.pieces)|
    {
      ghost var before := input.pieces;
      var filled := input.FillBuffer();
      if filled.Err? {
        CollectedAtEnd(whole, end, record, before, input.end, utf8);
        return Err(RecordIo);
      }
      var buffer := filled.value;
      var newline := FirstNewline(buffer);
      // The budget that is left; it never runs below zero.
      var room: nat := MAX_READINESS_RECORD_BYTES - |record|;
      if newline.None? {
        if buffer == [] {
          CollectedAtEnd(whole, end, record, before, input.end, utf8);
          return AtEnd(record);
        }
        CollectedMore(whole, end, record, before, input.end, buffer, utf8);
        if |buffer| >= room {
          return Err(TooLong);
        }
        record := record + buffer;
        input.Consume(|buffer|);
        CollectedNext(whole, end, record, input.pieces, input.end);
      } else {
        var consumed := newline.value + 1;
        CollectedLine(whole, end, record, before, input.end, buffer, utf8);
        if consumed > room {
          return Err(TooLong);
        }
        result := FinishRecord(input, record + buffer[..consumed], consumed, utf8);
        return;
      }
    }
  }

  // What was read so far is an unbroken start of the input, and the pieces hold the rest of it.
  ghost predicate Collected(whole: seq<byte>, end: End, record: seq<byte>, pieces: seq<Piece>, inputEnd: End) {
    whole == record + UntilInterrupt(pieces) && end == EndAfter(pieces, inputEnd) && Unbroken(record)
  }

  lemma CollectedAtEnd(whole: seq<byte>, end: End, record: seq<byte>, pieces: seq<Piece>, inputEnd: End,
                       utf8: seq<byte> -> bool)
    requires Collected(whole, end, record, pieces, inputEnd) && UntilInterrupt(pieces) == []
    requires |record| < MAX_READINESS_RECORD_BYTES
    ensures whole == record && end == EndAfter(pieces, inputEnd)
    ensures ReadinessRecord(whole, end, utf8) == if end.Closed? then AtEnd(record) else Err(RecordIo)
    ensures AtEnd(record).Ok? ==> whole == AtEnd(record).value + UntilInterrupt(pieces)
  {
    RecordEnds(whole, end, utf8);
    hide ReadinessRecord, EndAfter;
  }

  lemma CollectedMore(whole: seq<byte>, end: End, record: seq<byte>, pieces: seq<Piece>, inputEnd: End,
                      buffer: seq<byte>, utf8: seq<byte> -> bool)
    requires Collected(whole, end, record, pieces, inputEnd) && buffer <= UntilInterrupt(pieces)
    requires FirstNewline(buffer).None?
    ensures |record| + |buffer| >= MAX_READINESS_RECORD_BYTES ==> ReadinessRecord(whole, end, utf8) == Err(TooLong)
    ensures Unbroken(record + buffer) && end == EndAfter(pieces, inputEnd)
    ensures whole == record + buffer + UntilInterrupt(pieces)[|buffer|..]
  {
    WholePiece(whole, record, buffer, UntilInterrupt(pieces));
    RecordContinues(whole, end, utf8, record, buffer);
    hide *;
  }

  lemma CollectedNext(whole: seq<byte>, end: End, record: seq<byte>, pieces: seq<Piece>, inputEnd: End)
    requires whole == record + UntilInterrupt(pieces) && end == EndAfter(pieces, inputEnd) && Unbroken(record)
    ensures Collected(whole, end, record, pieces, inputEnd)
  {
  }

  lemma CollectedLine(whole: seq<byte>, end: End, record: seq<byte>, pieces: seq<Piece>, inputEnd: End,
                      buffer: seq<byte>, utf8: seq<byte> -> bool)
    requires Collected(whole, end, record, pieces, inputEnd) && buffer <= UntilInterrupt(pieces)
    requires FirstNewline(buffer).Some?
    ensures var consumed := FirstNewline(buffer).value + 1;
            var line := record + buffer[..consumed];
            && ReadinessRecord(whole, end, utf8) ==
                 (if |line| > MAX_READINESS_RECORD_BYTES then Err(TooLong) else AsText(line, utf8))
            && whole == line + UntilInterrupt(pieces)[consumed..] && end == EndAfter(pieces, inputEnd)
  {
    var consumed := FirstNewline(buffer).value + 1;
    Pieces(whole, record, buffer, UntilInterrupt(pieces), consumed);
    RecordCompletes(whole, end, utf8, record, buffer);
    hide *;
  }

  // The record is whole: its bytes are consumed and it is read as text.
  method FinishRecord(input: BufferedInput, record: seq<byte>, consumed: nat, utf8: seq<byte> -> bool)
    returns (result: Result<seq<byte>, RecordError>)
    requires NonEmpty(input.pieces) && input.pieces != [] && input.pieces[0].Data?
    requires 0 < consumed <= |input.pieces[0].bytes|
    requires consumed <= |UntilInterrupt(input.pieces)|
    modifies input
    ensures NonEmpty(input.pieces)
    ensures result == AsText(record, utf8) && (result.Ok? ==> result.value == record)
    ensures UntilInterrupt(input.pieces) == UntilInterrupt(old(input.pieces))[consumed..]
    ensures EndAfter(input.pieces, input.end) == EndAfter(old(input.pieces), input.end)
  {
    input.Consume(consumed);
    return AsText(record, utf8);
  }

  lemma WholePiece(whole: seq<byte>, line: seq<byte>, buffer: seq<byte>, ahead: seq<byte>)
    requires whole == line + ahead && buffer <= ahead
    ensures line + buffer <= whole
    ensures whole == line + buffer + ahead[|buffer|..]
  {
    Pieces(whole, line, buffer, ahead, |buffer|);
    assert buffer[..|buffer|] == buffer;
  }

  lemma RecordEnds(whole: seq<byte>, end: End, utf8: seq<byte> -> bool)
    requires Unbroken(whole) && |whole| < MAX_READINESS_RECORD_BYTES
    ensures ReadinessRecord(whole, end, utf8) ==
              if !end.Closed? then Err(RecordIo) else AtEnd(whole)
  {
  }

  lemma RecordContinues(whole: seq<byte>, end: End, utf8: seq<byte> -> bool, record: seq<byte>, buffer: seq<byte>)
    requires record + buffer <= whole && Unbroken(record) && FirstNewline(buffer).None?
    ensures |record| + |buffer| >= MAX_READINESS_RECORD_BYTES ==> ReadinessRecord(whole, end, utf8) == Err(TooLong)
    ensures Unbroken(record + buffer)
  {
    NewlineAfter(whole, record, buffer);
    hide FirstNewline, Unbroken;
  }

  lemma RecordCompletes(whole: seq<byte>, end: End, utf8: seq<byte> -> bool, record: seq<byte>, buffer: seq<byte>)
    requires record + buffer <= whole && Unbroken(record) && FirstNewline(buffer).Some?
    ensures var line := record + buffer[..FirstNewline(buffer).value + 1];
            ReadinessRecord(whole, end, utf8) ==
              if |line| > MAX_READINESS_RECORD_BYTES then Err(TooLong) else AsText(line, utf8)
  {
    NewlineAfter(whole, record, buffer);
    var length := FirstNewline(buffer).value + 1;
    hide FirstNewline, Unbroken, AsText, AtEnd;
    FrontOf(whole, record, buffer, length);
  }
}
