// The studio's OSC decoder: a datagram is an action exactly when it is that action's padded
// address and the padded empty type tag (apps/freemix-studio/src/osc.rs; OSC 1.0
// specification, "OSC-string" under "Atomic Data Types", and "OSC Messages").
module Osc {
  import opened Basics

  const DATAGRAM_CAPACITY: nat := 128

  datatype Action =
    | SelectPreview(number: nat)
    | Cut | Fade | AlphaFade | Slide | Zoom | Wipe
    | FadeToBlack(active: bool)
    | CommitManualTransition
    | CancelManualTransition
  {
    predicate Valid() { SelectPreview? ==> 1 <= number <= 8 }
  }

  function Ascii(text: string): (bytes: seq<byte>)
    ensures |bytes| == |text|
    ensures forall i :: 0 <= i < |text| ==> bytes[i] == text[i] as int % 256
  {
    seq(|text|, i requires 0 <= i < |text| => text[i] as int % 256)
  }

  const SWITCHER: string := "/freemix/switcher/"
  const PREVIEW: string := "preview/"

  function Digit(number: nat): char { if number <= 9 then '0' + number as char else '?' }

  // The part of the address that names the action.
  function NameOf(action: Action): string {
    match action
    case SelectPreview(number) => PREVIEW + [Digit(number)]
    case Cut => "cut"
    case Fade => "fade"
    case AlphaFade => "alpha-fade"
    case Slide => "slide"
    case Zoom => "zoom"
    case Wipe => "wipe"
    case FadeToBlack(active) => if active then "ftb/black" else "ftb/live"
    case CommitManualTransition => "manual/commit"
    case CancelManualTransition => "manual/cancel"
  }

  function AddressOf(action: Action): (address: seq<byte>) { Ascii(SWITCHER + NameOf(action)) }

  function NextMultipleOf4(n: nat): (multiple: nat)
    ensures n <= multiple < n + 4 && multiple % 4 == 0
  {
    (n + 3) / 4 * 4
  }

  function Zeros(count: nat): (zeros: seq<byte>)
    ensures |zeros| == count && forall i :: 0 <= i < count ==> zeros[i] == 0
  {
    seq(count, _ => 0)
  }

  // An OSC-string: the text, a zero, and zeros up to a multiple of four bytes.
  function Padded(text: seq<byte>): (padded: seq<byte>)
    ensures |padded| == NextMultipleOf4(|text| + 1)
  {
    text + Zeros(NextMultipleOf4(|text| + 1) - |text|)
  }

  function Message(action: Action): seq<byte> { Padded(AddressOf(action)) + Padded(Ascii(",")) }

  // ----- the decoder -----

  function FirstZero(bytes: seq<byte>): (index: Option<nat>)
    ensures index.None? ==> forall i :: 0 <= i < |bytes| ==> bytes[i] != 0
    ensures index.Some? ==>
              && index.value < |bytes| && bytes[index.value] == 0
              && forall i :: 0 <= i < index.value ==> bytes[i] != 0
  {
    if bytes == [] then None
    else if bytes[0] == 0 then Some(0)
    else match FirstZero(bytes[1..])
         case None => None
         case Some(index) => Some(index + 1)
  }

  predicate ZerosFrom(bytes: seq<byte>, start: nat) { forall i :: start <= i < |bytes| ==> bytes[i] == 0 }

  datatype Text = Text(value: seq<byte>, end: nat)

  type Utf8 = seq<byte> -> bool

  function PaddedString(datagram: seq<byte>, start: nat, utf8: Utf8): (text: Option<Text>) {
    if start > |datagram| then None
    else
      match FirstZero(datagram[start..])
      case None => None
      case Some(length) =>
        var end := start + NextMultipleOf4(length + 1);
        if end > |datagram| then None
        else
          var padded := datagram[start..end];
          if !ZerosFrom(padded, length) then None
          else if utf8(padded[..length]) then Some(Text(padded[..length], end)) else None
  }

  function ActionOf(address: seq<byte>): (action: Option<Action>) {
    if Ascii(SWITCHER + PREVIEW) <= address then
      var input := address[|SWITCHER + PREVIEW|..];
      if |input| == 1 && 49 <= input[0] <= 56 then Some(SelectPreview(input[0] - 48)) else None
    else if address == Ascii(SWITCHER + "cut") then Some(Cut)
    else if address == Ascii(SWITCHER + "fade") then Some(Fade)
    else if address == Ascii(SWITCHER + "alpha-fade") then Some(AlphaFade)
    else if address == Ascii(SWITCHER + "slide") then Some(Slide)
    else if address == Ascii(SWITCHER + "zoom") then Some(Zoom)
    else if address == Ascii(SWITCHER + "wipe") then Some(Wipe)
    else if address == Ascii(SWITCHER + "ftb/live") then Some(FadeToBlack(false))
    else if address == Ascii(SWITCHER + "ftb/black") then Some(FadeToBlack(true))
    else if address == Ascii(SWITCHER + "manual/commit") then Some(CommitManualTransition)
    else if address == Ascii(SWITCHER + "manual/cancel") then Some(CancelManualTransition)
    else None
  }

  function Decode(datagram: seq<byte>, utf8: Utf8): (action: Option<Action>) {
    match PaddedString(datagram, 0, utf8)
    case None => None
    case Some(address) =>
      match PaddedString(datagram, address.end, utf8)
      case None => None
      case Some(types) =>
        if types.value != Ascii(",") || types.end != |datagram| then None else ActionOf(address.value)
  }

  // ----- padded strings -----

  // The one thing asked of the UTF-8 test: ASCII text passes.
  ghost predicate PassesAscii(utf8: Utf8) {
    forall bytes: seq<byte> :: (forall i :: 0 <= i < |bytes| ==> bytes[i] < 128) ==> utf8(bytes)
  }

  predicate ZeroFree(bytes: seq<byte>) { forall i :: 0 <= i < |bytes| ==> bytes[i] != 0 }

  // What is read as a padded string is exactly the padding of its text.
  lemma ReadTextIsPadded(datagram: seq<byte>, start: nat, utf8: Utf8)
    requires PaddedString(datagram, start, utf8).Some?
    ensures var text := PaddedString(datagram, start, utf8).value;
            && start <= text.end <= |datagram| && ZeroFree(text.value)
            && datagram[start..text.end] == Padded(text.value)
  {
    var text := PaddedString(datagram, start, utf8).value;
    var tail := datagram[start..];
    var length := FirstZero(tail).value;
    var padded := datagram[start..text.end];
    assert text.value == padded[..length] && |padded| == NextMultipleOf4(length + 1);
    assert ZerosFrom(padded, length);
    hide PaddedString, FirstZero, NextMultipleOf4;
    assert padded == tail[..|padded|];
    PaddedParts(padded, length);
    forall i | 0 <= i < length ensures padded[..length][i] != 0 {
      assert padded[..length][i] == tail[i];
    }
  }

  lemma PaddedParts(padded: seq<byte>, length: nat)
    requires length < |padded| == NextMultipleOf4(length + 1)
    requires ZerosFrom(padded, length)
    ensures padded == Padded(padded[..length])
  {
    hide NextMultipleOf4;
    assert padded[length..] == Zeros(|padded| - length);
    assert padded == padded[..length] + padded[length..];
  }

  // A padded text is read back, wherever it stands.
  lemma PaddedTextIsRead(before: seq<byte>, text: seq<byte>, after: seq<byte>, utf8: Utf8)
    requires ZeroFree(text) && utf8(text)
    ensures PaddedString(before + Padded(text) + after, |before|, utf8) ==
              Some(Text(text, |before| + |Padded(text)|))
  {
    var datagram, padded := before + Padded(text) + after, Padded(text);
    var tail := datagram[|before|..];
    assert tail == padded + after;
    assert forall i :: 0 <= i < |text| ==> tail[i] == text[i];
    assert tail[|text|] == 0;
    var found := FirstZero(tail).value;
    assert found == |text|;
    var end := |before| + |padded|;
    assert datagram[|before|..end] == padded;
    assert padded[..|text|] == text;
    assert ZerosFrom(padded, |text|);
  }

  // ----- addresses -----

  predicate Printable(text: string) { forall i :: 0 <= i < |text| ==> 0 < text[i] as int < 128 }

  lemma NamesArePrintable(action: Action)
    requires action.Valid()
    ensures Printable(NameOf(action)) && Printable(SWITCHER + NameOf(action)) && 3 <= |NameOf(action)| <= 13
  {
    NamesDiffer();
    SwitcherIsPrintable();
    assert action.SelectPreview? ==> Printable([Digit(action.number)]);
    hide Printable;
    if action.SelectPreview? {
      PrintableAppend(PREVIEW, [Digit(action.number)]);
    }
    PrintableAppend(SWITCHER, NameOf(action));
  }

  lemma SwitcherIsPrintable()
    ensures Printable(SWITCHER)
  {
  }

  lemma PrintableAppend(left: string, right: string)
    requires Printable(left) && Printable(right)
    ensures Printable(left + right)
  {
  }

  lemma AddressesAreText(action: Action, utf8: Utf8)
    requires action.Valid() && PassesAscii(utf8)
    ensures ZeroFree(AddressOf(action)) && utf8(AddressOf(action))
    ensures 21 <= |AddressOf(action)| <= 31
  {
    NamesArePrintable(action);
    PrintableIsText(SWITCHER + NameOf(action), utf8);
    hide NameOf, ZeroFree, PassesAscii, Printable;
  }

  lemma PrintableIsText(text: string, utf8: Utf8)
    requires Printable(text) && PassesAscii(utf8)
    ensures ZeroFree(Ascii(text)) && utf8(Ascii(text))
  {
    var bytes := Ascii(text);
    assert forall i :: 0 <= i < |bytes| ==> 0 < bytes[i] < 128;
  }

  lemma AsciiOrder(left: string, right: string)
    requires Printable(left) && Printable(right)
    ensures Ascii(left) <= Ascii(right) <==> left <= right
  {
    var a, b := Ascii(left), Ascii(right);
    assert forall i :: 0 <= i < |left| ==> a[i] == left[i] as int;
    assert forall i :: 0 <= i < |right| ==> b[i] == right[i] as int;
    if a <= b {
      forall i | 0 <= i < |left| ensures left[i] == right[i] {
        assert a[i] == b[i];
      }
    }
  }

  // Addresses of different names differ, and only a preview's has the preview prefix.
  lemma NamesTellApart(left: string, right: string)
    requires Printable(left) && Printable(right)
    ensures Ascii(SWITCHER + left) == Ascii(SWITCHER + right) <==> left == right
    ensures Ascii(SWITCHER + left) <= Ascii(SWITCHER + right) <==> left <= right
  {
    AsciiOrder(left, right);
    AsciiAppend(SWITCHER, left);
    AsciiAppend(SWITCHER, right);
    var prefix, a, b := Ascii(SWITCHER), Ascii(left), Ascii(right);
    AsciiLength(left);
    AsciiLength(right);
    hide Ascii, Printable;
    PrefixBehind(prefix, a, b);
  }

  lemma AsciiLength(text: string)
    ensures |Ascii(text)| == |text|
  {
  }

  lemma PrefixBehind(prefix: seq<byte>, left: seq<byte>, right: seq<byte>)
    ensures prefix + left <= prefix + right <==> left <= right
    ensures prefix + left == prefix + right <==> left == right
  {
    assert (prefix + left)[|prefix|..] == left && (prefix + right)[|prefix|..] == right;
    if prefix + left <= prefix + right {
      assert (prefix + right)[..|prefix + left|] == prefix + left;
      assert right[..|left|] == (prefix + right)[|prefix|..|prefix + left|] == left;
    }
    if left <= right {
      assert right == left + right[|left|..];
      assert prefix + right == (prefix + left) + right[|left|..];
    }
  }

  lemma ActionOfName(action: Action)
    requires action.Valid()
    ensures ActionOf(AddressOf(action)) == Some(action)
  {
    var name := NameOf(action);
    NamesArePrintable(action);
    NamesDiffer();
    NamesTellApart(PREVIEW, name);
    if action.SelectPreview? {
      var address := AddressOf(action);
      assert PREVIEW <= name;
      assert address[|SWITCHER + PREVIEW|..] == [48 + action.number];
    } else {
      assert name[0] != PREVIEW[0];
      TableIsByName(name);
      hide Ascii, ActionOf;
      NamedActionOfName(action);
    }
  }

  // The table, on names.
  function NamedAction(name: string): (action: Option<Action>) {
    if name == "cut" then Some(Cut)
    else if name == "fade" then Some(Fade)
    else if name == "alpha-fade" then Some(AlphaFade)
    else if name == "slide" then Some(Slide)
    else if name == "zoom" then Some(Zoom)
    else if name == "wipe" then Some(Wipe)
    else if name == "ftb/live" then Some(FadeToBlack(false))
    else if name == "ftb/black" then Some(FadeToBlack(true))
    else if name == "manual/commit" then Some(CommitManualTransition)
    else if name == "manual/cancel" then Some(CancelManualTransition)
    else None
  }

  lemma NamedActionOfName(action: Action)
    requires !action.SelectPreview?
    ensures NamedAction(NameOf(action)) == Some(action)
  {
    NamesDiffer();
  }

  lemma TableIsByName(name: string)
    requires Printable(name) && !(Ascii(SWITCHER + PREVIEW) <= Ascii(SWITCHER + name))
    ensures ActionOf(Ascii(SWITCHER + name)) == NamedAction(name)
  {
    TableNames(name);
    hide Ascii, Printable;
  }

  lemma TableNames(name: string)
    requires Printable(name)
    ensures Ascii(SWITCHER + "cut") == Ascii(SWITCHER + name) <==> "cut" == name
    ensures Ascii(SWITCHER + "fade") == Ascii(SWITCHER + name) <==> "fade" == name
    ensures Ascii(SWITCHER + "alpha-fade") == Ascii(SWITCHER + name) <==> "alpha-fade" == name
    ensures Ascii(SWITCHER + "slide") == Ascii(SWITCHER + name) <==> "slide" == name
    ensures Ascii(SWITCHER + "zoom") == Ascii(SWITCHER + name) <==> "zoom" == name
    ensures Ascii(SWITCHER + "wipe") == Ascii(SWITCHER + name) <==> "wipe" == name
    ensures Ascii(SWITCHER + "ftb/live") == Ascii(SWITCHER + name) <==> "ftb/live" == name
    ensures Ascii(SWITCHER + "ftb/black") == Ascii(SWITCHER + name) <==> "ftb/black" == name
    ensures Ascii(SWITCHER + "manual/commit") == Ascii(SWITCHER + name) <==> "manual/commit" == name
    ensures Ascii(SWITCHER + "manual/cancel") == Ascii(SWITCHER + name) <==> "manual/cancel" == name
  {
    NamesDiffer();
    hide *;
    NamesTellApart("cut", name);
    NamesTellApart("fade", name);
    NamesTellApart("alpha-fade", name);
    NamesTellApart("slide", name);
    NamesTellApart("zoom", name);
    NamesTellApart("wipe", name);
    NamesTellApart("ftb/live", name);
    NamesTellApart("ftb/black", name);
    NamesTellApart("manual/commit", name);
    NamesTellApart("manual/cancel", name);
  }

  lemma NamesDiffer()
    ensures Printable("cut") && Printable("fade") && Printable("alpha-fade") && Printable("slide") && Printable("zoom")
    ensures Printable("wipe") && Printable("ftb/live") && Printable("ftb/black") && Printable("manual/commit")
    ensures Printable("manual/cancel") && Printable(PREVIEW)
    ensures "fade"[0] != "zoom"[0] && "fade"[0] != "wipe"[0] && "zoom"[0] != "wipe"[0]
    ensures "manual/commit"[8] != "manual/cancel"[8]
  {
  }

  lemma PreviewAddress(address: seq<byte>)
    requires Ascii(SWITCHER + PREVIEW) <= address && |address| == |SWITCHER + PREVIEW| + 1
    requires 49 <= address[|SWITCHER + PREVIEW|] <= 56
    ensures address == AddressOf(SelectPreview(address[|SWITCHER + PREVIEW|] - 48))
  {
    var skip := |SWITCHER + PREVIEW|;
    var digit := [Digit(address[skip] - 48)];
    assert SWITCHER + (PREVIEW + digit) == (SWITCHER + PREVIEW) + digit;
    AsciiAppend(SWITCHER + PREVIEW, digit);
    hide Ascii;
    assert address == address[..skip] + [address[skip]];
    assert Ascii(digit) == [address[skip]];
  }

  lemma AsciiAppend(left: string, right: string)
    ensures Ascii(left + right) == Ascii(left) + Ascii(right)
  {
  }

  // An address that stands for an action is that action's own.
  lemma AddressIsCanonical(address: seq<byte>)
    requires ActionOf(address).Some?
    ensures ActionOf(address).value.Valid() && address == AddressOf(ActionOf(address).value)
  {
    if Ascii(SWITCHER + PREVIEW) <= address {
      hide Ascii;
      PreviewAddress(address);
    } else {
      hide Ascii;
    }
  }

  // ----- the decoder and the messages -----

  // A datagram decodes to an action exactly when it is that action's message.
  lemma DecodesExactlyMessages(datagram: seq<byte>, action: Action, utf8: Utf8)
    requires PassesAscii(utf8)
    ensures Decode(datagram, utf8) == Some(action) <==> action.Valid() && datagram == Message(action)
  {
    if action.Valid() && datagram == Message(action) {
      MessageDecodes(action, utf8);
    }
    if Decode(datagram, utf8) == Some(action) {
      DecodedIsMessage(datagram, action, utf8);
    }
  }

  lemma MessageDecodes(action: Action, utf8: Utf8)
    requires action.Valid() && PassesAscii(utf8)
    ensures Decode(Message(action), utf8) == Some(action)
  {
    AddressesAreText(action, utf8);
    PrintableIsText(",", utf8);
    ActionOfName(action);
    hide AddressOf, ActionOf, Decode, Padded, PassesAscii, ZeroFree, Ascii;
    AddressedMessageDecodes(AddressOf(action), utf8);
  }

  lemma AddressedMessageDecodes(address: seq<byte>, utf8: Utf8)
    requires ZeroFree(address) && utf8(address) && ZeroFree(Ascii(",")) && utf8(Ascii(","))
    ensures Decode(Padded(address) + Padded(Ascii(",")), utf8) == ActionOf(address)
  {
    hide ActionOf, PaddedString, Padded, ZeroFree, Ascii;
    var tag := Ascii(",");
    PaddedTextIsRead([], address, Padded(tag), utf8);
    PaddedTextIsRead(Padded(address), tag, [], utf8);
    assert [] + Padded(address) + Padded(tag) == Padded(address) + Padded(tag) == Padded(address) + Padded(tag) + [];
  }

  lemma DecodedIsMessage(datagram: seq<byte>, action: Action, utf8: Utf8)
    requires Decode(datagram, utf8) == Some(action)
    ensures action.Valid() && datagram == Message(action)
  {
    var address := PaddedString(datagram, 0, utf8).value;
    var types := PaddedString(datagram, address.end, utf8).value;
    assert types.value == Ascii(",") && types.end == |datagram| && ActionOf(address.value) == Some(action);
    hide AddressOf, ActionOf, PaddedString, Padded, ZeroFree, Decode, Ascii;
    ReadTextIsPadded(datagram, 0, utf8);
    ReadTextIsPadded(datagram, address.end, utf8);
    AddressIsCanonical(address.value);
    TwoParts(datagram, address.end);
  }

  lemma TwoParts(datagram: seq<byte>, end: nat)
    requires end <= |datagram|
    ensures datagram == datagram[0..end] + datagram[end..|datagram|]
  {
  }

  lemma MessageLength(address: seq<byte>)
    requires 21 <= |address| <= 31
    ensures 28 <= |Padded(address) + Padded(Ascii(","))| <= 36
  {
    hide Padded, Ascii, NextMultipleOf4;
    assert |Ascii(",")| == 1;
  }

  lemma AcceptedIsShort(datagram: seq<byte>, utf8: Utf8)
    requires PassesAscii(utf8) && Decode(datagram, utf8).Some?
    ensures 28 <= |datagram| <= 36
  {
    hide AddressOf, Decode, PassesAscii, ZeroFree, Padded, Ascii;
    var action := Decode(datagram, utf8).value;
    DecodedIsMessage(datagram, action, utf8);
    AddressesAreText(action, utf8);
    MessageLength(AddressOf(action));
  }

  // Accepted datagrams are short, so one that was cut off at the receive buffer is never an
  // action.
  lemma TruncationCreatesNothing(datagram: seq<byte>, utf8: Utf8)
    requires PassesAscii(utf8)
    ensures Decode(datagram, utf8).Some? ==> 28 <= |datagram| <= 36
    ensures |datagram| >= DATAGRAM_CAPACITY ==> Decode(datagram[..DATAGRAM_CAPACITY], utf8).None?
  {
    hide Decode, PassesAscii;
    if Decode(datagram, utf8).Some? {
      AcceptedIsShort(datagram, utf8);
    }
    if |datagram| >= DATAGRAM_CAPACITY && Decode(datagram[..DATAGRAM_CAPACITY], utf8).Some? {
      AcceptedIsShort(datagram[..DATAGRAM_CAPACITY], utf8);
    }
  }
}
