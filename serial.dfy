/** The host's device link (mixer-gui/src-tauri/src/serial.rs): listing and
    discovering serial ports, the connection state of `SerialManager`, and
    the reader task that frames the received text into telemetry samples. */
module Serial {
  import opened Common
  import opened Text
  import opened Types
  import opened Framing
  import opened JsonLine

  // ---------------------------------------------------------------------
  // Port enumeration and discovery

  /** What the operating system reports about a USB serial device. */
  datatype UsbInfo = UsbInfo(product: Option<string>, manufacturer: Option<string>)

  datatype PortType = UsbPort(info: UsbInfo) | OtherPort

  /** One entry of `serialport::available_ports()`. */
  datatype PortDescriptor = PortDescriptor(portName: string, portType: PortType)

  /** The user-facing description of one port. */
  function Describe(p: PortDescriptor): SerialPortInfo
  {
    match p.portType
    case UsbPort(info) =>
      SerialPortInfo(p.portName, UnwrapOr(info.product, "Unknown") + " - " + UnwrapOr(info.manufacturer, "Unknown"))
    case OtherPort => SerialPortInfo(p.portName, "Serial Port")
  }

  /** `list_ports`: every enumerated port, in order, with its description;
      an enumeration failure becomes an error. */
  function ListPorts(enumeration: Result<seq<PortDescriptor>>): (r: Result<seq<SerialPortInfo>>)
    ensures r.Err? <==> enumeration.Err?
    ensures r.Err? ==> r.error == "Failed to list ports: " + enumeration.error
    ensures r.Ok? ==> |r.value| == |enumeration.value|
    ensures r.Ok? ==> forall i :: 0 <= i < |r.value| ==>
      r.value[i].portName == enumeration.value[i].portName
      && (enumeration.value[i].portType.OtherPort? ==> r.value[i].description == "Serial Port")
      && (enumeration.value[i].portType.UsbPort? ==>
            var info := enumeration.value[i].portType.info;
            r.value[i].description == UnwrapOr(info.product, "Unknown") + " - " + UnwrapOr(info.manufacturer, "Unknown"))
  {
    match enumeration
    case Err(e) => Err("Failed to list ports: " + e)
    case Ok(ports) => Ok(seq(|ports|, i requires 0 <= i < |ports| => Describe(ports[i])))
  }

  /** A USB port whose product names a Pico or an RP2040, or whose
      manufacturer is Raspberry (case-insensitively). */
  predicate UsbMatch(p: PortDescriptor)
  {
    match p.portType
    case UsbPort(info) =>
      || (info.product.Some?
          && (Contains(Lower(info.product.value), "pico") || Contains(Lower(info.product.value), "rp2040")))
      || (info.manufacturer.Some? && Contains(Lower(info.manufacturer.value), "raspberry"))
    case OtherPort => false
  }

  /** A port name that looks like a USB modem or ACM device, or a short
      COM name: `a || b || c && d`, where `&&` binds tighter. */
  predicate NameMatch(name: string)
  {
    var n := Lower(name);
    || Contains(n, "usbmodem")
    || Contains(n, "ttyacm")
    || (Contains(n, "com") && |n| <= 5)
  }

  predicate IsPicoCandidate(p: PortDescriptor)
  {
    UsbMatch(p) || NameMatch(p.portName)
  }

  /** The position of the first candidate port. */
  function FirstCandidate(ports: seq<PortDescriptor>): (r: Option<nat>)
    ensures r.None? <==> forall i :: 0 <= i < |ports| ==> !IsPicoCandidate(ports[i])
    ensures r.Some? ==> r.value < |ports| && IsPicoCandidate(ports[r.value])
    ensures r.Some? ==> forall j :: 0 <= j < r.value ==> !IsPicoCandidate(ports[j])
  {
    if |ports| == 0 then None
    else if IsPicoCandidate(ports[0]) then Some(0)
    else
      match FirstCandidate(ports[1..])
      case None => None
      case Some(k) => Some(k + 1)
  }

  /** `find_pico_port`: the name of the first candidate in enumeration
      order; nothing when none matches or the enumeration fails. */
  function FindPicoPort(enumeration: Result<seq<PortDescriptor>>): (r: Option<string>)
    ensures enumeration.Err? ==> r.None?
    ensures enumeration.Ok? ==>
      (r.None? <==> forall i :: 0 <= i < |enumeration.value| ==> !IsPicoCandidate(enumeration.value[i]))
    ensures r.Some? ==>
      exists i :: 0 <= i < |enumeration.value|
        && IsPicoCandidate(enumeration.value[i]) && r.value == enumeration.value[i].portName
        && forall j :: 0 <= j < i ==> !IsPicoCandidate(enumeration.value[j])
  {
    match enumeration
    case Err(_) => None
    case Ok(ports) =>
      match FirstCandidate(ports)
      case None => None
      case Some(i) => Some(ports[i].portName)
  }

  /** A short COM name matches, a longer one does not: the length bound
      applies to the "com" test only. Any name with "ttyacm" matches
      whatever its length. */
  lemma NamePrecedence(name: string)
    ensures NameMatch("COM3")
    ensures !NameMatch("COM123")
    ensures Contains(Lower(name), "ttyacm") ==> NameMatch(name)
  {
    assert Lower("COM3") == "com3";
    assert "com3"[..3] == "com";
    assert Lower("COM123") == "com123";
    var n := "com123";
    assert n[..6][0] != "ttyacm"[0];
    assert !Contains(n[1..], "ttyacm");
  }

  /** The port `connect` tries: the requested one, else the discovered one. */
  function ChosenPort(requested: Option<string>, enumeration: Result<seq<PortDescriptor>>): (r: Option<string>)
    ensures requested.Some? ==> r == requested
    ensures requested.None? ==> r == FindPicoPort(enumeration)
  {
    if requested.Some? then requested else FindPicoPort(enumeration)
  }

  // ---------------------------------------------------------------------
  // Connection state

  /** An open port, identified by the name it was opened under. */
  datatype PortHandle = PortHandle(name: string)

  /** The result of one `read` on the open port: text (possibly empty, a
      zero-byte read) or an error such as a timeout. */
  datatype ReadResult = Read(text: string) | ReadError

  /** What happens next while the reader runs: another task disconnects,
      another task's `connect` succeeds and stores the port `handle` under
      `name` (the reader holds the same shared slot, so it goes on with the
      new port and its old accumulator), or the reader polls the port,
      which yields `result` if one is open. */
  datatype ReaderStep = Detach | Attach(handle: PortHandle, name: string) | Poll(result: ReadResult)

  /** The status `connect` reports for these inputs: connected exactly when
      a port was chosen and opening it succeeded. */
  function ConnectStatus(requested: Option<string>, enumeration: Result<seq<PortDescriptor>>,
                         open: string -> Result<PortHandle>): (s: ConnectionStatus)
    ensures s.connected <==>
      ChosenPort(requested, enumeration).Some? && open(ChosenPort(requested, enumeration).value).Ok?
    ensures s.connected ==> s.port == ChosenPort(requested, enumeration) && s.error.None?
    ensures !s.connected ==> s.port.None? && s.error.Some?
  {
    match ChosenPort(requested, enumeration)
    case None => ConnectionStatus(false, None, Some("No Pico device found"))
    case Some(name) =>
      match open(name)
      case Ok(_) => ConnectionStatus(true, Some(name), None)
      case Err(e) => ConnectionStatus(false, None, Some("Failed to connect: " + e))
  }

  class SerialManager {
    var port: Option<PortHandle>
    var portName: Option<string>

    /** A name is recorded exactly when a port is open. */
    ghost predicate Valid()
      reads this
    {
      port.Some? <==> portName.Some?
    }

    constructor()
      ensures Valid() && port.None? && portName.None?
    {
      port := None;
      portName := None;
    }

    /** `is_connected`. */
    function IsConnected(): (b: bool)
      reads this
      ensures b <==> port.Some?
    {
      port.Some?
    }

    /** `get_status`: connected iff a port is open, the recorded name, and
        never an error. */
    function GetStatus(): (s: ConnectionStatus)
      reads this
      ensures s.connected == port.Some? && s.port == portName && s.error.None?
    {
      ConnectionStatus(IsConnected(), portName, None)
    }

    /** `disconnect`: drops the port and its name. */
    method Disconnect()
      modifies this
      ensures port.None? && portName.None? && !IsConnected()
      ensures Valid()
    {
      port := None;
      portName := None;
    }

    /** `connect`: disconnects, chooses the requested or the discovered
        port and opens it with `open`. The outcome does not depend on the
        state before the call. The Rust function never returns Err. */
    method Connect(requested: Option<string>, enumeration: Result<seq<PortDescriptor>>,
                   open: string -> Result<PortHandle>) returns (r: Result<ConnectionStatus>)
      modifies this
      ensures Valid() && r.Ok?
      ensures ChosenPort(requested, enumeration).None? ==>
        && port.None? && portName.None?
        && r.value == ConnectionStatus(false, None, Some("No Pico device found"))
      ensures ChosenPort(requested, enumeration).Some? && open(ChosenPort(requested, enumeration).value).Err? ==>
        && port.None? && portName.None?
        && r.value == ConnectionStatus(false, None,
                        Some("Failed to connect: " + open(ChosenPort(requested, enumeration).value).error))
      ensures ChosenPort(requested, enumeration).Some? && open(ChosenPort(requested, enumeration).value).Ok? ==>
        && port == Some(open(ChosenPort(requested, enumeration).value).value)
        && portName == ChosenPort(requested, enumeration)
        && r.value == ConnectionStatus(true, portName, None)
        && r.value == GetStatus()
      ensures r.value == ConnectStatus(requested, enumeration, open)
    {
      Disconnect();
      var portToUse := ChosenPort(requested, enumeration);
      match portToUse {
        case Some(name) =>
          match open(name) {
            case Ok(handle) =>
              port := Some(handle);
              portName := Some(name);
              r := Ok(ConnectionStatus(true, Some(name), None));
            case Err(e) =>
              r := Ok(ConnectionStatus(false, None, Some("Failed to connect: " + e)));
          }
        case None =>
          r := Ok(ConnectionStatus(false, None, Some("No Pico device found")));
      }
    }

    /** The reader task of `start_reading`, driven by `script`: it stops at
        the first poll that finds the slot empty. Every sample decoded from
        a complete line is sent, in order, whichever port the text came
        from; the accumulator ends as the text after the last newline of
        everything read; the slot ends as the steps left it. */
    method ReadLoop(script: seq<ReaderStep>) returns (sent: seq<PotentiometerData>, lineBuffer: string)
      requires Valid()
      modifies this
      ensures Valid()
      ensures sent == DecodeAll(SplitLines(Consumed(old(port).Some?, script)).0)
      ensures lineBuffer == SplitLines(Consumed(old(port).Some?, script)).1
      ensures port == PortAfter(old(port), script)
      ensures portName == NameAfter(old(portName), script)
    {
      ghost var total := Consumed(port.Some?, script);
      ghost var finalPort := PortAfter(port, script);
      ghost var finalName := NameAfter(portName, script);
      sent, lineBuffer := [], "";
      ghost var consumed := "";
      var i := 0;
      assert script[i..] == script;
      while i < |script|
        invariant 0 <= i <= |script| && Valid()
        invariant total == consumed + Consumed(port.Some?, script[i..])
        invariant sent == DecodeAll(SplitLines(consumed).0)
        invariant lineBuffer == SplitLines(consumed).1
        invariant finalPort == PortAfter(port, script[i..])
        invariant finalName == NameAfter(portName, script[i..])
        decreases |script| - i
      {
        if script[i].Detach? {
          ConsumedDetach(port, portName, script, i);
          Disconnect();
        } else if script[i].Attach? {
          ConsumedAttach(port, portName, script, i);
          port := Some(script[i].handle);
          portName := Some(script[i].name);
        } else if port.None? {
          ReaderStops(consumed, portName, script[i..]);
          return;
        } else {
          ConsumedPoll(port, portName, script, i);
          var chunk := ReadText(script[i].result);
          AppendAssoc(consumed, chunk, Consumed(true, script[i + 1..]));
          sent, lineBuffer := PushChunk(consumed, sent, lineBuffer, chunk);
          consumed := consumed + chunk;
        }
        i := i + 1;
      }
      assert Consumed(port.Some?, script[i..]) == "";
      assert consumed + "" == consumed;
    }
  }

  /** The text the reader appends, starting with a port open or not: a
      poll of an open port appends what was read, a detach empties the
      slot, an attach fills it, and the first poll of an empty slot ends
      the task. */
  function Consumed(connected: bool, script: seq<ReaderStep>): string
    decreases |script|
  {
    if |script| == 0 then ""
    else
      match script[0]
      case Detach => Consumed(false, script[1..])
      case Attach(_, _) => Consumed(true, script[1..])
      case Poll(result) =>
        if !connected then "" else ReadText(result) + Consumed(true, script[1..])
  }

  /** What a successful read contributes: its text; a failed read nothing. */
  function ReadText(result: ReadResult): string
  {
    match result
    case Read(text) => text
    case ReadError => ""
  }

  /** The port in the shared slot when the reader ends. */
  function PortAfter(port: Option<PortHandle>, script: seq<ReaderStep>): Option<PortHandle>
    decreases |script|
  {
    if |script| == 0 then port
    else
      match script[0]
      case Detach => PortAfter(None, script[1..])
      case Attach(handle, _) => PortAfter(Some(handle), script[1..])
      case Poll(_) => if port.None? then None else PortAfter(port, script[1..])
  }

  /** The recorded port name when the reader ends. */
  function NameAfter(name: Option<string>, script: seq<ReaderStep>): Option<string>
    decreases |script|
  {
    if |script| == 0 then name
    else
      match script[0]
      case Detach => NameAfter(None, script[1..])
      case Attach(_, n) => NameAfter(Some(n), script[1..])
      case Poll(_) => if name.None? then None else NameAfter(name, script[1..])
  }

  lemma ConsumedDetach(port: Option<PortHandle>, name: Option<string>, script: seq<ReaderStep>, i: nat)
    requires i < |script| && script[i].Detach?
    ensures Consumed(port.Some?, script[i..]) == Consumed(false, script[i + 1..])
    ensures PortAfter(port, script[i..]) == PortAfter(None, script[i + 1..])
    ensures NameAfter(name, script[i..]) == NameAfter(None, script[i + 1..])
  {
    assert script[i..][1..] == script[i + 1..];
  }

  lemma ConsumedAttach(port: Option<PortHandle>, name: Option<string>, script: seq<ReaderStep>, i: nat)
    requires i < |script| && script[i].Attach?
    ensures Consumed(port.Some?, script[i..]) == Consumed(true, script[i + 1..])
    ensures PortAfter(port, script[i..]) == PortAfter(Some(script[i].handle), script[i + 1..])
    ensures NameAfter(name, script[i..]) == NameAfter(Some(script[i].name), script[i + 1..])
  {
    assert script[i..][1..] == script[i + 1..];
  }

  lemma ConsumedPoll(port: Option<PortHandle>, name: Option<string>, script: seq<ReaderStep>, i: nat)
    requires i < |script| && script[i].Poll? && port.Some? && name.Some?
    ensures Consumed(true, script[i..]) == ReadText(script[i].result) + Consumed(true, script[i + 1..])
    ensures PortAfter(port, script[i..]) == PortAfter(port, script[i + 1..])
    ensures NameAfter(name, script[i..]) == NameAfter(name, script[i + 1..])
  {
    assert script[i..][1..] == script[i + 1..];
  }

  /** A poll that finds the slot empty ends the reader: nothing more is
      appended, and the slot stays empty for the reader even if a later
      step would fill it. */
  lemma ReaderStops(consumed: string, name: Option<string>, rest: seq<ReaderStep>)
    requires |rest| > 0 && rest[0].Poll? && name.None?
    ensures consumed + Consumed(false, rest) == consumed
    ensures PortAfter(None, rest) == None && NameAfter(name, rest) == None
  {
    assert consumed + "" == consumed;
  }

  /** While nobody connects, the reader ends holding its port and name
      exactly when it started with them and nobody disconnected. */
  lemma {:induction false} NoAttachKeepsPort(port: Option<PortHandle>, name: Option<string>, script: seq<ReaderStep>)
    requires port.Some? <==> name.Some?
    requires forall i :: 0 <= i < |script| ==> !script[i].Attach?
    ensures PortAfter(port, script) == if port.Some? && Detach !in script then port else None
    ensures NameAfter(name, script) == if name.Some? && Detach !in script then name else None
    decreases |script|
  {
    if |script| > 0 {
      assert script == [script[0]] + script[1..];
      assert forall i :: 0 <= i < |script[1..]| ==> script[1..][i] == script[i + 1];
      if script[0].Detach? {
        NoAttachKeepsPort(None, None, script[1..]);
      } else if port.Some? {
        NoAttachKeepsPort(port, name, script[1..]);
      }
    }
  }

  /** A disconnect followed by a successful reconnect, with no poll between
      them, is invisible to the running reader: it goes on appending to the
      same accumulator from the new port, so an unfinished line from the old
      port is completed by the first text of the new one. */
  lemma ReconnectContinues(connected: bool, h: PortHandle, n: string, rest: seq<ReaderStep>)
    ensures Consumed(connected, [Detach, Attach(h, n)] + rest) == Consumed(true, rest)
    ensures PortAfter(None, [Detach, Attach(h, n)] + rest) == PortAfter(Some(h), rest)
    ensures NameAfter(None, [Detach, Attach(h, n)] + rest) == NameAfter(Some(n), rest)
  {
    var s := [Detach, Attach(h, n)] + rest;
    assert s[1..] == [Attach(h, n)] + rest;
    assert s[1..][1..] == rest;
  }

  /** Concretely: the tail of a line read before the reconnect and its head
      read after it are framed as one line. */
  lemma {:induction false} ReconnectGluesLine(head: string, tail: string, h: PortHandle, n: string)
    requires Newline !in head && Newline !in tail
    ensures SplitLines(Consumed(true, [Poll(Read(head)), Detach, Attach(h, n), Poll(Read(tail + [Newline]))])).0
         == [head + tail]
  {
    var s := [Poll(Read(head)), Detach, Attach(h, n), Poll(Read(tail + [Newline]))];
    assert s[1..] == [Detach, Attach(h, n)] + [Poll(Read(tail + [Newline]))];
    ReconnectContinues(true, h, n, [Poll(Read(tail + [Newline]))]);
    var last := [Poll(Read(tail + [Newline]))];
    assert last[1..] == [];
    assert Consumed(true, s) == head + (tail + [Newline]);
    var line := head + tail;
    assert head + (tail + [Newline]) == Join([line]) + "" by {
      JoinCons(line, []);
    }
    assert NoNewline(line);
    SplitLinesUnique([line], "");
  }

  /** Appending text to the stream: the lines already cut out stay, and the
      rest is re-framed together with the new text. */
  lemma SplitLinesExtend(consumed: string, text: string)
    ensures SplitLines(consumed + text).0
         == SplitLines(consumed).0 + SplitLines(SplitLines(consumed).1 + text).0
    ensures SplitLines(consumed + text).1 == SplitLines(SplitLines(consumed).1 + text).1
  {
    var (lines, rest) := SplitLines(consumed);
    SplitLinesJoin(consumed);
    SplitLinesNoNewline(consumed);
    assert consumed + text == Join(lines) + (rest + text);
    SplitAfterLines(lines, rest + text);
  }

  /** Cutting the first line out of the accumulator. */
  lemma DrainStep(lines: seq<string>, rest: string, p: nat)
    requires Find(rest, Newline) == Some(p)
    ensures lines + SplitLines(rest).0 == (lines + [rest[..p]]) + SplitLines(rest[p + 1..]).0
    ensures SplitLines(rest).1 == SplitLines(rest[p + 1..]).1
  {
    SplitLinesStep(rest, p);
    AppendAssoc(lines, [rest[..p]], SplitLines(rest[p + 1..]).0);
  }

  /** Decoding one more line appends its sample, if it has one. */
  lemma DecodeAllSnoc(lines: seq<string>, line: string)
    ensures DecodeAll(lines + [line])
         == DecodeAll(lines) + Present(DecodeSample(line))
  {
    DecodeAllAppend(lines, [line]);
    assert [line][1..] == [];
    assert DecodeAll([line]) == Present(DecodeSample(line)) + [];
  }

  /** One read: a non-empty chunk is appended to the accumulator and the
      complete lines are drained; an empty read or a failed one (whose
      chunk is empty) changes nothing. */
  method PushChunk(ghost consumed: string, sent: seq<PotentiometerData>, lineBuffer: string, text: string)
      returns (sent': seq<PotentiometerData>, lineBuffer': string)
    requires sent == DecodeAll(SplitLines(consumed).0)
    requires lineBuffer == SplitLines(consumed).1
    ensures sent' == DecodeAll(SplitLines(consumed + text).0)
    ensures lineBuffer' == SplitLines(consumed + text).1
  {
    if |text| > 0 {
      var samples, rest := DrainLines(lineBuffer + text);
      SplitLinesExtend(consumed, text);
      DecodeAllAppend(SplitLines(consumed).0, SplitLines(lineBuffer + text).0);
      sent', lineBuffer' := sent + samples, rest;
    } else {
      assert consumed + text == consumed;
      sent', lineBuffer' := sent, lineBuffer;
    }
  }

  /** The drain loop of the reader: cuts every complete line out of the
      accumulator, front to back, decodes it and keeps the samples that
      decode; what is left has no newline. */
  method DrainLines(buffer: string) returns (samples: seq<PotentiometerData>, rest: string)
    ensures samples == DecodeAll(SplitLines(buffer).0)
    ensures rest == SplitLines(buffer).1
    ensures NoNewline(rest)
  {
    samples, rest := [], buffer;
    ghost var lines: seq<string> := [];
    while Find(rest, Newline).Some?
      invariant SplitLines(buffer).0 == lines + SplitLines(rest).0
      invariant SplitLines(buffer).1 == SplitLines(rest).1
      invariant samples == DecodeAll(lines)
      decreases |rest|
    {
      var p := Find(rest, Newline).value;
      var line := rest[..p];
      match DecodeSample(line) {
        case Some(d) => samples := samples + [d];
        case None =>
      }
      DrainStep(lines, rest, p);
      DecodeAllSnoc(lines, line);
      lines := lines + [line];
      rest := rest[p + 1..];
    }
    assert SplitLines(rest) == ([], rest);
    assert lines + [] == lines;
    SplitLinesNoNewline(buffer);
  }
}
