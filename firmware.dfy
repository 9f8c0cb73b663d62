/** The device side of the link (firmware/src/main.rs): the JSON telemetry
    line, the upper-casing echo with its write loop, the main loop's
    greeting and send schedule, and the LED toggle. */
module Firmware {
  import opened Common
  import opened Text
  import opened Types

  /** Capacity of the `heapless::String<64>` the line is formatted into. */
  const JsonCapacity: nat := 64

  /** Iterations between two telemetry lines. */
  const SendEvery: nat := 10000

  const Wrap: nat := 0x1_0000_0000

  /** The pieces `writeln!` pushes for the telemetry line: the literal parts
      of the format string and the `{}` renderings of the three readings. */
  function LinePieces(d: PotentiometerData): seq<string>
  {
    ["{\"pot1\":", Decimal(d.pot1), ",\"pot2\":", Decimal(d.pot2), ",\"pot3\":", Decimal(d.pot3), "}\n"]
  }

  function Concat(pieces: seq<string>): string
  {
    if |pieces| == 0 then "" else pieces[0] + Concat(pieces[1..])
  }

  /** Formatting into a fixed-capacity string: each piece is pushed whole
      while it fits, and writing stops at the first piece that does not. */
  function WritePieces(buf: string, pieces: seq<string>, capacity: nat): (r: string)
    requires |buf| <= capacity
    ensures |r| <= capacity
    ensures |buf| <= |r| && r[..|buf|] == buf
    decreases |pieces|
  {
    if |pieces| == 0 then buf
    else if |buf| + |pieces[0]| <= capacity then
      var r := WritePieces(buf + pieces[0], pieces[1..], capacity);
      assert r[..|buf|] == r[..|buf + pieces[0]|][..|buf|];
      r
    else buf
  }

  /** The telemetry line as the firmware formats it. */
  function EncodeLine(d: PotentiometerData): string
  {
    WritePieces("", LinePieces(d), JsonCapacity)
  }

  /** When everything fits, nothing is dropped. */
  lemma {:induction false} WritePiecesFits(buf: string, pieces: seq<string>, capacity: nat)
    requires |buf| + |Concat(pieces)| <= capacity
    ensures WritePieces(buf, pieces, capacity) == buf + Concat(pieces)
    decreases |pieces|
  {
    if |pieces| > 0 {
      assert Concat(pieces) == pieces[0] + Concat(pieces[1..]);
      WritePiecesFits(buf + pieces[0], pieces[1..], capacity);
      assert buf + pieces[0] + Concat(pieces[1..]) == buf + Concat(pieces);
    }
  }

  /** The seven pieces run together. */
  lemma ConcatLinePieces(d: PotentiometerData)
    ensures Concat(LinePieces(d))
         == "{\"pot1\":" + Decimal(d.pot1) + ",\"pot2\":" + Decimal(d.pot2)
          + ",\"pot3\":" + Decimal(d.pot3) + "}\n"
  {
    Concat7("{\"pot1\":", Decimal(d.pot1), ",\"pot2\":", Decimal(d.pot2), ",\"pot3\":", Decimal(d.pot3), "}\n");
  }

  lemma Concat7(p0: string, p1: string, p2: string, p3: string, p4: string, p5: string, p6: string)
    ensures Concat([p0, p1, p2, p3, p4, p5, p6]) == p0 + p1 + p2 + p3 + p4 + p5 + p6
  {
    ConcatSnoc([], p0);
    assert [] + [p0] == [p0] && "" + p0 == p0;
    ConcatSnoc([p0], p1);
    assert [p0] + [p1] == [p0, p1];
    ConcatSnoc([p0, p1], p2);
    assert [p0, p1] + [p2] == [p0, p1, p2];
    ConcatSnoc([p0, p1, p2], p3);
    assert [p0, p1, p2] + [p3] == [p0, p1, p2, p3];
    ConcatSnoc([p0, p1, p2, p3], p4);
    assert [p0, p1, p2, p3] + [p4] == [p0, p1, p2, p3, p4];
    ConcatSnoc([p0, p1, p2, p3, p4], p5);
    assert [p0, p1, p2, p3, p4] + [p5] == [p0, p1, p2, p3, p4, p5];
    ConcatSnoc([p0, p1, p2, p3, p4, p5], p6);
    assert [p0, p1, p2, p3, p4, p5] + [p6] == [p0, p1, p2, p3, p4, p5, p6];
  }

  lemma {:induction false} ConcatSnoc(ps: seq<string>, p: string)
    ensures Concat(ps + [p]) == Concat(ps) + p
  {
    if |ps| == 0 {
      assert ps + [p] == [p];
      assert Concat([p]) == p + Concat([]);
    } else {
      assert (ps + [p])[1..] == ps[1..] + [p];
      ConcatSnoc(ps[1..], p);
      assert Concat(ps + [p]) == ps[0] + (Concat(ps[1..]) + p);
    }
  }

  /** The line is exactly `{"pot1":A,"pot2":B,"pot3":C}` and a newline, with
      decimal readings; it is at most 41 characters, so the 64-character
      buffer never truncates it. */
  lemma EncodeLineExact(d: PotentiometerData)
    ensures EncodeLine(d)
         == "{\"pot1\":" + Decimal(d.pot1) + ",\"pot2\":" + Decimal(d.pot2)
          + ",\"pot3\":" + Decimal(d.pot3) + "}\n"
    ensures |EncodeLine(d)| <= 41
  {
    DecimalLength(d.pot1, 5);
    DecimalLength(d.pot2, 5);
    DecimalLength(d.pot3, 5);
    ConcatLinePieces(d);
    WritePiecesFits("", LinePieces(d), JsonCapacity);
  }

  // ---------------------------------------------------------------------
  // Bytes, the USB serial endpoint and the echo

  /** `u8::make_ascii_uppercase`. */
  function UpperByte(b: u8): u8
  {
    if 'a' as int <= b <= 'z' as int then b - 32 else b
  }

  predicate IsLowerByte(b: u8)
  {
    'a' as int <= b <= 'z' as int
  }

  /** The buffer after upper-casing its first `count` bytes. */
  function UppercasePrefix(s: seq<u8>, count: nat): (r: seq<u8>)
    requires count <= |s|
  {
    seq(|s|, i requires 0 <= i < |s| => if i < count then UpperByte(s[i]) else s[i])
  }

  /** Length is kept, bytes past `count` and bytes that are not lower-case
      letters are untouched, and no lower-case letter is left in the prefix;
      a lower-case letter becomes its capital. */
  lemma UppercasePrefixFacts(s: seq<u8>, count: nat, i: nat)
    requires count <= |s| && i < |s|
    ensures |UppercasePrefix(s, count)| == |s|
    ensures i >= count || !IsLowerByte(s[i]) ==> UppercasePrefix(s, count)[i] == s[i]
    ensures i < count ==> !IsLowerByte(UppercasePrefix(s, count)[i])
    ensures i < count && IsLowerByte(s[i]) ==> UppercasePrefix(s, count)[i] == s[i] - 32
  {
  }

  /** Upper-casing twice is upper-casing once. */
  lemma UppercasePrefixIdempotent(s: seq<u8>, count: nat)
    requires count <= |s|
    ensures UppercasePrefix(UppercasePrefix(s, count), count) == UppercasePrefix(s, count)
  {
  }

  /** Upper-cases the first `count` bytes of the buffer in place. */
  method UppercaseInPlace(buf: array<u8>, count: nat)
    requires count <= buf.Length
    modifies buf
    ensures buf[..] == UppercasePrefix(old(buf[..]), count)
  {
    for i := 0 to count
      invariant forall j :: 0 <= j < i ==> buf[j] == UpperByte(old(buf[j]))
      invariant forall j :: i <= j < buf.Length ==> buf[j] == old(buf[j])
    {
      buf[i] := UpperByte(buf[i]);
    }
  }

  /** The USB CDC serial class as the firmware sees it: `write` copies as
      many bytes as its buffers can take at that moment and reports how
      many, or fails (would block) when they take none. Room comes back
      whenever the endpoint is drained, by the flush inside each `write` or
      by `usb_dev.poll`, at a pace the host decides, so the model is told
      how much each successive `write` can take: `offers` lists it call by
      call, and once the list is used up every `write` would block. */
  class UsbSerial {
    /** Every byte accepted for the host, in order. */
    var sent: seq<u8>
    /** How many bytes each of the coming writes can take. */
    var offers: seq<nat>

    constructor(offers: seq<nat>)
      ensures sent == [] && this.offers == offers
    {
      sent := [];
      this.offers := offers;
    }

    method Write(data: seq<u8>) returns (r: Result<nat>)
      modifies this
      ensures var n := Min(|data|, NextOffer(old(offers)));
        && (r.Ok? <==> n > 0)
        && (r.Ok? ==> r.value == n)
        && sent == old(sent) + data[..n]
        && offers == LaterOffers(old(offers))
    {
      var n := Min(|data|, NextOffer(offers));
      sent := sent + data[..n];
      offers := LaterOffers(offers);
      if n == 0 {
        r := Err("would block");
      } else {
        r := Ok(n);
      }
    }
  }

  /** What the next `write` can take: nothing once the offers are used up. */
  function NextOffer(offers: seq<nat>): nat
  {
    if |offers| == 0 then 0 else offers[0]
  }

  function LaterOffers(offers: seq<nat>): (rest: seq<nat>)
    ensures |offers| > 0 ==> |rest| < |offers|
  {
    if |offers| == 0 then [] else offers[1..]
  }

  function Sum(s: seq<nat>): nat
  {
    if |s| == 0 then 0 else s[0] + Sum(s[1..])
  }

  /** The write loop over `len` bytes against `offers`: how many bytes it
      gets written, and the offers left for later writes. Each write takes
      what it is offered, and the loop stops at the first that takes
      nothing. */
  function WriteLoop(len: nat, offers: seq<nat>): (r: (nat, seq<nat>))
    ensures r.0 <= len && |r.1| <= |offers|
    decreases |offers|
  {
    if len == 0 then (0, offers)
    else
      var n := Min(len, NextOffer(offers));
      if n == 0 then (0, LaterOffers(offers))
      else
        var r := WriteLoop(len - n, LaterOffers(offers));
        (n + r.0, r.1)
  }

  /** Never more than the offers add up to. */
  lemma {:induction false} WriteLoopBound(len: nat, offers: seq<nat>)
    ensures WriteLoop(len, offers).0 <= Sum(offers)
    decreases |offers|
  {
    if len > 0 && |offers| > 0 && Min(len, offers[0]) > 0 {
      WriteLoopBound(len - Min(len, offers[0]), offers[1..]);
    }
  }

  /** Everything is written when the first `k` writes are all offered
      something and together are offered enough. */
  lemma {:induction false} WriteLoopAll(len: nat, offers: seq<nat>, k: nat)
    requires k <= |offers|
    requires forall i :: 0 <= i < k ==> offers[i] > 0
    requires Sum(offers[..k]) >= len
    ensures WriteLoop(len, offers).0 == len
    decreases k
  {
    if len > 0 {
      assert k > 0;
      assert offers[..k][0] == offers[0] && offers[..k][1..] == offers[1..][..k - 1];
      WriteLoopAll(len - Min(len, offers[0]), offers[1..], k - 1);
    }
  }

  /** A refused write ends the loop at once: nothing is written and the
      data after it is dropped. */
  lemma WriteLoopRefused(len: nat, offers: seq<nat>)
    requires len > 0 && NextOffer(offers) == 0
    ensures WriteLoop(len, offers) == (0, LaterOffers(offers))
  {
  }

  /** One write of the loop: it takes what it is offered, or ends the loop. */
  lemma WriteLoopStep(len: nat, offers: seq<nat>)
    requires len > 0
    ensures var n := Min(len, NextOffer(offers));
      WriteLoop(len, offers) == if n == 0 then (0, LaterOffers(offers))
        else (n + WriteLoop(len - n, LaterOffers(offers)).0, WriteLoop(len - n, LaterOffers(offers)).1)
  {
  }

  /** The loop state after one write, in the suffix form of the loop
      invariant of `WriteAll`. */
  lemma WriteLoopAdvance(total: (nat, seq<nat>), written: nat, len: nat, offers: seq<nat>)
    requires written < len
    requires total == (written + WriteLoop(len - written, offers).0, WriteLoop(len - written, offers).1)
    ensures var n := Min(len - written, NextOffer(offers));
      n == 0 ==> total == (written, LaterOffers(offers))
    ensures var n := Min(len - written, NextOffer(offers));
      n > 0 ==> total == (written + n + WriteLoop(len - (written + n), LaterOffers(offers)).0,
                          WriteLoop(len - (written + n), LaterOffers(offers)).1)
  {
    WriteLoopStep(len - written, offers);
  }

  lemma PrefixExtend<T>(data: seq<T>, written: nat, n: nat)
    requires written + n <= |data|
    ensures data[..written] + data[written..][..n] == data[..written + n]
  {
  }

  /** The write-back loop: writes `data`, advancing past what each write
      took, and gives up at the first failed write. What reaches the host is
      a prefix of `data`, as long as the write loop's offers allow. */
  method WriteAll(serial: UsbSerial, data: seq<u8>) returns (written: nat)
    modifies serial
    ensures written == WriteLoop(|data|, old(serial.offers)).0
    ensures serial.offers == WriteLoop(|data|, old(serial.offers)).1
    ensures serial.sent == old(serial.sent) + data[..written]
  {
    ghost var total := WriteLoop(|data|, serial.offers);
    written := 0;
    while written < |data|
      invariant written <= |data|
      invariant serial.sent == old(serial.sent) + data[..written]
      invariant total == (written + WriteLoop(|data| - written, serial.offers).0,
                          WriteLoop(|data| - written, serial.offers).1)
      decreases |data| - written
    {
      WriteLoopAdvance(total, written, |data|, serial.offers);
      var r := serial.Write(data[written..]);
      match r {
        case Ok(len) =>
          PrefixExtend(data, written, len);
          written := written + len;
        case Err(_) =>
          break;
      }
    }
  }

  predicate IsAscii(s: string)
  {
    forall i :: 0 <= i < |s| ==> s[i] as int < 0x80
  }

  lemma AsciiAppend(a: string, b: string)
    requires IsAscii(a) && IsAscii(b)
    ensures IsAscii(a + b)
  {
    forall i | 0 <= i < |a + b|
      ensures (a + b)[i] as int < 0x80
    {
      if i >= |a| {
        assert (a + b)[i] == b[i - |a|];
      }
    }
  }

  /** The telemetry line is ASCII text. */
  lemma EncodeLineAscii(d: PotentiometerData)
    ensures IsAscii(EncodeLine(d))
  {
    EncodeLineExact(d);
    var a, b, c := Decimal(d.pot1), Decimal(d.pot2), Decimal(d.pot3);
    AsciiAppend("{\"pot1\":", a);
    AsciiAppend("{\"pot1\":" + a, ",\"pot2\":");
    AsciiAppend("{\"pot1\":" + a + ",\"pot2\":", b);
    AsciiAppend("{\"pot1\":" + a + ",\"pot2\":" + b, ",\"pot3\":");
    AsciiAppend("{\"pot1\":" + a + ",\"pot2\":" + b + ",\"pot3\":", c);
    AsciiAppend("{\"pot1\":" + a + ",\"pot2\":" + b + ",\"pot3\":" + c, "}\n");
  }

  /** The bytes of ASCII text. */
  function AsciiBytes(s: string): seq<u8>
    requires IsAscii(s)
  {
    seq(|s|, i requires 0 <= i < |s| => s[i] as int)
  }

  /** The bytes of the telemetry line, `json.as_bytes()`. */
  function LineBytes(d: PotentiometerData): seq<u8>
  {
    EncodeLineAscii(d);
    AsciiBytes(EncodeLine(d))
  }

  const Greeting: seq<u8> := AsciiBytes("Hello, World!\r\n")

  function Min(a: nat, b: nat): nat
  {
    if a < b then a else b
  }

  /** One `write` whose count is ignored, as the greeting and the telemetry
      line are written: what fits is sent, the remainder is dropped. */
  method WriteOnce(serial: UsbSerial, data: seq<u8>) returns (ghost taken: seq<u8>)
    modifies serial
    ensures taken == data[..Min(|data|, NextOffer(old(serial.offers)))]
    ensures IsPrefix(taken, data)
    ensures serial.sent == old(serial.sent) + taken
    ensures serial.offers == LaterOffers(old(serial.offers))
  {
    ghost var offers := serial.offers;
    var _ := serial.Write(data);
    taken := data[..Min(|data|, NextOffer(offers))];
  }

  /** Copies the received bytes into the zeroed 64-byte buffer, upper-cases
      them in place and writes them back with the write loop. */
  method Echo(serial: UsbSerial, bytes: seq<u8>) returns (ghost echo: seq<u8>)
    requires |bytes| <= 64
    modifies serial
    ensures echo == UppercasePrefix(bytes, |bytes|)[..WriteLoop(|bytes|, old(serial.offers)).0]
    ensures serial.offers == WriteLoop(|bytes|, old(serial.offers)).1
    ensures IsPrefix(echo, UppercasePrefix(bytes, |bytes|))
    ensures serial.sent == old(serial.sent) + echo
  {
    var buf := new u8[64](_ => 0);
    forall i | 0 <= i < |bytes| {
      buf[i] := bytes[i];
    }
    var count := |bytes|;
    UppercaseInPlace(buf, count);
    assert buf[..count] == UppercasePrefix(bytes, count);
    var written := WriteAll(serial, buf[..count]);
    echo := buf[..count][..written];
  }

  /** What one USB poll reports: nothing to read, a failed read, or the
      bytes a read returned (at most the 64-byte buffer). */
  datatype UsbPoll = Idle | ReadFailed | Received(bytes: seq<u8>)

  predicate IsPrefix(p: seq<u8>, s: seq<u8>)
  {
    |p| <= |s| && s[..|p|] == p
  }

  /** The wrapping counter stays the iteration count modulo 2^32. */
  lemma CounterStep(n: nat)
    ensures (n % Wrap + 1) % Wrap == (n + 1) % Wrap
  {
  }

  /** The sample the telemetry step reads on a pass with this counter. */
  function SampleAt(counter: u32, adc: (Option<u16>, Option<u16>, Option<u16>)): (r: Option<PotentiometerData>)
    ensures r.Some? <==> counter as nat % SendEvery == 0
  {
    if counter as nat % SendEvery == 0
    then Some(PotentiometerData(UnwrapOr(adc.0, 0), UnwrapOr(adc.1, 0), UnwrapOr(adc.2, 0)))
    else None
  }

  /** The greeting step: the bytes it sends and the room left for later writes. */
  function GreetOut(saidHello: bool, offers: seq<nat>): (seq<u8>, seq<nat>)
  {
    if saidHello then ([], offers)
    else (Greeting[..Min(|Greeting|, NextOffer(offers))], LaterOffers(offers))
  }

  /** The echo step: the upper-cased bytes the write loop sends, and the room left. */
  function EchoOut(poll: UsbPoll, offers: seq<nat>): (seq<u8>, seq<nat>)
  {
    if poll.Received?
    then (UppercasePrefix(poll.bytes, |poll.bytes|)[..WriteLoop(|poll.bytes|, offers).0],
          WriteLoop(|poll.bytes|, offers).1)
    else ([], offers)
  }

  /** The telemetry step: the part of the line one write sends, and the room left. */
  function LineOut(sample: Option<PotentiometerData>, offers: seq<nat>): (seq<u8>, seq<nat>)
  {
    if sample.None? then ([], offers)
    else (LineBytes(sample.value)[..Min(|LineBytes(sample.value)|, NextOffer(offers))], LaterOffers(offers))
  }

  /** Everything one pass of the main loop produces. */
  datatype PassOutput = PassOutput(
    sample: Option<PotentiometerData>, greet: seq<u8>, echo: seq<u8>, line: seq<u8>, offers: seq<nat>)

  /** One pass, from the greeting flag, the counter, what the USB poll
      reported, the ADC results and the room the coming writes find. */
  function LoopPass(saidHello: bool, counter: u32, poll: UsbPoll,
                adc: (Option<u16>, Option<u16>, Option<u16>), offers: seq<nat>): PassOutput
  {
    var g := GreetOut(saidHello, offers);
    var e := EchoOut(poll, g.1);
    var sample := SampleAt(counter, adc);
    var l := LineOut(sample, e.1);
    PassOutput(sample, g.0, e.0, l.0, l.1)
  }

  /** What a pass writes is, step by step, a prefix of what it meant to
      write: of the greeting on the first pass only, of the upper-cased
      bytes read, and of the telemetry line when one is due. */
  lemma LoopPassPrefixes(saidHello: bool, counter: u32, poll: UsbPoll,
                         adc: (Option<u16>, Option<u16>, Option<u16>), offers: seq<nat>)
    ensures var p := LoopPass(saidHello, counter, poll, adc, offers);
      && IsPrefix(p.greet, if saidHello then [] else Greeting)
      && IsPrefix(p.echo, if poll.Received? then UppercasePrefix(poll.bytes, |poll.bytes|) else [])
      && (p.sample.Some? ==> IsPrefix(p.line, LineBytes(p.sample.value)))
      && (p.sample.None? ==> p.line == [])
  {
  }

  /** A pass after the greeting, with nothing read and no telemetry due,
      writes nothing and leaves the room for the next pass untouched. */
  lemma PassQuiet(counter: u32, poll: UsbPoll, adc: (Option<u16>, Option<u16>, Option<u16>), offers: seq<nat>)
    requires !poll.Received? && counter as nat % SendEvery != 0
    ensures LoopPass(true, counter, poll, adc, offers) == PassOutput(None, [], [], [], offers)
  {
  }

  lemma WriteLoopOneOffer(len: nat, offers: seq<nat>)
    requires |offers| > 0 && offers[0] >= len
    ensures WriteLoop(len, offers) == (len, if len == 0 then offers else offers[1..])
  {
    if len > 0 {
      WriteLoopStep(len, offers);
    }
  }

  lemma LineBytesLength(d: PotentiometerData)
    ensures |LineBytes(d)| <= 41
  {
    EncodeLineExact(d);
  }

  /** When each of the next three writes finds room for 64 bytes, a pass
      loses nothing: the greeting, the whole upper-cased echo and the whole
      telemetry line are sent. */
  lemma {:induction false} PassWithRoom(saidHello: bool, counter: u32, poll: UsbPoll,
                                        adc: (Option<u16>, Option<u16>, Option<u16>), offers: seq<nat>)
    requires poll.Received? ==> |poll.bytes| <= 64
    requires |offers| >= 3 && offers[0] >= 64 && offers[1] >= 64 && offers[2] >= 64
    ensures var p := LoopPass(saidHello, counter, poll, adc, offers);
      && p.greet == (if saidHello then [] else Greeting)
      && p.echo == (if poll.Received? then UppercasePrefix(poll.bytes, |poll.bytes|) else [])
      && p.line == (if p.sample.Some? then LineBytes(p.sample.value) else [])
  {
    var g := GreetOut(saidHello, offers);
    assert |Greeting| == 15;
    assert |g.1| >= 2 && g.1[0] >= 64 && g.1[1] >= 64;
    var e := EchoOut(poll, g.1);
    if poll.Received? {
      WriteLoopOneOffer(|poll.bytes|, g.1);
    }
    assert |e.1| >= 1 && e.1[0] >= 64;
    var sample := SampleAt(counter, adc);
    if sample.Some? {
      LineBytesLength(sample.value);
    }
  }

  /** What the main loop keeps from one iteration to the next. */
  class MainLoop {
    var saidHello: bool
    var counter: u32
    const serial: UsbSerial
    /** How often the greeting has been written. */
    ghost var greetings: nat
    /** Iterations completed. */
    ghost var iterations: nat

    ghost predicate Valid()
      reads this
    {
      && greetings == (if saidHello then 1 else 0)
      && counter == iterations % Wrap
      && (iterations > 0 ==> saidHello)
    }

    constructor(serial: UsbSerial)
      ensures Valid() && this.serial == serial
      ensures !saidHello && counter == 0 && iterations == 0
    {
      this.serial := serial;
      saidHello := false;
      counter := 0;
      greetings := 0;
      iterations := 0;
    }

    /** One pass of the `loop`: greet once, echo what was read in upper
        case, send a telemetry line when the counter is a multiple of 10000
        (a failed ADC read counts as 0), and advance the wrapping counter. */
    method Iteration(poll: UsbPoll, adc: (Option<u16>, Option<u16>, Option<u16>))
        returns (sample: Option<PotentiometerData>, ghost greet: seq<u8>, ghost echo: seq<u8>, ghost line: seq<u8>)
      requires Valid()
      requires poll.Received? ==> |poll.bytes| <= 64
      modifies this, serial
      ensures Valid()
      ensures saidHello && greetings == 1 && iterations == old(iterations) + 1
      ensures counter == (old(counter) + 1) % Wrap
      ensures sample.Some? <==> old(counter) % SendEvery == 0
      ensures sample.Some? ==>
        sample.value == PotentiometerData(UnwrapOr(adc.0, 0), UnwrapOr(adc.1, 0), UnwrapOr(adc.2, 0))
      ensures serial.sent == old(serial.sent) + greet + echo + line
      ensures LoopPass(old(saidHello), old(counter), poll, adc, old(serial.offers))
           == PassOutput(sample, greet, echo, line, serial.offers)
    {
      ghost var before := serial.sent;
      greet := Greet();
      echo := [];
      if poll.Received? && |poll.bytes| > 0 {
        echo := Echo(serial, poll.bytes);
      } else {
        assert serial.sent == before + greet + echo;
      }
      sample, line := Telemetry(adc);
      Advance();
    }

    /** The greeting, written on the first pass only. */
    method Greet() returns (ghost greet: seq<u8>)
      requires greetings == (if saidHello then 1 else 0)
      modifies this, serial
      ensures saidHello && greetings == 1
      ensures counter == old(counter) && iterations == old(iterations)
      ensures serial.sent == old(serial.sent) + greet
      ensures IsPrefix(greet, if old(saidHello) then [] else Greeting)
      ensures (greet, serial.offers) == GreetOut(old(saidHello), old(serial.offers))
    {
      greet := [];
      if !saidHello {
        saidHello := true;
        greetings := greetings + 1;
        greet := WriteOnce(serial, Greeting);
      } else {
        assert serial.sent + greet == serial.sent;
      }
    }

    /** The telemetry line, sent when the counter is a multiple of 10000;
        a failed ADC read counts as 0. */
    method Telemetry(adc: (Option<u16>, Option<u16>, Option<u16>))
        returns (sample: Option<PotentiometerData>, ghost line: seq<u8>)
      modifies serial
      ensures sample.Some? <==> counter % SendEvery == 0
      ensures sample.Some? ==>
        sample.value == PotentiometerData(UnwrapOr(adc.0, 0), UnwrapOr(adc.1, 0), UnwrapOr(adc.2, 0))
      ensures serial.sent == old(serial.sent) + line
      ensures sample.Some? ==> IsPrefix(line, LineBytes(sample.value))
      ensures sample.None? ==> line == []
      ensures sample == SampleAt(counter, adc)
      ensures (line, serial.offers) == LineOut(sample, old(serial.offers))
    {
      sample, line := None, [];
      if counter % SendEvery == 0 {
        var d := PotentiometerData(UnwrapOr(adc.0, 0), UnwrapOr(adc.1, 0), UnwrapOr(adc.2, 0));
        sample := Some(d);
        line := WriteOnce(serial, LineBytes(d));
      } else {
        assert serial.sent + line == serial.sent;
      }
    }

    /** The counter's wrapping increment at the end of each pass. */
    method Advance()
      requires counter == iterations % Wrap
      modifies this
      ensures counter == (old(counter) + 1) % Wrap && iterations == old(iterations) + 1
      ensures counter == iterations % Wrap
      ensures saidHello == old(saidHello) && greetings == old(greetings)
    {
      CounterStep(iterations);
      counter := (counter + 1) % Wrap;
      iterations := iterations + 1;
    }
  }

  /** An output pin whose level can be read back. */
  class Pin {
    var high: bool

    constructor(high: bool)
      ensures this.high == high
    {
      this.high := high;
    }
  }

  /** `pin_toggle`: drives a pin that reads back high low, and otherwise,
      also when reading it back fails, drives it high. The result is the
      result of that `set_low` or `set_high`; a failed set leaves the level
      as it was. */
  method PinToggle(pin: Pin, readBackFails: bool, setFails: bool) returns (r: Outcome)
    modifies pin
    ensures r.Fail? <==> setFails
    ensures !setFails ==> pin.high == (readBackFails || !old(pin.high))
    ensures setFails ==> pin.high == old(pin.high)
  {
    var isHigh := if readBackFails then false else pin.high;
    if setFails {
      r := Fail(if isHigh then "set_low failed" else "set_high failed");
    } else if isHigh {
      pin.high := false;
      r := Pass;
    } else {
      pin.high := true;
      r := Pass;
    }
  }
}
