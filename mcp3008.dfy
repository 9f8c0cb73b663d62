/** The MCP3008 variant of the firmware (firmware/src/main_mcp3008.rs): one
    conversion is a chip-select-framed exchange of three bytes over SPI,
    and the main loop reads six channels. */
module Mcp3008 {
  import opened Common

  /** The driver works on the Rust `u8` and `u16` as machine words. */
  type Byte = bv8
  type Word = bv16

  // ---------------------------------------------------------------------
  // Command byte and result extraction

  /** The command byte for a channel, built as the Rust code builds it:
      start bit, shifted; single-ended flag; shifted; channel number. */
  function CommandByte(channel: Byte): (cmd: Byte)
    requires channel <= 7
    ensures cmd == 0xC0 | channel
    ensures cmd == 0xC0 + channel
  {
    var command: Byte := 0x01;
    var command := (command << 4) | 0x08;
    (command << 3) | channel
  }

  /** What the command byte carries, bit field by bit field: bits 7 and 6
      set, bits 5 to 3 clear, the channel in bits 2 to 0. */
  lemma CommandFields(channel: Byte)
    requires channel <= 7
    ensures CommandByte(channel) >> 7 == 1
    ensures (CommandByte(channel) >> 6) & 1 == 1
    ensures (CommandByte(channel) >> 3) & 7 == 0
    ensures (CommandByte(channel) & 7) == channel
  {
  }

  /** Different channels give different command bytes. */
  lemma CommandInjective(a: Byte, b: Byte)
    requires a <= 7 && b <= 7 && CommandByte(a) == CommandByte(b)
    ensures a == b
  {
    CommandFields(a);
    CommandFields(b);
  }

  /** The 10-bit conversion result: the low two bits of the second received
      byte above the third received byte. */
  function ResultValue(rx1: Byte, rx2: Byte): (v: Word)
    ensures v <= 1023
    ensures v == (rx1 % 4) as Word * 256 + rx2 as Word
  {
    ((rx1 as Word & 0x03) << 8) | rx2 as Word
  }

  /** Every 10-bit value is the result of some reply. */
  lemma ResultValueOnto(v: Word)
    requires v <= 1023
    ensures ResultValue((v >> 8) as Byte, (v & 0xFF) as Byte) == v
  {
  }

  /** The upper six bits of the middle byte do not matter. */
  lemma ResultIgnoresHighBits(rx1: Byte, rx2: Byte)
    ensures ResultValue(rx1, rx2) == ResultValue(rx1 & 0x03, rx2)
  {
  }

  // ---------------------------------------------------------------------
  // One conversion

  /** What the chip sees: the chip-select line driven low or high, and
      one-byte transfers with the reply, None when the transfer failed. */
  datatype BusEvent = CsLow | CsHigh | Transfer(sent: Byte, received: Option<Byte>)

  /** The bytes sent for a channel. */
  function TxBytes(channel: Byte): (tx: seq<Byte>)
    requires channel <= 7
    ensures |tx| == 3 && tx[1] == 0 && tx[2] == 0
  {
    [CommandByte(channel), 0x00, 0x00]
  }

  /** The index of the first failed transfer, or the number of transfers
      when none fails. */
  function FirstFailure(replies: seq<Option<Byte>>): (k: nat)
    ensures k <= |replies|
    ensures forall i :: 0 <= i < k ==> replies[i].Some?
    ensures k < |replies| ==> replies[k].None?
  {
    if |replies| == 0 || replies[0].None? then 0 else 1 + FirstFailure(replies[1..])
  }

  /** The transfers made before the exchange stops. */
  function Transfers(tx: seq<Byte>, replies: seq<Option<Byte>>, n: nat): (events: seq<BusEvent>)
    requires n <= |tx| && n <= |replies|
    ensures |events| == n
  {
    seq(n, i requires 0 <= i < n => Transfer(tx[i], replies[i]))
  }

  /** The result of `read_channel` and the bus activity it causes, given
      what the SPI peripheral answers to each of the three transfers. */
  function ReadSpec(channel: Byte, replies: seq<Option<Byte>>): (Option<Word>, seq<BusEvent>)
    requires |replies| == 3
  {
    if channel > 7 then (None, [])
    else
      var k := FirstFailure(replies);
      if k < 3 then (None, [CsLow] + Transfers(TxBytes(channel), replies, k + 1) + [CsHigh])
      else (Some((replies[1].value % 4) as Word * 256 + replies[2].value as Word),
            [CsLow] + Transfers(TxBytes(channel), replies, 3) + [CsHigh])
  }

  /** An out-of-range channel fails without touching the bus. */
  lemma BadChannelNoActivity(channel: Byte, replies: seq<Option<Byte>>)
    requires |replies| == 3 && channel > 7
    ensures ReadSpec(channel, replies) == (None, [])
  {
  }

  /** A valid channel frames the exchange: chip select low first, high
      last, only transfers in between, on the success and the failure path
      alike; the bytes sent are, in order, a prefix of the command and two
      zero bytes. */
  lemma ChipSelectDiscipline(channel: Byte, replies: seq<Option<Byte>>)
    requires |replies| == 3 && channel <= 7
    ensures var events := ReadSpec(channel, replies).1;
      && 3 <= |events| <= 5
      && events[0] == CsLow
      && events[|events| - 1] == CsHigh
      && (forall i :: 0 < i < |events| - 1 ==> events[i].Transfer?)
      && (forall i :: 0 < i < |events| - 1 ==> events[i].sent == TxBytes(channel)[i - 1])
  {
  }

  /** A failed transfer ends the exchange: the result is an error exactly
      when some transfer fails, and no byte after the first failure is sent. */
  lemma StopsAtFirstFailure(channel: Byte, replies: seq<Option<Byte>>, i: nat)
    requires |replies| == 3 && channel <= 7 && i < 3
    requires replies[i].None? && forall j :: 0 <= j < i ==> replies[j].Some?
    ensures ReadSpec(channel, replies).0 == None
    ensures |ReadSpec(channel, replies).1| == i + 3
    ensures ReadSpec(channel, replies).1[i + 1] == Transfer(TxBytes(channel)[i], None)
  {
    var k := FirstFailure(replies);
    assert k == i;
  }

  /** When all three transfers succeed, the reading is the 10-bit value
      those replies carry, which is what the bit extraction computes. */
  lemma SuccessValue(channel: Byte, replies: seq<Option<Byte>>)
    requires |replies| == 3 && channel <= 7
    requires replies[0].Some? && replies[1].Some? && replies[2].Some?
    ensures ReadSpec(channel, replies).0 == Some((replies[1].value % 4) as Word * 256 + replies[2].value as Word)
    ensures ReadSpec(channel, replies).0 == Some(ResultValue(replies[1].value, replies[2].value))
  {
    assert FirstFailure(replies) == 3 by {
      assert replies[1..][0].Some? && replies[1..][1..][0].Some?;
    }
  }

  /** The events of an exchange whose transfer `i` is the first to fail. */
  lemma FailureEvents(channel: Byte, replies: seq<Option<Byte>>, i: nat)
    requires |replies| == 3 && channel <= 7 && i < 3
    requires replies[i].None? && forall j :: 0 <= j < i ==> replies[j].Some?
    ensures ReadSpec(channel, replies) == (None, [CsLow] + Transfers(TxBytes(channel), replies, i + 1) + [CsHigh])
  {
    assert FirstFailure(replies) == i;
  }

  /** The result and events of an exchange whose three transfers succeed. */
  lemma SuccessEvents(channel: Byte, replies: seq<Option<Byte>>)
    requires |replies| == 3 && channel <= 7
    requires forall j :: 0 <= j < 3 ==> replies[j].Some?
    ensures ReadSpec(channel, replies) == (Some(ResultValue(replies[1].value, replies[2].value)),
                                           [CsLow] + Transfers(TxBytes(channel), replies, 3) + [CsHigh])
  {
    SuccessValue(channel, replies);
  }

  lemma TransfersSnoc(tx: seq<Byte>, replies: seq<Option<Byte>>, n: nat)
    requires n < |tx| && n < |replies|
    ensures Transfers(tx, replies, n + 1) == Transfers(tx, replies, n) + [Transfer(tx[n], replies[n])]
  {
  }

  /** The ADC driver: the chip-select pin and the SPI traffic. */
  class Adc {
    var csHigh: bool
    var bus: seq<BusEvent>

    /** The driver takes the chip-select pin at whatever level it has. */
    constructor(csHigh: bool)
      ensures this.csHigh == csHigh && bus == []
    {
      this.csHigh := csHigh;
      bus := [];
    }

    /** `read_channel`: `replies` is what the SPI peripheral answers to the
        three one-byte transfers, None for a failed transfer. */
    method ReadChannel(channel: Byte, replies: seq<Option<Byte>>) returns (r: Option<Word>)
      requires |replies| == 3
      modifies this
      ensures r == ReadSpec(channel, replies).0
      ensures bus == old(bus) + ReadSpec(channel, replies).1
      ensures csHigh == (channel <= 7 || old(csHigh))
    {
      if channel > 7 {
        return None;
      }
      r := Exchange(channel, replies);
    }

    /** The chip-select-framed exchange of `read_channel` for a valid
        channel. */
    method Exchange(channel: Byte, replies: seq<Option<Byte>>) returns (r: Option<Word>)
      requires |replies| == 3 && channel <= 7
      modifies this
      ensures r == ReadSpec(channel, replies).0
      ensures bus == old(bus) + ReadSpec(channel, replies).1
      ensures csHigh
    {
      var command := CommandByte(channel);
      var txBuf := new Byte[3];
      txBuf[0], txBuf[1], txBuf[2] := command, 0x00, 0x00;
      var rxBuf := new Byte[3](_ => 0);
      ghost var tx := TxBytes(channel);
      assert txBuf[..] == tx;
      ghost var start := bus;
      ghost var events := [CsLow];

      csHigh := false;
      bus := bus + [CsLow];

      for i := 0 to 3
        invariant txBuf[..] == tx
        invariant forall j :: 0 <= j < i ==> replies[j] == Some(rxBuf[j])
        invariant events == [CsLow] + Transfers(tx, replies, i)
        invariant bus == start + events
        invariant !csHigh
      {
        var received := replies[i];
        TransfersSnoc(tx, replies, i);
        AppendAssoc(start, events, [Transfer(txBuf[i], received)]);
        AppendAssoc([CsLow], Transfers(tx, replies, i), [Transfer(tx[i], replies[i])]);
        bus := bus + [Transfer(txBuf[i], received)];
        events := events + [Transfer(tx[i], replies[i])];
        assert events == [CsLow] + Transfers(tx, replies, i + 1);
        match received {
          case Some(b) =>
            rxBuf[i] := b;
          case None =>
            csHigh := true;
            AppendAssoc(start, events, [CsHigh]);
            bus := bus + [CsHigh];
            FailureEvents(channel, replies, i);
            return None;
        }
      }

      csHigh := true;
      AppendAssoc(start, events, [CsHigh]);
      bus := bus + [CsHigh];
      SuccessEvents(channel, replies);
      r := Some(ResultValue(rxBuf[1], rxBuf[2]));
    }

    /** One reading of the main loop: a failed read counts as 0. */
    method ReadPot(channel: Byte, replies: seq<Option<Byte>>) returns (pot: Word)
      requires |replies| == 3 && channel <= 7
      modifies this
      ensures pot == Reading(channel, replies)
      ensures bus == old(bus) + ReadSpec(channel, replies).1
      ensures csHigh
    {
      var r := ReadChannel(channel, replies);
      pot := UnwrapOr(r, 0);
    }

    /** One pass of the main loop: channels 0 to 5 feed the six knobs. */
    method ReadPots(replies: seq<seq<Option<Byte>>>) returns (pots: PotReadings)
      requires |replies| == 6 && forall c :: 0 <= c < 6 ==> |replies[c]| == 3
      modifies this
      ensures pots == PotReadings(Reading(0, replies[0]), Reading(1, replies[1]), Reading(2, replies[2]),
                                  Reading(3, replies[3]), Reading(4, replies[4]), Reading(5, replies[5]))
      ensures bus == old(bus) + ReadSpec(0, replies[0]).1 + ReadSpec(1, replies[1]).1
                           + ReadSpec(2, replies[2]).1 + ReadSpec(3, replies[3]).1
                           + ReadSpec(4, replies[4]).1 + ReadSpec(5, replies[5]).1
      ensures csHigh
    {
      var pot1 := ReadPot(0, replies[0]);
      var pot2 := ReadPot(1, replies[1]);
      var pot3 := ReadPot(2, replies[2]);
      var pot4 := ReadPot(3, replies[3]);
      var pot5 := ReadPot(4, replies[4]);
      var pot6 := ReadPot(5, replies[5]);
      pots := PotReadings(pot1, pot2, pot3, pot4, pot5, pot6);
    }
  }

  /** The six readings of one pass, `pot1` to `pot6`. */
  datatype PotReadings = PotReadings(pot1: Word, pot2: Word, pot3: Word, pot4: Word, pot5: Word, pot6: Word)

  /** A reading as the main loop keeps it: a failed read becomes 0, so a
      reading is always a 10-bit value. */
  function Reading(channel: Byte, replies: seq<Option<Byte>>): (v: Word)
    requires |replies| == 3
    ensures v <= 1023
    ensures ReadSpec(channel, replies).0.None? ==> v == 0
    ensures ReadSpec(channel, replies).0.Some? ==> v == ReadSpec(channel, replies).0.value
  {
    UnwrapOr(ReadSpec(channel, replies).0, 0)
  }
}
