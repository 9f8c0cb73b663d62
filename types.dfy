/** The records the host application exchanges (gui/src-tauri/src/types.rs)
    and the normalisation of a raw potentiometer sample to percentages. */
module Types {
  import opened Common

  /** One sample of the three potentiometers, as the device sends it. */
  datatype PotentiometerData = PotentiometerData(pot1: u16, pot2: u16, pot3: u16)

  /** Full scale of a raw reading (a 12-bit ADC). */
  const FullScale: nat := 4095

  /** `round_to_2`: the percentage raw / 4095 * 100, rounded to the nearest
      multiple of 2. The Rust code computes it in f32 as
      round(raw / 4095 * 100 / 2) * 2; on integers this is 2 * the rounding
      (halves up) of raw * 50 / 4095, that is 2 * floor((100 raw + 4095) / 8190). */
  function RoundTo2(raw: nat): (pct: nat)
    ensures pct % 2 == 0
    ensures raw <= FullScale ==> pct <= 100
  {
    2 * ((100 * raw + 4095) / 8190)
  }

  /** `to_percentages`: each channel normalised on its own, to an even
      percentage that stays within 0..100 while its reading is within the
      12-bit range. */
  function ToPercentages(d: PotentiometerData): (r: (nat, nat, nat))
    ensures r.0 % 2 == 0 && r.1 % 2 == 0 && r.2 % 2 == 0
    ensures d.pot1 as nat <= FullScale ==> r.0 <= 100
    ensures d.pot2 as nat <= FullScale ==> r.1 <= 100
    ensures d.pot3 as nat <= FullScale ==> r.2 <= 100
  {
    (RoundTo2(d.pot1), RoundTo2(d.pot2), RoundTo2(d.pot3))
  }

  /** The step-2 quantisation of an integer percentage (round p / 2 to the
      nearest integer, halves up, and double it). */
  function Quantize(p: nat): (q: nat)
    ensures q % 2 == 0
    ensures p % 2 == 0 ==> q == p
    ensures q == p || q == p + 1
  {
    2 * ((p + 1) / 2)
  }

  function Abs(x: int): nat
  {
    if x < 0 then -x else x
  }

  lemma RoundTo2OfZero()
    ensures RoundTo2(0) == 0
  {
  }

  lemma RoundTo2OfFullScale()
    ensures RoundTo2(FullScale) == 100
  {
  }

  /** Readings above full scale are not clamped: the largest u16 gives 1600. */
  lemma RoundTo2NotClamped()
    ensures RoundTo2(0xFFFF) == 1600
  {
  }

  /** `RoundTo2(raw)` is a multiple of 2 at least as close to the exact
      percentage 100 raw / 4095 as every other multiple of 2. Distances are
      compared scaled by 4095. */
  lemma RoundTo2IsNearest(raw: nat, e: int)
    requires e % 2 == 0
    ensures Abs(100 * raw - 4095 * RoundTo2(raw)) <= Abs(100 * raw - 4095 * e)
  {
    var q := (100 * raw + 4095) / 8190;
    var d := 100 * raw - 8190 * q;
    assert -4095 <= d < 4095;
    var m := e / 2;
    assert 4095 * e == 8190 * m;
    assert 100 * raw - 4095 * e == d + 8190 * (q - m);
    if m < q {
      assert 8190 * (q - m) >= 8190;
    } else if m > q {
      assert 8190 * (q - m) <= -8190;
    }
  }

  /** The exact percentage is never halfway between two multiples of 2, for
      any raw value: 100 raw is even and 4095 (2k + 1) is odd. So the
      tie-breaking rule of f32::round never comes into play. */
  lemma NoTie(raw: nat, k: int)
    ensures 100 * raw != 4095 * (2 * k + 1)
  {
    assert 4095 * (2 * k + 1) == 2 * (4095 * k + 2047) + 1;
  }

  lemma RoundTo2Monotone(a: nat, b: nat)
    requires a <= b
    ensures RoundTo2(a) <= RoundTo2(b)
  {
    var x, y := 100 * a + 4095, 100 * b + 4095;
    assert x == 8190 * (x / 8190) + x % 8190;
    assert y == 8190 * (y / 8190) + y % 8190;
  }

  /** Re-quantising a normalised value leaves it unchanged, and so does
      quantising twice. */
  lemma RequantizeIdempotent(raw: nat, p: nat)
    ensures Quantize(RoundTo2(raw)) == RoundTo2(raw)
    ensures Quantize(Quantize(p)) == Quantize(p)
  {
  }

  /** Each output of `to_percentages` depends on its own field only. */
  lemma ChannelsIndependent(d: PotentiometerData, e: PotentiometerData)
    ensures d.pot1 == e.pot1 ==> ToPercentages(d).0 == ToPercentages(e).0
    ensures d.pot2 == e.pot2 ==> ToPercentages(d).1 == ToPercentages(e).1
    ensures d.pot3 == e.pot3 ==> ToPercentages(d).2 == ToPercentages(e).2
  {
  }

  /** The gui's mixer-channel view: id, value and whether a knob backs it. */
  datatype MixerChannel = MixerChannel(id: nat, value: int, isPhysical: bool)

  /** An application's audio session. The volume, an f32 percentage in the
      Rust code, is an integer here. */
  datatype AudioSession = AudioSession(
    processId: u32,
    processName: string,
    displayName: string,
    volume: int,
    isMuted: bool)

  /** A serial port as listed to the user interface. */
  datatype SerialPortInfo = SerialPortInfo(portName: string, description: string)

  /** The point-in-time connection status returned by the link. */
  datatype ConnectionStatus = ConnectionStatus(connected: bool, port: Option<string>, error: Option<string>)

  /** The persisted settings of the gui application. */
  datatype AppConfig = AppConfig(startWithWindows: bool, minimizeToTray: bool, autoConnect: bool, theme: string)
}
