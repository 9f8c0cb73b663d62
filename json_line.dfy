/** The host's decoding of one telemetry line,
    `serde_json::from_str::<PotentiometerData>(line)`, restricted to the
    compact form `{"pot1":A,"pot2":B,"pot3":C}`. Each value follows
    serde_json's grammar for a u16: a non-empty run of digits, no leading
    zero, at most 65535. Anything else is rejected as a whole. */
module JsonLine {
  import opened Common
  import opened Text
  import opened Types

  const Pot1Key: string := "{\"pot1\":"
  const Pot2Key: string := ",\"pot2\":"
  const Pot3Key: string := ",\"pot3\":"
  const Close: string := "}"

  /** Reads a u16 at the start of `s`, returning it and what follows it. */
  function ParseU16(s: string): (r: Option<(u16, string)>)
    ensures r.Some? ==> s == Decimal(r.value.0) + r.value.1
    ensures r.Some? ==> |r.value.1| == 0 || !IsDigit(r.value.1[0])
  {
    var k := DigitRun(s);
    if k == 0 || (s[0] == '0' && k > 1) then None
    else
      var v := DigitsValue(s[..k]);
      if v > 0xFFFF then None
      else
        DecimalOfDigitsValue(s[..k]);
        assert s == s[..k] + s[k..];
        Some((v, s[k..]))
  }

  /** Expects `key` at the start of `s`, then a u16. */
  function ParseField(s: string, key: string): (r: Option<(u16, string)>)
    ensures r.Some? ==> s == key + Decimal(r.value.0) + r.value.1
  {
    if |key| <= |s| && s[..|key|] == key then
      match ParseU16(s[|key|..])
      case None => None
      case Some((v, rest)) =>
        assert s == s[..|key|] + s[|key|..];
        Some((v, rest))
    else None
  }

  /** The one text that denotes a sample. */
  function Render(d: PotentiometerData): string
  {
    Pot1Key + Decimal(d.pot1) + Pot2Key + Decimal(d.pot2) + Pot3Key + Decimal(d.pot3) + Close
  }

  /** Decodes one line; None when it is not exactly a sample. Only the
      rendering of a sample decodes to it. */
  function DecodeSample(line: string): (r: Option<PotentiometerData>)
    ensures r.Some? ==> line == Render(r.value)
  {
    match ParseField(line, Pot1Key)
    case None => None
    case Some((a, r1)) =>
      match ParseField(r1, Pot2Key)
      case None => None
      case Some((b, r2)) =>
        match ParseField(r2, Pot3Key)
        case None => None
        case Some((c, r3)) =>
          if r3 == Close then
            RenderOfFields(line, a, b, c, r1, r2);
            Some(PotentiometerData(a, b, c))
          else None
  }

  lemma RenderOfFields(line: string, a: u16, b: u16, c: u16, r1: string, r2: string)
    requires line == Pot1Key + Decimal(a) + r1
    requires r1 == Pot2Key + Decimal(b) + r2
    requires r2 == Pot3Key + Decimal(c) + Close
    ensures line == Render(PotentiometerData(a, b, c))
  {
    var x := Pot1Key + Decimal(a);
    var y := x + Pot2Key + Decimal(b);
    AppendAssoc(x, Pot2Key + Decimal(b), r2);
    AppendAssoc(x, Pot2Key, Decimal(b));
    assert line == y + r2;
    AppendAssoc(y, Pot3Key + Decimal(c), Close);
    AppendAssoc(y, Pot3Key, Decimal(c));
  }

  /** A u16 in decimal, followed by a non-digit or nothing, reads back. */
  lemma ParseU16OfDecimal(n: u16, rest: string)
    requires |rest| == 0 || !IsDigit(rest[0])
    ensures ParseU16(Decimal(n) + rest) == Some((n, rest))
  {
    var s := Decimal(n) + rest;
    DigitRunOfDigits(Decimal(n), rest);
    assert s[..|Decimal(n)|] == Decimal(n);
    assert s[|Decimal(n)|..] == rest;
    DigitsValueOfDecimal(n);
  }

  lemma ParseFieldOfKey(key: string, n: u16, rest: string)
    requires |rest| == 0 || !IsDigit(rest[0])
    ensures ParseField(key + Decimal(n) + rest, key) == Some((n, rest))
  {
    var s := key + Decimal(n) + rest;
    assert s[..|key|] == key;
    assert s[|key|..] == Decimal(n) + rest;
    ParseU16OfDecimal(n, rest);
  }

  /** Every sample's rendering decodes back to it. */
  lemma DecodeRender(d: PotentiometerData)
    ensures DecodeSample(Render(d)) == Some(d)
  {
    var r3 := Close;
    var r2 := Pot3Key + Decimal(d.pot3) + r3;
    var r1 := Pot2Key + Decimal(d.pot2) + r2;
    assert Render(d) == Pot1Key + Decimal(d.pot1) + r1;
    ParseFieldOfKey(Pot1Key, d.pot1, r1);
    ParseFieldOfKey(Pot2Key, d.pot2, r2);
    ParseFieldOfKey(Pot3Key, d.pot3, r3);
  }

  /** A line decodes to `d` exactly when it is the rendering of `d`. */
  lemma DecodeSampleIff(line: string, d: PotentiometerData)
    ensures DecodeSample(line) == Some(d) <==> line == Render(d)
  {
    DecodeRender(d);
  }

  /** The lines that decode, decoded, in order; the others are dropped. */
  function DecodeAll(lines: seq<string>): (samples: seq<PotentiometerData>)
    ensures |samples| <= |lines|
  {
    FilterMap(DecodeSample, lines)
  }

  lemma DecodeAllAppend(a: seq<string>, b: seq<string>)
    ensures DecodeAll(a + b) == DecodeAll(a) + DecodeAll(b)
  {
    FilterMapAppend(DecodeSample, a, b);
  }

  /** Lines that each decode give their samples, in order. */
  lemma DecodeAllEach(lines: seq<string>, ds: seq<PotentiometerData>)
    requires |lines| == |ds|
    requires forall i :: 0 <= i < |ds| ==> DecodeSample(lines[i]) == Some(ds[i])
    ensures DecodeAll(lines) == ds
  {
    FilterMapEach(DecodeSample, lines, ds);
  }
}
