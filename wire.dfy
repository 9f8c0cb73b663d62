/** The wire format end to end: what the firmware writes (firmware/src/main.rs)
    is what the host's reader (mixer-gui/src-tauri/src/serial.rs) frames and
    decodes. */
module Wire {
  import opened Common
  import opened Text
  import opened Types
  import opened Framing
  import opened JsonLine
  import opened Firmware
  import opened Serial

  /** The firmware's line is the rendering of the sample and a newline. */
  lemma EncodeLineIsRender(d: PotentiometerData)
    ensures EncodeLine(d) == Render(d) + [Newline]
  {
    EncodeLineExact(d);
    assert "}\n" == Close + [Newline];
  }

  lemma NoNewlineAppend(a: string, b: string)
    requires NoNewline(a) && NoNewline(b)
    ensures NoNewline(a + b)
  {
  }

  lemma DecimalNoNewline(n: nat)
    ensures NoNewline(Decimal(n))
  {
  }

  lemma RenderNoNewline(d: PotentiometerData)
    ensures NoNewline(Render(d))
  {
    DecimalNoNewline(d.pot1);
    DecimalNoNewline(d.pot2);
    DecimalNoNewline(d.pot3);
    NoNewlineAppend(Pot1Key, Decimal(d.pot1));
    NoNewlineAppend(Pot1Key + Decimal(d.pot1), Pot2Key);
    NoNewlineAppend(Pot1Key + Decimal(d.pot1) + Pot2Key, Decimal(d.pot2));
    NoNewlineAppend(Pot1Key + Decimal(d.pot1) + Pot2Key + Decimal(d.pot2), Pot3Key);
    NoNewlineAppend(Pot1Key + Decimal(d.pot1) + Pot2Key + Decimal(d.pot2) + Pot3Key, Decimal(d.pot3));
    NoNewlineAppend(Pot1Key + Decimal(d.pot1) + Pot2Key + Decimal(d.pot2) + Pot3Key + Decimal(d.pot3), Close);
  }

  /** The host cuts the firmware's line into exactly one line, the line
      without its newline, and that line decodes to the sample sent. */
  lemma LineRoundTrip(d: PotentiometerData)
    ensures SplitLines(EncodeLine(d)) == ([Render(d)], "")
    ensures DecodeSample(SplitLines(EncodeLine(d)).0[0]) == Some(d)
  {
    EncodeLineIsRender(d);
    RenderNoNewline(d);
    assert Join([Render(d)]) + "" == EncodeLine(d);
    SplitLinesUnique([Render(d)], "");
    DecodeRender(d);
  }

  /** The text of a sequence of telemetry lines, one after the other. */
  function Stream(ds: seq<PotentiometerData>): string
  {
    if |ds| == 0 then "" else EncodeLine(ds[0]) + Stream(ds[1..])
  }

  /** The lines the host sees for a sequence of samples. */
  function Renders(ds: seq<PotentiometerData>): (lines: seq<string>)
    ensures |lines| == |ds|
  {
    seq(|ds|, i requires 0 <= i < |ds| => Render(ds[i]))
  }

  lemma RendersCons(ds: seq<PotentiometerData>)
    requires |ds| > 0
    ensures Renders(ds) == [Render(ds[0])] + Renders(ds[1..])
  {
    assert forall i :: 0 <= i < |ds| - 1 ==> ds[1..][i] == ds[i + 1];
  }

  lemma {:induction false} StreamIsJoin(ds: seq<PotentiometerData>)
    ensures Stream(ds) == Join(Renders(ds))
    ensures AllNoNewline(Renders(ds))
    ensures DecodeAll(Renders(ds)) == ds
  {
    StreamJoin(ds);
    RendersNoNewline(ds);
    DecodeRenders(ds);
  }

  lemma {:induction false} StreamJoin(ds: seq<PotentiometerData>)
    ensures Stream(ds) == Join(Renders(ds))
  {
    if |ds| > 0 {
      StreamJoin(ds[1..]);
      EncodeLineIsRender(ds[0]);
      RendersCons(ds);
      JoinCons(Render(ds[0]), Renders(ds[1..]));
    }
  }

  lemma RendersNoNewline(ds: seq<PotentiometerData>)
    ensures AllNoNewline(Renders(ds))
  {
    forall i | 0 <= i < |ds| {
      RenderNoNewline(ds[i]);
    }
  }

  lemma DecodeRenders(ds: seq<PotentiometerData>)
    ensures DecodeAll(Renders(ds)) == ds
  {
    var lines := Renders(ds);
    forall i | 0 <= i < |ds|
      ensures DecodeSample(lines[i]) == Some(ds[i])
    {
      DecodeRender(ds[i]);
    }
    DecodeAllEach(lines, ds);
  }

  /** The whole stream decodes to the samples sent, in order, with nothing
      left in the accumulator. */
  lemma StreamRoundTrip(ds: seq<PotentiometerData>)
    ensures SplitLines(Stream(ds)) == (Renders(ds), "")
    ensures DecodeAll(SplitLines(Stream(ds)).0) == ds
  {
    StreamIsJoin(ds);
    assert Join(Renders(ds)) + "" == Stream(ds);
    SplitLinesUnique(Renders(ds), "");
  }

  /** The greeting the firmware sends first, as text: one line, "Hello,
      World!" and a carriage return, then the newline. */
  const GreetingLineText: string := "Hello, World!\r"
  const GreetingText: string := "Hello, World!\r\n"

  /** The greeting's text is that one line, terminated. */
  lemma GreetingJoin()
    ensures AllNoNewline([GreetingLineText])
    ensures GreetingText == Join([GreetingLineText])
  {
    assert NoNewline(GreetingLineText);
    JoinCons(GreetingLineText, []);
  }

  /** The greeting arrives as one line, which is not a sample. */
  lemma GreetingLine()
    ensures SplitLines(GreetingText) == ([GreetingLineText], "")
    ensures DecodeSample(GreetingLineText) == None
  {
    GreetingJoin();
    assert GreetingText == Join([GreetingLineText]) + "";
    SplitLinesUnique([GreetingLineText], "");
    GreetingNotSample();
  }

  lemma GreetingNotSample()
    ensures DecodeSample(GreetingLineText) == None
  {
    var g := GreetingLineText;
    assert g[..|Pot1Key|][0] != Pot1Key[0];
    assert ParseField(g, Pot1Key) == None;
  }

  /** So the host drops the greeting and goes on with the samples after it. */
  lemma GreetingDropped(ds: seq<PotentiometerData>)
    ensures DecodeAll(SplitLines(GreetingText + Stream(ds)).0) == ds
  {
    var g := GreetingLineText;
    GreetingLines(ds);
    DecodeAllAppend([g], Renders(ds));
    GreetingNotSample();
    DecodeAllSingle(g);
    DecodeRenders(ds);
    assert DecodeAll([g] + Renders(ds)) == [] + ds;
  }

  /** The host's lines are the greeting's and then the samples'. */
  lemma GreetingLines(ds: seq<PotentiometerData>)
    ensures SplitLines(GreetingText + Stream(ds)) == ([GreetingLineText] + Renders(ds), "")
  {
    GreetingJoin();
    SplitAfterLines([GreetingLineText], Stream(ds));
    StreamRoundTrip(ds);
  }

  lemma DecodeAllSingle(line: string)
    ensures DecodeAll([line]) == Present(DecodeSample(line))
  {
    assert [line][0] == line && [line][1..] == [];
    assert FilterMap(DecodeSample, [line]) == Present(DecodeSample(line)) + FilterMap(DecodeSample, []);
  }

  /** The reader polls that deliver `chunks`, in order, with the port open. */
  function Polls(chunks: seq<string>): (script: seq<ReaderStep>)
    ensures |script| == |chunks|
  {
    if |chunks| == 0 then [] else [Poll(Read(chunks[0]))] + Polls(chunks[1..])
  }

  lemma {:induction false} ConsumedPolls(chunks: seq<string>)
    ensures Consumed(true, Polls(chunks)) == Concat(chunks)
  {
    if |chunks| > 0 {
      assert Polls(chunks)[1..] == Polls(chunks[1..]);
      ConsumedPolls(chunks[1..]);
    }
  }

  /** However the stream is cut into reads, the reader sends exactly the
      samples the firmware wrote and ends with an empty accumulator. */
  lemma ChunkedRoundTrip(ds: seq<PotentiometerData>, chunks: seq<string>)
    requires Concat(chunks) == Stream(ds)
    ensures DecodeAll(SplitLines(Consumed(true, Polls(chunks))).0) == ds
    ensures SplitLines(Consumed(true, Polls(chunks))).1 == ""
  {
    ConsumedPolls(chunks);
    StreamRoundTrip(ds);
  }

  /** `String::from_utf8_lossy` on bytes below 0x80: each byte is the
      character with that code. */
  function AsciiText(bytes: seq<u8>): (s: string)
    requires forall i :: 0 <= i < |bytes| ==> bytes[i] < 0x80
    ensures |s| == |bytes|
  {
    seq(|bytes|, i requires 0 <= i < |bytes| => bytes[i] as char)
  }

  /** The bytes the firmware writes for a line read back as the line. */
  lemma LineBytesText(d: PotentiometerData)
    ensures forall i :: 0 <= i < |LineBytes(d)| ==> LineBytes(d)[i] < 0x80
    ensures AsciiText(LineBytes(d)) == EncodeLine(d)
  {
    EncodeLineAscii(d);
  }
}
