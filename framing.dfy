/** Newline framing of the serial text stream: the specification of what the
    reader's accumulator-and-split step (mixer-gui/src-tauri/src/serial.rs)
    extracts from the text received so far. */
module Framing {
  import opened Common
  import opened Text

  const Newline: char := '\n'

  predicate NoNewline(s: string)
  {
    Newline !in s
  }

  predicate AllNoNewline(lines: seq<string>)
  {
    forall i :: 0 <= i < |lines| ==> NoNewline(lines[i])
  }

  /** Each line followed by its terminator, concatenated. */
  function Join(lines: seq<string>): string
  {
    if |lines| == 0 then "" else lines[0] + [Newline] + Join(lines[1..])
  }

  /** The complete lines of `s`, in order, without their terminators, and
      the unterminated text after the last newline. */
  function SplitLines(s: string): (seq<string>, string)
    decreases |s|
  {
    match Find(s, Newline)
    case None => ([], s)
    case Some(p) =>
      var rest := SplitLines(s[p + 1..]);
      ([s[..p]] + rest.0, rest.1)
  }

  /** Joining the lines and appending the rest gives the text back. */
  lemma {:induction false} SplitLinesJoin(s: string)
    ensures Join(SplitLines(s).0) + SplitLines(s).1 == s
    decreases |s|
  {
    match Find(s, Newline)
    case None =>
    case Some(p) =>
      SplitLinesJoin(s[p + 1..]);
      SplitLinesJoinStep(s, p);
  }

  lemma SplitLinesJoinStep(s: string, p: nat)
    requires Find(s, Newline) == Some(p)
    requires Join(SplitLines(s[p + 1..]).0) + SplitLines(s[p + 1..]).1 == s[p + 1..]
    ensures Join(SplitLines(s).0) + SplitLines(s).1 == s
  {
    var rest := SplitLines(s[p + 1..]);
    SplitLinesStep(s, p);
    SplitAround(s, p);
    JoinStep(s[..p], s[p + 1..], rest.0, rest.1);
  }

  /** One unfolding of the split at the first newline. */
  lemma SplitLinesStep(s: string, p: nat)
    requires Find(s, Newline) == Some(p)
    ensures SplitLines(s) == ([s[..p]] + SplitLines(s[p + 1..]).0, SplitLines(s[p + 1..]).1)
  {
  }

  lemma SplitAround(s: string, p: nat)
    requires p < |s| && s[p] == Newline
    ensures s == s[..p] + [Newline] + s[p + 1..]
  {
  }

  lemma JoinStep(head: string, tail: string, lines: seq<string>, rest: string)
    requires Join(lines) + rest == tail
    ensures Join([head] + lines) + rest == head + [Newline] + tail
  {
    JoinCons(head, lines);
  }

  /** No extracted line, and not the rest, contains a newline. */
  lemma {:induction false} SplitLinesNoNewline(s: string)
    ensures AllNoNewline(SplitLines(s).0) && NoNewline(SplitLines(s).1)
    decreases |s|
  {
    match Find(s, Newline)
    case None =>
    case Some(p) =>
      var rest := SplitLines(s[p + 1..]);
      SplitLinesNoNewline(s[p + 1..]);
      var lines := [s[..p]] + rest.0;
      assert forall i :: 1 <= i < |lines| ==> lines[i] == rest.0[i - 1];
  }

  lemma JoinCons(l: string, lines: seq<string>)
    ensures Join([l] + lines) == l + [Newline] + Join(lines)
  {
    assert ([l] + lines)[1..] == lines;
  }

  lemma {:induction false} JoinAppend(a: seq<string>, b: seq<string>)
    ensures Join(a + b) == Join(a) + Join(b)
  {
    if |a| == 0 {
      assert a + b == b;
    } else {
      assert (a + b)[1..] == a[1..] + b;
      JoinAppend(a[1..], b);
    }
  }

  /** The split is the only way to write `s` as terminated newline-free
      lines followed by a newline-free rest. */
  lemma {:induction false} SplitLinesUnique(lines: seq<string>, rest: string)
    requires AllNoNewline(lines) && NoNewline(rest)
    ensures SplitLines(Join(lines) + rest) == (lines, rest)
  {
    var s := Join(lines) + rest;
    if |lines| == 0 {
      assert s == rest;
    } else {
      var l := lines[0];
      assert s == l + [Newline] + (Join(lines[1..]) + rest);
      assert (l + [Newline])[..|l|] == l;
      assert s[..|l|] == l;
      assert s[|l|] == Newline;
      assert Find(s, Newline) == Some(|l|);
      assert s[|l| + 1..] == Join(lines[1..]) + rest;
      SplitLinesUnique(lines[1..], rest);
      assert [l] + lines[1..] == lines;
    }
  }

  /** Splitting text that starts with complete lines yields those lines
      first: framing chunk by chunk equals framing the whole stream. */
  lemma SplitAfterLines(lines: seq<string>, s: string)
    requires AllNoNewline(lines)
    ensures SplitLines(Join(lines) + s) == (lines + SplitLines(s).0, SplitLines(s).1)
  {
    var r := SplitLines(s);
    SplitLinesJoin(s);
    SplitLinesNoNewline(s);
    JoinAppend(lines, r.0);
    AllNoNewlineAppend(lines, r.0);
    JoinThenRest(lines, r.0, r.1, s);
    SplitLinesUnique(lines + r.0, r.1);
  }

  lemma JoinThenRest(a: seq<string>, b: seq<string>, rest: string, s: string)
    requires Join(b) + rest == s
    requires Join(a + b) == Join(a) + Join(b)
    ensures Join(a) + s == Join(a + b) + rest
  {
  }

  lemma AllNoNewlineAppend(a: seq<string>, b: seq<string>)
    requires AllNoNewline(a) && AllNoNewline(b)
    ensures AllNoNewline(a + b)
  {
    forall i | 0 <= i < |a + b|
      ensures NoNewline((a + b)[i])
    {
      if i >= |a| {
        assert (a + b)[i] == b[i - |a|];
      }
    }
  }

  /** One line per newline. */
  lemma {:induction false} LinesPerNewline(s: string)
    ensures |SplitLines(s).0| == Count(s, Newline)
    decreases |s|
  {
    match Find(s, Newline)
    case None =>
      CountAbsent(s, Newline);
    case Some(p) =>
      SplitAround(s, p);
      assert s == s[..p] + ([Newline] + s[p + 1..]);
      CountAppend(s[..p], [Newline] + s[p + 1..], Newline);
      CountAbsent(s[..p], Newline);
      assert ([Newline] + s[p + 1..])[1..] == s[p + 1..];
      LinesPerNewline(s[p + 1..]);
  }
}
