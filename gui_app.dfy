/** The gui host application (gui/src-tauri/src/lib.rs): the audio-session
    polling loop that keeps a snapshot and announces changes, the
    three-slot mixer view, and the router that drives the master volume
    from the first knob. */
module GuiApp {
  import opened Common
  import opened Types
  import opened Audio
  import opened Framing
  import opened JsonLine
  import opened Serial

  // ---------------------------------------------------------------------
  // Session lists

  /** Field-by-field equality of two sessions (the Rust type derives no
      `PartialEq`, so the comparison is written out). */
  predicate SessionEq(a: AudioSession, b: AudioSession)
  {
    && a.processId == b.processId
    && a.processName == b.processName
    && a.displayName == b.displayName
    && a.volume == b.volume
    && a.isMuted == b.isMuted
  }

  /** `Vec` equality: same length, and equal sessions position by position. */
  predicate SessionListsEqual(xs: seq<AudioSession>, ys: seq<AudioSession>)
  {
    |xs| == |ys| && forall i :: 0 <= i < |xs| ==> SessionEq(xs[i], ys[i])
  }

  /** The written-out comparison is value equality. */
  lemma SessionListsEqualIff(xs: seq<AudioSession>, ys: seq<AudioSession>)
    ensures SessionListsEqual(xs, ys) <==> xs == ys
  {
    if SessionListsEqual(xs, ys) {
      assert forall i :: 0 <= i < |xs| ==> xs[i] == ys[i];
    }
  }

  /** Order matters: the same two different sessions in the other order
      count as a change. */
  lemma ReorderIsChange(a: AudioSession, b: AudioSession)
    requires a != b
    ensures !SessionListsEqual([a, b], [b, a])
  {
    SessionListsEqualIff([a, b], [b, a]);
    assert [a, b][0] != [b, a][0];
  }

  // ---------------------------------------------------------------------
  // The reconciler

  /** One tick of the schedule: cancellation, or the poll interval elapsed
      and `get_audio_sessions` answered `poll`. */
  datatype TimerEvent = Cancelled | Elapsed(poll: Result<seq<AudioSession>>)

  /** What one tick does to the snapshot and what it announces: a list
      that differs from the snapshot replaces it and is announced; an equal
      list or a failed poll changes and announces nothing. */
  function Reconcile(snapshot: seq<AudioSession>, poll: Result<seq<AudioSession>>)
      : (r: (seq<AudioSession>, Option<seq<AudioSession>>))
    ensures poll.Err? ==> r == (snapshot, None)
    ensures poll.Ok? && poll.value == snapshot ==> r == (snapshot, None)
    ensures poll.Ok? && poll.value != snapshot ==> r == (poll.value, Some(poll.value))
  {
    match poll
    case Err(_) => (snapshot, None)
    case Ok(current) =>
      SessionListsEqualIff(snapshot, current);
      if !SessionListsEqual(snapshot, current) then (current, Some(current)) else (snapshot, None)
  }

  /** After any tick the snapshot is what the backend last reported, or
      unchanged when the poll failed; an announcement always carries the
      new snapshot. */
  lemma ReconcileTracksPoll(snapshot: seq<AudioSession>, poll: Result<seq<AudioSession>>)
    ensures poll.Ok? ==> Reconcile(snapshot, poll).0 == poll.value
    ensures Reconcile(snapshot, poll).1.Some? ==> Reconcile(snapshot, poll).1.value == Reconcile(snapshot, poll).0
  {
  }

  /** The snapshot and the announcements after a run of events; the run
      ends at the first cancellation. */
  function RunSpec(snapshot: seq<AudioSession>, events: seq<TimerEvent>)
      : (seq<AudioSession>, seq<seq<AudioSession>>)
    decreases |events|
  {
    if |events| == 0 || events[0].Cancelled? then (snapshot, [])
    else
      var (next, emit) := Reconcile(snapshot, events[0].poll);
      var (last, rest) := RunSpec(next, events[1..]);
      (last, (if emit.Some? then [emit.value] else []) + rest)
  }

  /** Number of polls before the first cancellation. */
  function PollsBeforeCancel(events: seq<TimerEvent>): nat
  {
    if |events| == 0 || events[0].Cancelled? then 0 else 1 + PollsBeforeCancel(events[1..])
  }

  /** Nothing after a cancellation has any effect. */
  lemma {:induction false} CancelEndsRun(snapshot: seq<AudioSession>, before: seq<TimerEvent>, after: seq<TimerEvent>)
    ensures RunSpec(snapshot, before + [Cancelled] + after) == RunSpec(snapshot, before + [Cancelled])
    ensures PollsBeforeCancel(before + [Cancelled] + after) == PollsBeforeCancel(before + [Cancelled])
    decreases |before|
  {
    if |before| == 0 {
      assert (before + [Cancelled] + after)[0] == Cancelled;
      assert (before + [Cancelled])[0] == Cancelled;
    } else {
      assert (before + [Cancelled] + after)[1..] == before[1..] + [Cancelled] + after;
      assert (before + [Cancelled])[1..] == before[1..] + [Cancelled];
      if before[0].Elapsed? {
        CancelEndsRun(Reconcile(snapshot, before[0].poll).0, before[1..], after);
      }
    }
  }

  /** The same list twice in a row is announced at most once. */
  lemma SamePollTwice(snapshot: seq<AudioSession>, xs: seq<AudioSession>)
    ensures |RunSpec(snapshot, [Elapsed(Ok(xs)), Elapsed(Ok(xs))]).1| <= 1
    ensures RunSpec(snapshot, [Elapsed(Ok(xs)), Elapsed(Ok(xs))]).0 == xs
  {
    var events := [Elapsed(Ok(xs)), Elapsed(Ok(xs))];
    var next := Reconcile(snapshot, Ok(xs)).0;
    assert next == xs;
    assert Reconcile(next, Ok(xs)) == (xs, None);
    assert events[1..] == [Elapsed(Ok(xs))];
    assert events[1..][1..] == [];
    var one: seq<TimerEvent> := [Elapsed(Ok(xs))];
    assert one[1..] == [];
    assert RunSpec(xs, one).1 == [] + RunSpec(xs, []).1;
    assert RunSpec(xs, one) == (xs, []);
    assert RunSpec(xs, events[1..]) == (xs, []);
  }

  /** Starting from the empty snapshot, the first successful non-empty
      poll is announced. */
  lemma FirstNonEmptyPollAnnounced(xs: seq<AudioSession>)
    requires |xs| > 0
    ensures Reconcile([], Ok(xs)) == (xs, Some(xs))
  {
  }

  /** The shared `last_audio_sessions` and the log of
      "audio-sessions-updated" announcements. */
  class SessionReconciler {
    var lastSessions: seq<AudioSession>
    var announced: seq<seq<AudioSession>>

    /** The snapshot starts out empty. */
    constructor()
      ensures lastSessions == [] && announced == []
    {
      lastSessions := [];
      announced := [];
    }

    /** One elapsed poll interval. */
    method Tick(poll: Result<seq<AudioSession>>)
      modifies this
      ensures lastSessions == Reconcile(old(lastSessions), poll).0
      ensures announced == old(announced)
        + (if Reconcile(old(lastSessions), poll).1.Some? then [Reconcile(old(lastSessions), poll).1.value] else [])
    {
      match poll {
        case Ok(currentSessions) =>
          var shouldEmit := false;
          if !SessionListsEqual(lastSessions, currentSessions) {
            shouldEmit := true;
          }
          if shouldEmit {
            lastSessions := currentSessions;
            announced := announced + [currentSessions];
          }
        case Err(_) =>
      }
    }

    /** The polling task: ticks until cancelled. */
    method Run(events: seq<TimerEvent>) returns (polls: nat)
      modifies this
      ensures lastSessions == RunSpec(old(lastSessions), events).0
      ensures announced == old(announced) + RunSpec(old(lastSessions), events).1
      ensures polls == PollsBeforeCancel(events)
    {
      polls := 0;
      var i := 0;
      while i < |events|
        invariant 0 <= i <= |events|
        invariant RunSpec(lastSessions, events[i..]).0 == RunSpec(old(lastSessions), events).0
        invariant announced + RunSpec(lastSessions, events[i..]).1
               == old(announced) + RunSpec(old(lastSessions), events).1
        invariant polls + PollsBeforeCancel(events[i..]) == PollsBeforeCancel(events)
        decreases |events| - i
      {
        RunStep(lastSessions, events, i);
        match events[i] {
          case Cancelled =>
            assert announced + [] == announced;
            return;
          case Elapsed(poll) =>
            ghost var (next, emit) := Reconcile(lastSessions, poll);
            ghost var e := if emit.Some? then [emit.value] else [];
            AppendAssoc(announced, e, RunSpec(next, events[i + 1..]).1);
            Tick(poll);
            polls := polls + 1;
        }
        i := i + 1;
      }
      assert events[i..] == [];
      assert announced + [] == announced;
    }
  }

  lemma RunStep(snapshot: seq<AudioSession>, events: seq<TimerEvent>, i: nat)
    requires i < |events|
    ensures events[i].Cancelled? ==>
      RunSpec(snapshot, events[i..]) == (snapshot, []) && PollsBeforeCancel(events[i..]) == 0
    ensures events[i].Elapsed? ==>
      var (next, emit) := Reconcile(snapshot, events[i].poll);
      && RunSpec(snapshot, events[i..]).0 == RunSpec(next, events[i + 1..]).0
      && RunSpec(snapshot, events[i..]).1
         == (if emit.Some? then [emit.value] else []) + RunSpec(next, events[i + 1..]).1
      && PollsBeforeCancel(events[i..]) == 1 + PollsBeforeCancel(events[i + 1..])
  {
    assert events[i..][1..] == events[i + 1..];
  }

  // ---------------------------------------------------------------------
  // Mixer view and router

  /** `get_mixer_channels`: the three physical channels, no value yet. */
  method GetMixerChannels() returns (channels: seq<MixerChannel>)
    ensures channels == [MixerChannel(1, 0, true), MixerChannel(2, 0, true), MixerChannel(3, 0, true)]
  {
    channels := [];
    for i := 1 to 4
      invariant |channels| == i - 1
      invariant forall k :: 0 <= k < i - 1 ==> channels[k] == MixerChannel(k + 1, 0, true)
    {
      channels := channels + [MixerChannel(i, 0, true)];
    }
  }

  /** The calls the gui's router makes: the master volume from the first
      knob's percentage, one call per sample. */
  function MasterCalls(samples: seq<PotentiometerData>): (calls: seq<BackendCall>)
    ensures |calls| == |samples|
    ensures forall i :: 0 <= i < |samples| ==> calls[i] == MasterVolume(ToPercentages(samples[i]).0)
  {
    if |samples| == 0 then []
    else MasterCalls(samples[..|samples| - 1]) + [MasterVolume(ToPercentages(samples[|samples| - 1]).0)]
  }

  lemma MasterCallsPrefix(samples: seq<PotentiometerData>, k: nat)
    requires k < |samples|
    ensures MasterCalls(samples[..k + 1]) == MasterCalls(samples[..k]) + [MasterVolume(ToPercentages(samples[k]).0)]
  {
    assert samples[..k + 1][..k] == samples[..k];
  }

  /** The second and third knobs have no effect. */
  lemma MasterCallsIgnoreOtherKnobs(a: seq<PotentiometerData>, b: seq<PotentiometerData>)
    requires |a| == |b| && forall i :: 0 <= i < |a| ==> a[i].pot1 == b[i].pot1
    ensures MasterCalls(a) == MasterCalls(b)
  {
  }

  /** The router task: each sample is emitted as "pot-data" and sets the
      master volume; the backend's answers are ignored. */
  method RouteMasterOnly(backend: AudioBackend, samples: seq<PotentiometerData>)
      returns (emitted: seq<PotentiometerData>)
    modifies backend
    ensures emitted == samples
    ensures backend.calls == old(backend.calls) + MasterCalls(samples)
  {
    emitted := [];
    var k := 0;
    while k < |samples|
      invariant 0 <= k <= |samples|
      invariant emitted == samples[..k]
      invariant backend.calls == old(backend.calls) + MasterCalls(samples[..k])
    {
      var data := samples[k];
      emitted := emitted + [data];
      var (pot1, _, _) := ToPercentages(data);
      MasterCallsPrefix(samples, k);
      AppendAssoc(old(backend.calls), MasterCalls(samples[..k]), [MasterVolume(pot1)]);
      var _ := backend.SetMasterVolume(pot1);
      TakeSnoc(samples, k);
      k := k + 1;
    }
    assert samples[..k] == samples;
  }

  /** `connect_serial`: connects, and only when connected starts the
      reader and the master-volume router. */
  method ConnectSerial(manager: SerialManager, backend: AudioBackend,
                       requested: Option<string>, enumeration: Result<seq<PortDescriptor>>,
                       open: string -> Result<PortHandle>, script: seq<ReaderStep>)
      returns (r: Result<ConnectionStatus>, emitted: seq<PotentiometerData>)
    modifies manager, backend
    ensures r.Ok? && manager.Valid()
    ensures r.value == ConnectStatus(requested, enumeration, open)
    ensures !r.value.connected ==>
      && emitted == [] && backend.calls == old(backend.calls)
      && manager.port.None? && manager.portName.None?
    ensures r.value.connected ==>
      && manager.port == PortAfter(Some(open(ChosenPort(requested, enumeration).value).value), script)
      && manager.portName == NameAfter(ChosenPort(requested, enumeration), script)
    ensures r.value.connected ==>
      && emitted == DecodeAll(SplitLines(Consumed(true, script)).0)
      && backend.calls == old(backend.calls) + MasterCalls(emitted)
  {
    r := manager.Connect(requested, enumeration, open);
    emitted := [];
    if r.value.connected {
      var sent, _ := manager.ReadLoop(script);
      emitted := RouteMasterOnly(backend, sent);
    }
  }
}
