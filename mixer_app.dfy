/** The mixer host application's commands (mixer-gui/src-tauri/src/lib.rs):
    the channel-mapping store, the eight-slot mixer view, the router that
    turns potentiometer samples into volume calls, and `connect_serial`,
    which starts the reader and the router only on a successful connect. */
module MixerApp {
  import opened Common
  import Types
  import opened Audio
  import opened ConfigStore
  import opened MixerTypes
  import opened MixerConfig
  import opened Framing
  import opened JsonLine
  import opened Serial

  // ---------------------------------------------------------------------
  // Mappings

  /** Retaining the mappings whose channel is not `id`: the mappings of other
      channels, in their order. */
  function Retain(ms: seq<ChannelMapping>, id: nat): (r: seq<ChannelMapping>)
    ensures |r| <= |ms|
    ensures forall i :: 0 <= i < |r| ==> r[i].channelId != id
  {
    if |ms| == 0 then []
    else if ms[0].channelId == id then Retain(ms[1..], id)
    else [ms[0]] + Retain(ms[1..], id)
  }

  /** Retaining distributes over concatenation: each mapping is kept or
      dropped on its own, and the kept ones keep their order. */
  lemma {:induction false} RetainAppend(a: seq<ChannelMapping>, b: seq<ChannelMapping>, id: nat)
    ensures Retain(a + b, id) == Retain(a, id) + Retain(b, id)
  {
    if |a| == 0 {
      assert a + b == b;
    } else {
      assert (a + b)[1..] == a[1..] + b;
      RetainAppend(a[1..], b, id);
    }
  }

  /** A single mapping is kept exactly when its channel differs. */
  lemma RetainOne(m: ChannelMapping, id: nat)
    ensures Retain([m], id) == if m.channelId == id then [] else [m]
  {
    assert [m][1..] == [];
  }

  /** Clearing an id that no mapping has changes nothing. */
  lemma {:induction false} RetainAbsent(ms: seq<ChannelMapping>, id: nat)
    requires forall i :: 0 <= i < |ms| ==> ms[i].channelId != id
    ensures Retain(ms, id) == ms
  {
    if |ms| > 0 {
      RetainAbsent(ms[1..], id);
      assert [ms[0]] + ms[1..] == ms;
    }
  }

  /** Clearing twice is clearing once. */
  lemma RetainIdempotent(ms: seq<ChannelMapping>, id: nat)
    ensures Retain(Retain(ms, id), id) == Retain(ms, id)
  {
    RetainAbsent(Retain(ms, id), id);
  }

  /** The first mapping of channel `id`, in list order. */
  function FindMapping(ms: seq<ChannelMapping>, id: nat): (r: Option<ChannelMapping>)
    ensures r.None? <==> forall i :: 0 <= i < |ms| ==> ms[i].channelId != id
    ensures r.Some? ==> r.value.channelId == id
    ensures r.Some? ==>
      exists i :: 0 <= i < |ms| && ms[i] == r.value && forall j :: 0 <= j < i ==> ms[j].channelId != id
  {
    if |ms| == 0 then None
    else if ms[0].channelId == id then Some(ms[0])
    else
      var r := FindMapping(ms[1..], id);
      if r.Some? then
        var i :| 0 <= i < |ms[1..]| && ms[1..][i] == r.value && forall j :: 0 <= j < i ==> ms[1..][j].channelId != id;
        assert ms[i + 1] == r.value;
        r
      else r
  }

  /** Clearing one channel does not change what the others find. */
  lemma {:induction false} FindAfterRetain(ms: seq<ChannelMapping>, id: nat, k: nat)
    requires k != id
    ensures FindMapping(Retain(ms, id), k) == FindMapping(ms, k)
  {
    if |ms| > 0 {
      FindAfterRetain(ms[1..], id, k);
      if ms[0].channelId != id {
        assert (Retain(ms, id))[1..] == Retain(ms[1..], id);
      }
    }
  }

  lemma {:induction false} FindAppend(a: seq<ChannelMapping>, b: seq<ChannelMapping>, k: nat)
    requires forall i :: 0 <= i < |a| ==> a[i].channelId != k
    ensures FindMapping(a + b, k) == FindMapping(b, k)
  {
    if |a| == 0 {
      assert a + b == b;
    } else {
      assert (a + b)[1..] == a[1..] + b;
      FindAppend(a[1..], b, k);
    }
  }

  lemma {:induction false} FindAppendFound(a: seq<ChannelMapping>, b: seq<ChannelMapping>, k: nat)
    requires FindMapping(a, k).Some?
    ensures FindMapping(a + b, k) == FindMapping(a, k)
  {
    if a[0].channelId != k {
      assert (a + b)[1..] == a[1..] + b;
      FindAppendFound(a[1..], b, k);
    }
  }

  /** The mappings after `save_channel_mapping(m)`: the others, then `m`. */
  function Saved(ms: seq<ChannelMapping>, m: ChannelMapping): seq<ChannelMapping>
  {
    Retain(ms, m.channelId) + [m]
  }

  /** Number of mappings for a channel. */
  function Count(ms: seq<ChannelMapping>, id: nat): nat
  {
    if |ms| == 0 then 0 else (if ms[0].channelId == id then 1 else 0) + Count(ms[1..], id)
  }

  lemma {:induction false} CountAppend(a: seq<ChannelMapping>, b: seq<ChannelMapping>, id: nat)
    ensures Count(a + b, id) == Count(a, id) + Count(b, id)
  {
    if |a| == 0 {
      assert a + b == b;
    } else {
      assert (a + b)[1..] == a[1..] + b;
      CountAppend(a[1..], b, id);
    }
  }

  lemma {:induction false} CountNone(ms: seq<ChannelMapping>, id: nat)
    requires forall i :: 0 <= i < |ms| ==> ms[i].channelId != id
    ensures Count(ms, id) == 0
  {
    if |ms| > 0 {
      CountNone(ms[1..], id);
    }
  }

  /** After saving `m`, its channel has exactly one mapping, `m`, and it
      is the last; every other channel finds what it found before. */
  lemma SavedFacts(ms: seq<ChannelMapping>, m: ChannelMapping, k: nat)
    ensures Count(Saved(ms, m), m.channelId) == 1
    ensures Saved(ms, m)[|Saved(ms, m)| - 1] == m
    ensures FindMapping(Saved(ms, m), m.channelId) == Some(m)
    ensures k != m.channelId ==> FindMapping(Saved(ms, m), k) == FindMapping(ms, k)
  {
    var id := m.channelId;
    var kept := Retain(ms, id);
    CountAppend(kept, [m], id);
    CountNone(kept, id);
    assert [m][1..] == [];
    FindAppend(kept, [m], id);
    if k != id {
      FindAfterRetain(ms, id, k);
      if FindMapping(kept, k).Some? {
        FindAppendFound(kept, [m], k);
      } else {
        FindAppend(kept, [m], k);
      }
    }
  }

  /** Saving the same channel twice keeps only the second mapping. */
  lemma SaveTwice(ms: seq<ChannelMapping>, m1: ChannelMapping, m2: ChannelMapping)
    requires m1.channelId == m2.channelId
    ensures Saved(Saved(ms, m1), m2) == Saved(ms, m2)
  {
    var id := m1.channelId;
    RetainAppend(Retain(ms, id), [m1], id);
    RetainOne(m1, id);
    RetainIdempotent(ms, id);
    assert Retain(ms, id) + [] == Retain(ms, id);
  }

  /** Channel ids are unique. */
  predicate UniqueIds(ms: seq<ChannelMapping>)
  {
    forall i, j :: 0 <= i < j < |ms| ==> ms[i].channelId != ms[j].channelId
  }

  lemma {:induction false} RetainUnique(ms: seq<ChannelMapping>, id: nat)
    requires UniqueIds(ms)
    ensures UniqueIds(Retain(ms, id))
    ensures forall i :: 0 <= i < |Retain(ms, id)| ==>
      exists j :: 0 <= j < |ms| && Retain(ms, id)[i] == ms[j]
  {
    if |ms| > 0 {
      RetainUnique(ms[1..], id);
      var rest := Retain(ms[1..], id);
      if ms[0].channelId != id {
        var r := [ms[0]] + rest;
        forall i | 0 <= i < |rest|
          ensures rest[i].channelId != ms[0].channelId
        {
          var j :| 0 <= j < |ms[1..]| && rest[i] == ms[1..][j];
          assert ms[j + 1] == rest[i];
        }
        forall i | 0 <= i < |r|
          ensures exists j :: 0 <= j < |ms| && r[i] == ms[j]
        {
          if i == 0 {
            assert r[0] == ms[0];
          } else {
            var j :| 0 <= j < |ms[1..]| && rest[i - 1] == ms[1..][j];
            assert r[i] == ms[j + 1];
          }
        }
      } else {
        forall i | 0 <= i < |rest|
          ensures exists j :: 0 <= j < |ms| && rest[i] == ms[j]
        {
          var j :| 0 <= j < |ms[1..]| && rest[i] == ms[1..][j];
          assert rest[i] == ms[j + 1];
        }
      }
    }
  }

  /** Saving keeps the channel ids unique. */
  lemma SaveKeepsUnique(ms: seq<ChannelMapping>, m: ChannelMapping)
    requires UniqueIds(ms)
    ensures UniqueIds(Saved(ms, m))
  {
    RetainUnique(ms, m.channelId);
  }

  // ---------------------------------------------------------------------
  // The eight-slot mixer view

  /** The view of slot `id`: no value yet, physical for the three knobs,
      and the application of the first mapping for that slot, if any. */
  function SlotView(ms: seq<ChannelMapping>, id: nat): (c: MixerChannel)
    ensures c.id == id && c.value == 0 && (c.isPhysical <==> id <= 3)
    ensures FindMapping(ms, id).None? ==> c.mappedApp.None? && c.appProcessId.None?
    ensures FindMapping(ms, id).Some? ==>
      c.mappedApp == FindMapping(ms, id).value.processName
      && c.appProcessId == FindMapping(ms, id).value.processId
  {
    var m := FindMapping(ms, id);
    MixerChannel(id, 0, id <= 3,
      if m.Some? then m.value.processName else None,
      if m.Some? then m.value.processId else None)
  }

  /** After saving a mapping its slot shows its application. */
  lemma SlotAfterSave(ms: seq<ChannelMapping>, m: ChannelMapping)
    ensures SlotView(Saved(ms, m), m.channelId).mappedApp == m.processName
    ensures SlotView(Saved(ms, m), m.channelId).appProcessId == m.processId
  {
    SavedFacts(ms, m, m.channelId);
  }

  /** After clearing a slot it shows no application. */
  lemma SlotAfterClear(ms: seq<ChannelMapping>, id: nat)
    ensures SlotView(Retain(ms, id), id).mappedApp.None?
    ensures SlotView(Retain(ms, id), id).appProcessId.None?
  {
  }

  // ---------------------------------------------------------------------
  // The router

  /** The call the router makes for one channel at percentage `pct`:
      master volume for a master mapping, the application's volume for a
      mapping with a process, and nothing otherwise. */
  function ChannelCall(ms: seq<ChannelMapping>, id: nat, pct: int): (r: Option<BackendCall>)
    ensures r.Some? ==> FindMapping(ms, id).Some?
    ensures r.Some? && r.value.MasterVolume? <==> FindMapping(ms, id).Some? && FindMapping(ms, id).value.isMaster
    ensures r.Some? && r.value.AppVolume? <==>
      FindMapping(ms, id).Some? && !FindMapping(ms, id).value.isMaster && FindMapping(ms, id).value.processId.Some?
    ensures r.Some? && r.value.MasterVolume? ==> r.value.volume == pct
    ensures r.Some? && r.value.AppVolume? ==>
      r.value == AppVolume(FindMapping(ms, id).value.processId.value, pct)
  {
    match FindMapping(ms, id)
    case None => None
    case Some(m) =>
      if m.isMaster then Some(MasterVolume(pct))
      else if m.processId.Some? then Some(AppVolume(m.processId.value, pct))
      else None
  }

  function OptionSeq(o: Option<BackendCall>): seq<BackendCall>
  {
    if o.Some? then [o.value] else []
  }

  /** The calls for channels 1, 2, … at the given percentages, in order. */
  function CallsFor(ms: seq<ChannelMapping>, pots: seq<int>): seq<BackendCall>
  {
    if |pots| == 0 then []
    else CallsFor(ms, pots[..|pots| - 1]) + OptionSeq(ChannelCall(ms, |pots|, pots[|pots| - 1]))
  }

  /** The calls one sample causes. */
  function SampleCalls(ms: seq<ChannelMapping>, d: Types.PotentiometerData): seq<BackendCall>
  {
    var (p1, p2, p3) := Types.ToPercentages(d);
    CallsFor(ms, [p1, p2, p3])
  }

  lemma SampleCallsUnfold(ms: seq<ChannelMapping>, d: Types.PotentiometerData)
    ensures SampleCalls(ms, d)
         == OptionSeq(ChannelCall(ms, 1, Types.RoundTo2(d.pot1)))
          + OptionSeq(ChannelCall(ms, 2, Types.RoundTo2(d.pot2)))
          + OptionSeq(ChannelCall(ms, 3, Types.RoundTo2(d.pot3)))
  {
    var pots := [Types.RoundTo2(d.pot1), Types.RoundTo2(d.pot2), Types.RoundTo2(d.pot3)];
    assert pots[..2] == [pots[0], pots[1]];
    assert pots[..2][..1] == [pots[0]];
    assert pots[..2][..1][..0] == [];
    assert CallsFor(ms, pots[..2][..1]) == OptionSeq(ChannelCall(ms, 1, pots[0]));
    assert CallsFor(ms, pots[..2]) == CallsFor(ms, pots[..2][..1]) + OptionSeq(ChannelCall(ms, 2, pots[1]));
    assert CallsFor(ms, pots) == CallsFor(ms, pots[..2]) + OptionSeq(ChannelCall(ms, 3, pots[2]));
  }

  /** With no mappings the router makes no call. */
  lemma NoMappingsNoCalls(d: Types.PotentiometerData)
    ensures SampleCalls([], d) == []
  {
    SampleCallsUnfold([], d);
  }

  /** For readings within the 12-bit range every call carries an even
      volume between 0 and 100. */
  lemma SampleCallVolumes(ms: seq<ChannelMapping>, d: Types.PotentiometerData)
    requires d.pot1 <= Types.FullScale && d.pot2 <= Types.FullScale && d.pot3 <= Types.FullScale
    ensures forall i :: 0 <= i < |SampleCalls(ms, d)| ==>
      0 <= SampleCalls(ms, d)[i].volume <= 100 && SampleCalls(ms, d)[i].volume % 2 == 0
  {
    SampleCallsUnfold(ms, d);
  }

  /** A master knob at full scale and an application knob at zero. */
  lemma RouterExample()
    ensures SampleCalls(
              [ChannelMapping(1, true, None, None), ChannelMapping(2, false, Some(77), Some("player"))],
              Types.PotentiometerData(4095, 0, 1234))
         == [MasterVolume(100), AppVolume(77, 0)]
  {
    var ms := [ChannelMapping(1, true, None, None), ChannelMapping(2, false, Some(77), Some("player"))];
    var d := Types.PotentiometerData(4095, 0, 1234);
    SampleCallsUnfold(ms, d);
    assert FindMapping(ms, 1) == Some(ms[0]);
    assert FindMapping(ms[1..], 2) == Some(ms[1]);
    assert FindMapping(ms[1..][1..], 3) == None;
    Types.RoundTo2OfFullScale();
  }

  /** The calls for a sequence of samples, sample by sample. */
  function RouterCalls(ms: seq<ChannelMapping>, samples: seq<Types.PotentiometerData>): seq<BackendCall>
  {
    if |samples| == 0 then []
    else RouterCalls(ms, samples[..|samples| - 1]) + SampleCalls(ms, samples[|samples| - 1])
  }

  /** Every sample is processed, whatever came before it. */
  lemma {:induction false} RouterCallsAppend(ms: seq<ChannelMapping>, a: seq<Types.PotentiometerData>,
                                              b: seq<Types.PotentiometerData>)
    ensures RouterCalls(ms, a + b) == RouterCalls(ms, a) + RouterCalls(ms, b)
    decreases |b|
  {
    if |b| == 0 {
      assert a + b == a;
    } else {
      assert (a + b)[..|a + b| - 1] == a + b[..|b| - 1];
      assert (a + b)[|a + b| - 1] == b[|b| - 1];
      RouterCallsAppend(ms, a, b[..|b| - 1]);
      RouterCallsSnoc(ms, a + b);
      RouterCallsSnoc(ms, b);
      AppendAssoc(RouterCalls(ms, a), RouterCalls(ms, b[..|b| - 1]), SampleCalls(ms, b[|b| - 1]));
    }
  }

  lemma RouterCallsPrefix(ms: seq<ChannelMapping>, samples: seq<Types.PotentiometerData>, k: nat)
    requires k < |samples|
    ensures RouterCalls(ms, samples[..k + 1]) == RouterCalls(ms, samples[..k]) + SampleCalls(ms, samples[k])
  {
    assert samples[..k + 1][..k] == samples[..k];
  }

  lemma RouterCallsSnoc(ms: seq<ChannelMapping>, s: seq<Types.PotentiometerData>)
    requires |s| > 0
    ensures RouterCalls(ms, s) == RouterCalls(ms, s[..|s| - 1]) + SampleCalls(ms, s[|s| - 1])
  {
  }

  /** The calls for a run of samples when the `k`-th of them is routed with
      the mappings `at(k)`. */
  function RoutedCalls(at: nat -> seq<ChannelMapping>, samples: seq<Types.PotentiometerData>): seq<BackendCall>
  {
    if |samples| == 0 then []
    else RoutedCalls(at, samples[..|samples| - 1]) + SampleCalls(at(|samples| - 1), samples[|samples| - 1])
  }

  lemma RoutedCallsPrefix(at: nat -> seq<ChannelMapping>, samples: seq<Types.PotentiometerData>, k: nat)
    requires k < |samples|
    ensures RoutedCalls(at, samples[..k + 1]) == RoutedCalls(at, samples[..k]) + SampleCalls(at(k), samples[k])
  {
    assert samples[..k + 1][..k] == samples[..k];
  }

  lemma RoutedCallsStep(before: seq<BackendCall>, at: nat -> seq<ChannelMapping>,
                        samples: seq<Types.PotentiometerData>, k: nat)
    requires k < |samples|
    ensures before + RoutedCalls(at, samples[..k + 1])
         == (before + RoutedCalls(at, samples[..k])) + SampleCalls(at(k), samples[k])
  {
    RoutedCallsPrefix(at, samples, k);
    AppendAssoc(before, RoutedCalls(at, samples[..k]), SampleCalls(at(k), samples[k]));
  }

  /** While nobody edits the mappings, routing with the per-sample copies is
      routing every sample with the one list. */
  lemma {:induction false} RoutedCallsUnedited(at: nat -> seq<ChannelMapping>, ms: seq<ChannelMapping>,
                                                samples: seq<Types.PotentiometerData>)
    requires forall k :: 0 <= k < |samples| ==> at(k) == ms
    ensures RoutedCalls(at, samples) == RouterCalls(ms, samples)
    decreases |samples|
  {
    if |samples| > 0 {
      var n := |samples| - 1;
      assert forall k :: 0 <= k < n ==> samples[..n][k] == samples[k];
      RoutedCallsUnedited(at, ms, samples[..n]);
      RouterCallsSnoc(ms, samples);
    }
  }

  /** After `save_channel_mapping(m)` the next sample's percentage for m's
      channel goes where m says, whatever was mapped there before. */
  lemma SaveRedirects(ms: seq<ChannelMapping>, m: ChannelMapping, pct: int)
    ensures ChannelCall(Saved(ms, m), m.channelId, pct) ==
      if m.isMaster then Some(MasterVolume(pct))
      else if m.processId.Some? then Some(AppVolume(m.processId.value, pct))
      else None
  {
    SavedFacts(ms, m, m.channelId);
  }

  /** After `clear_channel_mapping(id)` channel id no longer moves any volume. */
  lemma ClearSilences(ms: seq<ChannelMapping>, id: nat, pct: int)
    ensures ChannelCall(Retain(ms, id), id, pct) == None
  {
  }

  lemma CallsForSnoc(ms: seq<ChannelMapping>, pots: seq<int>, k: nat)
    requires k < |pots|
    ensures CallsFor(ms, pots[..k + 1]) == CallsFor(ms, pots[..k]) + OptionSeq(ChannelCall(ms, k + 1, pots[k]))
  {
    assert pots[..k + 1][..k] == pots[..k];
  }

  /** One sample: each of the three percentages goes to its channel's
      mapping; the backend's answers are ignored. */
  method RouteSample(backend: AudioBackend, ms: seq<ChannelMapping>, d: Types.PotentiometerData)
    modifies backend
    ensures backend.calls == old(backend.calls) + SampleCalls(ms, d)
  {
    var (pot1, pot2, pot3) := Types.ToPercentages(d);
    var potValues := [pot1, pot2, pot3];
    for idx := 0 to |potValues|
      invariant backend.calls == old(backend.calls) + CallsFor(ms, potValues[..idx])
    {
      var potValue := potValues[idx];
      CallsForSnoc(ms, potValues, idx);
      ghost var before := backend.calls;
      ghost var call := ChannelCall(ms, idx + 1, potValue);
      var mapping := FindMapping(ms, idx + 1);
      if mapping.Some? {
        if mapping.value.isMaster {
          var _ := backend.SetMasterVolume(potValue);
        } else if mapping.value.processId.Some? {
          var _ := backend.SetAppVolume(mapping.value.processId.value, potValue);
        } else {
          assert before + OptionSeq(call) == before;
        }
      } else {
        assert before + OptionSeq(call) == before;
      }
      assert backend.calls == before + OptionSeq(call);
      AppendAssoc(old(backend.calls), CallsFor(ms, potValues[..idx]), OptionSeq(call));
    }
    assert potValues[..|potValues|] == potValues;
  }

  // ---------------------------------------------------------------------
  // Application state and commands

  /** The shared `channel_mappings` of the application state. */
  class MappingStore {
    var mappings: seq<ChannelMapping>

    /** Startup: the saved mappings, or none when loading fails. */
    constructor(dirReady: bool, files: map<string, Entry<AppConfig>>)
      ensures mappings == match LoadChannelMappings(dirReady, files)
                          case Ok(ms) => ms
                          case Err(_) => []
    {
      var loaded := LoadChannelMappings(dirReady, files);
      mappings := if loaded.Ok? then loaded.value else [];
    }

    /** `save_channel_mapping`: replaces the mapping of the channel in
        memory, then persists all mappings. The in-memory change stays when
        persisting fails, and the error is returned. */
    method SaveChannelMapping(m: ChannelMapping, fs: FileStore<AppConfig>) returns (r: Outcome)
      modifies this, fs
      ensures mappings == Saved(old(mappings), m)
      ensures fs.dirReady == old(fs.dirReady) && fs.writable == old(fs.writable)
      ensures MappingsPersisted(old(fs.dirReady), old(fs.writable), old(fs.files), fs.files, mappings, r)
    {
      mappings := Retain(mappings, m.channelId);
      mappings := mappings + [m];
      r := SaveChannelMappings(fs, mappings);
    }

    /** `clear_channel_mapping`. */
    method ClearChannelMapping(id: nat, fs: FileStore<AppConfig>) returns (r: Outcome)
      modifies this, fs
      ensures mappings == Retain(old(mappings), id)
      ensures fs.dirReady == old(fs.dirReady) && fs.writable == old(fs.writable)
      ensures MappingsPersisted(old(fs.dirReady), old(fs.writable), old(fs.files), fs.files, mappings, r)
    {
      mappings := Retain(mappings, id);
      r := SaveChannelMappings(fs, mappings);
    }

    /** `get_channel_mappings`: a copy of the current mappings. */
    method GetChannelMappings() returns (r: seq<ChannelMapping>)
      ensures r == mappings
    {
      r := mappings;
    }

    /** `get_mixer_channels`: slots 1 to 8, in order. */
    method GetMixerChannels() returns (channels: seq<MixerChannel>)
      ensures |channels| == 8
      ensures forall k :: 0 <= k < 8 ==> channels[k] == SlotView(mappings, k + 1)
    {
      var ms := mappings;
      channels := [];
      for i := 1 to 9
        invariant |channels| == i - 1
        invariant forall k :: 0 <= k < i - 1 ==> channels[k] == SlotView(ms, k + 1)
      {
        var mapping := FindMapping(ms, i);
        channels := channels + [MixerChannel(
          i, 0, i <= 3,
          if mapping.Some? then mapping.value.processName else None,
          if mapping.Some? then mapping.value.processId else None)];
      }
    }
  }

  /** The router task: every sample is emitted as "pot-data" and routed
      with the copy of the shared mappings taken for it under the lock. The
      save and clear commands can change the mappings between two samples,
      so the model is given that copy sample by sample: `mappingsAt(k)` is
      what the `k`-th sample of this run sees. */
  method RunRouter(backend: AudioBackend, mappingsAt: nat -> seq<ChannelMapping>,
                   samples: seq<Types.PotentiometerData>)
      returns (emitted: seq<Types.PotentiometerData>)
    modifies backend
    ensures emitted == samples
    ensures backend.calls == old(backend.calls) + RoutedCalls(mappingsAt, samples)
  {
    emitted := [];
    var k := 0;
    while k < |samples|
      invariant 0 <= k <= |samples|
      invariant emitted == samples[..k]
      invariant backend.calls == old(backend.calls) + RoutedCalls(mappingsAt, samples[..k])
    {
      var data := samples[k];
      emitted := emitted + [data];
      var mappings := mappingsAt(k);
      RoutedCallsStep(old(backend.calls), mappingsAt, samples, k);
      RouteSample(backend, mappings, data);
      TakeSnoc(samples, k);
      k := k + 1;
    }
    assert samples[..k] == samples;
  }

  /** `connect_serial`: connects, and only when connected starts the
      reader and the router; the reader's samples are routed in order. */
  method ConnectSerial(manager: SerialManager, mappingsAt: nat -> seq<ChannelMapping>, backend: AudioBackend,
                       requested: Option<string>, enumeration: Result<seq<PortDescriptor>>,
                       open: string -> Result<PortHandle>, script: seq<ReaderStep>)
      returns (r: Result<Types.ConnectionStatus>, emitted: seq<Types.PotentiometerData>)
    modifies manager, backend
    ensures r.Ok? && manager.Valid()
    ensures r.value == ConnectStatus(requested, enumeration, open)
    ensures !r.value.connected ==>
      && emitted == [] && backend.calls == old(backend.calls)
      && manager.port.None? && manager.portName.None?
    ensures r.value.connected ==>
      && manager.port == PortAfter(Some(open(ChosenPort(requested, enumeration).value).value), script)
      && manager.portName == NameAfter(ChosenPort(requested, enumeration), script)
    ensures r.value.connected ==>
      && emitted == DecodeAll(SplitLines(Consumed(true, script)).0)
      && backend.calls == old(backend.calls) + RoutedCalls(mappingsAt, emitted)
  {
    r := manager.Connect(requested, enumeration, open);
    emitted := [];
    if r.value.connected {
      var sent, _ := manager.ReadLoop(script);
      emitted := RunRouter(backend, mappingsAt, sent);
    }
  }
}
