/** Playback against the written file of a tune: when both go at the same tempo. */
module TempoFile {
  import opened Wrappers
  import opened MidiEvents
  import opened NoteTracks
  import opened TempoMap
  import opened TempoOrder
  import opened Generator
  import opened Smf
  import opened SmfTicks
  import opened TuneFile
  import CA = ChannelAssignment

  /** The tempo that a reader of a track has at a tick: that of the last tempo event up to it. `at` is
      the tick of the event before the track's first. */
  function FileBpm(track: seq<(nat, SmfEvent)>, at: nat, bpm: int, tick: real): (r: int)
    requires bpm >= 1
    ensures r >= 1
  {
    if track == [] then bpm
    else
      var now, ev := at + track[0].0, track[0].1;
      var sets := ev.MetaEvent? && ev.kind == 0x51 && now as real <= tick;
      FileBpm(track[1..], now, if sets then ExtractBpm(ev.data, bpm) else bpm, tick)
  }

  lemma TempoView(ev: MidiEvent)
    ensures View(ev).MetaEvent? && View(ev).kind == 0x51 <==> ev.kind == MetaTempo
    ensures ev.kind == MetaTempo ==> View(ev).data == ev.meta
  {}

  lemma ScaledGrows(d: real, tpq: nat)
    requires tpq > 0 && d > 0.0
    ensures Scaled(d, tpq) > 0.0
  {}

  lemma ScaledOrder(a: real, b: real, tpq: nat)
    requires tpq > 0
    ensures Scaled(a, tpq) <= Scaled(b, tpq) <==> a <= b
  {
    hide Scaled;
    if a < b {
      ScaledSub(b, a, tpq);
      ScaledGrows(b - a, tpq);
    }
    if b < a {
      ScaledSub(a, b, tpq);
      ScaledGrows(a - b, tpq);
    }
  }

  lemma ExtractPositive(meta: seq<byte>, fallback: int)
    requires fallback >= 1
    ensures ExtractBpm(meta, fallback) >= 1
  {}

  lemma OnTicksTail(events: seq<MidiEvent>, last: real, tpq: nat)
    requires OnTicks(events, last, tpq) && events != []
    ensures Whole(Scaled(events[0].time, tpq)) && OnTicks(events[1..], events[0].time, tpq)
  {}

  /** With all times on whole ticks the reader of a written track has the tempo of the track's events. */
  lemma {:induction false} FileBpmIs(events: seq<MidiEvent>, last: real, at: nat, bpm: int, tpq: nat, x: real)
    requires bpm >= 1 && tpq > 0 && last >= 0.0 && InTime(events, last)
    ensures OnTicks(events, last, tpq) && Scaled(last, tpq) == at as real ==>
              FileBpm(TrackView(events, last, tpq), at, bpm, Scaled(x, tpq)) == BpmAt(events, bpm, x)
    decreases |events|
  {
    hide Scaled, Delta, View, ExtractBpm;
    if events != [] && OnTicks(events, last, tpq) && Scaled(last, tpq) == at as real {
      var ev, rest := events[0], events[1..];
      InTimeTail(events, last);
      OnTicksTail(events, last, tpq);
      WholeDelta(ev.time, last, tpq);
      TempoView(ev);
      ExtractPositive(ev.meta, bpm);
      ScaledOrder(ev.time, x, tpq);
      var now := at + Delta(ev.time, last, tpq);
      assert now as real == Scaled(ev.time, tpq);
      var bpm1 := if ev.kind == MetaTempo && Beat(ev) <= x then ExtractBpm(ev.meta, bpm) else bpm;
      assert TrackView(events, last, tpq)[1..] == TrackView(rest, ev.time, tpq);
      FileBpmIs(rest, ev.time, now, bpm1, tpq, x);
    }
  }

  /** Between any two beats without a tempo change inside, playback advances at the tempo that the
      reader of the written tempo track has at the first. */
  ghost predicate PlaysAsWritten(evs: seq<MidiEvent>, bpm: int, track: seq<(nat, SmfEvent)>, tpq: nat)
    requires bpm >= 1
  {
    var s := Build(evs, bpm, 0.0, 0.0);
    && s != []
    && forall x: real, y: real | 0.0 <= x <= y && Steady(evs, x, y) ::
         ValueAt(s, y) - ValueAt(s, x) == Fixed(FileBpm(track, 0, bpm, Scaled(x, tpq)), x, y)
  }

  /** No event before the beginning. */
  ghost predicate FromZero(evs: seq<MidiEvent>) { forall k | 0 <= k < |evs| :: evs[k].time >= 0.0 }

  lemma ReaderTempo(evs: seq<MidiEvent>, bpm: int, tpq: nat, x: real)
    requires bpm >= 1 && tpq > 0 && FromZero(evs) && OnTicks(SortTrack(evs), 0.0, tpq)
    ensures FileBpm(TrackView(SortTrack(evs), 0.0, tpq), 0, bpm, Scaled(x, tpq)) == InForce(evs, bpm, x)
  {
    hide SortTrack;
    SortedInTime(evs);
    assert Scaled(0.0, tpq) == 0.0;
    FileBpmIs(SortTrack(evs), 0.0, 0, bpm, tpq, x);
  }

  /** The reader of a written track and playback go at the same tempo if and only if the map is the
      integral of the tempo in force. */
  lemma WrittenIff(evs: seq<MidiEvent>, bpm: int, tpq: nat)
    requires bpm >= 1 && tpq > 0 && FromZero(evs) && OnTicks(SortTrack(evs), 0.0, tpq)
    ensures PlaysAsWritten(evs, bpm, TrackView(SortTrack(evs), 0.0, tpq), tpq) <==> AgreeAtChanges(evs, bpm)
  {
    hide SortTrack, TrackView, FileBpm, InForce, Build, ValueAt, Scaled, AgreeAtChanges, OnTicks, FromZero;
    forall x: real
      ensures FileBpm(TrackView(SortTrack(evs), 0.0, tpq), 0, bpm, Scaled(x, tpq)) == InForce(evs, bpm, x)
    {
      ReaderTempo(evs, bpm, tpq, x);
    }
    IntegralIff(evs, bpm);
  }

  /** The tempo track in the written file of a tune goes at the tempo of its playback, at every beat, if and
      only if, at the start and at every change, the list with late changes moved up gives the tempo in
      force. */
  lemma PlaybackIsFileIff(tune: Tune, vs: seq<CA.Voice>, tracks: seq<seq<MidiEvent>>, tpq: nat)
    requires VoicesOf(tune, vs) && Generated(tracks, tune, vs) && KnownVoices(tune) && MidiBytes(tune)
    requires forall i | 0 <= i < |vs| :: Forward(OfVoice(tune.features, vs[i].id))
    requires tpq > 0
    ensures SizesFit(tracks, tpq) && FromZero(TempoTrack(tune)) && OnTicks(SortTrack(TempoTrack(tune)), 0.0, tpq) ==>
              var file := DecodeFile(FileBytes(tracks, tpq));
              && file.Some? && file.value.tracks != []
              && (PlaysAsWritten(tracks[0], StartBpm(tune), file.value.tracks[0], tpq)
                  <==> AgreeAtChanges(TempoTrack(tune), StartBpm(tune)))
  {
    hide *;
    if SizesFit(tracks, tpq) && FromZero(TempoTrack(tune)) && OnTicks(SortTrack(TempoTrack(tune)), 0.0, tpq) {
      TuneRoundTrip(tune, vs, tracks, tpq);
      TempoTrackFirst(tune, vs, tracks, tpq);
      WrittenIff(TempoTrack(tune), StartBpm(tune), tpq);
    }
  }

  lemma TempoTrackFirst(tune: Tune, vs: seq<CA.Voice>, tracks: seq<seq<MidiEvent>>, tpq: nat)
    requires VoicesOf(tune, vs) && Generated(tracks, tune, vs)
    ensures tracks != [] && tracks[0] == TempoTrack(tune)
    ensures TrackViews(tracks, tpq) != [] && TrackViews(tracks, tpq)[0] == TrackView(SortTrack(tracks[0]), 0.0, tpq)
  {
    hide TempoTrack, SortTrack, TrackView;
  }
}
