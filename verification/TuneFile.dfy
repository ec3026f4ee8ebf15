/** From a tune to the bytes of a file and back: the events that a reader of the file sees. */
module TuneFile {
  import opened Wrappers
  import opened MidiEvents
  import opened NoteTracks
  import opened TempoMap
  import opened Generator
  import opened Smf
  import opened SmfTicks
  import CA = ChannelAssignment

  /** Pitches, velocities and instruments as the parser leaves them. */
  ghost predicate MidiBytes(tune: Tune) {
    && (forall id | id in tune.voices :: tune.voices[id].instrument < 0x80)
    && (forall f, x | f in tune.features && x in NotesOf(f.data) :: x.0 < 0x80 && x.1 < 0x80)
  }

  ghost predicate SoftNotes(fs: seq<Feature>) {
    forall k, x | 0 <= k < |fs| && x in NotesOf(fs[k].data) :: x.0 < 0x80 && x.1 < 0x80
  }

  lemma {:induction false} OfVoiceSoft(tune: Tune, features: seq<Feature>, id: int)
    requires MidiBytes(tune) && forall f | f in features :: f in tune.features
    ensures SoftNotes(OfVoice(features, id))
    decreases |features|
  {
    if features != [] {
      var n := |features| - 1;
      OfVoiceSoft(tune, features[..n], id);
      assert features[n] in tune.features;
    }
  }

  /** The events of a note track have data bytes below 128. */
  lemma NoteTrackData(track: seq<MidiEvent>, program: MidiEvent, fs: seq<Feature>, denom: nat, channel: int)
    requires NoteTrack(track, program, fs, denom, channel) && SoftNotes(fs) && program.data1 < 0x80
    ensures AllDataOk(track)
  {
    forall k | 0 <= k < |track| ensures DataOk(track[k]) {
      if k < |track| - 1 { NoteEventData(track, program, fs, denom, channel, track[..|track| - 1][k]); }
    }
  }

  lemma NoteEventData(track: seq<MidiEvent>, program: MidiEvent, fs: seq<Feature>, denom: nat, channel: int,
          ev: MidiEvent)
    requires NoteTrack(track, program, fs, denom, channel) && SoftNotes(fs) && program.data1 < 0x80
    requires ev in track[..|track| - 1]
    ensures DataOk(ev)
  {
    hide Ons, ExpectedOffs, MaxEnd, Beats;
    OnsMembers(fs, denom, channel, ev);
    OffsMembers(fs, denom, channel, ev);
    assert ev in multiset(track[..|track| - 1]);
    if ev in Ons(fs, denom, channel) {
      var k :| 0 <= k < |fs| && ev in OnsOf(fs[k], denom, channel);
      var n :| 0 <= n < |NotesOf(fs[k].data)| && ev == OnsOf(fs[k], denom, channel)[n];
      assert NotesOf(fs[k].data)[n] in NotesOf(fs[k].data);
    } else if ev in ExpectedOffs(fs, denom, channel) {
      var k :| 0 <= k < |fs| && ev in Offs(ActivesOf(fs[k], denom, channel));
      var n :| 0 <= n < |ActivesOf(fs[k], denom, channel)| && ev == Offs(ActivesOf(fs[k], denom, channel))[n];
      assert NotesOf(fs[k].data)[n] in NotesOf(fs[k].data);
    } else {
      assert ev == program;
    }
  }

  lemma {:induction false} ChangesMeta(fs: seq<Feature>, tune: Tune)
    ensures forall ev | ev in Changes(fs, tune) :: IsMeta(ev.kind)
    decreases |fs|
  {
    if fs != [] {
      ChangesMeta(fs[..|fs| - 1], tune);
      assert forall ev | ev in ChangeOf(fs[|fs| - 1], tune) :: IsMeta(ev.kind);
    }
  }

  lemma TempoTrackData(tune: Tune)
    ensures AllDataOk(TempoTrack(tune))
  {
    hide TempoMeta;
    ChangesMeta(tune.features, tune);
    var events, preface, changes := TempoTrack(tune), Preface(tune), Changes(tune.features, tune);
    forall k | 0 <= k < |events| ensures DataOk(events[k]) {
      if k < |preface| { assert events[k] == preface[k]; }
      else if k < |events| - 1 { assert events[k] == changes[k - |preface|] && events[k] in changes; }
    }
  }

  /** Every track of a generated tune is one that a reader accepts. */
  lemma GeneratedGood(tune: Tune, vs: seq<CA.Voice>, tracks: seq<seq<MidiEvent>>)
    requires VoicesOf(tune, vs) && Generated(tracks, tune, vs) && KnownVoices(tune) && MidiBytes(tune)
    requires forall i | 0 <= i < |vs| :: Forward(OfVoice(tune.features, vs[i].id))
    ensures AllGood(tracks)
  {
    hide MidiBytes, NoteTrack, TempoTrack, KnownVoices, Forward, WellEnded, AllDataOk, SortTrack;
    forall t | 0 <= t < |tracks| ensures WellEnded(SortTrack(tracks[t])) && AllDataOk(SortTrack(tracks[t])) {
      SortedData(tracks[t]);
      if t == 0 {
        TempoTrackData(tune);
        TempoWellEnded(tune);
      } else {
        assert VoiceTrack(tracks[t], tune, vs, t - 1);
        VoiceGood(tracks[t], tune, vs, t - 1);
      }
    }
  }

  lemma TempoWellEnded(tune: Tune)
    requires KnownVoices(tune)
    ensures WellEnded(SortTrack(TempoTrack(tune)))
  {
    TempoTrackEnds(tune);
  }

  lemma VoiceGood(track: seq<MidiEvent>, tune: Tune, vs: seq<CA.Voice>, i: nat)
    requires VoicesOf(tune, vs) && i < |vs| && VoiceTrack(track, tune, vs, i) && MidiBytes(tune)
    requires Forward(OfVoice(tune.features, vs[i].id))
    ensures AllDataOk(track) && WellEnded(SortTrack(track))
  {
    hide SortTrack, OfVoice, DataOk;
    var v, ch, fs := tune.voices[vs[i].id], ChannelsOf(vs)[i], OfVoice(tune.features, vs[i].id);
    OfVoiceSoft(tune, tune.features, vs[i].id);
    NoteTrackData(track, Program(v, ch), fs, v.denom, ch);
    NoteTrackEnds(track, Program(v, ch), fs, v.denom, ch);
  }

  /** The file written for a tune is read back as its tempo track and the track of every voice, each in
      written order with its ticks. */
  lemma {:induction false} TuneRoundTrip(tune: Tune, vs: seq<CA.Voice>, tracks: seq<seq<MidiEvent>>, tpq: nat)
    requires VoicesOf(tune, vs) && Generated(tracks, tune, vs) && KnownVoices(tune) && MidiBytes(tune)
    requires forall i | 0 <= i < |vs| :: Forward(OfVoice(tune.features, vs[i].id))
    ensures SizesFit(tracks, tpq) ==>
              DecodeFile(FileBytes(tracks, tpq)) == Some(SmfFile(1, 1 + |vs|, PerQuarter(tpq), TrackViews(tracks, tpq)))
  {
    hide *;
    GeneratedGood(tune, vs, tracks);
    GeneratedCount(tune, vs, tracks);
    if SizesFit(tracks, tpq) { FittingRoundTrip(tracks, tpq); }
  }

  /** The track count, the division, the deltas, the payloads and the track lengths fit their fields. */
  ghost predicate SizesFit(tracks: seq<seq<MidiEvent>>, tpq: nat) {
    |tracks| < 0x1_0000 && tpq < 0x8000 && AllEncodable(tracks, tpq) && AllShort(tracks, tpq)
  }

  lemma {:induction false} FittingRoundTrip(tracks: seq<seq<MidiEvent>>, tpq: nat)
    requires SizesFit(tracks, tpq) && AllGood(tracks)
    ensures DecodeFile(FileBytes(tracks, tpq)) == Some(SmfFile(1, |tracks|, PerQuarter(tpq), TrackViews(tracks, tpq)))
  {
    hide AllGood, AllEncodable, AllShort;
    FileRoundTrip(tracks, tpq);
  }

  lemma GeneratedCount(tune: Tune, vs: seq<CA.Voice>, tracks: seq<seq<MidiEvent>>)
    requires VoicesOf(tune, vs) && Generated(tracks, tune, vs)
    ensures |tracks| == 1 + |vs|
  {}

  /** In the file, too, the ticks written for a track never run ahead of real time and lag by less than
      one tick an event. */
  lemma WrittenOnTime(events: seq<MidiEvent>, tpq: nat)
    requires events != [] && forall k | 0 <= k < |events| :: events[k].time >= 0.0
    ensures var s := SortTrack(events);
            s != [] && 0.0 <= Scaled(s[|s| - 1].time, tpq) - Ticks(s, 0.0, tpq) as real < |events| as real
  {
    hide SortTrack, Ticks;
    SortedInTime(events);
    TicksLag(SortTrack(events), 0.0, tpq);
  }
}
