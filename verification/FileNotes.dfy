/** What a reader of the file of a tune finds in it: every note, instrument, key and time signature, at its tick. */
module FileNotes {
  import opened Wrappers
  import opened Sorting
  import opened MidiEvents
  import opened NoteTracks
  import opened TempoMap
  import opened Generator
  import opened Smf
  import opened SmfTicks
  import opened TuneFile
  import Schedule
  import CA = ChannelAssignment
  import Channels

  /** The tick at which a reader has the event `j` of a track. */
  function TickOf(track: seq<(nat, SmfEvent)>, j: nat): nat
    requires j < |track|
  {
    track[0].0 + if j == 0 then 0 else TickOf(track[1..], j - 1)
  }

  lemma {:induction false} ViewAt(events: seq<MidiEvent>, last: real, tpq: nat, j: nat)
    requires j < |events|
    ensures var track := TrackView(events, last, tpq);
            && |track| == |events| && track[j].1 == View(events[j])
            && TickOf(track, j) == Ticks(events[..j + 1], last, tpq)
    decreases |events|
  {
    hide View, Delta;
    var track, rest := TrackView(events, last, tpq), TrackView(events[1..], events[0].time, tpq);
    assert track[1..] == rest;
    assert events[..j + 1][0] == events[0] && events[..j + 1][1..] == events[1..][..j];
    if |events| > 1 { ViewAt(events[1..], events[0].time, tpq, if j == 0 then 0 else j - 1); }
    if j == 0 { assert Ticks([], events[0].time, tpq) == 0; }
  }

  lemma InTimePrefix(events: seq<MidiEvent>, last: real, n: nat)
    requires InTime(events, last) && n <= |events|
    ensures InTime(events[..n], last)
  {
    forall k | 0 <= k < n ensures Prev(events[..n], last, k) <= events[..n][k].time {
      assert Prev(events, last, k) <= events[k].time;
    }
  }

  lemma {:induction false} TrackViewsAt(tracks: seq<seq<MidiEvent>>, tpq: nat, t: nat)
    requires t < |tracks|
    ensures |TrackViews(tracks, tpq)| == |tracks|
    ensures TrackViews(tracks, tpq)[t] == TrackView(SortTrack(tracks[t]), 0.0, tpq)
    decreases |tracks|
  {
    hide TrackView, SortTrack;
    if |tracks| > 1 { TrackViewsAt(tracks[1..], tpq, if t == 0 then 0 else t - 1); }
    if t == 0 && |tracks| == 1 { assert TrackViews([], tpq) == []; }
  }

  /** An event of a track stands in the track that is read back, at its time in ticks or less than one tick for
      every event up to it before. */
  ghost predicate ReadBack(track: seq<(nat, SmfEvent)>, j: nat, ev: SmfEvent, beat: real, tpq: nat) {
    && j < |track| && track[j].1 == ev
    && 0.0 <= Scaled(beat, tpq) - TickOf(track, j) as real < (j + 1) as real
  }

  lemma EventRead(events: seq<MidiEvent>, tpq: nat, ev: MidiEvent) returns (j: nat)
    requires ev in events && forall k | 0 <= k < |events| :: events[k].time >= 0.0
    ensures ReadBack(TrackView(SortTrack(events), 0.0, tpq), j, View(ev), ev.time, tpq)
  {
    hide SortTrack;
    j := SortedMember(events, ev);
    SortedInTime(events);
    SortedRead(SortTrack(events), tpq, j);
  }

  lemma SortedRead(s: seq<MidiEvent>, tpq: nat, j: nat)
    requires j < |s| && InTime(s, 0.0)
    ensures ReadBack(TrackView(s, 0.0, tpq), j, View(s[j]), s[j].time, tpq)
  {
    hide View, Ticks, TrackView, Delta, TickOf, InTime;
    InTimePrefix(s, 0.0, j + 1);
    ViewAt(s, 0.0, tpq, j);
    TicksLag(s[..j + 1], 0.0, tpq);
    assert s[..j + 1][j] == s[j];
    assert Scaled(0.0, tpq) == 0.0;
  }

  // ---------------------------------------------------------------- the tracks of a tune

  lemma NotBefore(events: seq<MidiEvent>, program: MidiEvent, fs: seq<Feature>, denom: nat, channel: int)
    requires NoteTrack(events, program, fs, denom, channel) && Forward(fs)
    ensures forall k | 0 <= k < |events| :: events[k].time >= 0.0
  {
    hide Ons, ExpectedOffs, MaxEnd, Beats;
    var body := events[..|events| - 1];
    MaxEndIs(fs, denom);
    forall k | 0 <= k < |events| ensures events[k].time >= 0.0 {
      if k < |body| {
        assert events[k] == body[k];
        BodyNotBefore(events, program, fs, denom, channel, body[k]);
      }
    }
  }

  lemma BodyNotBefore(events: seq<MidiEvent>, program: MidiEvent, fs: seq<Feature>, denom: nat, channel: int,
          ev: MidiEvent)
    requires NoteTrack(events, program, fs, denom, channel) && Forward(fs) && ev in events[..|events| - 1]
    ensures ev.time >= 0.0
  {
    hide Ons, ExpectedOffs, MaxEnd, Beats;
    assert ev in multiset(events[..|events| - 1]);
    OnsMembers(fs, denom, channel, ev);
    OffsMembers(fs, denom, channel, ev);
    if ev in Ons(fs, denom, channel) {
      var k :| 0 <= k < |fs| && ev in OnsOf(fs[k], denom, channel);
      BeatsMono(fs[k].ts, fs[k].ts, denom);
    } else if ev in ExpectedOffs(fs, denom, channel) {
      var k :| 0 <= k < |fs| && ev in Offs(ActivesOf(fs[k], denom, channel));
      BeatsMono(fs[k].ts, fs[k].ts, denom);
      BeatsMono(fs[k].ts, fs[k].data.dur, denom);
    }
  }

  /** What a reader of the file of a tune has for its tracks. */
  function ReadTracks(tracks: seq<seq<MidiEvent>>, tpq: nat): seq<seq<(nat, SmfEvent)>> {
    match DecodeFile(FileBytes(tracks, tpq))
    case Some(file) => file.tracks
    case None => []
  }

  /** The tune, its tracks and its file. */
  ghost predicate Written(tune: Tune, vs: seq<CA.Voice>, tracks: seq<seq<MidiEvent>>, tpq: nat) {
    && VoicesOf(tune, vs) && Generated(tracks, tune, vs) && KnownVoices(tune) && MidiBytes(tune)
    && (forall k | 0 <= k < |tune.features| ::
          tune.features[k].ts >= 0.0 && (Sounding(tune.features[k].data) ==> tune.features[k].data.dur >= 0.0))
    && SizesFit(tracks, tpq)
  }

  lemma VoicesForward(tune: Tune, vs: seq<CA.Voice>, i: nat)
    requires i < |vs|
    requires forall k | 0 <= k < |tune.features| ::
               tune.features[k].ts >= 0.0 && (Sounding(tune.features[k].data) ==> tune.features[k].data.dur >= 0.0)
    ensures Forward(OfVoice(tune.features, vs[i].id))
  {
    var own := OfVoice(tune.features, vs[i].id);
    forall k | 0 <= k < |own| && Sounding(own[k].data) ensures own[k].ts >= 0.0 && own[k].data.dur >= 0.0 {
      OfVoiceOnly(tune.features, vs[i].id, own[k]);
      assert own[k] in tune.features;
    }
  }

  /** Every event of every track is read back. */
  lemma TrackEventRead(tune: Tune, vs: seq<CA.Voice>, tracks: seq<seq<MidiEvent>>, tpq: nat, t: nat, ev: MidiEvent)
    returns (j: nat)
    requires Written(tune, vs, tracks, tpq) && t < |tracks| && ev in tracks[t]
    ensures t < |ReadTracks(tracks, tpq)| && ReadBack(ReadTracks(tracks, tpq)[t], j, View(ev), ev.time, tpq)
  {
    hide FileBytes, DecodeFile, SortTrack, View, TrackView, TrackViews, ReadBack, NoteTrack, TempoTrack, OfVoice;
    hide SizesFit, KnownVoices, MidiBytes, Forward;
    forall i | 0 <= i < |vs| ensures Forward(OfVoice(tune.features, vs[i].id)) { VoicesForward(tune, vs, i); }
    TuneRoundTrip(tune, vs, tracks, tpq);
    TrackViewsAt(tracks, tpq, t);
    if t == 0 {
      TempoNotBefore(tune);
    } else {
      assert VoiceTrack(tracks[t], tune, vs, t - 1);
      var v, ch := tune.voices[vs[t - 1].id], ChannelsOf(vs)[t - 1];
      NotBefore(tracks[t], Program(v, ch), OfVoice(tune.features, vs[t - 1].id), v.denom, ch);
    }
    j := EventRead(tracks[t], tpq, ev);
  }

  lemma TempoNotBefore(tune: Tune)
    requires forall k | 0 <= k < |tune.features| :: tune.features[k].ts >= 0.0
    ensures forall k | 0 <= k < |TempoTrack(tune)| :: TempoTrack(tune)[k].time >= 0.0
  {
    hide TempoMeta, DenomPower, Changes, MaxFinish;
    ChangesMembers(tune.features, tune);
    MaxFinishIs(tune.features, tune);
    var events, preface, changes := TempoTrack(tune), Preface(tune), Changes(tune.features, tune);
    forall k | 0 <= k < |events| ensures events[k].time >= 0.0 {
      if k < |preface| {
        assert events[k] == preface[k];
      } else if k < |events| - 1 {
        assert events[k] == changes[k - |preface|] && events[k] in changes;
        var g :| 0 <= g < |tune.features| && !Lasting(tune.features[g].data)
            && events[k].time == StartBeats(tune.features[g], tune);
        StartNotBefore(tune.features[g], tune);
      }
    }
  }

  lemma StartNotBefore(f: Feature, tune: Tune)
    requires f.ts >= 0.0
    ensures StartBeats(f, tune) >= 0.0
  {
    BeatsMono(f.ts, f.ts, if f.voice in tune.voices then tune.voices[f.voice].denom else tune.den);
  }

  // ---------------------------------------------------------------- what is read

  /** Every note of the tune is in the file: note-on (message 9) with its pitch and velocity at its onset, and
      note-off (message 8) with the same pitch at its end, both on the channel of its voice. */
  lemma NoteRead(tune: Tune, vs: seq<CA.Voice>, tracks: seq<seq<MidiEvent>>, tpq: nat, i: nat, g: nat, n: nat,
          pitch: byte, velocity: byte) returns (j: nat, k: nat)
    requires Written(tune, vs, tracks, tpq) && IsNote(tune, vs, i, g, n, pitch, velocity)
    ensures var ch, read := ChannelsOf(vs)[i], ReadTracks(tracks, tpq);
            && 1 + i < |read| && 0 <= ch < 16
            && ReadBack(read[1 + i], j, ChannelEvent(9, ch, [pitch, velocity]), Onset(tune, g), tpq)
            && ReadBack(read[1 + i], k, ChannelEvent(8, ch, [pitch, 0]), End(tune, g), tpq)
  {
    hide ReadBack, ReadTracks, NoteTrack, TempoTrack, SizesFit, ChannelsOf, Onset, End;
    var ch := ChannelsOf(vs)[i];
    ChannelsInBounds(vs, i);
    NoteInTrack(tune, vs, tracks[1 + i], i, g, n, pitch, velocity);
    j := TrackEventRead(tune, vs, tracks, tpq, 1 + i, MidiEvent(NoteOn, Onset(tune, g), ch, pitch, velocity, []));
    k := TrackEventRead(tune, vs, tracks, tpq, 1 + i, MidiEvent(NoteOff, End(tune, g), ch, pitch, 0, []));
  }

  /** So is the instrument of every voice: program change (message 12) at the beginning. */
  lemma ProgramRead(tune: Tune, vs: seq<CA.Voice>, tracks: seq<seq<MidiEvent>>, tpq: nat, i: nat) returns (j: nat)
    requires Written(tune, vs, tracks, tpq) && i < |vs|
    ensures var ch, read := ChannelsOf(vs)[i], ReadTracks(tracks, tpq);
            && 1 + i < |read| && 0 <= ch < 16
            && ReadBack(read[1 + i], j, ChannelEvent(12, ch, [tune.voices[vs[i].id].instrument]), 0.0, tpq)
  {
    hide ReadBack, ReadTracks, NoteTrack, TempoTrack, SizesFit, ChannelsOf;
    var ch, v := ChannelsOf(vs)[i], tune.voices[vs[i].id];
    ChannelsInBounds(vs, i);
    ProgramInTrack(tune, vs, tracks[1 + i], i);
    j := TrackEventRead(tune, vs, tracks, tpq, 1 + i, MidiEvent(ProgramChange, 0.0, ch, v.instrument, 0, []));
  }

  // ---------------------------------------------------------------- keys, time signatures and tempos

  /** A key signature as a reader has it: sharps in two's complement, flats negative, and the mode. */
  predicate ReadsKey(ev: SmfEvent, sharps: int, major: bool) {
    && ev.MetaEvent? && ev.kind == 0x59 && |ev.data| == 2
    && (if ev.data[0] < 0x80 then ev.data[0] as int else ev.data[0] as int - 0x100) == sharps
    && ev.data[1] == if major then 0 else 1
  }

  /** A time signature: the denominator is a power of two, the greatest up to the one of the tune; 24 clocks a
      metronome click, and 8 thirty-second notes a quarter note. */
  predicate ReadsTime(ev: SmfEvent, num: byte, den: byte) {
    && ev.MetaEvent? && ev.kind == 0x58 && |ev.data| == 4
    && ev.data[0] == num && ev.data[2] == 24 && ev.data[3] == 8
    && Pow2(ev.data[1]) <= (if den == 0 then 1 else den) < 2 * Pow2(ev.data[1])
  }

  /** A tempo in microseconds a quarter note, of which the low 24 bits are written. */
  predicate ReadsTempo(ev: SmfEvent, bpm: int) {
    && ev.MetaEvent? && ev.kind == 0x51 && |ev.data| == 3
    && ev.data[0] as int * 0x1_0000 + ev.data[1] as int * 0x100 + ev.data[2] as int
       == 60_000_000 / (if bpm < 1 then 1 else bpm) % 0x100_0000
  }

  lemma KeyMeta(sharps: int, major: bool, time: real)
    requires -128 <= sharps < 128
    ensures ReadsKey(View(KeyEvent(sharps, major, time)), sharps, major)
  {}

  lemma TimeMeta(num: byte, den: byte, time: real)
    ensures ReadsTime(View(TimeSigEvent(num, den, time)), num, den)
  {
    assert Pow2(DenomPower(den) + 1) == 2 * Pow2(DenomPower(den));
  }

  lemma TempoMetaRead(bpm: int, time: real)
    ensures ReadsTempo(View(TempoEvent(bpm, time)), bpm)
  {
    ThreeBytes(Mpq(bpm));
  }

  /** What the tempo track says at a change or, at the start, for the whole tune. */
  predicate ReadsChange(ev: SmfEvent, d: FeatureData) {
    match d
    case Tempo(bpm) => ReadsTempo(ev, bpm)
    case Time(num, den) => ReadsTime(ev, num, den)
    case Key(sharps, major) => ReadsKey(ev, sharps, major)
    case _ => false
  }

  lemma {:induction false} ChangeInTrack(fs: seq<Feature>, tune: Tune, g: nat, ev: MidiEvent)
    requires g < |fs| && ev in ChangeOf(fs[g], tune)
    ensures ev in Changes(fs, tune)
  {
    var n := |fs| - 1;
    if g < n { ChangeInTrack(fs[..n], tune, g, ev); }
  }

  /** Where a feature stands, in beats of its voice, or of the tune if its voice is unknown. */
  function BeatOf(f: Feature, tune: Tune): real {
    f.ts * (if f.voice in tune.voices then tune.voices[f.voice].denom else tune.den) as real
  }

  lemma ChangeEvent(f: Feature, tune: Tune) returns (ev: MidiEvent)
    requires f.data.Tempo? || f.data.Time? || (f.data.Key? && -128 <= f.data.sharps < 128)
    ensures ev in ChangeOf(f, tune) && ReadsChange(View(ev), f.data)
    ensures ev.time == BeatOf(f, tune)
  {
    hide ReadsTempo, ReadsTime, ReadsKey, View, TempoMeta, DenomPower, BeatOf, StartBeats;
    var ts := StartBeats(f, tune);
    StartIs(f, tune);
    match f.data
    case Tempo(bpm) =>
      ev := TempoEvent(bpm, ts);
      TempoMetaRead(bpm, ts);
    case Time(num, den) =>
      ev := TimeSigEvent(num, den, ts);
      TimeMeta(num, den, ts);
    case Key(sharps, major) =>
      ev := KeyEvent(sharps, major, ts);
      KeyMeta(sharps, major, ts);
  }

  lemma StartIs(f: Feature, tune: Tune)
    ensures StartBeats(f, tune) == BeatOf(f, tune)
  {}

  /** Every change of tempo, time or key is in the tempo track of the file, at its beat. */
  lemma ChangeRead(tune: Tune, vs: seq<CA.Voice>, tracks: seq<seq<MidiEvent>>, tpq: nat, g: nat)
    returns (j: nat, ev: SmfEvent)
    requires Written(tune, vs, tracks, tpq) && g < |tune.features|
    requires var d := tune.features[g].data; d.Tempo? || d.Time? || (d.Key? && -128 <= d.sharps < 128)
    ensures ReadTracks(tracks, tpq) != [] && ReadsChange(ev, tune.features[g].data)
    ensures ReadBack(ReadTracks(tracks, tpq)[0], j, ev, BeatOf(tune.features[g], tune), tpq)
  {
    hide ReadBack, ReadTracks, NoteTrack, Preface, Changes, ChangeOf, SizesFit, ReadsChange, View, BeatOf;
    var x := ChangeEvent(tune.features[g], tune);
    ChangeInTrack(tune.features, tune, g, x);
    assert x in TempoTrack(tune);
    j := TrackEventRead(tune, vs, tracks, tpq, 0, x);
    ev := View(x);
  }

  /** The tune's own tempo, time and key stand there at the beginning. */
  lemma DefaultsRead(tune: Tune, vs: seq<CA.Voice>, tracks: seq<seq<MidiEvent>>, tpq: nat, d: FeatureData)
    returns (j: nat, ev: SmfEvent)
    requires Written(tune, vs, tracks, tpq) && -128 <= tune.sharps < 128
    requires d == Tempo(tune.bpm) || d == Time(tune.num, tune.den) || d == Key(tune.sharps, tune.major)
    ensures ReadTracks(tracks, tpq) != [] && ReadsChange(ev, d) && ReadBack(ReadTracks(tracks, tpq)[0], j, ev, 0.0, tpq)
  {
    hide ReadBack, ReadTracks, NoteTrack, Changes, SizesFit, View, ReadsTempo, ReadsTime, ReadsKey;
    hide TempoMeta, DenomPower;
    TempoMetaRead(tune.bpm, 0.0);
    TimeMeta(tune.num, tune.den, 0.0);
    KeyMeta(tune.sharps, tune.major, 0.0);
    var x := match d case Tempo(bpm) => TempoEvent(bpm, 0.0) case Time(num, den) => TimeSigEvent(num, den, 0.0)
                     case _ => KeyEvent(tune.sharps, tune.major, 0.0);
    assert x in Preface(tune);
    assert x in TempoTrack(tune);
    j := TrackEventRead(tune, vs, tracks, tpq, 0, x);
    ev := View(x);
  }

  /** So does its title, as text. */
  lemma TitleRead(tune: Tune, vs: seq<CA.Voice>, tracks: seq<seq<MidiEvent>>, tpq: nat) returns (j: nat)
    requires Written(tune, vs, tracks, tpq) && tune.title != []
    ensures ReadTracks(tracks, tpq) != []
    ensures ReadBack(ReadTracks(tracks, tpq)[0], j, MetaEvent(0x01, tune.title), 0.0, tpq)
  {
    hide ReadBack, ReadTracks, NoteTrack, Changes, SizesFit, TempoMeta, DenomPower;
    var x := Preface(tune)[3];
    assert x.kind == MetaText && x.time == 0.0 && x.meta == tune.title && x in Preface(tune);
    assert x in TempoTrack(tune);
    j := TrackEventRead(tune, vs, tracks, tpq, 0, x);
  }

  /** Where a feature ends: one with a duration of a known voice, chord names included, when it is over, and any
      other where it stands. */
  function OverAt(f: Feature, tune: Tune): real {
    if (f.data.Note? || f.data.Rest? || f.data.Chord? || f.data.GChord?) && f.voice in tune.voices
        then (f.ts + f.data.dur) * tune.voices[f.voice].denom as real
    else BeatOf(f, tune)
  }

  lemma FinishIs(f: Feature, tune: Tune)
    ensures FinishBeats(f, tune) == OverAt(f, tune)
  {
    if Lasting(f.data) && f.voice in tune.voices {
      var d := tune.voices[f.voice].denom as real;
      assert (f.ts + f.data.dur) * d == f.ts * d + f.data.dur * d;
    }
  }

  /** The tempo track ends when the last feature of the tune is over, and not before the beginning. */
  lemma TempoTrackOver(tune: Tune)
    ensures var events := TempoTrack(tune); var end := events[|events| - 1].time;
            && end >= 0.0 && (forall k | 0 <= k < |tune.features| :: OverAt(tune.features[k], tune) <= end)
            && (end == 0.0 || exists k :: 0 <= k < |tune.features| && OverAt(tune.features[k], tune) == end)
  {
    hide Preface, Changes, FinishBeats, OverAt;
    MaxFinishIs(tune.features, tune);
    forall k | 0 <= k < |tune.features| ensures FinishBeats(tune.features[k], tune) == OverAt(tune.features[k], tune) {
      FinishIs(tune.features[k], tune);
    }
  }

  // ---------------------------------------------------------------- the file and the asset

  /** Playback sends what the file says: the status byte and the data bytes of a channel message are those that are
      written, and no other event is sent. */
  lemma SameMessage(ev: MidiEvent, segments: seq<TempoMap.Segment>)
    requires segments != [] && 0 <= ev.channel < 16
    ensures var m := Schedule.Message(ev, segments);
            if View(ev).MetaEvent? then m == []
            else |m| == 1 && m[0].ev.channel == View(ev).channel && m[0].ev.status == View(ev).status * 16
                 && EventBytes(ev)[..2] == [m[0].ev.status + m[0].ev.channel, m[0].ev.data1]
                 && (|EventBytes(ev)| > 2 ==> EventBytes(ev)[2..] == [m[0].ev.data2])
  {}
}
