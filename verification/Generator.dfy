/** A whole tune: its tracks, and what of it the compiled asset plays. */
module Generator {
  import opened Sorting
  import opened MidiEvents
  import opened NoteTracks
  import opened TempoMap
  import opened Schedule
  import CA = ChannelAssignment
  import Channels
  import MidiTable

  /** `vs` lists the voices of the tune, each once, with the channels that they ask for. */
  ghost predicate VoicesOf(tune: Tune, vs: seq<CA.Voice>) {
    && CA.ProperVoices(vs)
    && (forall i | 0 <= i < |vs| :: vs[i].id in tune.voices)
    && (forall id | id in tune.voices :: exists i :: 0 <= i < |vs| && vs[i].id == id)
  }

  function ChannelsOf(vs: seq<CA.Voice>): (out: seq<int>)
    ensures |out| == |vs|
  {
    CA.AssignAll(vs, 0, CA.Explicit(vs))
  }

  /** The track of the voice `i`: its program change and its notes, on its channel. */
  ghost predicate VoiceTrack(track: seq<MidiEvent>, tune: Tune, vs: seq<CA.Voice>, i: nat)
    requires i < |vs| && vs[i].id in tune.voices
  {
    var v, ch := tune.voices[vs[i].id], ChannelsOf(vs)[i];
    NoteTrack(track, Program(v, ch), OfVoice(tune.features, vs[i].id), v.denom, ch)
  }

  /** The tempo track, then the track of every voice. */
  ghost predicate Generated(tracks: seq<seq<MidiEvent>>, tune: Tune, vs: seq<CA.Voice>)
    requires VoicesOf(tune, vs)
  {
    && |tracks| == 1 + |vs| && tracks[0] == TempoTrack(tune)
    && forall t | 1 <= t < |tracks| :: VoiceTrack(tracks[t], tune, vs, t - 1)
  }

  method Generate(tune: Tune, vs: seq<CA.Voice>) returns (tracks: seq<seq<MidiEvent>>)
    requires VoicesOf(tune, vs) && KnownVoices(tune)
    ensures Generated(tracks, tune, vs)
  {
    hide NoteTrack, TempoTrack, OfVoice;
    var pool := new CA.ChannelPool();
    var channels := pool.AssignChannels(vs);
    var notes: seq<seq<MidiEvent>> := [];
    for k := 0 to |vs|
      invariant |notes| == k && forall i | 0 <= i < k :: VoiceTrack(notes[i], tune, vs, i)
    {
      var track := GenerateVoice(tune.features, vs[k].id, tune.voices[vs[k].id], channels[k]);
      notes := notes + [track];
    }
    var tempo := ProcessTempoTrack(tune);
    tracks := [tempo] + notes;
  }

  // ---------------------------------------------------------------- from a track to the asset

  /** Channels given to voices are MIDI channels. */
  lemma ChannelsInBounds(vs: seq<CA.Voice>, i: nat)
    requires CA.ProperVoices(vs) && i < |vs|
    ensures 0 <= ChannelsOf(vs)[i] < Channels.CHANNELS
  {
    CA.OwnChannelsIff(vs);
    if vs[i].channel < 0 { CA.ChosenAt(vs, ChannelsOf(vs), i); }
  }

  lemma {:induction false} InMessages(events: seq<MidiEvent>, segments: seq<Segment>, k: nat, x: Scheduled)
    requires segments != [] && k < |events| && x in Message(events[k], segments)
    ensures x in Messages(events, segments)
  {
    var n := |events| - 1;
    if k < n { InMessages(events[..n], segments, k, x); }
  }

  lemma {:induction false} InAllMessages(tracks: seq<seq<MidiEvent>>, segments: seq<Segment>, t: nat, ev: MidiEvent,
          x: Scheduled)
    requires segments != [] && t < |tracks| && ev in tracks[t] && x in Message(ev, segments)
    ensures x in AllMessages(tracks, segments)
  {
    hide Message, Messages, SortTrack;
    var n := |tracks| - 1;
    if t < n {
      InAllMessages(tracks[..n], segments, t, ev, x);
    } else {
      var k := SortedMember(tracks[t], ev);
      InMessages(SortTrack(tracks[t]), segments, k, x);
    }
  }

  /** Whatever a track says is in the compiled list. */
  lemma Compiled(defaultBpm: int, tracks: seq<seq<MidiEvent>>, t: nat, ev: MidiEvent, x: Scheduled) returns (j: nat)
    requires t < |tracks| && ev in tracks[t] && x in Message(ev, SegmentsOf(defaultBpm, tracks))
    ensures j < |CompiledList(defaultBpm, tracks)| && CompiledList(defaultBpm, tracks)[j] == x
  {
    hide Message;
    var all := AllMessages(tracks, SegmentsOf(defaultBpm, tracks));
    InAllMessages(tracks, SegmentsOf(defaultBpm, tracks), t, ev, x);
    PlayOrderTotal();
    SortIs(PlayOrder(), all);
    assert x in multiset(all);
    assert x in multiset(CompiledList(defaultBpm, tracks));
    j :| 0 <= j < |CompiledList(defaultBpm, tracks)| && CompiledList(defaultBpm, tracks)[j] == x;
  }

  /** The `n`-th note of the feature `g` of the tune, which belongs to the voice `i`. */
  predicate IsNote(tune: Tune, vs: seq<CA.Voice>, i: nat, g: nat, n: nat, pitch: byte, velocity: byte) {
    && i < |vs| && vs[i].id in tune.voices
    && g < |tune.features| && tune.features[g].voice == vs[i].id && IsNoteOf(tune.features[g].data, n, pitch, velocity)
  }

  /** Where it starts, in beats of its voice. */
  function Onset(tune: Tune, g: nat): real
    requires g < |tune.features| && tune.features[g].voice in tune.voices
  {
    tune.features[g].ts * tune.voices[tune.features[g].voice].denom as real
  }

  function End(tune: Tune, g: nat): real
    requires g < |tune.features| && tune.features[g].voice in tune.voices && Sounding(tune.features[g].data)
  {
    (tune.features[g].ts + tune.features[g].data.dur) * tune.voices[tune.features[g].voice].denom as real
  }

  lemma NoteInTrack(tune: Tune, vs: seq<CA.Voice>, track: seq<MidiEvent>, i: nat, g: nat, n: nat, pitch: byte,
          velocity: byte)
    requires IsNote(tune, vs, i, g, n, pitch, velocity) && VoiceTrack(track, tune, vs, i)
    ensures MidiEvent(NoteOn, Onset(tune, g), ChannelsOf(vs)[i], pitch, velocity, []) in track
    ensures MidiEvent(NoteOff, End(tune, g), ChannelsOf(vs)[i], pitch, 0, []) in track
  {
    hide NoteTrack;
    var v, ch, id := tune.voices[vs[i].id], ChannelsOf(vs)[i], vs[i].id;
    OfVoiceAt(tune.features, id, g);
    NoteEvents(tune.features[g], v.denom, ch, n, pitch, velocity);
    var own, f := OfVoice(tune.features, id), |OfVoice(tune.features[..g], id)|;
    NotePushed(track, Program(v, ch), own, v.denom, ch, f, n, pitch, velocity);
    assert own[f] == tune.features[g];
    assert Beats(own[f].ts, v.denom) == Onset(tune, g) && EndOf(own[f], v.denom) == End(tune, g);
  }

  /** Every note of the tune is in the compiled asset: a note-on at its onset with its pitch and velocity, and a
      note-off at its end with the same pitch, both on the voice's channel. */
  lemma NotePlayed(tune: Tune, vs: seq<CA.Voice>, tracks: seq<seq<MidiEvent>>, i: nat, g: nat, n: nat, pitch: byte,
          velocity: byte) returns (j: nat, k: nat)
    requires CA.ProperVoices(vs) && IsNote(tune, vs, i, g, n, pitch, velocity)
    requires 1 + i < |tracks| && VoiceTrack(tracks[1 + i], tune, vs, i)
    ensures 0 <= ChannelsOf(vs)[i] < Channels.CHANNELS
    ensures var list, s := CompiledList(tune.bpm, tracks), SegmentsOf(tune.bpm, tracks);
            && j < |list| && k < |list|
            && list[j].ev == MidiTable.Event(Ns(Onset(tune, g), s), ChannelsOf(vs)[i], 0x90, pitch, velocity)
            && list[k].ev == MidiTable.Event(Ns(End(tune, g), s), ChannelsOf(vs)[i], 0x80, pitch, 0)
  {
    hide SegmentsOf, CompiledList, VoiceTrack, ChannelsOf, Onset, End, Ns;
    var s, ch := SegmentsOf(tune.bpm, tracks), ChannelsOf(vs)[i];
    NoteInTrack(tune, vs, tracks[1 + i], i, g, n, pitch, velocity);
    ChannelsInBounds(vs, i);
    var on := MidiEvent(NoteOn, Onset(tune, g), ch, pitch, velocity, []);
    var off := MidiEvent(NoteOff, End(tune, g), ch, pitch, 0, []);
    j := Compiled(tune.bpm, tracks, 1 + i, on, Timed(on, 0x90, s));
    k := Compiled(tune.bpm, tracks, 1 + i, off, Timed(off, 0x80, s));
  }

  lemma {:induction false} OrderOf(events: seq<MidiEvent>, segments: seq<Segment>)
    requires segments != []
    ensures forall x | x in Messages(events, segments) ::
              && (x.ev.status == 0x90 ==> x.order == 4) && (x.ev.status == 0x80 ==> x.order == 1)
              && (x.ev.status == 0xC0 ==> x.order == 3)
  {
    if events != [] { OrderOf(events[..|events| - 1], segments); }
  }

  lemma {:induction false} OrderOfAll(tracks: seq<seq<MidiEvent>>, segments: seq<Segment>)
    requires segments != []
    ensures forall x | x in AllMessages(tracks, segments) ::
              && (x.ev.status == 0x90 ==> x.order == 4) && (x.ev.status == 0x80 ==> x.order == 1)
              && (x.ev.status == 0xC0 ==> x.order == 3)
  {
    if tracks != [] {
      OrderOfAll(tracks[..|tracks| - 1], segments);
      OrderOf(SortTrack(tracks[|tracks| - 1]), segments);
    }
  }

  /** The same of the compiled list, which is sorted. */
  lemma CompiledOrder(defaultBpm: int, tracks: seq<seq<MidiEvent>>, j: nat)
    requires tracks != [] && j < |CompiledList(defaultBpm, tracks)|
    ensures var list := CompiledList(defaultBpm, tracks);
            && (list[j].ev.status == 0x90 ==> list[j].order == 4) && (list[j].ev.status == 0x80 ==> list[j].order == 1)
            && (list[j].ev.status == 0xC0 ==> list[j].order == 3)
            && forall k | j < k < |list| :: NotAfter(list[j], list[k])
  {
    hide AllMessages, NotAfter;
    var s, list := SegmentsOf(defaultBpm, tracks), CompiledList(defaultBpm, tracks);
    OrderOfAll(tracks, s);
    PlayOrderTotal();
    SortIs(PlayOrder(), AllMessages(tracks, s));
    assert list[j] in multiset(list);
    assert list[j] in AllMessages(tracks, s);
    forall k | j < k < |list| ensures NotAfter(list[j], list[k]) { assert PlayOrder()(list[j], list[k]); }
  }

  /** In the asset the off of a note comes after its on if and only if the two times, cut to whole
      nanoseconds, differ. */
  lemma NoteHeard(tune: Tune, vs: seq<CA.Voice>, tracks: seq<seq<MidiEvent>>, i: nat, g: nat, n: nat, pitch: byte,
          velocity: byte, j: nat, k: nat)
    requires IsNote(tune, vs, i, g, n, pitch, velocity) && ChannelsOf(vs)[i] >= 0 && tracks != []
    requires tune.features[g].ts >= 0.0 && tune.features[g].data.dur >= 0.0
    requires var list, s := CompiledList(tune.bpm, tracks), SegmentsOf(tune.bpm, tracks);
             && j < |list| && k < |list|
             && list[j].ev == MidiTable.Event(Ns(Onset(tune, g), s), ChannelsOf(vs)[i], 0x90, pitch, velocity)
             && list[k].ev == MidiTable.Event(Ns(End(tune, g), s), ChannelsOf(vs)[i], 0x80, pitch, 0)
    ensures var s := SegmentsOf(tune.bpm, tracks); j < k <==> Ns(Onset(tune, g), s) != Ns(End(tune, g), s)
  {
    hide SegmentsOf, CompiledList, ChannelsOf, Ns;
    OnBeforeOff(tune, g);
    NsMono(tune.bpm, tracks, Onset(tune, g), End(tune, g));
    CompiledOrder(tune.bpm, tracks, j);
    CompiledOrder(tune.bpm, tracks, k);
  }

  lemma OnBeforeOff(tune: Tune, g: nat)
    requires g < |tune.features| && tune.features[g].voice in tune.voices && Sounding(tune.features[g].data)
    requires tune.features[g].ts >= 0.0 && tune.features[g].data.dur >= 0.0
    ensures 0.0 <= Onset(tune, g) <= End(tune, g)
  {
    var denom := tune.voices[tune.features[g].voice].denom;
    assert End(tune, g) - Onset(tune, g) == tune.features[g].data.dur * denom as real;
  }

  /** The instrument of every voice is set at time zero, on its channel and before every note-on of the asset. */
  lemma ProgramPlayed(tune: Tune, vs: seq<CA.Voice>, tracks: seq<seq<MidiEvent>>, i: nat) returns (j: nat)
    requires CA.ProperVoices(vs) && i < |vs| && vs[i].id in tune.voices
    requires 1 + i < |tracks| && VoiceTrack(tracks[1 + i], tune, vs, i)
    ensures 0 <= ChannelsOf(vs)[i] < Channels.CHANNELS
    ensures var list := CompiledList(tune.bpm, tracks);
            && j < |list|
            && list[j].ev == MidiTable.Event(0, ChannelsOf(vs)[i], 0xC0, tune.voices[vs[i].id].instrument, 0)
            && forall k | 0 <= k < |list| && list[k].ev.status == 0x90 :: j < k
  {
    hide SegmentsOf, CompiledList, VoiceTrack, ChannelsOf, Ns;
    var s, ch, v := SegmentsOf(tune.bpm, tracks), ChannelsOf(vs)[i], tune.voices[vs[i].id];
    var program := MidiEvent(ProgramChange, 0.0, ch, v.instrument, 0, []);
    ProgramInTrack(tune, vs, tracks[1 + i], i);
    ChannelsInBounds(vs, i);
    StartsAtZero(tune.bpm, tracks);
    j := Compiled(tune.bpm, tracks, 1 + i, program, Timed(program, 0xC0, s));
    var list := CompiledList(tune.bpm, tracks);
    CompiledOrder(tune.bpm, tracks, j);
    forall k | 0 <= k < |list| && list[k].ev.status == 0x90 ensures j < k {
      CompiledOrder(tune.bpm, tracks, k);
    }
  }

  lemma ProgramInTrack(tune: Tune, vs: seq<CA.Voice>, track: seq<MidiEvent>, i: nat)
    requires i < |vs| && vs[i].id in tune.voices && VoiceTrack(track, tune, vs, i)
    ensures MidiEvent(ProgramChange, 0.0, ChannelsOf(vs)[i], tune.voices[vs[i].id].instrument, 0, []) in track
  {
    hide Ons, ExpectedOffs, OfVoice, ChannelsOf, MaxEnd;
    var program := Program(tune.voices[vs[i].id], ChannelsOf(vs)[i]);
    assert program in multiset(track[..|track| - 1]);
  }

  /** A beat is played at the whole nanoseconds of the time that has passed under the changes of the tempo track. */
  lemma NsIsPassed(defaultBpm: int, tracks: seq<seq<MidiEvent>>, x: real)
    requires tracks != []
    ensures var bpm := if defaultBpm < 1 then 1 else defaultBpm;
            var ns := Ns(x, SegmentsOf(defaultBpm, tracks)) as real;
            if x < 0.0 then ns == 0.0 else ns <= Passed(tracks[0], bpm, 0.0, x) < ns + 1.0
  {
    var bpm := if defaultBpm < 1 then 1 else defaultBpm;
    var y := if x < 0.0 then 0.0 else x;
    ValueIsPassed(tracks[0], bpm, 0.0, 0.0, y);
    PassedIncreasing(tracks[0], bpm, 0.0, y, y);
    PassedNothing(tracks[0], bpm, 0.0);
  }

  lemma StartsAtZero(defaultBpm: int, tracks: seq<seq<MidiEvent>>)
    requires tracks != []
    ensures Ns(0.0, SegmentsOf(defaultBpm, tracks)) == 0
  {
    TempoMapIs(defaultBpm, tracks[0], 0.0, 0.0);
  }

  /** Later beats are not played earlier. */
  lemma NsMono(defaultBpm: int, tracks: seq<seq<MidiEvent>>, x: real, y: real)
    requires tracks != [] && 0.0 <= x <= y
    ensures Ns(x, SegmentsOf(defaultBpm, tracks)) <= Ns(y, SegmentsOf(defaultBpm, tracks))
  {
    TempoMapIs(defaultBpm, tracks[0], x, y);
    TempoMapIs(defaultBpm, tracks[0], 0.0, x);
    TempoMapIs(defaultBpm, tracks[0], 0.0, y);
  }
}
