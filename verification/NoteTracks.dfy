/** Generation of the note tracks and of the tempo track from the features of a tune. */
module NoteTracks {
  import opened Sorting
  import opened MidiEvents

  datatype Voice = Voice(denom: nat, instrument: byte)

  /** Durations are in whole notes, as are the feature timestamps. */
  datatype FeatureData =
    | Note(pitch: byte, velocity: byte, dur: real)
    | Rest(dur: real)
    | Chord(notes: seq<(byte, byte)>, dur: real)
    | GChord(dur: real)
    | Tempo(bpm: int)
    | Time(num: byte, den: byte)
    | Key(sharps: int, major: bool)
    | Bar

  datatype Feature = Feature(voice: int, ts: real, data: FeatureData)

  datatype ActiveNote = ActiveNote(pitch: byte, channel: int, end: real)

  function On(time: real, channel: int, note: (byte, byte)): MidiEvent {
    MidiEvent(NoteOn, time, channel, note.0, note.1, [])
  }

  function Off(a: ActiveNote): MidiEvent { MidiEvent(NoteOff, a.end, a.channel, a.pitch, 0, []) }

  function Offs(active: seq<ActiveNote>): seq<MidiEvent> {
    seq(|active|, i requires 0 <= i < |active| => Off(active[i]))
  }

  // ---------------------------------------------------------------- flushing

  function Due(active: seq<ActiveNote>, now: real): seq<ActiveNote> {
    if active == [] then []
    else Due(active[..|active| - 1], now) + if active[|active| - 1].end <= now then [active[|active| - 1]] else []
  }

  function Later(active: seq<ActiveNote>, now: real): seq<ActiveNote> {
    if active == [] then []
    else Later(active[..|active| - 1], now) + if active[|active| - 1].end <= now then [] else [active[|active| - 1]]
  }

  lemma OffsAppend(a: seq<ActiveNote>, b: seq<ActiveNote>)
    ensures Offs(a + b) == Offs(a) + Offs(b)
  {}

  lemma NothingFlushed(now: real)
    ensures Offs([]) == [] && Due([], now) == Later([], now) == []
  {}

  lemma OffsOne(a: ActiveNote)
    ensures Offs([a]) == [Off(a)]
  {}

  /** One more note is either due or not. */
  lemma DueStep(active: seq<ActiveNote>, k: nat, now: real)
    requires k < |active|
    ensures var due, later, a := Due(active[..k], now), Later(active[..k], now), active[k];
            && Due(active[..k + 1], now) == (if a.end <= now then due + [a] else due)
            && Later(active[..k + 1], now) == (if a.end <= now then later else later + [a])
  {
    assert active[..k + 1][..k] == active[..k];
  }

  lemma {:induction false} DueLater(active: seq<ActiveNote>, now: real)
    ensures multiset(Offs(Due(active, now))) + multiset(Offs(Later(active, now))) == multiset(Offs(active))
    decreases |active|
  {
    if active != [] {
      hide Offs, Due, Later;
      var n := |active| - 1;
      var front, last := active[..n], active[n];
      DueLater(front, now);
      assert active[..n + 1] == active == front + [last];
      DueStep(active, n, now);
      OffsAppend(front, [last]);
      OffsAppend(Due(front, now), [last]);
      OffsAppend(Later(front, now), [last]);
    }
  }

  // ---------------------------------------------------------------- what a voice should sound like

  /** The notes that a feature starts. */
  function NotesOf(d: FeatureData): seq<(byte, byte)> {
    match d
    case Note(pitch, velocity, _) => [(pitch, velocity)]
    case Chord(notes, _) => notes
    case _ => []
  }

  /** The `n`-th note of a feature. */
  predicate IsNoteOf(d: FeatureData, n: nat, pitch: byte, velocity: byte) {
    || (d.Note? && n == 0 && pitch == d.pitch && velocity == d.velocity)
    || (d.Chord? && n < |d.notes| && d.notes[n] == (pitch, velocity))
  }

  predicate Sounding(d: FeatureData) { d.Note? || d.Rest? || d.Chord? }

  /** Whole notes to beats of the voice's time signature. */
  function Beats(ts: real, denom: nat): real { ts * denom as real }

  function EndOf(f: Feature, denom: nat): real
    requires Sounding(f.data)
  {
    Beats(f.ts, denom) + Beats(f.data.dur, denom)
  }

  function OnsOf(f: Feature, denom: nat, channel: int): seq<MidiEvent> {
    var notes := NotesOf(f.data);
    seq(|notes|, i requires 0 <= i < |notes| => On(Beats(f.ts, denom), channel, notes[i]))
  }

  function ActivesOf(f: Feature, denom: nat, channel: int): seq<ActiveNote> {
    var notes := NotesOf(f.data);
    if Sounding(f.data) then
      seq(|notes|, i requires 0 <= i < |notes| => ActiveNote(notes[i].0, channel, EndOf(f, denom)))
    else []
  }

  /** One note-on for every note, in order. */
  function Ons(fs: seq<Feature>, denom: nat, channel: int): seq<MidiEvent> {
    if fs == [] then [] else Ons(fs[..|fs| - 1], denom, channel) + OnsOf(fs[|fs| - 1], denom, channel)
  }

  /** One note-off for every note, at its onset plus its duration. */
  function ExpectedOffs(fs: seq<Feature>, denom: nat, channel: int): seq<MidiEvent> {
    if fs == [] then []
    else ExpectedOffs(fs[..|fs| - 1], denom, channel) + Offs(ActivesOf(fs[|fs| - 1], denom, channel))
  }

  function MaxEnd(fs: seq<Feature>, denom: nat): real {
    if fs == [] then 0.0
    else
      var m, f := MaxEnd(fs[..|fs| - 1], denom), fs[|fs| - 1];
      if Sounding(f.data) && EndOf(f, denom) > m then EndOf(f, denom) else m
  }

  function OfKind(events: seq<MidiEvent>, kind: EventKind): seq<MidiEvent> {
    if events == [] then []
    else OfKind(events[..|events| - 1], kind) + if events[|events| - 1].kind == kind then [events[|events| - 1]] else []
  }

  lemma {:induction false} OfKindAppend(a: seq<MidiEvent>, b: seq<MidiEvent>, kind: EventKind)
    ensures OfKind(a + b, kind) == OfKind(a, kind) + OfKind(b, kind)
    decreases |b|
  {
    if b == [] {
      assert a + b == a;
    } else {
      var front := b[..|b| - 1];
      assert (a + b)[..|a + b| - 1] == a + front;
      OfKindAppend(a, front, kind);
    }
  }

  lemma {:induction false} OfKindAll(s: seq<MidiEvent>, kind: EventKind, other: EventKind)
    requires forall i | 0 <= i < |s| :: s[i].kind == kind
    ensures OfKind(s, kind) == s && (other != kind ==> OfKind(s, other) == [])
  {
    if s != [] {
      OfKindAll(s[..|s| - 1], kind, other);
      assert s == s[..|s| - 1] + [s[|s| - 1]];
    }
  }

  /** A note goes on at its onset in beats, with its pitch and velocity, and off at its end, with the same pitch. */
  lemma NoteEvents(f: Feature, denom: nat, channel: int, n: nat, pitch: byte, velocity: byte)
    requires IsNoteOf(f.data, n, pitch, velocity)
    ensures n < |OnsOf(f, denom, channel)| == |Offs(ActivesOf(f, denom, channel))|
    ensures OnsOf(f, denom, channel)[n] == MidiEvent(NoteOn, f.ts * denom as real, channel, pitch, velocity, [])
    ensures Offs(ActivesOf(f, denom, channel))[n]
         == MidiEvent(NoteOff, (f.ts + f.data.dur) * denom as real, channel, pitch, 0, [])
    ensures Beats(f.ts, denom) == f.ts * denom as real && EndOf(f, denom) == (f.ts + f.data.dur) * denom as real
  {
    assert f.ts * denom as real + f.data.dur * denom as real == (f.ts + f.data.dur) * denom as real;
  }

  /** The notes of a feature are those it is made of: nothing else sounds. */
  lemma NotesAre(f: Feature, denom: nat, channel: int, n: nat)
    requires n < |OnsOf(f, denom, channel)| || n < |Offs(ActivesOf(f, denom, channel))|
    ensures exists pitch: byte, velocity: byte :: IsNoteOf(f.data, n, pitch, velocity)
  {
    var (pitch, velocity) := NotesOf(f.data)[n];
    assert IsNoteOf(f.data, n, pitch, velocity);
  }

  /** The events written and the note-offs still to come are the start of the track, a note-on and
      a note-off for every note. */
  ghost predicate Balanced(start: seq<MidiEvent>, events: seq<MidiEvent>, active: seq<ActiveNote>, fs: seq<Feature>,
          denom: nat, channel: int)
  {
    multiset(events) + multiset(Offs(active))
      == multiset(start) + multiset(Ons(fs, denom, channel)) + multiset(ExpectedOffs(fs, denom, channel))
  }

  /** The note-ons written are those of the notes so far, in order. */
  ghost predicate OnsInOrder(start: seq<MidiEvent>, events: seq<MidiEvent>, fs: seq<Feature>, denom: nat,
          channel: int)
  {
    OfKind(events, NoteOn) == OfKind(start, NoteOn) + Ons(fs, denom, channel)
  }

  lemma FlushBalanced(start: seq<MidiEvent>, events: seq<MidiEvent>, active: seq<ActiveNote>, now: real,
          fs: seq<Feature>, denom: nat, channel: int)
    requires Balanced(start, events, active, fs, denom, channel)
    ensures Balanced(start, events + Offs(Due(active, now)), Later(active, now), fs, denom, channel)
  {
    DueLater(active, now);
    var due, later := Offs(Due(active, now)), Offs(Later(active, now));
    assert multiset(events + due) == multiset(events) + multiset(due);
    assert multiset(events + due) + multiset(later) == multiset(events) + (multiset(due) + multiset(later));
  }

  lemma FlushOns(start: seq<MidiEvent>, events: seq<MidiEvent>, due: seq<ActiveNote>, fs: seq<Feature>, denom: nat,
          channel: int)
    requires OnsInOrder(start, events, fs, denom, channel)
    ensures OnsInOrder(start, events + Offs(due), fs, denom, channel)
  {
    OfKindAppend(events, Offs(due), NoteOn);
    OfKindAll(Offs(due), NoteOff, NoteOn);
  }

  /** Starting the notes of one more feature. */
  lemma StartBalanced(start: seq<MidiEvent>, events: seq<MidiEvent>, active: seq<ActiveNote>, fs: seq<Feature>, k: nat,
          denom: nat, channel: int)
    requires k < |fs| && Balanced(start, events, active, fs[..k], denom, channel)
    ensures Balanced(start, events + OnsOf(fs[k], denom, channel), active + ActivesOf(fs[k], denom, channel),
                     fs[..k + 1], denom, channel)
  {
    var ons, more := OnsOf(fs[k], denom, channel), ActivesOf(fs[k], denom, channel);
    var fs1 := fs[..k + 1];
    assert fs1[..k] == fs[..k] && fs1[|fs1| - 1] == fs[k];
    var ons0, offs0 := Ons(fs[..k], denom, channel), ExpectedOffs(fs[..k], denom, channel);
    assert Ons(fs1, denom, channel) == ons0 + ons;
    assert ExpectedOffs(fs1, denom, channel) == offs0 + Offs(more);
    assert Offs(active + more) == Offs(active) + Offs(more);
    Shuffle(multiset(events), multiset(Offs(active)), multiset(start), multiset(ons0), multiset(offs0), multiset(ons),
        multiset(Offs(more)));
  }

  lemma Shuffle<T>(a: multiset<T>, b: multiset<T>, c: multiset<T>, d: multiset<T>, e: multiset<T>, x: multiset<T>,
          y: multiset<T>)
    requires a + b == c + d + e
    ensures (a + x) + (b + y) == c + (d + x) + (e + y)
  {
    assert (a + x) + (b + y) == (a + b) + (x + y);
  }

  lemma StartOns(start: seq<MidiEvent>, events: seq<MidiEvent>, fs: seq<Feature>, k: nat, denom: nat, channel: int)
    requires k < |fs| && OnsInOrder(start, events, fs[..k], denom, channel)
    ensures OnsInOrder(start, events + OnsOf(fs[k], denom, channel), fs[..k + 1], denom, channel)
  {
    hide OfKind;
    var ons := OnsOf(fs[k], denom, channel);
    var fs1 := fs[..k + 1];
    assert fs1[..k] == fs[..k] && fs1[|fs1| - 1] == fs[k];
    var head, ons0 := OfKind(start, NoteOn), Ons(fs[..k], denom, channel);
    assert Ons(fs1, denom, channel) == ons0 + ons;
    OfKindAppend(events, ons, NoteOn);
    OfKindAll(ons, NoteOn, NoteOff);
    assert (head + ons0) + ons == head + (ons0 + ons);
  }

  /** The gap that is left by removing, and the one that is left by passing over. */
  lemma PassedOver(front: seq<ActiveNote>, all: seq<ActiveNote>, k: nat)
    requires k < |all|
    ensures var s := front + all[k..]; var i := |front|;
            s[i] == all[k] && s[..i] + s[i + 1..] == front + all[k + 1..] && s == front + [all[k]] + all[k + 1..]
  {
  }

  class MidiGenerator {
    var activeNotes: seq<ActiveNote>

    constructor ()
      ensures activeNotes == []
    {
      activeNotes := [];
    }

    /** Removes the notes that have ended, in place, and pushes their note-offs. */
    method FlushDueNoteOffs(now: real, events: seq<MidiEvent>) returns (grown: seq<MidiEvent>)
      modifies this
      ensures activeNotes == Later(old(activeNotes), now)
      ensures grown == events + Offs(Due(old(activeNotes), now))
    {
      hide Offs, Due, Later;
      NothingFlushed(now);
      grown := events;
      var i := 0;
      ghost var k := 0;
      ghost var all := activeNotes;
      assert all[..0] == [] && all[0..] == all;
      while i < |activeNotes|
        invariant 0 <= k <= |all| && i == |Later(all[..k], now)|
        invariant activeNotes == Later(all[..k], now) + all[k..]
        invariant grown == events + Offs(Due(all[..k], now))
        decreases |activeNotes| - i
      {
        DueStep(all, k, now);
        PassedOver(Later(all[..k], now), all, k);
        if activeNotes[i].end <= now {
          var an := activeNotes[i];
          activeNotes := activeNotes[..i] + activeNotes[i + 1..];
          grown := grown + [Off(an)];
          OffsAppend(Due(all[..k], now), [an]);
          OffsOne(an);
        } else {
          i := i + 1;
        }
        k := k + 1;
      }
      assert all[..k] == all;
    }

    /** Pushes the note-off of every note that is still active. */
    method FlushAllNoteOffs(events: seq<MidiEvent>) returns (grown: seq<MidiEvent>)
      modifies this
      ensures activeNotes == [] && grown == events + Offs(old(activeNotes))
    {
      grown := events;
      for k := 0 to |activeNotes|
        invariant activeNotes == old(activeNotes) && grown == events + Offs(activeNotes)[..k]
      {
        grown := grown + [Off(activeNotes[k])];
      }
      activeNotes := [];
    }

    /** Pushes the note-ons of a feature and remembers when its notes end. */
    method StartNotes(f: Feature, denom: nat, channel: int, events: seq<MidiEvent>) returns (grown: seq<MidiEvent>)
      requires f.data.Note? || f.data.Chord?
      modifies this
      ensures grown == events + OnsOf(f, denom, channel)
      ensures activeNotes == old(activeNotes) + ActivesOf(f, denom, channel)
      ensures forall n: nat, pitch: byte, velocity: byte | IsNoteOf(f.data, n, pitch, velocity) ::
                && |events| + n < |grown|
                && grown[|events| + n] == MidiEvent(NoteOn, f.ts * denom as real, channel, pitch, velocity, [])
    {
      var notes := NotesOf(f.data);
      ghost var ons, more := OnsOf(f, denom, channel), ActivesOf(f, denom, channel);
      grown := events;
      for j := 0 to |notes|
        invariant grown == events + ons[..j]
        invariant activeNotes == old(activeNotes) + more[..j]
      {
        grown := grown + [On(Beats(f.ts, denom), channel, notes[j])];
        activeNotes := activeNotes + [ActiveNote(notes[j].0, channel, EndOf(f, denom))];
        assert ons[j] == On(Beats(f.ts, denom), channel, notes[j]);
        assert ons[..j + 1] == ons[..j] + [ons[j]] && more[..j + 1] == more[..j] + [more[j]];
      }
      forall n: nat, pitch: byte, velocity: byte | IsNoteOf(f.data, n, pitch, velocity)
        ensures |events| + n < |grown|
             && grown[|events| + n] == MidiEvent(NoteOn, f.ts * denom as real, channel, pitch, velocity, [])
      {
        NoteEvents(f, denom, channel, n, pitch, velocity);
      }
    }

    /** The events of one voice, given its features; `start` is what the track already holds. */
    method GenerateTrackEvents(fs: seq<Feature>, denom: nat, channel: int, start: seq<MidiEvent>)
      returns (events: seq<MidiEvent>)
      modifies this
      ensures activeNotes == []
      ensures events != [] && events[|events| - 1] == MidiEvent(MetaEndOfTrack, MaxEnd(fs, denom), 0, 0, 0, [])
      ensures var body := events[..|events| - 1];
              && multiset(body) == multiset(start) + multiset(Ons(fs, denom, channel))
                  + multiset(ExpectedOffs(fs, denom, channel))
              && OfKind(body, NoteOn) == OfKind(start, NoteOn) + Ons(fs, denom, channel)
    {
      activeNotes := [];
      var maxEnd := 0.0;
      events := start;
      assert Offs([]) == [];
      for k := 0 to |fs|
        invariant Balanced(start, events, activeNotes, fs[..k], denom, channel)
        invariant OnsInOrder(start, events, fs[..k], denom, channel)
        invariant maxEnd == MaxEnd(fs[..k], denom)
      {
        var f := fs[k];
        ghost var done := fs[..k];
        assert fs[..k + 1][..k] == done;
        if Sounding(f.data) {
          var now := if f.data.Rest? then EndOf(f, denom) else Beats(f.ts, denom);
          FlushBalanced(start, events, activeNotes, now, done, denom, channel);
          FlushOns(start, events, Due(activeNotes, now), done, denom, channel);
          events := FlushDueNoteOffs(now, events);
        }
        StartBalanced(start, events, activeNotes, fs, k, denom, channel);
        StartOns(start, events, fs, k, denom, channel);
        if f.data.Note? || f.data.Chord? {
          events := StartNotes(f, denom, channel, events);
        } else {
          assert OnsOf(f, denom, channel) == [] && ActivesOf(f, denom, channel) == [];
          assert events + [] == events && activeNotes + [] == activeNotes;
        }
        if Sounding(f.data) && EndOf(f, denom) > maxEnd { maxEnd := EndOf(f, denom); }
      }
      assert fs[..|fs|] == fs;
      FlushOns(start, events, activeNotes, fs, denom, channel);
      events := FlushAllNoteOffs(events);
      ghost var body := events;
      events := events + [MidiEvent(MetaEndOfTrack, maxEnd, 0, 0, 0, [])];
      assert events[..|events| - 1] == body;
    }
  }

  // ---------------------------------------------------------------- one voice of a tune

  function OfVoice(features: seq<Feature>, id: int): seq<Feature> {
    if features == [] then []
    else OfVoice(features[..|features| - 1], id)
         + if features[|features| - 1].voice == id then [features[|features| - 1]] else []
  }

  function Program(v: Voice, channel: int): MidiEvent { MidiEvent(ProgramChange, 0.0, channel, v.instrument, 0, []) }

  /** The track of one voice: its program change, then the events of its own features. */
  method GenerateVoice(features: seq<Feature>, id: int, v: Voice, channel: int) returns (events: seq<MidiEvent>)
    ensures NoteTrack(events, Program(v, channel), OfVoice(features, id), v.denom, channel)
    ensures OfKind(events[..|events| - 1], NoteOn) == Ons(OfVoice(features, id), v.denom, channel)
  {
    hide Ons, ExpectedOffs, MaxEnd, OfKind;
    var own: seq<Feature> := [];
    for k := 0 to |features|
      invariant own == OfVoice(features[..k], id)
    {
      assert features[..k + 1][..k] == features[..k];
      if features[k].voice == id { own := own + [features[k]]; }
    }
    assert features[..|features|] == features;
    var generator := new MidiGenerator();
    var program := Program(v, channel);
    events := generator.GenerateTrackEvents(own, v.denom, channel, [program]);
    OfKindAll([program], ProgramChange, NoteOn);
    assert [] + Ons(own, v.denom, channel) == Ons(own, v.denom, channel);
  }

  // ---------------------------------------------------------------- the written note track

  /** Every note starts at or after the beginning and lasts for some time or none. */
  ghost predicate Forward(fs: seq<Feature>) {
    forall k | 0 <= k < |fs| && Sounding(fs[k].data) :: fs[k].ts >= 0.0 && fs[k].data.dur >= 0.0
  }

  lemma {:induction false} MaxEndIs(fs: seq<Feature>, denom: nat)
    ensures MaxEnd(fs, denom) >= 0.0
    ensures forall k | 0 <= k < |fs| && Sounding(fs[k].data) :: EndOf(fs[k], denom) <= MaxEnd(fs, denom)
    ensures MaxEnd(fs, denom) == 0.0
         || exists k :: 0 <= k < |fs| && Sounding(fs[k].data) && EndOf(fs[k], denom) == MaxEnd(fs, denom)
  {
    if fs != [] { MaxEndIs(fs[..|fs| - 1], denom); }
  }

  lemma {:induction false} OnsMembers(fs: seq<Feature>, denom: nat, channel: int, ev: MidiEvent)
    ensures ev in Ons(fs, denom, channel) <==> exists k :: 0 <= k < |fs| && ev in OnsOf(fs[k], denom, channel)
  {
    if fs != [] {
      hide OnsOf;
      var front := fs[..|fs| - 1];
      OnsMembers(front, denom, channel, ev);
      assert forall k | 0 <= k < |front| :: front[k] == fs[k];
      if ev in Ons(front, denom, channel) {
        var k :| 0 <= k < |front| && ev in OnsOf(front[k], denom, channel);
        assert ev in OnsOf(fs[k], denom, channel);
      }
    }
  }

  lemma {:induction false} OffsMembers(fs: seq<Feature>, denom: nat, channel: int, ev: MidiEvent)
    ensures ev in ExpectedOffs(fs, denom, channel)
        <==> exists k :: 0 <= k < |fs| && ev in Offs(ActivesOf(fs[k], denom, channel))
  {
    if fs != [] {
      hide Offs, ActivesOf;
      var front := fs[..|fs| - 1];
      OffsMembers(front, denom, channel, ev);
      if ev in ExpectedOffs(front, denom, channel) {
        var k :| 0 <= k < |front| && ev in Offs(ActivesOf(front[k], denom, channel));
        assert ev in Offs(ActivesOf(fs[k], denom, channel));
      }
    }
  }

  lemma BeatsMono(ts: real, dur: real, denom: nat)
    requires dur >= 0.0
    ensures Beats(dur, denom) >= 0.0 && (dur > 0.0 && denom > 0 ==> Beats(dur, denom) > 0.0)
  {}

  /** What the generator leaves for a voice: the program change, the notes, end of track. */
  ghost predicate NoteTrack(events: seq<MidiEvent>, program: MidiEvent, fs: seq<Feature>, denom: nat, channel: int) {
    && program.kind == ProgramChange && program.time == 0.0
    && events != [] && events[|events| - 1] == MidiEvent(MetaEndOfTrack, MaxEnd(fs, denom), 0, 0, 0, [])
    && multiset(events[..|events| - 1]) == multiset{program} + multiset(Ons(fs, denom, channel))
        + multiset(ExpectedOffs(fs, denom, channel))
  }

  /** Nothing that is pushed before the end marker is later than it. */
  lemma PushedBefore(events: seq<MidiEvent>, program: MidiEvent, fs: seq<Feature>, denom: nat, channel: int,
          ev: MidiEvent)
    requires NoteTrack(events, program, fs, denom, channel) && Forward(fs)
    requires ev in events[..|events| - 1]
    ensures ev.time <= events[|events| - 1].time && ev.kind != MetaEndOfTrack
  {
    hide SortTrack, Ons, ExpectedOffs, MaxEnd, OfKind, Beats;
    MaxEndIs(fs, denom);
    OnsMembers(fs, denom, channel, ev);
    OffsMembers(fs, denom, channel, ev);
    assert ev in multiset(events[..|events| - 1]);
    if ev in Ons(fs, denom, channel) {
      var k :| 0 <= k < |fs| && ev in OnsOf(fs[k], denom, channel);
      BeatsMono(fs[k].ts, fs[k].data.dur, denom);
      assert EndOf(fs[k], denom) <= MaxEnd(fs, denom);
    } else if ev in ExpectedOffs(fs, denom, channel) {
      var k :| 0 <= k < |fs| && ev in Offs(ActivesOf(fs[k], denom, channel));
      assert EndOf(fs[k], denom) <= MaxEnd(fs, denom);
    } else {
      assert ev == program;
    }
  }

  /** End of track is written last, after everything else. */
  lemma NoteTrackEnds(events: seq<MidiEvent>, program: MidiEvent, fs: seq<Feature>, denom: nat, channel: int)
    requires NoteTrack(events, program, fs, denom, channel) && Forward(fs)
    ensures var s := SortTrack(events);
            && |s| == |events| && s[|s| - 1] == events[|events| - 1]
            && forall k | 0 <= k < |s| - 1 :: s[k].kind != MetaEndOfTrack
  {
    var body, last := events[..|events| - 1], events[|events| - 1];
    forall i | 0 <= i < |events| - 1 ensures events[i].time <= last.time && events[i].kind != MetaEndOfTrack {
      assert events[i] == body[i];
      PushedBefore(events, program, fs, denom, channel, events[i]);
    }
    EndOfTrackLast(events);
  }

  lemma NotePushed(events: seq<MidiEvent>, program: MidiEvent, fs: seq<Feature>, denom: nat, channel: int, f: nat,
          n: nat, pitch: byte, velocity: byte)
    requires NoteTrack(events, program, fs, denom, channel)
    requires f < |fs| && IsNoteOf(fs[f].data, n, pitch, velocity)
    ensures MidiEvent(NoteOn, Beats(fs[f].ts, denom), channel, pitch, velocity, []) in events
    ensures MidiEvent(NoteOff, EndOf(fs[f], denom), channel, pitch, 0, []) in events
  {
    hide OnsOf, ActivesOf, Offs, Ons, ExpectedOffs, MaxEnd, Beats;
    var body := events[..|events| - 1];
    NoteEvents(fs[f], denom, channel, n, pitch, velocity);
    var on, off := OnsOf(fs[f], denom, channel)[n], Offs(ActivesOf(fs[f], denom, channel))[n];
    OnsMembers(fs, denom, channel, on);
    OffsMembers(fs, denom, channel, off);
    assert on in OnsOf(fs[f], denom, channel) && off in Offs(ActivesOf(fs[f], denom, channel));
    var ons, offs := Ons(fs, denom, channel), ExpectedOffs(fs, denom, channel);
    assert on in ons && off in offs;
    assert on in multiset(ons) && off in multiset(offs);
    assert on in multiset(body) && off in multiset(body);
  }

  /** And every note-on and note-off of the track is that of a note. */
  lemma OnlyNotes(events: seq<MidiEvent>, program: MidiEvent, fs: seq<Feature>, denom: nat, channel: int, ev: MidiEvent)
    requires NoteTrack(events, program, fs, denom, channel) && ev in events && (ev.kind.NoteOn? || ev.kind.NoteOff?)
    ensures exists f: nat, n: nat, pitch: byte, velocity: byte ::
              && f < |fs| && IsNoteOf(fs[f].data, n, pitch, velocity)
              && ev == if ev.kind.NoteOn? then MidiEvent(NoteOn, Beats(fs[f].ts, denom), channel, pitch, velocity, [])
                       else MidiEvent(NoteOff, EndOf(fs[f], denom), channel, pitch, 0, [])
  {
    hide NotesOf, Ons, ExpectedOffs, MaxEnd, OnsOf, ActivesOf, Offs, Beats;
    var body := events[..|events| - 1];
    assert ev in body && ev in multiset(body);
    OnsMembers(fs, denom, channel, ev);
    OffsMembers(fs, denom, channel, ev);
    var f: nat, n: nat;
    if ev in Ons(fs, denom, channel) {
      f :| f < |fs| && ev in OnsOf(fs[f], denom, channel);
      n :| n < |OnsOf(fs[f], denom, channel)| && ev == OnsOf(fs[f], denom, channel)[n];
    } else {
      f :| f < |fs| && ev in Offs(ActivesOf(fs[f], denom, channel));
      n :| n < |Offs(ActivesOf(fs[f], denom, channel))| && ev == Offs(ActivesOf(fs[f], denom, channel))[n];
    }
    NotesAre(fs[f], denom, channel, n);
    var pitch: byte, velocity: byte :| IsNoteOf(fs[f].data, n, pitch, velocity);
    NoteEvents(fs[f], denom, channel, n, pitch, velocity);
  }

  lemma SortedMember(events: seq<MidiEvent>, ev: MidiEvent) returns (j: nat)
    requires ev in events
    ensures j < |SortTrack(events)| && SortTrack(events)[j] == ev
  {
    TrackOrderTotal();
    SortIs(TrackOrder(), events);
    assert ev in multiset(SortTrack(events));
    j :| 0 <= j < |SortTrack(events)| && SortTrack(events)[j] == ev;
  }

  /** Every note is in the written track, on at its onset and off at its end, with one pitch and channel. The
      off comes after the on if and only if the note has a positive length in beats: a zero-length note, and
      every note of a voice whose time signature has a zero denominator, is switched off before it is switched
      on. Here `j` and `k` are any places of such events. */
  lemma NoteSounds(events: seq<MidiEvent>, program: MidiEvent, fs: seq<Feature>, denom: nat, channel: int, f: nat,
          n: nat, pitch: byte, velocity: byte, j: nat, k: nat)
    requires NoteTrack(events, program, fs, denom, channel) && Forward(fs)
    requires f < |fs| && IsNoteOf(fs[f].data, n, pitch, velocity) && j < |SortTrack(events)| && k < |SortTrack(events)|
    requires SortTrack(events)[j] == MidiEvent(NoteOn, Beats(fs[f].ts, denom), channel, pitch, velocity, [])
    requires SortTrack(events)[k]
          == MidiEvent(NoteOff, EndOf(fs[f], denom), channel, pitch, 0, [])
    ensures j < k <==> fs[f].data.dur > 0.0 && denom > 0
  {
    OnOffOrder(events, j, k);
    BeatsMono(fs[f].ts, fs[f].data.dur, denom);
    if fs[f].data.dur == 0.0 || denom == 0 { assert Beats(fs[f].data.dur, denom) == 0.0; }
  }

  lemma NoteWritten(events: seq<MidiEvent>, program: MidiEvent, fs: seq<Feature>, denom: nat, channel: int, f: nat,
          n: nat, pitch: byte, velocity: byte) returns (j: nat, k: nat)
    requires NoteTrack(events, program, fs, denom, channel)
    requires f < |fs| && IsNoteOf(fs[f].data, n, pitch, velocity)
    ensures j < |SortTrack(events)| && k < |SortTrack(events)|
    ensures SortTrack(events)[j] == MidiEvent(NoteOn, Beats(fs[f].ts, denom), channel, pitch, velocity, [])
    ensures SortTrack(events)[k]
         == MidiEvent(NoteOff, EndOf(fs[f], denom), channel, pitch, 0, [])
  {
    NotePushed(events, program, fs, denom, channel, f, n, pitch, velocity);
    j := SortedMember(events, MidiEvent(NoteOn, Beats(fs[f].ts, denom), channel, pitch, velocity, []));
    k := SortedMember(events,
                      MidiEvent(NoteOff, EndOf(fs[f], denom), channel, pitch, 0, []));
  }

  /** The features of a voice are the tune's features with its id, in their order. */
  lemma {:induction false} OfVoiceAt(features: seq<Feature>, id: int, g: nat)
    requires g < |features| && features[g].voice == id
    ensures var n := |OfVoice(features[..g], id)|;
            n < |OfVoice(features, id)| && OfVoice(features, id)[n] == features[g]
    ensures OfVoice(features[..g], id) <= OfVoice(features, id)
    decreases |features|
  {
    var m := |features| - 1;
    if g < m {
      OfVoiceAt(features[..m], id, g);
      assert features[..m][..g] == features[..g];
    }
  }

  lemma {:induction false} OfVoiceOnly(features: seq<Feature>, id: int, f: Feature)
    ensures f in OfVoice(features, id) ==> f in features && f.voice == id
  {
    if features != [] { OfVoiceOnly(features[..|features| - 1], id, f); }
  }
}
