/** Track events and the order in which a track is written. */
module MidiEvents {
  import opened Sorting

  type byte = b: int | 0 <= b < 256

  datatype EventKind =
    | NoteOn | NoteOff | ProgramChange | ControlChange
    | MetaTempo | MetaTimeSignature | MetaKeySignature | MetaText | MetaEndOfTrack

  /** `time` is in beats. */
  datatype MidiEvent = MidiEvent(kind: EventKind, time: real, channel: int, data1: byte, data2: byte, meta: seq<byte>)

  function Priority(kind: EventKind): nat {
    match kind
    case MetaTempo => 0
    case NoteOff => 1
    case ControlChange => 2
    case ProgramChange => 3
    case NoteOn => 4
    case _ => 5
  }

  /** By time, then by priority. */
  predicate Before(a: MidiEvent, b: MidiEvent) {
    a.time < b.time || (a.time == b.time && Priority(a.kind) <= Priority(b.kind))
  }

  function TrackOrder(): (MidiEvent, MidiEvent) -> bool { (a: MidiEvent, b: MidiEvent) => Before(a, b) }

  function SortTrack(events: seq<MidiEvent>): seq<MidiEvent> { StableSort(TrackOrder(), events) }

  lemma TrackOrderTotal()
    ensures TotalPreorder(TrackOrder())
  {}

  /** Sorting keeps the events. */
  lemma SortedMembers(events: seq<MidiEvent>)
    ensures forall ev :: ev in SortTrack(events) <==> ev in events
  {
    TrackOrderTotal();
    SortIs(TrackOrder(), events);
    forall ev ensures ev in SortTrack(events) <==> ev in events {
      assert ev in multiset(SortTrack(events)) <==> ev in multiset(events);
    }
  }

  /** The order of a written track: a note-off and a note-on stand in time order, and at the same
      instant the note-off comes first. */
  lemma OnOffOrder(events: seq<MidiEvent>, j: nat, k: nat)
    requires j < |SortTrack(events)| && k < |SortTrack(events)|
    requires SortTrack(events)[j].kind == NoteOn && SortTrack(events)[k].kind == NoteOff
    ensures j < k <==> SortTrack(events)[j].time < SortTrack(events)[k].time
  {
    TrackOrderTotal();
    SortIs(TrackOrder(), events);
    var s := SortTrack(events);
    if j < k { assert TrackOrder()(s[j], s[k]); } else { assert TrackOrder()(s[k], s[j]); }
  }

  /** What comes first at one instant: tempo, note-off, control change, program change, note-on, the rest. */
  predicate ComesFirst(a: EventKind, b: EventKind) {
    match a
    case MetaTempo => !b.MetaTempo?
    case NoteOff => !b.MetaTempo? && !b.NoteOff?
    case ControlChange => !b.MetaTempo? && !b.NoteOff? && !b.ControlChange?
    case ProgramChange => !b.MetaTempo? && !b.NoteOff? && !b.ControlChange? && !b.ProgramChange?
    case NoteOn => b.MetaTimeSignature? || b.MetaKeySignature? || b.MetaText? || b.MetaEndOfTrack?
    case _ => false
  }

  lemma TieOrder(events: seq<MidiEvent>, j: nat, k: nat)
    requires j < |SortTrack(events)| && k < |SortTrack(events)|
    requires SortTrack(events)[j].time == SortTrack(events)[k].time
    requires ComesFirst(SortTrack(events)[j].kind, SortTrack(events)[k].kind)
    ensures j < k
  {
    hide SortTrack;
    if k < j { WrittenInOrder(events, k, j); }
  }

  lemma WrittenInOrder(events: seq<MidiEvent>, j: nat, k: nat)
    requires j < k < |SortTrack(events)|
    ensures Before(SortTrack(events)[j], SortTrack(events)[k])
  {
    TrackOrderTotal();
    SortIs(TrackOrder(), events);
    assert TrackOrder()(SortTrack(events)[j], SortTrack(events)[k]);
  }

  /** An end-of-track event pushed last, at or after every other event, and the only one of its
      kind, is written last. */
  lemma EndOfTrackLast(events: seq<MidiEvent>)
    requires events != [] && events[|events| - 1].kind == MetaEndOfTrack
    requires forall i | 0 <= i < |events| - 1 ::
               events[i].time <= events[|events| - 1].time && events[i].kind != MetaEndOfTrack
    ensures var s := SortTrack(events);
            && |s| == |events| && s[|s| - 1] == events[|events| - 1]
            && forall k | 0 <= k < |s| - 1 :: s[k].kind != MetaEndOfTrack
  {
    var body, s := events[..|events| - 1], SortTrack(events);
    TrackOrderTotal();
    LastStaysLast(TrackOrder(), events);
    SortIs(TrackOrder(), body);
    SortIs(TrackOrder(), events);
    var front := SortTrack(body);
    forall k | 0 <= k < |s| - 1 ensures s[k].kind != MetaEndOfTrack {
      assert s[k] == front[k];
      assert front[k] in multiset(body);
      assert front[k] in body;
    }
  }
}
