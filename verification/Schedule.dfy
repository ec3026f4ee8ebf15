/** Compilation of a tune's tracks into the event list that the runtime plays. */
module Schedule {
  import opened Sorting
  import opened MidiEvents
  import opened TempoMap
  import Channels
  import MidiTable

  datatype Scheduled = Scheduled(ev: MidiTable.Event, order: nat)

  function Ns(time: real, segments: seq<Segment>): nat
    requires segments != []
  {
    var x := ValueAt(segments, if time < 0.0 then 0.0 else time);
    if x < 0.0 then 0 else x.Floor
  }

  /** The short message of a track event; meta events and events without a channel have none. */
  function Message(ev: MidiEvent, segments: seq<Segment>): seq<Scheduled>
    requires segments != []
  {
    if !(0 <= ev.channel <= 15) then []
    else
      match ev.kind
      case NoteOn => [Timed(ev, 0x90, segments)]
      case NoteOff => [Timed(ev, 0x80, segments)]
      case ProgramChange => [Timed(ev, 0xC0, segments)]
      case ControlChange => [Timed(ev, 0xB0, segments)]
      case _ => []
  }

  function Timed(ev: MidiEvent, status: int, segments: seq<Segment>): Scheduled
    requires segments != [] && 0 <= ev.channel
  {
    Scheduled(MidiTable.Event(Ns(ev.time, segments), ev.channel, status, ev.data1, ev.data2), Priority(ev.kind))
  }

  function Messages(events: seq<MidiEvent>, segments: seq<Segment>): seq<Scheduled>
    requires segments != []
  {
    if events == [] then [] else Messages(events[..|events| - 1], segments) + Message(events[|events| - 1], segments)
  }

  function AllMessages(tracks: seq<seq<MidiEvent>>, segments: seq<Segment>): seq<Scheduled>
    requires segments != []
  {
    if tracks == [] then []
    else AllMessages(tracks[..|tracks| - 1], segments) + Messages(SortTrack(tracks[|tracks| - 1]), segments)
  }

  /** By time, then by priority, channel, status and data. */
  predicate NotAfter(a: Scheduled, b: Scheduled) {
    if a.ev.timeNs != b.ev.timeNs then a.ev.timeNs < b.ev.timeNs
    else if a.order != b.order then a.order < b.order
    else if a.ev.channel != b.ev.channel then a.ev.channel < b.ev.channel
    else if a.ev.status != b.ev.status then a.ev.status < b.ev.status
    else if a.ev.data1 != b.ev.data1 then a.ev.data1 < b.ev.data1
    else a.ev.data2 <= b.ev.data2
  }

  function PlayOrder(): (Scheduled, Scheduled) -> bool { (a: Scheduled, b: Scheduled) => NotAfter(a, b) }

  lemma PlayOrderTotal()
    ensures TotalPreorder(PlayOrder())
  {}

  /** Earlier in the first place where two keys differ, or nowhere different. */
  predicate Lexicographic(a: seq<int>, b: seq<int>) {
    a == [] || (b != [] && (a[0] < b[0] || (a[0] == b[0] && Lexicographic(a[1..], b[1..]))))
  }

  function Key(x: Scheduled): seq<int> {
    [x.ev.timeNs, x.order, x.ev.channel, x.ev.status, x.ev.data1, x.ev.data2]
  }

  /** The order of play is that of time, priority, channel, status and data, the first that differs deciding; only
      equal messages are tied. */
  lemma PlayOrderIs(a: Scheduled, b: Scheduled)
    ensures NotAfter(a, b) <==> Lexicographic(Key(a), Key(b))
    ensures NotAfter(a, b) && NotAfter(b, a) ==> a == b
  {
    var x, y := Key(a), Key(b);
    LexicographicFrom(x, y, 0);
    LexicographicFrom(x, y, 1);
    LexicographicFrom(x, y, 2);
    LexicographicFrom(x, y, 3);
    LexicographicFrom(x, y, 4);
    LexicographicFrom(x, y, 5);
    assert x[6..] == [] && x[0..] == x && y[0..] == y;
  }

  lemma LexicographicFrom(a: seq<int>, b: seq<int>, k: nat)
    requires k < |a| == |b|
    ensures Lexicographic(a[k..], b[k..]) <==> a[k] < b[k] || (a[k] == b[k] && Lexicographic(a[k + 1..], b[k + 1..]))
  {
    assert a[k..][0] == a[k] && b[k..][0] == b[k] && a[k..][1..] == a[k + 1..] && b[k..][1..] == b[k + 1..];
  }

  function Events(list: seq<Scheduled>): seq<MidiTable.Event> {
    seq(|list|, i requires 0 <= i < |list| => list[i].ev)
  }

  method ShortMessage(ev: MidiEvent, segments: seq<Segment>) returns (m: seq<Scheduled>)
    requires segments != []
    ensures m == Message(ev, segments)
  {
    if !(0 <= ev.channel <= 15) { return []; }
    var status;
    match ev.kind {
      case NoteOn => status := 0x90;
      case NoteOff => status := 0x80;
      case ProgramChange => status := 0xC0;
      case ControlChange => status := 0xB0;
      case _ => return [];
    }
    var ns := BeatToNs(if ev.time < 0.0 then 0.0 else ev.time, segments);
    m := [Scheduled(MidiTable.Event(ns, ev.channel, status, ev.data1, ev.data2), Priority(ev.kind))];
  }

  method CollectTrack(track: seq<MidiEvent>, segments: seq<Segment>, list: seq<Scheduled>)
    returns (grown: seq<Scheduled>)
    requires segments != []
    ensures grown == list + Messages(track, segments)
  {
    hide Message;
    grown := list;
    for k := 0 to |track|
      invariant grown == list + Messages(track[..k], segments)
    {
      assert track[..k + 1][..k] == track[..k];
      var message := ShortMessage(track[k], segments);
      grown := grown + message;
    }
    assert track[..|track|] == track;
  }

  lemma {:induction false} ChannelsInRange(events: seq<MidiEvent>, segments: seq<Segment>)
    requires segments != []
    ensures forall k | 0 <= k < |Messages(events, segments)| :: Messages(events, segments)[k].ev.channel < 16
  {
    if events != [] { ChannelsInRange(events[..|events| - 1], segments); }
  }

  lemma {:induction false} AllChannelsInRange(tracks: seq<seq<MidiEvent>>, segments: seq<Segment>)
    requires segments != []
    ensures forall k | 0 <= k < |AllMessages(tracks, segments)| :: AllMessages(tracks, segments)[k].ev.channel < 16
  {
    if tracks != [] {
      AllChannelsInRange(tracks[..|tracks| - 1], segments);
      ChannelsInRange(SortTrack(tracks[|tracks| - 1]), segments);
    }
  }

  function SegmentsOf(defaultBpm: int, tracks: seq<seq<MidiEvent>>): (s: seq<Segment>)
    requires tracks != []
    ensures s != []
  {
    var bpm := if defaultBpm < 1 then 1 else defaultBpm;
    SegmentsShape(tracks[0], bpm, 0.0, 0.0);
    Build(tracks[0], bpm, 0.0, 0.0)
  }

  /** Every message of every track, in play order. */
  function CompiledList(defaultBpm: int, tracks: seq<seq<MidiEvent>>): seq<Scheduled>
    requires tracks != []
  {
    StableSort(PlayOrder(), AllMessages(tracks, SegmentsOf(defaultBpm, tracks)))
  }

  method CollectTracks(tracks: seq<seq<MidiEvent>>, segments: seq<Segment>) returns (all: seq<Scheduled>)
    requires segments != []
    ensures all == AllMessages(tracks, segments)
  {
    hide SortTrack, Messages;
    all := [];
    for k := 0 to |tracks|
      invariant all == AllMessages(tracks[..k], segments)
    {
      ghost var upto := tracks[..k + 1];
      assert upto[..k] == tracks[..k];
      all := CollectTrack(SortTrack(tracks[k]), segments, all);
    }
    assert tracks[..|tracks|] == tracks;
  }

  /** The events are the messages of all tracks in play order; the mask names exactly the channels
      that occur. */
  method CompileAsset(defaultBpm: int, tracks: seq<seq<MidiEvent>>) returns (asset: MidiTable.Asset)
    requires tracks != []
    ensures asset.events == Events(CompiledList(defaultBpm, tracks))
    ensures forall c :: c in asset.mask <==> exists k :: 0 <= k < |asset.events| && asset.events[k].channel == c
  {
    var segments := BuildTempoSegments(defaultBpm, tracks[0]);
    assert segments == SegmentsOf(defaultBpm, tracks);
    var all := CollectTracks(tracks, segments);
    var sorted := StableSort(PlayOrder(), all);
    var events := Events(sorted);
    var mask := ChannelMask(events);
    asset := MidiTable.Asset(mask, events);
  }

  method ChannelMask(list: seq<MidiTable.Event>) returns (mask: set<int>)
    ensures forall c :: c in mask <==> exists k :: 0 <= k < |list| && list[k].channel == c
  {
    mask := {};
    for k := 0 to |list|
      invariant forall c :: c in mask <==> exists i :: 0 <= i < k && list[i].channel == c
    {
      mask := mask + {list[k].channel};
    }
  }

  /** What is compiled depends on the messages alone, not on the order in which the tracks are collected. */
  lemma CompiledOnce(a: seq<Scheduled>, b: seq<Scheduled>)
    requires multiset(a) == multiset(b)
    ensures StableSort(PlayOrder(), a) == StableSort(PlayOrder(), b)
  {
    PlayOrderTotal();
    SortIs(PlayOrder(), a);
    SortIs(PlayOrder(), b);
    forall x: Scheduled, y: Scheduled | PlayOrder()(x, y) && PlayOrder()(y, x) ensures x == y { PlayOrderIs(x, y); }
    SortedOnce(PlayOrder(), StableSort(PlayOrder(), a), StableSort(PlayOrder(), b));
  }

  /** A compiled asset is what the runtime expects: its mask covers its events, which are in time
      order. No message is lost or added by the sort. */
  lemma {:induction false} CompiledWellFormed(defaultBpm: int, tracks: seq<seq<MidiEvent>>, asset: MidiTable.Asset)
    requires tracks != []
    requires asset.events == Events(CompiledList(defaultBpm, tracks))
    requires forall c :: c in asset.mask <==> exists k :: 0 <= k < |asset.events| && asset.events[k].channel == c
    ensures MidiTable.WellFormed(asset)
    ensures multiset(CompiledList(defaultBpm, tracks)) == multiset(AllMessages(tracks, SegmentsOf(defaultBpm, tracks)))
  {
    var all, sorted := AllMessages(tracks, SegmentsOf(defaultBpm, tracks)), CompiledList(defaultBpm, tracks);
    AllChannelsInRange(tracks, SegmentsOf(defaultBpm, tracks));
    PlayOrderTotal();
    SortIs(PlayOrder(), all);
    forall k | 0 <= k < |sorted| ensures sorted[k].ev.channel < 16 {
      assert sorted[k] in multiset(all);
      assert sorted[k] in all;
    }
    forall j, k | 0 <= j < k < |sorted| ensures asset.events[j].timeNs <= asset.events[k].timeNs {
      assert PlayOrder()(sorted[j], sorted[k]);
    }
  }
}
