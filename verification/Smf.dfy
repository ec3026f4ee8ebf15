/** The Standard MIDI File writer, and a decoder that follows the file format's own description:
    header chunk, track chunks, variable-length quantities and events (RP-001, Standard MIDI Files 1.0). */
module Smf {
  import opened Wrappers
  import opened Sorting
  import opened MidiEvents

  // ---------------------------------------------------------------- variable-length quantities

  /** Groups of seven bits, most significant first, each with the continuation bit. */
  function HighGroups(v: nat): seq<byte> {
    if v == 0 then [] else HighGroups(v / 128) + [v % 128 + 128]
  }

  function VarLen(v: nat): seq<byte> { HighGroups(v / 128) + [v % 128] }

  /** Reads at most `n` bytes of a quantity. */
  function DecodeVarFrom(acc: nat, n: nat, bytes: seq<byte>): (r: Option<(nat, seq<byte>)>)
    ensures r.Some? ==> |r.value.1| < |bytes|
    decreases n, bytes
  {
    if n == 0 || bytes == [] then None
    else if bytes[0] < 128 then Some((acc * 128 + bytes[0], bytes[1..]))
    else DecodeVarFrom(acc * 128 + (bytes[0] - 128), n - 1, bytes[1..])
  }

  /** A quantity has at most four bytes. */
  function DecodeVar(bytes: seq<byte>): (r: Option<(nat, seq<byte>)>)
    ensures r.Some? ==> |r.value.1| < |bytes|
  {
    DecodeVarFrom(0, 4, bytes)
  }

  function Pow128(n: nat): (p: nat)
    ensures p > 0
  {
    if n == 0 then 1 else 128 * Pow128(n - 1)
  }

  /** The number of groups of a quantity. */
  lemma {:induction false} HighGroupsLength(v: nat, n: nat)
    ensures |HighGroups(v)| <= n <==> v < Pow128(n)
    decreases n
  {
    if v > 0 && n > 0 { HighGroupsLength(v / 128, n - 1); }
  }

  /** The four-byte buffer of the writer is enough exactly for quantities below 2^28. */
  lemma VarLenFits(v: nat)
    ensures |VarLen(v)| <= 4 <==> v < 0x1000_0000
  {
    HighGroupsLength(v / 128, 3);
    assert Pow128(3) == 128 * (128 * (128 * 1));
  }

  lemma {:induction false} DecodeGroups(v: nat, n: nat, m: nat, rest: seq<byte>)
    requires |HighGroups(v)| <= n && m == n - |HighGroups(v)|
    ensures DecodeVarFrom(0, n, HighGroups(v) + rest) == DecodeVarFrom(v, m, rest)
  {
    if v == 0 {
      assert HighGroups(v) + rest == rest;
    } else {
      var last: byte := v % 128 + 128;
      DecodeGroups(v / 128, n, m + 1, [last] + rest);
      assert HighGroups(v) + rest == HighGroups(v / 128) + ([last] + rest);
      assert ([last] + rest)[1..] == rest;
    }
  }

  /** Reading back a written quantity. */
  lemma VarLenRoundTrip(v: nat, rest: seq<byte>)
    requires v < 0x1000_0000
    ensures DecodeVar(VarLen(v) + rest) == Some((v, rest))
  {
    VarLenFits(v);
    var high := HighGroups(v / 128);
    DecodeGroups(v / 128, 4, 4 - |high|, [v % 128] + rest);
    assert VarLen(v) + rest == high + ([v % 128] + rest);
    assert ([v % 128] + rest)[1..] == rest;
  }

  lemma OneMoreGroup(a: nat, k: nat)
    requires k > 0
    ensures a * 128 * Pow128(k - 1) == a * Pow128(k)
  {
    var p := Pow128(k - 1);
    assert a * 128 * p == a * (128 * p);
  }

  lemma {:induction false} DecodedBelow(acc: nat, n: nat, bytes: seq<byte>)
    requires DecodeVarFrom(acc, n, bytes).Some?
    ensures var (v, rest) := DecodeVarFrom(acc, n, bytes).value;
            0 < |bytes| - |rest| <= n && v < (acc + 1) * Pow128(|bytes| - |rest|)
    decreases n
  {
    var (v, rest) := DecodeVarFrom(acc, n, bytes).value;
    if bytes[0] >= 128 {
      var acc1 := acc * 128 + (bytes[0] - 128);
      DecodedBelow(acc1, n - 1, bytes[1..]);
      var k := |bytes| - |rest|;
      MulMono(acc1 + 1, (acc + 1) * 128, Pow128(k - 1));
      OneMoreGroup(acc + 1, k);
    } else {
      assert Pow128(1) == 128 * Pow128(0);
    }
  }

  /** No other byte string for the same quantity is shorter. */
  lemma VarLenMinimal(v: nat, bytes: seq<byte>)
    requires DecodeVar(bytes) == Some((v, []))
    ensures |VarLen(v)| <= |bytes|
  {
    DecodedBelow(0, 4, bytes);
    var n := |bytes| - 1;
    assert Pow128(n + 1) == 128 * Pow128(n);
    assert v / 128 < Pow128(n);
    HighGroupsLength(v / 128, n);
  }

  function Backwards(s: seq<byte>): seq<byte> {
    if s == [] then [] else [s[|s| - 1]] + Backwards(s[..|s| - 1])
  }

  lemma BackwardsSnoc(s: seq<byte>, b: byte)
    ensures Backwards(s + [b]) == [b] + Backwards(s)
  {
    assert (s + [b])[..|s|] == s;
  }

  /** Moving one group from the quantity to the buffer. */
  lemma GroupMoves(v: nat, stored: seq<byte>)
    requires v > 0
    ensures HighGroups(v) + Backwards(stored) == HighGroups(v / 128) + Backwards(stored + [v % 128 + 128])
    ensures |HighGroups(v)| == |HighGroups(v / 128)| + 1
  {
    var group: byte := v % 128 + 128;
    BackwardsSnoc(stored, group);
    assert HighGroups(v) + Backwards(stored) == HighGroups(v / 128) + ([group] + Backwards(stored));
  }

  /** The writer fills a four-byte buffer from the low end and emits it backwards. */
  method WriteVarLen(sink: seq<byte>, value: nat) returns (grown: seq<byte>)
    requires value < 0x1000_0000
    ensures grown == sink + VarLen(value)
  {
    hide Backwards, HighGroups;
    VarLenFits(value);
    var buffer := new byte[4](_ => 0);
    var i: nat := 0;
    var v: nat := value / 128;
    buffer[0] := value % 128;
    ghost var goal := VarLen(value);
    FirstGroup(value);
    assert buffer[..1] == [value % 128];
    while v > 0
      invariant i + 1 + |HighGroups(v)| <= 4
      invariant goal == HighGroups(v) + Backwards(buffer[..i + 1])
      decreases v
    {
      GroupMoves(v, buffer[..i + 1]);
      i := i + 1;
      buffer[i] := v % 128 + 128;
      assert buffer[..i + 1] == buffer[..i] + [v % 128 + 128];
      v := v / 128;
    }
    NoGroups();
    assert goal == Backwards(buffer[..i + 1]);
    grown := sink;
    while true
      invariant 0 <= i < 4 && sink + goal == grown + Backwards(buffer[..i + 1])
      decreases i
    {
      assert buffer[..i + 1] == buffer[..i] + [buffer[i]];
      BackwardsSnoc(buffer[..i], buffer[i]);
      grown := grown + [buffer[i]];
      if i == 0 {
        assert buffer[..0] == [];
        NoGroups();
        break;
      }
      i := i - 1;
    }
  }

  lemma FirstGroup(value: nat)
    ensures VarLen(value) == HighGroups(value / 128) + Backwards([value % 128])
  {
    assert [value % 128][..0] == [];
    assert Backwards([value % 128]) == [value % 128] + [];
  }

  lemma NoGroups()
    ensures HighGroups(0) == [] && Backwards([]) == []
  {}

  // ---------------------------------------------------------------- the writer's bytes

  function U16(v: nat): seq<byte> { [v / 0x100 % 0x100, v % 0x100] }

  function U32(v: nat): seq<byte> { [v / 0x100_0000 % 0x100, v / 0x1_0000 % 0x100, v / 0x100 % 0x100, v % 0x100] }

  const MTHD: seq<byte> := [0x4D, 0x54, 0x68, 0x64]
  const MTRK: seq<byte> := [0x4D, 0x54, 0x72, 0x6B]

  /** Ticks since the last event, cut toward zero and never negative. */
  function Delta(time: real, last: real, tpq: nat): nat {
    var x := (time - last) * tpq as real;
    if x <= 0.0 then 0 else x.Floor
  }

  function Status(kind: EventKind): byte {
    match kind
    case NoteOn => 0x90
    case NoteOff => 0x80
    case ProgramChange => 0xC0
    case ControlChange => 0xB0
    case _ => 0xFF
  }

  function MetaType(kind: EventKind): byte {
    match kind
    case MetaTempo => 0x51
    case MetaTimeSignature => 0x58
    case MetaKeySignature => 0x59
    case MetaText => 0x01
    case _ => 0x2F
  }

  predicate IsMeta(kind: EventKind) {
    kind.MetaTempo? || kind.MetaTimeSignature? || kind.MetaKeySignature? || kind.MetaText? || kind.MetaEndOfTrack?
  }

  function EventBytes(ev: MidiEvent): seq<byte> {
    if ev.kind == MetaEndOfTrack then [0xFF, 0x2F, 0x00]
    else if IsMeta(ev.kind) then [0xFF, MetaType(ev.kind)] + VarLen(|ev.meta|) + ev.meta
    else if ev.kind == ProgramChange then [Status(ev.kind) + ev.channel % 16, ev.data1]
    else [Status(ev.kind) + ev.channel % 16, ev.data1, ev.data2]
  }

  function TrackData(events: seq<MidiEvent>, last: real, tpq: nat): seq<byte> {
    if events == [] then []
    else VarLen(Delta(events[0].time, last, tpq)) + EventBytes(events[0]) + TrackData(events[1..], events[0].time, tpq)
  }

  function Chunk(data: seq<byte>): seq<byte> { MTRK + U32(|data|) + data }

  function TrackBytes(events: seq<MidiEvent>, tpq: nat): seq<byte> { Chunk(TrackData(SortTrack(events), 0.0, tpq)) }

  function TracksBytes(tracks: seq<seq<MidiEvent>>, tpq: nat): seq<byte> {
    if tracks == [] then [] else TrackBytes(tracks[0], tpq) + TracksBytes(tracks[1..], tpq)
  }

  function Header(n: nat, tpq: nat): seq<byte> { MTHD + U32(6) + U16(1) + U16(n) + U16(tpq) }

  function FileBytes(tracks: seq<seq<MidiEvent>>, tpq: nat): seq<byte> {
    Header(|tracks|, tpq) + TracksBytes(tracks, tpq)
  }

  /** The payload of a meta event has a length that the four-byte buffer holds. */
  predicate PayloadFits(ev: MidiEvent) { IsMeta(ev.kind) && ev.kind != MetaEndOfTrack ==> |ev.meta| < 0x1000_0000 }

  /** Appends one event to the track data. */
  method WriteEvent(trackData: seq<byte>, ev: MidiEvent) returns (grown: seq<byte>)
    requires PayloadFits(ev)
    ensures grown == trackData + EventBytes(ev)
  {
    hide VarLen;
    if ev.kind == MetaEndOfTrack {
      grown := trackData + [0xFF] + [0x2F] + [0x00];
    } else if IsMeta(ev.kind) {
      grown := trackData + [0xFF] + [MetaType(ev.kind)];
      grown := WriteVarLen(grown, |ev.meta|);
      grown := grown + ev.meta;
    } else {
      grown := trackData + [Status(ev.kind) + ev.channel % 16] + [ev.data1];
      if ev.kind != ProgramChange { grown := grown + [ev.data2]; }
    }
  }

  /** Payloads and deltas that the four-byte buffer holds; otherwise the original panics. */
  ghost predicate Encodable(sorted: seq<MidiEvent>, last: real, tpq: nat) {
    forall k | 0 <= k < |sorted| ::
      PayloadFits(sorted[k]) && Delta(sorted[k].time, Prev(sorted, last, k), tpq) < 0x1000_0000
  }

  method WriteTimedEvent(trackData: seq<byte>, ev: MidiEvent, delta: nat) returns (grown: seq<byte>)
    requires PayloadFits(ev) && delta < 0x1000_0000
    ensures grown == trackData + (VarLen(delta) + EventBytes(ev))
  {
    grown := WriteVarLen(trackData, delta);
    grown := WriteEvent(grown, ev);
  }

  lemma TrackDataStep(done: seq<byte>, sorted: seq<MidiEvent>, k: nat, last: real, tpq: nat)
    requires k < |sorted|
    ensures done + TrackData(sorted[k..], last, tpq) ==
            done + (VarLen(Delta(sorted[k].time, last, tpq)) + EventBytes(sorted[k]))
                + TrackData(sorted[k + 1..], sorted[k].time, tpq)
  {
    assert sorted[k..][0] == sorted[k] && sorted[k..][1..] == sorted[k + 1..];
  }

  method WriteTrackData(sorted: seq<MidiEvent>, tpq: nat) returns (trackData: seq<byte>)
    requires Encodable(sorted, 0.0, tpq)
    ensures trackData == TrackData(sorted, 0.0, tpq)
  {
    trackData := [];
    var lastTime := 0.0;
    ghost var goal := TrackData(sorted, 0.0, tpq);
    assert sorted[0..] == sorted && trackData + goal == goal;
    for k := 0 to |sorted|
      invariant lastTime == Prev(sorted, 0.0, k)
      invariant goal == trackData + TrackData(sorted[k..], lastTime, tpq)
    {
      TrackDataStep(trackData, sorted, k, lastTime, tpq);
      trackData := WriteTimedEvent(trackData, sorted[k], Delta(sorted[k].time, lastTime, tpq));
      lastTime := sorted[k].time;
    }
    assert trackData + [] == trackData;
  }

  /** Sorts the events and appends their chunk. */
  method WriteTrack(sink: seq<byte>, events: seq<MidiEvent>, tpq: nat)
    returns (sorted: seq<MidiEvent>, grown: seq<byte>)
    requires Encodable(SortTrack(events), 0.0, tpq)
    ensures sorted == SortTrack(events) && grown == sink + TrackBytes(events, tpq)
  {
    hide U32, TrackData, SortTrack;
    sorted := SortTrack(events);
    var trackData := WriteTrackData(sorted, tpq);
    grown := sink + MTRK + U32(|trackData|) + trackData;
    assert grown == sink + (MTRK + U32(|trackData|) + trackData);
  }

  /** Every track can be written. */
  ghost predicate AllEncodable(tracks: seq<seq<MidiEvent>>, tpq: nat) {
    forall k | 0 <= k < |tracks| :: Encodable(SortTrack(tracks[k]), 0.0, tpq)
  }

  lemma TracksStep(done: seq<byte>, tracks: seq<seq<MidiEvent>>, k: nat, tpq: nat)
    requires k < |tracks|
    ensures done + TracksBytes(tracks[k..], tpq) == done + TrackBytes(tracks[k], tpq)
        + TracksBytes(tracks[k + 1..], tpq)
  {
    assert tracks[k..][0] == tracks[k] && tracks[k..][1..] == tracks[k + 1..];
  }

  method WriteSmf(tracks: seq<seq<MidiEvent>>, tpq: nat) returns (bytes: seq<byte>)
    requires AllEncodable(tracks, tpq)
    ensures bytes == FileBytes(tracks, tpq)
  {
    hide U32, U16, TrackBytes, TracksBytes;
    bytes := MTHD + U32(6) + U16(1) + U16(|tracks|) + U16(tpq);
    ghost var goal := FileBytes(tracks, tpq);
    assert tracks[0..] == tracks;
    for k := 0 to |tracks|
      invariant goal == bytes + TracksBytes(tracks[k..], tpq)
    {
      TracksStep(bytes, tracks, k, tpq);
      assert Encodable(SortTrack(tracks[k]), 0.0, tpq);
      var _, grown := WriteTrack(bytes, tracks[k], tpq);
      bytes := grown;
    }
    NoTracks(bytes, tpq);
    assert tracks[|tracks|..] == [];
  }

  lemma NoTracks(done: seq<byte>, tpq: nat)
    ensures done + TracksBytes([], tpq) == done
  {}

  // ---------------------------------------------------------------- the decoder

  datatype SmfEvent = ChannelEvent(status: nat, channel: nat, data: seq<byte>) | MetaEvent(kind: byte, data: seq<byte>)

  /** What one tick is: a part of a quarter note, or a part of a frame at so many frames a second. */
  datatype Division = PerQuarter(ticks: nat) | Smpte(framesPerSecond: nat, ticksPerFrame: nat)

  datatype SmfFile = SmfFile(format: nat, trackCount: nat, division: Division, tracks: seq<seq<(nat, SmfEvent)>>)

  /** The number of data bytes after a channel status. */
  function DataCount(status: nat): nat { if status == 0xC || status == 0xD then 1 else 2 }

  function DecodeEvent(bytes: seq<byte>): (r: Option<(SmfEvent, seq<byte>)>)
    ensures r.Some? ==> |r.value.1| < |bytes|
  {
    if bytes == [] then None
    else if bytes[0] == 0xFF then
      if |bytes| < 2 then None
      else match DecodeVar(bytes[2..])
        case None => None
        case Some((n, rest)) => if |rest| < n then None else Some((MetaEvent(bytes[1], rest[..n]), rest[n..]))
    else if 0x80 <= bytes[0] < 0xF0 then
      var n := DataCount(bytes[0] / 16);
      if |bytes| < 1 + n || (exists k | 1 <= k <= n :: bytes[k] >= 0x80) then None
      else Some((ChannelEvent(bytes[0] / 16, bytes[0] % 16, bytes[1..1 + n]), bytes[1 + n..]))
    else None
  }

  /** A track is a list of timed events that ends with, and only with, the end-of-track event. */
  function DecodeTrack(bytes: seq<byte>): Option<seq<(nat, SmfEvent)>>
    decreases |bytes|
  {
    match DecodeVar(bytes)
    case None => None
    case Some((delta, rest)) =>
      match DecodeEvent(rest)
      case None => None
      case Some((ev, rest1)) =>
        if ev == MetaEvent(0x2F, []) then (if rest1 == [] then Some([(delta, ev)]) else None)
        else match DecodeTrack(rest1)
          case None => None
          case Some(tail) => Some([(delta, ev)] + tail)
  }

  function ReadU16(b: seq<byte>): nat
    requires |b| >= 2
  {
    b[0] as int * 0x100 + b[1] as int
  }

  function ReadU32(b: seq<byte>): nat
    requires |b| >= 4
  {
    b[0] as int * 0x100_0000 + b[1] as int * 0x1_0000 + b[2] as int * 0x100 + b[3] as int
  }

  function DecodeTracks(n: nat, bytes: seq<byte>): Option<seq<seq<(nat, SmfEvent)>>>
    decreases n
  {
    if n == 0 then (if bytes == [] then Some([]) else None)
    else if |bytes| < 8 || bytes[..4] != MTRK then None
    else
      var len := ReadU32(bytes[4..8]);
      if |bytes| < 8 + len then None
      else match DecodeTrack(bytes[8..8 + len])
        case None => None
        case Some(track) =>
          match DecodeTracks(n - 1, bytes[8 + len..])
          case None => None
          case Some(tail) => Some([track] + tail)
  }

  /** With the top bit set the high byte is the negative of the frames per second. */
  function DecodeDivision(n: nat): Division
    requires n < 0x1_0000
  {
    if n < 0x8000 then PerQuarter(n) else Smpte(0x100 - n / 0x100, n % 0x100)
  }

  function DecodeFile(bytes: seq<byte>): Option<SmfFile> {
    if |bytes| < 14 || bytes[..4] != MTHD || ReadU32(bytes[4..8]) != 6 then None
    else
      var n := ReadU16(bytes[10..12]);
      match DecodeTracks(n, bytes[14..])
      case None => None
      case Some(tracks) => Some(SmfFile(ReadU16(bytes[8..10]), n, DecodeDivision(ReadU16(bytes[12..14])), tracks))
  }

  // ---------------------------------------------------------------- round trip

  /** What a track event is in a file: RP-001's numbers for the messages and the types of meta events. */
  function View(ev: MidiEvent): SmfEvent {
    match ev.kind
    case NoteOff => ChannelEvent(8, ev.channel % 16, [ev.data1, ev.data2])
    case NoteOn => ChannelEvent(9, ev.channel % 16, [ev.data1, ev.data2])
    case ControlChange => ChannelEvent(11, ev.channel % 16, [ev.data1, ev.data2])
    case ProgramChange => ChannelEvent(12, ev.channel % 16, [ev.data1])
    case MetaText => MetaEvent(0x01, ev.meta)
    case MetaEndOfTrack => MetaEvent(0x2F, [])
    case MetaTempo => MetaEvent(0x51, ev.meta)
    case MetaTimeSignature => MetaEvent(0x58, ev.meta)
    case MetaKeySignature => MetaEvent(0x59, ev.meta)
  }

  function TrackView(events: seq<MidiEvent>, last: real, tpq: nat): seq<(nat, SmfEvent)> {
    if events == [] then []
    else [(Delta(events[0].time, last, tpq), View(events[0]))] + TrackView(events[1..], events[0].time, tpq)
  }

  /** Data bytes have the top bit clear. */
  predicate DataOk(ev: MidiEvent) {
    IsMeta(ev.kind) || (ev.data1 < 0x80 && (ev.kind == ProgramChange || ev.data2 < 0x80))
  }

  lemma EotRoundTrip(ev: MidiEvent, rest: seq<byte>)
    requires ev.kind == MetaEndOfTrack
    ensures DecodeEvent(EventBytes(ev) + rest) == Some((View(ev), rest))
  {
    var bytes := EventBytes(ev) + rest;
    var zero: seq<byte> := [0];
    assert bytes[0] == 0xFF && bytes[1] == 0x2F;
    assert bytes[2..] == zero + rest;
    assert (zero + rest)[1..] == rest && rest[0..] == rest;
    assert DecodeVar(bytes[2..]) == Some((0, rest));
  }

  lemma MetaRoundTrip(ev: MidiEvent, rest: seq<byte>)
    requires PayloadFits(ev) && IsMeta(ev.kind) && ev.kind != MetaEndOfTrack
    ensures DecodeEvent(EventBytes(ev) + rest) == Some((View(ev), rest))
  {
    hide DecodeVar, VarLen;
    var bytes := EventBytes(ev) + rest;
    var n, body := |ev.meta|, ev.meta + rest;
    VarLenRoundTrip(n, body);
    assert bytes == [0xFF, MetaType(ev.kind)] + (VarLen(n) + body);
    assert bytes[0] == 0xFF && bytes[1] == MetaType(ev.kind);
    assert bytes[2..] == VarLen(n) + body;
    assert body[..n] == ev.meta && body[n..] == rest;
  }

  lemma ChannelRoundTrip(ev: MidiEvent, rest: seq<byte>)
    requires !IsMeta(ev.kind)
    ensures DecodeEvent(EventBytes(ev) + rest) == if DataOk(ev) then Some((View(ev), rest)) else None
  {
    var bytes := EventBytes(ev) + rest;
    var data := if ev.kind == ProgramChange then [ev.data1] else [ev.data1, ev.data2];
    var n := |data|;
    var status: int := Status(ev.kind);
    var ch := ev.channel % 16;
    assert bytes[0] == status + ch && (status + ch) / 16 == status / 16 && (status + ch) % 16 == ch;
    assert n == DataCount(bytes[0] / 16);
    assert bytes[1] == ev.data1 && (n == 2 ==> bytes[2] == ev.data2);
    assert bytes[1..1 + n] == data && bytes[1 + n..] == rest;
    if !DataOk(ev) {
      var k := if ev.data1 >= 0x80 then 1 else 2;
      assert bytes[k] >= 0x80;
    }
  }

  /** An event is read back exactly when its data bytes are below 128: the writer does not mask them. */
  lemma EventRoundTrip(ev: MidiEvent, rest: seq<byte>)
    requires PayloadFits(ev)
    ensures DecodeEvent(EventBytes(ev) + rest) == if DataOk(ev) then Some((View(ev), rest)) else None
  {
    if ev.kind == MetaEndOfTrack { EotRoundTrip(ev, rest); }
    else if IsMeta(ev.kind) { MetaRoundTrip(ev, rest); }
    else { ChannelRoundTrip(ev, rest); }
  }

  /** The time of the event before the k-th. */
  function Prev(events: seq<MidiEvent>, last: real, k: nat): real
    requires k <= |events|
  {
    if k == 0 then last else events[k - 1].time
  }

  /** End-of-track at the end and only there. */
  ghost predicate WellEnded(events: seq<MidiEvent>) {
    events != [] && forall k | 0 <= k < |events| :: events[k].kind == MetaEndOfTrack <==> k == |events| - 1
  }

  ghost predicate AllDataOk(events: seq<MidiEvent>) { forall k | 0 <= k < |events| :: DataOk(events[k]) }

  /** One timed event at the front of a track. */
  lemma TimedEventRoundTrip(delta: nat, ev: MidiEvent, tail: seq<byte>)
    requires delta < 0x1000_0000 && PayloadFits(ev)
    ensures DecodeTrack(VarLen(delta) + (EventBytes(ev) + tail)) ==
            if !DataOk(ev) then None
            else if ev.kind == MetaEndOfTrack then (if tail == [] then Some([(delta, View(ev))]) else None)
            else match DecodeTrack(tail)
              case None => None
              case Some(more) => Some([(delta, View(ev))] + more)
  {
    hide DecodeVar, DecodeEvent, VarLen, EventBytes;
    VarLenRoundTrip(delta, EventBytes(ev) + tail);
    EventRoundTrip(ev, tail);
    assert View(ev) == MetaEvent(0x2F, []) <==> ev.kind == MetaEndOfTrack;
  }

  lemma TrackDataEmpty(events: seq<MidiEvent>, last: real, tpq: nat)
    ensures TrackData(events, last, tpq) == [] <==> events == []
  {
    hide Delta, EventBytes;
  }

  lemma NothingToDecode()
    ensures DecodeTrack([]).None?
  {
    assert DecodeVar([]).None?;
  }

  /** What a track that can be written is read back as: its deltas and events if its end-of-track event
      stands at the end and only there and all its data bytes are below 128, and an error otherwise. */
  lemma {:induction false} TrackRoundTrip(events: seq<MidiEvent>, last: real, tpq: nat)
    requires Encodable(events, last, tpq)
    ensures DecodeTrack(TrackData(events, last, tpq)) ==
            if WellEnded(events) && AllDataOk(events) then Some(TrackView(events, last, tpq)) else None
    decreases |events|
  {
    hide Delta, EventBytes, VarLen, DecodeTrack, DataOk, PayloadFits;
    if events == [] {
      NothingToDecode();
    } else {
      var ev, rest := events[0], events[1..];
      var delta, tail := Delta(ev.time, last, tpq), TrackData(rest, ev.time, tpq);
      assert Prev(events, last, 0) == last;
      assert TrackData(events, last, tpq) == VarLen(delta) + (EventBytes(ev) + tail);
      TimedEventRoundTrip(delta, ev, tail);
      TrackDataEmpty(rest, ev.time, tpq);
      EncodableTail(events, last, tpq);
      TrackRoundTrip(rest, ev.time, tpq);
      assert TrackView(events, last, tpq) == [(delta, View(ev))] + TrackView(rest, ev.time, tpq);
      GoodTail(events);
      if rest == [] { assert [(delta, View(ev))] + [] == [(delta, View(ev))]; }
    }
  }

  lemma GoodTail(events: seq<MidiEvent>)
    requires events != []
    ensures AllDataOk(events) <==> DataOk(events[0]) && AllDataOk(events[1..])
    ensures WellEnded(events) <==> if events[0].kind == MetaEndOfTrack then |events| == 1 else WellEnded(events[1..])
  {
    hide DataOk;
    var rest := events[1..];
    assert forall k | 1 <= k < |events| :: events[k] == rest[k - 1];
    if AllDataOk(events) { assert forall k | 0 <= k < |rest| :: rest[k] == events[k + 1]; }
    if WellEnded(events) && |events| > 1 {
      forall k | 0 <= k < |rest| ensures rest[k].kind == MetaEndOfTrack <==> k == |rest| - 1 {
        assert rest[k] == events[k + 1];
      }
    }
  }

  lemma EncodableTail(events: seq<MidiEvent>, last: real, tpq: nat)
    requires Encodable(events, last, tpq) && events != []
    ensures Encodable(events[1..], events[0].time, tpq)
  {
    hide PayloadFits, Delta;
    var rest := events[1..];
    forall k | 0 <= k < |rest|
      ensures PayloadFits(rest[k]) && Delta(rest[k].time, Prev(rest, events[0].time, k), tpq) < 0x1000_0000
    {
      assert rest[k] == events[k + 1] && Prev(rest, events[0].time, k) == Prev(events, last, k + 1);
    }
  }

  lemma U32RoundTrip(v: nat)
    requires v < 0x1_0000_0000
    ensures ReadU32(U32(v)) == v
  {
    var a := v / 0x100;
    var b := a / 0x100;
    var c := b / 0x100;
    assert b == v / 0x1_0000 && c == v / 0x100_0000 && c < 0x100;
    assert v == 0x100 * a + v % 0x100 && a == 0x100 * b + a % 0x100 && b == 0x100 * c + b % 0x100;
  }

  /** One chunk at the front. */
  lemma ChunkFront(data: seq<byte>, tail: seq<byte>)
    requires |data| < 0x1_0000_0000
    ensures var bytes := Chunk(data) + tail;
            && |bytes| == 8 + |data| + |tail| && bytes[..4] == MTRK && ReadU32(bytes[4..8]) == |data|
            && bytes[8..8 + |data|] == data && bytes[8 + |data|..] == tail
  {
    U32RoundTrip(|data|);
    var bytes := Chunk(data) + tail;
    assert bytes[..4] == MTRK;
    assert bytes[4..8] == U32(|data|);
  }

  function TrackViews(tracks: seq<seq<MidiEvent>>, tpq: nat): seq<seq<(nat, SmfEvent)>> {
    if tracks == [] then [] else [TrackView(SortTrack(tracks[0]), 0.0, tpq)] + TrackViews(tracks[1..], tpq)
  }

  /** The length of every track fits the four bytes of its chunk. */
  ghost predicate AllShort(tracks: seq<seq<MidiEvent>>, tpq: nat) {
    forall k | 0 <= k < |tracks| :: |TrackData(SortTrack(tracks[k]), 0.0, tpq)| < 0x1_0000_0000
  }

  /** Every track, as written, ends with its end-of-track event and has no data byte above 127. */
  ghost predicate AllGood(tracks: seq<seq<MidiEvent>>) {
    forall k | 0 <= k < |tracks| :: WellEnded(SortTrack(tracks[k])) && AllDataOk(SortTrack(tracks[k]))
  }

  lemma DecodeTracksStep(n: nat, data: seq<byte>, tail: seq<byte>)
    requires |data| < 0x1_0000_0000 && n > 0
    ensures DecodeTracks(n, Chunk(data) + tail) ==
            if DecodeTrack(data).None? then None
            else match DecodeTracks(n - 1, tail)
              case None => None
              case Some(more) => Some([DecodeTrack(data).value] + more)
  {
    hide DecodeTrack;
    ChunkFront(data, tail);
  }

  lemma {:induction false} TracksRoundTrip(tracks: seq<seq<MidiEvent>>, tpq: nat)
    requires AllEncodable(tracks, tpq) && AllShort(tracks, tpq)
    ensures DecodeTracks(|tracks|, TracksBytes(tracks, tpq)) ==
            if AllGood(tracks) then Some(TrackViews(tracks, tpq)) else None
    decreases |tracks|
  {
    hide Encodable, WellEnded, AllDataOk, DecodeTracks, DecodeTrack, TrackData, TrackView, SortTrack, Chunk;
    if tracks == [] {
      NoTracksToDecode();
    } else {
      var first, rest := SortTrack(tracks[0]), tracks[1..];
      var data, tail := TrackData(first, 0.0, tpq), TracksBytes(rest, tpq);
      assert Encodable(first, 0.0, tpq) && |data| < 0x1_0000_0000;
      TrackRoundTrip(first, 0.0, tpq);
      assert forall k | 0 <= k < |rest| :: rest[k] == tracks[k + 1];
      TracksRoundTrip(rest, tpq);
      DecodeTracksStep(|rest| + 1, data, tail);
      assert AllGood(tracks) <==> WellEnded(first) && AllDataOk(first) && AllGood(rest) by {
        assert forall k | 1 <= k < |tracks| :: tracks[k] == rest[k - 1];
      }
    }
  }

  lemma NoTracksToDecode()
    ensures DecodeTracks(0, []) == Some([])
  {}

  lemma HeaderFront(n: nat, tpq: nat, tail: seq<byte>)
    requires n < 0x1_0000
    ensures var bytes := Header(n, tpq) + tail;
            && |bytes| == 14 + |tail| && bytes[..4] == MTHD && ReadU32(bytes[4..8]) == 6 && ReadU16(bytes[8..10]) == 1
            && ReadU16(bytes[10..12]) == n && ReadU16(bytes[12..14]) == tpq % 0x1_0000 && bytes[14..] == tail
  {
    var bytes := Header(n, tpq) + tail;
    assert bytes[..4] == MTHD;
    assert bytes[4..8] == [0, 0, 0, 6];
    assert bytes[8..10] == [0, 1];
    assert bytes[10..12] == U16(n);
    assert bytes[12..14] == U16(tpq);
  }

  /** The chunk types in letters, and the fixed fields of the header. */
  lemma HeaderBytes(tracks: seq<seq<MidiEvent>>, tpq: nat)
    ensures |MTHD| == |MTRK| == 4
    ensures forall i | 0 <= i < 4 :: MTHD[i] as int == "MThd"[i] as int && MTRK[i] as int == "MTrk"[i] as int
    ensures FileBytes(tracks, tpq)[4..10] == [0, 0, 0, 6, 0, 1]
  {
    assert Header(|tracks|, tpq)[4..10] == [0, 0, 0, 6, 0, 1];
  }

  /** A division of quarter notes has the top bit clear. */
  lemma QuarterForm(n: nat)
    requires n < 0x1_0000
    ensures if n < 0x8000 then DecodeDivision(n) == PerQuarter(n) else DecodeDivision(n).Smpte?
  {}

  /** The frame rates of SMPTE time. */
  lemma SmpteForms(framesPerSecond: nat, ticksPerFrame: nat)
    requires framesPerSecond in {24, 25, 29, 30} && ticksPerFrame < 0x100
    ensures DecodeDivision((0x100 - framesPerSecond) * 0x100 + ticksPerFrame) == Smpte(framesPerSecond, ticksPerFrame)
  {}

  /** What a written file is read back as: the format, the track count, the division and, for every
      track, the ticks and the events in written order, if every track is good, and an error otherwise.
      The division keeps its low 16 bits, and is one of quarter notes if the top one is clear. */
  lemma FileRoundTrip(tracks: seq<seq<MidiEvent>>, tpq: nat)
    requires |tracks| < 0x1_0000
    requires AllEncodable(tracks, tpq) && AllShort(tracks, tpq)
    ensures DecodeFile(FileBytes(tracks, tpq)) ==
            if AllGood(tracks) then Some(SmfFile(1, |tracks|, DecodeDivision(tpq % 0x1_0000), TrackViews(tracks, tpq)))
            else None
  {
    hide DecodeTracks, TracksBytes, AllGood, AllEncodable, AllShort, TrackViews;
    TracksRoundTrip(tracks, tpq);
    HeaderFront(|tracks|, tpq, TracksBytes(tracks, tpq));
  }

  /** The data bytes of a track do not depend on its order. */
  lemma SortedData(events: seq<MidiEvent>)
    ensures AllDataOk(SortTrack(events)) <==> AllDataOk(events)
  {
    hide DataOk, SortTrack;
    var s := SortTrack(events);
    SortedMembers(events);
    if AllDataOk(s) {
      forall k | 0 <= k < |events| ensures DataOk(events[k]) {
        assert events[k] in s;
      }
    }
    if AllDataOk(events) {
      forall k | 0 <= k < |s| ensures DataOk(s[k]) {
        assert s[k] in events;
      }
    }
  }

  /** One loud track: a pitch above 127, which the writer takes as it is. */
  function LoudTrack(pitch: byte): seq<MidiEvent> {
    [MidiEvent(NoteOn, 0.0, 0, pitch, 64, []), MidiEvent(MetaEndOfTrack, 0.0, 0, 0, 0, [])]
  }

  /** The file of such a track is written, and cannot be read. */
  lemma LoudUnreadable(pitch: byte, tpq: nat)
    ensures AllEncodable([LoudTrack(pitch)], tpq) && AllShort([LoudTrack(pitch)], tpq)
    ensures DecodeFile(FileBytes([LoudTrack(pitch)], tpq)).Some? <==> pitch < 0x80
  {
    hide DecodeFile, FileBytes, TrackData;
    var track := LoudTrack(pitch);
    LoudSorted(pitch);
    LoudBytes(pitch, tpq);
    OneTrackGood(track);
    assert DataOk(track[0]) <==> pitch < 0x80;
    FileRoundTrip([track], tpq);
  }

  lemma OneTrackGood(track: seq<MidiEvent>)
    ensures AllGood([track]) <==> WellEnded(SortTrack(track)) && AllDataOk(SortTrack(track))
  {
    hide WellEnded, AllDataOk, SortTrack;
    assert [track][0] == track;
    if AllGood([track]) { assert WellEnded(SortTrack([track][0])); }
  }

  lemma LoudSorted(pitch: byte)
    ensures SortTrack(LoudTrack(pitch)) == LoudTrack(pitch)
  {
    var t := LoudTrack(pitch);
    assert t[..1] == [t[0]] && t[..1][..0] == [];
    assert StableSort(TrackOrder(), t[..1]) == [t[0]];
    assert TrackOrder()(t[0], t[1]);
    assert Insert(TrackOrder(), [t[0]], t[1]) == [t[0]] + [t[1]];
  }

  lemma LoudBytes(pitch: byte, tpq: nat)
    ensures Encodable(LoudTrack(pitch), 0.0, tpq) && |TrackData(LoudTrack(pitch), 0.0, tpq)| < 0x1_0000_0000
  {
    var t := LoudTrack(pitch);
    assert Delta(0.0, 0.0, tpq) == 0;
    assert t[1..] == [t[1]] && t[1..][1..] == [];
    assert |VarLen(0)| == 1;
    assert TrackData([], 0.0, tpq) == [];
    assert |TrackData(t[1..], 0.0, tpq)| == 4;
  }
}
