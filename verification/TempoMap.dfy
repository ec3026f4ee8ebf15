/** The tempo track and the map from beats to nanoseconds. */
module TempoMap {
  import opened Wrappers
  import opened Sorting
  import opened MidiEvents
  import opened NoteTracks

  // ---------------------------------------------------------------- tempo events

  function Mpq(bpm: int): nat { 60_000_000 / if bpm < 1 then 1 else bpm }

  function TempoMeta(bpm: int): seq<byte> {
    [Mpq(bpm) / 0x1_0000 % 0x100, Mpq(bpm) / 0x100 % 0x100, Mpq(bpm) % 0x100]
  }

  function ExtractBpm(meta: seq<byte>, fallback: int): int {
    if |meta| < 3 then fallback
    else
      var mpq := meta[0] as int * 0x1_0000 + meta[1] as int * 0x100 + meta[2] as int;
      if mpq == 0 then fallback
      else if 60_000_000 / mpq < 1 then 1
      else 60_000_000 / mpq
  }

  /** The tempo that a value in microseconds per beat stands for. */
  function BpmOf(mpq: nat, fallback: int): int {
    if mpq == 0 then fallback else if 60_000_000 / mpq < 1 then 1 else 60_000_000 / mpq
  }

  /** One byte off the low end. */
  lemma ByteOff(m: nat) returns (q: nat, z: nat)
    ensures q == m / 0x100 && z == m % 0x100 && m == 0x100 * q + z && z < 0x100
  {
    q, z := m / 0x100, m % 0x100;
  }

  lemma ByteTwice(m: nat)
    ensures m / 0x100 / 0x100 == m / 0x1_0000
  {}

  lemma LowBytes(m: nat, h: nat, x: nat)
    requires m == 0x100_0000 * h + x && x < 0x100_0000
    ensures m % 0x100_0000 == x
  {}

  lemma ThreeBytes(m: nat)
    ensures m / 0x1_0000 % 0x100 * 0x1_0000 + m / 0x100 % 0x100 * 0x100 + m % 0x100 == m % 0x100_0000
  {
    var b, z := ByteOff(m);
    var a, y := ByteOff(b);
    var h, x := ByteOff(a);
    ByteTwice(m);
    LowBytes(m, h, 0x1_0000 * x + 0x100 * y + z);
  }

  lemma ExtractPushed(bpm: int, fallback: int)
    ensures ExtractBpm(TempoMeta(bpm), fallback) == BpmOf(Mpq(bpm) % 0x100_0000, fallback)
  {
    ThreeBytes(Mpq(bpm));
  }

  lemma Divided(n: nat, b: nat) returns (q: nat, r: nat)
    requires b > 0
    ensures q == n / b && r == n % b && n == q * b + r && r < b
  {
    q, r := n / b, n % b;
  }

  /** Dividing by the quotient gives the divisor back exactly when the remainder is below it. */
  lemma DivBack(n: nat, b: nat, q: nat, r: nat)
    requires n == q * b + r && r < b && q >= 1
    ensures n / q == b <==> r < q
  {
    var d, e := Divided(n, q);
    var low, high := if d < b then d + 1 else b, if d > b then d else b + 1;
    MulMono(low, b, q);
    MulMono(b + 1, high, q);
    if r < q {
      if d < b { assert false; }
      if d > b { assert false; }
    } else if d == b {
      assert false;
    }
  }

  lemma SlowTempoLost(bpm: int, fallback: int)
    requires bpm <= 3
    ensures BpmOf(Mpq(bpm) % 0x100_0000, fallback) == if bpm == 2 then 4 else if bpm == 3 then 18 else 6
  {
    if bpm == 3 { assert Mpq(bpm) == 20_000_000; }
    else if bpm == 2 { assert Mpq(bpm) == 30_000_000; }
    else { assert Mpq(bpm) == 60_000_000; }
  }

  /** Which tempos come back from a tempo event: one below 1 is written as 1, below 4 the three bytes
      overflow, above sixty million they are zero, and in between the two divisions must undo each other. */
  lemma TempoSurvives(bpm: int, fallback: int)
    ensures ExtractBpm(TempoMeta(bpm), fallback) == bpm <==>
              if bpm > 60_000_000 then fallback == bpm else bpm >= 4 && 60_000_000 % bpm < 60_000_000 / bpm
  {
    hide ExtractBpm, TempoMeta;
    ExtractPushed(bpm, fallback);
    if bpm <= 3 {
      SlowTempoLost(bpm, fallback);
    } else {
      TempoSurvivesFrom4(bpm, fallback);
    }
  }

  lemma TempoSurvivesFrom4(bpm: int, fallback: int)
    requires bpm >= 4
    ensures BpmOf(Mpq(bpm) % 0x100_0000, fallback) == bpm <==>
              if bpm > 60_000_000 then fallback == bpm else 60_000_000 % bpm < 60_000_000 / bpm
  {
    var n: nat := 60_000_000;
    var q, r := Divided(n, bpm);
    MulMono(4, bpm, q);
    assert q <= 15_000_000;
    if bpm <= n {
      if q == 0 { assert false; }
      DivBack(n, bpm, q, r);
    } else {
      if q > 0 { MulMono(1, q, bpm); assert false; }
    }
  }

  /** In particular every tempo from 4 to 7745. */
  lemma UsualTempoSurvives(bpm: int, fallback: int)
    requires 4 <= bpm <= 7745
    ensures ExtractBpm(TempoMeta(bpm), fallback) == bpm
  {
    TempoSurvives(bpm, fallback);
    var q, r := Divided(60_000_000, bpm);
    if q <= 7745 {
      MulMono(q, 7745, bpm);
      assert false;
    }
  }

  // ---------------------------------------------------------------- segments

  datatype Segment = Segment(startBeat: real, startNs: real, nsPerBeat: real)

  /** Nanoseconds a beat: as many beats a minute make sixty thousand million. */
  function Rate(bpm: int): (r: real)
    requires bpm >= 1
    ensures r > 0.0 && r * bpm as real == 60_000_000_000.0
  {
    60_000_000_000.0 / bpm as real
  }

  function Beat(ev: MidiEvent): real { if ev.time < 0.0 then 0.0 else ev.time }

  /** The line of a segment, extended over all beats. */
  function Line(seg: Segment, beat: real): real { seg.startNs + (beat - seg.startBeat) * seg.nsPerBeat }

  /** The segments from a start beat on, at the given tempo; other events are skipped. */
  function Build(evs: seq<MidiEvent>, bpm: int, startBeat: real, startNs: real): seq<Segment>
    requires bpm >= 1
  {
    if evs == [] then [Segment(startBeat, startNs, Rate(bpm))]
    else if evs[0].kind != MetaTempo then Build(evs[1..], bpm, startBeat, startNs)
    else if Beat(evs[0]) > startBeat then
      var head := Segment(startBeat, startNs, Rate(bpm));
      [head] + Build(evs[1..], ExtractBpm(evs[0].meta, bpm), Beat(evs[0]), Line(head, Beat(evs[0])))
    else Build(evs[1..], ExtractBpm(evs[0].meta, bpm), startBeat, startNs)
  }

  lemma BuildFrom(evs: seq<MidiEvent>, k: nat, bpm: int, startBeat: real, startNs: real)
    requires k < |evs| && bpm >= 1
    ensures var rest := evs[k + 1..];
            Build(evs[k..], bpm, startBeat, startNs) ==
            if evs[k].kind != MetaTempo then Build(rest, bpm, startBeat, startNs)
            else if Beat(evs[k]) > startBeat then
              var head := Segment(startBeat, startNs, Rate(bpm));
              [head] + Build(rest, ExtractBpm(evs[k].meta, bpm), Beat(evs[k]), Line(head, Beat(evs[k])))
            else Build(rest, ExtractBpm(evs[k].meta, bpm), startBeat, startNs)
  {
    assert evs[k..][0] == evs[k] && evs[k..][1..] == evs[k + 1..];
  }

  method BuildTempoSegments(defaultBpm: int, evs: seq<MidiEvent>) returns (segments: seq<Segment>)
    ensures segments == Build(evs, if defaultBpm < 1 then 1 else defaultBpm, 0.0, 0.0)
  {
    segments := [];
    var bpm := if defaultBpm < 1 then 1 else defaultBpm;
    var startBeat, startNs := 0.0, 0.0;
    ghost var goal := Build(evs, bpm, 0.0, 0.0);
    assert evs[0..] == evs && segments + goal == goal;
    for k := 0 to |evs|
      invariant bpm >= 1 && goal == segments + Build(evs[k..], bpm, startBeat, startNs)
    {
      var ev := evs[k];
      BuildFrom(evs, k, bpm, startBeat, startNs);
      if ev.kind == MetaTempo {
        var beat := Beat(ev);
        var bpm1 := ExtractBpm(ev.meta, bpm);
        if beat > startBeat {
          var seg := Segment(startBeat, startNs, Rate(bpm));
          var ns1 := startNs + (beat - startBeat) * Rate(bpm);
          assert ns1 == Line(seg, beat);
          ghost var rest := Build(evs[k + 1..], bpm1, beat, ns1);
          assert segments + ([seg] + rest) == segments + [seg] + rest;
          segments, startBeat, startNs := segments + [seg], beat, ns1;
        }
        bpm := bpm1;
      }
    }
    segments := segments + [Segment(startBeat, startNs, Rate(bpm))];
  }

  /** The last segment that starts at or before the beat. */
  function Choose(segments: seq<Segment>, beat: real, chosen: Segment): Segment {
    if segments == [] || segments[0].startBeat > beat then chosen
    else Choose(segments[1..], beat, segments[0])
  }

  function ValueAt(segments: seq<Segment>, beat: real): real
    requires segments != []
  {
    Line(Choose(segments, beat, segments[0]), beat)
  }

  method BeatToNs(beat: real, segments: seq<Segment>) returns (ns: nat)
    requires segments != []
    ensures ns == if ValueAt(segments, beat) < 0.0 then 0 else ValueAt(segments, beat).Floor
  {
    hide Line;
    var chosen := segments[0];
    var k := 0;
    while k < |segments|
      invariant 0 <= k <= |segments|
      invariant Choose(segments, beat, segments[0]) == Choose(segments[k..], beat, chosen)
    {
      assert segments[k..][0] == segments[k] && segments[k..][1..] == segments[k + 1..];
      if segments[k].startBeat > beat { break; }
      chosen := segments[k];
      k := k + 1;
    }
    assert Choose(segments[k..], beat, chosen) == chosen;
    ns := CutLine(chosen, beat);
  }

  /** The line of the chosen segment, cut toward zero and never negative. */
  method CutLine(chosen: Segment, beat: real) returns (ns: nat)
    ensures ns == if Line(chosen, beat) < 0.0 then 0 else Line(chosen, beat).Floor
  {
    var x := chosen.startNs + (beat - chosen.startBeat) * chosen.nsPerBeat;
    assert x == Line(chosen, beat);
    ns := if x < 0.0 then 0 else x.Floor;
  }

  // ---------------------------------------------------------------- the meaning of the map

  /** The time from one beat to another at a fixed tempo. */
  function Fixed(bpm: int, from: real, to: real): real
    requires bpm >= 1
  {
    (to - from) * Rate(bpm)
  }

  lemma FixedMono(bpm: int, a: real, b: real, c: real)
    requires bpm >= 1 && a <= b <= c
    ensures 0.0 <= Fixed(bpm, a, b) <= Fixed(bpm, a, c)
    ensures b < c ==> Fixed(bpm, a, b) < Fixed(bpm, a, c)
    ensures Fixed(bpm, a, c) - Fixed(bpm, a, b) == Fixed(bpm, b, c)
    ensures Fixed(bpm, a, a) == 0.0
  {
    var r := Rate(bpm);
    assert (c - a) * r - (b - a) * r == (c - b) * r;
    assert (b - a) * r >= 0.0;
    assert (c - b) * r >= 0.0;
    if b < c { assert (c - b) * r > 0.0; }
  }

  /** The time that passes between two beats, when the tempo is `bpm` at the first and the events
      change it in turn, none before its predecessor. */
  function Passed(evs: seq<MidiEvent>, bpm: int, from: real, to: real): real
    requires bpm >= 1
  {
    if evs == [] then Fixed(bpm, from, to)
    else if evs[0].kind != MetaTempo then Passed(evs[1..], bpm, from, to)
    else
      var c := if Beat(evs[0]) > from then Beat(evs[0]) else from;
      if c <= to then Fixed(bpm, from, c) + Passed(evs[1..], ExtractBpm(evs[0].meta, bpm), c, to)
      else Fixed(bpm, from, to)
  }

  /** The last change in the list that is not after a beat; for a list in beat order, the tempo in force. */
  function BpmAt(evs: seq<MidiEvent>, bpm: int, x: real): (r: int)
    requires bpm >= 1
    ensures r >= 1
  {
    if evs == [] then bpm
    else if evs[0].kind != MetaTempo || Beat(evs[0]) > x then BpmAt(evs[1..], bpm, x)
    else BpmAt(evs[1..], ExtractBpm(evs[0].meta, bpm), x)
  }

  ghost predicate Increasing(segments: seq<Segment>) {
    forall i, j | 0 <= i < j < |segments| :: segments[i].startBeat < segments[j].startBeat
  }

  /** Neighbouring segments meet. */
  ghost predicate Joined(segments: seq<Segment>) {
    forall i | 0 <= i < |segments| - 1 :: segments[i + 1].startNs == Line(segments[i], segments[i + 1].startBeat)
  }

  ghost predicate Shape(segments: seq<Segment>, startBeat: real, startNs: real) {
    && segments != [] && segments[0].startBeat == startBeat && segments[0].startNs == startNs
    && Increasing(segments) && Joined(segments)
  }

  lemma ShapeCons(head: Segment, tail: seq<Segment>, beat: real)
    requires head.startBeat < beat && Shape(tail, beat, Line(head, beat))
    ensures Shape([head] + tail, head.startBeat, head.startNs)
  {
    var s := [head] + tail;
    forall i, j | 0 <= i < j < |s| ensures s[i].startBeat < s[j].startBeat {
      if i == 0 && j > 1 { assert tail[0].startBeat < tail[j - 1].startBeat; }
      if i > 0 { assert s[i] == tail[i - 1] && s[j] == tail[j - 1]; }
    }
    forall i | 0 <= i < |s| - 1 ensures s[i + 1].startNs == Line(s[i], s[i + 1].startBeat) {
      if i > 0 { assert s[i] == tail[i - 1] && s[i + 1] == tail[i - 1 + 1]; }
    }
  }

  lemma {:induction false} SegmentsShape(evs: seq<MidiEvent>, bpm: int, startBeat: real, startNs: real)
    requires bpm >= 1
    ensures Shape(Build(evs, bpm, startBeat, startNs), startBeat, startNs)
  {
    if evs != [] {
      if evs[0].kind != MetaTempo {
        SegmentsShape(evs[1..], bpm, startBeat, startNs);
      } else {
        var bpm1, beat := ExtractBpm(evs[0].meta, bpm), Beat(evs[0]);
        if beat > startBeat {
          var head := Segment(startBeat, startNs, Rate(bpm));
          SegmentsShape(evs[1..], bpm1, beat, Line(head, beat));
          ShapeCons(head, Build(evs[1..], bpm1, beat, Line(head, beat)), beat);
        } else {
          SegmentsShape(evs[1..], bpm1, startBeat, startNs);
        }
      }
    }
  }

  /** Choosing among the segments after the first. */
  lemma ChooseTail(head: Segment, tail: seq<Segment>, beat: real)
    requires tail != [] && head.startBeat <= beat
    ensures ValueAt([head] + tail, beat) == if tail[0].startBeat <= beat then ValueAt(tail, beat) else Line(head, beat)
  {
    var s := [head] + tail;
    assert s[1..] == tail;
    assert Choose(s, beat, s[0]) == Choose(tail, beat, head);
    if tail[0].startBeat <= beat {
      assert Choose(tail, beat, head) == Choose(tail[1..], beat, tail[0]) == Choose(tail, beat, tail[0]);
    }
  }

  lemma ChooseOnly(seg: Segment, beat: real)
    ensures ValueAt([seg], beat) == Line(seg, beat)
  {
    assert [seg][1..] == [];
    assert Choose([seg], beat, seg) == seg;
  }

  /** The map gives the time passed since the start of the segments. */
  lemma {:induction false} ValueIsPassed(evs: seq<MidiEvent>, bpm: int, startBeat: real, startNs: real, beat: real)
    requires bpm >= 1 && startBeat <= beat
    ensures Build(evs, bpm, startBeat, startNs) != []
    ensures ValueAt(Build(evs, bpm, startBeat, startNs), beat) == startNs + Passed(evs, bpm, startBeat, beat)
  {
    SegmentsShape(evs, bpm, startBeat, startNs);
    var head := Segment(startBeat, startNs, Rate(bpm));
    assert Line(head, beat) == startNs + Fixed(bpm, startBeat, beat);
    if evs == [] {
      ChooseOnly(head, beat);
    } else if evs[0].kind != MetaTempo {
      ValueIsPassed(evs[1..], bpm, startBeat, startNs, beat);
    } else {
      var bpm1, c := ExtractBpm(evs[0].meta, bpm), Beat(evs[0]);
      if c > startBeat {
        var tail := Build(evs[1..], bpm1, c, Line(head, c));
        SegmentsShape(evs[1..], bpm1, c, Line(head, c));
        ChooseTail(head, tail, beat);
        if c <= beat { ValueIsPassed(evs[1..], bpm1, c, Line(head, c), beat); }
      } else {
        ValueIsPassed(evs[1..], bpm1, startBeat, startNs, beat);
        FixedMono(bpm, startBeat, startBeat, startBeat);
      }
    }
  }

  /** Later beats are later. */
  lemma {:induction false} PassedIncreasing(evs: seq<MidiEvent>, bpm: int, from: real, x: real, y: real)
    requires bpm >= 1 && from <= x <= y
    ensures 0.0 <= Passed(evs, bpm, from, x) <= Passed(evs, bpm, from, y)
    ensures x < y ==> Passed(evs, bpm, from, x) < Passed(evs, bpm, from, y)
  {
    FixedMono(bpm, from, x, y);
    if evs != [] {
      if evs[0].kind != MetaTempo {
        PassedIncreasing(evs[1..], bpm, from, x, y);
      } else {
        var bpm1, c := ExtractBpm(evs[0].meta, bpm), if Beat(evs[0]) > from then Beat(evs[0]) else from;
        if c <= x {
          FixedMono(bpm, from, c, x);
          PassedIncreasing(evs[1..], bpm1, c, x, y);
        } else if c <= y {
          FixedMono(bpm, from, x, c);
          PassedIncreasing(evs[1..], bpm1, c, y, y);
        }
      }
    }
  }

  /** The changes are given in beat order. */
  ghost predicate InBeatOrder(evs: seq<MidiEvent>) {
    forall i, j | 0 <= i < j < |evs| && evs[i].kind == MetaTempo
        && evs[j].kind == MetaTempo :: Beat(evs[i]) <= Beat(evs[j])
  }

  /** No tempo change strictly between two beats. */
  ghost predicate Steady(evs: seq<MidiEvent>, x: real, y: real) {
    forall i | 0 <= i < |evs| && evs[i].kind == MetaTempo :: !(x < Beat(evs[i]) < y)
  }

  lemma {:induction false} NoChangeYet(evs: seq<MidiEvent>, bpm: int, x: real)
    requires bpm >= 1 && forall i | 0 <= i < |evs| && evs[i].kind == MetaTempo :: Beat(evs[i]) > x
    ensures BpmAt(evs, bpm, x) == bpm
  {
    if evs != [] { NoChangeYet(evs[1..], bpm, x); }
  }

  lemma {:induction false} PassedNothing(evs: seq<MidiEvent>, bpm: int, from: real)
    requires bpm >= 1
    ensures Passed(evs, bpm, from, from) == 0.0
  {
    if evs != [] {
      PassedNothing(evs[1..], if evs[0].kind == MetaTempo then ExtractBpm(evs[0].meta, bpm) else bpm, from);
    }
  }

  /** With the changes in beat order the map is the integral of the tempo: over any stretch without
      a change inside it time advances at sixty thousand million nanoseconds divided by the tempo in force. */
  lemma {:induction false} PassedIsIntegral(evs: seq<MidiEvent>, bpm: int, from: real, x: real, y: real)
    requires bpm >= 1 && from <= x <= y
    requires InBeatOrder(evs) && Steady(evs, x, y)
    ensures Passed(evs, bpm, from, y) - Passed(evs, bpm, from, x) == Fixed(BpmAt(evs, bpm, x), x, y)
  {
    FixedMono(bpm, from, x, y);
    if evs == [] {
    } else if evs[0].kind != MetaTempo {
      PassedIsIntegral(evs[1..], bpm, from, x, y);
    } else {
      var bpm1, b := ExtractBpm(evs[0].meta, bpm), Beat(evs[0]);
      var c := if b > from then b else from;
      if c <= x {
        PassedIsIntegral(evs[1..], bpm1, c, x, y);
      } else {
        NoChangeYet(evs, bpm, x);
        if c <= y { PassedNothing(evs[1..], bpm1, c); }
      }
    }
  }

  /** The beat-to-time map of a tempo track: it starts at zero, strictly increases, and with the
      changes in beat order it is the integral of the tempo. */
  lemma TempoMapIs(defaultBpm: int, evs: seq<MidiEvent>, x: real, y: real)
    requires 0.0 <= x <= y
    ensures var bpm := if defaultBpm < 1 then 1 else defaultBpm;
            var s := Build(evs, bpm, 0.0, 0.0);
            && s != [] && Increasing(s) && Joined(s) && s[0].startBeat == 0.0
            && ValueAt(s, 0.0) == 0.0
            && (x < y ==> ValueAt(s, x) < ValueAt(s, y))
            && (InBeatOrder(evs) && Steady(evs, x, y) ==>
                  ValueAt(s, y) - ValueAt(s, x) == Fixed(BpmAt(evs, bpm, x), x, y))
  {
    var bpm := if defaultBpm < 1 then 1 else defaultBpm;
    SegmentsShape(evs, bpm, 0.0, 0.0);
    ValueIsPassed(evs, bpm, 0.0, 0.0, 0.0);
    ValueIsPassed(evs, bpm, 0.0, 0.0, x);
    ValueIsPassed(evs, bpm, 0.0, 0.0, y);
    PassedNothing(evs, bpm, 0.0);
    if x < y { PassedIncreasing(evs, bpm, 0.0, x, y); }
    if InBeatOrder(evs) && Steady(evs, x, y) { PassedIsIntegral(evs, bpm, 0.0, x, y); }
  }

  // ---------------------------------------------------------------- changes out of order

  /** The changes as the segments take them: none before its predecessor. */
  function Clamped(evs: seq<MidiEvent>, from: real): seq<MidiEvent> {
    if evs == [] then []
    else if evs[0].kind != MetaTempo then [evs[0]] + Clamped(evs[1..], from)
    else
      var c := if Beat(evs[0]) > from then Beat(evs[0]) else from;
      [evs[0].(time := c)] + Clamped(evs[1..], c)
  }

  lemma {:induction false} ClampedInOrder(evs: seq<MidiEvent>, from: real)
    requires from >= 0.0
    ensures InBeatOrder(Clamped(evs, from))
    ensures forall i | 0 <= i < |Clamped(evs, from)| && Clamped(evs, from)[i].kind == MetaTempo ::
        Beat(Clamped(evs, from)[i]) >= from
  {
    if evs != [] {
      var c := if evs[0].kind == MetaTempo && Beat(evs[0]) > from then Beat(evs[0]) else from;
      ClampedInOrder(evs[1..], c);
      var head := if evs[0].kind == MetaTempo then evs[0].(time := c) else evs[0];
      assert Clamped(evs, from) == [head] + Clamped(evs[1..], c);
      OrderCons(head, Clamped(evs[1..], c), c);
    }
  }

  /** A change in front of later ones. */
  lemma OrderCons(head: MidiEvent, rest: seq<MidiEvent>, c: real)
    requires InBeatOrder(rest) && (head.kind == MetaTempo ==> Beat(head) == c)
    requires forall i | 0 <= i < |rest| && rest[i].kind == MetaTempo :: Beat(rest[i]) >= c
    ensures InBeatOrder([head] + rest)
    ensures forall i | 0 <= i < |[head] + rest| && ([head] + rest)[i].kind == MetaTempo :: Beat(([head] + rest)[i]) >= c
  {
    hide Beat;
    var out := [head] + rest;
    forall i, j | 0 <= i < j < |out| && out[i].kind == MetaTempo && out[j].kind == MetaTempo
      ensures Beat(out[i]) <= Beat(out[j])
    {
      if i > 0 { assert out[i] == rest[i - 1]; }
      assert out[j] == rest[j - 1];
    }
  }

  lemma {:induction false} ClampedBuild(evs: seq<MidiEvent>, bpm: int, from: real, startNs: real)
    requires bpm >= 1 && from >= 0.0
    ensures Build(Clamped(evs, from), bpm, from, startNs) == Build(evs, bpm, from, startNs)
  {
    if evs != [] {
      var tempo := evs[0].kind == MetaTempo;
      var c := if tempo && Beat(evs[0]) > from then Beat(evs[0]) else from;
      var ns := if c > from then Line(Segment(from, startNs, Rate(bpm)), c) else startNs;
      var bpm1 := if tempo then ExtractBpm(evs[0].meta, bpm) else bpm;
      ClampedBuild(evs[1..], bpm1, c, ns);
      assert Clamped(evs, from)[1..] == Clamped(evs[1..], c);
    }
  }

  /** A list out of beat order has the map of the list in which late changes are moved up to
      their predecessors, and that list is in order. */
  lemma {:induction false} ClampedSame(evs: seq<MidiEvent>, bpm: int)
    requires bpm >= 1
    ensures Build(Clamped(evs, 0.0), bpm, 0.0, 0.0) == Build(evs, bpm, 0.0, 0.0)
    ensures InBeatOrder(Clamped(evs, 0.0))
  {
    ClampedBuild(evs, bpm, 0.0, 0.0);
    ClampedInOrder(evs, 0.0);
  }

  // ---------------------------------------------------------------- the tempo track

  datatype Tune = Tune(title: seq<byte>, voices: map<int, Voice>, features: seq<Feature>,
                       bpm: int, num: byte, den: byte, sharps: int, major: bool)

  function TempoEvent(bpm: int, time: real): MidiEvent { MidiEvent(MetaTempo, time, 0, 0, 0, TempoMeta(bpm)) }

  function Pow2(n: nat): nat { if n == 0 then 1 else 2 * Pow2(n - 1) }

  /** The power of two of a denominator, rounded down. */
  function DenomPower(den: nat): (n: nat)
    ensures n <= den && Pow2(n) <= (if den == 0 then 1 else den) < Pow2(n + 1)
  {
    if den <= 1 then 0 else 1 + DenomPower(den / 2)
  }

  method HalveToOne(den: byte) returns (power: nat)
    ensures power == DenomPower(den)
  {
    power := 0;
    var t: nat := den;
    while t > 1
      invariant DenomPower(den) == power + DenomPower(t)
    {
      t := t / 2;
      power := power + 1;
    }
  }

  function TimeSigEvent(num: byte, den: byte, time: real): MidiEvent {
    MidiEvent(MetaTimeSignature, time, 0, 0, 0, [num, DenomPower(den), 24, 8])
  }

  function KeyEvent(sharps: int, major: bool, time: real): MidiEvent {
    MidiEvent(MetaKeySignature, time, 0, 0, 0, [sharps % 256, if major then 0 else 1])
  }

  function StartBeats(f: Feature, tune: Tune): real {
    Beats(f.ts, if f.voice in tune.voices then tune.voices[f.voice].denom else tune.den)
  }

  /** A feature with a duration; its voice must be known. */
  predicate Lasting(d: FeatureData) { Sounding(d) || d.GChord? }

  function FinishBeats(f: Feature, tune: Tune): real {
    if Lasting(f.data) && f.voice in tune.voices
        then StartBeats(f, tune) + Beats(f.data.dur, tune.voices[f.voice].denom)
    else StartBeats(f, tune)
  }

  function MaxFinish(fs: seq<Feature>, tune: Tune): real {
    if fs == [] then 0.0
    else
      var m, end := MaxFinish(fs[..|fs| - 1], tune), FinishBeats(fs[|fs| - 1], tune);
      if end > m then end else m
  }

  lemma {:induction false} MaxFinishIs(fs: seq<Feature>, tune: Tune)
    ensures MaxFinish(fs, tune) >= 0.0
    ensures forall k | 0 <= k < |fs| :: FinishBeats(fs[k], tune) <= MaxFinish(fs, tune)
    ensures MaxFinish(fs, tune) == 0.0 || exists k :: 0 <= k < |fs| && FinishBeats(fs[k], tune) == MaxFinish(fs, tune)
  {
    if fs != [] { MaxFinishIs(fs[..|fs| - 1], tune); }
  }

  function ChangeOf(f: Feature, tune: Tune): seq<MidiEvent> {
    match f.data
    case Tempo(bpm) => [TempoEvent(bpm, StartBeats(f, tune))]
    case Time(num, den) => [TimeSigEvent(num, den, StartBeats(f, tune))]
    case Key(sharps, major) => [KeyEvent(sharps, major, StartBeats(f, tune))]
    case _ => []
  }

  function Changes(fs: seq<Feature>, tune: Tune): seq<MidiEvent> {
    if fs == [] then [] else Changes(fs[..|fs| - 1], tune) + ChangeOf(fs[|fs| - 1], tune)
  }

  ghost predicate KnownVoices(tune: Tune) {
    forall k | 0 <= k < |tune.features| && Lasting(tune.features[k].data) :: tune.features[k].voice in tune.voices
  }

  function Preface(tune: Tune): seq<MidiEvent> {
    [TempoEvent(tune.bpm, 0.0), TimeSigEvent(tune.num, tune.den, 0.0), KeyEvent(tune.sharps, tune.major, 0.0)]
    + if tune.title == [] then [] else [MidiEvent(MetaText, 0.0, 0, 0, 0, tune.title)]
  }

  method PushChange(f: Feature, tune: Tune, events: seq<MidiEvent>) returns (grown: seq<MidiEvent>)
    ensures grown == events + ChangeOf(f, tune)
  {
    grown := events;
    var ts := StartBeats(f, tune);
    match f.data {
      case Tempo(bpm) => grown := grown + [TempoEvent(bpm, ts)];
      case Time(num, den) =>
        var power := HalveToOne(den);
        grown := grown + [MidiEvent(MetaTimeSignature, ts, 0, 0, 0, [num, power, 24, 8])];
      case Key(sharps, major) => grown := grown + [KeyEvent(sharps, major, ts)];
      case _ =>
    }
  }

  method PushPreface(tune: Tune) returns (events: seq<MidiEvent>)
    ensures events == Preface(tune)
  {
    var power := HalveToOne(tune.den);
    events := [TempoEvent(tune.bpm, 0.0)];
    events := events + [MidiEvent(MetaTimeSignature, 0.0, 0, 0, 0, [tune.num, power, 24, 8])];
    events := events + [KeyEvent(tune.sharps, tune.major, 0.0)];
    if tune.title != [] { events := events + [MidiEvent(MetaText, 0.0, 0, 0, 0, tune.title)]; }
  }

  function TempoTrack(tune: Tune): seq<MidiEvent> {
    Preface(tune) + Changes(tune.features, tune)
    + [MidiEvent(MetaEndOfTrack, MaxFinish(tune.features, tune), 0, 0, 0, [])]
  }

  /** The tempo track: the tune's defaults, every change where it stands, end of track. A lasting
      feature of an unknown voice makes the original panic. */
  method ProcessTempoTrack(tune: Tune) returns (events: seq<MidiEvent>)
    requires KnownVoices(tune)
    ensures events == TempoTrack(tune)
  {
    events := PushPreface(tune);
    var maxEnd := 0.0;
    var fs := tune.features;
    ghost var preface := Preface(tune);
    for k := 0 to |fs|
      invariant events == preface + Changes(fs[..k], tune)
      invariant maxEnd == MaxFinish(fs[..k], tune)
    {
      ghost var fs1 := fs[..k + 1];
      assert fs1[..k] == fs[..k] && fs1[|fs1| - 1] == fs[k];
      ghost var before, change := Changes(fs[..k], tune), ChangeOf(fs[k], tune);
      assert Changes(fs1, tune) == before + change;
      events := PushChange(fs[k], tune, events);
      assert preface + before + change == preface + (before + change);
      var end := FinishBeats(fs[k], tune);
      if end > maxEnd { maxEnd := end; }
    }
    assert fs[..|fs|] == fs;
    events := events + [MidiEvent(MetaEndOfTrack, maxEnd, 0, 0, 0, [])];
  }

  lemma {:induction false} ChangesMembers(fs: seq<Feature>, tune: Tune)
    ensures forall ev :: ev in Changes(fs, tune) ==>
              ev.kind != MetaEndOfTrack
              && exists k :: 0 <= k < |fs| && !Lasting(fs[k].data) && ev.time == StartBeats(fs[k], tune)
  {
    if fs != [] {
      ChangesMembers(fs[..|fs| - 1], tune);
      forall ev | ev in Changes(fs, tune)
        ensures ev.kind != MetaEndOfTrack
                && exists k :: 0 <= k < |fs| && !Lasting(fs[k].data) && ev.time == StartBeats(fs[k], tune)
      {
        if ev in Changes(fs[..|fs| - 1], tune) {
          var k :| 0 <= k < |fs| - 1 && !Lasting(fs[..|fs| - 1][k].data)
              && ev.time == StartBeats(fs[..|fs| - 1][k], tune);
          assert ev.time == StartBeats(fs[k], tune);
        } else {
          assert ev in ChangeOf(fs[|fs| - 1], tune);
        }
      }
    }
  }

  /** In the written tempo track, too, end of track comes last. */
  lemma TempoTrackEnds(tune: Tune)
    requires KnownVoices(tune)
    ensures var events := TempoTrack(tune); var s := SortTrack(events);
            && |s| == |events| && s[|s| - 1] == events[|events| - 1] && s[|s| - 1].kind == MetaEndOfTrack
            && forall k | 0 <= k < |s| - 1 :: s[k].kind != MetaEndOfTrack
  {
    var events, preface, changes := TempoTrack(tune), Preface(tune), Changes(tune.features, tune);
    var last := events[|events| - 1];
    MaxFinishIs(tune.features, tune);
    ChangesMembers(tune.features, tune);
    forall i | 0 <= i < |events| - 1 ensures events[i].time <= last.time && events[i].kind != MetaEndOfTrack {
      if i < |preface| {
        assert events[i] == preface[i];
      } else {
        var ev := changes[i - |preface|];
        assert events[i] == ev && ev in changes;
        var k :| 0 <= k < |tune.features| && !Lasting(tune.features[k].data)
            && ev.time == StartBeats(tune.features[k], tune);
        assert FinishBeats(tune.features[k], tune) <= last.time;
      }
    }
    EndOfTrackLast(events);
  }
}
