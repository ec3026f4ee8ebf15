/** Exactly when the tempo map is the integral of the tempo in force. The map is built from the changes
    in the order in which they are listed; the tempo in force follows them in time, as in the written file. */
module TempoOrder {
  import opened Sorting
  import opened MidiEvents
  import opened NoteTracks
  import opened TempoMap

  /** The tempo in force at a beat: the last change up to it, in the order of the written track. */
  function InForce(evs: seq<MidiEvent>, bpm: int, x: real): (t: int)
    requires bpm >= 1
    ensures t >= 1
  {
    BpmAt(SortTrack(evs), bpm, x)
  }

  /** Between any two beats without a change inside, time advances at the tempo in force at the first. */
  ghost predicate IsIntegral(evs: seq<MidiEvent>, bpm: int)
    requires bpm >= 1
  {
    var s := Build(evs, bpm, 0.0, 0.0);
    && s != []
    && forall x: real, y: real | 0.0 <= x <= y && Steady(evs, x, y) ::
         ValueAt(s, y) - ValueAt(s, x) == Fixed(InForce(evs, bpm, x), x, y)
  }

  /** At a beat, the list with late changes moved up gives the tempo in force. */
  predicate AgreeAt(evs: seq<MidiEvent>, bpm: int, x: real)
    requires bpm >= 1
  {
    InForce(evs, bpm, x) == BpmAt(Clamped(evs, 0.0), bpm, x)
  }

  /** They agree at the start and at every listed change: finitely many comparisons. */
  predicate AgreeAtChanges(evs: seq<MidiEvent>, bpm: int)
    requires bpm >= 1
  {
    && AgreeAt(evs, bpm, 0.0)
    && forall i | 0 <= i < |evs| && evs[i].kind == MetaTempo :: AgreeAt(evs, bpm, Beat(evs[i]))
  }

  // ---------------------------------------------------------------- when the map follows the tempo in force

  /** The map is the integral of the tempo in force if and only if, at the start and at every change, the
      list with late changes moved up gives the tempo in force. */
  lemma IntegralIff(evs: seq<MidiEvent>, bpm: int)
    requires bpm >= 1
    ensures IsIntegral(evs, bpm) <==> AgreeAtChanges(evs, bpm)
  {
    if AgreeAtChanges(evs, bpm) {
      MapIsClamped(evs, bpm, 0.0, 0.0) by { assert Steady(evs, 0.0, 0.0); }
      forall x: real, y: real | 0.0 <= x <= y && Steady(evs, x, y)
        ensures var s := Build(evs, bpm, 0.0, 0.0);
                s != [] && ValueAt(s, y) - ValueAt(s, x) == Fixed(InForce(evs, bpm, x), x, y)
      {
        MapIsClamped(evs, bpm, x, y);
        AgreeEverywhere(evs, bpm, x);
      }
    }
    if IsIntegral(evs, bpm) {
      IntegralAgrees(evs, bpm, 0.0);
      forall i | 0 <= i < |evs| && evs[i].kind == MetaTempo ensures AgreeAt(evs, bpm, Beat(evs[i])) {
        IntegralAgrees(evs, bpm, Beat(evs[i]));
      }
    }
  }

  /** Agreement at the changes is agreement everywhere. */
  lemma AgreeEverywhere(evs: seq<MidiEvent>, bpm: int, x: real)
    requires bpm >= 1 && AgreeAtChanges(evs, bpm) && 0.0 <= x
    ensures AgreeAt(evs, bpm, x)
  {
    var c := LastChange(evs, x);
    assert AgreeAt(evs, bpm, c);
    SortedQuiet(evs, c, x);
    QuietSame(SortTrack(evs), bpm, c, x);
    ClampedQuiet(evs, c, x);
    QuietSame(Clamped(evs, 0.0), bpm, c, x);
  }

  ghost predicate ChangesInTime(evs: seq<MidiEvent>) {
    forall i, j | 0 <= i < j < |evs| && evs[i].kind == MetaTempo
        && evs[j].kind == MetaTempo :: evs[i].time <= evs[j].time
  }

  /** For changes listed in time order the map is the integral of the tempo in force. */
  lemma InOrderIntegral(evs: seq<MidiEvent>, bpm: int)
    requires bpm >= 1 && ChangesInTime(evs)
    ensures IsIntegral(evs, bpm)
  {
    hide BpmAt, Build, ValueAt, InForce;
    assert InBeatOrder(evs);
    TempoMapIs(bpm, evs, 0.0, 0.0);
    forall x: real, y: real | 0.0 <= x <= y && Steady(evs, x, y)
      ensures var s := Build(evs, bpm, 0.0, 0.0);
              s != [] && ValueAt(s, y) - ValueAt(s, x) == Fixed(InForce(evs, bpm, x), x, y)
    {
      TempoMapIs(bpm, evs, x, y);
      SortBpm(evs, bpm, x);
    }
  }

  /** The starting tempo of the map of a tune. */
  function StartBpm(tune: Tune): (bpm: int)
    ensures bpm >= 1
  {
    if tune.bpm < 1 then 1 else tune.bpm
  }

  /** Two voices, the second with a change to `t` before one to 60 that the first lists earlier. */
  function CrossedTune(t: int): Tune {
    var v := Voice(4, 0);
    Tune([], map[1 := v, 2 := v], [Feature(1, 0.5, Tempo(60)), Feature(2, 0.25, Tempo(t))], 120, 4, 4, 0, true)
  }

  /** For every such tune the map is not the integral of the tempo in force. From beat 1 on `t` is in
      force, and the map stays at 120; from beat 2 on 60 is in force, and the map goes on at `t`. With
      `t` at 240 the map is wrong from beat 1 on, with 120 it loses the change to 60 altogether. */
  lemma CrossedNotIntegral(t: int)
    requires 4 <= t <= 7745
    ensures var evs := TempoTrack(CrossedTune(t)); var bpm := StartBpm(CrossedTune(t));
            && InForce(evs, bpm, 1.0) == t && BpmAt(Clamped(evs, 0.0), bpm, 1.0) == 120
            && InForce(evs, bpm, 2.0) == 60 && BpmAt(Clamped(evs, 0.0), bpm, 2.0) == t
            && !IsIntegral(evs, bpm)
  {
    hide TempoTrack, TempoMeta, BpmAt, Clamped, IsIntegral, InForce, Sets, AgreeAt;
    var evs := TempoTrack(CrossedTune(t));
    CrossedTrack(t);
    TempoSets(120, 0.0);
    TempoSets(60, 2.0);
    TempoSets(t, 1.0);
    LatestInForce(evs, evs[4], 120, 1.0, t);
    LatestInForce(evs, evs[3], 120, 2.0, 60);
    CrossedMap(t);
    IntegralIff(evs, 120);
    AgreedAtChange(evs, 120, 3);
    AgreedAtChange(evs, 120, 4);
  }

  /** The change sets the tempo `t`, whatever was before. */
  ghost predicate Sets(ev: MidiEvent, t: int) { forall f: int :: ExtractBpm(ev.meta, f) == t }

  /** The latest change up to a beat is in force there, wherever it is listed. */
  lemma LatestInForce(evs: seq<MidiEvent>, ev: MidiEvent, bpm: int, x: real, t: int)
    requires bpm >= 1 && t >= 1 && ev in evs && ev.kind == MetaTempo && Beat(ev) <= x && Sets(ev, t)
    requires forall e | e in evs && e.kind == MetaTempo && Beat(e) <= x :: e == ev || e.time < ev.time
    ensures InForce(evs, bpm, x) == t
  {
    hide Beat, BpmAt, Sets;
    var s := SortTrack(evs);
    TrackOrderTotal();
    SortIs(TrackOrder(), evs);
    SortedMembers(evs);
    var i :| 0 <= i < |s| && s[i] == ev;
    forall j | i < j < |s| && s[j].kind == MetaTempo ensures Beat(s[j]) > x || Sets(s[j], t) {
      assert s[j] in evs && TrackOrder()(s[i], s[j]);
    }
    LastWins(s, i, bpm, x, t);
  }

  // ---------------------------------------------------------------- stretches without a change

  /** No listed change after `c` up to `x`. */
  ghost predicate Quiet(evs: seq<MidiEvent>, c: real, x: real) {
    forall i | 0 <= i < |evs| && evs[i].kind == MetaTempo :: !(c < Beat(evs[i]) <= x)
  }

  /** The changes of the clamped list stand at the start or at listed changes. */
  lemma {:induction false} ClampedBeats(evs: seq<MidiEvent>, from: real, i: nat)
    requires from >= 0.0 && i < |Clamped(evs, from)| && Clamped(evs, from)[i].kind == MetaTempo
    ensures var b := Beat(Clamped(evs, from)[i]);
            b == from || exists j :: 0 <= j < |evs| && evs[j].kind == MetaTempo && Beat(evs[j]) == b
    decreases |evs|
  {
    var c := if evs[0].kind == MetaTempo && Beat(evs[0]) > from then Beat(evs[0]) else from;
    var rest := evs[1..];
    assert Clamped(evs, from)[1..] == Clamped(rest, c);
    if i > 0 {
      assert Clamped(evs, from)[i] == Clamped(rest, c)[i - 1];
      ClampedBeats(rest, c, i - 1);
      var b := Beat(Clamped(rest, c)[i - 1]);
      if b != c {
        var j :| 0 <= j < |rest| && rest[j].kind == MetaTempo && Beat(rest[j]) == b;
        assert evs[j + 1] == rest[j];
      }
    }
  }

  lemma ClampedSteady(evs: seq<MidiEvent>, x: real, y: real)
    requires 0.0 <= x && Steady(evs, x, y)
    ensures Steady(Clamped(evs, 0.0), x, y)
  {
    var cs := Clamped(evs, 0.0);
    forall i | 0 <= i < |cs| && cs[i].kind == MetaTempo ensures !(x < Beat(cs[i]) < y) { ClampedBeats(evs, 0.0, i); }
  }

  lemma ClampedQuiet(evs: seq<MidiEvent>, c: real, x: real)
    requires 0.0 <= c && Quiet(evs, c, x)
    ensures Quiet(Clamped(evs, 0.0), c, x)
  {
    var cs := Clamped(evs, 0.0);
    forall i | 0 <= i < |cs| && cs[i].kind == MetaTempo ensures !(c < Beat(cs[i]) <= x) { ClampedBeats(evs, 0.0, i); }
  }

  lemma SortedQuiet(evs: seq<MidiEvent>, c: real, x: real)
    requires Quiet(evs, c, x)
    ensures Quiet(SortTrack(evs), c, x)
  {
    hide SortTrack;
    SortedMembers(evs);
    var s := SortTrack(evs);
    forall i | 0 <= i < |s| && s[i].kind == MetaTempo ensures !(c < Beat(s[i]) <= x) { assert s[i] in evs; }
  }

  lemma {:induction false} QuietSame(evs: seq<MidiEvent>, bpm: int, c: real, x: real)
    requires bpm >= 1 && c <= x && Quiet(evs, c, x)
    ensures BpmAt(evs, bpm, c) == BpmAt(evs, bpm, x)
    decreases |evs|
  {
    if evs != [] {
      var bpm1 := if evs[0].kind == MetaTempo && Beat(evs[0]) <= x then ExtractBpm(evs[0].meta, bpm) else bpm;
      QuietSame(evs[1..], bpm1, c, x);
    }
  }

  /** The start or the last listed change up to a beat. */
  lemma {:induction false} LastChange(evs: seq<MidiEvent>, x: real) returns (c: real)
    requires 0.0 <= x
    ensures 0.0 <= c <= x && Quiet(evs, c, x)
    ensures c == 0.0 || exists i :: 0 <= i < |evs| && evs[i].kind == MetaTempo && Beat(evs[i]) == c
    decreases |evs|
  {
    if evs == [] { return 0.0; }
    var n := |evs| - 1;
    c := LastChange(evs[..n], x);
    if evs[n].kind == MetaTempo && c < Beat(evs[n]) <= x { c := Beat(evs[n]); }
  }

  /** Some stretch without a change after a beat. */
  lemma {:induction false} NextChange(evs: seq<MidiEvent>, x: real) returns (y: real)
    ensures x < y && Steady(evs, x, y)
    decreases |evs|
  {
    if evs == [] { return x + 1.0; }
    var n := |evs| - 1;
    y := NextChange(evs[..n], x);
    if evs[n].kind == MetaTempo && x < Beat(evs[n]) < y { y := Beat(evs[n]); }
  }

  /** A faster tempo takes less time. */
  lemma FixedFaster(a: int, b: int, x: real, y: real)
    requires 1 <= a < b && x < y
    ensures Fixed(b, x, y) < Fixed(a, x, y)
  {
    var d, ra, rb := y - x, Rate(a), Rate(b);
    assert rb * b as real == 60_000_000_000.0 == ra * a as real;
    assert rb * (b as real - a as real) > 0.0;
    assert (ra - rb) * a as real > 0.0;
    assert d * (ra - rb) > 0.0;
  }

  /** A stretch of time tells the tempo. */
  lemma FixedTells(a: int, b: int, x: real, y: real)
    requires a >= 1 && b >= 1 && x < y
    ensures Fixed(a, x, y) == Fixed(b, x, y) ==> a == b
  {
    if a < b { FixedFaster(a, b, x, y); }
    if b < a { FixedFaster(b, a, x, y); }
  }

  /** The map advances at the tempo of the clamped list. */
  lemma MapIsClamped(evs: seq<MidiEvent>, bpm: int, x: real, y: real)
    requires bpm >= 1 && 0.0 <= x <= y && Steady(evs, x, y)
    ensures var s := Build(evs, bpm, 0.0, 0.0);
            s != [] && ValueAt(s, y) - ValueAt(s, x) == Fixed(BpmAt(Clamped(evs, 0.0), bpm, x), x, y)
  {
    ClampedSame(evs, bpm);
    ClampedSteady(evs, x, y);
    TempoMapIs(bpm, Clamped(evs, 0.0), x, y);
  }

  lemma IntegralAgrees(evs: seq<MidiEvent>, bpm: int, x: real)
    requires bpm >= 1 && IsIntegral(evs, bpm) && 0.0 <= x
    ensures AgreeAt(evs, bpm, x)
  {
    var y := NextChange(evs, x);
    MapIsClamped(evs, bpm, x, y);
    FixedTells(InForce(evs, bpm, x), BpmAt(Clamped(evs, 0.0), bpm, x), x, y);
  }

  // ---------------------------------------------------------------- lists in time order

  lemma {:induction false} BpmAppend(a: seq<MidiEvent>, b: seq<MidiEvent>, bpm: int, x: real)
    requires bpm >= 1
    ensures BpmAt(a + b, bpm, x) == BpmAt(b, BpmAt(a, bpm, x), x)
    decreases |a|
  {
    if a == [] {
      assert a + b == b;
    } else {
      assert (a + b)[0] == a[0] && (a + b)[1..] == a[1..] + b;
      var bpm1 := if a[0].kind == MetaTempo && Beat(a[0]) <= x then ExtractBpm(a[0].meta, bpm) else bpm;
      BpmAppend(a[1..], b, bpm1, x);
    }
  }

  lemma BpmOther(ev: MidiEvent, bpm: int, x: real)
    requires bpm >= 1 && ev.kind != MetaTempo
    ensures BpmAt([ev], bpm, x) == bpm
  {
    assert [ev][1..] == [];
  }

  /** An event that is put in its place passes over no other change of tempo. */
  lemma {:induction false} InsertBpm(s: seq<MidiEvent>, ev: MidiEvent, bpm: int, x: real)
    requires bpm >= 1
    requires forall e | e in s && e.kind == MetaTempo && ev.kind == MetaTempo :: e.time <= ev.time
    ensures BpmAt(Insert(TrackOrder(), s, ev), bpm, x) == BpmAt(s + [ev], bpm, x)
    decreases |s|
  {
    hide BpmAt;
    if s != [] && !TrackOrder()(s[|s| - 1], ev) {
      var front, last := s[..|s| - 1], s[|s| - 1];
      InsertBpm(front, ev, bpm, x);
      BpmAppend(Insert(TrackOrder(), front, ev), [last], bpm, x);
      BpmAppend(front, [ev], bpm, x);
      BpmAppend(s, [ev], bpm, x);
      assert s == front + [last];
      BpmAppend(front, [last], bpm, x);
      var b := BpmAt(front, bpm, x);
      if ev.kind != MetaTempo {
        BpmOther(ev, b, x);
        BpmOther(ev, BpmAt([last], b, x), x);
      } else {
        BpmOther(last, b, x);
        BpmOther(last, BpmAt([ev], b, x), x);
      }
    }
  }

  /** Sorting a list in time order does not change its tempo. */
  lemma {:induction false} SortBpm(evs: seq<MidiEvent>, bpm: int, x: real)
    requires bpm >= 1 && ChangesInTime(evs)
    ensures InForce(evs, bpm, x) == BpmAt(evs, bpm, x)
    decreases |evs|
  {
    hide BpmAt;
    if evs != [] {
      var front, last := evs[..|evs| - 1], evs[|evs| - 1];
      SortBpm(front, bpm, x);
      SortedMembers(front);
      InsertBpm(SortTrack(front), last, bpm, x);
      BpmAppend(SortTrack(front), [last], bpm, x);
      BpmAppend(front, [last], bpm, x);
      assert evs == front + [last];
    }
  }

  // ---------------------------------------------------------------- the latest change

  lemma {:induction false} NothingElse(evs: seq<MidiEvent>, x: real, t: int)
    requires t >= 1
    requires forall j | 0 <= j < |evs| && evs[j].kind == MetaTempo :: Beat(evs[j]) > x || Sets(evs[j], t)
    ensures BpmAt(evs, t, x) == t
  {
    if evs != [] { NothingElse(evs[1..], x, t); }
  }

  /** The last change in a list that is not later sets the tempo. */
  lemma {:induction false} LastWins(evs: seq<MidiEvent>, i: nat, bpm: int, x: real, t: int)
    requires bpm >= 1 && t >= 1 && i < |evs| && evs[i].kind == MetaTempo && Beat(evs[i]) <= x && Sets(evs[i], t)
    requires forall j | i < j < |evs| && evs[j].kind == MetaTempo :: Beat(evs[j]) > x || Sets(evs[j], t)
    ensures BpmAt(evs, bpm, x) == t
    decreases i
  {
    if i == 0 {
      NothingElse(evs[1..], x, t);
    } else {
      var bpm1 := if evs[0].kind == MetaTempo && Beat(evs[0]) <= x then ExtractBpm(evs[0].meta, bpm) else bpm;
      LastWins(evs[1..], i - 1, bpm1, x, t);
    }
  }

  // ---------------------------------------------------------------- the crossed tune

  lemma CrossedTrack(t: int)
    ensures KnownVoices(CrossedTune(t))
    ensures var evs := TempoTrack(CrossedTune(t));
            && |evs| == 6 && evs[0] == TempoEvent(120, 0.0)
            && evs[1].kind == MetaTimeSignature && evs[2].kind == MetaKeySignature
            && evs[3] == TempoEvent(60, 2.0) && evs[4] == TempoEvent(t, 1.0) && evs[5].kind == MetaEndOfTrack
  {
    var tune := CrossedTune(t);
    var fs := tune.features;
    assert fs[..1] == [fs[0]] && fs[..2] == fs && fs[..1][..0] == [];
    assert Changes(fs[..1], tune) == ChangeOf(fs[0], tune);
    assert Changes(fs, tune) == Changes(fs[..1], tune) + ChangeOf(fs[1], tune);
    assert Changes(fs, tune) == [TempoEvent(60, 2.0), TempoEvent(t, 1.0)];
  }

  /** Moving changes up changes nothing but their times, and never makes them earlier. */
  lemma {:induction false} ClampedAt(evs: seq<MidiEvent>, from: real, i: nat)
    requires from >= 0.0 && i < |evs|
    ensures |Clamped(evs, from)| == |evs|
    ensures var c := Clamped(evs, from)[i];
            c.kind == evs[i].kind && c.meta == evs[i].meta && Beat(c) >= Beat(evs[i])
    decreases |evs|
  {
    var c := if evs[0].kind == MetaTempo && Beat(evs[0]) > from then Beat(evs[0]) else from;
    assert Clamped(evs, from)[1..] == Clamped(evs[1..], c);
    if i > 0 {
      ClampedAt(evs[1..], c, i - 1);
      assert Clamped(evs, from)[i] == Clamped(evs[1..], c)[i - 1];
    } else if |evs| > 1 {
      ClampedAt(evs[1..], c, 0);
    }
  }

  /** What the map takes for the tempo of the crossed tune. */
  lemma CrossedMap(t: int)
    requires 4 <= t <= 7745
    ensures var cs := Clamped(TempoTrack(CrossedTune(t)), 0.0);
            BpmAt(cs, 120, 1.0) == 120 && BpmAt(cs, 120, 2.0) == t
  {
    hide TempoTrack, TempoMeta, BpmAt, Clamped, ExtractBpm;
    var evs := TempoTrack(CrossedTune(t));
    CrossedTrack(t);
    TempoSets(120, 0.0);
    TempoSets(t, 1.0);
    var cs := Clamped(evs, 0.0);
    ClampedFirst(evs);
    forall j | 0 <= j < 6
      ensures |cs| == 6 && cs[j].kind == evs[j].kind && cs[j].meta == evs[j].meta && Beat(cs[j]) >= Beat(evs[j])
    {
      ClampedAt(evs, 0.0, j);
    }
    ClampedInOrder(evs, 0.0);
    assert Beat(cs[3]) <= Beat(cs[4]);
    LastWins(cs, 0, 120, 1.0, 120);
    ClampedBeats(evs, 0.0, 4);
    LastWins(cs, 4, 120, 2.0, t);
  }

  lemma AgreedAtChange(evs: seq<MidiEvent>, bpm: int, i: nat)
    requires bpm >= 1 && i < |evs| && evs[i].kind == MetaTempo
    ensures AgreeAtChanges(evs, bpm) ==> InForce(evs, bpm, Beat(evs[i])) == BpmAt(Clamped(evs, 0.0), bpm, Beat(evs[i]))
  {
    if AgreeAtChanges(evs, bpm) { assert AgreeAt(evs, bpm, Beat(evs[i])); }
  }

  lemma TempoSets(t: int, time: real)
    requires 4 <= t <= 7745
    ensures Sets(TempoEvent(t, time), t)
  {
    forall f: int ensures ExtractBpm(TempoMeta(t), f) == t { UsualTempoSurvives(t, f); }
  }

  lemma ClampedFirst(evs: seq<MidiEvent>)
    requires evs != [] && evs[0].kind == MetaTempo
    ensures Clamped(evs, 0.0) != [] && Beat(Clamped(evs, 0.0)[0]) == Beat(evs[0])
  {}
}
