/** The ticks of a written track against real time. */
module SmfTicks {
  import opened Sorting
  import opened MidiEvents
  import opened Smf

  /** The ticks from `last` to the end of a sorted track. */
  function Ticks(events: seq<MidiEvent>, last: real, tpq: nat): nat {
    if events == [] then 0 else Delta(events[0].time, last, tpq) + Ticks(events[1..], events[0].time, tpq)
  }

  ghost predicate InTime(events: seq<MidiEvent>, last: real) {
    forall k | 0 <= k < |events| :: Prev(events, last, k) <= events[k].time
  }

  lemma InTimeTail(events: seq<MidiEvent>, last: real)
    requires InTime(events, last) && events != []
    ensures last <= events[0].time && InTime(events[1..], events[0].time)
  {
    assert Prev(events, last, 0) <= events[0].time;
    var rest := events[1..];
    forall k | 0 <= k < |rest| ensures Prev(rest, events[0].time, k) <= rest[k].time {
      assert Prev(events, last, k + 1) <= events[k + 1].time;
    }
  }

  /** A written track is in time. */
  lemma SortedInTime(events: seq<MidiEvent>)
    requires forall k | 0 <= k < |events| :: events[k].time >= 0.0
    ensures InTime(SortTrack(events), 0.0) && |SortTrack(events)| == |events|
  {
    TrackOrderTotal();
    SortIs(TrackOrder(), events);
    SortedMembers(events);
    var s := SortTrack(events);
    forall k | 0 <= k < |s| ensures Prev(s, 0.0, k) <= s[k].time {
      if k == 0 {
        assert s[k] in events;
      } else {
        assert TrackOrder()(s[k - 1], s[k]);
      }
    }
  }

  function Scaled(x: real, tpq: nat): real { x * tpq as real }

  lemma ScaledSub(a: real, b: real, tpq: nat)
    ensures Scaled(a - b, tpq) == Scaled(a, tpq) - Scaled(b, tpq)
    ensures b <= a ==> Scaled(a - b, tpq) >= 0.0
  {}

  lemma DeltaLag(time: real, last: real, tpq: nat)
    requires last <= time
    ensures 0.0 <= Scaled(time, tpq) - Scaled(last, tpq) - Delta(time, last, tpq) as real < 1.0
  {
    ScaledSub(time, last, tpq);
  }

  /** The written time never runs ahead, and after k events it lags by less than k ticks. */
  lemma {:induction false} TicksLag(events: seq<MidiEvent>, last: real, tpq: nat)
    requires InTime(events, last) && events != []
    ensures var lag := Scaled(events[|events| - 1].time, tpq) - Scaled(last, tpq) - Ticks(events, last, tpq) as real;
            0.0 <= lag < |events| as real
    decreases |events|
  {
    var ev, rest := events[0], events[1..];
    InTimeTail(events, last);
    DeltaLag(ev.time, last, tpq);
    if rest != [] {
      TicksLag(rest, ev.time, tpq);
    } else {
      assert Ticks(rest, ev.time, tpq) == 0;
    }
  }

  predicate Whole(x: real) { x == x.Floor as real }

  lemma WholeDelta(time: real, last: real, tpq: nat)
    requires last <= time
    ensures Whole(Scaled(time, tpq)) && Whole(Scaled(last, tpq)) ==>
              Delta(time, last, tpq) as real == Scaled(time, tpq) - Scaled(last, tpq)
  {
    ScaledSub(time, last, tpq);
    var x := Scaled(time - last, tpq);
    if Whole(Scaled(time, tpq)) && Whole(Scaled(last, tpq)) {
      assert x == (Scaled(time, tpq).Floor - Scaled(last, tpq).Floor) as real;
    }
  }

  ghost predicate OnTicks(events: seq<MidiEvent>, last: real, tpq: nat) {
    Whole(Scaled(last, tpq)) && forall k | 0 <= k < |events| :: Whole(Scaled(events[k].time, tpq))
  }

  /** With every time on a whole tick nothing is lost. */
  lemma {:induction false} WholeTicksExact(events: seq<MidiEvent>, last: real, tpq: nat)
    requires InTime(events, last) && events != []
    ensures OnTicks(events, last, tpq) ==>
              Ticks(events, last, tpq) as real == Scaled(events[|events| - 1].time, tpq) - Scaled(last, tpq)
    decreases |events|
  {
    hide Scaled, Delta;
    var ev, rest := events[0], events[1..];
    InTimeTail(events, last);
    WholeDelta(ev.time, last, tpq);
    if rest != [] {
      WholeTicksExact(rest, ev.time, tpq);
    } else {
      assert Ticks(rest, ev.time, tpq) == 0;
    }
  }
}
