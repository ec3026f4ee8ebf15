/** Pausing over a run: whatever the other threads do in between, a paused playback stays as it is. */
module MidiPause {
  import opened Wrappers
  import opened Channels
  import opened MidiTable
  import opened MidiSystem

  ghost predicate DistinctUids(pbs: seq<Playback>) { forall i, j | 0 <= i < j < |pbs| :: pbs[i].uid != pbs[j].uid }

  /** The entry is in the table, and the table has logged this many of its events. */
  ghost predicate Keeps(t: Table, t1: Table, pb: Playback) {
    pb in t1.pbs && DistinctUids(t1.pbs) && Indices(t1.log, pb.uid) == Indices(t.log, pb.uid)
  }

  lemma DropKeepsOther(t: Table, i: nat, pb: Playback)
    requires DistinctUids(t.pbs) && pb in t.pbs && i < |t.pbs| && t.pbs[i] != pb
    ensures Keeps(t, Drop(t, i), pb)
  {
    var k :| 0 <= k < |t.pbs| && t.pbs[k] == pb;
    var out := SwapRemove(t.pbs, i);
    if k == |t.pbs| - 1 { assert out[i] == pb; } else { assert out[k] == pb; }
  }

  lemma SendKeepsOther(t: Table, i: nat, events: seq<Event>, now: int, pb: Playback)
    requires DistinctUids(t.pbs) && pb in t.pbs && i < |t.pbs| && t.pbs[i].index < |events| && t.pbs[i].uid != pb.uid
    ensures Keeps(t, SendOne(t, i, events, now), pb)
  {
    var t1 := SendOne(t, i, events, now);
    var k :| 0 <= k < |t.pbs| && t.pbs[k] == pb;
    assert t1.pbs[k] == pb;
    IndicesPush(t.log, t1.log[|t.log|], pb.uid);
  }

  lemma {:induction false} AdvanceKeepsOther(t: Table, i: nat, events: seq<Event>, now: int, pb: Playback)
    requires DistinctUids(t.pbs) && pb in t.pbs && i < |t.pbs| && t.pbs[i].uid != pb.uid
    ensures Keeps(t, AdvanceAt(t, i, events, now), pb)
    ensures AdvanceAt(t, i, events, now).pbs[i].uid == t.pbs[i].uid
    decreases |events| - t.pbs[i].index
  {
    if Due(t.pbs[i], events, now) {
      SendKeepsOther(t, i, events, now, pb);
      AdvanceKeepsOther(SendOne(t, i, events, now), i, events, now, pb);
    }
  }

  /** A dispatch pass passes over a paused entry, even one whose asset is gone. */
  lemma {:induction false} DispatchKeepsPaused(t: Table, i: nat, assets: map<nat, Asset>, now: int, pb: Playback)
    requires DistinctUids(t.pbs) && pb in t.pbs && pb.state.Paused?
    ensures Keeps(t, DispatchFrom(t, i, assets, now), pb)
    decreases |t.pbs| - i
  {
    hide AdvanceAt, DistinctUids, Indices;
    if i < |t.pbs| {
      if t.pbs[i].state.Paused? {
        DispatchKeepsPaused(t, i + 1, assets, now, pb);
      } else if t.pbs[i].asset !in assets {
        DropKeepsOther(t, i, pb);
        DispatchKeepsPaused(Drop(t, i), i, assets, now, pb);
      } else {
        var events := assets[t.pbs[i].asset].events;
        OtherUid(t.pbs, i, pb);
        AdvanceKeepsOther(t, i, events, now, pb);
        var t1 := AdvanceAt(t, i, events, now);
        if t1.pbs[i].index >= |events| {
          DropKeepsOther(t1, i, pb);
          DispatchKeepsPaused(Drop(t1, i), i, assets, now, pb);
        } else {
          DispatchKeepsPaused(t1, i + 1, assets, now, pb);
        }
      }
    }
  }

  lemma OtherUid(pbs: seq<Playback>, i: nat, pb: Playback)
    requires DistinctUids(pbs) && pb in pbs && i < |pbs| && pbs[i] != pb
    ensures pbs[i].uid != pb.uid
  {
    var k :| 0 <= k < |pbs| && pbs[k] == pb;
  }

  // ---------------------------------------------------------------- steps and runs

  /** Steps that neither resume nor stop playbacks of an asset. */
  predicate LeavesPaused(step: Step, id: nat) {
    !step.Resume? && !step.StopAll? && !step.StopForFreeAll? && (step.FreePlaybacks? ==> step.id != id)
  }

  lemma PauseKeepsPaused(t: Table, now: int, pb: Playback)
    requires DistinctUids(t.pbs) && pb in t.pbs && pb.state.Paused?
    ensures Keeps(t, t.(pbs := PauseAll(t.pbs, now)), pb)
  {
    var k :| 0 <= k < |t.pbs| && t.pbs[k] == pb;
    assert PauseAll(t.pbs, now)[k] == pb;
  }

  lemma StepKeepsPaused(s: Sys, step: Step, pb: Playback)
    requires Inv(s) && Do(s, step).Some? && LeavesPaused(step, pb.asset)
    requires pb in s.t.pbs && pb.state.Paused?
    ensures pb in Do(s, step).value.t.pbs
    ensures Indices(Do(s, step).value.t.log, pb.uid) == Indices(s.t.log, pb.uid)
  {
    hide Indices, PcsOk, AssetsOk, Pending, Held, LogOk, MidiTable.EntryOk, Reserve, DispatchFrom, Sweep;
    assert DistinctUids(s.t.pbs);
    match step
    case Dispatch(th) => DispatchKeepsPaused(s.t, 0, s.assets, s.pcs[th].now, pb);
    case Pause(_) => PauseKeepsPaused(s.t, s.clock, pb);
    case FreePlaybacks(_, id) => SweepEntries(s.t.pbs, s.t.used, id);
    case _ =>
  }

  lemma {:induction false} RunKeepsPaused(s: Sys, steps: seq<Step>, pb: Playback)
    requires Inv(s) && AllAllowed(steps) && Run(s, steps).Some?
    requires forall k | 0 <= k < |steps| :: LeavesPaused(steps[k], pb.asset)
    requires pb in s.t.pbs && pb.state.Paused?
    ensures pb in Run(s, steps).value.t.pbs
    ensures Indices(Run(s, steps).value.t.log, pb.uid) == Indices(s.t.log, pb.uid)
    decreases |steps|
  {
    hide Inv, Indices, Do;
    if steps != [] {
      var s1 := Do(s, steps[0]).value;
      StepKeeps(s, steps[0]);
      StepKeepsPaused(s, steps[0], pb);
      RunKeepsPaused(s1, steps[1..], pb);
    }
  }

  /** The playback that a resumed state shows for an entry of the state before the pause. */
  ghost predicate Continues(s: Sys, i: nat, s3: Sys, j: nat)
    requires i < |s.t.pbs|
  {
    && j < |s3.t.pbs|
    && s3.t.pbs[j].state.Playing?
    && Elapsed(s3.t.pbs[j], s3.clock) == Elapsed(s.t.pbs[i], s.clock)
    && s3.t.pbs[j] == s.t.pbs[i].(state := Playing, start := s3.t.pbs[j].start, elapsed := s3.t.pbs[j].elapsed)
  }

  /** Pause, then any run of any threads in which nothing resumes and nothing stops the playbacks of
      its asset, then resume: every entry is still there, playing, with the logical time elapsed that it
      had at the pause, at the same event and on the same channels; and none of its events was handled. */
  lemma {:induction false} PauseRunResume(s: Sys, th: nat, steps: seq<Step>, th2: nat, i: nat) returns (j: nat)
    requires Reachable(s) && i < |s.t.pbs| && AllAllowed(steps)
    requires Do(s, Pause(th)).Some? && Run(Do(s, Pause(th)).value, steps).Some?
    requires Do(Run(Do(s, Pause(th)).value, steps).value, Resume(th2)).Some?
    requires forall k | 0 <= k < |steps| :: LeavesPaused(steps[k], s.t.pbs[i].asset)
    ensures var s3 := Do(Run(Do(s, Pause(th)).value, steps).value, Resume(th2)).value;
            && Continues(s, i, s3, j)
            && Indices(s3.t.log, s.t.pbs[i].uid) == Indices(s.t.log, s.t.pbs[i].uid)
  {
    hide Inv, Indices;
    ReachableInv(s);
    StepKeeps(s, Pause(th));
    var s1 := Do(s, Pause(th)).value;
    var pb := PauseOne(s.t.pbs[i], s.clock);
    assert s1.t.pbs[i] == pb;
    RunKeepsPaused(s1, steps, pb);
    var s2 := Run(s1, steps).value;
    j :| 0 <= j < |s2.t.pbs| && s2.t.pbs[j] == pb;
    var s3 := Do(s2, Resume(th2)).value;
    assert s3.t.pbs[j] == ResumeOne(pb, s2.clock);
  }
}
