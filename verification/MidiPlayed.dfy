/** Playing to the end: a playback that nobody stops leaves the table only when all its events were handled. */
module MidiPlayed {
  import opened Wrappers
  import opened Channels
  import opened MidiTable
  import opened MidiSystem
  import opened MidiPause

  /** No entry of the table is this playback. */
  ghost predicate Gone(pbs: seq<Playback>, uid: nat) { forall k | 0 <= k < |pbs| :: pbs[k].uid != uid }

  ghost predicate Listed(pbs: seq<Playback>, uid: nat, asset: nat) {
    exists k :: 0 <= k < |pbs| && pbs[k].uid == uid && pbs[k].asset == asset
  }

  /** The playback is in the table, or it has gone with all its `n` events handled. */
  ghost predicate Safe(t: Table, uid: nat, asset: nat, n: nat) {
    Listed(t.pbs, uid, asset) || (Gone(t.pbs, uid) && |Indices(t.log, uid)| == n)
  }

  // ---------------------------------------------------------------- a pass

  lemma {:induction false} AdvanceLogsOwn(t: Table, i: nat, events: seq<Event>, now: int, uid: nat)
    requires i < |t.pbs| && t.pbs[i].uid != uid
    ensures Indices(AdvanceAt(t, i, events, now).log, uid) == Indices(t.log, uid)
    decreases |events| - t.pbs[i].index
  {
    if Due(t.pbs[i], events, now) {
      var t1 := SendOne(t, i, events, now);
      IndicesPush(t.log, t1.log[|t.log|], uid);
      AdvanceLogsOwn(t1, i, events, now, uid);
    }
  }

  /** What has gone does not come back. */
  lemma {:induction false} GoneStays(t: Table, i: nat, assets: map<nat, Asset>, now: int, uid: nat)
    requires Gone(t.pbs, uid)
    ensures var r := DispatchFrom(t, i, assets, now); Gone(r.pbs, uid) && Indices(r.log, uid) == Indices(t.log, uid)
    decreases |t.pbs| - i
  {
    hide AdvanceAt, Indices;
    if i < |t.pbs| {
      if t.pbs[i].state.Paused? {
        GoneStays(t, i + 1, assets, now, uid);
      } else if t.pbs[i].asset !in assets {
        GoneStays(Drop(t, i), i, assets, now, uid);
      } else {
        var events := assets[t.pbs[i].asset].events;
        AdvanceStops(t, i, events, now);
        AdvanceLogsOwn(t, i, events, now, uid);
        var t1 := AdvanceAt(t, i, events, now);
        if t1.pbs[i].index >= |events| {
          GoneStays(Drop(t1, i), i, assets, now, uid);
        } else {
          GoneStays(t1, i + 1, assets, now, uid);
        }
      }
    }
  }

  /** Dropping an entry: the others stay. */
  lemma DropLists(t: Table, i: nat, uid: nat, asset: nat)
    requires DistinctUids(t.pbs) && i < |t.pbs| && Listed(t.pbs, uid, asset)
    ensures if t.pbs[i].uid == uid then Gone(Drop(t, i).pbs, uid) else Listed(Drop(t, i).pbs, uid, asset)
  {
    if t.pbs[i].uid != uid {
      var k :| 0 <= k < |t.pbs| && t.pbs[k].uid == uid && t.pbs[k].asset == asset;
      DropKeepsOther(t, i, t.pbs[k]);
    }
  }

  /** A pass removes an entry whose asset is loaded only when all its events were handled. */
  lemma {:induction false} DispatchPlays(t: Table, i: nat, assets: map<nat, Asset>, now: int, uid: nat, asset: nat,
          pending: multiset<int>, loaded: map<nat, Asset>, nextUid: nat, clock: int)
    requires TableInv(t, pending, loaded, nextUid, clock) && AssetsOk(assets, loaded) && now <= clock
    requires Listed(t.pbs, uid, asset) && asset in assets
    ensures Safe(DispatchFrom(t, i, assets, now), uid, asset, |assets[asset].events|)
    decreases |t.pbs| - i
  {
    hide AdvanceAt, Indices, TableInv, AssetsOk, Gone, Listed, DistinctUids;
    if i < |t.pbs| {
      Distinct(t, pending, loaded, nextUid, clock);
      if t.pbs[i].state.Paused? {
        DispatchPlays(t, i + 1, assets, now, uid, asset, pending, loaded, nextUid, clock);
      } else if t.pbs[i].asset !in assets {
        OwnAsset(t, i, uid, asset);
        DropLists(t, i, uid, asset);
        DropKeeps(t, i, pending, loaded, nextUid, clock);
        DispatchPlays(Drop(t, i), i, assets, now, uid, asset, pending, loaded, nextUid, clock);
      } else {
        var events := assets[t.pbs[i].asset].events;
        SameAsset(assets, loaded, t.pbs[i].asset);
        AdvanceKeeps(t, i, events, now, pending, loaded, nextUid, clock);
        var t1 := AdvanceAt(t, i, events, now);
        AdvanceLists(t, i, events, now, uid, asset);
        Distinct(t1, pending, loaded, nextUid, clock);
        if t1.pbs[i].index >= |events| {
          DropLists(t1, i, uid, asset);
          if t1.pbs[i].uid == uid {
            OwnAsset(t1, i, uid, asset);
            SameAsset(assets, loaded, asset);
            AllHandled(t1, i, pending, loaded, nextUid, clock);
            GoneStays(Drop(t1, i), i, assets, now, uid);
          } else {
            DropKeeps(t1, i, pending, loaded, nextUid, clock);
            DispatchPlays(Drop(t1, i), i, assets, now, uid, asset, pending, loaded, nextUid, clock);
          }
        } else {
          DispatchPlays(t1, i + 1, assets, now, uid, asset, pending, loaded, nextUid, clock);
        }
      }
    }
  }

  lemma SameAsset(assets: map<nat, Asset>, loaded: map<nat, Asset>, id: nat)
    requires AssetsOk(assets, loaded) && id in assets
    ensures AssetsOk(map[], loaded) && id in loaded && loaded[id] == assets[id]
  {}

  lemma Distinct(t: Table, pending: multiset<int>, loaded: map<nat, Asset>, nextUid: nat, clock: int)
    requires TableInv(t, pending, loaded, nextUid, clock)
    ensures DistinctUids(t.pbs)
  {}

  lemma OwnAsset(t: Table, i: nat, uid: nat, asset: nat)
    requires DistinctUids(t.pbs) && i < |t.pbs| && Listed(t.pbs, uid, asset)
    ensures t.pbs[i].uid == uid ==> t.pbs[i].asset == asset
  {}

  lemma AdvanceLists(t: Table, i: nat, events: seq<Event>, now: int, uid: nat, asset: nat)
    requires i < |t.pbs| && Listed(t.pbs, uid, asset)
    ensures var t1 := AdvanceAt(t, i, events, now);
            Listed(t1.pbs, uid, asset) && t1.pbs[i].uid == t.pbs[i].uid && t1.pbs[i].asset == t.pbs[i].asset
  {
    hide AdvanceAt;
    AdvanceStops(t, i, events, now);
    var k :| 0 <= k < |t.pbs| && t.pbs[k].uid == uid && t.pbs[k].asset == asset;
    var t1 := AdvanceAt(t, i, events, now);
    assert t1.pbs[k].uid == uid && t1.pbs[k].asset == asset;
  }

  lemma AllHandled(t: Table, i: nat, pending: multiset<int>, loaded: map<nat, Asset>, nextUid: nat, clock: int)
    requires TableInv(t, pending, loaded, nextUid, clock) && i < |t.pbs| && t.pbs[i].asset in loaded
    requires t.pbs[i].index >= |loaded[t.pbs[i].asset].events|
    ensures |Indices(t.log, t.pbs[i].uid)| == |loaded[t.pbs[i].asset].events|
  {
    assert MidiTable.EntryOk(t.pbs[i], loaded, nextUid, clock);
  }

  // ---------------------------------------------------------------- steps and runs

  /** Steps that stop no playback of an asset and free neither it nor all assets. */
  predicate LeavesPlaying(step: Step, id: nat) {
    && !step.StopAll? && !step.StopForFreeAll? && !step.ClearAssets?
    && (step.FreePlaybacks? ==> step.id != id)
  }

  /** The asset is loaded, and no thread is about to free it. */
  ghost predicate StaysLoaded(s: Sys, id: nat) {
    id in s.assets && forall th | 0 <= th < |s.pcs| :: s.pcs[th] != Swept(id)
  }

  lemma StepStaysLoaded(s: Sys, step: Step, id: nat)
    requires Inv(s) && Do(s, step).Some? && LeavesPlaying(step, id) && StaysLoaded(s, id)
    ensures StaysLoaded(Do(s, step).value, id) && Do(s, step).value.assets[id] == s.assets[id]
  {
    hide TableInv, DispatchFrom, Sweep, ReleaseAll, Reserve;
    if step.Insert? { assert PcOk(s.pcs[step.th], s); }
  }

  lemma StepPlays(s: Sys, step: Step, uid: nat, id: nat)
    requires Inv(s) && Do(s, step).Some? && LeavesPlaying(step, id) && StaysLoaded(s, id)
    requires uid < s.nextUid && Safe(s.t, uid, id, |s.assets[id].events|)
    ensures uid < Do(s, step).value.nextUid && Safe(Do(s, step).value.t, uid, id, |s.assets[id].events|)
  {
    hide Indices, TableInv, AssetsOk, DispatchFrom, Sweep, ReleaseAll, Reserve;
    match step
    case Dispatch(th) =>
      var now := s.pcs[th].now;
      assert PcOk(s.pcs[th], s);
      if Listed(s.t.pbs, uid, id) {
        DispatchPlays(s.t, 0, s.assets, now, uid, id, Pending(s.pcs), s.loaded, s.nextUid, s.clock);
      } else {
        GoneStays(s.t, 0, s.assets, now, uid);
      }
    case FreePlaybacks(_, other) =>
      Distinct(s.t, Pending(s.pcs), s.loaded, s.nextUid, s.clock);
      SweepEntries(s.t.pbs, s.t.used, other);
      SweepLists(s.t, other, uid, id);
    case Pause(_) => SameUids(s.t.pbs, PauseAll(s.t.pbs, s.clock), uid, id);
    case Resume(_) => SameUids(s.t.pbs, ResumeAll(s.t.pbs, s.clock), uid, id);
    case Publish(th) =>
      if Listed(s.t.pbs, uid, id) {
        var k :| 0 <= k < |s.t.pbs| && s.t.pbs[k].uid == uid && s.t.pbs[k].asset == id;
        assert Do(s, step).value.t.pbs[k] == s.t.pbs[k];
      }
    case _ =>
  }

  lemma SameUids(a: seq<Playback>, b: seq<Playback>, uid: nat, asset: nat)
    requires |a| == |b| && forall k | 0 <= k < |a| :: a[k].uid == b[k].uid && a[k].asset == b[k].asset
    ensures Gone(a, uid) ==> Gone(b, uid)
    ensures Listed(a, uid, asset) ==> Listed(b, uid, asset)
  {
    if Listed(a, uid, asset) {
      var k :| 0 <= k < |a| && a[k].uid == uid && a[k].asset == asset;
      assert b[k].uid == uid && b[k].asset == asset;
    }
  }

  lemma SweepLists(t: Table, other: nat, uid: nat, asset: nat)
    requires DistinctUids(t.pbs) && other != asset
    ensures var kept := Sweep(t.pbs, t.used, other).0;
            (Gone(t.pbs, uid) ==> Gone(kept, uid)) && (Listed(t.pbs, uid, asset) ==> Listed(kept, uid, asset))
  {
    SweepEntries(t.pbs, t.used, other);
    var kept := Sweep(t.pbs, t.used, other).0;
    if Gone(t.pbs, uid) {
      forall k | 0 <= k < |kept| ensures kept[k].uid != uid { assert kept[k] in t.pbs; }
    }
    if Listed(t.pbs, uid, asset) {
      var k :| 0 <= k < |t.pbs| && t.pbs[k].uid == uid && t.pbs[k].asset == asset;
      assert t.pbs[k] in kept;
    }
  }

  lemma {:induction false} RunPlays(s: Sys, steps: seq<Step>, uid: nat, id: nat)
    requires Inv(s) && AllAllowed(steps) && Run(s, steps).Some?
    requires StaysLoaded(s, id) && forall k | 0 <= k < |steps| :: LeavesPlaying(steps[k], id)
    requires uid < s.nextUid && Safe(s.t, uid, id, |s.assets[id].events|)
    ensures Safe(Run(s, steps).value.t, uid, id, |s.assets[id].events|)
    decreases |steps|
  {
    hide Inv, Do, Safe;
    if steps != [] {
      StepKeeps(s, steps[0]);
      StepStaysLoaded(s, steps[0], id);
      StepPlays(s, steps[0], uid, id);
      RunPlays(Do(s, steps[0]).value, steps[1..], uid, id);
    }
  }

  /** Over every run in which nobody stops the playbacks of its asset or frees it, a published playback is
      still in the table, or each of its events was handled, once and in order. */
  lemma PlayedToTheEnd(s: Sys, steps: seq<Step>, i: nat)
    requires Reachable(s) && i < |s.t.pbs| && AllAllowed(steps) && Run(s, steps).Some?
    requires StaysLoaded(s, s.t.pbs[i].asset)
    requires forall k | 0 <= k < |steps| :: LeavesPlaying(steps[k], s.t.pbs[i].asset)
    ensures var pb := s.t.pbs[i]; var s1 := Run(s, steps).value;
            || Listed(s1.t.pbs, pb.uid, pb.asset)
            || (InOrder(Indices(s1.t.log, pb.uid)) && |Indices(s1.t.log, pb.uid)| == |s.assets[pb.asset].events|)
  {
    hide Indices, Do;
    ReachableInv(s);
    var pb := s.t.pbs[i];
    assert MidiTable.EntryOk(pb, s.loaded, s.nextUid, s.clock);
    RunPlays(s, steps, pb.uid, pb.asset);
    RunKeeps(s, steps);
  }
}
