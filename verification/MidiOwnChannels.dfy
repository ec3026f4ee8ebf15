/** Where events go: a playback sends on the channels reserved for it, and two that are in the table together
    never send on the same one. */
module MidiOwnChannels {
  import opened Wrappers
  import opened Channels
  import opened MidiTable
  import opened MidiSystem
  import opened MidiTheorems

  /** Whatever is in the table or in the log under this id has this channel map and this asset. */
  ghost predicate Tied(t: Table, uid: nat, chan: seq<int>, asset: nat) {
    && (forall k | 0 <= k < |t.log| && t.log[k].uid == uid :: t.log[k].channels == chan && t.log[k].asset == asset)
    && (forall i | 0 <= i < |t.pbs| && t.pbs[i].uid == uid :: t.pbs[i].chan == chan && t.pbs[i].asset == asset)
  }

  lemma {:induction false} AdvanceTied(t: Table, i: nat, events: seq<Event>, now: int, uid: nat, chan: seq<int>,
          asset: nat)
    requires i < |t.pbs| && Tied(t, uid, chan, asset)
    ensures Tied(AdvanceAt(t, i, events, now), uid, chan, asset)
    decreases |events| - t.pbs[i].index
  {
    if Due(t.pbs[i], events, now) { AdvanceTied(SendOne(t, i, events, now), i, events, now, uid, chan, asset); }
  }

  lemma {:induction false} DispatchTied(t: Table, i: nat, assets: map<nat, Asset>, now: int, uid: nat, chan: seq<int>,
          asset: nat)
    requires Tied(t, uid, chan, asset)
    ensures Tied(DispatchFrom(t, i, assets, now), uid, chan, asset)
    decreases |t.pbs| - i
  {
    hide AdvanceAt;
    if i < |t.pbs| {
      if t.pbs[i].state.Paused? {
        DispatchTied(t, i + 1, assets, now, uid, chan, asset);
      } else if t.pbs[i].asset !in assets {
        DispatchTied(Drop(t, i), i, assets, now, uid, chan, asset);
      } else {
        var events := assets[t.pbs[i].asset].events;
        AdvanceTied(t, i, events, now, uid, chan, asset);
        var t1 := AdvanceAt(t, i, events, now);
        if t1.pbs[i].index >= |events| {
          DispatchTied(Drop(t1, i), i, assets, now, uid, chan, asset);
        } else {
          DispatchTied(t1, i + 1, assets, now, uid, chan, asset);
        }
      }
    }
  }

  lemma SweepTied(t: Table, id: nat, uid: nat, chan: seq<int>, asset: nat)
    requires Tied(t, uid, chan, asset) && forall i, j | 0 <= i < j < |t.pbs| :: t.pbs[i].uid != t.pbs[j].uid
    ensures var (kept, left) := Sweep(t.pbs, t.used, id); Tied(t.(pbs := kept, used := left), uid, chan, asset)
  {
    SweepEntries(t.pbs, t.used, id);
    var kept := Sweep(t.pbs, t.used, id).0;
    forall i | 0 <= i < |kept| && kept[i].uid == uid ensures kept[i].chan == chan && kept[i].asset == asset {
      assert kept[i] in t.pbs;
    }
  }

  lemma StepTied(s: Sys, step: Step, uid: nat, chan: seq<int>, asset: nat)
    requires Inv(s) && Do(s, step).Some? && uid < s.nextUid && Tied(s.t, uid, chan, asset)
    ensures uid < Do(s, step).value.nextUid && Tied(Do(s, step).value.t, uid, chan, asset)
  {
    hide Indices, LogOk, Held, Pending, AssetsOk, PcsOk, MidiTable.EntryOk, DispatchFrom, Sweep, ReleaseAll, Reserve;
    match step
    case Dispatch(th) => DispatchTied(s.t, 0, s.assets, s.pcs[th].now, uid, chan, asset);
    case FreePlaybacks(_, id) => SweepTied(s.t, id, uid, chan, asset);
    case _ =>
  }

  lemma {:induction false} RunTied(s: Sys, steps: seq<Step>, uid: nat, chan: seq<int>, asset: nat)
    requires Inv(s) && AllAllowed(steps) && Run(s, steps).Some? && uid < s.nextUid && Tied(s.t, uid, chan, asset)
    ensures Tied(Run(s, steps).value.t, uid, chan, asset)
    decreases |steps|
  {
    hide Inv, Do, Tied;
    if steps != [] {
      StepKeeps(s, steps[0]);
      StepTied(s, steps[0], uid, chan, asset);
      RunTied(Do(s, steps[0]).value, steps[1..], uid, chan, asset);
    }
  }

  /** Over every run, each event that is handled for a playback goes out on the hardware channel that its map
      gives for the event's channel, which is one that the playback holds. */
  lemma SendsOnOwnChannels(s: Sys, steps: seq<Step>, i: nat, k: nat)
    requires Reachable(s) && i < |s.t.pbs| && AllAllowed(steps) && Run(s, steps).Some?
    requires k < |Run(s, steps).value.t.log| && Run(s, steps).value.t.log[k].uid == s.t.pbs[i].uid
    ensures var pb := s.t.pbs[i]; var s1 := Run(s, steps).value; var x := s1.t.log[k];
            && pb.asset in s1.loaded && x.index < |s1.loaded[pb.asset].events|
            && 0 <= s1.loaded[pb.asset].events[x.index].channel < |pb.chan|
            && x.chan == pb.chan[s1.loaded[pb.asset].events[x.index].channel]
            && x.chan in Owned(pb.chan)
  {
    hide Do, Indices, Held, Pending, AssetsOk, PcsOk;
    ReachableInv(s);
    var pb := s.t.pbs[i];
    assert MidiTable.EntryOk(pb, s.loaded, s.nextUid, s.clock);
    RunTied(s, steps, pb.uid, pb.chan, pb.asset);
    RunKeeps(s, steps);
    var s1 := Run(s, steps).value;
    var x := s1.t.log[k];
    assert SentOk(x, s1.loaded, s1.clock);
    var source := s1.loaded[pb.asset].events[x.index].channel;
    assert x.channels == pb.chan && pb.chan[source] != UNMAPPED;
  }

  /** Two playbacks that are in the table together never send on the same hardware channel, before or after. */
  lemma NeverShared(s: Sys, steps: seq<Step>, i: nat, j: nat, k: nat, l: nat)
    requires Reachable(s) && i < j < |s.t.pbs| && AllAllowed(steps) && Run(s, steps).Some?
    requires k < |Run(s, steps).value.t.log| && Run(s, steps).value.t.log[k].uid == s.t.pbs[i].uid
    requires l < |Run(s, steps).value.t.log| && Run(s, steps).value.t.log[l].uid == s.t.pbs[j].uid
    ensures Run(s, steps).value.t.log[k].chan != Run(s, steps).value.t.log[l].chan
  {
    hide Run, Owned;
    ChannelsAccounted(s);
    SendsOnOwnChannels(s, steps, i, k);
    SendsOnOwnChannels(s, steps, j, l);
  }
}
