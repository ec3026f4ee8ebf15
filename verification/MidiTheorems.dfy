/** What holds in every reachable state of the MIDI runtime. */
module MidiTheorems {
  import opened Wrappers
  import opened Channels
  import opened MidiTable
  import opened MidiSystem

  function PcChannels(pc: Pc): set<int> { if pc.Reserved? || pc.Started? then Owned(pc.chan) else {} }

  lemma {:induction false} HeldMember(pbs: seq<Playback>, h: int)
    ensures h in Held(pbs) <==> exists i :: 0 <= i < |pbs| && h in Owned(pbs[i].chan)
  {
    if pbs != [] {
      HeldMember(pbs[1..], h);
      assert forall i | 1 <= i < |pbs| :: pbs[i] == pbs[1..][i - 1];
      if h in Held(pbs[1..]) {
        var i :| 0 <= i < |pbs[1..]| && h in Owned(pbs[1..][i].chan);
        assert h in Owned(pbs[i + 1].chan);
      }
    }
  }

  lemma {:induction false} PendingMember(pcs: seq<Pc>, h: int)
    ensures h in Pending(pcs) <==> exists a :: 0 <= a < |pcs| && h in PcChannels(pcs[a])
  {
    if pcs != [] {
      PendingMember(pcs[1..], h);
      assert forall a | 1 <= a < |pcs| :: pcs[a] == pcs[1..][a - 1];
      if h in Pending(pcs[1..]) {
        var a :| 0 <= a < |pcs[1..]| && h in PcChannels(pcs[1..][a]);
        assert h in PcChannels(pcs[a + 1]);
      }
    }
  }

  lemma {:induction false} HeldTwice(pbs: seq<Playback>, i: nat, j: nat, h: int)
    requires i < j < |pbs| && h in Owned(pbs[i].chan) && h in Owned(pbs[j].chan)
    ensures Held(pbs)[h] >= 2
  {
    if i == 0 {
      assert pbs[1..][j - 1] == pbs[j];
      HeldMember(pbs[1..], h);
    } else {
      HeldTwice(pbs[1..], i - 1, j - 1, h);
    }
  }

  lemma {:induction false} PendingTwice(pcs: seq<Pc>, a: nat, b: nat, h: int)
    requires a < b < |pcs| && h in PcChannels(pcs[a]) && h in PcChannels(pcs[b])
    ensures Pending(pcs)[h] >= 2
  {
    if a == 0 {
      assert pcs[1..][b - 1] == pcs[b];
      PendingMember(pcs[1..], h);
    } else {
      PendingTwice(pcs[1..], a - 1, b - 1, h);
    }
  }

  /** A channel is in use exactly when a published playback or a play that has reserved and not
      yet published holds it, and no two of them hold the same channel. */
  lemma ChannelsAccounted(s: Sys)
    requires Reachable(s)
    ensures forall h :: h in s.t.used <==>
              (exists i :: 0 <= i < |s.t.pbs| && h in Owned(s.t.pbs[i].chan)) ||
              (exists a :: 0 <= a < |s.pcs| && h in PcChannels(s.pcs[a]))
    ensures forall i, j | 0 <= i < j < |s.t.pbs| :: Owned(s.t.pbs[i].chan) !! Owned(s.t.pbs[j].chan)
    ensures forall a, b | 0 <= a < b < |s.pcs| :: PcChannels(s.pcs[a]) !! PcChannels(s.pcs[b])
    ensures forall i, a | 0 <= i < |s.t.pbs| && 0 <= a < |s.pcs| :: Owned(s.t.pbs[i].chan) !! PcChannels(s.pcs[a])
  {
    ReachableInv(s);
    forall h
      ensures h in s.t.used <==>
                (exists i :: 0 <= i < |s.t.pbs| && h in Owned(s.t.pbs[i].chan)) ||
                (exists a :: 0 <= a < |s.pcs| && h in PcChannels(s.pcs[a]))
    {
      HeldMember(s.t.pbs, h);
      PendingMember(s.pcs, h);
      assert h in s.t.used <==> h in Held(s.t.pbs) + Pending(s.pcs);
    }
    forall h ensures Held(s.t.pbs)[h] + Pending(s.pcs)[h] <= 1 {
      assert multiset(s.t.used)[h] <= 1;
      assert (Held(s.t.pbs) + Pending(s.pcs))[h] == multiset(s.t.used)[h];
    }
    forall i, j, h | 0 <= i < j < |s.t.pbs| && h in Owned(s.t.pbs[i].chan) && h in Owned(s.t.pbs[j].chan)
      ensures false
    { HeldTwice(s.t.pbs, i, j, h); }
    forall a, b, h | 0 <= a < b < |s.pcs| && h in PcChannels(s.pcs[a]) && h in PcChannels(s.pcs[b])
      ensures false
    { PendingTwice(s.pcs, a, b, h); }
    forall i, a, h | 0 <= i < |s.t.pbs| && 0 <= a < |s.pcs| && h in Owned(s.t.pbs[i].chan) && h in PcChannels(s.pcs[a])
      ensures false
    { HeldMember(s.t.pbs, h); PendingMember(s.pcs, h); }
  }

  /** A play fails at its reservation only when the drums are busy or the free melodic channels
      too few for the tune, and then it leaves the whole table as it was. Otherwise it serves
      every channel of the tune. */
  lemma PlayOutcome(s: Sys, th: nat)
    requires Reachable(s) && At(s, th) && s.pcs[th].Masked?
    ensures var mask := s.pcs[th].mask; var s1 := Do(s, Take(th)).value;
            && (s1.pcs[th].Idle? <==> (DRUMS in mask && DRUMS in s.t.used) || |Melodic() - s.t.used| < |mask - {DRUMS}|)
            && (s1.pcs[th].Idle? ==> s1.t == s.t)
            && (!s1.pcs[th].Idle? ==> s1.pcs[th].Reserved? && Serves(s1.pcs[th].chan, mask))
  {
    ReachableInv(s);
    var pc := s.pcs[th];
    assert PcOk(pc, s) && WellFormed(s.loaded[pc.id]);
    ReserveIff(s.t.used, pc.mask);
    if Reserve(s.t.used, pc.mask).Some? { ReserveServes(s.t.used, pc.mask); }
  }

  /** Over every run the events of a playback are handled in index order and each once, never
      before their time, and always on a mapped channel, the drum channel for drum events only. */
  lemma EventsInOrderAndOnTime(s: Sys)
    requires Reachable(s)
    ensures forall uid: nat :: InOrder(Indices(s.t.log, uid))
    ensures forall i | 0 <= i < |s.t.pbs| :: |Indices(s.t.log, s.t.pbs[i].uid)| == s.t.pbs[i].index
    ensures forall k | 0 <= k < |s.t.log| :: SentOk(s.t.log[k], s.loaded, s.clock)
  {
    ReachableInv(s);
  }

  /** After a dispatch pass no event that was due at the time the pass sampled is unsent. */
  lemma DispatchLeavesNothingDue(s: Sys, th: nat)
    requires Reachable(s) && At(s, th) && s.pcs[th].Sampled?
    ensures AllSettled(Do(s, Dispatch(th)).value.t.pbs, s.assets, s.pcs[th].now)
  {
    ReachableInv(s);
    PassSettles(s.t, 0, s.assets, s.pcs[th].now);
  }

  // ---------------------------------------------------------------- one thread among the others

  /** The sections of an operation in their order: which steps a thread may take where it stands. */
  predicate Follows(pc: Pc, step: Step) {
    match pc
    case Idle =>
      step.TakeId? || step.ReadMask? || step.FreePlaybacks? || step.StopAll? || step.StopForFreeAll? || step.Pause?
          || step.Resume? || step.Sample?
    case HasId(_, _) => step.Insert?
    case Masked(_, _) => step.Take?
    case Reserved(_, _) => step.ReadClock?
    case Started(_, _, _) => step.Publish?
    case Swept(_) => step.FreeAsset?
    case Stopped => step.ClearAssets?
    case Sampled(_) => step.Dispatch?
  }

  /** A thread can always go on with its own operation, and with nothing else before that is done. */
  lemma EnabledIff(s: Sys, step: Step)
    ensures Do(s, step).Some? <==> step.Tick? || (step.th < |s.pcs| && Follows(s.pcs[step.th], step))
  {}

  predicate OfOthers(step: Step, th: nat) { step.Tick? || step.th != th }

  lemma {:induction false} OthersKeep(s: Sys, steps: seq<Step>, th: nat)
    requires th < |s.pcs| && Run(s, steps).Some? && forall k | 0 <= k < |steps| :: OfOthers(steps[k], th)
    ensures th < |Run(s, steps).value.pcs| && Run(s, steps).value.pcs[th] == s.pcs[th]
    decreases |steps|
  {
    if steps != [] {
      StepOfOther(s, steps[0], th);
      OthersKeep(Do(s, steps[0]).value, steps[1..], th);
    }
  }

  lemma StepOfOther(s: Sys, step: Step, th: nat)
    requires th < |s.pcs| && Do(s, step).Some? && OfOthers(step, th)
    ensures th < |Do(s, step).value.pcs| && Do(s, step).value.pcs[th] == s.pcs[th]
  {
    hide DispatchFrom, Sweep, ReleaseAll, Reserve;
  }

  /** Whatever the other threads do between the two, a play publishes, after the entries there, its asset on the
      channels that it reserved, playing from the first event, and started at the clock that it read. */
  lemma PlayPublishes(s: Sys, th: nat, steps: seq<Step>)
    requires th < |s.pcs| && s.pcs[th].Reserved? && Run(Do(s, ReadClock(th)).value, steps).Some?
    requires forall k | 0 <= k < |steps| :: OfOthers(steps[k], th)
    ensures var s2 := Run(Do(s, ReadClock(th)).value, steps).value;
            && Do(s2, Publish(th)).Some?
            && Do(s2, Publish(th)).value.t
               == s2.t.(pbs := s2.t.pbs + [Playback(s2.nextUid, s.pcs[th].id, Playing, 0, s.clock, 0, s.pcs[th].chan)])
  {
    hide DispatchFrom, Sweep, ReleaseAll, Reserve, Run;
    OthersKeep(Do(s, ReadClock(th)).value, steps, th);
  }
}
