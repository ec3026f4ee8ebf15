/** The critical sections as they run against the steps of the state machine: each method of the
    runtime, called where its step is enabled, takes the state that the step takes. */
module MidiRefinement {
  import opened Wrappers
  import opened Channels
  import opened MidiTable
  import opened MidiSystem
  import opened MidiRuntime

  /** The runtime object is what the state machine's state says. */
  ghost predicate Shows(rt: Runtime, s: Sys)
    reads rt, rt.channelsInUse
  {
    rt.Valid() && rt.T() == s.t && rt.assets == s.assets && rt.nextAssetId == s.nextId && rt.nextUid == s.nextUid
  }

  method Start(threads: nat, clock: int) returns (rt: Runtime)
    ensures fresh(rt) && fresh(rt.channelsInUse) && Shows(rt, Init(threads, clock))
  {
    rt := new Runtime();
  }

  method LoadTakeId(rt: Runtime, a: Asset, ghost s: Sys, ghost th: nat) returns (id: nat)
    requires Shows(rt, s) && Do(s, TakeId(th, a)).Some?
    modifies rt
    ensures var s1 := Do(s, TakeId(th, a)).value; Shows(rt, s1) && s1.pcs[th] == HasId(id, a)
  {
    id := rt.TakeAssetId();
  }

  method LoadInsert(rt: Runtime, id: nat, a: Asset, ghost s: Sys, ghost th: nat)
    requires Shows(rt, s) && At(s, th) && s.pcs[th] == HasId(id, a)
    modifies rt
    ensures Shows(rt, Do(s, Insert(th)).value)
  {
    rt.InsertAsset(id, a);
  }

  method PlayReadMask(rt: Runtime, id: nat, ghost s: Sys, ghost th: nat) returns (mask: Option<set<int>>)
    requires Shows(rt, s) && IsIdle(s, th)
    ensures var s1 := Do(s, ReadMask(th, id)).value;
            && Shows(rt, s1)
            && s1.pcs[th] == match mask case None => Idle case Some(m) => Masked(id, m)
  {
    mask := if id in rt.assets then Some(rt.assets[id].mask) else None;
  }

  method PlayReserve(rt: Runtime, id: nat, mask: set<int>, ghost s: Sys, ghost th: nat)
    returns (ok: bool, chan: seq<int>)
    requires Shows(rt, s) && At(s, th) && s.pcs[th] == Masked(id, mask)
    modifies rt.channelsInUse
    ensures var s1 := Do(s, Take(th)).value;
            && Shows(rt, s1)
            && s1.pcs[th] == (if ok then Reserved(id, chan) else Idle)
            && (ok ==> MapOk(chan))
  {
    ok, chan := rt.ReserveChannels(mask);
  }

  /** `start` is the clock that was read before. */
  method PlayPublish(rt: Runtime, id: nat, chan: seq<int>, start: int, ghost s: Sys, ghost th: nat)
    requires Shows(rt, s) && At(s, th) && s.pcs[th] == Started(id, chan, start) && MapOk(chan)
    modifies rt
    ensures Shows(rt, Do(s, Publish(th)).value)
  {
    rt.PublishPlayback(id, chan, start);
  }

  method FreeSweep(rt: Runtime, id: nat, ghost s: Sys, ghost th: nat)
    requires Shows(rt, s) && IsIdle(s, th)
    modifies rt, rt.channelsInUse
    ensures Shows(rt, Do(s, FreePlaybacks(th, id)).value)
  {
    rt.FreePlaybacks(id);
  }

  method FreeRemove(rt: Runtime, id: nat, ghost s: Sys, ghost th: nat) returns (known: bool)
    requires Shows(rt, s) && At(s, th) && s.pcs[th] == Swept(id)
    modifies rt
    ensures Shows(rt, Do(s, FreeAsset(th)).value) && known == (id in s.assets)
  {
    known := rt.RemoveAsset(id);
  }

  method Stop(rt: Runtime, ghost s: Sys, ghost th: nat)
    requires Shows(rt, s) && IsIdle(s, th)
    modifies rt, rt.channelsInUse
    ensures Shows(rt, Do(s, StopAll(th)).value) && Shows(rt, Do(s, StopForFreeAll(th)).value)
  {
    rt.StopPlaybacks();
  }

  method FreeAllClear(rt: Runtime, ghost s: Sys, ghost th: nat)
    requires Shows(rt, s) && At(s, th) && s.pcs[th].Stopped?
    modifies rt
    ensures Shows(rt, Do(s, ClearAssets(th)).value)
  {
    rt.ClearAssets();
  }

  method PauseAt(rt: Runtime, now: int, ghost s: Sys, ghost th: nat)
    requires Shows(rt, s) && IsIdle(s, th) && now == s.clock
    modifies rt
    ensures Shows(rt, Do(s, Pause(th)).value)
  {
    rt.PausePlaybacks(now);
  }

  method ResumeAt(rt: Runtime, now: int, ghost s: Sys, ghost th: nat)
    requires Shows(rt, s) && IsIdle(s, th) && now == s.clock
    modifies rt
    ensures Shows(rt, Do(s, Resume(th)).value)
  {
    rt.ResumePlaybacks(now);
  }

  /** `now` is the clock that the pass sampled before it took its locks. */
  method DispatchAt(rt: Runtime, now: int, ghost s: Sys, ghost th: nat)
    requires Shows(rt, s) && At(s, th) && s.pcs[th] == Sampled(now)
    modifies rt, rt.channelsInUse
    ensures Shows(rt, Do(s, Dispatch(th)).value)
  {
    rt.DispatchDueEvents(now);
  }

  /** A whole `play` that no other thread interrupts is a run of its steps. */
  method Play(rt: Runtime, id: nat, now: int, ghost s: Sys, ghost th: nat) returns (ok: bool, ghost s1: Sys)
    requires Shows(rt, s) && IsIdle(s, th) && now == s.clock
    modifies rt, rt.channelsInUse
    ensures Shows(rt, s1) && IsIdle(s1, th)
    ensures ok <==> id in s.assets && Reserve(s.t.used, s.assets[id].mask).Some?
    ensures Run(s, if id !in s.assets then [ReadMask(th, id)]
                   else if !ok then [ReadMask(th, id), Take(th)]
                   else [ReadMask(th, id), Take(th), ReadClock(th), Publish(th)]) == Some(s1)
  {
    s1 := s;
    ok := false;
    var mask := PlayReadMask(rt, id, s, th);
    ghost var a := Do(s, ReadMask(th, id)).value;
    RunOne(s, ReadMask(th, id), []);
    if mask.None? {
      s1 := a;
      return;
    }
    var chan;
    ok, chan := PlayReserve(rt, id, mask.value, a, th);
    ghost var b := Do(a, Take(th)).value;
    RunOne(a, Take(th), []);
    RunOne(s, ReadMask(th, id), [Take(th)]);
    if !ok {
      s1 := b;
      return;
    }
    ghost var c := Do(b, ReadClock(th)).value;
    PlayPublish(rt, id, chan, now, c, th);
    s1 := Do(c, Publish(th)).value;
    RunOne(c, Publish(th), []);
    RunOne(b, ReadClock(th), [Publish(th)]);
    RunOne(a, Take(th), [ReadClock(th), Publish(th)]);
    RunOne(s, ReadMask(th, id), [Take(th), ReadClock(th), Publish(th)]);
  }

  lemma RunOne(s: Sys, step: Step, rest: seq<Step>)
    requires Do(s, step).Some?
    ensures Run(s, [step] + rest) == Run(Do(s, step).value, rest)
    ensures rest == [] ==> Run(s, [step]) == Do(s, step)
  {
    assert ([step] + rest)[1..] == rest;
    if rest == [] { assert [step] + rest == [step]; }
  }
}
