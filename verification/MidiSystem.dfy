/** Any number of threads running the operations of the MIDI runtime. Each critical section is
    one step; what a thread carries from one critical section to the next is its program counter. */
module MidiSystem {
  import opened Wrappers
  import opened Channels
  import opened MidiTable

  datatype Pc =
    | Idle
    | HasId(id: nat, asset: Asset)                 // load: id taken, asset not yet inserted
    | Masked(id: nat, mask: set<int>)              // play: mask read
    | Reserved(id: nat, chan: seq<int>)            // play: channels reserved
    | Started(id: nat, chan: seq<int>, start: int) // play: clock read, not yet published
    | Swept(id: nat)                               // free: playbacks removed
    | Stopped                                      // free_all: playbacks stopped
    | Sampled(now: int)                            // dispatcher: clock read

  datatype Sys = Sys(t: Table, assets: map<nat, Asset>, nextId: nat, nextUid: nat,
                     loaded: map<nat, Asset>, pcs: seq<Pc>, clock: int)

  datatype Step =
    | Tick(delta: nat)
    | TakeId(th: nat, a: Asset) | Insert(th: nat)
    | ReadMask(th: nat, id: nat) | Take(th: nat) | ReadClock(th: nat) | Publish(th: nat)
    | FreePlaybacks(th: nat, id: nat) | FreeAsset(th: nat)
    | StopAll(th: nat) | StopForFreeAll(th: nat) | ClearAssets(th: nat)
    | Pause(th: nat) | Resume(th: nat)
    | Sample(th: nat) | Dispatch(th: nat)

  function Init(threads: nat, clock: int): Sys {
    Sys(Table([], {}, []), map[], 1, 0, map[], seq(threads, _ => Idle), clock)
  }

  function Goto(s: Sys, th: nat, pc: Pc): Sys
    requires th < |s.pcs|
  {
    s.(pcs := s.pcs[th := pc])
  }

  predicate At(s: Sys, th: nat) { th < |s.pcs| }

  predicate IsIdle(s: Sys, th: nat) { th < |s.pcs| && s.pcs[th].Idle? }

  /** The state after a step, or None if the step is not enabled. */
  function Do(s: Sys, step: Step): Option<Sys> {
    match step
    case Tick(delta) => Some(s.(clock := s.clock + delta))
    case TakeId(th, a) =>
      if IsIdle(s, th) then Some(Goto(s, th, HasId(s.nextId, a)).(nextId := s.nextId + 1)) else None
    case Insert(th) =>
      if At(s, th) && s.pcs[th].HasId? then
        var pc := s.pcs[th];
        Some(Goto(s, th, Idle).(assets := s.assets[pc.id := pc.asset], loaded := s.loaded[pc.id := pc.asset]))
      else None
    case ReadMask(th, id) =>
      if !IsIdle(s, th) then None
      else if id in s.assets then Some(Goto(s, th, Masked(id, s.assets[id].mask)))
      else Some(s)
    case Take(th) =>
      if At(s, th) && s.pcs[th].Masked? then
        var pc := s.pcs[th];
        (match Reserve(s.t.used, pc.mask)
         case None => Some(Goto(s, th, Idle))
         case Some(chan) => Some(Goto(s, th, Reserved(pc.id, chan)).(t := s.t.(used := s.t.used + Owned(chan)))))
      else None
    case ReadClock(th) =>
      if At(s, th) && s.pcs[th].Reserved? then
        Some(Goto(s, th, Started(s.pcs[th].id, s.pcs[th].chan, s.clock)))
      else None
    case Publish(th) =>
      if At(s, th) && s.pcs[th].Started? then
        var pc := s.pcs[th];
        var pb := Playback(s.nextUid, pc.id, Playing, 0, pc.start, 0, pc.chan);
        Some(Goto(s, th, Idle).(t := s.t.(pbs := s.t.pbs + [pb]), nextUid := s.nextUid + 1))
      else None
    case FreePlaybacks(th, id) =>
      if IsIdle(s, th) then
        var (kept, left) := Sweep(s.t.pbs, s.t.used, id);
        Some(Goto(s, th, Swept(id)).(t := s.t.(pbs := kept, used := left)))
      else None
    case FreeAsset(th) =>
      if At(s, th) && s.pcs[th].Swept? then Some(Goto(s, th, Idle).(assets := s.assets - {s.pcs[th].id})) else None
    case StopAll(th) => if IsIdle(s, th) then Some(StopTable(s)) else None
    case StopForFreeAll(th) => if IsIdle(s, th) then Some(Goto(StopTable(s), th, Stopped)) else None
    case ClearAssets(th) =>
      if At(s, th) && s.pcs[th].Stopped? then Some(Goto(s, th, Idle).(assets := map[])) else None
    case Pause(th) => if IsIdle(s, th) then Some(s.(t := s.t.(pbs := PauseAll(s.t.pbs, s.clock)))) else None
    case Resume(th) => if IsIdle(s, th) then Some(s.(t := s.t.(pbs := ResumeAll(s.t.pbs, s.clock)))) else None
    case Sample(th) => if IsIdle(s, th) then Some(Goto(s, th, Sampled(s.clock))) else None
    case Dispatch(th) =>
      if At(s, th) && s.pcs[th].Sampled? then
        Some(Goto(s, th, Idle).(t := DispatchFrom(s.t, 0, s.assets, s.pcs[th].now)))
      else None
  }

  function StopTable(s: Sys): Sys { s.(t := s.t.(pbs := [], used := ReleaseAll(s.t.pbs, s.t.used))) }

  /** A run: the steps one after the other, in any interleaving. */
  function Run(s: Sys, steps: seq<Step>): Option<Sys>
    decreases |steps|
  {
    if steps == [] then Some(s)
    else match Do(s, steps[0])
      case None => None
      case Some(s1) => Run(s1, steps[1..])
  }

  // ---------------------------------------------------------------- the invariant

  function PcHeld(pc: Pc): multiset<int> {
    if pc.Reserved? || pc.Started? then multiset(Owned(pc.chan)) else multiset{}
  }

  /** The channels reserved by plays that are not yet published. */
  function Pending(pcs: seq<Pc>): multiset<int> {
    if pcs == [] then multiset{} else PcHeld(pcs[0]) + Pending(pcs[1..])
  }

  ghost predicate PcOk(pc: Pc, s: Sys) {
    match pc
    case HasId(id, a) => id < s.nextId && id !in s.loaded && WellFormed(a)
    case Masked(id, mask) => id in s.loaded && mask == s.loaded[id].mask
    case Reserved(id, chan) => id in s.loaded && Serves(chan, s.loaded[id].mask)
    case Started(id, chan, start) => id in s.loaded && Serves(chan, s.loaded[id].mask) && start <= s.clock
    case Sampled(now) => now <= s.clock
    case _ => true
  }

  ghost predicate PcsOk(s: Sys) {
    && (forall th | 0 <= th < |s.pcs| :: PcOk(s.pcs[th], s))
    && (forall a, b | 0 <= a < b < |s.pcs| && s.pcs[a].HasId? && s.pcs[b].HasId? :: s.pcs[a].id != s.pcs[b].id)
    && (forall id | id in s.loaded :: id < s.nextId)
  }

  ghost predicate Inv(s: Sys) {
    && TableInv(s.t, Pending(s.pcs), s.loaded, s.nextUid, s.clock)
    && AssetsOk(s.assets, s.loaded)
    && PcsOk(s)
  }

  /** Loaded assets are what the tune compiler produces. */
  ghost predicate Allowed(step: Step) { step.TakeId? ==> WellFormed(step.a) }

  lemma {:induction false} PendingSplit(pcs: seq<Pc>, th: nat)
    requires th < |pcs|
    ensures Pending(pcs) == PcHeld(pcs[th]) + Pending(pcs[th := Idle])
  {
    if th == 0 {
      assert pcs[0 := Idle][1..] == pcs[1..];
    } else {
      PendingSplit(pcs[1..], th - 1);
      assert pcs[th := Idle][1..] == pcs[1..][th - 1 := Idle];
    }
  }

  /** Changing one program counter: the pending channels change by what it holds. */
  lemma PendingGoto(pcs: seq<Pc>, th: nat, pc: Pc)
    requires th < |pcs|
    ensures PcHeld(pc) == PcHeld(pcs[th]) ==> Pending(pcs[th := pc]) == Pending(pcs)
    ensures PcHeld(pcs[th]) == multiset{} ==> Pending(pcs[th := pc]) == Pending(pcs) + PcHeld(pc)
  {
    hide Pending, PcHeld;
    PendingSplit(pcs, th);
    PendingSplit(pcs[th := pc], th);
    assert pcs[th := pc][th := Idle] == pcs[th := Idle];
  }

  lemma {:induction false} PendingIdle(threads: nat)
    ensures Pending(seq(threads, _ => Idle)) == multiset{}
  {
    if threads > 0 {
      PendingIdle(threads - 1);
      assert seq(threads, _ => Idle)[1..] == seq(threads - 1, _ => Idle);
    }
  }

  lemma InitInv(threads: nat, clock: int)
    ensures Inv(Init(threads, clock))
  {
    PendingIdle(threads);
  }

  /** Program counters stay right when one of them moves and the rest of the state only grows. */
  lemma PcsKeep(s: Sys, s1: Sys, th: nat, pc: Pc)
    requires Inv(s) && th < |s.pcs| && s1.pcs == s.pcs[th := pc]
    requires s.clock <= s1.clock && s.nextId <= s1.nextId && s1.loaded == s.loaded
    requires PcOk(pc, s1)
    requires pc.HasId? ==> pc.id == s.nextId
    ensures PcsOk(s1)
  {
    forall k | 0 <= k < |s1.pcs| ensures PcOk(s1.pcs[k], s1) {
      assert PcOk(s.pcs[k], s);
    }
    forall a, b | 0 <= a < b < |s1.pcs| && s1.pcs[a].HasId? && s1.pcs[b].HasId?
      ensures s1.pcs[a].id != s1.pcs[b].id
    {
      assert PcOk(s.pcs[a], s) && PcOk(s.pcs[b], s);
    }
  }

  // ---------------------------------------------------------------- every step keeps it

  lemma TickKeeps(s: Sys, delta: nat)
    requires Inv(s)
    ensures Inv(s.(clock := s.clock + delta))
  {
    var s1 := s.(clock := s.clock + delta);
    LaterKeeps(s.t, Pending(s.pcs), s.loaded, s.loaded, s.nextUid, s.clock, s1.clock);
    forall k | 0 <= k < |s1.pcs| ensures PcOk(s1.pcs[k], s1) { assert PcOk(s.pcs[k], s); }
  }

  lemma InsertKeeps(s: Sys, th: nat)
    requires Inv(s) && At(s, th) && s.pcs[th].HasId?
    ensures Inv(Do(s, Insert(th)).value)
  {
    hide TableInv, Pending;
    var pc, s1 := s.pcs[th], Do(s, Insert(th)).value;
    assert PcOk(pc, s);
    PendingGoto(s.pcs, th, Idle);
    LaterKeeps(s.t, Pending(s.pcs), s.loaded, s1.loaded, s.nextUid, s.clock, s.clock);
    forall k | 0 <= k < |s1.pcs| ensures PcOk(s1.pcs[k], s1) { assert PcOk(s.pcs[k], s); }
  }

  lemma TakeKeeps(s: Sys, th: nat)
    requires Inv(s) && At(s, th) && s.pcs[th].Masked?
    ensures Inv(Do(s, Take(th)).value)
  {
    hide TableInv, Pending;
    var pc, s1 := s.pcs[th], Do(s, Take(th)).value;
    assert PcOk(pc, s);
    PendingGoto(s.pcs, th, s1.pcs[th]);
    if Reserve(s.t.used, pc.mask).Some? {
      var chan := Reserve(s.t.used, pc.mask).value;
      ReserveServes(s.t.used, pc.mask);
      ReserveKeeps(s.t, chan, Pending(s.pcs), Pending(s1.pcs), s.loaded, s.nextUid, s.clock);
    }
    PcsKeep(s, s1, th, s1.pcs[th]);
  }

  lemma ReserveKeeps(t: Table, chan: seq<int>, pending: multiset<int>, pending1: multiset<int>,
          loaded: map<nat, Asset>, nextUid: nat, clock: int)
    requires TableInv(t, pending, loaded, nextUid, clock)
    requires Owned(chan) !! t.used && pending1 == pending + multiset(Owned(chan))
    ensures TableInv(t.(used := t.used + Owned(chan)), pending1, loaded, nextUid, clock)
  {
    assert multiset(t.used + Owned(chan)) == multiset(t.used) + multiset(Owned(chan));
  }

  lemma PublishStepKeeps(s: Sys, th: nat)
    requires Inv(s) && At(s, th) && s.pcs[th].Started?
    ensures Inv(Do(s, Publish(th)).value)
  {
    hide TableInv, Pending;
    var pc, s1 := s.pcs[th], Do(s, Publish(th)).value;
    assert PcOk(pc, s);
    PendingSplit(s.pcs, th);
    var pb := Playback(s.nextUid, pc.id, Playing, 0, pc.start, 0, pc.chan);
    PublishKeeps(s.t, pb, Pending(s.pcs), Pending(s1.pcs), s.loaded, s.nextUid, s.clock);
    PcsKeep(s, s1, th, Idle);
  }

  /** A step that moves one thread without changing what it holds. */
  lemma MoveKeeps(s: Sys, s1: Sys, th: nat, pc: Pc)
    requires Inv(s) && th < |s.pcs| && s1.pcs == s.pcs[th := pc]
    requires PcHeld(pc) == PcHeld(s.pcs[th])
    requires s1.clock == s.clock && s1.nextUid == s.nextUid && s1.loaded == s.loaded && s.nextId <= s1.nextId
    requires TableInv(s1.t, Pending(s.pcs), s.loaded, s.nextUid, s.clock) && AssetsOk(s1.assets, s1.loaded)
    requires PcOk(pc, s1) && (pc.HasId? ==> pc.id == s.nextId)
    ensures Inv(s1)
  {
    PendingGoto(s.pcs, th, pc);
    PcsKeep(s, s1, th, pc);
  }

  lemma FreePlaybacksKeeps(s: Sys, th: nat, id: nat)
    requires Inv(s) && IsIdle(s, th)
    ensures Inv(Do(s, FreePlaybacks(th, id)).value)
  {
    SweepKeeps(s.t, id, Pending(s.pcs), s.loaded, s.nextUid, s.clock);
    MoveKeeps(s, Do(s, FreePlaybacks(th, id)).value, th, Swept(id));
  }

  /** A step that only changes the table. */
  lemma TableKeeps(s: Sys, t1: Table)
    requires Inv(s) && TableInv(t1, Pending(s.pcs), s.loaded, s.nextUid, s.clock)
    ensures Inv(s.(t := t1))
  {
    var s1 := s.(t := t1);
    forall k | 0 <= k < |s1.pcs| ensures PcOk(s1.pcs[k], s1) { assert PcOk(s.pcs[k], s); }
  }

  lemma {:induction false} StopStepKeeps(s: Sys)
    requires Inv(s)
    ensures Inv(StopTable(s))
  {
    StopKeeps(s.t, Pending(s.pcs), s.loaded, s.nextUid, s.clock);
    TableKeeps(s, StopTable(s).t);
  }

  lemma {:induction false} StopForFreeAllKeeps(s: Sys, th: nat)
    requires Inv(s) && IsIdle(s, th)
    ensures Inv(Do(s, StopForFreeAll(th)).value)
  {
    StopStepKeeps(s);
    MoveKeeps(StopTable(s), Goto(StopTable(s), th, Stopped), th, Stopped);
  }

  lemma PauseStepKeeps(s: Sys)
    requires Inv(s)
    ensures Inv(s.(t := s.t.(pbs := PauseAll(s.t.pbs, s.clock))))
  {
    PauseKeeps(s.t, Pending(s.pcs), s.loaded, s.nextUid, s.clock);
    TableKeeps(s, s.t.(pbs := PauseAll(s.t.pbs, s.clock)));
  }

  lemma ResumeStepKeeps(s: Sys)
    requires Inv(s)
    ensures Inv(s.(t := s.t.(pbs := ResumeAll(s.t.pbs, s.clock))))
  {
    ResumeKeeps(s.t, Pending(s.pcs), s.loaded, s.nextUid, s.clock);
    TableKeeps(s, s.t.(pbs := ResumeAll(s.t.pbs, s.clock)));
  }

  lemma DispatchStepKeeps(s: Sys, th: nat)
    requires Inv(s) && At(s, th) && s.pcs[th].Sampled?
    ensures Inv(Do(s, Dispatch(th)).value)
  {
    assert PcOk(s.pcs[th], s);
    DispatchKeeps(s.t, 0, s.assets, s.pcs[th].now, Pending(s.pcs), s.loaded, s.nextUid, s.clock);
    MoveKeeps(s, Do(s, Dispatch(th)).value, th, Idle);
  }

  /** Steps that leave the table and the history alone. */
  lemma LocalStepKeeps(s: Sys, step: Step)
    requires Inv(s) && Allowed(step) && Do(s, step).Some?
    requires step.TakeId? || step.ReadMask? || step.ReadClock? || step.FreeAsset? || step.ClearAssets? || step.Sample?
    ensures Inv(Do(s, step).value)
  {
    hide TableInv, Pending, DispatchFrom, Reserve, Sweep, ReleaseAll;
    var s1 := Do(s, step).value;
    if s1.pcs != s.pcs {
      assert PcOk(s.pcs[step.th], s);
      MoveKeeps(s, s1, step.th, s1.pcs[step.th]);
    }
  }

  lemma {:induction false} StepKeeps(s: Sys, step: Step)
    requires Inv(s) && Allowed(step) && Do(s, step).Some?
    ensures Inv(Do(s, step).value)
  {
    hide Inv, Allowed;
    match step {
      case Tick(delta) => TickKeeps(s, delta);
      case Insert(th) => InsertKeeps(s, th);
      case Take(th) => TakeKeeps(s, th);
      case Publish(th) => PublishStepKeeps(s, th);
      case TakeId(th, _) => LocalStepKeeps(s, step);
      case ReadMask(th, _) => LocalStepKeeps(s, step);
      case ReadClock(th) => LocalStepKeeps(s, step);
      case FreeAsset(th) => LocalStepKeeps(s, step);
      case ClearAssets(th) => LocalStepKeeps(s, step);
      case Sample(th) => LocalStepKeeps(s, step);
      case FreePlaybacks(th, id) => FreePlaybacksKeeps(s, th, id);
      case StopAll(_) => StopStepKeeps(s);
      case StopForFreeAll(th) => StopForFreeAllKeeps(s, th);
      case Pause(_) => PauseStepKeeps(s);
      case Resume(_) => ResumeStepKeeps(s);
      case Dispatch(th) => DispatchStepKeeps(s, th);
    }
  }

  ghost predicate AllAllowed(steps: seq<Step>) { forall k | 0 <= k < |steps| :: Allowed(steps[k]) }

  /** Every state of every run, with any number of threads, satisfies the invariant. */
  lemma {:induction false} RunKeeps(s: Sys, steps: seq<Step>)
    requires Inv(s) && AllAllowed(steps) && Run(s, steps).Some?
    ensures Inv(Run(s, steps).value)
    decreases |steps|
  {
    if steps != [] {
      StepKeeps(s, steps[0]);
      RunKeeps(Do(s, steps[0]).value, steps[1..]);
    }
  }

  ghost predicate Reachable(s: Sys) {
    exists threads: nat, clock: int, steps: seq<Step> ::
      AllAllowed(steps) && Run(Init(threads, clock), steps) == Some(s)
  }

  lemma {:induction false} ReachableInv(s: Sys)
    requires Reachable(s)
    ensures Inv(s)
  {
    var threads: nat, clock: int, steps: seq<Step> :|
      AllAllowed(steps) && Run(Init(threads, clock), steps) == Some(s);
    InitInv(threads, clock);
    RunKeeps(Init(threads, clock), steps);
  }
}
