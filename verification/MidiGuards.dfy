/** Which mutex protects what: a critical section touches only what it has locked, and the operations lock what
    their sections need. */
module MidiGuards {
  import opened Wrappers
  import opened Channels
  import opened MidiTable
  import opened MidiSystem
  import Locks = MidiLocks

  /** The mutexes that a section holds, in the order in which it takes them. */
  function Guards(step: Step): seq<Locks.Lock> {
    match step
    case TakeId(_, _) => [Locks.NextId]
    case Insert(_) => [Locks.Assets]
    case ReadMask(_, _) => [Locks.Assets]
    case Take(_) => [Locks.Channels]
    case Publish(_) => [Locks.Playbacks]
    case FreePlaybacks(_, _) => [Locks.Playbacks, Locks.Channels]
    case FreeAsset(_) => [Locks.Assets]
    case StopAll(_) => [Locks.Playbacks, Locks.Channels]
    case StopForFreeAll(_) => [Locks.Playbacks, Locks.Channels]
    case ClearAssets(_) => [Locks.Assets]
    case Pause(_) => [Locks.Playbacks]
    case Resume(_) => [Locks.Playbacks]
    case Dispatch(_) => [Locks.Playbacks, Locks.Assets, Locks.Channels]
    case _ => []
  }

  /** Without its mutex a section does not write a part of the state. */
  lemma WritesGuarded(s: Sys, step: Step)
    requires Do(s, step).Some?
    ensures var s1 := Do(s, step).value; var held := Guards(step);
            && (s1.assets != s.assets ==> Locks.Assets in held)
            && (s1.t.pbs != s.t.pbs ==> Locks.Playbacks in held)
            && (s1.t.used != s.t.used ==> Locks.Channels in held)
            && (s1.nextId != s.nextId ==> Locks.NextId in held)
  {
    hide Reserve, DispatchFrom, Sweep, ReleaseAll, PauseAll, ResumeAll;
  }

  function WithAssets(r: Option<Sys>, assets: map<nat, Asset>): Option<Sys> {
    match r case None => None case Some(s) => Some(s.(assets := assets))
  }

  function WithPlaybacks(r: Option<Sys>, pbs: seq<Playback>): Option<Sys> {
    match r case None => None case Some(s) => Some(s.(t := s.t.(pbs := pbs)))
  }

  function WithChannels(r: Option<Sys>, used: set<int>): Option<Sys> {
    match r case None => None case Some(s) => Some(s.(t := s.t.(used := used)))
  }

  function WithNextId(r: Option<Sys>, nextId: nat): Option<Sys> {
    match r case None => None case Some(s) => Some(s.(nextId := nextId))
  }

  /** Nor does it read it: with another value there the section does the same to everything else. */
  lemma AssetsGuarded(s: Sys, step: Step, assets: map<nat, Asset>)
    requires Locks.Assets !in Guards(step)
    ensures Do(WithAssets(Some(s), assets).value, step) == WithAssets(Do(s, step), assets)
  {
    hide Reserve, DispatchFrom, Sweep, ReleaseAll, PauseAll, ResumeAll;
  }

  lemma PlaybacksGuarded(s: Sys, step: Step, pbs: seq<Playback>)
    requires Locks.Playbacks !in Guards(step)
    ensures Do(WithPlaybacks(Some(s), pbs).value, step) == WithPlaybacks(Do(s, step), pbs)
  {
    hide Reserve, DispatchFrom, Sweep, ReleaseAll, PauseAll, ResumeAll;
  }

  lemma ChannelsGuarded(s: Sys, step: Step, used: set<int>)
    requires Locks.Channels !in Guards(step)
    ensures Do(WithChannels(Some(s), used).value, step) == WithChannels(Do(s, step), used)
  {
    hide Reserve, DispatchFrom, Sweep, ReleaseAll, PauseAll, ResumeAll;
  }

  lemma NextIdGuarded(s: Sys, step: Step, nextId: nat)
    requires Locks.NextId !in Guards(step)
    ensures Do(WithNextId(Some(s), nextId).value, step) == WithNextId(Do(s, step), nextId)
  {
    hide Reserve, DispatchFrom, Sweep, ReleaseAll, PauseAll, ResumeAll;
  }

  // ---------------------------------------------------------------- the operations

  /** The sections of an operation, whatever the thread and the arguments. */
  function Sections(op: Locks.Op): seq<Step> {
    match op
    case Load => [TakeId(0, Asset({}, [])), Insert(0)]
    case FreeAsset => [FreePlaybacks(0, 0), Step.FreeAsset(0)]
    case FreeAll => [StopForFreeAll(0), ClearAssets(0)]
    case PlayUnknown => [ReadMask(0, 0)]
    case PlayRefused => [ReadMask(0, 0), Take(0)]
    case PlayStarted => [ReadMask(0, 0), Take(0), ReadClock(0), Publish(0)]
    case Pause => [Step.Pause(0)]
    case Resume => [Step.Resume(0)]
    case StopAll => [Step.StopAll(0)]
    case WorkerPass => [Sample(0), Dispatch(0)]
    case _ => []
  }

  /** Taken in order and given back in reverse. */
  function Nested(locks: seq<Locks.Lock>): seq<Locks.Act> {
    if locks == [] then [] else [Locks.Acquire(locks[0])] + Nested(locks[1..]) + [Locks.Release(locks[0])]
  }

  function LocksOf(steps: seq<Step>): seq<Locks.Act> {
    if steps == [] then [] else Nested(Guards(steps[0])) + LocksOf(steps[1..])
  }

  /** The mutexes of the state of the model; the others are those of the device and the volumes. */
  predicate OfState(a: Locks.Act) {
    a.l == Locks.Playbacks || a.l == Locks.Assets || a.l == Locks.Channels || a.l == Locks.NextId
  }

  function OnState(code: seq<Locks.Act>): seq<Locks.Act> {
    if code == [] then [] else (if OfState(code[0]) then [code[0]] else []) + OnState(code[1..])
  }

  lemma OnStateStep(code: seq<Locks.Act>)
    requires code != []
    ensures OnState(code) == (if OfState(code[0]) then [code[0]] else []) + OnState(code[1..])
  {}

  lemma {:induction false} OnStateAppend(a: seq<Locks.Act>, b: seq<Locks.Act>)
    ensures OnState(a + b) == OnState(a) + OnState(b)
  {
    if a == [] {
      assert a + b == b;
    } else {
      hide OnState, OfState;
      assert (a + b)[0] == a[0] && (a + b)[1..] == a[1..] + b;
      OnStateAppend(a[1..], b);
      OnStateStep(a);
      OnStateStep(a + b);
    }
  }

  lemma OnStateOne(x: Locks.Act)
    ensures OnState([x]) == if OfState(x) then [x] else []
  {
    assert [x][1..] == [] && OnState([]) == [];
  }

  lemma OnStateLocked(l: Locks.Lock)
    ensures OnState(Locks.Locked(l)) == if OfState(Locks.Acquire(l)) then Locks.Locked(l) else []
  {
    OnStateOne(Locks.Acquire(l));
    OnStateOne(Locks.Release(l));
    OnStateAppend([Locks.Acquire(l)], [Locks.Release(l)]);
    assert Locks.Locked(l) == [Locks.Acquire(l)] + [Locks.Release(l)];
  }

  lemma {:induction false} OnStateAll(code: seq<Locks.Act>)
    requires forall k | 0 <= k < |code| :: OfState(code[k])
    ensures OnState(code) == code
  {
    if code != [] { OnStateAll(code[1..]); }
  }

  lemma NestedOne(l: Locks.Lock)
    ensures Nested([l]) == Locks.Locked(l)
  {
    assert [l][1..] == [] && Nested([]) == [];
  }

  lemma NestedTwo(l: Locks.Lock, m: Locks.Lock)
    ensures Nested([l, m]) == [Locks.Acquire(l), Locks.Acquire(m), Locks.Release(m), Locks.Release(l)]
  {
    NestedOne(m);
    assert [l, m][1..] == [m];
  }

  lemma NestedThree(l: Locks.Lock, m: Locks.Lock, n: Locks.Lock)
    ensures Nested([l, m, n]) == [Locks.Acquire(l), Locks.Acquire(m), Locks.Acquire(n),
                                  Locks.Release(n), Locks.Release(m), Locks.Release(l)]
  {
    NestedTwo(m, n);
    assert [l, m, n][1..] == [m, n];
  }

  lemma LocksStep(step: Step, rest: seq<Step>)
    ensures LocksOf([step] + rest) == Nested(Guards(step)) + LocksOf(rest)
  {
    assert ([step] + rest)[1..] == rest;
  }

  lemma NoLocks()
    ensures LocksOf([]) == [] && Nested([]) == []
  {}

  lemma OneSection(step: Step)
    ensures LocksOf([step]) == Nested(Guards(step))
  {
    NoLocks();
    LocksStep(step, []);
    assert [step] + [] == [step];
  }

  lemma TwoSections(x: Step, y: Step)
    ensures LocksOf([x, y]) == Nested(Guards(x)) + Nested(Guards(y))
  {
    OneSection(y);
    LocksStep(x, [y]);
    assert [x] + [y] == [x, y];
  }

  /** The program of an operation takes and gives back, on the state, exactly the mutexes of its sections in their
      order; the worker looks at the playbacks once more after its pass. */
  lemma CodeIsSections(op: Locks.Op)
    requires Sections(op) != []
    ensures OnState(Locks.Code(op))
         == LocksOf(Sections(op)) + if op.WorkerPass? then Locks.Locked(Locks.Playbacks) else []
  {
    hide LocksOf, Nested, OnState;
    var a, c, i, p := Locks.Assets, Locks.Channels, Locks.NextId, Locks.Playbacks;
    NestedOne(a);
    NestedOne(c);
    NestedOne(i);
    NestedOne(p);
    NestedTwo(p, c);
    NoLocks();
    match op
    case Load =>
      TwoSections(TakeId(0, Asset({}, [])), Insert(0));
      OnStateAll(Locks.Code(op));
    case FreeAsset =>
      TwoSections(FreePlaybacks(0, 0), Step.FreeAsset(0));
      OnStateAll(Locks.Code(op));
    case FreeAll =>
      TwoSections(StopForFreeAll(0), ClearAssets(0));
      StopOnState();
      OnStateAppend(Locks.Stop, Locks.Locked(a));
      OnStateLocked(a);
    case PlayUnknown =>
      OneSection(ReadMask(0, 0));
      OnStateAll(Locks.Code(op));
    case PlayRefused =>
      TwoSections(ReadMask(0, 0), Take(0));
      OnStateAll(Locks.Code(op));
    case PlayStarted => PlayOnState();
    case Pause => PauseOnState();
    case Resume =>
      OneSection(Step.Resume(0));
      OnStateAll(Locks.Code(op));
    case StopAll =>
      OneSection(Step.StopAll(0));
      StopOnState();
    case WorkerPass =>
      WorkerOnState();
  }

  lemma PlayOnState()
    ensures OnState(Locks.Code(Locks.PlayStarted)) == LocksOf(Sections(Locks.PlayStarted))
  {
    hide LocksOf, Nested, OnState;
    NestedOne(Locks.Assets);
    NestedOne(Locks.Channels);
    NestedOne(Locks.Playbacks);
    NoLocks();
    TwoSections(ReadClock(0), Publish(0));
    LocksStep(Take(0), [ReadClock(0), Publish(0)]);
    LocksStep(ReadMask(0, 0), [Take(0), ReadClock(0), Publish(0)]);
    assert [Take(0)] + [ReadClock(0), Publish(0)] == [Take(0), ReadClock(0), Publish(0)];
    assert [ReadMask(0, 0)] + [Take(0), ReadClock(0), Publish(0)] == Sections(Locks.PlayStarted);
    OnStateAll(Locks.Code(Locks.PlayStarted));
  }

  lemma PauseOnState()
    ensures OnState(Locks.Code(Locks.Pause)) == LocksOf(Sections(Locks.Pause))
  {
    hide LocksOf, Nested, OnState;
    var d, p := Locks.Device, Locks.Playbacks;
    NestedOne(p);
    OneSection(Step.Pause(0));
    OnStateAppend([Locks.Acquire(p)] + Locks.Locked(d), [Locks.Release(p)]);
    OnStateAppend([Locks.Acquire(p)], Locks.Locked(d));
    OnStateOne(Locks.Acquire(p));
    OnStateOne(Locks.Release(p));
    OnStateLocked(d);
  }

  lemma StopOnState()
    ensures OnState(Locks.Stop) == Nested([Locks.Playbacks, Locks.Channels])
  {
    var p, c := Locks.Playbacks, Locks.Channels;
    NestedTwo(p, c);
    OnStateLocked(Locks.Device);
    OnStateAll(Nested([p, c]));
    OnStateAppend(Locks.Locked(Locks.Device), Nested([p, c]));
    assert Locks.Stop == Locks.Locked(Locks.Device) + Nested([p, c]);
  }

  lemma WorkerOnState()
    ensures OnState(Locks.Code(Locks.WorkerPass)) == LocksOf([Sample(0), Dispatch(0)]) + Locks.Locked(Locks.Playbacks)
  {
    hide OnState, LocksOf, Nested;
    var p, a, c := Locks.Playbacks, Locks.Assets, Locks.Channels;
    var volumes := Locks.Locked(Locks.Device) + Locks.Locked(Locks.Master) + Locks.Locked(Locks.MusicBus);
    var pass := Nested([p, a, c]);
    NoLocks();
    NestedThree(p, a, c);
    TwoSections(Sample(0), Dispatch(0));
    OnStateLocked(Locks.Device);
    OnStateLocked(Locks.Master);
    OnStateLocked(Locks.MusicBus);
    OnStateLocked(p);
    OnStateAppend(Locks.Locked(Locks.Device), Locks.Locked(Locks.Master));
    OnStateAppend(Locks.Locked(Locks.Device) + Locks.Locked(Locks.Master), Locks.Locked(Locks.MusicBus));
    OnStateAll(pass);
    OnStateAppend(volumes, pass);
    OnStateAppend(volumes + pass, Locks.Locked(p));
    assert Locks.Code(Locks.WorkerPass) == volumes + pass + Locks.Locked(p);
  }
}
