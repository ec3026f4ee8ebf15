/** The mutexes of the MIDI runtime: any number of threads, each running the operations' sequences
    of acquisitions and releases, are never all stuck. */
module MidiLocks {

  datatype Lock = Playbacks | Assets | Device | Channels | NextId | Master | MusicBus

  datatype Act = Acquire(l: Lock) | Release(l: Lock)

  /** The operations, one for each sequence of lock operations that they can perform. */
  datatype Op =
    | Load | FreeAsset | FreeAll | AssetQuery
    | PlayUnknown | PlayRefused | PlayStarted
    | Pause | Resume | StopAll | PlaybackQuery
    | MasterVolume | BusVolume | WorkerPass | Shutdown

  function Locked(l: Lock): seq<Act> { [Acquire(l), Release(l)] }

  const Stop: seq<Act> := Locked(Device)
      + [Acquire(Playbacks), Acquire(Channels), Release(Channels), Release(Playbacks)]

  /** The lock operations in program order; guards of temporaries are released at the end of
      their statement, guards of a block in reverse order at its end. */
  function Code(op: Op): seq<Act> {
    match op
    case Load => Locked(NextId) + Locked(Assets)
    case FreeAsset => [Acquire(Playbacks), Acquire(Channels), Release(Channels), Release(Playbacks)] + Locked(Assets)
    case FreeAll => Stop + Locked(Assets)
    case AssetQuery => Locked(Assets)
    case PlayUnknown => Locked(Assets)
    case PlayRefused => Locked(Assets) + Locked(Channels)
    case PlayStarted => Locked(Assets) + Locked(Channels) + Locked(Playbacks)
    case Pause => [Acquire(Playbacks)] + Locked(Device) + [Release(Playbacks)]
    case Resume => Locked(Playbacks)
    case StopAll => Stop
    case PlaybackQuery => Locked(Playbacks)
    case MasterVolume => Locked(Master)
    case BusVolume => Locked(MusicBus)
    case WorkerPass =>
      Locked(Device) + Locked(Master) + Locked(MusicBus)
      + [Acquire(Playbacks), Acquire(Assets), Acquire(Channels), Release(Channels), Release(Assets), Release(Playbacks)]
      + Locked(Playbacks)
    case Shutdown => Locked(Device)
  }

  datatype Thread = Thread(held: set<Lock>, rest: seq<Act>)

  type Threads = seq<Thread>

  /** A mutex can be taken only when no thread has it, the asking thread included. */
  predicate Free(ts: Threads, l: Lock) { forall k | 0 <= k < |ts| :: l !in ts[k].held }

  predicate CanStep(ts: Threads, th: nat) {
    th < |ts| && ts[th].rest != [] && (ts[th].rest[0].Acquire? ==> Free(ts, ts[th].rest[0].l))
  }

  function StepOf(ts: Threads, th: nat): Threads
    requires th < |ts| && ts[th].rest != []
  {
    var t := ts[th];
    ts[th := match t.rest[0]
             case Acquire(l) => Thread(t.held + {l}, t.rest[1..])
             case Release(l) => Thread(t.held - {l}, t.rest[1..])]
  }

  function Begin(ts: Threads, th: nat, op: Op): Threads
    requires th < |ts|
  {
    ts[th := ts[th].(rest := Code(op))]
  }

  /** Either an idle thread begins an operation or a thread performs its next lock operation. */
  datatype Move = Start(th: nat, op: Op) | Go(th: nat)

  function Play(ts: Threads, m: Move): Threads {
    match m
    case Start(th, op) => if th < |ts| && ts[th].rest == [] then Begin(ts, th, op) else ts
    case Go(th) => if CanStep(ts, th) then StepOf(ts, th) else ts
  }

  function Run(ts: Threads, moves: seq<Move>): Threads
    decreases |moves|
  {
    if moves == [] then ts else Run(Play(ts, moves[0]), moves[1..])
  }

  // ---------------------------------------------------------------- the lock order

  function Rank(l: Lock): nat {
    match l
    case Playbacks => 0
    case Assets => 1
    case Device => 2
    case Channels => 3
    case NextId => 4
    case Master => 5
    case MusicBus => 6
  }

  /** Every lock is taken above all that are held, and all are given back. */
  ghost predicate Ordered(held: set<Lock>, rest: seq<Act>)
    decreases |rest|
  {
    if rest == [] then held == {}
    else match rest[0]
      case Acquire(l) => (forall h | h in held :: Rank(h) < Rank(l)) && Ordered(held + {l}, rest[1..])
      case Release(l) => l in held && Ordered(held - {l}, rest[1..])
  }

  ghost predicate Inv(ts: Threads) {
    && (forall k | 0 <= k < |ts| :: Ordered(ts[k].held, ts[k].rest))
    && (forall j, k | 0 <= j < k < |ts| :: ts[j].held !! ts[k].held)
  }

  /** Locks that can be taken and given back at once. */
  lemma OrderedLocked(l: Lock, held: set<Lock>, rest: seq<Act>)
    requires (forall h | h in held :: Rank(h) < Rank(l)) && Ordered(held, rest)
    ensures Ordered(held, Locked(l) + rest)
  {
    var all := Locked(l) + rest;
    assert all[0] == Acquire(l) && all[1..][0] == Release(l) && all[1..][1..] == rest;
    assert l !in held;
    assert held + {l} - {l} == held;
  }

  /** A lock held around a part of the program. */
  lemma OrderedFront(a: Act, held: set<Lock>, rest: seq<Act>)
    requires a.Acquire? ==> (forall h | h in held :: Rank(h) < Rank(a.l)) && Ordered(held + {a.l}, rest)
    requires a.Release? ==> a.l in held && Ordered(held - {a.l}, rest)
    ensures Ordered(held, [a] + rest)
  {
    assert ([a] + rest)[1..] == rest;
  }

  /** Two nested locks around nothing, followed by the rest. */
  lemma OrderedNested(a: Lock, b: Lock, rest: seq<Act>)
    requires Rank(a) < Rank(b) && Ordered({}, rest)
    ensures Ordered({}, [Acquire(a), Acquire(b), Release(b), Release(a)] + rest)
  {
    var r1 := [Release(a)] + rest;
    assert {a} - {a} == {};
    OrderedFront(Release(a), {a}, rest);
    OrderedLocked(b, {a}, r1);
    assert {} + {a} == {a};
    OrderedFront(Acquire(a), {}, Locked(b) + r1);
    assert [Acquire(a)] + (Locked(b) + r1) == [Acquire(a), Acquire(b), Release(b), Release(a)] + rest;
  }

  /** Every operation takes its locks in the order playbacks, assets or device, channels. */
  lemma CodeOrdered(op: Op)
    ensures Ordered({}, Code(op))
  {
    assert Ordered({}, []);
    match op
    case Load =>
      OrderedLocked(Assets, {}, []);
      assert Locked(Assets) + [] == Locked(Assets);
      OrderedLocked(NextId, {}, Locked(Assets));
    case FreeAsset => One(Assets); OrderedNested(Playbacks, Channels, Locked(Assets));
    case FreeAll => One(Assets); StopOrdered(Locked(Assets));
    case AssetQuery => One(Assets);
    case PlayUnknown => One(Assets);
    case PlayRefused => One(Channels); OrderedLocked(Assets, {}, Locked(Channels));
    case PlayStarted =>
      One(Playbacks);
      OrderedLocked(Channels, {}, Locked(Playbacks));
      OrderedLocked(Assets, {}, Locked(Channels) + Locked(Playbacks));
      assert Code(op) == Locked(Assets) + (Locked(Channels) + Locked(Playbacks));
    case Pause =>
      OrderedNested(Playbacks, Device, []);
      assert Code(op) == [Acquire(Playbacks), Acquire(Device), Release(Device), Release(Playbacks)] + [];
    case Resume => One(Playbacks);
    case StopAll => StopOrdered([]); assert Stop + [] == Stop;
    case PlaybackQuery => One(Playbacks);
    case MasterVolume => One(Master);
    case BusVolume => One(MusicBus);
    case WorkerPass => WorkerOrdered();
    case Shutdown => One(Device);
  }

  lemma One(l: Lock)
    ensures Ordered({}, Locked(l))
  {
    assert Ordered({}, []);
    OrderedLocked(l, {}, []);
    assert Locked(l) + [] == Locked(l);
  }

  lemma StopOrdered(rest: seq<Act>)
    requires Ordered({}, rest)
    ensures Ordered({}, Stop + rest)
  {
    var inner := [Acquire(Playbacks), Acquire(Channels), Release(Channels), Release(Playbacks)];
    OrderedNested(Playbacks, Channels, rest);
    OrderedLocked(Device, {}, inner + rest);
    assert Stop + rest == Locked(Device) + (inner + rest);
  }

  lemma WorkerOrdered()
    ensures Ordered({}, Code(WorkerPass))
  {
    hide Ordered;
    One(Playbacks);
    var r4 := Locked(Playbacks);
    OrderedFront(Release(Playbacks), {Playbacks}, r4) by { assert {Playbacks} - {Playbacks} == {}; }
    var r3 := [Release(Playbacks)] + r4;
    OrderedFront(Release(Assets), {Playbacks, Assets}, r3) by { assert {Playbacks, Assets} - {Assets} == {Playbacks}; }
    var r2 := [Release(Assets)] + r3;
    OrderedLocked(Channels, {Playbacks, Assets}, r2);
    var r1 := Locked(Channels) + r2;
    OrderedFront(Acquire(Assets), {Playbacks}, r1) by { assert {Playbacks} + {Assets} == {Playbacks, Assets}; }
    var r0 := [Acquire(Assets)] + r1;
    OrderedFront(Acquire(Playbacks), {}, r0) by { assert {} + {Playbacks} == {Playbacks}; }
    var r := [Acquire(Playbacks)] + r0;
    OrderedLocked(MusicBus, {}, r);
    OrderedLocked(Master, {}, Locked(MusicBus) + r);
    OrderedLocked(Device, {}, Locked(Master) + (Locked(MusicBus) + r));
    assert Code(WorkerPass) == Locked(Device) + (Locked(Master) + (Locked(MusicBus) + r));
  }

  lemma PlayKeeps(ts: Threads, m: Move)
    requires Inv(ts)
    ensures Inv(Play(ts, m))
  {
    match m
    case Start(th, op) =>
      if th < |ts| && ts[th].rest == [] {
        assert Ordered(ts[th].held, ts[th].rest);
        CodeOrdered(op);
      }
    case Go(th) =>
      if CanStep(ts, th) { assert Ordered(ts[th].held, ts[th].rest); }
  }

  lemma {:induction false} RunKeeps(ts: Threads, moves: seq<Move>)
    requires Inv(ts)
    ensures Inv(Run(ts, moves))
    decreases |moves|
  {
    if moves != [] {
      PlayKeeps(ts, moves[0]);
      RunKeeps(Play(ts, moves[0]), moves[1..]);
    }
  }

  /** From a thread that is in an operation, the chain of lock holders leads to one that can go on. */
  lemma {:induction false} SomeoneCanStep(ts: Threads, th: nat) returns (who: nat)
    requires Inv(ts) && th < |ts| && ts[th].rest != []
    ensures CanStep(ts, who)
    decreases if ts[th].rest[0].Acquire? then 7 - Rank(ts[th].rest[0].l) else 0
  {
    if CanStep(ts, th) {
      who := th;
    } else {
      var l := ts[th].rest[0].l;
      var k :| 0 <= k < |ts| && l in ts[k].held;
      assert Ordered(ts[k].held, ts[k].rest);
      who := SomeoneCanStep(ts, k);
    }
  }

  /** No reachable state is a deadlock, and a lock never has two holders. */
  lemma NoDeadlock(threads: nat, moves: seq<Move>)
    ensures var ts := Run(seq(threads, _ => Thread({}, [])), moves);
            && (forall j, k | 0 <= j < k < |ts| :: ts[j].held !! ts[k].held)
            && ((exists k :: 0 <= k < |ts| && ts[k].rest != []) ==> exists who :: CanStep(ts, who))
  {
    var start := seq(threads, _ => Thread({}, []));
    RunKeeps(start, moves);
    var ts := Run(start, moves);
    if k :| 0 <= k < |ts| && ts[k].rest != [] {
      var who := SomeoneCanStep(ts, k);
    }
  }
}
