/** The playback table of the MIDI runtime: what each critical section does to it. */
module MidiTable {
  import opened Channels

  datatype Event = Event(timeNs: nat, channel: nat, status: int, data1: int, data2: int)

  /** A compiled tune: the source channels it uses and its events. */
  datatype Asset = Asset(mask: set<int>, events: seq<Event>)

  datatype PlayState = Playing | Paused

  /** A published playback. `uid` tells playbacks of the same asset apart. */
  datatype Playback = Playback(uid: nat, asset: nat, state: PlayState, index: nat, start: int, elapsed: int,
      chan: seq<int>)

  /** One event handled by the dispatcher: which, on which hardware channel, and when; and the channel map
      of its playback. */
  datatype Sent = Sent(uid: nat, asset: nat, index: nat, chan: int, start: int, at: int, channels: seq<int>)

  datatype Table = Table(pbs: seq<Playback>, used: set<int>, log: seq<Sent>)

  function ChanAt(chan: seq<int>, source: nat): int { if source < |chan| then chan[source] else UNMAPPED }

  function SwapRemove(pbs: seq<Playback>, i: nat): seq<Playback>
    requires i < |pbs|
  {
    var last := |pbs| - 1;
    if i == last then pbs[..last] else pbs[..last][i := pbs[last]]
  }

  /** Removes an entry and releases its channels. */
  function Drop(t: Table, i: nat): Table
    requires i < |t.pbs|
  {
    t.(pbs := SwapRemove(t.pbs, i), used := t.used - Owned(t.pbs[i].chan))
  }

  predicate Due(pb: Playback, events: seq<Event>, now: int) {
    pb.index < |events| && pb.start + events[pb.index].timeNs <= now
  }

  function SendOne(t: Table, i: nat, events: seq<Event>, now: int): Table
    requires i < |t.pbs| && t.pbs[i].index < |events|
  {
    var pb := t.pbs[i];
    t.(pbs := t.pbs[i := pb.(index := pb.index + 1)],
       log := t.log + [Sent(pb.uid, pb.asset, pb.index, ChanAt(pb.chan, events[pb.index].channel), pb.start, now,
                         pb.chan)])
  }

  /** Handles the events of one entry that are due at `now`. */
  function AdvanceAt(t: Table, i: nat, events: seq<Event>, now: int): (r: Table)
    requires i < |t.pbs|
    ensures |r.pbs| == |t.pbs|
    decreases |events| - t.pbs[i].index
  {
    if Due(t.pbs[i], events, now) then AdvanceAt(SendOne(t, i, events, now), i, events, now) else t
  }

  /** A dispatch pass from entry `i` on. */
  function DispatchFrom(t: Table, i: nat, assets: map<nat, Asset>, now: int): Table
    decreases |t.pbs| - i, assets
  {
    if i >= |t.pbs| then t
    else if t.pbs[i].state.Paused? then DispatchFrom(t, i + 1, assets, now)
    else if t.pbs[i].asset !in assets then DispatchFrom(Drop(t, i), i, assets, now)
    else
      var events := assets[t.pbs[i].asset].events;
      var t1 := AdvanceAt(t, i, events, now);
      if t1.pbs[i].index >= |events| then DispatchFrom(Drop(t1, i), i, assets, now)
      else DispatchFrom(t1, i + 1, assets, now)
  }

  /** What `free` keeps of the entries, and the channels left in use. */
  function Sweep(pbs: seq<Playback>, used: set<int>, id: nat): (seq<Playback>, set<int>) {
    if pbs == [] then ([], used)
    else if pbs[0].asset == id then Sweep(pbs[1..], used - Owned(pbs[0].chan), id)
    else
      var (kept, left) := Sweep(pbs[1..], used, id);
      ([pbs[0]] + kept, left)
  }

  function ReleaseAll(pbs: seq<Playback>, used: set<int>): set<int> {
    if pbs == [] then used else ReleaseAll(pbs[1..], used - Owned(pbs[0].chan))
  }

  function PauseOne(pb: Playback, now: int): Playback {
    if pb.state.Playing? then pb.(elapsed := now - pb.start, state := Paused) else pb
  }

  function ResumeOne(pb: Playback, now: int): Playback {
    if pb.state.Paused? then pb.(start := now - pb.elapsed, state := Playing) else pb
  }

  function PauseAll(pbs: seq<Playback>, now: int): seq<Playback> {
    seq(|pbs|, i requires 0 <= i < |pbs| => PauseOne(pbs[i], now))
  }

  function ResumeAll(pbs: seq<Playback>, now: int): seq<Playback> {
    seq(|pbs|, i requires 0 <= i < |pbs| => ResumeOne(pbs[i], now))
  }

  // ---------------------------------------------------------------- the invariant

  /** The channels held by published playbacks, with multiplicity. */
  function Held(pbs: seq<Playback>): multiset<int> {
    if pbs == [] then multiset{} else multiset(Owned(pbs[0].chan)) + Held(pbs[1..])
  }

  /** The event indices handled for one playback, in the order they were handled. */
  function Indices(log: seq<Sent>, uid: nat): seq<nat> {
    if log == [] then []
    else (if log[0].uid == uid then [log[0].index] else []) + Indices(log[1..], uid)
  }

  /** An asset as the compiler leaves it: the mask covers every event, the events are in time order. */
  ghost predicate WellFormed(a: Asset) {
    && (forall x | x in a.mask :: 0 <= x < CHANNELS)
    && (forall k | 0 <= k < |a.events| :: a.events[k].channel in a.mask)
    && (forall j, k | 0 <= j < k < |a.events| :: a.events[j].timeNs <= a.events[k].timeNs)
  }

  /** `loaded` remembers every asset ever loaded; freed ones included. */
  ghost predicate EntryOk(pb: Playback, loaded: map<nat, Asset>, nextUid: nat, clock: int) {
    && pb.uid < nextUid
    && pb.asset in loaded
    && pb.index <= |loaded[pb.asset].events|
    && Serves(pb.chan, loaded[pb.asset].mask)
    && pb.start <= clock
    && (pb.state.Paused? ==> 0 <= pb.elapsed && pb.start + pb.elapsed <= clock)
  }

  ghost predicate EntriesOk(pbs: seq<Playback>, loaded: map<nat, Asset>, nextUid: nat, clock: int) {
    && (forall i | 0 <= i < |pbs| :: EntryOk(pbs[i], loaded, nextUid, clock))
    && (forall i, j | 0 <= i < j < |pbs| :: pbs[i].uid != pbs[j].uid)
  }

  /** Never early, and on the hardware channel that the playback's reservation maps the event's channel to. */
  ghost predicate SentOk(x: Sent, loaded: map<nat, Asset>, clock: int) {
    && x.asset in loaded
    && x.index < |loaded[x.asset].events|
    && x.start + loaded[x.asset].events[x.index].timeNs <= x.at <= clock
    && Serves(x.channels, loaded[x.asset].mask)
    && loaded[x.asset].events[x.index].channel in loaded[x.asset].mask
    && 0 <= loaded[x.asset].events[x.index].channel < CHANNELS
    && x.chan == x.channels[loaded[x.asset].events[x.index].channel]
  }

  /** What was handled for a playback in the table was handled under its channel map. */
  ghost predicate OwnMaps(t: Table) {
    forall k, i | 0 <= k < |t.log| && 0 <= i < |t.pbs| && t.log[k].uid == t.pbs[i].uid ::
      t.log[k].channels == t.pbs[i].chan && t.log[k].asset == t.pbs[i].asset
  }

  ghost predicate InOrder(s: seq<nat>) { forall k | 0 <= k < |s| :: s[k] == k }

  ghost predicate LogOk(t: Table, loaded: map<nat, Asset>, nextUid: nat, clock: int) {
    && (forall k | 0 <= k < |t.log| :: SentOk(t.log[k], loaded, clock) && t.log[k].uid < nextUid)
    && (forall uid: nat :: InOrder(Indices(t.log, uid)))
    && (forall i | 0 <= i < |t.pbs| :: |Indices(t.log, t.pbs[i].uid)| == t.pbs[i].index)
    && OwnMaps(t)
  }

  ghost predicate AssetsOk(assets: map<nat, Asset>, loaded: map<nat, Asset>) {
    && (forall id | id in assets :: id in loaded && assets[id] == loaded[id])
    && (forall id | id in loaded :: WellFormed(loaded[id]))
  }

  /** The channels in use are the disjoint union of what the entries hold and of what is pending. */
  ghost predicate TableInv(t: Table, pending: multiset<int>, loaded: map<nat, Asset>, nextUid: nat, clock: int) {
    && multiset(t.used) == Held(t.pbs) + pending
    && EntriesOk(t.pbs, loaded, nextUid, clock)
    && LogOk(t, loaded, nextUid, clock)
  }

  // ---------------------------------------------------------------- lemmas on the folds

  lemma {:induction false} HeldAppend(a: seq<Playback>, b: seq<Playback>)
    ensures Held(a + b) == Held(a) + Held(b)
  {
    if a == [] {
      assert a + b == b;
    } else {
      assert (a + b)[0] == a[0] && (a + b)[1..] == a[1..] + b;
      HeldAppend(a[1..], b);
    }
  }

  lemma HeldOne(pb: Playback)
    ensures Held([pb]) == multiset(Owned(pb.chan))
  {
    assert [pb][1..] == [];
  }

  lemma {:induction false} HeldSplit(pbs: seq<Playback>, i: nat)
    requires i < |pbs|
    ensures Held(pbs) == multiset(Owned(pbs[i].chan)) + Held(pbs[..i]) + Held(pbs[i + 1..])
  {
    assert pbs == pbs[..i] + pbs[i..];
    HeldAppend(pbs[..i], pbs[i..]);
    assert pbs[i..][1..] == pbs[i + 1..];
  }

  /** The last entry moved to a gap before it. */
  lemma HeldMoved(pbs: seq<Playback>, out: seq<Playback>, i: nat)
    requires i < |pbs| - 1 && out == pbs[..|pbs| - 1][i := pbs[|pbs| - 1]]
    ensures Held(out) == multiset(Owned(pbs[|pbs| - 1].chan)) + Held(pbs[..i]) + Held(pbs[i + 1..|pbs| - 1])
  {
    HeldSplit(out, i);
    assert out[..i] == pbs[..i] && out[i + 1..] == pbs[i + 1..|pbs| - 1];
  }

  lemma HeldLast(pbs: seq<Playback>, i: nat)
    requires i < |pbs|
    ensures Held(pbs[i..]) == Held(pbs[i..|pbs| - 1]) + multiset(Owned(pbs[|pbs| - 1].chan))
  {
    var last := |pbs| - 1;
    assert pbs[i..] == pbs[i..last] + [pbs[last]];
    HeldAppend(pbs[i..last], [pbs[last]]);
    HeldOne(pbs[last]);
  }

  lemma {:induction false} HeldSwapRemove(pbs: seq<Playback>, i: nat)
    requires i < |pbs|
    ensures Held(pbs) == multiset(Owned(pbs[i].chan)) + Held(SwapRemove(pbs, i))
  {
    HeldSplit(pbs, i);
    if i < |pbs| - 1 {
      HeldMoved(pbs, SwapRemove(pbs, i), i);
      HeldLast(pbs, i + 1);
    }
  }

  /** Entries with the same channels hold the same. */
  lemma {:induction false} HeldSame(a: seq<Playback>, b: seq<Playback>)
    requires |a| == |b| && forall i | 0 <= i < |a| :: a[i].chan == b[i].chan
    ensures Held(a) == Held(b)
  {
    if a != [] { HeldSame(a[1..], b[1..]); }
  }

  lemma {:induction false} IndicesAppend(a: seq<Sent>, b: seq<Sent>, uid: nat)
    ensures Indices(a + b, uid) == Indices(a, uid) + Indices(b, uid)
  {
    if a == [] {
      assert a + b == b;
    } else {
      hide Indices;
      assert (a + b)[0] == a[0] && (a + b)[1..] == a[1..] + b;
      IndicesAppend(a[1..], b, uid);
      IndicesStep(a, uid);
      IndicesStep(a + b, uid);
    }
  }

  lemma IndicesStep(log: seq<Sent>, uid: nat)
    requires log != []
    ensures Indices(log, uid) == (if log[0].uid == uid then [log[0].index] else []) + Indices(log[1..], uid)
  {}

  lemma IndicesPush(log: seq<Sent>, x: Sent, uid: nat)
    ensures Indices(log + [x], uid) == Indices(log, uid) + if x.uid == uid then [x.index] else []
  {
    IndicesAppend(log, [x], uid);
    assert [x][1..] == [];
  }

  lemma {:induction false} IndicesFresh(log: seq<Sent>, uid: nat)
    requires forall k | 0 <= k < |log| :: log[k].uid != uid
    ensures Indices(log, uid) == []
  {
    if log != [] { IndicesFresh(log[1..], uid); }
  }

  /** Releasing a part of a disjoint union. */
  lemma Release(used: set<int>, part: set<int>, rest: multiset<int>)
    requires multiset(used) == multiset(part) + rest
    ensures multiset(used - part) == rest
  {
    forall h ensures multiset(used - part)[h] == rest[h] {
      assert multiset(used)[h] == multiset(part)[h] + rest[h];
    }
  }

  // ---------------------------------------------------------------- the steps keep the invariant

  lemma DropKeeps(t: Table, i: nat, pending: multiset<int>, loaded: map<nat, Asset>, nextUid: nat, clock: int)
    requires TableInv(t, pending, loaded, nextUid, clock) && i < |t.pbs|
    ensures TableInv(Drop(t, i), pending, loaded, nextUid, clock)
  {
    hide Held, EntryOk, SentOk, InOrder, Indices;
    HeldSwapRemove(t.pbs, i);
    Release(t.used, Owned(t.pbs[i].chan), Held(SwapRemove(t.pbs, i)) + pending);
  }

  lemma SendOneKeeps(t: Table, i: nat, now: int, pending: multiset<int>, loaded: map<nat, Asset>, nextUid: nat,
          clock: int)
    requires TableInv(t, pending, loaded, nextUid, clock) && AssetsOk(map[], loaded)
    requires i < |t.pbs| && now <= clock && Due(t.pbs[i], loaded[t.pbs[i].asset].events, now)
    ensures TableInv(SendOne(t, i, loaded[t.pbs[i].asset].events, now), pending, loaded, nextUid, clock)
  {
    hide Held, Indices;
    var pb := t.pbs[i];
    var events := loaded[pb.asset].events;
    var t1 := SendOne(t, i, events, now);
    var x := t1.log[|t.log|];
    HeldSame(t.pbs, t1.pbs);
    assert EntryOk(pb, loaded, nextUid, clock);
    assert events[pb.index].channel in loaded[pb.asset].mask;
    assert SentOk(x, loaded, clock);
    forall uid: nat ensures InOrder(Indices(t1.log, uid)) { IndicesPush(t.log, x, uid); }
    forall j | 0 <= j < |t1.pbs| ensures |Indices(t1.log, t1.pbs[j].uid)| == t1.pbs[j].index {
      IndicesPush(t.log, x, t.pbs[j].uid);
    }
  }

  lemma {:induction false} AdvanceKeeps(t: Table, i: nat, events: seq<Event>, now: int, pending: multiset<int>,
          loaded: map<nat, Asset>, nextUid: nat, clock: int)
    requires TableInv(t, pending, loaded, nextUid, clock) && AssetsOk(map[], loaded)
    requires i < |t.pbs| && now <= clock && events == loaded[t.pbs[i].asset].events
    ensures TableInv(AdvanceAt(t, i, events, now), pending, loaded, nextUid, clock)
    decreases |events| - t.pbs[i].index
  {
    if Due(t.pbs[i], events, now) {
      SendOneKeeps(t, i, now, pending, loaded, nextUid, clock);
      AdvanceKeeps(SendOne(t, i, events, now), i, events, now, pending, loaded, nextUid, clock);
    }
  }

  /** A whole dispatch pass keeps the invariant. */
  lemma {:induction false} DispatchKeeps(t: Table, i: nat, assets: map<nat, Asset>, now: int, pending: multiset<int>,
          loaded: map<nat, Asset>, nextUid: nat, clock: int)
    requires TableInv(t, pending, loaded, nextUid, clock) && AssetsOk(assets, loaded) && now <= clock
    ensures TableInv(DispatchFrom(t, i, assets, now), pending, loaded, nextUid, clock)
    decreases |t.pbs| - i
  {
    hide TableInv, AdvanceAt;
    if i < |t.pbs| {
      if t.pbs[i].state.Paused? {
        DispatchKeeps(t, i + 1, assets, now, pending, loaded, nextUid, clock);
      } else if t.pbs[i].asset !in assets {
        DropKeeps(t, i, pending, loaded, nextUid, clock);
        DispatchKeeps(Drop(t, i), i, assets, now, pending, loaded, nextUid, clock);
      } else {
        var events := assets[t.pbs[i].asset].events;
        AdvanceKeeps(t, i, events, now, pending, loaded, nextUid, clock);
        var t1 := AdvanceAt(t, i, events, now);
        if t1.pbs[i].index >= |events| {
          DropKeeps(t1, i, pending, loaded, nextUid, clock);
          DispatchKeeps(Drop(t1, i), i, assets, now, pending, loaded, nextUid, clock);
        } else {
          DispatchKeeps(t1, i + 1, assets, now, pending, loaded, nextUid, clock);
        }
      }
    }
  }

  lemma {:induction false} SweepChannels(pbs: seq<Playback>, used: set<int>, id: nat, pending: multiset<int>)
    requires multiset(used) == Held(pbs) + pending
    ensures var (kept, left) := Sweep(pbs, used, id); multiset(left) == Held(kept) + pending
    decreases pbs
  {
    if pbs != [] {
      var mine := multiset(Owned(pbs[0].chan));
      if pbs[0].asset == id {
        Release(used, Owned(pbs[0].chan), Held(pbs[1..]) + pending);
        SweepChannels(pbs[1..], used - Owned(pbs[0].chan), id, pending);
      } else {
        SweepChannels(pbs[1..], used, id, mine + pending);
        var (kept, _) := Sweep(pbs[1..], used, id);
        assert ([pbs[0]] + kept)[1..] == kept;
      }
    }
  }

  /** The entries kept are exactly those of other assets, still with distinct ids. */
  lemma {:induction false} SweepEntries(pbs: seq<Playback>, used: set<int>, id: nat)
    requires forall i, j | 0 <= i < j < |pbs| :: pbs[i].uid != pbs[j].uid
    ensures var kept := Sweep(pbs, used, id).0;
            && (forall pb :: pb in kept <==> pb in pbs && pb.asset != id)
            && (forall i, j | 0 <= i < j < |kept| :: kept[i].uid != kept[j].uid)
    decreases pbs
  {
    if pbs != [] {
      var rest := pbs[1..];
      assert pbs == [pbs[0]] + rest;
      var used1 := if pbs[0].asset == id then used - Owned(pbs[0].chan) else used;
      SweepEntries(rest, used1, id);
      var kept := Sweep(rest, used1, id).0;
      forall j | 0 <= j < |kept| ensures kept[j].uid != pbs[0].uid {
        assert kept[j] in rest;
      }
    }
  }

  lemma SweepKeeps(t: Table, id: nat, pending: multiset<int>, loaded: map<nat, Asset>, nextUid: nat, clock: int)
    requires TableInv(t, pending, loaded, nextUid, clock)
    ensures var (kept, left) := Sweep(t.pbs, t.used, id);
            TableInv(t.(pbs := kept, used := left), pending, loaded, nextUid, clock)
  {
    hide Held, EntryOk, SentOk, InOrder, Indices, Sweep;
    SweepChannels(t.pbs, t.used, id, pending);
    SweepEntries(t.pbs, t.used, id);
    var kept := Sweep(t.pbs, t.used, id).0;
    forall i | 0 <= i < |kept|
      ensures EntryOk(kept[i], loaded, nextUid, clock) && |Indices(t.log, kept[i].uid)| == kept[i].index
    {
      assert kept[i] in t.pbs;
    }
  }

  lemma {:induction false} ReleaseAllChannels(pbs: seq<Playback>, used: set<int>, pending: multiset<int>)
    requires multiset(used) == Held(pbs) + pending
    ensures multiset(ReleaseAll(pbs, used)) == pending
    decreases pbs
  {
    if pbs != [] {
      Release(used, Owned(pbs[0].chan), Held(pbs[1..]) + pending);
      ReleaseAllChannels(pbs[1..], used - Owned(pbs[0].chan), pending);
    }
  }

  lemma StopKeeps(t: Table, pending: multiset<int>, loaded: map<nat, Asset>, nextUid: nat, clock: int)
    requires TableInv(t, pending, loaded, nextUid, clock)
    ensures TableInv(t.(pbs := [], used := ReleaseAll(t.pbs, t.used)), pending, loaded, nextUid, clock)
  {
    ReleaseAllChannels(t.pbs, t.used, pending);
  }

  /** Changing the times of entries. */
  lemma RetimeKeeps(t: Table, pbs: seq<Playback>, pending: multiset<int>, loaded: map<nat, Asset>, nextUid: nat,
          clock: int)
    requires TableInv(t, pending, loaded, nextUid, clock)
    requires |pbs| == |t.pbs|
    requires forall i | 0 <= i < |pbs| ::
               pbs[i] == t.pbs[i].(state := pbs[i].state, start := pbs[i].start, elapsed := pbs[i].elapsed)
    requires forall i | 0 <= i < |pbs| :: EntryOk(pbs[i], loaded, nextUid, clock)
    ensures TableInv(t.(pbs := pbs), pending, loaded, nextUid, clock)
  {
    hide Held, SentOk, InOrder, Indices;
    HeldSame(t.pbs, pbs);
  }

  lemma PauseKeeps(t: Table, pending: multiset<int>, loaded: map<nat, Asset>, nextUid: nat, clock: int)
    requires TableInv(t, pending, loaded, nextUid, clock)
    ensures TableInv(t.(pbs := PauseAll(t.pbs, clock)), pending, loaded, nextUid, clock)
  {
    var pbs := PauseAll(t.pbs, clock);
    forall i | 0 <= i < |pbs| ensures EntryOk(pbs[i], loaded, nextUid, clock) {
      assert EntryOk(t.pbs[i], loaded, nextUid, clock);
    }
    RetimeKeeps(t, pbs, pending, loaded, nextUid, clock);
  }

  lemma ResumeKeeps(t: Table, pending: multiset<int>, loaded: map<nat, Asset>, nextUid: nat, clock: int)
    requires TableInv(t, pending, loaded, nextUid, clock)
    ensures TableInv(t.(pbs := ResumeAll(t.pbs, clock)), pending, loaded, nextUid, clock)
  {
    var pbs := ResumeAll(t.pbs, clock);
    forall i | 0 <= i < |pbs| ensures EntryOk(pbs[i], loaded, nextUid, clock) {
      assert EntryOk(t.pbs[i], loaded, nextUid, clock);
    }
    RetimeKeeps(t, pbs, pending, loaded, nextUid, clock);
  }

  /** Publishing moves channels from pending to held. */
  lemma PublishKeeps(t: Table, pb: Playback, pending: multiset<int>, rest: multiset<int>, loaded: map<nat, Asset>,
          nextUid: nat, clock: int)
    requires TableInv(t, pending, loaded, nextUid, clock)
    requires pending == multiset(Owned(pb.chan)) + rest
    requires pb.uid == nextUid && pb.index == 0 && EntryOk(pb, loaded, nextUid + 1, clock)
    ensures TableInv(t.(pbs := t.pbs + [pb]), rest, loaded, nextUid + 1, clock)
  {
    hide Held, Owned, Serves, SentOk, InOrder, Indices;
    HeldAppend(t.pbs, [pb]);
    HeldOne(pb);
    IndicesFresh(t.log, nextUid);
    var pbs := t.pbs + [pb];
    forall i | 0 <= i < |pbs| ensures EntryOk(pbs[i], loaded, nextUid + 1, clock) {
      if i < |t.pbs| { assert EntryOk(t.pbs[i], loaded, nextUid, clock); }
    }
  }

  /** The clock and the history of loaded assets only grow. */
  lemma LaterKeeps(t: Table, pending: multiset<int>, loaded: map<nat, Asset>, loaded2: map<nat, Asset>, nextUid: nat,
          clock: int, clock2: int)
    requires TableInv(t, pending, loaded, nextUid, clock) && clock <= clock2
    requires forall id | id in loaded :: id in loaded2 && loaded2[id] == loaded[id]
    ensures TableInv(t, pending, loaded2, nextUid, clock2)
  {
    forall i | 0 <= i < |t.pbs| ensures EntryOk(t.pbs[i], loaded2, nextUid, clock2) {
      assert EntryOk(t.pbs[i], loaded, nextUid, clock);
    }
    forall k | 0 <= k < |t.log| ensures SentOk(t.log[k], loaded2, clock2) {
      assert SentOk(t.log[k], loaded, clock);
    }
  }

  // ---------------------------------------------------------------- what a pass achieves

  /** Nothing is left to do for an entry at `now`: it is paused, or its asset is loaded, it has
      events left, and all of them are due later. */
  ghost predicate Settled(pb: Playback, assets: map<nat, Asset>, now: int) {
    pb.state.Paused? ||
    (&& pb.asset in assets
     && pb.index < |assets[pb.asset].events|
     && forall k | pb.index <= k < |assets[pb.asset].events| :: now < pb.start + assets[pb.asset].events[k].timeNs)
  }

  ghost predicate AllSettled(pbs: seq<Playback>, assets: map<nat, Asset>, now: int) {
    forall k | 0 <= k < |pbs| :: Settled(pbs[k], assets, now)
  }

  /** Advancing one entry changes nothing else, and stops only where nothing is due. */
  lemma {:induction false} AdvanceStops(t: Table, i: nat, events: seq<Event>, now: int)
    requires i < |t.pbs|
    ensures var r := AdvanceAt(t, i, events, now);
            && r.used == t.used
            && r.pbs == t.pbs[i := t.pbs[i].(index := r.pbs[i].index)]
            && !Due(r.pbs[i], events, now)
    decreases |events| - t.pbs[i].index
  {
    if Due(t.pbs[i], events, now) { AdvanceStops(SendOne(t, i, events, now), i, events, now); }
  }

  /** After a pass every entry of the table is settled: no event that was due is left unsent,
      and finished entries and entries of freed assets are gone. */
  lemma {:induction false} PassSettles(t: Table, i: nat, assets: map<nat, Asset>, now: int)
    requires forall id | id in assets :: WellFormed(assets[id])
    requires i <= |t.pbs| && forall k | 0 <= k < i :: Settled(t.pbs[k], assets, now)
    ensures var r := DispatchFrom(t, i, assets, now);
            AllSettled(r.pbs, assets, now)
    decreases |t.pbs| - i
  {
    if i < |t.pbs| {
      if t.pbs[i].state.Paused? {
        assert DispatchFrom(t, i, assets, now) == DispatchFrom(t, i + 1, assets, now);
        PassSettles(t, i + 1, assets, now);
      } else if t.pbs[i].asset !in assets {
        PassSettles(Drop(t, i), i, assets, now);
      } else {
        var events := assets[t.pbs[i].asset].events;
        var t1 := AdvanceAt(t, i, events, now);
        AdvanceStops(t, i, events, now);
        if t1.pbs[i].index >= |events| {
          PassSettles(Drop(t1, i), i, assets, now);
        } else {
          assert WellFormed(assets[t.pbs[i].asset]);
          PassSettles(t1, i + 1, assets, now);
        }
      }
    }
  }

  /** How far into its tune an entry is. */
  function Elapsed(pb: Playback, now: int): int { if pb.state.Playing? then now - pb.start else pb.elapsed }
}
