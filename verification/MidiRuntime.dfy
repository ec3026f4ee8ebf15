/** The critical sections of the MIDI runtime as they run: loops over the channel array and the
    playback list, each against the account of it in MidiTable. */
module MidiRuntime {
  import opened Wrappers
  import opened Channels
  import opened MidiTable

  /** Every entry of a channel map is a channel or unmapped. */
  ghost predicate MapOk(chan: seq<int>) {
    |chan| == CHANNELS && forall s | 0 <= s < CHANNELS :: chan[s] == UNMAPPED || 0 <= chan[s] < CHANNELS
  }

  class Runtime {
    const channelsInUse: array<bool>
    var playbacks: seq<Playback>
    var assets: map<nat, Asset>
    var nextAssetId: nat
    var nextUid: nat
    var sent: seq<Sent>

    ghost predicate Valid() reads this, channelsInUse {
      channelsInUse.Length == CHANNELS && forall i | 0 <= i < |playbacks| :: MapOk(playbacks[i].chan)
    }

    ghost function InUse(): set<int>
      requires channelsInUse.Length == CHANNELS
      reads this, channelsInUse
    {
      set c | 0 <= c < CHANNELS && channelsInUse[c]
    }

    ghost function T(): Table
      requires channelsInUse.Length == CHANNELS
      reads this, channelsInUse
    {
      Table(playbacks, InUse(), sent)
    }

    constructor ()
      ensures Valid() && fresh(channelsInUse) && T() == Table([], {}, []) && assets == map[] && nextAssetId == 1
          && nextUid == 0
    {
      channelsInUse := new bool[CHANNELS](_ => false);
      playbacks, assets, nextAssetId, nextUid, sent := [], map[], 1, 0, [];
    }

    method Mark(c: int, on: bool)
      requires channelsInUse.Length == CHANNELS && 0 <= c < CHANNELS
      modifies channelsInUse
      ensures InUse() == if on then old(InUse()) + {c} else old(InUse()) - {c}
    {
      channelsInUse[c] := on;
    }

    /** Releases every channel of a map. */
    method Release(chan: seq<int>)
      requires channelsInUse.Length == CHANNELS && MapOk(chan)
      modifies channelsInUse
      ensures InUse() == old(InUse()) - Owned(chan)
    {
      assert Owned(chan[..0]) == {};
      for k := 0 to |chan|
        invariant InUse() == old(InUse()) - Owned(chan[..k])
      {
        OwnedPrefix(chan, k);
        if chan[k] != UNMAPPED { Mark(chan[k], false); }
      }
      assert chan[..|chan|] == chan;
    }

    /** The lowest melodic channel that is free. */
    method FindFree() returns (found: Option<int>)
      requires channelsInUse.Length == CHANNELS
      ensures found == FirstFree(0, InUse())
    {
      for c := 0 to CHANNELS
        invariant FirstFree(c, InUse()) == FirstFree(0, InUse())
      {
        if c != DRUMS && !channelsInUse[c] { return Some(c); }
      }
      return None;
    }

    /** Reserves a channel for every source in `mask`, or rolls back what it took and fails. */
    method ReserveChannels(mask: set<int>) returns (ok: bool, chan: seq<int>)
      requires channelsInUse.Length == CHANNELS
      modifies channelsInUse
      ensures var r := Reserve(old(InUse()), mask);
              && ok == r.Some?
              && (ok ==> chan == r.value && MapOk(chan) && InUse() == old(InUse()) + Owned(chan))
              && (!ok ==> InUse() == old(InUse()))
    {
      hide AssignFrom, FirstFree;
      chan := seq(CHANNELS, _ => UNMAPPED);
      assert Owned(chan) == {};
      ghost var first := old(InUse());
      if DRUMS in mask {
        if channelsInUse[DRUMS] { return false, chan; }
        Mark(DRUMS, true);
        OwnedUpdate(chan, DRUMS, DRUMS);
        chan := chan[DRUMS := DRUMS];
        first := first + {DRUMS};
      }
      ghost var goal := AssignFrom(0, mask, first);
      assert goal.Some? ==> chan[..0] + goal.value == goal.value;
      for source := 0 to CHANNELS
        invariant MapOk(chan)
        invariant forall s | source <= s < CHANNELS ::
                    chan[s] == if s == DRUMS && DRUMS in mask then DRUMS else UNMAPPED
        invariant InUse() == old(InUse()) + Owned(chan) && Owned(chan) !! old(InUse())
        invariant goal == Prefixed(chan[..source], AssignFrom(source, mask, InUse()))
      {
        ghost var before := chan;
        AssignStep(source, mask, InUse());
        if source != DRUMS && source in mask {
          var found := FindFree();
          FirstFreeIs(0, InUse());
          match found
          case Some(ch) =>
            OwnedUpdate(chan, source, ch);
            Mark(ch, true);
            chan := chan[source := ch];
          case None =>
            Release(chan);
            return false, chan;
        }
        assert chan[..source + 1] == before[..source] + [chan[source]];
        PrefixedStep(before[..source], chan[source], AssignFrom(source + 1, mask, InUse()));
      }
      AssignNothing(mask, InUse());
      assert chan[..CHANNELS] == chan;
      assert chan + [] == chan;
      ok := true;
    }

    /** The two critical sections of `load`: an id is taken, then the asset is stored under it. */
    method TakeAssetId() returns (id: nat)
      requires Valid()
      modifies this
      ensures Valid() && id == old(nextAssetId) && nextAssetId == id + 1
      ensures T() == old(T()) && assets == old(assets) && nextUid == old(nextUid)
    {
      id := nextAssetId;
      nextAssetId := nextAssetId + 1;
    }

    method InsertAsset(id: nat, a: Asset)
      requires Valid()
      modifies this
      ensures Valid() && assets == old(assets)[id := a]
      ensures T() == old(T()) && nextAssetId == old(nextAssetId) && nextUid == old(nextUid)
    {
      assets := assets[id := a];
    }

    /** The last critical section of `free`: whether the id was known. */
    method RemoveAsset(id: nat) returns (known: bool)
      requires Valid()
      modifies this
      ensures Valid() && known == (id in old(assets)) && assets == old(assets) - {id}
      ensures T() == old(T()) && nextAssetId == old(nextAssetId) && nextUid == old(nextUid)
    {
      known := id in assets;
      assets := assets - {id};
    }

    /** The last critical section of `free_all`. */
    method ClearAssets()
      requires Valid()
      modifies this
      ensures Valid() && assets == map[]
      ensures T() == old(T()) && nextAssetId == old(nextAssetId) && nextUid == old(nextUid)
    {
      assets := map[];
    }

    /** Publishes a playback on channels reserved before. */
    method PublishPlayback(id: nat, chan: seq<int>, start: int)
      requires Valid() && MapOk(chan)
      modifies this
      ensures Valid() && nextUid == old(nextUid) + 1 && assets == old(assets) && nextAssetId == old(nextAssetId)
      ensures T() == old(T()).(pbs := old(playbacks) + [Playback(old(nextUid), id, Playing, 0, start, 0, chan)])
    {
      playbacks := playbacks + [Playback(nextUid, id, Playing, 0, start, 0, chan)];
      nextUid := nextUid + 1;
    }

    /** The first critical section of `free`: drops the playbacks of an asset. */
    method FreePlaybacks(id: nat)
      requires Valid()
      modifies this, channelsInUse
      ensures Valid() && assets == old(assets) && nextUid == old(nextUid) && nextAssetId == old(nextAssetId)
      ensures var (kept, left) := Sweep(old(playbacks), old(InUse()), id);
              T() == old(T()).(pbs := kept, used := left)
    {
      var kept: seq<Playback> := [];
      ghost var goal := Sweep(playbacks, InUse(), id);
      var pbs := playbacks;
      assert pbs[0..] == pbs && kept + goal.0 == goal.0;
      for k := 0 to |pbs|
        invariant playbacks == pbs == old(playbacks) && assets == old(assets) && nextUid == old(nextUid)
        invariant nextAssetId == old(nextAssetId) && sent == old(sent)
        invariant forall i | 0 <= i < |kept| :: MapOk(kept[i].chan)
        invariant var rest := Sweep(pbs[k..], InUse(), id); goal == (kept + rest.0, rest.1)
      {
        assert pbs[k..][0] == pbs[k] && pbs[k..][1..] == pbs[k + 1..];
        if pbs[k].asset == id {
          Release(pbs[k].chan);
        } else {
          ghost var rest := Sweep(pbs[k + 1..], InUse(), id);
          assert kept + ([pbs[k]] + rest.0) == kept + [pbs[k]] + rest.0;
          kept := kept + [pbs[k]];
        }
      }
      assert kept + [] == kept;
      playbacks := kept;
    }

    /** The critical section of `stop_all`. */
    method StopPlaybacks()
      requires Valid()
      modifies this, channelsInUse
      ensures Valid() && assets == old(assets) && nextUid == old(nextUid) && nextAssetId == old(nextAssetId)
      ensures T() == old(T()).(pbs := [], used := ReleaseAll(old(playbacks), old(InUse())))
    {
      ghost var goal := ReleaseAll(playbacks, InUse());
      for k := 0 to |playbacks|
        invariant Valid() && playbacks == old(playbacks) && assets == old(assets) && nextUid == old(nextUid)
        invariant nextAssetId == old(nextAssetId) && sent == old(sent)
        invariant goal == ReleaseAll(playbacks[k..], InUse())
      {
        assert playbacks[k..][0] == playbacks[k] && playbacks[k..][1..] == playbacks[k + 1..];
        Release(playbacks[k].chan);
      }
      playbacks := [];
    }

    method PausePlaybacks(now: int)
      requires Valid()
      modifies this
      ensures Valid() && T() == old(T()).(pbs := PauseAll(old(playbacks), now))
      ensures assets == old(assets) && nextUid == old(nextUid) && nextAssetId == old(nextAssetId)
    {
      for k := 0 to |playbacks|
        invariant Valid() && |playbacks| == |old(playbacks)| && sent == old(sent)
        invariant assets == old(assets) && nextUid == old(nextUid) && nextAssetId == old(nextAssetId)
        invariant forall i | 0 <= i < |playbacks| ::
                    playbacks[i] == if i < k then PauseOne(old(playbacks)[i], now) else old(playbacks)[i]
      {
        var pb := playbacks[k];
        if pb.state.Playing? {
          playbacks := playbacks[k := pb.(elapsed := now - pb.start, state := Paused)];
        }
      }
      assert playbacks == PauseAll(old(playbacks), now);
    }

    method ResumePlaybacks(now: int)
      requires Valid()
      modifies this
      ensures Valid() && T() == old(T()).(pbs := ResumeAll(old(playbacks), now))
      ensures assets == old(assets) && nextUid == old(nextUid) && nextAssetId == old(nextAssetId)
    {
      for k := 0 to |playbacks|
        invariant Valid() && |playbacks| == |old(playbacks)| && sent == old(sent)
        invariant assets == old(assets) && nextUid == old(nextUid) && nextAssetId == old(nextAssetId)
        invariant forall i | 0 <= i < |playbacks| ::
                    playbacks[i] == if i < k then ResumeOne(old(playbacks)[i], now) else old(playbacks)[i]
      {
        var pb := playbacks[k];
        if pb.state.Paused? {
          playbacks := playbacks[k := pb.(start := now - pb.elapsed, state := Playing)];
        }
      }
      assert playbacks == ResumeAll(old(playbacks), now);
    }

    /** Handles the events of one entry that are due. */
    method SendDue(i: nat, events: seq<Event>, now: int)
      requires Valid() && i < |playbacks|
      modifies this
      ensures Valid() && T() == AdvanceAt(old(T()), i, events, now) && |playbacks| == old(|playbacks|)
      ensures assets == old(assets) && nextUid == old(nextUid) && nextAssetId == old(nextAssetId)
    {
      while playbacks[i].index < |events|
        invariant Valid() && |playbacks| == old(|playbacks|)
        invariant assets == old(assets) && nextUid == old(nextUid) && nextAssetId == old(nextAssetId)
        invariant AdvanceAt(T(), i, events, now) == AdvanceAt(old(T()), i, events, now)
        decreases |events| - playbacks[i].index
      {
        var pb := playbacks[i];
        var ev := events[pb.index];
        if pb.start + ev.timeNs > now { break; }
        ghost var t := T();
        sent := sent + [Sent(pb.uid, pb.asset, pb.index, ChanAt(pb.chan, ev.channel), pb.start, now, pb.chan)];
        playbacks := playbacks[i := pb.(index := pb.index + 1)];
        assert T() == SendOne(t, i, events, now);
      }
    }

    /** Releases the channels of an entry and moves the last entry into its place. */
    method Reap(i: nat)
      requires Valid() && i < |playbacks|
      modifies this, channelsInUse
      ensures Valid() && T() == Drop(old(T()), i)
      ensures assets == old(assets) && nextUid == old(nextUid) && nextAssetId == old(nextAssetId)
    {
      Release(playbacks[i].chan);
      var last := |playbacks| - 1;
      if i != last { playbacks := playbacks[i := playbacks[last]]; }
      playbacks := playbacks[..last];
      assert playbacks == SwapRemove(old(playbacks), i);
    }

    /** One pass of the dispatcher with the clock read before. */
    method DispatchDueEvents(now: int)
      requires Valid()
      modifies this, channelsInUse
      ensures Valid() && T() == DispatchFrom(old(T()), 0, assets, now)
      ensures assets == old(assets) && nextUid == old(nextUid) && nextAssetId == old(nextAssetId)
    {
      var i := 0;
      while i < |playbacks|
        invariant Valid() && i <= |playbacks|
        invariant assets == old(assets) && nextUid == old(nextUid) && nextAssetId == old(nextAssetId)
        invariant DispatchFrom(T(), i, assets, now) == DispatchFrom(old(T()), 0, assets, now)
        decreases |playbacks| - i
      {
        if playbacks[i].state.Paused? {
          i := i + 1;
          continue;
        }
        if playbacks[i].asset !in assets {
          Reap(i);
          continue;
        }
        var events := assets[playbacks[i].asset].events;
        SendDue(i, events, now);
        if playbacks[i].index >= |events| {
          Reap(i);
          continue;
        }
        i := i + 1;
      }
    }
  }

  lemma AssignNothing(mask: set<int>, used: set<int>)
    ensures AssignFrom(CHANNELS, mask, used) == Some([])
  {}

  /** One source at a time. */
  lemma AssignStep(source: nat, mask: set<int>, used: set<int>)
    requires source < CHANNELS
    ensures AssignFrom(source, mask, used) ==
            if source == DRUMS || source !in mask then
              Prefixed([if source == DRUMS && DRUMS in mask then DRUMS else UNMAPPED],
                       AssignFrom(source + 1, mask, used))
            else match FirstFree(0, used)
              case None => None
              case Some(ch) => Prefixed([ch], AssignFrom(source + 1, mask, used + {ch}))
  {
    hide FirstFree;
  }

  function Prefixed(done: seq<int>, rest: Option<seq<int>>): Option<seq<int>> {
    match rest case None => None case Some(r) => Some(done + r)
  }

  lemma PrefixedStep(done: seq<int>, x: int, rest: Option<seq<int>>)
    ensures Prefixed(done, Prefixed([x], rest)) == Prefixed(done + [x], rest)
  {
    match rest
    case None =>
    case Some(r) => assert done + ([x] + r) == done + [x] + r;
  }

  lemma OwnedPrefix(chan: seq<int>, k: nat)
    requires k < |chan|
    ensures Owned(chan[..k + 1]) == Owned(chan[..k]) + if chan[k] != UNMAPPED then {chan[k]} else {}
  {
    assert chan[..k + 1] == chan[..k] + [chan[k]];
    forall x ensures x in Owned(chan[..k + 1]) <==> x in Owned(chan[..k]) || (x == chan[k] && x != UNMAPPED) {
      if x in Owned(chan[..k]) {
        var s :| 0 <= s < k && chan[s] == x && x != UNMAPPED;
        assert chan[..k + 1][s] == x;
      }
      if x == chan[k] { assert chan[..k + 1][k] == x; }
    }
  }

  /** Filling an unmapped entry adds its channel. */
  lemma OwnedUpdate(chan: seq<int>, s: nat, ch: int)
    requires s < |chan| && chan[s] == UNMAPPED && ch != UNMAPPED
    ensures Owned(chan[s := ch]) == Owned(chan) + {ch}
  {
    var out := chan[s := ch];
    forall x ensures x in Owned(out) <==> x in Owned(chan) || x == ch {
      if x in Owned(chan) {
        var k :| 0 <= k < |chan| && chan[k] == x && x != UNMAPPED;
        assert out[k] == x;
      }
      if x == ch { assert out[s] == ch; }
    }
  }
}
