/** The MIDI channels that the voices of a tune are given before its tracks are generated. */
module ChannelAssignment {
  import opened Wrappers
  import opened Channels

  /** A voice with the channel that the tune asks for, or -1. */
  datatype Voice = Voice(id: int, channel: int)

  ghost predicate ProperVoices(vs: seq<Voice>) {
    && (forall i | 0 <= i < |vs| :: -1 <= vs[i].channel < CHANNELS)
    && (forall i, j | 0 <= i < j < |vs| :: vs[i].id != vs[j].id)
  }

  /** The channels that the tune asks for. */
  function Explicit(vs: seq<Voice>): set<int> { set i | 0 <= i < |vs| && vs[i].channel >= 0 :: vs[i].channel }

  /** The number of voices that leave the choice open. */
  function Open(vs: seq<Voice>): nat {
    if vs == [] then 0 else (if vs[0].channel >= 0 then 0 else 1) + Open(vs[1..])
  }

  /** The next choice: the channel, where to go on, and what is in use then. */
  function Pick(next: nat, used: set<int>): (r: (int, nat, set<int>))
    requires next <= CHANNELS
    ensures r.1 <= CHANNELS
  {
    FirstFreeIs(next, used);
    match FirstFree(next, used)
    case Some(ch) => (ch, ch + 1, used + {ch})
    case None => (0, CHANNELS, used)
  }

  /** The channels of the voices, searching upward from `next`; where nothing is left, channel 0. */
  function AssignAll(vs: seq<Voice>, next: nat, used: set<int>): (out: seq<int>)
    requires next <= CHANNELS
    ensures |out| == |vs|
    decreases |vs|
  {
    if vs == [] then []
    else if vs[0].channel >= 0 then [vs[0].channel] + AssignAll(vs[1..], next, used)
    else
      var (ch, next1, used1) := Pick(next, used);
      [ch] + AssignAll(vs[1..], next1, used1)
  }

  /** The channels of the voices that left the choice open. */
  function Chosen(vs: seq<Voice>, out: seq<int>): (s: seq<int>)
    requires |out| == |vs|
    ensures |s| == Open(vs)
  {
    if vs == [] then [] else (if vs[0].channel >= 0 then [] else [out[0]]) + Chosen(vs[1..], out[1..])
  }

  /** The melodic channels from `next` on that are free. */
  function Left(next: nat, used: set<int>): set<int> { set c | next <= c < CHANNELS && IsMelodic(c) && c !in used }

  ghost predicate AllDistinct(s: seq<int>) { forall i, j | 0 <= i < j < |s| :: s[i] != s[j] }

  /** Every open voice has a melodic channel that no other voice has. */
  ghost predicate OwnChannels(vs: seq<Voice>, out: seq<int>)
    requires |out| == |vs|
  {
    AllDistinct(Chosen(vs, out)) && forall c | c in Chosen(vs, out) :: c in Melodic() - Explicit(vs)
  }

  lemma LeftStep(next: nat, used: set<int>)
    requires next <= CHANNELS
    ensures match FirstFree(next, used)
            case Some(ch) => ch < CHANNELS && ch in Left(next, used)
                && Left(next, used) == {ch} + Left(ch + 1, used + {ch})
                             && |Left(next, used)| == 1 + |Left(ch + 1, used + {ch})|
            case None => Left(next, used) == {}
  {
    FirstFreeIs(next, used);
    if FirstFree(next, used).Some? {
      var ch := FirstFree(next, used).value;
      assert Left(next, used) == {ch} + Left(ch + 1, used + {ch});
      assert ch !in Left(ch + 1, used + {ch});
    }
  }

  lemma {:induction false} AssignIs(vs: seq<Voice>, next: nat, used: set<int>)
    requires next <= CHANNELS
    ensures var out := AssignAll(vs, next, used); var s := Chosen(vs, out);
            && (forall i | 0 <= i < |vs| && vs[i].channel >= 0 :: out[i] == vs[i].channel)
            && (forall c | c in s :: c in Left(next, used) || c == 0)
            && (Open(vs) <= |Left(next, used)| ==> AllDistinct(s) && forall c | c in s :: c in Left(next, used))
    decreases |vs|
  {
    hide Left, FirstFree;
    if vs != [] {
      var out, more := AssignAll(vs, next, used), vs[1..];
      if vs[0].channel >= 0 {
        AssignIs(more, next, used);
        assert out[1..] == AssignAll(more, next, used);
        ChosenCons(vs, out);
      } else {
        var (ch, next1, used1) := Pick(next, used);
        AssignIs(more, next1, used1);
        assert out[1..] == AssignAll(more, next1, used1);
        ChosenCons(vs, out);
        LeftStep(next, used);
        PickedIs(next, used);
      }
    }
  }

  lemma ChosenCons(vs: seq<Voice>, out: seq<int>)
    requires vs != [] && |out| == |vs|
    ensures Chosen(vs, out) == (if vs[0].channel >= 0 then [] else [out[0]]) + Chosen(vs[1..], out[1..])
  {}

  /** What is left after a choice. */
  lemma PickedIs(next: nat, used: set<int>)
    requires next <= CHANNELS
    ensures var (ch, next1, used1) := Pick(next, used);
            if FirstFree(next, used).Some? then
              ch in Left(next, used) && ch !in Left(next1, used1) && Left(next1, used1) <= Left(next, used)
              && |Left(next, used)| == 1 + |Left(next1, used1)|
            else ch == 0 && Left(next1, used1) == Left(next, used) == {}
  {
    LeftStep(next, used);
  }

  lemma {:induction false} Pigeonhole(s: seq<int>, all: set<int>)
    requires AllDistinct(s) && forall i | 0 <= i < |s| :: s[i] in all
    ensures |s| <= |all|
  {
    if s != [] {
      Pigeonhole(s[1..], all - {s[0]});
      assert s[0] in all;
      assert all == (all - {s[0]}) + {s[0]};
    }
  }

  /** A voice keeps the channel that it asks for. The others all get channels of their own, none of
      them the drum channel, if and only if there are enough; the rest share channel 0. */
  lemma OwnChannelsIff(vs: seq<Voice>)
    ensures var out := AssignAll(vs, 0, Explicit(vs));
            && (forall i | 0 <= i < |vs| && vs[i].channel >= 0 :: out[i] == vs[i].channel)
            && (OwnChannels(vs, out) <==> Open(vs) <= |Melodic() - Explicit(vs)|)
            && (forall c | c in Chosen(vs, out) :: c in Melodic() - Explicit(vs) || c == 0)
  {
    var used := Explicit(vs);
    AssignIs(vs, 0, used);
    assert Left(0, used) == Melodic() - used;
    var out := AssignAll(vs, 0, used);
    if OwnChannels(vs, out) {
      var s := Chosen(vs, out);
      forall i | 0 <= i < |s| ensures s[i] in Melodic() - used { assert s[i] in s; }
      Pigeonhole(s, Melodic() - used);
    }
  }

  lemma {:induction false} ChosenAt(vs: seq<Voice>, out: seq<int>, i: nat)
    requires |out| == |vs| && i < |vs| && vs[i].channel < 0
    ensures out[i] in Chosen(vs, out)
  {
    if i > 0 { ChosenAt(vs[1..], out[1..], i - 1); }
  }

  class ChannelPool {
    const channelsInUse: array<bool>
    var voiceToChannel: map<int, int>
    var nextAvailable: nat

    ghost predicate Valid() reads this { channelsInUse.Length == CHANNELS && nextAvailable <= CHANNELS }

    ghost function InUse(): set<int>
      requires channelsInUse.Length == CHANNELS
      reads this, channelsInUse
    {
      set c | 0 <= c < CHANNELS && channelsInUse[c]
    }

    constructor ()
      ensures Valid() && fresh(channelsInUse) && InUse() == {} && voiceToChannel == map[] && nextAvailable == 0
    {
      channelsInUse := new bool[CHANNELS](_ => false);
      voiceToChannel, nextAvailable := map[], 0;
    }

    method Reset()
      requires Valid()
      modifies this, channelsInUse
      ensures Valid() && InUse() == {} && voiceToChannel == map[] && nextAvailable == 0
    {
      for c := 0 to CHANNELS
        invariant forall k | 0 <= k < c :: !channelsInUse[k]
      {
        channelsInUse[c] := false;
      }
      voiceToChannel, nextAvailable := map[], 0;
    }

    /** The channel of a voice that left the choice open. */
    method AssignChannel(id: int) returns (ch: int)
      requires Valid()
      modifies this, channelsInUse
      ensures Valid()
      ensures id in old(voiceToChannel) ==>
                ch == old(voiceToChannel)[id] && InUse() == old(InUse())
                && voiceToChannel == old(voiceToChannel) && nextAvailable == old(nextAvailable)
      ensures id !in old(voiceToChannel) ==>
                && (ch, nextAvailable, InUse()) == Pick(old(nextAvailable), old(InUse()))
                && voiceToChannel == (if InUse() == old(InUse()) then old(voiceToChannel)
                    else old(voiceToChannel)[id := ch])
    {
      if id in voiceToChannel { return voiceToChannel[id]; }
      while nextAvailable < CHANNELS
        invariant Valid() && InUse() == old(InUse()) && voiceToChannel == old(voiceToChannel)
        invariant FirstFree(nextAvailable, InUse()) == FirstFree(old(nextAvailable), old(InUse()))
        decreases CHANNELS - nextAvailable
      {
        var c := nextAvailable;
        if c != DRUMS && !channelsInUse[c] {
          channelsInUse[c] := true;
          voiceToChannel := voiceToChannel[id := c];
          nextAvailable := nextAvailable + 1;
          assert InUse() == old(InUse()) + {c};
          return c;
        }
        nextAvailable := nextAvailable + 1;
      }
      ch := 0;
    }

    /** The voices that ask for a channel get it. */
    method TakeExplicit(vs: seq<Voice>)
      requires Valid() && ProperVoices(vs) && InUse() == {} && voiceToChannel == map[] && nextAvailable == 0
      modifies this, channelsInUse
      ensures Valid() && nextAvailable == 0 && InUse() == Explicit(vs) && OpenUnknown(voiceToChannel, vs, 0)
    {
      assert Explicit(vs[..0]) == {};
      for k := 0 to |vs|
        invariant Valid() && nextAvailable == 0
        invariant InUse() == Explicit(vs[..k]) && OpenUnknown(voiceToChannel, vs, 0)
      {
        ExplicitStep(vs, k);
        var c := vs[k].channel;
        if c >= 0 {
          ghost var before := InUse();
          channelsInUse[c] := true;
          voiceToChannel := voiceToChannel[vs[k].id := c];
          assert InUse() == before + {c};
        }
      }
      assert vs[..|vs|] == vs;
    }

    /** First the voices that ask for a channel, then the others. */
    method AssignChannels(vs: seq<Voice>) returns (out: seq<int>)
      requires Valid() && ProperVoices(vs)
      modifies this, channelsInUse
      ensures Valid() && out == AssignAll(vs, 0, Explicit(vs))
    {
      hide Pick, Explicit;
      Reset();
      TakeExplicit(vs);
      out := [];
      ghost var goal := AssignAll(vs, 0, Explicit(vs));
      assert vs[0..] == vs && [] + goal == goal;
      for k := 0 to |vs|
        invariant Valid() && OpenUnknown(voiceToChannel, vs, k)
        invariant goal == out + AssignAll(vs[k..], nextAvailable, InUse())
      {
        AssignStep(vs, k, nextAvailable, InUse());
        ghost var done := out;
        var ch := vs[k].channel;
        if ch < 0 { ch := AssignChannel(vs[k].id); }
        out := out + [ch];
        ghost var rest := AssignAll(vs[k + 1..], nextAvailable, InUse());
        assert done + ([ch] + rest) == out + rest;
      }
      assert out + [] == out;
    }
  }

  /** The voices from `k` on that are still open are not in the table. */
  ghost predicate OpenUnknown(table: map<int, int>, vs: seq<Voice>, k: nat) {
    forall j | k <= j < |vs| && vs[j].channel < 0 :: vs[j].id !in table
  }

  lemma ExplicitStep(vs: seq<Voice>, k: nat)
    requires k < |vs|
    ensures Explicit(vs[..k + 1]) == Explicit(vs[..k]) + if vs[k].channel >= 0 then {vs[k].channel} else {}
  {
    var a, b := vs[..k + 1], vs[..k];
    forall c ensures c in Explicit(a) <==> c in Explicit(b) || (c == vs[k].channel && c >= 0) {
      if c in Explicit(b) {
        var i :| 0 <= i < |b| && b[i].channel >= 0 && b[i].channel == c;
        assert a[i].channel == c;
      }
      if c == vs[k].channel { assert a[k].channel == c; }
    }
  }

  lemma AssignStep(vs: seq<Voice>, k: nat, next: nat, used: set<int>)
    requires k < |vs| && next <= CHANNELS
    ensures AssignAll(vs[k..], next, used) ==
            if vs[k].channel >= 0 then [vs[k].channel] + AssignAll(vs[k + 1..], next, used)
            else
              var (ch, next1, used1) := Pick(next, used);
              [ch] + AssignAll(vs[k + 1..], next1, used1)
  {
    assert vs[k..][0] == vs[k] && vs[k..][1..] == vs[k + 1..];
  }
}
