/** Reservation of hardware MIDI channels for the source channels of a tune. */
module Channels {
  import opened Wrappers

  const CHANNELS: nat := 16
  const DRUMS: nat := 9
  const UNMAPPED: int := 255

  predicate IsMelodic(c: int) { 0 <= c < CHANNELS && c != DRUMS }

  /** The hardware channels a melodic voice may be given. */
  function Melodic(): set<int> { set c | 0 <= c < CHANNELS && IsMelodic(c) }

  /** The lowest melodic channel at or above `c` that is not in use. */
  function FirstFree(c: nat, used: set<int>): Option<int>
    requires c <= CHANNELS
    decreases CHANNELS - c, used
  {
    if c == CHANNELS then None
    else if c == DRUMS || c in used then FirstFree(c + 1, used)
    else Some(c)
  }

  /** The map entries of the sources from `source` on. */
  function AssignFrom(source: nat, mask: set<int>, used: set<int>): Option<seq<int>>
    requires source <= CHANNELS
    decreases CHANNELS - source, mask
  {
    if source == CHANNELS then Some([])
    else if source == DRUMS || source !in mask then
      var entry := if source == DRUMS && DRUMS in mask then DRUMS else UNMAPPED;
      match AssignFrom(source + 1, mask, used)
      case None => None
      case Some(rest) => Some([entry] + rest)
    else match FirstFree(0, used)
      case None => None
      case Some(ch) =>
        match AssignFrom(source + 1, mask, used + {ch})
        case None => None
        case Some(rest) => Some([ch] + rest)
  }

  /** The channel map of a tune that uses the channels in `mask`, or None if it cannot be played. */
  function Reserve(used: set<int>, mask: set<int>): Option<seq<int>> {
    if DRUMS in mask && DRUMS in used then None
    else AssignFrom(0, mask, if DRUMS in mask then used + {DRUMS} else used)
  }

  /** The hardware channels that a map holds. */
  function Owned(chan: seq<int>): set<int> { set s | 0 <= s < |chan| && chan[s] != UNMAPPED :: chan[s] }

  /** A channel map that serves exactly the sources in `mask`, each on a channel of its own,
      and puts the drums, and nothing else, on channel 9. */
  ghost predicate Serves(chan: seq<int>, mask: set<int>) {
    && |chan| == CHANNELS
    && (forall s | 0 <= s < CHANNELS :: chan[s] != UNMAPPED <==> s in mask)
    && (forall s | 0 <= s < CHANNELS && chan[s] != UNMAPPED ::
          0 <= chan[s] < CHANNELS && (chan[s] == DRUMS <==> s == DRUMS))
    && (forall s, t | 0 <= s < t < CHANNELS && chan[s] != UNMAPPED :: chan[s] != chan[t])
  }

  function Wanted(source: nat, mask: set<int>): set<int> {
    set x | x in mask && source <= x < CHANNELS && x != DRUMS
  }

  lemma {:induction false} FirstFreeIs(c: nat, used: set<int>)
    requires c <= CHANNELS
    ensures match FirstFree(c, used)
            case None => forall x | c <= x < CHANNELS && x != DRUMS :: x in used
            case Some(ch) => c <= ch < CHANNELS && ch != DRUMS && ch !in used
                             && forall x | c <= x < ch && x != DRUMS :: x in used
    decreases CHANNELS - c
  {
    if c < CHANNELS && (c == DRUMS || c in used) { FirstFreeIs(c + 1, used); }
  }

  lemma WantedStep(source: nat, mask: set<int>)
    requires source < CHANNELS
    ensures var here := source in mask && source != DRUMS;
            |Wanted(source, mask)| == |Wanted(source + 1, mask)| + if here then 1 else 0
  {
    if source in mask && source != DRUMS {
      assert Wanted(source, mask) == Wanted(source + 1, mask) + {source};
    } else {
      assert Wanted(source, mask) == Wanted(source + 1, mask);
    }
  }

  /** Assignment succeeds exactly when there are enough free melodic channels left. */
  lemma {:induction false} AssignIff(source: nat, mask: set<int>, used: set<int>)
    requires source <= CHANNELS
    ensures AssignFrom(source, mask, used).Some? <==> |Wanted(source, mask)| <= |Melodic() - used|
    decreases CHANNELS - source
  {
    if source == CHANNELS {
      assert Wanted(source, mask) == {};
    } else {
      WantedStep(source, mask);
      if source == DRUMS || source !in mask {
        AssignIff(source + 1, mask, used);
      } else {
        FirstFreeIs(0, used);
        match FirstFree(0, used)
        case None =>
          assert Melodic() - used == {};
        case Some(ch) =>
          AssignIff(source + 1, mask, used + {ch});
          assert Melodic() - used == (Melodic() - (used + {ch})) + {ch};
      }
    }
  }

  /** What the entry of a source may be when the channels in `used` are taken. */
  ghost predicate EntryOk(entry: int, source: int, mask: set<int>, used: set<int>) {
    if source !in mask then entry == UNMAPPED
    else if source == DRUMS then entry == DRUMS
    else 0 <= entry < CHANNELS && entry != DRUMS && entry !in used
  }

  lemma {:induction false} AssignEntries(source: nat, mask: set<int>, used: set<int>)
    requires source <= CHANNELS && AssignFrom(source, mask, used).Some?
    ensures var rest := AssignFrom(source, mask, used).value;
            |rest| == CHANNELS - source && forall k | 0 <= k < |rest| :: EntryOk(rest[k], source + k, mask, used)
    decreases CHANNELS - source
  {
    if source < CHANNELS {
      var all := AssignFrom(source, mask, used).value;
      if source == DRUMS || source !in mask {
        AssignEntries(source + 1, mask, used);
        var rest := AssignFrom(source + 1, mask, used).value;
        forall k | 0 <= k < |all| ensures EntryOk(all[k], source + k, mask, used) {
          if k > 0 { assert EntryOk(rest[k - 1], source + 1 + (k - 1), mask, used); }
        }
      } else {
        FirstFreeIs(0, used);
        var used1 := used + {FirstFree(0, used).value};
        AssignEntries(source + 1, mask, used1);
        var rest := AssignFrom(source + 1, mask, used1).value;
        forall k | 0 <= k < |all| ensures EntryOk(all[k], source + k, mask, used) {
          if k > 0 { assert EntryOk(rest[k - 1], source + 1 + (k - 1), mask, used1); }
        }
      }
    }
  }

  ghost predicate Distinct(entries: seq<int>) {
    forall j, k | 0 <= j < k < |entries| && entries[j] != UNMAPPED :: entries[j] != entries[k]
  }

  lemma {:induction false} AssignDistinct(source: nat, mask: set<int>, used: set<int>)
    requires source <= CHANNELS && AssignFrom(source, mask, used).Some?
    ensures Distinct(AssignFrom(source, mask, used).value)
    decreases CHANNELS - source
  {
    if source < CHANNELS {
      var used1 := if source == DRUMS || source !in mask then used else used + {FirstFree(0, used).value};
      AssignDistinct(source + 1, mask, used1);
      AssignEntries(source + 1, mask, used1);
      FirstFreeIs(0, used);
      var all, rest := AssignFrom(source, mask, used).value, AssignFrom(source + 1, mask, used1).value;
      forall k | 0 < k < |all| && all[0] != UNMAPPED ensures all[0] != all[k] {
        assert EntryOk(rest[k - 1], source + 1 + (k - 1), mask, used1);
      }
    }
  }

  /** A successful reservation serves the tune with channels that were free. */
  lemma ReserveServes(used: set<int>, mask: set<int>)
    requires Reserve(used, mask).Some?
    ensures var chan := Reserve(used, mask).value; Serves(chan, mask) && Owned(chan) !! used
  {
    var used1 := if DRUMS in mask then used + {DRUMS} else used;
    AssignEntries(0, mask, used1);
    AssignDistinct(0, mask, used1);
    var chan := Reserve(used, mask).value;
    forall s | 0 <= s < CHANNELS ensures EntryOk(chan[s], s, mask, used1) {
      assert EntryOk(chan[s], 0 + s, mask, used1);
    }
  }

  /** A reservation fails only when the drums are busy or the free melodic channels too few. */
  lemma ReserveIff(used: set<int>, mask: set<int>)
    requires forall x | x in mask :: 0 <= x < CHANNELS
    ensures Reserve(used, mask).Some? <==>
              !(DRUMS in mask && DRUMS in used) && |mask - {DRUMS}| <= |Melodic() - used|
  {
    AssignIff(0, mask, if DRUMS in mask then used + {DRUMS} else used);
    assert Wanted(0, mask) == mask - {DRUMS};
    assert Melodic() - (used + {DRUMS}) == Melodic() - used;
  }
}
