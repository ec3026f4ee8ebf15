/** The JIT's section allocator, and the in-place clean-up of an unwind table. */
module JitMemory {
  import opened Wrappers
  import opened Sorting

  const PAGE: nat := 4096

  ghost predicate PowerOfTwo(n: nat) decreases n { n == 1 || (n > 0 && n % 2 == 0 && PowerOfTwo(n / 2)) }

  lemma Multiple(k: nat, a: nat)
    requires a > 0
    ensures k * a % a == 0
  {
    var x := k * a;
    var q, r := x / a, x % a;
    assert x == q * a + r;
    var low, high := if q < k then q + 1 else k, if k < q then k + 1 else q;
    MulMono(low, k, a);
    MulMono(high, q, a);
    assert (q + 1) * a == q * a + a;
    assert (k + 1) * a == k * a + a;
  }

  /** The least multiple of `m` at or above `x`. */
  function RoundUp(x: nat, m: nat): (r: nat)
    requires m > 0
    ensures r % m == 0 && x <= r < x + m
  {
    var k := (x + m - 1) / m;
    Multiple(k, m);
    RoundedBounds(x + m - 1, m);
    k * m
  }

  lemma RoundedBounds(y: nat, m: nat)
    requires m > 0
    ensures y / m * m <= y < y / m * m + m
  {
    var q, r := y / m, y % m;
    assert y == q * m + r;
  }

  /** Of two powers of two the smaller divides the larger. */
  lemma {:induction false} PowersDivide(a: nat, b: nat)
    requires PowerOfTwo(a) && PowerOfTwo(b) && a <= b
    ensures b % a == 0
    decreases b
  {
    if a > 1 {
      PowersDivide(a / 2, b / 2);
      var k := b / 2 / (a / 2);
      assert b / 2 == k * (a / 2);
      assert b == k * a;
      Multiple(k, a);
    }
  }

  lemma MultipleOfMultiple(x: nat, a: nat, b: nat)
    requires a > 0 && b > 0 && x % b == 0 && b % a == 0
    ensures x % a == 0
  {
    var k, j := x / b, b / a;
    assert x == k * b && b == j * a;
    assert x == (k * j) * a;
    Multiple(k * j, a);
  }

  /** A section and the end of its last page. */
  datatype Region = Region(start: nat, size: nat, align: nat, end: nat)

  /** On a page boundary, aligned, non-empty and inside what is used. */
  ghost predicate Placed(r: Region, used: nat) {
    && r.start % PAGE == 0 && r.align > 0 && r.start % r.align == 0
    && r.size > 0 && r.start + r.size <= r.end < r.start + r.size + PAGE && r.end % PAGE == 0 && r.end <= used
  }

  ghost predicate AllPlaced(regions: seq<Region>, used: nat) {
    && (forall i | 0 <= i < |regions| :: Placed(regions[i], used))
    && (forall i, j | 0 <= i < j < |regions| :: regions[i].end <= regions[j].start)
  }

  lemma PlaceAbove(regions: seq<Region>, used: nat, r: Region)
    requires AllPlaced(regions, used) && used <= r.start && Placed(r, r.end)
    ensures AllPlaced(regions + [r], r.end)
  {
    forall i | 0 <= i < |regions| ensures Placed(regions[i], r.end) { assert Placed(regions[i], used); }
  }

  function Align(align: nat): nat { if align < 8 then 8 else align }

  class Bump {
    const hasBase: bool
    const size: nat
    var used: nat
    ghost var regions: seq<Region>

    /** The regions handed out: whole pages apart, aligned, in order and inside the reservation. */
    ghost predicate Valid() reads this {
      used % PAGE == 0 && used <= size && AllPlaced(regions, used)
    }

    constructor (hasBase: bool, size: nat)
      ensures Valid() && used == 0 && regions == [] && this.size == size && this.hasBase == hasBase
    {
      this.hasBase, this.size := hasBase, size;
      used, regions := 0, [];
    }

    /** Where the next section would start and end. */
    ghost function Start(align: nat): nat reads this { RoundUp(RoundUp(used, PAGE), Align(align)) }

    ghost function End(bytes: nat, align: nat): nat reads this { RoundUp(Start(align) + bytes, PAGE) }

    /** A section, at an offset from the base. `commits` says whether the system commits the pages. */
    method Alloc(bytes: nat, align: nat, commits: bool) returns (r: Option<nat>)
      requires Valid() && (align < 8 || PowerOfTwo(align))
      modifies this
      ensures Valid()
      ensures r.Some? <==> bytes > 0 && hasBase && old(End(bytes, align)) <= size && commits
      ensures r.Some? ==> r.value == old(Start(align)) && used == old(End(bytes, align))
      ensures r.Some? ==> regions == old(regions) + [Region(r.value, bytes, Align(align), used)]
      ensures r.None? ==> regions == old(regions) && used == old(used)
    {
      hide RoundUp, Placed, AllPlaced;
      if bytes == 0 || !hasBase { return None; }
      var start := RoundUp(used, PAGE);
      var userAlign := Align(align);
      start := RoundUp(start, userAlign);
      var end := start + bytes;
      var endRounded := RoundUp(end, PAGE);
      if endRounded > size || !commits { return None; }
      ghost var region := Region(start, bytes, userAlign, endRounded);
      NewRegion(used, bytes, userAlign);
      PlaceAbove(regions, used, region);
      regions := regions + [region];
      used := endRounded;
      r := Some(start);
    }
  }

  /** The region that follows what is used. */
  lemma NewRegion(used: nat, bytes: nat, align: nat)
    requires align >= 8 && PowerOfTwo(align) && bytes > 0
    ensures var start := RoundUp(RoundUp(used, PAGE), align); var end := RoundUp(start + bytes, PAGE);
            used <= start && Placed(Region(start, bytes, align, end), end) && end % PAGE == 0
  {
    hide RoundUp;
    AlignedStart(used, align);
  }

  /** Rounding up to the alignment keeps a page boundary. */
  lemma AlignedStart(used: nat, align: nat)
    requires align >= 8 && PowerOfTwo(align)
    ensures RoundUp(RoundUp(used, PAGE), align) % PAGE == 0
  {
    var x := RoundUp(used, PAGE);
    assert PowerOfTwo(PAGE) by { PageIsPower(); }
    if align <= PAGE {
      PowersDivide(align, PAGE);
      MultipleOfMultiple(x, align, PAGE);
      AlreadyRound(x, align);
    } else {
      PowersDivide(PAGE, align);
      MultipleOfMultiple(RoundUp(x, align), PAGE, align);
    }
  }

  lemma PageIsPower()
    ensures PowerOfTwo(PAGE)
  {
    assert PowerOfTwo(1);
    assert PowerOfTwo(4);
    assert PowerOfTwo(16);
    assert PowerOfTwo(64);
    assert PowerOfTwo(256);
    assert PowerOfTwo(1024);
  }

  lemma AlreadyRound(x: nat, m: nat)
    requires m > 0 && x % m == 0
    ensures RoundUp(x, m) == x
  {
    var y := RoundUp(x, m);
    var k, j := x / m, y / m;
    assert x == k * m && y == j * m;
    var high := if k < j then k + 1 else j;
    MulMono(high, j, m);
    assert (k + 1) * m == k * m + m;
    if k > j { MulMono(j, k, m); }
  }

  // ---------------------------------------------------------------- the unwind table

  datatype Entry = Entry(begin: nat, end: nat, unwind: nat)

  const ZERO: Entry := Entry(0, 0, 0)

  predicate Live(e: Entry) { e.begin < e.end }

  function LiveOnes(s: seq<Entry>): seq<Entry> {
    if s == [] then [] else LiveOnes(s[..|s| - 1]) + if Live(s[|s| - 1]) then [s[|s| - 1]] else []
  }

  function ByBegin(): (Entry, Entry) -> bool { (a: Entry, b: Entry) => a.begin <= b.begin }

  lemma ByBeginTotal()
    ensures TotalPreorder(ByBegin())
  {}

  lemma {:induction false} LiveOnesIs(s: seq<Entry>)
    ensures |LiveOnes(s)| <= |s|
    ensures forall e :: e in LiveOnes(s) <==> e in s && Live(e)
  {
    if s != [] {
      LiveOnesIs(s[..|s| - 1]);
      assert s == s[..|s| - 1] + [s[|s| - 1]];
    }
  }

  /** Packs the live entries to the front, in order, and zeroes the rest. */
  method Compact(entries: array<Entry>) returns (live: nat)
    modifies entries
    ensures live == |LiveOnes(old(entries[..]))| <= entries.Length
    ensures entries[..live] == LiveOnes(old(entries[..]))
    ensures forall k | live <= k < entries.Length :: entries[k] == ZERO
  {
    live := 0;
    ghost var was := entries[..];
    for i := 0 to entries.Length
      invariant live <= i && entries[..live] == LiveOnes(was[..i])
      invariant forall k | i <= k < entries.Length :: entries[k] == was[k]
    {
      assert was[..i + 1][..i] == was[..i];
      ghost var packed := entries[..live];
      if Live(entries[i]) {
        if i != live { entries[live] := entries[i]; }
        live := live + 1;
        assert entries[..live] == packed + [was[i]];
      }
    }
    assert was[..entries.Length] == was;
    ghost var packed := entries[..live];
    for k := live to entries.Length
      invariant entries[..live] == packed
      invariant forall j | live <= j < k :: entries[j] == ZERO
    {
      entries[k] := ZERO;
    }
  }

  /** Sorts the first `live` entries by their begin address. */
  method SortFront(entries: array<Entry>, live: nat)
    requires live <= entries.Length
    modifies entries
    ensures entries[..live] == StableSort(ByBegin(), old(entries[..live]))
    ensures entries[live..] == old(entries[live..])
  {
    ghost var front, tail := entries[..live], entries[live..];
    var sorted := StableSort(ByBegin(), entries[..live]);
    ByBeginTotal();
    SortIs(ByBegin(), front);
    WriteFront(entries, sorted);
    assert entries[..live] == sorted;
  }

  method WriteFront(entries: array<Entry>, values: seq<Entry>)
    requires |values| <= entries.Length
    modifies entries
    ensures entries[..] == values + old(entries[..])[|values|..]
  {
    for k := 0 to |values|
      invariant forall i | 0 <= i < entries.Length :: entries[i] == if i < k then values[i] else old(entries[i])
    {
      entries[k] := values[k];
    }
  }

  /** What is registered with the system for one unwind section: the number of live entries, unless
      there are none or the first lies outside the code. */
  method PrepareTable(entries: array<Entry>, textSize: nat) returns (registered: Option<nat>)
    modifies entries
    ensures var live := LiveOnes(old(entries[..]));
            && |live| <= entries.Length
            && entries[..|live|] == StableSort(ByBegin(), live)
            && (forall k | |live| <= k < entries.Length :: entries[k] == ZERO)
            && registered == (if live == [] || StableSort(ByBegin(), live)[0].begin >= textSize then None
                else Some(|live|))
  {
    hide StableSort, LiveOnes;
    var live := Compact(entries);
    ghost var packed := entries[..live];
    ByBeginTotal();
    SortIs(ByBegin(), packed);
    if live == 0 { return None; }
    ghost var tail := entries[live..];
    SortFront(entries, live);
    assert forall k | live <= k < entries.Length :: entries[k] == tail[k - live];
    assert entries[0] == entries[..live][0];
    registered := if entries[0].begin >= textSize then None else Some(live);
  }

  /** The table that results is what the system's binary search needs: exactly the live entries, in
      ascending order, and nothing but zeros behind them. */
  lemma {:induction false} TableSorted(was: seq<Entry>)
    ensures var t := StableSort(ByBegin(), LiveOnes(was));
            && multiset(t) == multiset(LiveOnes(was))
            && (forall i, j | 0 <= i < j < |t| :: t[i].begin <= t[j].begin)
            && (forall e :: e in t <==> e in was && e.begin < e.end)
  {
    ByBeginTotal();
    SortIs(ByBegin(), LiveOnes(was));
    LiveOnesIs(was);
    var t := StableSort(ByBegin(), LiveOnes(was));
    forall i, j | 0 <= i < j < |t| ensures t[i].begin <= t[j].begin { assert ByBegin()(t[i], t[j]); }
    forall e ensures e in t <==> e in LiveOnes(was) { assert e in multiset(t) <==> e in multiset(LiveOnes(was)); }
  }
}
