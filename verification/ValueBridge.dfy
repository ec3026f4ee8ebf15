/** The bridge between source-level values and run-time words over a heap, used to hand forms to
    macro functions and to read back their expansions. */
module ValueBridge {
  import opened Wrappers
  import opened LispValue

  datatype Word =
    | WNil | WT | WFixnum(n: int) | WChar(c: int)
    | WSymbol(sym: nat) | WCons(cell: nat) | WString(str: nat) | WObject(obj: nat)

  /** Static-area objects. A vector is Pending from its allocation until its cells are filled. */
  datatype Object = OBignum(digits: string) | OFloat(bits: int) | ORatio(num: string, den: string)
                  | OVector(cells: seq<Word>) | Pending

  /** `names` is the symbol table: a symbol word is an index into it. */
  datatype Heap = Heap(cells: seq<(Word, Word)>, strs: seq<string>, objs: seq<Object>, names: seq<string>)

  ghost predicate Valid(h: Heap) {
    forall i, j | 0 <= i < j < |h.names| :: h.names[i] != h.names[j]
  }

  function Find(names: seq<string>, name: string): Option<nat> {
    if names == [] then None
    else if names[|names| - 1] == name then Some(|names| - 1)
    else Find(names[..|names| - 1], name)
  }

  function Intern(h: Heap, name: string): (nat, Heap) {
    match Find(h.names, name)
    case Some(i) => (i, h)
    case None => (|h.names|, h.(names := h.names + [name]))
  }

  /** Keywords are interned under their name with a colon in front. */
  function InternName(name: string, home: Home): string { if home.Keyword? then ":" + name else name }

  function Alloc(h: Heap, o: Object): (Option<Word>, Heap) { (Some(WObject(|h.objs|)), h.(objs := h.objs + [o])) }

  function ToWord(v: Value, h: Heap): (r: (Option<Word>, Heap))
    ensures |h.objs| <= |r.1.objs|
    decreases v
  {
    match v
    case Nil => (Some(WNil), h)
    case Fixnum(n) => (Some(WFixnum(n)), h)
    case Bignum(d) => Alloc(h, OBignum(d))
    case Float(b) => Alloc(h, OFloat(b))
    case Ratio(n, d) => Alloc(h, ORatio(n, d))
    case Vector(items) =>
      var k := |h.objs|;
      var (ws, h1) := ToWords(items, h.(objs := h.objs + [Pending]));
      if ws.None? then (None, h1)
      else (Some(WObject(k)), h1.(objs := h1.objs[k := OVector(ws.value)]))
    case Char(c) => (Some(WChar(c)), h)
    case Symbol(name, home) =>
      if name == "T" then (Some(WT), h)
      else var (i, h1) := Intern(h, InternName(name, home)); (Some(WSymbol(i)), h1)
    case Str(s) => (Some(WString(|h.strs|)), h.(strs := h.strs + [s]))
    case Cons(a, d) =>
      var (wa, h1) := ToWord(a, h);
      if wa.None? then (None, h1)
      else
        var (wd, h2) := ToWord(d, h1);
        if wd.None? then (None, h2)
        else (Some(WCons(|h2.cells|)), h2.(cells := h2.cells + [(wa.value, wd.value)]))
    case FfiBlock(_) => (None, h)
  }

  function ToWords(vs: seq<Value>, h: Heap): (r: (Option<seq<Word>>, Heap))
    ensures |h.objs| <= |r.1.objs|
    decreases vs
  {
    if vs == [] then (Some([]), h)
    else
      var (w, h1) := ToWord(vs[0], h);
      if w.None? then (None, h1)
      else
        var (ws, h2) := ToWords(vs[1..], h1);
        if ws.None? then (None, h2) else (Some([w.value] + ws.value), h2)
  }

  /** The value read back from a word, following at most `depth` pointers in a row. */
  function FromWord(w: Word, h: Heap, depth: nat): Option<Value>
    decreases depth, 0
  {
    match w
    case WNil => Some(Nil)
    case WT => Some(Symbol("T", Uninterned))
    case WFixnum(n) => Some(Fixnum(n))
    case WChar(c) => Some(Char(c))
    case WSymbol(i) => if i < |h.names| then Some(NamedSymbol(h.names[i])) else None
    case WString(i) => if i < |h.strs| then Some(Str(h.strs[i])) else None
    case WCons(i) =>
      if i >= |h.cells| || depth == 0 then None
      else
        var a := FromWord(h.cells[i].0, h, depth - 1);
        var d := FromWord(h.cells[i].1, h, depth - 1);
        if a.None? || d.None? then None else Some(Cons(a.value, d.value))
    case WObject(i) =>
      if i >= |h.objs| then None
      else match h.objs[i]
        case OBignum(d) => Some(Bignum(d))
        case OFloat(b) => Some(Float(b))
        case ORatio(n, d) => Some(Ratio(n, d))
        case OVector(cells) =>
          if depth == 0 then None
          else (match FromWords(cells, h, depth - 1) case None => None case Some(vs) => Some(Vector(vs)))
        case Pending => None
  }

  function FromWords(ws: seq<Word>, h: Heap, depth: nat): (r: Option<seq<Value>>)
    ensures r.Some? ==> |r.value| == |ws|
    decreases depth, 1, |ws|
  {
    if ws == [] then Some([])
    else
      var v := FromWord(ws[0], h, depth);
      var vs := FromWords(ws[1..], h, depth);
      if v.None? || vs.None? then None else Some([v.value] + vs.value)
  }

  /** A name with a leading colon is read back as a keyword. */
  function NamedSymbol(name: string): Value {
    if name != "" && name[0] == ':' then Symbol(name[1..], Keyword) else Symbol(name, Uninterned)
  }

  // ---------------------------------------------------------------- round trip

  predicate Supported(v: Value)
    decreases v
  {
    match v
    case FfiBlock(_) => false
    case Cons(a, d) => Supported(a) && Supported(d)
    case Vector(items) => forall x | x in items :: Supported(x)
    case _ => true
  }

  /** What comes back for a value. */
  function Back(v: Value): Value
    decreases v
  {
    match v
    case Symbol(name, home) => if name == "T" then Symbol("T", Uninterned) else NamedSymbol(InternName(name, home))
    case Cons(a, d) => Cons(Back(a), Back(d))
    case Vector(items) => Vector(Backs(items))
    case _ => v
  }

  function Backs(vs: seq<Value>): seq<Value>
    decreases vs
  {
    if vs == [] then [] else [Back(vs[0])] + Backs(vs[1..])
  }

  function Max(a: nat, b: nat): nat { if a < b then b else a }

  function Depth(v: Value): nat
    decreases v
  {
    match v
    case Cons(a, d) => 1 + Max(Depth(a), Depth(d))
    case Vector(items) => 1 + DepthOf(items)
    case _ => 0
  }

  function DepthOf(vs: seq<Value>): nat
    decreases vs
  {
    if vs == [] then 0 else Max(Depth(vs[0]), DepthOf(vs[1..]))
  }

  /** Only new cells, strings, objects and names; a pending vector may have been filled. */
  ghost predicate Grown(h: Heap, g: Heap) {
    && h.cells <= g.cells && h.strs <= g.strs && h.names <= g.names
    && |h.objs| <= |g.objs|
    && forall i | 0 <= i < |h.objs| :: h.objs[i] == g.objs[i] || h.objs[i].Pending?
  }

  /** Nothing that was there has changed. */
  ghost predicate Extends(h: Heap, g: Heap) {
    h.cells <= g.cells && h.strs <= g.strs && h.objs <= g.objs && h.names <= g.names
  }

  /** Allocation leaves every reading of an earlier word unchanged. */
  lemma {:induction false} ReadingStays(w: Word, h: Heap, g: Heap, depth: nat, more: nat)
    requires Grown(h, g) && depth <= more && FromWord(w, h, depth).Some?
    ensures FromWord(w, g, more) == FromWord(w, h, depth)
    decreases depth, 0
  {
    match w
    case WCons(i) =>
      ReadingStays(h.cells[i].0, h, g, depth - 1, more - 1);
      ReadingStays(h.cells[i].1, h, g, depth - 1, more - 1);
    case WObject(i) =>
      if h.objs[i].OVector? { ReadingsStay(h.objs[i].cells, h, g, depth - 1, more - 1); }
    case _ =>
  }

  lemma {:induction false} ReadingsStay(ws: seq<Word>, h: Heap, g: Heap, depth: nat, more: nat)
    requires Grown(h, g) && depth <= more && FromWords(ws, h, depth).Some?
    ensures FromWords(ws, g, more) == FromWords(ws, h, depth)
    decreases depth, 1, |ws|
  {
    if ws != [] {
      ReadingStays(ws[0], h, g, depth, more);
      ReadingsStay(ws[1..], h, g, depth, more);
    }
  }

  lemma {:induction false} FindIs(names: seq<string>, name: string)
    ensures match Find(names, name)
            case Some(i) => i < |names| && names[i] == name
            case None => name !in names
  {
    if names != [] && names[|names| - 1] != name {
      FindIs(names[..|names| - 1], name);
      assert names == names[..|names| - 1] + [names[|names| - 1]];
    }
  }

  lemma InternIs(h: Heap, name: string)
    requires Valid(h)
    ensures var (i, g) := Intern(h, name); Valid(g) && Extends(h, g) && i < |g.names| && g.names[i] == name
  {
    FindIs(h.names, name);
  }

  /** What a conversion achieves. */
  ghost predicate Converted(v: Value, h: Heap, r: (Option<Word>, Heap)) {
    && Valid(r.1) && Extends(h, r.1)
    && (Supported(v) <==> r.0.Some?)
    && (r.0.Some? ==> FromWord(r.0.value, r.1, Depth(v)) == Some(Back(v)))
  }

  ghost predicate ConvertedAll(vs: seq<Value>, h: Heap, r: (Option<seq<Word>>, Heap)) {
    && Valid(r.1) && Extends(h, r.1)
    && ((forall x | x in vs :: Supported(x)) <==> r.0.Some?)
    && (r.0.Some? ==> FromWords(r.0.value, r.1, DepthOf(vs)) == Some(Backs(vs)))
  }

  /** Every supported value can be read back from its word, and nothing else in the heap changes. */
  lemma {:induction false} RoundTrip(v: Value, h: Heap)
    requires Valid(h)
    ensures Converted(v, h, ToWord(v, h))
    decreases v, 1
  {
    match v
    case Symbol(name, home) => InternIs(h, InternName(name, home));
    case Cons(a, d) => RoundTripCons(v, h);
    case Vector(items) => RoundTripVector(v, h);
    case _ =>
  }

  lemma {:induction false} RoundTripCons(v: Value, h: Heap)
    requires Valid(h) && v.Cons?
    ensures Converted(v, h, ToWord(v, h))
    decreases v, 0
  {
    hide FromWord;
    RoundTrip(v.car, h);
    var (wa, h1) := ToWord(v.car, h);
    RoundTrip(v.cdr, h1);
    var (wd, h2) := ToWord(v.cdr, h1);
    if wa.Some? && wd.Some? {
      var g := h2.(cells := h2.cells + [(wa.value, wd.value)]);
      var deep := Max(Depth(v.car), Depth(v.cdr));
      assert Grown(h1, g) && Grown(h2, g);
      ReadingStays(wa.value, h1, g, Depth(v.car), deep);
      ReadingStays(wd.value, h2, g, Depth(v.cdr), deep);
      ConsReads(|h2.cells|, g, deep);
    }
  }

  lemma ConsReads(k: nat, g: Heap, deep: nat)
    requires k < |g.cells|
    requires FromWord(g.cells[k].0, g, deep).Some? && FromWord(g.cells[k].1, g, deep).Some?
    ensures FromWord(WCons(k), g, 1 + deep)
            == Some(Cons(FromWord(g.cells[k].0, g, deep).value, FromWord(g.cells[k].1, g, deep).value))
  {}

  lemma {:induction false} RoundTripVector(v: Value, h: Heap)
    requires Valid(h) && v.Vector?
    ensures Converted(v, h, ToWord(v, h))
    decreases v, 0
  {
    var k, h0 := |h.objs|, h.(objs := h.objs + [Pending]);
    RoundTripAll(v.items, h0);
    var (ws, h1) := ToWords(v.items, h0);
    if ws.Some? {
      var g := h1.(objs := h1.objs[k := OVector(ws.value)]);
      assert h1.objs[k] == h0.objs[k] == Pending;
      assert Grown(h1, g);
      ReadingsStay(ws.value, h1, g, DepthOf(v.items), DepthOf(v.items));
      assert g.objs[k] == OVector(ws.value);
    }
  }

  lemma {:induction false} RoundTripAll(vs: seq<Value>, h: Heap)
    requires Valid(h)
    ensures ConvertedAll(vs, h, ToWords(vs, h))
    decreases vs, 0
  {
    if vs != [] {
      RoundTrip(vs[0], h);
      var (w, h1) := ToWord(vs[0], h);
      assert vs == [vs[0]] + vs[1..];
      if w.Some? {
        RoundTripAll(vs[1..], h1);
        var (ws, h2) := ToWords(vs[1..], h1);
        if ws.Some? {
          ReadingStays(w.value, h1, h2, Depth(vs[0]), DepthOf(vs));
          ReadingsStay(ws.value, h2, h2, DepthOf(vs[1..]), DepthOf(vs));
          var all := [w.value] + ws.value;
          assert all[0] == w.value && all[1..] == ws.value;
        }
      }
    }
  }

  // ---------------------------------------------------------------- what is kept

  /** A value without the home packages of its symbols; keywords stay keywords. */
  function Homeless(v: Value): Value
    decreases v
  {
    match v
    case Symbol(name, home) => if home.Keyword? then v else Symbol(name, Uninterned)
    case Cons(a, d) => Cons(Homeless(a), Homeless(d))
    case Vector(items) => Vector(HomelessAll(items))
    case _ => v
  }

  function HomelessAll(vs: seq<Value>): seq<Value>
    decreases vs
  {
    if vs == [] then [] else [Homeless(vs[0])] + HomelessAll(vs[1..])
  }

  /** A symbol that changes on the way: the keyword named T, which becomes the truth value, and a
      symbol that is no keyword but whose name begins with a colon, which becomes one. */
  predicate Confused(name: string, home: Home) {
    if home.Keyword? then name == "T" else name != "" && name[0] == ':'
  }

  predicate Clear(v: Value)
    decreases v
  {
    match v
    case Symbol(name, home) => !Confused(name, home)
    case Cons(a, d) => Clear(a) && Clear(d)
    case Vector(items) => AllClear(items)
    case _ => true
  }

  predicate AllClear(vs: seq<Value>)
    decreases vs
  {
    vs == [] || (Clear(vs[0]) && AllClear(vs[1..]))
  }

  lemma {:induction false} BackIsHomeless(v: Value)
    ensures Back(v) == Homeless(v) <==> Clear(v)
    decreases v, 0
  {
    match v
    case Symbol(name, home) =>
      if home.Keyword? { assert (":" + name)[1..] == name; }
    case Cons(a, d) =>
      BackIsHomeless(a);
      BackIsHomeless(d);
    case Vector(items) => BacksAreHomeless(items);
    case _ =>
  }

  lemma {:induction false} BacksAreHomeless(vs: seq<Value>)
    ensures Backs(vs) == HomelessAll(vs) <==> AllClear(vs)
    decreases vs, 0
  {
    if vs != [] {
      BackIsHomeless(vs[0]);
      BacksAreHomeless(vs[1..]);
      var a, b := Backs(vs), HomelessAll(vs);
      assert a[0] == Back(vs[0]) && a[1..] == Backs(vs[1..]);
      assert b[0] == Homeless(vs[0]) && b[1..] == HomelessAll(vs[1..]);
    }
  }

  /** A value survives the bridge, up to the home packages of its symbols, if and only if it is
      supported and has no confused symbol; and whatever could be read before still reads the same. */
  lemma BridgeIff(v: Value, h: Heap, depth: nat)
    requires Valid(h) && depth >= Depth(v)
    ensures var (w, g) := ToWord(v, h);
            && ((w.Some? && FromWord(w.value, g, depth) == Some(Homeless(v))) <==> Supported(v) && Clear(v))
            && Valid(g)
            && forall x: Word, d: nat | FromWord(x, h, d).Some? :: FromWord(x, g, d) == FromWord(x, h, d)
  {
    RoundTrip(v, h);
    BackIsHomeless(v);
    var (w, g) := ToWord(v, h);
    if w.Some? { ReadingStays(w.value, g, g, Depth(v), depth); }
    forall x: Word, d: nat | FromWord(x, h, d).Some? ensures FromWord(x, g, d) == FromWord(x, h, d) {
      ReadingStays(x, h, g, d, d);
    }
  }

  // ---------------------------------------------------------------- the allocating conversion

  class Memory {
    var heap: Heap

    constructor ()
      ensures heap == Heap([], [], [], [])
    {
      heap := Heap([], [], [], []);
    }

    /** Converts a value, allocating as it goes. */
    method ValueToWord(v: Value) returns (w: Option<Word>)
      modifies this
      ensures (w, heap) == ToWord(v, old(heap))
      decreases v, 1
    {
      match v
      case Nil => w := Some(WNil);
      case Fixnum(n) => w := Some(WFixnum(n));
      case Bignum(d) => w := AllocObject(OBignum(d));
      case Float(b) => w := AllocObject(OFloat(b));
      case Ratio(n, d) => w := AllocObject(ORatio(n, d));
      case Vector(items) => w := FillVector(items);
      case Char(c) => w := Some(WChar(c));
      case Symbol(name, home) =>
        if name == "T" {
          w := Some(WT);
        } else {
          var (i, h1) := Intern(heap, InternName(name, home));
          heap := h1;
          w := Some(WSymbol(i));
        }
      case Str(s) =>
        w := Some(WString(|heap.strs|));
        heap := heap.(strs := heap.strs + [s]);
      case Cons(a, d) =>
        var wa := ValueToWord(a);
        if wa.None? { return None; }
        var wd := ValueToWord(d);
        if wd.None? { return None; }
        w := Some(WCons(|heap.cells|));
        heap := heap.(cells := heap.cells + [(wa.value, wd.value)]);
      case FfiBlock(_) => w := None;
    }

    method AllocObject(o: Object) returns (w: Option<Word>)
      modifies this
      ensures (w, heap) == Alloc(old(heap), o)
    {
      w := Some(WObject(|heap.objs|));
      heap := heap.(objs := heap.objs + [o]);
    }

    /** The vector is allocated first; its cells are filled from the words of the items. */
    method FillVector(items: seq<Value>) returns (w: Option<Word>)
      modifies this
      ensures (w, heap) == ToWord(Vector(items), old(heap))
      decreases items, 1
    {
      var k := |heap.objs|;
      heap := heap.(objs := heap.objs + [Pending]);
      ghost var start := heap;
      ghost var goal := ToWords(items, start);
      var cells: seq<Word> := [];
      assert items[0..] == items;
      assert goal.0.Some? ==> cells + goal.0.value == goal.0.value;
      for i := 0 to |items|
        invariant k < |start.objs| <= |heap.objs|
        invariant goal == Prefixed(cells, ToWords(items[i..], heap))
      {
        assert items[i..][0] == items[i] && items[i..][1..] == items[i + 1..];
        ghost var h := heap;
        var word := ValueToWord(items[i]);
        if word.None? { return None; }
        PrefixedStep(cells, word.value, ToWords(items[i + 1..], heap));
        cells := cells + [word.value];
      }
      heap := heap.(objs := heap.objs[k := OVector(cells)]);
      assert cells + [] == cells;
      w := Some(WObject(k));
    }
  }

  function Prefixed(done: seq<Word>, r: (Option<seq<Word>>, Heap)): (Option<seq<Word>>, Heap) {
    match r.0 case None => r case Some(ws) => (Some(done + ws), r.1)
  }

  lemma PrefixedStep(done: seq<Word>, w: Word, r: (Option<seq<Word>>, Heap))
    ensures Prefixed(done, Prefixed([w], r)) == Prefixed(done + [w], r)
  {
    if r.0.Some? { assert done + ([w] + r.0.value) == done + [w] + r.0.value; }
  }
}
