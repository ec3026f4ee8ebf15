/** Which forms a template evaluates: each of its own commas once, from left to right. */
module UnquotedForms {
  import opened Wrappers
  import opened LispValue
  import opened Quasiquote

  /** The unquoted forms of a template, from left to right. */
  function Forms(r: Reading, t: Value, d: nat): seq<Value>
    decreases Size(t)
  {
    if t.Vector? && r.Standard? then FormsAll(r, t.items, d)
    else if !t.Cons? then []
    else if d == 0 && Unquoted(r, t).Some? then [Unquoted(r, t).value]
    else Forms(r, t.car, Inside(r, t, d)) + Forms(r, t.cdr, Inside(r, t, d))
  }

  function FormsAll(r: Reading, items: seq<Value>, d: nat): seq<Value>
    decreases SizeAll(items)
  {
    if items == [] then [] else Forms(r, items[0], d) + FormsAll(r, items[1..], d)
  }

  /** Evaluating forms one after the other: whether all have values, and the last state. */
  function EvEach<S>(m: Machine<S>, forms: seq<Value>, s: S): (bool, S) {
    if forms == [] then (true, s)
    else
      var (v, s1) := Ev(m, forms[0], s);
      if v.None? then (false, s1) else EvEach(m, forms[1..], s1)
  }

  lemma {:induction false} EvEachAppend<S>(m: Machine<S>, a: seq<Value>, b: seq<Value>, s: S)
    ensures EvEach(m, a + b, s) == if EvEach(m, a, s).0 then EvEach(m, b, EvEach(m, a, s).1) else EvEach(m, a, s)
    decreases |a|
  {
    if a == [] {
      assert a + b == b;
    } else {
      assert (a + b)[0] == a[0] && (a + b)[1..] == a[1..] + b;
      EvEachAppend(m, a[1..], b, Ev(m, a[0], s).1);
    }
  }

  /** The first n forms were evaluated, each once and in order, none after one that failed, and all of
      them if there is a result. */
  ghost predicate RanPrefix<S(!new)>(m: Machine<S>, forms: seq<Value>, n: nat, s: S, result: bool, end: S) {
    && n <= |forms|
    && end == EvEach(m, forms[..n], s).1
    && (n > 0 ==> EvEach(m, forms[..n - 1], s).0)
    && (result ==> n == |forms| && EvEach(m, forms, s).0)
  }

  lemma RanNone<S(!new)>(m: Machine<S>, s: S)
    ensures RanPrefix(m, [], 0, s, true, s)
  {}

  lemma RanOne<S(!new)>(m: Machine<S>, form: Value, s: S)
    ensures RanPrefix(m, [form], 1, s, Ev(m, form, s).0.Some?, Ev(m, form, s).1)
  {
    assert [form][..1] == [form] && [form][..0] == [] && [form][1..] == [];
  }

  /** A part that failed, with more forms after it. */
  lemma RanFailed<S(!new)>(m: Machine<S>, a: seq<Value>, b: seq<Value>, n: nat, s: S, end: S)
    requires RanPrefix(m, a, n, s, false, end)
    ensures RanPrefix(m, a + b, n, s, false, end)
  {
    assert (a + b)[..n] == a[..n];
    if n > 0 { assert (a + b)[..n - 1] == a[..n - 1]; }
  }

  lemma RanAll<S(!new)>(m: Machine<S>, forms: seq<Value>, n: nat, s: S, end: S)
    requires RanPrefix(m, forms, n, s, true, end)
    ensures n == |forms|
  {}

  /** Two parts, the second run in the state that the first left. */
  lemma RanBoth<S(!new)>(m: Machine<S>, a: seq<Value>, b: seq<Value>, n: nat, s: S, mid: S, result: bool, end: S)
    requires RanPrefix(m, a, |a|, s, true, mid) && RanPrefix(m, b, n, mid, result, end)
    ensures RanPrefix(m, a + b, |a| + n, s, result, end)
  {
    assert a[..|a|] == a;
    assert (a + b)[..|a| + n] == a + b[..n];
    EvEachAppend(m, a, b[..n], s);
    EvEachAppend(m, a, b, s);
    if n > 0 {
      assert (a + b)[..|a| + n - 1] == a + b[..n - 1];
      EvEachAppend(m, a, b[..n - 1], s);
    } else if |a| > 0 {
      assert (a + b)[..|a| - 1] == a[..|a| - 1];
    }
  }

  /** In either reading a template evaluates each of its unquoted forms exactly once, from left to right; if
      it fails, it has evaluated a first part of them. Nothing else touches the state. */
  lemma {:induction false} FormsInOrder<S(!new)>(r: Reading, m: Machine<S>, t: Value, d: nat, s: S) returns (n: nat)
    ensures var (v, end) := Meaning(r, m, t, d, s); RanPrefix(m, Forms(r, t, d), n, s, v.Some?, end)
    decreases Size(t)
  {
    hide RanPrefix, ListMeaning;
    RanNone(m, s);
    if t.Vector? && r.Standard? {
      n := ItemsInOrder(r, m, t.items, d, s);
      var (vs, end) := EvItems(r, m, t.items, d, s);
      RanLess(m, FormsAll(r, t.items, d), n, s, vs.Some?, Meaning(r, m, t, d, s).0.Some?, end);
    } else if !t.Cons? {
      n := 0;
    } else if d == 0 && Unquoted(r, t).Some? {
      n := 1;
      RanOne(m, Unquoted(r, t).value, s);
    } else {
      n := CellInOrder(r, m, t, d, s);
    }
  }

  /** A result less is evaluated no further. */
  lemma RanLess<S(!new)>(m: Machine<S>, forms: seq<Value>, n: nat, s: S, was: bool, result: bool, end: S)
    requires RanPrefix(m, forms, n, s, was, end) && (result ==> was)
    ensures RanPrefix(m, forms, n, s, result, end)
  {}

  lemma {:induction false} CellInOrder<S(!new)>(r: Reading, m: Machine<S>, t: Value, d: nat, s: S) returns (n: nat)
    requires t.Cons? && !(d == 0 && Unquoted(r, t).Some?)
    ensures var (v, end) := Meaning(r, m, t, d, s); RanPrefix(m, Forms(r, t, d), n, s, v.Some?, end)
    decreases Size(t), 0
  {
    hide RanPrefix, ListMeaning, Unquoted, Segment, AppendTo;
    var e := Inside(r, t, d);
    ListMeaningStep(r, m, t, e, s);
    var a, b := Forms(r, t.car, e), Forms(r, t.cdr, e);
    var result := Meaning(r, m, t, d, s).0.Some?;
    n := FormsInOrder(r, m, t.car, e, s);
    var (v, s1) := Meaning(r, m, t.car, e, s);
    if v.None? {
      RanFailed(m, a, b, n, s, s1);
    } else {
      RanAll(m, a, n, s, s1);
      var k := FormsInOrder(r, m, t.cdr, e, s1);
      var (rest, s2) := Meaning(r, m, t.cdr, e, s1);
      RanBoth(m, a, b, k, s, s1, rest.Some?, s2);
      n := |a| + k;
      RanLess(m, a + b, n, s, rest.Some?, result, s2);
    }
  }

  lemma {:induction false} ItemsInOrder<S(!new)>(r: Reading, m: Machine<S>, items: seq<Value>, d: nat, s: S)
    returns (n: nat)
    ensures var (vs, end) := EvItems(r, m, items, d, s); RanPrefix(m, FormsAll(r, items, d), n, s, vs.Some?, end)
    decreases SizeAll(items)
  {
    hide RanPrefix, Meaning;
    n := 0;
    RanNone(m, s);
    if items != [] {
      var a, b := Forms(r, items[0], d), FormsAll(r, items[1..], d);
      n := FormsInOrder(r, m, items[0], d, s);
      var (v, s1) := Meaning(r, m, items[0], d, s);
      if v.None? {
        RanFailed(m, a, b, n, s, s1);
      } else {
        RanAll(m, a, n, s, s1);
        var k := ItemsInOrder(r, m, items[1..], d, s1);
        var (vs, s2) := EvItems(r, m, items[1..], d, s1);
        RanBoth(m, a, b, k, s, s1, vs.Some?, s2);
        n := |a| + k;
      }
    }
  }

  /** A template without a comma of its own means itself. */
  lemma {:induction false} NoForms<S>(r: Reading, m: Machine<S>, t: Value, d: nat, s: S)
    requires Forms(r, t, d) == []
    ensures Meaning(r, m, t, d, s) == (Some(t), s)
    decreases Size(t)
  {
    hide ListMeaning, AppendAll, EvItems, Segments, ToVector;
    if t.Vector? && r.Standard? {
      NoFormsAll(r, m, t.items, d, s);
      ListVector(t.items);
    } else if t.Cons? {
      var e := Inside(r, t, d);
      ListMeaningStep(r, m, t, e, s);
      NoForms(r, m, t.car, e, s);
      NoForms(r, m, t.cdr, e, s);
      NotSpliced(r, t.car, e);
    }
  }

  lemma NotSpliced(r: Reading, item: Value, d: nat)
    requires Forms(r, item, d) == []
    ensures forall v: Value, y: Value :: AppendTo(Segment(r, d, item, v), y) == Some(Cons(v, y))
  {}

  lemma {:induction false} NoFormsAll<S>(r: Reading, m: Machine<S>, items: seq<Value>, d: nat, s: S)
    requires FormsAll(r, items, d) == []
    ensures EvItems(r, m, items, d, s) == (Some(items), s)
    ensures AppendAll(Segments(r, d, items, items), Nil) == Some(List(items))
    decreases SizeAll(items)
  {
    hide Meaning, Segments, AppendAll, AppendTo, Forms, Size;
    SegmentsStep(r, d, items);
    if items != [] {
      var rest := items[1..];
      assert [items[0]] + rest == items;
      NoForms(r, m, items[0], d, s);
      NoFormsAll(r, m, rest, d, s);
      NotSpliced(r, items[0], d);
    }
  }

  lemma {:induction false} ListVector(items: seq<Value>)
    ensures ToVector(List(items)) == Some(Vector(items))
  {
    if items != [] {
      ListVector(items[1..]);
      assert [items[0]] + items[1..] == items;
    }
  }

  lemma SegmentsStep(r: Reading, d: nat, items: seq<Value>)
    ensures AppendAll(Segments(r, d, items, items), Nil) ==
            if items == [] then Some(Nil)
            else match AppendAll(Segments(r, d, items[1..], items[1..]), Nil)
              case None => None
              case Some(rest) => AppendTo(Segment(r, d, items[0], items[0]), rest)
  {
    hide Segment, AppendTo;
    if items != [] {
      var segs := Segments(r, d, items, items);
      assert segs[0] == Segment(r, d, items[0], items[0]);
      assert segs[1..] == Segments(r, d, items[1..], items[1..]);
    }
  }
}
