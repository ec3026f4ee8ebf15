/** Exactly which templates the desugaring treats as section 2.4.6 of the CLHS says. It does not look for
    `,.` and quotes every vector. */
module BackquoteStandard {
  import opened Wrappers
  import opened LispValue
  import opened Quasiquote
  import opened UnquotedForms

  /** Outside the unquoted forms there is no `,.` and no vector with a comma of its own. */
  predicate Plain(t: Value) {
    if t.Vector? then Forms(Standard, t, 0) == []
    else !t.Cons? || Unquoted(Code, t).Some? || (Unquoted(Standard, t).None? && Plain(t.car) && Plain(t.cdr))
  }

  // ---------------------------------------------------------------- plain templates

  /** The desugared form of a plain template gives the value and the final state of the standard. */
  lemma ExpandIsStandard<S>(m: Machine<S>, t: Value, s: S)
    requires Expand(t).Ok? && Plain(t)
    ensures Ev(m, Expand(t).value, s) == Meaning(Standard, m, t, 0, s)
  {
    ExpandMeans(m, t, s);
    ExpandFailsIff(t);
    PlainSame(m, t, s);
  }

  /** It evaluates each form after a comma once, from left to right, or a first part of them if it fails. */
  lemma UnquotedInOrder<S(!new)>(m: Machine<S>, t: Value, s: S) returns (n: nat)
    requires Expand(t).Ok? && Plain(t)
    ensures var (v, end) := Ev(m, Expand(t).value, s); RanPrefix(m, Forms(Standard, t, 0), n, s, v.Some?, end)
  {
    hide Forms, RanPrefix, Meaning;
    ExpandIsStandard(m, t, s);
    n := FormsInOrder(Standard, m, t, 0, s);
  }

  /** The desugaring evaluates exactly the forms after the commas if and only if the template is plain. */
  lemma PlainIff(t: Value)
    requires Expand(t).Ok?
    ensures Plain(t) <==> Forms(Code, t, 0) == Forms(Standard, t, 0)
  {
    ExpandFailsIff(t);
    if Plain(t) { FormsSame(t); } else { FormsLighter(t); }
  }

  lemma {:induction false} PlainSame<S>(m: Machine<S>, t: Value, s: S)
    requires !Nested(t) && Plain(t)
    ensures Meaning(Standard, m, t, 0, s) == Meaning(Code, m, t, 0, s)
    decreases t
  {
    hide ListMeaning, Ev, AppendTo;
    if t.Vector? {
      NoForms(Standard, m, t, 0, s);
    } else if t.Cons? && Unquoted(Code, t).None? {
      ListMeaningStep(Standard, m, t, 0, s);
      ListMeaningStep(Code, m, t, 0, s);
      PlainSame(m, t.car, s);
      PlainSame(m, t.cdr, Meaning(Code, m, t.car, 0, s).1);
    }
  }

  lemma {:induction false} FormsSame(t: Value)
    requires !Nested(t) && Plain(t)
    ensures Forms(Code, t, 0) == Forms(Standard, t, 0)
    decreases t
  {
    if t.Cons? && Unquoted(Code, t).None? {
      FormsSame(t.car);
      FormsSame(t.cdr);
    }
  }

  lemma {:induction false} SizeAllAppend(a: seq<Value>, b: seq<Value>)
    ensures SizeAll(a + b) == SizeAll(a) + SizeAll(b)
    decreases |a|
  {
    if a == [] {
      assert a + b == b;
    } else {
      assert (a + b)[0] == a[0] && (a + b)[1..] == a[1..] + b;
      SizeAllAppend(a[1..], b);
    }
  }

  /** The unquoted forms are smaller than the template. */
  lemma {:induction false} FormsFit(t: Value, d: nat)
    ensures SizeAll(Forms(Code, t, d)) <= Size(t)
    decreases t
  {
    if t.Cons? && !(d == 0 && Unquoted(Code, t).Some?) {
      var e := Inside(Code, t, d);
      FormsFit(t.car, e);
      FormsFit(t.cdr, e);
      SizeAllAppend(Forms(Code, t.car, e), Forms(Code, t.cdr, e));
    }
  }

  /** The code takes `,.x` for a list of two elements. */
  lemma NSpliceForms(t: Value, x: Value)
    requires Unquoted(Code, t).None? && Unquoted(Standard, t) == Some(x)
    ensures Forms(Code, t, 0) == Forms(Code, x, 0) && Forms(Standard, t, 0) == [x]
    ensures Nested(t) <==> Nested(x)
  {
    assert t.cdr == Cons(x, Nil) && Unquoted(Code, t.cdr).None? && MatchForm(t, "BACKQUOTE").None?;
    assert Forms(Code, t.cdr, 0) == Forms(Code, x, 0) + [];
    assert Nested(t.cdr) <==> Nested(x);
  }

  /** What the code evaluates weighs less than what the standard does, unless the template is plain. */
  lemma {:induction false} FormsLighter(t: Value)
    requires !Nested(t)
    ensures SizeAll(Forms(Code, t, 0)) <= SizeAll(Forms(Standard, t, 0))
    ensures !Plain(t) ==> SizeAll(Forms(Code, t, 0)) < SizeAll(Forms(Standard, t, 0))
    decreases t
  {
    hide MatchForm;
    if t.Cons? && Unquoted(Code, t).None? {
      match Unquoted(Standard, t)
      case Some(x) =>
        FormsFit(x, 0);
        NSpliceForms(t, x);
        assert SizeAll([x]) == 1 + Size(x);
      case None =>
        FormsLighter(t.car);
        FormsLighter(t.cdr);
        SizeAllAppend(Forms(Code, t.car, 0), Forms(Code, t.cdr, 0));
        SizeAllAppend(Forms(Standard, t.car, 0), Forms(Standard, t.cdr, 0));
    }
  }

  // ---------------------------------------------------------------- the two that are missed

  /** `(A ,.x)`, the symbols with any home. */
  function NSpliceTemplate(home: Home, x: Value): Value {
    var splice := Cons(Symbol("UNQUOTE-NSPLICING", home), Cons(x, Nil));
    Cons(Symbol("A", home), Cons(splice, Nil))
  }

  /** It should end in the list that x evaluates to; the result is the template itself, and x is not evaluated. */
  lemma NSpliceKept<S>(m: Machine<S>, home: Home, x: Value, s: S)
    requires Expand(x).Ok? && Forms(Code, x, 0) == []
    ensures var t := NSpliceTemplate(home, x);
            && Expand(t).Ok? && Ev(m, Expand(t).value, s) == (Some(t), s)
            && Forms(Standard, t, 0) == [x]
            && var (v, s1) := Ev(m, x, s);
               var list := if v.Some? then AppendTo(v.value, Nil) else None;
               Meaning(Standard, m, t, 0, s) == (if list.None? then None else Some(Cons(t.car, list.value)), s1)
  {
    hide ListMeaning, Ev;
    var t := NSpliceTemplate(home, x);
    var splice := t.cdr.car;
    ExpandFailsIff(x);
    ExpandFailsIff(t);
    NSpliceForms(splice, x);
    OneElement(splice);
    assert Forms(Code, t, 0) == [] + Forms(Code, t.cdr, 0) && (Nested(t) <==> Nested(t.cdr));
    ExpandMeans(m, t, s);
    NoForms(Code, m, t, 0, s);
    ListMeaningStep(Standard, m, t, 0, s);
    ListMeaningStep(Standard, m, t.cdr, 0, s);
    assert Meaning(Standard, m, splice, 0, s) == Ev(m, x, s);
    assert Forms(Standard, t, 0) == [] + Forms(Standard, t.cdr, 0);
  }

  lemma OneElement(x: Value)
    ensures var t := Cons(x, Nil);
            && Forms(Code, t, 0) == Forms(Code, x, 0) && Forms(Standard, t, 0) == Forms(Standard, x, 0)
            && (Nested(t) <==> Nested(x))
  {
    assert Forms(Code, x, 0) + [] == Forms(Code, x, 0) && Forms(Standard, x, 0) + [] == Forms(Standard, x, 0);
  }

  /** `#(,x)`. */
  function VectorTemplate(home: Home, x: Value): Value {
    Vector([Cons(Symbol("UNQUOTE", home), Cons(x, Nil))])
  }

  /** It should be the vector of the value of x; the result is the template itself, and x is not evaluated. */
  lemma VectorKept<S>(m: Machine<S>, home: Home, x: Value, s: S)
    ensures var t := VectorTemplate(home, x);
            && Expand(t).Ok? && Ev(m, Expand(t).value, s) == (Some(t), s)
            && Forms(Standard, t, 0) == [x]
            && var (v, s1) := Ev(m, x, s);
               Meaning(Standard, m, t, 0, s) == (if v.None? then None else Some(Vector([v.value])), s1)
  {
    hide ListMeaning, Ev;
    var t := VectorTemplate(home, x);
    EvQuote(m, t, s);
    var item := t.items[0];
    assert Unquoted(Standard, item) == Some(x) && t.items[1..] == [];
    assert Forms(Standard, item, 0) == [x] && FormsAll(Standard, t.items, 0) == [x] + [];
    var (v, s1) := Ev(m, x, s);
    assert Meaning(Standard, m, item, 0, s) == (v, s1);
    if v.Some? {
      assert EvItems(Standard, m, t.items, 0, s) == (Some([v.value] + []), s1);
      var segs := Segments(Standard, 0, t.items, [v.value]);
      assert segs == [Cons(v.value, Nil)] && segs[1..] == [];
      assert AppendAll(segs, Nil) == AppendTo(segs[0], Nil) == Some(Cons(v.value, Nil));
      assert [v.value] + [] == [v.value];
      assert ToVector(Nil) == Some(Vector([]));
      assert ToVector(Cons(v.value, Nil)) == Some(Vector([v.value] + []));
    }
  }

  // ---------------------------------------------------------------- the value of a template that is not plain

  /** Every form other than a constant has the value NIL. */
  function NilMachine<S>(): Machine<S> {
    Machine((v: Value, s: S) => (Some(Nil), s))
  }

  /** No comma inside the form after a `,.`: it would be under no backquote. */
  predicate Closed(t: Value) {
    if !t.Cons? || Unquoted(Code, t).Some? then true
    else match Unquoted(Standard, t)
      case Some(x) => Forms(Code, x, 0) == []
      case None => Closed(t.car) && Closed(t.cdr)
  }

  lemma {:induction false} AppendSize(list: Value, tail: Value)
    ensures AppendTo(list, tail).Some? ==> Size(AppendTo(list, tail).value) == Size(list) - 1 + Size(tail)
    decreases list
  {
    if list.Cons? { AppendSize(list.cdr, tail); }
  }

  lemma {:induction false} VectorSize(list: Value)
    ensures ToVector(list).Some? ==> ToVector(list).value.Vector? && Size(ToVector(list).value) == Size(list)
    decreases list
  {
    if list.Cons? {
      VectorSize(list.cdr);
      if ToVector(list.cdr).Some? {
        var items := ToVector(list.cdr).value.items;
        assert ([list.car] + items)[1..] == items;
      }
    }
  }

  /** On this machine a value is no larger than its form. */
  lemma {:induction false} EvSmall<S>(v: Value, s: S)
    ensures var (x, s1) := Ev(NilMachine(), v, s); s1 == s && (x.Some? ==> Size(x.value) <= Size(v))
    decreases v
  {
    if v.Cons? && MatchForm(v, "QUOTE").None? && (Arg2(v, "CONS").Some? || Arg2(v, "APPEND").Some?) {
      var a, b := v.cdr.car, v.cdr.cdr.car;
      EvSmall(a, s);
      EvSmall(b, s);
      var x, y := Ev(NilMachine(), a, s).0, Ev(NilMachine(), b, s).0;
      assert Size(v.cdr.cdr) == 1 + Size(b) + Size(Nil) && Size(v.cdr) == 1 + Size(a) + Size(v.cdr.cdr);
      if x.Some? && y.Some? { AppendSize(x.value, y.value); }
    }
  }

  /** Nor is what a template means, and smaller if the template has a comma. */
  lemma {:induction false} MeaningSmall<S>(t: Value, d: nat, s: S)
    ensures var (v, s1) := Meaning(Standard, NilMachine(), t, d, s);
            s1 == s && (v.Some? ==> Size(v.value) <= Size(t))
            && (v.Some? && Forms(Standard, t, d) != [] ==> Size(v.value) < Size(t))
    decreases Size(t)
  {
    hide ListMeaning, Ev, AppendAll, ToVector;
    if t.Vector? {
      ItemsSmall(t.items, d, s);
      var vs := EvItems(Standard, NilMachine(), t.items, d, s).0;
      if vs.Some? {
        var list := AppendAll(Segments(Standard, d, t.items, vs.value), Nil);
        if list.Some? { VectorSize(list.value); }
      }
    } else if t.Cons? {
      if d == 0 && Unquoted(Standard, t).Some? {
        EvSmall(Unquoted(Standard, t).value, s);
      } else {
        var e := Inside(Standard, t, d);
        ListMeaningStep(Standard, NilMachine(), t, e, s);
        MeaningSmall(t.car, e, s);
        MeaningSmall(t.cdr, e, s);
        var v := Meaning(Standard, NilMachine(), t.car, e, s).0;
        var rest := Meaning(Standard, NilMachine(), t.cdr, e, s).0;
        if v.Some? && rest.Some? { AppendSize(Segment(Standard, e, t.car, v.value), rest.value); }
      }
    }
  }

  lemma {:induction false} ItemsSmall<S>(items: seq<Value>, d: nat, s: S)
    ensures var (vs, s1) := EvItems(Standard, NilMachine(), items, d, s);
            && s1 == s
            && (vs.Some? ==>
                  var list := AppendAll(Segments(Standard, d, items, vs.value), Nil);
                  (list.Some? ==> Size(list.value) <= 1 + SizeAll(items))
                  && (list.Some? && FormsAll(Standard, items, d) != [] ==> Size(list.value) < 1 + SizeAll(items)))
    decreases SizeAll(items)
  {
    hide Meaning, Ev, AppendTo;
    if items != [] {
      MeaningSmall(items[0], d, s);
      ItemsSmall(items[1..], d, s);
      var v := Meaning(Standard, NilMachine(), items[0], d, s).0;
      var vs := EvItems(Standard, NilMachine(), items[1..], d, s).0;
      if v.Some? && vs.Some? {
        var all := [v.value] + vs.value;
        var segs := Segments(Standard, d, items, all);
        assert segs[0] == Segment(Standard, d, items[0], v.value);
        assert segs[1..] == Segments(Standard, d, items[1..], vs.value);
        var rest := AppendAll(segs[1..], Nil);
        if rest.Some? { AppendSize(segs[0], rest.value); }
      }
    }
  }

  /** What the standard makes of a template is smaller than what the code does, unless it is plain. */
  lemma {:induction false} StandardSmaller<S>(t: Value, s: S)
    requires !Nested(t) && Closed(t)
    ensures var (v, s1) := Meaning(Standard, NilMachine(), t, 0, s);
            var (w, s2) := Meaning(Code, NilMachine(), t, 0, s);
            && s1 == s2 == s
            && (v.Some? && w.Some? ==> Size(v.value) <= Size(w.value) && (!Plain(t) ==> Size(v.value) < Size(w.value)))
    decreases t
  {
    hide ListMeaning, Ev, AppendTo;
    if t.Vector? {
      MeaningSmall(t, 0, s);
    } else if t.Cons? {
      match Unquoted(Standard, t)
      case Some(x) =>
        EvSmall(x, s);
        if Unquoted(Code, t).None? {
          NSpliceForms(t, x);
          NoForms(Code, NilMachine(), t, 0, s);
        }
      case None =>
        ListMeaningStep(Standard, NilMachine(), t, 0, s);
        ListMeaningStep(Code, NilMachine(), t, 0, s);
        StandardSmaller(t.car, s);
        StandardSmaller(t.cdr, s);
        var v, w := Meaning(Standard, NilMachine(), t.car, 0, s).0, Meaning(Code, NilMachine(), t.car, 0, s).0;
        var y, z := Meaning(Standard, NilMachine(), t.cdr, 0, s).0, Meaning(Code, NilMachine(), t.cdr, 0, s).0;
        if v.Some? && y.Some? { AppendSize(Segment(Standard, 0, t.car, v.value), y.value); }
        if w.Some? && z.Some? { AppendSize(Segment(Code, 0, t.car, w.value), z.value); }
    }
  }

  /** The desugared form does on every machine what the standard says if and only if the template is plain. Left
      out are templates with a comma inside the form after a `,.`, and those that splice an atom in any case. */
  lemma StandardIff<S(!new)>(t: Value, s: S)
    requires Expand(t).Ok? && Closed(t) && Ev(NilMachine(), Expand(t).value, s).0.Some?
    ensures Plain(t) <==> forall m: Machine<S> :: Ev(m, Expand(t).value, s) == Meaning(Standard, m, t, 0, s)
  {
    hide Meaning, Ev;
    if Plain(t) {
      forall m: Machine<S> ensures Ev(m, Expand(t).value, s) == Meaning(Standard, m, t, 0, s) {
        ExpandIsStandard(m, t, s);
      }
    } else {
      ExpandFailsIff(t);
      ExpandMeans(NilMachine(), t, s);
      StandardSmaller(t, s);
    }
  }
}
