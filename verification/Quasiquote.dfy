/** Backquote: the desugaring into CONS, APPEND and QUOTE, and what a template means. */
module Quasiquote {
  import opened Wrappers
  import opened LispValue

  datatype Failure = SpliceOutsideList | NestedBackquote

  datatype Result<+T> = Ok(value: T) | Err(error: Failure)

  // ---------------------------------------------------------------- the desugaring

  /** If `v` is `(name x)`, that x. */
  function MatchForm(v: Value, name: string): (r: Option<Value>)
    ensures r.Some? ==> v.Cons? && r.value < v
  {
    if v.Cons? && v.car.Symbol? && v.car.name == name && v.cdr.Cons? && v.cdr.cdr.Nil? then Some(v.cdr.car) else None
  }

  function MkCall(head: string, args: seq<Value>): Value { List([Symbol(head, Uninterned)] + args) }

  function QuoteForm(v: Value): Value { MkCall("QUOTE", [v]) }

  predicate SelfQuoting(v: Value) {
    v.Nil? || v.Fixnum? || v.Char? || v.Str? || v.Float? || (v.Symbol? && v.name == "T")
  }

  function Expand(form: Value): Result<Value>
    decreases form, 1
  {
    if SelfQuoting(form) then Ok(form)
    else if form.Cons? then
      match MatchForm(form, "UNQUOTE")
      case Some(inner) => Ok(inner)
      case None =>
        if MatchForm(form, "UNQUOTE-SPLICING").Some? then Err(SpliceOutsideList)
        else if MatchForm(form, "BACKQUOTE").Some? then Err(NestedBackquote)
        else ExpandList(form)
    else Ok(QuoteForm(form))
  }

  /** Cell by cell: a spliced car is appended, any other is consed. */
  function ExpandList(form: Value): Result<Value>
    requires form.Cons?
    decreases form, 0
  {
    match MatchForm(form.car, "UNQUOTE-SPLICING")
    case Some(spliced) =>
      (match ExpandCdr(form.cdr)
       case Err(e) => Err(e)
       case Ok(cdr) => Ok(MkCall("APPEND", [spliced, cdr])))
    case None =>
      var car := match MatchForm(form.car, "UNQUOTE")
                 case Some(unquoted) => Ok(unquoted)
                 case None => Expand(form.car);
      match car
      case Err(e) => Err(e)
      case Ok(a) =>
        match ExpandCdr(form.cdr)
        case Err(e) => Err(e)
        case Ok(d) => Ok(MkCall("CONS", [a, d]))
  }

  /** An unquote in cdr position is a dotted unquote. */
  function ExpandCdr(cdr: Value): Result<Value>
    decreases cdr, 2
  {
    match MatchForm(cdr, "UNQUOTE")
    case Some(unquoted) => Ok(unquoted)
    case None =>
      match MatchForm(cdr, "UNQUOTE-SPLICING")
      case Some(spliced) => Ok(spliced)
      case None => Expand(cdr)
  }

  // ---------------------------------------------------------------- evaluation

  /** How forms other than QUOTE, CONS and APPEND calls are evaluated: a value, or None for an
      error, and the state afterwards. */
  datatype Machine<!S> = Machine(form: (Value, S) -> (Option<Value>, S))

  /** The elements of a proper list in front of another value. */
  function AppendTo(list: Value, tail: Value): Option<Value> {
    match list
    case Nil => Some(tail)
    case Cons(a, d) => (match AppendTo(d, tail) case None => None case Some(v) => Some(Cons(a, v)))
    case _ => None
  }

  /** If `v` is `(name x y)`, the two operands. */
  function Arg2(v: Value, name: string): (r: Option<(Value, Value)>)
    ensures r.Some? ==> v.Cons? && r.value.0 < v && r.value.1 < v
  {
    if v.Cons? && v.car.Symbol? && v.car.name == name && v.cdr.Cons? && v.cdr.cdr.Cons? && v.cdr.cdr.cdr.Nil?
    then Some((v.cdr.car, v.cdr.cdr.car)) else None
  }

  /** A call of the two-operand function `head` on evaluated operands. */
  function Call2(head: string, x: Value, y: Value): Option<Value> {
    if head == "CONS" then Some(Cons(x, y)) else AppendTo(x, y)
  }

  function Ev<S>(m: Machine<S>, v: Value, s: S): (Option<Value>, S)
    decreases v
  {
    if v.Symbol? then (if v.name == "T" || v.home.Keyword? then (Some(v), s) else m.form(v, s))
    else if !v.Cons? then (Some(v), s)
    else if MatchForm(v, "QUOTE").Some? then (Some(MatchForm(v, "QUOTE").value), s)
    else if Arg2(v, "CONS").Some? || Arg2(v, "APPEND").Some? then
      var head := if Arg2(v, "CONS").Some? then "CONS" else "APPEND";
      var (a, b) := Arg2(v, head).value;
      var (x, s1) := Ev(m, a, s);
      if x.None? then (None, s1)
      else
        var (y, s2) := Ev(m, b, s1);
        if y.None? then (None, s2) else (Call2(head, x.value, y.value), s2)
    else m.form(v, s)
  }

  // ---------------------------------------------------------------- what a template means

  /** How a template is read: as the desugaring takes it, or as section 2.4.6 of the CLHS says, where
      `,.` splices like `,@` and a vector is the vector of the list of its elements. What that section leaves
      undefined, a splice after a dot or as a whole template, is taken as the value of its form. */
  datatype Reading = Code | Standard

  function Size(v: Value): (n: nat)
    ensures n > 0
  {
    match v
    case Cons(a, d) => 1 + Size(a) + Size(d)
    case Vector(items) => 1 + SizeAll(items)
    case _ => 1
  }

  function SizeAll(vs: seq<Value>): nat {
    if vs == [] then 0 else 1 + Size(vs[0]) + SizeAll(vs[1..])
  }

  /** The form of a splice. */
  function Spliced(r: Reading, t: Value): (x: Option<Value>)
    ensures x.Some? ==> t.Cons? && x.value < t
  {
    if r.Standard? && MatchForm(t, "UNQUOTE-SPLICING").None? then MatchForm(t, "UNQUOTE-NSPLICING")
    else MatchForm(t, "UNQUOTE-SPLICING")
  }

  /** The form after any comma. */
  function Unquoted(r: Reading, t: Value): (x: Option<Value>)
    ensures x.Some? ==> t.Cons? && x.value < t
  {
    if MatchForm(t, "UNQUOTE").Some? then MatchForm(t, "UNQUOTE") else Spliced(r, t)
  }

  /** How many backquotes the parts of a list are under that is itself under `d` more than the template:
      a backquote adds one, and a comma takes one away. */
  function Inside(r: Reading, t: Value, d: nat): nat {
    if MatchForm(t, "BACKQUOTE").Some? then d + 1
    else if d > 0 && Unquoted(r, t).Some? then d - 1
    else d
  }

  /** The chain of cells ends where the cdr is an atom, or itself a comma or a backquote. */
  predicate Stops(r: Reading, cdr: Value) {
    !cdr.Cons? || Unquoted(r, cdr).Some? || MatchForm(cdr, "BACKQUOTE").Some?
  }

  function Items(r: Reading, t: Value): (items: seq<Value>)
    requires t.Cons?
    ensures SizeAll(items) + Size(TailOf(r, t)) == Size(t)
  {
    [t.car] + if Stops(r, t.cdr) then [] else Items(r, t.cdr)
  }

  function TailOf(r: Reading, t: Value): Value
    requires t.Cons?
  {
    if Stops(r, t.cdr) then t.cdr else TailOf(r, t.cdr)
  }

  /** The list that an element contributes: the value of a spliced form itself, and a list of one
      element otherwise. */
  function Segment(r: Reading, d: nat, item: Value, v: Value): Value {
    if d == 0 && Spliced(r, item).Some? then v else Cons(v, Nil)
  }

  function Segments(r: Reading, d: nat, items: seq<Value>, vs: seq<Value>): seq<Value>
    requires |items| == |vs|
  {
    seq(|items|, i requires 0 <= i < |items| => Segment(r, d, items[i], vs[i]))
  }

  function AppendAll(segments: seq<Value>, tail: Value): Option<Value> {
    if segments == [] then Some(tail)
    else match AppendAll(segments[1..], tail)
      case None => None
      case Some(rest) => AppendTo(segments[0], rest)
  }

  /** The vector of the elements of a proper list. */
  function ToVector(list: Value): Option<Value> {
    match list
    case Nil => Some(Vector([]))
    case Cons(a, d) => (match ToVector(d) case Some(Vector(items)) => Some(Vector([a] + items)) case _ => None)
    case _ => None
  }

  /** A template means: a comma of its own, the value of the form after it; a list or, in the standard, a
      vector, its elements' segments, all evaluated from left to right and then the tail, appended
      together; anything else, itself. A comma is the template's own where `d` is zero. */
  function Meaning<S>(r: Reading, m: Machine<S>, t: Value, d: nat, s: S): (Option<Value>, S)
    decreases Size(t), 1
  {
    if t.Vector? && r.Standard? then
      var (vs, s1) := EvItems(r, m, t.items, d, s);
      if vs.None? then (None, s1)
      else match AppendAll(Segments(r, d, t.items, vs.value), Nil)
        case None => (None, s1)
        case Some(list) => (ToVector(list), s1)
    else if !t.Cons? then (Some(t), s)
    else if d == 0 && Unquoted(r, t).Some? then Ev(m, Unquoted(r, t).value, s)
    else ListMeaning(r, m, t, Inside(r, t, d), s)
  }

  function ListMeaning<S>(r: Reading, m: Machine<S>, t: Value, d: nat, s: S): (Option<Value>, S)
    requires t.Cons?
    decreases Size(t), 0
  {
    var (vs, s1) := EvItems(r, m, Items(r, t), d, s);
    if vs.None? then (None, s1)
    else
      var (tail, s2) := Meaning(r, m, TailOf(r, t), d, s1);
      if tail.None? then (None, s2)
      else (AppendAll(Segments(r, d, Items(r, t), vs.value), tail.value), s2)
  }

  function EvItems<S>(r: Reading, m: Machine<S>, items: seq<Value>, d: nat, s: S): (res: (Option<seq<Value>>, S))
    ensures res.0.Some? ==> |res.0.value| == |items|
    decreases SizeAll(items), 0
  {
    if items == [] then (Some([]), s)
    else
      var (v, s1) := Meaning(r, m, items[0], d, s);
      if v.None? then (None, s1)
      else
        var (vs, s2) := EvItems(r, m, items[1..], d, s1);
        if vs.None? then (None, s2) else (Some([v.value] + vs.value), s2)
  }

  /** One cell of a list: its element, then the rest, then the append. */
  lemma {:induction false} ListMeaningStep<S>(r: Reading, m: Machine<S>, t: Value, d: nat, s: S)
    requires t.Cons?
    ensures ListMeaning(r, m, t, d, s) ==
            var (v, s1) := Meaning(r, m, t.car, d, s);
            if v.None? then (None, s1)
            else
              var (rest, s2) := Meaning(r, m, t.cdr, d, s1);
              if rest.None? then (None, s2) else (AppendTo(Segment(r, d, t.car, v.value), rest.value), s2)
  {
    hide Meaning, Segment, AppendTo;
    var (v, s1) := Meaning(r, m, t.car, d, s);
    var items := Items(r, t);
    assert items[0] == t.car && items[1..] == if Stops(r, t.cdr) then [] else Items(r, t.cdr);
    if v.Some? {
      if !Stops(r, t.cdr) { RestMeaning(r, m, t.cdr, d, s1); }
      var (vs, s2) := EvItems(r, m, items[1..], d, s1);
      if vs.Some? {
        var all := [v.value] + vs.value;
        var segs := Segments(r, d, items, all);
        assert segs[0] == Segment(r, d, t.car, v.value);
        assert segs[1..] == Segments(r, d, items[1..], vs.value);
        var tail := Meaning(r, m, TailOf(r, t), d, s2);
        if Stops(r, t.cdr) {
          assert segs[1..] == [];
          assert tail.0.Some? ==> AppendAll(segs, tail.0.value) == AppendTo(segs[0], tail.0.value);
        }
      }
    }
  }

  lemma CommaMeaning<S>(r: Reading, m: Machine<S>, t: Value, s: S)
    requires Unquoted(r, t).Some?
    ensures Meaning(r, m, t, 0, s) == Ev(m, Unquoted(r, t).value, s)
  {}

  /** The rest of a list is read as a template of its own. */
  lemma RestMeaning<S>(r: Reading, m: Machine<S>, cdr: Value, d: nat, s: S)
    requires !Stops(r, cdr)
    ensures Meaning(r, m, cdr, d, s) == ListMeaning(r, m, cdr, d, s)
  {
    hide ListMeaning;
  }

  // ---------------------------------------------------------------- the desugaring means the same

  lemma EvQuote<S>(m: Machine<S>, v: Value, s: S)
    ensures Ev(m, QuoteForm(v), s) == (Some(v), s)
  {
    ListOne("QUOTE", v);
  }

  lemma ListOne(head: string, x: Value)
    ensures MkCall(head, [x]) == Cons(Symbol(head, Uninterned), Cons(x, Nil))
  {
    ListCons(Symbol(head, Uninterned), [x]);
    ListCons(x, []);
    assert [x] + [] == [x];
  }

  lemma ListTwo(head: string, x: Value, y: Value)
    ensures MkCall(head, [x, y]) == Cons(Symbol(head, Uninterned), Cons(x, Cons(y, Nil)))
  {
    ListCons(Symbol(head, Uninterned), [x, y]);
    ListCons(x, [y]);
    ListCons(y, []);
    assert [x] + [y] == [x, y] && [y] + [] == [y];
  }

  lemma EvCall2<S>(m: Machine<S>, head: string, a: Value, b: Value, s: S)
    requires head == "CONS" || head == "APPEND"
    ensures Ev(m, MkCall(head, [a, b]), s) ==
            var (x, s1) := Ev(m, a, s);
            if x.None? then (None, s1)
            else var (y, s2) := Ev(m, b, s1);
                 if y.None? then (None, s2) else (Call2(head, x.value, y.value), s2)
  {
    ListTwo(head, a, b);
    var v := MkCall(head, [a, b]);
    assert Arg2(v, head) == Some((a, b));
    assert Arg2(v, if head == "CONS" then "APPEND" else "CONS") == None;
  }

  /** Evaluating the desugared template gives the value and the final state that the template means. */
  lemma {:induction false} ExpandMeans<S>(m: Machine<S>, t: Value, s: S)
    requires Expand(t).Ok?
    ensures Ev(m, Expand(t).value, s) == Meaning(Code, m, t, 0, s)
    decreases t, 1
  {
    hide ListMeaning;
    if SelfQuoting(t) {
    } else if t.Cons? {
      hide Ev;
      if Unquoted(Code, t).None? { ExpandListMeans(m, t, s); }
    } else {
      EvQuote(m, t, s);
    }
  }

  lemma {:induction false} ExpandCdrMeans<S>(m: Machine<S>, cdr: Value, s: S)
    requires ExpandCdr(cdr).Ok?
    ensures Ev(m, ExpandCdr(cdr).value, s) == Meaning(Code, m, cdr, 0, s)
    decreases cdr, 2
  {
    if Unquoted(Code, cdr).None? { ExpandMeans(m, cdr, s); }
  }

  lemma {:induction false} ExpandListMeans<S>(m: Machine<S>, t: Value, s: S)
    requires t.Cons? && ExpandList(t).Ok?
    ensures Ev(m, ExpandList(t).value, s) == ListMeaning(Code, m, t, 0, s)
    decreases t, 0
  {
    hide Meaning, ListMeaning, Ev;
    ListMeaningStep(Code, m, t, 0, s);
    var cdr := ExpandCdr(t.cdr).value;
    match MatchForm(t.car, "UNQUOTE-SPLICING")
    case Some(x) =>
      EvCall2(m, "APPEND", x, cdr, s);
      CommaMeaning(Code, m, t.car, s);
      ExpandCdrMeans(m, t.cdr, Ev(m, x, s).1);
    case None =>
      var a := if MatchForm(t.car, "UNQUOTE").Some? then MatchForm(t.car, "UNQUOTE").value else Expand(t.car).value;
      EvCall2(m, "CONS", a, cdr, s);
      assert Ev(m, a, s) == Meaning(Code, m, t.car, 0, s) by { ExpandMeans(m, t.car, s); }
      ExpandCdrMeans(m, t.cdr, Ev(m, a, s).1);
      forall x: Value, y: Value ensures AppendTo(Cons(x, Nil), y) == Some(Cons(x, y)) {}
  }

  // ---------------------------------------------------------------- when it fails

  /** A backquote inside the template, in an element or in a tail. */
  predicate Nested(t: Value)
    decreases t
  {
    t.Cons? && MatchForm(t, "UNQUOTE").None? && MatchForm(t, "UNQUOTE-SPLICING").None?
    && (MatchForm(t, "BACKQUOTE").Some? || Nested(t.car) || Nested(t.cdr))
  }

  /** The desugaring fails exactly on a splice that is the whole template or on a nested backquote. */
  lemma {:induction false} ExpandFailsIff(t: Value)
    ensures Expand(t).Err? <==> MatchForm(t, "UNQUOTE-SPLICING").Some? || Nested(t)
    decreases t
  {
    if t.Cons? && MatchForm(t, "UNQUOTE").None? && MatchForm(t, "UNQUOTE-SPLICING").None? {
      if MatchForm(t, "BACKQUOTE").None? {
        ExpandFailsIff(t.car);
        ExpandFailsIff(t.cdr);
        assert ExpandCdr(t.cdr).Err? <==> Nested(t.cdr);
        assert Expand(t) == ExpandList(t);
      }
    }
  }
}
