/** The lists that the lambda-list parser accepts, as a grammar: sections in order, each opened by its
    marker, and what every section contributes to the specification. */
module ParamGrammar {
  import opened Wrappers
  import opened LispValue
  import opened ParamList

  // ---------------------------------------------------------------- single parameters

  /** What may follow the name: nothing, a default, or a default and the name of a supplied-p variable. */
  predicate IsTrailer(t: Value, default: Option<Value>, suppliedP: Option<string>) {
    || (t.Nil? && default.None? && suppliedP.None?)
    || (t.Cons? && t.cdr.Nil? && default == Some(t.car) && suppliedP.None?)
    || (t.Cons? && t.cdr.Cons? && t.cdr.cdr.Nil? && t.cdr.car.Symbol?
        && default == Some(t.car) && suppliedP == Some(t.cdr.car.name))
  }

  /** An optional parameter: `n`, `(n)`, `(n d)` or `(n d s)`. */
  predicate IsOptional(v: Value, p: OptParam) {
    || (v.Symbol? && p == OptParam(v.name, None, None))
    || (v.Cons? && v.car.Symbol? && p.name == v.car.name && IsTrailer(v.cdr, p.default, p.suppliedP))
  }

  /** A key parameter: such a form with the keyword of its name, or `((k n) ..)`, where a keyword k is matched
      with its colon and any other symbol by its name. */
  predicate IsKey(v: Value, k: KeyParam) {
    || (k.keyword == ":" + k.name && IsOptional(v, OptParam(k.name, k.default, k.suppliedP)))
    || (v.Cons? && v.car.Cons? && v.car.car.Symbol? && v.car.cdr.Cons? && v.car.cdr.car.Symbol? && v.car.cdr.cdr.Nil?
        && k.keyword == (if v.car.car.home.Keyword? then ":" + v.car.car.name else v.car.car.name)
        && k.name == v.car.cdr.car.name && IsTrailer(v.cdr, k.default, k.suppliedP))
  }

  lemma ElementsTwice(v: Value)
    ensures Elements(v) == Some([]) <==> v.Nil?
    ensures v.Cons? ==> Elements(v) == match Elements(v.cdr) case None => None case Some(rest) => Some([v.car] + rest)
    ensures Elements(v).Some? && v.Cons? ==> |Elements(v).value| > 0 && Elements(v).value[0] == v.car
  {}

  lemma {:induction false} TrailerElements(t: Value, default: Option<Value>, suppliedP: Option<string>)
    ensures IsTrailer(t, default, suppliedP) <==>
              && Elements(t).Some? && |Elements(t).value| <= 2
              && (|Elements(t).value| == 2 ==> Elements(t).value[1].Symbol?)
              && default == (if |Elements(t).value| >= 1 then Some(Elements(t).value[0]) else None)
              && suppliedP == (if |Elements(t).value| == 2 then Some(Elements(t).value[1].name) else None)
  {
    ElementsTwice(t);
    if t.Cons? {
      ElementsTwice(t.cdr);
      if t.cdr.Cons? { ElementsTwice(t.cdr.cdr); }
    }
  }

  /** The parser of init forms accepts exactly these, with this meaning. */
  lemma InitFormIff(v: Value, p: OptParam)
    ensures ParseInitForm(v) == Ok(p) <==> IsOptional(v, p)
  {
    hide Elements, IsTrailer;
    if v.Cons? {
      ElementsTwice(v);
      TrailerElements(v.cdr, p.default, p.suppliedP);
    }
  }

  lemma KeyIff(v: Value, k: KeyParam)
    ensures ParseKey(v) == Ok(k) <==> IsKey(v, k)
  {
    hide Elements, IsTrailer, ParseInitForm, IsOptional;
    if v.Cons? && v.car.Cons? {
      ElementsTwice(v);
      TrailerElements(v.cdr, k.default, k.suppliedP);
      PairElements(v.car);
      NoOptional(v, OptParam(k.name, k.default, k.suppliedP));
      if Elements(v).Some? {
        var rest := Elements(v.cdr).value;
        assert Elements(v).value == [v.car] + rest;
        if |rest| >= 1 { assert Elements(v).value[1] == rest[0]; }
        if |rest| == 2 { assert Elements(v).value[2] == rest[1]; }
      }
    } else {
      InitFormIff(v, OptParam(k.name, k.default, k.suppliedP));
    }
  }

  lemma PairElements(v: Value)
    requires v.Cons?
    ensures (Elements(v).Some? && |Elements(v).value| == 2) <==> (v.cdr.Cons? && v.cdr.cdr.Nil?)
    ensures v.cdr.Cons? && v.cdr.cdr.Nil? ==> Elements(v) == Some([v.car, v.cdr.car])
  {
    ElementsTwice(v);
    ElementsTwice(v.cdr);
    if v.cdr.Cons? {
      ElementsTwice(v.cdr.cdr);
      assert [v.cdr.car] + [] == [v.cdr.car] && [v.car] + [v.cdr.car] == [v.car, v.cdr.car];
    }
  }

  lemma NoOptional(v: Value, p: OptParam)
    requires v.Cons? && v.car.Cons?
    ensures !IsOptional(v, p)
  {}

  // ---------------------------------------------------------------- sections

  predicate IsMarker(v: Value) {
    v.Symbol? && v.name in {"&OPTIONAL", "&REST", "&BODY", "&KEY", "&AUX",
                            "&WHOLE", "&ENVIRONMENT", "&ALLOW-OTHER-KEYS"}
  }

  /** A parameter with what it means, or a marker that may stand anywhere: with a name after it, or alone. */
  datatype Entry =
    | Req(v: Value)
    | Opt(v: Value, o: OptParam)
    | Keyed(v: Value, k: KeyParam)
    | Note(marker: Value, name: Value)
    | Allow(marker: Value)

  /** A section in its mode; `Before` is followed by the marker of the next one. */
  datatype Sections =
    | Last(mode: Mode, entries: seq<Entry>)
    | Before(mode: Mode, entries: seq<Entry>, marker: Value, name: Option<Value>, more: Sections)

  function Rank(mode: Mode): nat {
    match mode
    case Required => 0
    case Optional => 1
    case Rest => 2
    case Key => 3
  }

  predicate Noted(v: Value) { v.Symbol? && (v.name == "&WHOLE" || v.name == "&ENVIRONMENT") }

  /** A parameter of a section is no marker and has the form that the section asks for. */
  predicate EntryOk(mode: Mode, e: Entry) {
    match e
    case Req(v) => mode.Required? && v.Symbol? && !IsMarker(v)
    case Opt(v, o) => mode.Optional? && !IsMarker(v) && IsOptional(v, o)
    case Keyed(v, k) => mode.Key? && !IsMarker(v) && IsKey(v, k)
    case Note(marker, name) => Noted(marker) && name.Symbol?
    case Allow(marker) => marker.Symbol? && marker.name == "&ALLOW-OTHER-KEYS"
  }

  ghost predicate StretchOk(mode: Mode, es: seq<Entry>) { forall k | 0 <= k < |es| :: EntryOk(mode, es[k]) }

  /** The marker that opens a section, and the name that a rest marker takes. */
  predicate MarkerOk(marker: Value, name: Option<Value>, mode: Mode) {
    && marker.Symbol?
    && match mode
       case Required => false
       case Optional => marker.name == "&OPTIONAL" && name.None?
       case Rest => (marker.name == "&REST" || marker.name == "&BODY") && name.Some? && name.value.Symbol?
       case Key => marker.name == "&KEY" && name.None?
  }

  /** Every section at most once and in the order required, optional, rest, key. */
  ghost predicate Grammatical(s: Sections) {
    && StretchOk(s.mode, s.entries)
    && (s.Before? ==>
          MarkerOk(s.marker, s.name, s.more.mode) && Rank(s.mode) < Rank(s.more.mode) && Grammatical(s.more))
  }

  // ---------------------------------------------------------------- the list of some sections

  function Values(e: Entry): seq<Value> {
    match e
    case Req(v) => [v]
    case Opt(v, _) => [v]
    case Keyed(v, _) => [v]
    case Note(marker, name) => [marker, name]
    case Allow(marker) => [marker]
  }

  function Flat(es: seq<Entry>): seq<Value> { if es == [] then [] else Values(es[0]) + Flat(es[1..]) }

  function MarkerValues(marker: Value, name: Option<Value>): seq<Value> {
    [marker] + match name case None => [] case Some(n) => [n]
  }

  function Flatten(s: Sections): seq<Value> {
    Flat(s.entries) + if s.Last? then [] else MarkerValues(s.marker, s.name) + Flatten(s.more)
  }

  // ---------------------------------------------------------------- the specification of some sections

  function Names(es: seq<Entry>): seq<string> {
    if es == [] then []
    else (if es[0].Req? && es[0].v.Symbol? then [es[0].v.name] else []) + Names(es[1..])
  }

  function Optionals(es: seq<Entry>): seq<OptParam> {
    if es == [] then [] else (if es[0].Opt? then [es[0].o] else []) + Optionals(es[1..])
  }

  function Keys(es: seq<Entry>): seq<KeyParam> {
    if es == [] then [] else (if es[0].Keyed? then [es[0].k] else []) + Keys(es[1..])
  }

  /** The name after the last occurrence of a marker that may stand anywhere. */
  function Latest(marker: string, es: seq<Entry>, before: Option<string>): Option<string> {
    if es == [] then before
    else if es[0].Note? && IsName(es[0].marker, marker) && es[0].name.Symbol?
        then Latest(marker, es[1..], Some(es[0].name.name))
    else Latest(marker, es[1..], before)
  }

  /** What the entries of one section add. */
  function Extend(mode: Mode, spec: ParamSpec, es: seq<Entry>): ParamSpec {
    ParamSpec(if mode.Required? then spec.required + Names(es) else spec.required,
              if mode.Optional? then spec.optionals + Optionals(es) else spec.optionals,
              spec.rest,
              if mode.Key? then spec.keys + Keys(es) else spec.keys,
              Latest("&WHOLE", es, spec.whole), Latest("&ENVIRONMENT", es, spec.environment))
  }

  /** Opening the next section: a rest marker names the rest parameter. */
  function Open(spec: ParamSpec, mode: Mode, name: Option<Value>): ParamSpec {
    if mode.Rest? && name.Some? && name.value.Symbol? then spec.(rest := Some(name.value.name)) else spec
  }

  function SpecOf(s: Sections, spec: ParamSpec): ParamSpec {
    var e := Extend(s.mode, spec, s.entries);
    if s.Last? then e else SpecOf(s.more, Open(e, s.more.mode, s.name))
  }

  // ---------------------------------------------------------------- one entry

  lemma LatestStep(marker: string, e: Entry, es: seq<Entry>, before: Option<string>)
    ensures Latest(marker, [e] + es, before) == Latest(marker, es, Latest(marker, [e], before))
  {
    assert ([e] + es)[1..] == es && [e][1..] == [];
  }

  lemma ListsStep(e: Entry, es: seq<Entry>)
    ensures Names([e] + es) == Names([e]) + Names(es)
    ensures Optionals([e] + es) == Optionals([e]) + Optionals(es)
    ensures Keys([e] + es) == Keys([e]) + Keys(es)
  {
    ListsOne(e);
    assert ([e] + es)[0] == e && ([e] + es)[1..] == es;
  }

  lemma ExtendStep(mode: Mode, spec: ParamSpec, e: Entry, es: seq<Entry>)
    ensures Extend(mode, spec, [e] + es) == Extend(mode, Extend(mode, spec, [e]), es)
  {
    hide Latest, Names, Optionals, Keys;
    LatestStep("&WHOLE", e, es, spec.whole);
    LatestStep("&ENVIRONMENT", e, es, spec.environment);
    ListsStep(e, es);
    assert spec.required + (Names([e]) + Names(es)) == spec.required + Names([e]) + Names(es);
    assert spec.optionals + (Optionals([e]) + Optionals(es)) == spec.optionals + Optionals([e]) + Optionals(es);
    assert spec.keys + (Keys([e]) + Keys(es)) == spec.keys + Keys([e]) + Keys(es);
  }

  lemma LatestOne(marker: string, e: Entry, before: Option<string>)
    ensures Latest(marker, [e], before) ==
            if e.Note? && IsName(e.marker, marker) && e.name.Symbol? then Some(e.name.name) else before
  {
    assert [e][1..] == [];
  }

  lemma ListsOne(e: Entry)
    ensures Names([e]) == (if e.Req? && e.v.Symbol? then [e.v.name] else [])
    ensures Optionals([e]) == (if e.Opt? then [e.o] else [])
    ensures Keys([e]) == (if e.Keyed? then [e.k] else [])
  {
    assert [e][1..] == [];
    assert Names([]) == [] && Optionals([]) == [] && Keys([]) == [];
  }

  lemma ExtendOne(mode: Mode, spec: ParamSpec, e: Entry)
    requires EntryOk(mode, e)
    ensures Extend(mode, spec, [e]) ==
            match e
            case Req(v) => spec.(required := spec.required + [v.name])
            case Opt(_, o) => spec.(optionals := spec.optionals + [o])
            case Keyed(_, k) => spec.(keys := spec.keys + [k])
            case Note(marker, name) =>
              if IsName(marker, "&WHOLE") then spec.(whole := Some(name.name))
              else spec.(environment := Some(name.name))
            case Allow(_) => spec
  {
    hide Latest, Names, Optionals, Keys, IsOptional, IsKey, IsMarker;
    LatestOne("&WHOLE", e, spec.whole);
    LatestOne("&ENVIRONMENT", e, spec.environment);
    ListsOne(e);
    assert spec.required + [] == spec.required && spec.optionals + [] == spec.optionals && spec.keys + [] == spec.keys;
  }

  /** Parsing over one entry. */
  lemma ParseEntry(mode: Mode, spec: ParamSpec, e: Entry, rest: seq<Value>)
    requires EntryOk(mode, e)
    ensures ParseFrom(Walk(mode, spec), List(Values(e) + rest))
        == ParseFrom(Walk(mode, Extend(mode, spec, [e])), List(rest))
  {
    hide Extend, ParseInitForm, ParseKey, List, IsOptional, IsKey;
    ExtendOne(mode, spec, e);
    match e
    case Req(v) => ListCons(v, rest);
    case Opt(v, o) =>
      ListCons(v, rest);
      InitFormIff(v, o);
    case Keyed(v, k) =>
      ListCons(v, rest);
      KeyIff(v, k);
    case Note(marker, name) =>
      assert [marker, name] + rest == [marker] + ([name] + rest);
      ListCons(marker, [name] + rest);
      ListCons(name, rest);
    case Allow(marker) => ListCons(marker, rest);
  }

  lemma {:induction false} ParseStretch(mode: Mode, spec: ParamSpec, es: seq<Entry>, tail: seq<Value>)
    requires StretchOk(mode, es)
    ensures ParseFrom(Walk(mode, spec), List(Flat(es) + tail))
        == ParseFrom(Walk(mode, Extend(mode, spec, es)), List(tail))
    decreases |es|
  {
    hide ParseFrom, EntryOk, Values, List, Extend;
    if es == [] {
      assert Flat(es) + tail == tail;
      ExtendNothing(mode, spec);
    } else {
      var e, more := es[0], es[1..];
      assert es == [e] + more;
      ParseEntry(mode, spec, e, Flat(more) + tail);
      assert Flat(es) + tail == Values(e) + (Flat(more) + tail);
      ParseStretch(mode, Extend(mode, spec, [e]), more, tail);
      ExtendStep(mode, spec, e, more);
    }
  }

  lemma ExtendNothing(mode: Mode, spec: ParamSpec)
    ensures Extend(mode, spec, []) == spec
  {
    assert spec.required + [] == spec.required && spec.optionals + [] == spec.optionals && spec.keys + [] == spec.keys;
  }

  lemma ParseMarker(mode: Mode, spec: ParamSpec, marker: Value, name: Option<Value>, next: Mode, rest: seq<Value>)
    requires MarkerOk(marker, name, next) && Rank(mode) < Rank(next)
    ensures ParseFrom(Walk(mode, spec), List(MarkerValues(marker, name) + rest))
        == ParseFrom(Walk(next, Open(spec, next, name)), List(rest))
  {
    hide List;
    match name
    case None =>
      assert MarkerValues(marker, name) + rest == [marker] + rest;
      ListCons(marker, rest);
    case Some(n) =>
      assert MarkerValues(marker, name) + rest == [marker] + ([n] + rest);
      ListCons(marker, [n] + rest);
      ListCons(n, rest);
  }

  lemma {:induction false} ParseSections(s: Sections, spec: ParamSpec)
    requires Grammatical(s)
    ensures ParseFrom(Walk(s.mode, spec), List(Flatten(s))) == Ok(SpecOf(s, spec))
    decreases s
  {
    hide StretchOk, Flat, Extend, Step, MarkerOk, MarkerValues;
    var e := Extend(s.mode, spec, s.entries);
    if s.Last? {
      ParseStretch(s.mode, spec, s.entries, []);
    } else {
      var tail := Flatten(s.more);
      ParseStretch(s.mode, spec, s.entries, MarkerValues(s.marker, s.name) + tail);
      ParseMarker(s.mode, e, s.marker, s.name, s.more.mode, tail);
      ParseSections(s.more, Open(e, s.more.mode, s.name));
    }
  }

  // ---------------------------------------------------------------- the sections of a list

  function Prepend(e: Entry, s: Sections): Sections { s.(entries := [e] + s.entries) }

  lemma PrependIs(e: Entry, s: Sections, spec: ParamSpec)
    requires Grammatical(s) && EntryOk(s.mode, e)
    ensures Grammatical(Prepend(e, s)) && Prepend(e, s).mode == s.mode
    ensures Flatten(Prepend(e, s)) == Values(e) + Flatten(s)
    ensures SpecOf(Prepend(e, s), spec) == SpecOf(s, Extend(s.mode, spec, [e]))
  {
    hide EntryOk, Extend, Values, MarkerOk;
    var es := [e] + s.entries;
    assert es[1..] == s.entries;
    ExtendStep(s.mode, spec, e, s.entries);
    forall k | 0 <= k < |es| ensures EntryOk(s.mode, es[k]) {
      if k > 0 { assert es[k] == s.entries[k - 1]; }
    }
    var tail := if s.Last? then [] else MarkerValues(s.marker, s.name) + Flatten(s.more);
    assert Values(e) + Flat(s.entries) + tail == Values(e) + (Flat(s.entries) + tail);
  }

  /** The entry that a step without a change of mode consumes. */
  lemma EntryStep(w: Walk, cur: Value) returns (e: Entry)
    requires cur.Cons? && Step(w, cur).Continue? && Step(w, cur).w.mode == w.mode
    ensures EntryOk(w.mode, e) && Step(w, cur).w.spec == Extend(w.mode, w.spec, [e])
    ensures forall xs: seq<Value> :: Step(w, cur).rest == List(xs) ==> cur == List(Values(e) + xs)
  {
    hide Extend, ParseInitForm, ParseKey, List, IsOptional, IsKey;
    var v := cur.car;
    if Noted(v) {
      e := Note(v, cur.cdr.car);
    } else if IsName(v, "&ALLOW-OTHER-KEYS") {
      e := Allow(v);
    } else {
      match w.mode
      case Optional =>
        InitFormIff(v, ParseInitForm(v).value);
        e := Opt(v, ParseInitForm(v).value);
      case Key =>
        KeyIff(v, ParseKey(v).value);
        e := Keyed(v, ParseKey(v).value);
      case _ => e := Req(v);
    }
    ExtendOne(w.mode, w.spec, e);
    forall xs: seq<Value> | Step(w, cur).rest == List(xs) ensures cur == List(Values(e) + xs) {
      ListCons(v, xs);
      if e.Note? {
        assert [v, e.name] + xs == [v] + ([e.name] + xs);
        ListCons(v, [e.name] + xs);
        ListCons(e.name, xs);
      }
    }
  }

  /** The name that a marker takes. */
  function NameOf(next: Mode, cur: Value): Option<Value>
    requires cur.Cons?
  {
    if next.Rest? && cur.cdr.Cons? then Some(cur.cdr.car) else None
  }

  lemma MarkerStep(w: Walk, cur: Value)
    requires cur.Cons? && Step(w, cur).Continue? && Step(w, cur).w.mode != w.mode
    ensures var r := Step(w, cur); var name := NameOf(r.w.mode, cur);
            && MarkerOk(cur.car, name, r.w.mode) && Rank(w.mode) < Rank(r.w.mode)
            && r.w.spec == Open(w.spec, r.w.mode, name)
            && forall xs: seq<Value> :: r.rest == List(xs) ==> cur == List(MarkerValues(cur.car, name) + xs)
  {
    hide List, ParseInitForm, ParseKey;
    var r := Step(w, cur);
    var name := NameOf(r.w.mode, cur);
    forall xs: seq<Value> | r.rest == List(xs) ensures cur == List(MarkerValues(cur.car, name) + xs) {
      match name
      case None =>
        assert MarkerValues(cur.car, name) + xs == [cur.car] + xs;
        ListCons(cur.car, xs);
      case Some(n) =>
        assert MarkerValues(cur.car, name) + xs == [cur.car] + ([n] + xs);
        ListCons(cur.car, [n] + xs);
        ListCons(n, xs);
    }
  }

  lemma {:induction false} FindSections(w: Walk, cur: Value) returns (s: Sections)
    requires ParseFrom(w, cur).Ok?
    ensures Grammatical(s) && s.mode == w.mode && cur == List(Flatten(s)) && ParseFrom(w, cur) == Ok(SpecOf(s, w.spec))
    decreases cur
  {
    hide Step, Grammatical, Extend, EntryOk, MarkerOk, Values, MarkerValues, List;
    if cur.Nil? {
      s := Last(w.mode, []);
      NoSections(w);
    } else {
      var r := Step(w, cur);
      var s1 := FindSections(r.w, r.rest);
      if r.w.mode == w.mode {
        var e := EntryStep(w, cur);
        s := Prepend(e, s1);
        PrependIs(e, s1, w.spec);
      } else {
        MarkerStep(w, cur);
        s := Before(w.mode, [], cur.car, NameOf(r.w.mode, cur), s1);
        OpensSections(w, cur, s);
      }
    }
  }

  lemma NoSections(w: Walk)
    ensures var s := Last(w.mode, []); Grammatical(s) && Nil == List(Flatten(s)) && SpecOf(s, w.spec) == w.spec
  {
    ExtendNothing(w.mode, w.spec);
  }

  lemma OpensSections(w: Walk, cur: Value, s: Sections)
    requires s.Before? && s.entries == [] && Grammatical(s.more)
    requires MarkerOk(s.marker, s.name, s.more.mode) && Rank(s.mode) < Rank(s.more.mode) && s.mode == w.mode
    ensures Grammatical(s) && Flatten(s) == MarkerValues(s.marker, s.name) + Flatten(s.more)
    ensures SpecOf(s, w.spec) == SpecOf(s.more, Open(w.spec, s.more.mode, s.name))
  {
    hide Extend, MarkerOk, MarkerValues;
    ExtendNothing(w.mode, w.spec);
    var tail := MarkerValues(s.marker, s.name) + Flatten(s.more);
    assert [] + tail == tail;
  }

  // ---------------------------------------------------------------- what is accepted

  /** A list is accepted, with a specification, if and only if it is the list of some sections, each at
      most once and in the order required, optional, rest, key, that have this specification. */
  lemma AcceptedIff(v: Value, spec: ParamSpec)
    ensures Parse(v) == Ok(spec) <==>
              exists s: Sections :: Grammatical(s) && s.mode == Required && v == List(Flatten(s))
                  && SpecOf(s, EMPTY) == spec
  {
    hide Step, Grammatical, Flatten, SpecOf, List;
    if Parse(v) == Ok(spec) {
      var s := FindSections(Walk(Required, EMPTY), v);
      assert Grammatical(s) && s.mode == Required && v == List(Flatten(s)) && SpecOf(s, EMPTY) == spec;
    }
    if s: Sections :| Grammatical(s) && s.mode == Required && v == List(Flatten(s)) && SpecOf(s, EMPTY) == spec {
      ParseSections(s, EMPTY);
    }
  }

  /** The entries between the marker of a mode and the next one. */
  function Stretch(s: Sections, mode: Mode): seq<Entry> {
    if s.mode == mode then s.entries else if s.Last? then [] else Stretch(s.more, mode)
  }

  function RestName(s: Sections): Option<string> {
    if s.Last? then None
    else if s.more.mode.Rest? && s.name.Some? && s.name.value.Symbol? then Some(s.name.value.name)
    else RestName(s.more)
  }

  lemma {:induction false} SpecParts(s: Sections, spec: ParamSpec)
    requires Grammatical(s)
    ensures var p := SpecOf(s, spec);
            && p.required == spec.required + Names(Stretch(s, Required))
            && p.optionals == spec.optionals + Optionals(Stretch(s, Optional))
            && p.keys == spec.keys + Keys(Stretch(s, Key))
            && p.rest == (if RestName(s).Some? then RestName(s) else spec.rest)
    ensures forall m: Mode :: Rank(m) < Rank(s.mode) ==> Stretch(s, m) == []
    ensures Rank(s.mode) >= 2 ==> RestName(s).None?
    decreases s
  {
    hide StretchOk, Names, Optionals, Keys, Latest;
    NoEntries();
    if s.Last? {
    } else {
      SpecParts(s.more, Open(Extend(s.mode, spec, s.entries), s.more.mode, s.name));
    }
  }

  lemma NoEntries()
    ensures Names([]) == [] && Optionals([]) == [] && Keys([]) == []
  {}

  /** In an accepted list every marker stands at most once and in order, and required, optional and key
      parameters are exactly those of the stretches of the list between the markers; the rest parameter
      is the name after the rest marker. */
  lemma InOrder(v: Value) returns (s: Sections)
    requires Parse(v).Ok?
    ensures Grammatical(s) && s.mode == Required && v == List(Flatten(s))
    ensures var spec := Parse(v).value;
            && spec.required == Names(Stretch(s, Required))
            && spec.optionals == Optionals(Stretch(s, Optional))
            && spec.keys == Keys(Stretch(s, Key))
            && spec.rest == RestName(s)
  {
    hide Step, Grammatical, Flatten, SpecOf, List, Names, Optionals, Keys;
    s := FindSections(Walk(Required, EMPTY), v);
    SpecParts(s, EMPTY);
    var a, b, c := Names(Stretch(s, Required)), Optionals(Stretch(s, Optional)), Keys(Stretch(s, Key));
    assert [] + a == a && [] + b == b && [] + c == c;
  }
}
