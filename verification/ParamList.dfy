/** The lambda-list parser: a mode-driven walk over a list, and the canonical way to write a list down. */
module ParamList {
  import opened Wrappers
  import opened LispValue

  datatype Result<+T> = Ok(value: T) | Err(message: string)

  datatype OptParam = OptParam(name: string, default: Option<Value>, suppliedP: Option<string>)

  datatype KeyParam = KeyParam(name: string, keyword: string, default: Option<Value>, suppliedP: Option<string>)

  datatype ParamSpec = ParamSpec(required: seq<string>, optionals: seq<OptParam>, rest: Option<string>,
                                 keys: seq<KeyParam>, whole: Option<string>, environment: Option<string>)

  datatype Mode = Required | Optional | Rest | Key

  const EMPTY: ParamSpec := ParamSpec([], [], None, [], None, None)

  /** The elements of a proper list. */
  function Elements(v: Value): Option<seq<Value>> {
    match v
    case Nil => Some([])
    case Cons(a, d) => (match Elements(d) case None => None case Some(rest) => Some([a] + rest))
    case _ => None
  }

  method ListToVec(v: Value) returns (r: Option<seq<Value>>)
    ensures r == Elements(v)
  {
    var out: seq<Value> := [];
    var cur := v;
    ghost var goal := Elements(v);
    assert goal.Some? ==> out + goal.value == goal.value;
    while cur.Cons?
      invariant goal == match Elements(cur) case None => None case Some(rest) => Some(out + rest)
      decreases cur
    {
      ghost var before := out;
      out := out + [cur.car];
      cur := cur.cdr;
      match Elements(cur) {
        case Some(rest) => assert before + ([out[|before|]] + rest) == out + rest;
        case None =>
      }
    }
    assert out + [] == out;
    r := if cur.Nil? then Some(out) else None;
  }

  predicate IsName(v: Value, name: string) { v.Symbol? && v.name == name }

  /** The names that change the mode or are skipped. */
  predicate LambdaKeyword(name: string) {
    name == "&OPTIONAL" || name == "&REST" || name == "&BODY" || name == "&KEY" || name == "&AUX"
    || name == "&WHOLE" || name == "&ENVIRONMENT" || name == "&ALLOW-OTHER-KEYS"
  }

  /** `name`, `(name)`, `(name default)` or `(name default supplied-p)`. */
  function ParseInitForm(v: Value): Result<OptParam> {
    match v
    case Symbol(name, _) => Ok(OptParam(name, None, None))
    case Cons(_, _) =>
      (match Elements(v)
       case None => Err("init-form is not a proper list")
       case Some(elems) =>
         if |elems| > 3 then Err("init-form must be (name [default [supplied-p]])")
         else if !elems[0].Symbol? then Err("init-form name must be a symbol")
         else if |elems| == 3 && !elems[2].Symbol? then Err("supplied-p must be a symbol")
         else Ok(OptParam(elems[0].name, if |elems| >= 2 then Some(elems[1]) else None,
                          if |elems| == 3 then Some(elems[2].name) else None)))
    case _ => Err("init-form must be a symbol or a list")
  }

  function KeywordName(v: Value): string
    requires v.Symbol?
  {
    if v.home.Keyword? then ":" + v.name else v.name
  }

  /** A key parameter: an init-form, or `((keyword-name var) [default [supplied-p]])`. */
  function ParseKey(v: Value): Result<KeyParam> {
    if v.Cons? && v.car.Cons? then
      match Elements(v.car)
      case None => Err("&key spec is not a proper list")
      case Some(inner) =>
        if |inner| != 2 then Err("&key spec (keyword-name var) needs exactly 2 elements")
        else if !inner[0].Symbol? then Err("&key keyword-name must be a symbol")
        else if !inner[1].Symbol? then Err("&key variable must be a symbol")
        else match Elements(v)
          case None => Err("&key spec is not a proper list")
          case Some(elems) =>
            if |elems| > 3 then Err("&key spec has too many elements")
            else if |elems| == 3 && !elems[2].Symbol? then Err("supplied-p must be a symbol")
            else Ok(KeyParam(inner[1].name, KeywordName(inner[0]), if |elems| >= 2 then Some(elems[1]) else None,
                             if |elems| == 3 then Some(elems[2].name) else None))
    else
      match ParseInitForm(v)
      case Err(e) => Err(e)
      case Ok(p) => Ok(KeyParam(p.name, ":" + p.name, p.default, p.suppliedP))
  }

  /** The state of the walk: the mode and what has been collected. */
  datatype Walk = Walk(mode: Mode, spec: ParamSpec)

  datatype StepResult = Continue(w: Walk, rest: Value) | Stop(message: string)

  /** One turn of the loop over a non-empty list. */
  function Step(w: Walk, cur: Value): (r: StepResult)
    requires cur.Cons?
    ensures r.Continue? ==> r.rest < cur
  {
    var head, rest := cur.car, cur.cdr;
    if head.Symbol? && LambdaKeyword(head.name) then
      if head.name == "&OPTIONAL" then
        if w.mode.Required? then Continue(w.(mode := Optional), rest) else Stop("&OPTIONAL out of order in arglist")
      else if head.name == "&REST" || head.name == "&BODY" then
        if w.mode.Rest? || w.mode.Key? then Stop("&REST/&BODY out of order in arglist")
        else if !rest.Cons? then Stop("&REST/&BODY must be followed by a name")
        else if !rest.car.Symbol? then Stop("&REST/&BODY name must be a symbol")
        else Continue(Walk(Rest, w.spec.(rest := Some(rest.car.name))), rest.cdr)
      else if head.name == "&KEY" then
        if w.mode.Key? then Stop("duplicate &KEY in arglist") else Continue(w.(mode := Key), rest)
      else if head.name == "&AUX" then Stop("&AUX is not yet supported")
      else if head.name == "&WHOLE" || head.name == "&ENVIRONMENT" then
        if !rest.Cons? then Stop("must be followed by a name")
        else if !rest.car.Symbol? then Stop("name must be a symbol")
        else if head.name == "&WHOLE" then Continue(w.(spec := w.spec.(whole := Some(rest.car.name))), rest.cdr)
        else Continue(w.(spec := w.spec.(environment := Some(rest.car.name))), rest.cdr)
      else Continue(w, rest)
    else
      match w.mode
      case Required =>
        if head.Symbol? then Continue(w.(spec := w.spec.(required := w.spec.required + [head.name])), rest)
        else Stop("required parameter must be a symbol")
      case Optional =>
        (match ParseInitForm(head)
         case Err(e) => Stop(e)
         case Ok(p) => Continue(w.(spec := w.spec.(optionals := w.spec.optionals + [p])), rest))
      case Rest => Stop("extra parameter after &REST")
      case Key =>
        (match ParseKey(head)
         case Err(e) => Stop(e)
         case Ok(k) => Continue(w.(spec := w.spec.(keys := w.spec.keys + [k])), rest))
  }

  function ParseFrom(w: Walk, cur: Value): Result<ParamSpec>
    decreases cur
  {
    if cur.Nil? then Ok(w.spec)
    else if !cur.Cons? then Err("param list must be a proper list")
    else match Step(w, cur)
      case Stop(e) => Err(e)
      case Continue(w1, rest) => ParseFrom(w1, rest)
  }

  function Parse(v: Value): Result<ParamSpec> { ParseFrom(Walk(Required, EMPTY), v) }

  /** The parser's loop, with its mode and its accumulators. */
  method ParseParamList(v: Value) returns (r: Result<ParamSpec>)
    ensures r == Parse(v)
  {
    var mode := Required;
    var required: seq<string> := [];
    var optionals: seq<OptParam> := [];
    var keys: seq<KeyParam> := [];
    var rest: Option<string>, whole: Option<string>, environment: Option<string> := None, None, None;
    var cur := v;
    while !cur.Nil?
      invariant Parse(v) == ParseFrom(Walk(mode, ParamSpec(required, optionals, rest, keys, whole, environment)), cur)
      decreases cur
    {
      if !cur.Cons? { return Err("param list must be a proper list"); }
      ghost var w := Walk(mode, ParamSpec(required, optionals, rest, keys, whole, environment));
      ghost var step := Step(w, cur);
      var head := cur.car;
      cur := cur.cdr;
      if head.Symbol? && LambdaKeyword(head.name) {
        if head.name == "&OPTIONAL" {
          if mode != Required { return Err("&OPTIONAL out of order in arglist"); }
          mode := Optional;
        } else if head.name == "&REST" || head.name == "&BODY" {
          if mode == Rest || mode == Key { return Err("&REST/&BODY out of order in arglist"); }
          if !cur.Cons? { return Err("&REST/&BODY must be followed by a name"); }
          if !cur.car.Symbol? { return Err("&REST/&BODY name must be a symbol"); }
          rest := Some(cur.car.name);
          cur := cur.cdr;
          mode := Rest;
        } else if head.name == "&KEY" {
          if mode == Key { return Err("duplicate &KEY in arglist"); }
          mode := Key;
        } else if head.name == "&AUX" {
          return Err("&AUX is not yet supported");
        } else if head.name == "&WHOLE" || head.name == "&ENVIRONMENT" {
          if !cur.Cons? { return Err("must be followed by a name"); }
          if !cur.car.Symbol? { return Err("name must be a symbol"); }
          if head.name == "&WHOLE" { whole := Some(cur.car.name); } else { environment := Some(cur.car.name); }
          cur := cur.cdr;
        }
      } else {
        match mode {
          case Required =>
            if !head.Symbol? { return Err("required parameter must be a symbol"); }
            required := required + [head.name];
          case Optional =>
            var p := ParseInitForm(head);
            if p.Err? { return Err(p.message); }
            optionals := optionals + [p.value];
          case Rest =>
            return Err("extra parameter after &REST");
          case Key =>
            var k := ParseKey(head);
            if k.Err? { return Err(k.message); }
            keys := keys + [k.value];
        }
      }
      assert step == Continue(Walk(mode, ParamSpec(required, optionals, rest, keys, whole, environment)), cur);
    }
    r := Ok(ParamSpec(required, optionals, rest, keys, whole, environment));
  }

  // ---------------------------------------------------------------- writing a list down

  function Sym(name: string): Value { Symbol(name, Uninterned) }

  function Trailer(default: Option<Value>, suppliedP: Option<string>): seq<Value> {
    match default
    case None => []
    case Some(d) => [d] + match suppliedP case None => [] case Some(s) => [Sym(s)]
  }

  function PrintOpt(p: OptParam): Value { List([Sym(p.name)] + Trailer(p.default, p.suppliedP)) }

  function KeywordSymbol(keyword: string): Value {
    if keyword != "" && keyword[0] == ':' then Symbol(keyword[1..], Keyword) else Sym(keyword)
  }

  function PrintKey(k: KeyParam): Value {
    if k.keyword == ":" + k.name then PrintOpt(OptParam(k.name, k.default, k.suppliedP))
    else List([List([KeywordSymbol(k.keyword), Sym(k.name)])] + Trailer(k.default, k.suppliedP))
  }

  function Syms(names: seq<string>): seq<Value> { if names == [] then [] else [Sym(names[0])] + Syms(names[1..]) }

  function PrintOpts(ps: seq<OptParam>): seq<Value> { if ps == [] then [] else [PrintOpt(ps[0])] + PrintOpts(ps[1..]) }

  function PrintKeys(ks: seq<KeyParam>): seq<Value> { if ks == [] then [] else [PrintKey(ks[0])] + PrintKeys(ks[1..]) }

  function Marked(marker: string, name: Option<string>): seq<Value> {
    match name case None => [] case Some(n) => [Sym(marker), Sym(n)]
  }

  function KeySection(spec: ParamSpec): seq<Value> {
    Marked("&ENVIRONMENT", spec.environment)
    + if spec.keys == [] then [] else [Sym("&KEY")] + PrintKeys(spec.keys)
  }

  function RestSection(spec: ParamSpec): seq<Value> { Marked("&REST", spec.rest) + KeySection(spec) }

  function OptionalSection(spec: ParamSpec): seq<Value> {
    (if spec.optionals == [] then [] else [Sym("&OPTIONAL")] + PrintOpts(spec.optionals)) + RestSection(spec)
  }

  /** The canonical list: whole, required, optional, rest, environment, key. */
  function Print(spec: ParamSpec): Value {
    List(Marked("&WHOLE", spec.whole) + (Syms(spec.required) + OptionalSection(spec)))
  }

  /** The specifications that a list can have: no required parameter is named like a marker, and a
      supplied-p variable comes with a default. */
  predicate Printable(spec: ParamSpec) {
    && (forall n | n in spec.required :: !LambdaKeyword(n))
    && (forall p | p in spec.optionals :: p.suppliedP.Some? ==> p.default.Some?)
    && (forall k | k in spec.keys :: k.suppliedP.Some? ==> k.default.Some?)
  }

  // ---------------------------------------------------------------- parsing what was written

  lemma {:induction false} ElementsOfList(items: seq<Value>)
    ensures Elements(List(items)) == Some(items)
  {
    if items != [] {
      ElementsOfList(items[1..]);
      assert items == [items[0]] + items[1..];
    }
  }

  lemma ParseOptPrinted(p: OptParam)
    requires p.suppliedP.Some? ==> p.default.Some?
    ensures PrintOpt(p).Cons? && ParseInitForm(PrintOpt(p)) == Ok(p)
  {
    var items := [Sym(p.name)] + Trailer(p.default, p.suppliedP);
    ElementsOfList(items);
    ListCons(Sym(p.name), Trailer(p.default, p.suppliedP));
  }

  lemma ParseKeyPrinted(k: KeyParam)
    requires k.suppliedP.Some? ==> k.default.Some?
    ensures ParseKey(PrintKey(k)) == Ok(k)
  {
    if k.keyword == ":" + k.name {
      var p := OptParam(k.name, k.default, k.suppliedP);
      ParseOptPrinted(p);
      ListCons(Sym(p.name), Trailer(p.default, p.suppliedP));
    } else {
      var inner := [KeywordSymbol(k.keyword), Sym(k.name)];
      var trailer := Trailer(k.default, k.suppliedP);
      ElementsOfList(inner);
      ListCons(inner[0], [inner[1]]);
      assert [inner[0]] + [inner[1]] == inner;
      var items := [List(inner)] + trailer;
      ElementsOfList(items);
      ListCons(List(inner), trailer);
      assert KeywordName(KeywordSymbol(k.keyword)) == k.keyword;
    }
  }

  lemma SymsStep(names: seq<string>, tail: seq<Value>)
    ensures Syms(names) + tail == if names == [] then tail else [Sym(names[0])] + (Syms(names[1..]) + tail)
  {}

  lemma PrintOptsStep(ps: seq<OptParam>, tail: seq<Value>)
    ensures PrintOpts(ps) + tail == if ps == [] then tail else [PrintOpt(ps[0])] + (PrintOpts(ps[1..]) + tail)
  {
    hide PrintOpt;
  }

  lemma ParseOneRequired(name: string, spec: ParamSpec, rest: Value)
    requires !LambdaKeyword(name)
    ensures ParseFrom(Walk(Required, spec), Cons(Sym(name), rest))
            == ParseFrom(Walk(Required, spec.(required := spec.required + [name])), rest)
  {}

  lemma {:induction false} ParseRequired(names: seq<string>, spec: ParamSpec, tail: seq<Value>)
    requires forall n | n in names :: !LambdaKeyword(n)
    ensures ParseFrom(Walk(Required, spec), List(Syms(names) + tail))
            == ParseFrom(Walk(Required, spec.(required := spec.required + names)), List(tail))
    decreases |names|
  {
    hide ParseFrom, LambdaKeyword, List, Syms;
    SymsStep(names, tail);
    if names == [] {
      assert spec.required + names == spec.required;
    } else {
      var name, more := names[0], names[1..];
      var rest := Syms(more) + tail;
      var spec1 := spec.(required := spec.required + [name]);
      ListCons(Sym(name), rest);
      ParseOneRequired(name, spec, List(rest));
      ParseRequired(more, spec1, tail);
      assert spec1.required + more == spec.required + names;
    }
  }

  lemma ParseOneOptional(p: OptParam, spec: ParamSpec, rest: Value)
    requires p.suppliedP.Some? ==> p.default.Some?
    ensures ParseFrom(Walk(Optional, spec), Cons(PrintOpt(p), rest))
            == ParseFrom(Walk(Optional, spec.(optionals := spec.optionals + [p])), rest)
  {
    ParseOptPrinted(p);
  }

  lemma {:induction false} ParseOptionals(ps: seq<OptParam>, spec: ParamSpec, tail: seq<Value>)
    requires forall p | p in ps :: p.suppliedP.Some? ==> p.default.Some?
    ensures ParseFrom(Walk(Optional, spec), List(PrintOpts(ps) + tail))
            == ParseFrom(Walk(Optional, spec.(optionals := spec.optionals + ps)), List(tail))
    decreases |ps|
  {
    hide ParseFrom, PrintOpt, List, PrintOpts;
    PrintOptsStep(ps, tail);
    if ps == [] {
      assert spec.optionals + ps == spec.optionals;
    } else {
      var p, more := ps[0], ps[1..];
      var rest := PrintOpts(more) + tail;
      var spec1 := spec.(optionals := spec.optionals + [p]);
      ListCons(PrintOpt(p), rest);
      ParseOneOptional(p, spec, List(rest));
      ParseOptionals(more, spec1, tail);
      assert spec1.optionals + more == spec.optionals + ps;
    }
  }

  lemma ParseOneKey(k: KeyParam, spec: ParamSpec, rest: Value)
    requires k.suppliedP.Some? ==> k.default.Some?
    ensures ParseFrom(Walk(Key, spec), Cons(PrintKey(k), rest))
            == ParseFrom(Walk(Key, spec.(keys := spec.keys + [k])), rest)
  {
    hide ParseKey;
    ParseKeyPrinted(k);
    assert PrintKey(k).Cons?;
  }

  lemma {:induction false} ParseKeys(ks: seq<KeyParam>, spec: ParamSpec)
    requires forall k | k in ks :: k.suppliedP.Some? ==> k.default.Some?
    ensures ParseFrom(Walk(Key, spec), List(PrintKeys(ks))) == Ok(spec.(keys := spec.keys + ks))
  {
    hide Step, PrintKey;
    if ks == [] {
      assert spec.keys + ks == spec.keys;
    } else {
      var k, more := ks[0], ks[1..];
      var spec1 := spec.(keys := spec.keys + [k]);
      ListCons(PrintKey(k), PrintKeys(more));
      ParseOneKey(k, spec, List(PrintKeys(more)));
      ParseKeys(more, spec1);
      assert spec1.keys + more == spec.keys + ks;
    }
  }

  /** A marker that takes a name. */
  lemma ParseMarked(marker: string, name: Option<string>, w: Walk, tail: seq<Value>)
    requires marker == "&WHOLE" || marker == "&ENVIRONMENT" || (marker == "&REST" && !w.mode.Rest? && !w.mode.Key?)
    requires marker == "&WHOLE" ==> w.spec.whole.None?
    requires marker == "&ENVIRONMENT" ==> w.spec.environment.None?
    requires marker == "&REST" ==> w.spec.rest.None?
    ensures var spec := if marker == "&WHOLE" then w.spec.(whole := name)
                        else if marker == "&ENVIRONMENT" then w.spec.(environment := name) else w.spec.(rest := name);
            ParseFrom(w, List(Marked(marker, name) + tail))
            == ParseFrom(Walk(if marker == "&REST" && name.Some? then Rest else w.mode, spec), List(tail))
  {
    match name
    case None => assert Marked(marker, name) + tail == tail;
    case Some(n) =>
      assert Marked(marker, name) + tail == [Sym(marker)] + ([Sym(n)] + tail);
      ListCons(Sym(marker), [Sym(n)] + tail);
      ListCons(Sym(n), tail);
  }

  lemma ParseKeySection(spec: ParamSpec, w: Walk)
    requires Printable(spec) && !w.mode.Key? && w.spec == spec.(keys := [], environment := None)
    ensures ParseFrom(w, List(KeySection(spec))) == Ok(spec)
  {
    var tail := if spec.keys == [] then [] else [Sym("&KEY")] + PrintKeys(spec.keys);
    ParseMarked("&ENVIRONMENT", spec.environment, w, tail);
    var w1 := w.(spec := w.spec.(environment := spec.environment));
    if spec.keys != [] {
      ListCons(Sym("&KEY"), PrintKeys(spec.keys));
      ParseKeys(spec.keys, w1.spec);
      assert [] + spec.keys == spec.keys;
    }
  }

  lemma ParseRestSection(spec: ParamSpec, w: Walk)
    requires Printable(spec) && (w.mode.Required? || w.mode.Optional?)
        && w.spec == spec.(keys := [], environment := None, rest := None)
    ensures ParseFrom(w, List(RestSection(spec))) == Ok(spec)
  {
    ParseMarked("&REST", spec.rest, w, KeySection(spec));
    ParseKeySection(spec, Walk(if spec.rest.Some? then Rest else w.mode, w.spec.(rest := spec.rest)));
  }

  lemma ParseOptionalSection(spec: ParamSpec, w: Walk)
    requires Printable(spec) && w.mode.Required? && w.spec == EMPTY.(required := spec.required, whole := spec.whole)
    ensures ParseFrom(w, List(OptionalSection(spec))) == Ok(spec)
  {
    var tail := RestSection(spec);
    if spec.optionals == [] {
      assert [] + tail == tail;
      ParseRestSection(spec, w);
    } else {
      var items := PrintOpts(spec.optionals) + tail;
      assert OptionalSection(spec) == [Sym("&OPTIONAL")] + items;
      ListCons(Sym("&OPTIONAL"), items);
      ParseOptionals(spec.optionals, w.spec, tail);
      assert [] + spec.optionals == spec.optionals;
      ParseRestSection(spec, Walk(Optional, w.spec.(optionals := spec.optionals)));
    }
  }

  /** Parsing the canonical list of a specification gives the specification back. */
  lemma PrintThenParse(spec: ParamSpec)
    requires Printable(spec)
    ensures Parse(Print(spec)) == Ok(spec)
  {
    var tail := OptionalSection(spec);
    ParseMarked("&WHOLE", spec.whole, Walk(Required, EMPTY), Syms(spec.required) + tail);
    var spec1 := EMPTY.(whole := spec.whole);
    ParseRequired(spec.required, spec1, tail);
    assert [] + spec.required == spec.required;
    ParseOptionalSection(spec, Walk(Required, spec1.(required := spec.required)));
  }

  // ---------------------------------------------------------------- what is accepted

  lemma StepPrintable(w: Walk, cur: Value)
    requires cur.Cons? && Printable(w.spec) && Step(w, cur).Continue?
    ensures Printable(Step(w, cur).w.spec)
  {}

  lemma {:induction false} ParsedPrintable(w: Walk, cur: Value)
    requires Printable(w.spec) && ParseFrom(w, cur).Ok?
    ensures Printable(ParseFrom(w, cur).value)
    decreases cur
  {
    if cur.Cons? {
      StepPrintable(w, cur);
      ParsedPrintable(Step(w, cur).w, Step(w, cur).rest);
    }
  }

  /** Parsing, writing down and parsing again is parsing once; and a specification is the result of
      some list exactly when it is printable. */
  lemma ParsePrintParse(v: Value)
    requires Parse(v).Ok?
    ensures Printable(Parse(v).value) && Parse(Print(Parse(v).value)) == Parse(v)
  {
    ParsedPrintable(Walk(Required, EMPTY), v);
    PrintThenParse(Parse(v).value);
  }

  lemma ParseableIffPrintable(spec: ParamSpec)
    ensures (exists v :: Parse(v) == Ok(spec)) <==> Printable(spec)
  {
    if Printable(spec) { PrintThenParse(spec); }
    if v :| Parse(v) == Ok(spec) { ParsePrintParse(v); }
  }
}
