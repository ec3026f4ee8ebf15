/** Machines that give up where another one would go on: a run that does not give up is the same. */
module Guard {
  import opened Wrappers
  import opened Ir
  import opened Evaluator
  import opened Relation

  /** The machine that leaves an operation unspecified where a float operand yields no float. */
  function Guarded(m: Machine): Machine {
    m.(arith := (op: ArithOp, v: Value, u: Value) =>
      var r := m.arith(op, v, u);
      if (v.Flo? || u.Flo?) && r.AVal? && !r.v.Flo? then AUnspec else r)
  }

  /** `g` does what `m` does, or leaves an operation unspecified. */
  ghost predicate Cautious(g: Machine, m: Machine) {
    && g.coerce == m.coerce && g.builtin == m.builtin
    && forall op: ArithOp, v: Value, u: Value :: g.arith(op, v, u).AUnspec? || g.arith(op, v, u) == m.arith(op, v, u)
  }

  lemma GuardedIs(m: Machine)
    ensures Contagious(Guarded(m)) && Cautious(Guarded(m), m)
    ensures Contagious(m) ==> Cautious(m, Guarded(m))
  {}

  /** The same functions on a more cautious machine. */
  ghost predicate Below(p: Program, q: Program) { Cautious(p.m, q.m) && p.defs == q.defs }

  ghost predicate SameOrUnspec(r: Res, r2: Res) { r.flow.Unspec? || r2 == r }

  lemma ActBelow(p: Program, q: Program, op: PrimOp, vs: seq<Value>, fr: Frame, w: World)
    requires Below(p, q)
    ensures Act(p, op, vs, fr, w) == Act(q, op, vs, fr, w)
  {}

  /** A run of the cautious program that relies on nothing unspecified is the run of the other one. */
  lemma {:induction false} Same(p: Program, q: Program, e: Expr, fr: Frame, env: seq<Value>, s: State, fuel: nat)
    requires Below(p, q)
    ensures SameOrUnspec(Eval(p, e, fr, env, s, fuel), Eval(q, e, fr, env, s, fuel))
    decreases fuel, e, 1
  {
    hide EvalSeq, EvalBinds, Act, Cautious;
    match e
    case Prim(_, _) => SamePrim(p, q, e, fr, env, s, fuel);
    case FloatLit(_, _) =>
    case F64ParamRead(_) =>
    case F64LocalRead(_) =>
    case F64LocalStore(_, _) => SameStore(p, q, e, fr, env, s, fuel);
    case Local(_) =>
    case Let(_, _) => SameLet(p, q, e, fr, env, s, fuel);
    case Progn(forms) => SameSeq(p, q, forms, fr, env, s, fuel);
    case Arith(_, _, _) => SameArith(p, q, e, fr, env, s, fuel);
    case If(_, _, _) => SameIf(p, q, e, fr, env, s, fuel);
    case SetHalf(_, a, b) =>
      Same(p, q, a, fr, env, s, fuel);
      var r := Eval(p, a, fr, env, s, fuel);
      if r.flow.Val? { Same(p, q, b, fr, env, r.s, fuel); }
    case ArgOr(_, d) => Same(p, q, d, fr, env, s, fuel);
    case Lambda(_, _, captures) => SameSeq(p, q, captures, fr, env, s, fuel);
    case DynamicBind(sym, v, body) =>
      Same(p, q, v, fr, env, s, fuel);
      var r := Eval(p, v, fr, env, s, fuel);
      if r.flow.Val? { Same(p, q, body, fr, env, r.s.(w := SetGlobal(r.s.w, sym, Some(r.flow.v))), fuel); }
    case TailLoop(_, _) => SameTailLoop(p, q, e, fr, env, s, fuel);
    case SelfTailNext(args) => SameSeq(p, q, args, fr, env, s, fuel);
    case FastLoop(_, _, _) => SameFastLoop(p, q, e, fr, env, s, fuel);
    case InlineLoop(_) => SameInlineLoop(p, q, e, fr, env, s, fuel);
    case LoopBreak(v) => Same(p, q, v, fr, env, s, fuel);
  }

  lemma {:induction false} SameSeq(p: Program, q: Program, es: seq<Expr>, fr: Frame, env: seq<Value>, s: State,
          fuel: nat)
    requires Below(p, q)
    ensures var r := EvalSeq(p, es, fr, env, s, fuel);
            (r.Stop? && r.r.flow.Unspec?) || EvalSeq(q, es, fr, env, s, fuel) == r
    decreases fuel, es, 0
  {
    if es != [] {
      Same(p, q, es[0], fr, env, s, fuel);
      var r := Eval(p, es[0], fr, env, s, fuel);
      if r.flow.Val? { SameSeq(p, q, es[1..], fr, env, r.s, fuel); }
    }
  }

  lemma {:induction false} SameBinds(p: Program, q: Program, bs: seq<Expr>, fr: Frame, env: seq<Value>, s: State,
          fuel: nat)
    requires Below(p, q)
    ensures var r := EvalBinds(p, bs, fr, env, s, fuel);
            r.0.flow.Unspec? || EvalBinds(q, bs, fr, env, s, fuel) == r
    decreases fuel, bs, 0
  {
    if bs != [] {
      Same(p, q, bs[0], fr, env, s, fuel);
      var r := Eval(p, bs[0], fr, env, s, fuel);
      if r.flow.Val? { SameBinds(p, q, bs[1..], fr, env + [Bound(bs[0], r.flow.v)], r.s, fuel); }
    }
  }

  lemma {:induction false} SamePrim(p: Program, q: Program, e: Expr, fr: Frame, env: seq<Value>, s: State, fuel: nat)
    requires Below(p, q) && e.Prim?
    ensures SameOrUnspec(Eval(p, e, fr, env, s, fuel), Eval(q, e, fr, env, s, fuel))
    decreases fuel, e, 0
  {
    hide Act, EvalSeq, Cautious;
    SameSeq(p, q, e.args, fr, env, s, fuel);
    var r := EvalSeq(p, e.args, fr, env, s, fuel);
    if r.Vals? {
      ActBelow(p, q, e.op, r.vs, fr, r.s.w);
      var act := Act(p, e.op, r.vs, fr, r.s.w);
      if fuel > 0 {
        if act.EnterFn? && act.sym in p.defs {
          Same(p, q, p.defs[act.sym], Frame(act.args, []), [], State(r.s.w, map[]), fuel - 1);
        } else if act.EnterClo? {
          Same(p, q, act.code, Frame(act.args, act.caps), [], State(r.s.w, map[]), fuel - 1);
        }
      }
    }
  }

  lemma {:induction false} SameStore(p: Program, q: Program, e: Expr, fr: Frame, env: seq<Value>, s: State, fuel: nat)
    requires Below(p, q) && e.F64LocalStore?
    ensures SameOrUnspec(Eval(p, e, fr, env, s, fuel), Eval(q, e, fr, env, s, fuel))
    decreases fuel, e, 0
  {
    Same(p, q, e.stored, fr, env, s, fuel);
  }

  lemma {:induction false} SameLet(p: Program, q: Program, e: Expr, fr: Frame, env: seq<Value>, s: State, fuel: nat)
    requires Below(p, q) && e.Let?
    ensures SameOrUnspec(Eval(p, e, fr, env, s, fuel), Eval(q, e, fr, env, s, fuel))
    decreases fuel, e, 0
  {
    hide EvalBinds;
    SameBinds(p, q, e.bindings, fr, env, s, fuel);
    var (r, env1) := EvalBinds(p, e.bindings, fr, env, s, fuel);
    if r.flow.Val? { Same(p, q, e.body, fr, env1, r.s, fuel); }
  }

  lemma {:induction false} SameArith(p: Program, q: Program, e: Expr, fr: Frame, env: seq<Value>, s: State, fuel: nat)
    requires Below(p, q) && e.Arith?
    ensures SameOrUnspec(Eval(p, e, fr, env, s, fuel), Eval(q, e, fr, env, s, fuel))
    decreases fuel, e, 0
  {
    Same(p, q, e.lhs, fr, env, s, fuel);
    var a := Eval(p, e.lhs, fr, env, s, fuel);
    if a.flow.Val? {
      Same(p, q, e.rhs, fr, env, a.s, fuel);
      var b := Eval(p, e.rhs, fr, env, a.s, fuel);
      if b.flow.Val? {
        assert p.m.arith(e.aop, a.flow.v, b.flow.v).AUnspec?
            || p.m.arith(e.aop, a.flow.v, b.flow.v) == q.m.arith(e.aop, a.flow.v, b.flow.v);
      }
    }
  }

  lemma {:induction false} SameIf(p: Program, q: Program, e: Expr, fr: Frame, env: seq<Value>, s: State, fuel: nat)
    requires Below(p, q) && e.If?
    ensures SameOrUnspec(Eval(p, e, fr, env, s, fuel), Eval(q, e, fr, env, s, fuel))
    decreases fuel, e, 0
  {
    Same(p, q, e.cond, fr, env, s, fuel);
    var r := Eval(p, e.cond, fr, env, s, fuel);
    if r.flow.Val? { Same(p, q, if r.flow.v != VNil then e.thn else e.els, fr, env, r.s, fuel); }
  }

  lemma {:induction false} SameTailLoop(p: Program, q: Program, e: Expr, fr: Frame, env: seq<Value>, s: State,
          fuel: nat)
    requires Below(p, q) && e.TailLoop?
    ensures SameOrUnspec(Eval(p, e, fr, env, s, fuel), Eval(q, e, fr, env, s, fuel))
    decreases fuel, e, 0
  {
    Same(p, q, e.tbody, fr, env, s, fuel);
    var r := Eval(p, e.tbody, fr, env, s, fuel);
    if r.flow.TailNext? && fuel > 0 { Same(p, q, e, fr.(args := r.flow.args), env, r.s, fuel - 1); }
  }

  lemma {:induction false} SameFastLoop(p: Program, q: Program, e: Expr, fr: Frame, env: seq<Value>, s: State,
          fuel: nat)
    requires Below(p, q) && e.FastLoop?
    ensures SameOrUnspec(Eval(p, e, fr, env, s, fuel), Eval(q, e, fr, env, s, fuel))
    decreases fuel, e, 0
  {
    Same(p, q, e.test, fr, env, s, fuel);
    var r := Eval(p, e.test, fr, env, s, fuel);
    if r.flow.Val? {
      if r.flow.v != VNil {
        Same(p, q, e.result, fr, env, r.s, fuel);
      } else {
        Same(p, q, e.fbody, fr, env, r.s, fuel);
        var b := Eval(p, e.fbody, fr, env, r.s, fuel);
        if b.flow.Val? && fuel > 0 { Same(p, q, e, fr, env, b.s, fuel - 1); }
      }
    }
  }

  lemma {:induction false} SameInlineLoop(p: Program, q: Program, e: Expr, fr: Frame, env: seq<Value>, s: State,
          fuel: nat)
    requires Below(p, q) && e.InlineLoop?
    ensures SameOrUnspec(Eval(p, e, fr, env, s, fuel), Eval(q, e, fr, env, s, fuel))
    decreases fuel, e, 0
  {
    Same(p, q, e.ibody, fr, env, s, fuel);
    var r := Eval(p, e.ibody, fr, env, s, fuel);
    if r.flow.Val? && fuel > 0 { Same(p, q, e, fr, env, r.s, fuel - 1); }
  }
}
