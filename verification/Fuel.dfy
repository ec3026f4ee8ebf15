/** Fuel only cuts runs short: a run that ends does not depend on how much was left. */
module Fuel {
  import opened Wrappers
  import opened Ir
  import opened Evaluator

  lemma {:induction false} More(p: Program, e: Expr, fr: Frame, env: seq<Value>, s: State, fuel: nat)
    requires !Eval(p, e, fr, env, s, fuel).flow.OutOfFuel?
    ensures Eval(p, e, fr, env, s, fuel + 1) == Eval(p, e, fr, env, s, fuel)
    decreases fuel, e, 1
  {
    match e
    case Prim(_, _) => MorePrim(p, e, fr, env, s, fuel);
    case FloatLit(_, _) =>
    case F64ParamRead(_) =>
    case F64LocalRead(_) =>
    case F64LocalStore(_, v) => More(p, v, fr, env, s, fuel);
    case Local(_) =>
    case Let(bindings, body) => MoreLet(p, e, fr, env, s, fuel);
    case Progn(forms) => MoreSeq(p, forms, fr, env, s, fuel);
    case Arith(_, a, b) =>
      More(p, a, fr, env, s, fuel);
      var ra := Eval(p, a, fr, env, s, fuel);
      if ra.flow.Val? { More(p, b, fr, env, ra.s, fuel); }
    case If(c, t, f) => MoreIf(p, e, fr, env, s, fuel);
    case SetHalf(_, a, b) =>
      More(p, a, fr, env, s, fuel);
      var rt := Eval(p, a, fr, env, s, fuel);
      if rt.flow.Val? { More(p, b, fr, env, rt.s, fuel); }
    case ArgOr(sel, d) => if Lookup(sel, fr.args).None? { More(p, d, fr, env, s, fuel); }
    case Lambda(_, _, captures) => MoreSeq(p, captures, fr, env, s, fuel);
    case DynamicBind(_, _, _) => MoreDynamicBind(p, e, fr, env, s, fuel);
    case TailLoop(_, _) => MoreTailLoop(p, e, fr, env, s, fuel);
    case SelfTailNext(args) => MoreSeq(p, args, fr, env, s, fuel);
    case FastLoop(_, _, _) => MoreFastLoop(p, e, fr, env, s, fuel);
    case InlineLoop(_) => MoreInlineLoop(p, e, fr, env, s, fuel);
    case LoopBreak(v) => More(p, v, fr, env, s, fuel);
  }

  ghost predicate SeqCut(r: SeqRes) { r.Stop? && r.r.flow.OutOfFuel? }

  lemma {:induction false} MoreSeq(p: Program, es: seq<Expr>, fr: Frame, env: seq<Value>, s: State, fuel: nat)
    requires !SeqCut(EvalSeq(p, es, fr, env, s, fuel))
    ensures EvalSeq(p, es, fr, env, s, fuel + 1) == EvalSeq(p, es, fr, env, s, fuel)
    decreases fuel, es, 0
  {
    if es != [] {
      More(p, es[0], fr, env, s, fuel);
      var r := Eval(p, es[0], fr, env, s, fuel);
      if r.flow.Val? { MoreSeq(p, es[1..], fr, env, r.s, fuel); }
    }
  }

  lemma {:induction false} MoreBinds(p: Program, bs: seq<Expr>, fr: Frame, env: seq<Value>, s: State, fuel: nat)
    requires !EvalBinds(p, bs, fr, env, s, fuel).0.flow.OutOfFuel?
    ensures EvalBinds(p, bs, fr, env, s, fuel + 1) == EvalBinds(p, bs, fr, env, s, fuel)
    decreases fuel, bs, 0
  {
    if bs != [] {
      More(p, bs[0], fr, env, s, fuel);
      var r := Eval(p, bs[0], fr, env, s, fuel);
      if r.flow.Val? { MoreBinds(p, bs[1..], fr, env + [Bound(bs[0], r.flow.v)], r.s, fuel); }
    }
  }

  lemma {:induction false} MorePrim(p: Program, e: Expr, fr: Frame, env: seq<Value>, s: State, fuel: nat)
    requires e.Prim? && !Eval(p, e, fr, env, s, fuel).flow.OutOfFuel?
    ensures Eval(p, e, fr, env, s, fuel + 1) == Eval(p, e, fr, env, s, fuel)
    decreases fuel, e, 0
  {
    hide Act;
    MoreSeq(p, e.args, fr, env, s, fuel);
    var r := EvalSeq(p, e.args, fr, env, s, fuel);
    if r.Vals? && fuel > 0 {
      var act := Act(p, e.op, r.vs, fr, r.s.w);
      if act.EnterFn? && act.sym in p.defs {
        More(p, p.defs[act.sym], Frame(act.args, []), [], State(r.s.w, map[]), fuel - 1);
      } else if act.EnterClo? {
        More(p, act.code, Frame(act.args, act.caps), [], State(r.s.w, map[]), fuel - 1);
      }
    }
  }

  lemma {:induction false} MoreLet(p: Program, e: Expr, fr: Frame, env: seq<Value>, s: State, fuel: nat)
    requires e.Let? && !Eval(p, e, fr, env, s, fuel).flow.OutOfFuel?
    ensures Eval(p, e, fr, env, s, fuel + 1) == Eval(p, e, fr, env, s, fuel)
    decreases fuel, e, 0
  {
    MoreBinds(p, e.bindings, fr, env, s, fuel);
    var (r, env1) := EvalBinds(p, e.bindings, fr, env, s, fuel);
    if r.flow.Val? { More(p, e.body, fr, env1, r.s, fuel); }
  }

  lemma {:induction false} MoreIf(p: Program, e: Expr, fr: Frame, env: seq<Value>, s: State, fuel: nat)
    requires e.If? && !Eval(p, e, fr, env, s, fuel).flow.OutOfFuel?
    ensures Eval(p, e, fr, env, s, fuel + 1) == Eval(p, e, fr, env, s, fuel)
    decreases fuel, e, 0
  {
    More(p, e.cond, fr, env, s, fuel);
    var r := Eval(p, e.cond, fr, env, s, fuel);
    if r.flow.Val? {
      if r.flow.v != VNil { More(p, e.thn, fr, env, r.s, fuel); } else { More(p, e.els, fr, env, r.s, fuel); }
    }
  }

  lemma {:induction false} MoreDynamicBind(p: Program, e: Expr, fr: Frame, env: seq<Value>, s: State, fuel: nat)
    requires e.DynamicBind? && !Eval(p, e, fr, env, s, fuel).flow.OutOfFuel?
    ensures Eval(p, e, fr, env, s, fuel + 1) == Eval(p, e, fr, env, s, fuel)
    decreases fuel, e, 0
  {
    More(p, e.bound, fr, env, s, fuel);
    var r := Eval(p, e.bound, fr, env, s, fuel);
    if r.flow.Val? {
      More(p, e.dbody, fr, env, r.s.(w := SetGlobal(r.s.w, e.dsym, Some(r.flow.v))), fuel);
    }
  }

  lemma {:induction false} MoreTailLoop(p: Program, e: Expr, fr: Frame, env: seq<Value>, s: State, fuel: nat)
    requires e.TailLoop? && !Eval(p, e, fr, env, s, fuel).flow.OutOfFuel?
    ensures Eval(p, e, fr, env, s, fuel + 1) == Eval(p, e, fr, env, s, fuel)
    decreases fuel, e, 0
  {
    More(p, e.tbody, fr, env, s, fuel);
    var r := Eval(p, e.tbody, fr, env, s, fuel);
    if r.flow.TailNext? && |r.flow.args| == e.larity {
      More(p, e, fr.(args := r.flow.args), env, r.s, fuel - 1);
    }
  }

  lemma {:induction false} MoreFastLoop(p: Program, e: Expr, fr: Frame, env: seq<Value>, s: State, fuel: nat)
    requires e.FastLoop? && !Eval(p, e, fr, env, s, fuel).flow.OutOfFuel?
    ensures Eval(p, e, fr, env, s, fuel + 1) == Eval(p, e, fr, env, s, fuel)
    decreases fuel, e, 0
  {
    hide EvalSeq, EvalBinds, Act, ToF64;
    More(p, e.test, fr, env, s, fuel);
    var r := Eval(p, e.test, fr, env, s, fuel);
    if r.flow.Val? {
      if r.flow.v != VNil {
        More(p, e.result, fr, env, r.s, fuel);
      } else {
        More(p, e.fbody, fr, env, r.s, fuel);
        var b := Eval(p, e.fbody, fr, env, r.s, fuel);
        if b.flow.Val? { More(p, e, fr, env, b.s, fuel - 1); }
      }
    }
  }

  lemma {:induction false} MoreInlineLoop(p: Program, e: Expr, fr: Frame, env: seq<Value>, s: State, fuel: nat)
    requires e.InlineLoop? && !Eval(p, e, fr, env, s, fuel).flow.OutOfFuel?
    ensures Eval(p, e, fr, env, s, fuel + 1) == Eval(p, e, fr, env, s, fuel)
    decreases fuel, e, 0
  {
    More(p, e.ibody, fr, env, s, fuel);
    var r := Eval(p, e.ibody, fr, env, s, fuel);
    if r.flow.Val? { More(p, e, fr, env, r.s, fuel - 1); }
  }

  /** A run that ends has the same result with any larger amount of fuel. */
  lemma {:induction false} FuelIrrelevant(p: Program, e: Expr, fr: Frame, env: seq<Value>, s: State, fuel: nat,
          more: nat)
    requires fuel <= more && !Eval(p, e, fr, env, s, fuel).flow.OutOfFuel?
    ensures Eval(p, e, fr, env, s, more) == Eval(p, e, fr, env, s, fuel)
    decreases more
  {
    hide Eval;
    if fuel < more {
      FuelIrrelevant(p, e, fr, env, s, fuel, more - 1);
      More(p, e, fr, env, s, more - 1);
    }
  }
}
