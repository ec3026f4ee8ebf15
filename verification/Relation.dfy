/** The simulation relation between a program and the same program with any choice of its
    functions rewritten: a promoted local equals its f64 slot, everything else is equal. */
module Relation {
  import opened Wrappers
  import opened Ir
  import opened Evaluator
  import opened Optimize

  /** Float contagion: whatever an operation with a float operand returns is a float. */
  ghost predicate Contagious(m: Machine) {
    forall op: ArithOp, v: Value, u: Value {:trigger m.arith(op, v, u)} ::
      (v.Flo? || u.Flo?) && m.arith(op, v, u).AVal? ==> m.arith(op, v, u).v.Flo?
  }

  /** `q` is `p` with every body compiled, each with the inference on or off. */
  ghost predicate Linked(p: Program, q: Program) {
    && p.m == q.m
    && p.defs.Keys == q.defs.Keys
    && forall sym | sym in p.defs ::
         q.defs[sym] == Compile(true, p.defs[sym]) || q.defs[sym] == Compile(false, p.defs[sym])
  }

  /** The static side of a walk: the slot base of the body and the parallel stacks. */
  datatype Cfg = Cfg(on: bool, base: nat, tenv: seq<AbsType>, promo: seq<Option<nat>>)

  ghost predicate SameAt(slot: nat, fs: Slots, gs: Slots) {
    (slot in fs <==> slot in gs) && (slot in fs ==> fs[slot] == gs[slot])
  }

  ghost predicate Agree(lo: nat, hi: nat, fs: Slots, gs: Slots) {
    forall slot: nat {:trigger SameAt(slot, fs, gs)} | lo <= slot < hi :: SameAt(slot, fs, gs)
  }

  /** One local: a promoted local equals its slot, any other local is the same on both sides. */
  ghost predicate LocalRel(c: Cfg, next: nat, i: nat, env: seq<Value>, env2: seq<Value>, gs: Slots)
    requires i < |env| == |env2| == |c.promo| == |c.tenv|
  {
    match c.promo[i]
    case Some(slot) => c.tenv[i].Float? && c.base <= slot < next && slot in gs && env[i] == Flo(gs[slot])
    case None => c.tenv[i].Other? && env2[i] == env[i]
  }

  ghost predicate LocalsRel(c: Cfg, next: nat, env: seq<Value>, env2: seq<Value>, gs: Slots) {
    && |c.tenv| == |c.promo| == |env| == |env2|
    && forall i: nat {:trigger LocalRel(c, next, i, env, env2, gs)} | i < |env| :: LocalRel(c, next, i, env, env2, gs)
  }

  /** The source and the rewritten run at one node: same frame, own locals, own state. */
  datatype Sides = Sides(fr: Frame, env: seq<Value>, env2: seq<Value>, s: State, s2: State)

  ghost predicate Rel(c: Cfg, next: nat, x: Sides) {
    && c.base <= next
    && LocalsRel(c, next, x.env, x.env2, x.s2.fs)
    && Agree(0, c.base, x.s.fs, x.s2.fs)
    && x.s.w == x.s2.w
  }

  /** Where the walk stands: the promoted slots below `next` are as they were in `gs`. */
  ghost predicate StateRel(c: Cfg, next: nat, s: State, s2: State, gs: Slots) {
    && s.w == s2.w
    && Agree(0, c.base, s.fs, s2.fs)
    && Agree(c.base, next, gs, s2.fs)
  }

  /** The two results of one node. An unspecified source run promises nothing. */
  ghost predicate ResRel(c: Cfg, next: nat, t: AbsType, r: Res, r2: Res, gs: Slots) {
    r.flow.Unspec? ||
    (&& r2.flow == r.flow
     && StateRel(c, next, r.s, r2.s, gs)
     && (t.Float? && r.flow.Val? ==> r.flow.v.Flo?))
  }

  ghost predicate SeqRel(c: Cfg, next: nat, last: AbsType, r: SeqRes, r2: SeqRes, gs: Slots) {
    match r
    case Stop(x) => x.flow.Unspec? || (r2.Stop? && ResRel(c, next, Other, x, r2.r, gs))
    case Vals(vs, s) =>
      && r2.Vals? && r2.vs == vs && StateRel(c, next, s, r2.s, gs)
      && (last.Float? ==> vs != [] && vs[|vs| - 1].Flo?)
  }

  lemma AgreeTrans(lo: nat, hi: nat, fs: Slots, gs: Slots, hs: Slots)
    requires Agree(lo, hi, fs, gs) && Agree(lo, hi, gs, hs)
    ensures Agree(lo, hi, fs, hs)
  {
    forall slot: nat | lo <= slot < hi ensures SameAt(slot, fs, hs) {
      assert SameAt(slot, fs, gs) && SameAt(slot, gs, hs);
    }
  }

  /** The relation survives any step that keeps the live slots. */
  lemma Advance(c: Cfg, next: nat, next1: nat, x: Sides, t: State, t2: State)
    requires Rel(c, next, x) && StateRel(c, next, t, t2, x.s2.fs) && next <= next1
    ensures Rel(c, next1, x.(s := t, s2 := t2))
  {
    forall i: nat | i < |x.env| ensures LocalRel(c, next1, i, x.env, x.env2, t2.fs) {
      assert LocalRel(c, next, i, x.env, x.env2, x.s2.fs);
      if c.promo[i].Some? { assert SameAt(c.promo[i].value, x.s2.fs, t2.fs); }
    }
  }

  /** A later result seen from an earlier state. */
  lemma Rebase(c: Cfg, next: nat, next1: nat, t: AbsType, r: Res, r2: Res, s: State, s2: State, gs: Slots)
    requires next <= next1
    requires StateRel(c, next, s, s2, gs)
    requires ResRel(c, next1, t, r, r2, s2.fs)
    ensures ResRel(c, next, t, r, r2, gs)
  {
    if !r.flow.Unspec? {
      forall slot: nat | c.base <= slot < next ensures SameAt(slot, s2.fs, r2.s.fs) {}
      AgreeTrans(c.base, next, gs, s2.fs, r2.s.fs);
    }
  }

  lemma StateRefl(c: Cfg, next: nat, x: Sides)
    requires Rel(c, next, x)
    ensures StateRel(c, next, x.s, x.s2, x.s2.fs)
  {
    forall slot: nat | c.base <= slot < next ensures SameAt(slot, x.s2.fs, x.s2.fs) {}
  }

  /** Linked programs act alike on equal operands. */
  lemma ActLinked(p: Program, q: Program, op: PrimOp, vs: seq<Value>, fr: Frame, w: World)
    requires Linked(p, q)
    ensures Act(p, op, vs, fr, w) == Act(q, op, vs, fr, w)
  {}

  // ---------------------------------------------------------------- inference switched off

  ghost predicate NoPromo(promo: seq<Option<nat>>) { forall i | 0 <= i < |promo| :: promo[i].None? }

  lemma NothingAt(promo: seq<Option<nat>>, i: nat)
    requires NoPromo(promo)
    ensures SlotAt(promo, i).None?
  {}

  lemma {:induction false} OffIsIdentity(e: Expr, tenv: seq<AbsType>, promo: seq<Option<nat>>, next: nat)
    requires NoPromo(promo)
    ensures Rewrite(false, e, tenv, promo, next).e == e
    decreases e, 1
  {
    hide RewriteSeq, RewriteBinds, NoPromo;
    match e
    case Prim(_, args) => OffIsIdentitySeq(args, tenv, promo, next);
    case FloatLit(_, _) =>
    case F64ParamRead(_) =>
    case F64LocalRead(_) =>
    case F64LocalStore(_, v) => OffIsIdentity(v, tenv, promo, next);
    case Local(i) => NothingAt(promo, i);
    case Let(bindings, body) =>
      OffIsIdentityBinds(bindings, tenv, promo, next);
      var b := RewriteBinds(false, bindings, tenv, promo, next);
      OffIsIdentity(body, b.tenv, b.promo, b.next);
    case Progn(forms) => OffIsIdentitySeq(forms, tenv, promo, next);
    case Arith(_, _, _) => OffIsIdentity2(e, tenv, promo, next);
    case If(_, _, _) => OffIsIdentity3(e, tenv, promo, next);
    case SetHalf(_, _, _) => OffIsIdentity2(e, tenv, promo, next);
    case ArgOr(_, d) => OffIsIdentity(d, tenv, promo, next);
    case Lambda(_, _, captures) => OffIsIdentitySeq(captures, tenv, promo, next);
    case DynamicBind(_, _, _) => OffIsIdentity2(e, tenv, promo, next);
    case TailLoop(_, body) => OffIsIdentity(body, tenv, promo, next);
    case SelfTailNext(args) => OffIsIdentitySeq(args, tenv, promo, next);
    case FastLoop(_, _, _) => OffIsIdentity3(e, tenv, promo, next);
    case InlineLoop(body) => OffIsIdentity(body, tenv, promo, next);
    case LoopBreak(v) => OffIsIdentity(v, tenv, promo, next);
  }

  lemma {:induction false} OffIsIdentity2(e: Expr, tenv: seq<AbsType>, promo: seq<Option<nat>>, next: nat)
    requires NoPromo(promo) && (e.Arith? || e.SetHalf? || e.DynamicBind?)
    ensures Rewrite(false, e, tenv, promo, next).e == e
    decreases e, 0
  {
    hide NoPromo;
    var (a, b) := match e
      case Arith(_, a, b) => (a, b)
      case SetHalf(_, a, b) => (a, b)
      case DynamicBind(_, a, b) => (a, b);
    OffIsIdentity(a, tenv, promo, next);
    OffIsIdentity(b, tenv, promo, Rewrite(false, a, tenv, promo, next).next);
  }

  lemma {:induction false} OffIsIdentity3(e: Expr, tenv: seq<AbsType>, promo: seq<Option<nat>>, next: nat)
    requires NoPromo(promo) && (e.If? || e.FastLoop?)
    ensures Rewrite(false, e, tenv, promo, next).e == e
    decreases e, 0
  {
    hide NoPromo;
    var (a, b, c) := match e
      case If(a, b, c) => (a, b, c)
      case FastLoop(a, b, c) => (a, b, c);
    var next1 := Rewrite(false, a, tenv, promo, next).next;
    OffIsIdentity(a, tenv, promo, next);
    OffIsIdentity(b, tenv, promo, next1);
    OffIsIdentity(c, tenv, promo, Rewrite(false, b, tenv, promo, next1).next);
  }

  lemma {:induction false} OffIsIdentitySeq(es: seq<Expr>, tenv: seq<AbsType>, promo: seq<Option<nat>>, next: nat)
    requires NoPromo(promo)
    ensures RewriteSeq(false, es, tenv, promo, next).es == es
    decreases es, 0
  {
    if es != [] {
      OffIsIdentity(es[0], tenv, promo, next);
      OffIsIdentitySeq(es[1..], tenv, promo, Rewrite(false, es[0], tenv, promo, next).next);
    }
  }

  lemma {:induction false} OffIsIdentityBinds(bs: seq<Expr>, tenv: seq<AbsType>, promo: seq<Option<nat>>, next: nat)
    requires NoPromo(promo)
    ensures var b := RewriteBinds(false, bs, tenv, promo, next); b.bs == bs && NoPromo(b.promo)
    decreases bs, 0
  {
    if bs != [] {
      OffIsIdentity(bs[0], tenv, promo, next);
      OffIsIdentityBinds(bs[1..], tenv + [Other], promo + [None], Rewrite(false, bs[0], tenv, promo, next).next);
    }
  }
}
