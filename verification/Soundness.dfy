/** The pass preserves meaning: the simulation, node by node, and the theorems drawn from it. */
module Soundness {
  import opened Wrappers
  import opened Ir
  import opened Evaluator
  import opened Optimize
  import opened Relation

  function Source(p: Program, e: Expr, x: Sides, fuel: nat): Res { Eval(p, e, x.fr, x.env, x.s, fuel) }

  function Target(q: Program, e: Expr, x: Sides, fuel: nat): Res { Eval(q, e, x.fr, x.env2, x.s2, fuel) }

  ghost predicate Ready(p: Program, q: Program, c: Cfg, next: nat, x: Sides) {
    Linked(p, q) && Contagious(p.m) && Rel(c, next, x)
  }

  function Walk(c: Cfg, e: Expr, next: nat): Out { Rewrite(c.on, e, c.tenv, c.promo, next) }

  ghost predicate Simulated(p: Program, q: Program, c: Cfg, e: Expr, next: nat, x: Sides, fuel: nat) {
    var o := Walk(c, e, next);
    ResRel(c, next, o.t, Source(p, e, x, fuel), Target(q, o.e, x, fuel), x.s2.fs)
  }

  lemma {:induction false} Sim(p: Program, q: Program, c: Cfg, e: Expr, next: nat, x: Sides, fuel: nat)
    requires Ready(p, q, c, next, x) && SlotCount(e) <= c.base
    ensures Simulated(p, q, c, e, next, x, fuel)
    decreases fuel, e, 2
  {
    hide EvalSeq, EvalBinds, RewriteSeq, RewriteBinds, Contagious, Linked, SetGlobal, SetCell;
    match e
    case Prim(_, _) => SimPrim(p, q, c, e, next, x, fuel);
    case FloatLit(_, _) => StateRefl(c, next, x);
    case F64ParamRead(_) => StateRefl(c, next, x);
    case F64LocalRead(slot) =>
      StateRefl(c, next, x);
      assert SameAt(slot, x.s.fs, x.s2.fs);
    case F64LocalStore(_, _) => SimStore(p, q, c, e, next, x, fuel);
    case Local(i) =>
      StateRefl(c, next, x);
      if i < |x.env| { assert LocalRel(c, next, i, x.env, x.env2, x.s2.fs); }
    case Let(_, _) => SimLet(p, q, c, e, next, x, fuel);
    case Progn(_) => SimProgn(p, q, c, e, next, x, fuel);
    case Arith(_, _, _) => SimArith(p, q, c, e, next, x, fuel);
    case If(_, _, _) => SimIf(p, q, c, e, next, x, fuel);
    case SetHalf(_, _, _) => SimSetHalf(p, q, c, e, next, x, fuel);
    case ArgOr(_, d) =>
      StateRefl(c, next, x);
      Sim(p, q, c, d, next, x, fuel);
    case Lambda(_, _, captures) => SimSeq(p, q, c, captures, next, x, fuel);
    case DynamicBind(_, _, _) => SimDynamicBind(p, q, c, e, next, x, fuel);
    case TailLoop(_, _) => SimTailLoop(p, q, c, e, next, x, fuel);
    case SelfTailNext(args) => SimSeq(p, q, c, args, next, x, fuel);
    case FastLoop(_, _, _) => SimFastLoop(p, q, c, e, next, x, fuel);
    case InlineLoop(_) => SimInlineLoop(p, q, c, e, next, x, fuel);
    case LoopBreak(v) => Sim(p, q, c, v, next, x, fuel);
  }

  /** A second node, run in the state that the first one left. */
  lemma {:induction false} SimThen(p: Program, q: Program, c: Cfg, e: Expr, next: nat, next1: nat, x: Sides, t: State,
          t2: State, fuel: nat)
    requires Ready(p, q, c, next, x) && SlotCount(e) <= c.base
    requires StateRel(c, next, t, t2, x.s2.fs) && next <= next1
    ensures var y := x.(s := t, s2 := t2); var o := Walk(c, e, next1);
            && Ready(p, q, c, next1, y)
            && Simulated(p, q, c, e, next1, y, fuel)
            && ResRel(c, next, o.t, Source(p, e, y, fuel), Target(q, o.e, y, fuel), x.s2.fs)
    decreases fuel, e, 3
  {
    var y := x.(s := t, s2 := t2);
    Advance(c, next, next1, x, t, t2);
    Sim(p, q, c, e, next1, y, fuel);
    var o := Walk(c, e, next1);
    Rebase(c, next, next1, o.t, Source(p, e, y, fuel), Target(q, o.e, y, fuel), t, t2, x.s2.fs);
  }

  lemma {:induction false} SimSeq(p: Program, q: Program, c: Cfg, es: seq<Expr>, next: nat, x: Sides, fuel: nat)
    requires Ready(p, q, c, next, x) && SlotCountSeq(es) <= c.base
    ensures var o := RewriteSeq(c.on, es, c.tenv, c.promo, next);
            SeqRel(c, next, o.last, EvalSeq(p, es, x.fr, x.env, x.s, fuel),
                   EvalSeq(q, o.es, x.fr, x.env2, x.s2, fuel), x.s2.fs)
    decreases fuel, es, 0
  {
    hide EvalSeq, RewriteSeq, Eval, Rewrite, Agree, LocalsRel, Contagious;
    if es == [] {
      NoNodes(p, q, c, next, x, fuel);
    } else {
      Sim(p, q, c, es[0], next, x, fuel);
      var o := Walk(c, es[0], next);
      var r, r2 := Source(p, es[0], x, fuel), Target(q, o.e, x, fuel);
      var rest := RewriteSeq(c.on, es[1..], c.tenv, c.promo, o.next);
      var y := x.(s := r.s, s2 := r2.s);
      if r.flow.Val? {
        Advance(c, next, o.next, x, r.s, r2.s);
        SimSeq(p, q, c, es[1..], o.next, y, fuel);
        RebaseSeq(c, next, o.next, rest.last, EvalSeq(p, es[1..], x.fr, x.env, r.s, fuel),
                  EvalSeq(q, rest.es, x.fr, x.env2, r2.s, fuel), r.s, r2.s, x.s2.fs);
      }
      SeqStep(p, q, c, es, next, x, fuel);
    }
  }

  lemma NoNodes(p: Program, q: Program, c: Cfg, next: nat, x: Sides, fuel: nat)
    requires Rel(c, next, x)
    ensures var o := RewriteSeq(c.on, [], c.tenv, c.promo, next);
            SeqRel(c, next, o.last, EvalSeq(p, [], x.fr, x.env, x.s, fuel),
                   EvalSeq(q, o.es, x.fr, x.env2, x.s2, fuel), x.s2.fs)
  {
    StateRefl(c, next, x);
  }

  /** A sequence from its first node and the rest. */
  lemma SeqStep(p: Program, q: Program, c: Cfg, es: seq<Expr>, next: nat, x: Sides, fuel: nat)
    requires es != [] && Simulated(p, q, c, es[0], next, x, fuel)
    requires var o := Walk(c, es[0], next);
             var r, r2 := Source(p, es[0], x, fuel), Target(q, o.e, x, fuel);
             var rest := RewriteSeq(c.on, es[1..], c.tenv, c.promo, o.next);
             r.flow.Val? ==> SeqRel(c, next, rest.last, EvalSeq(p, es[1..], x.fr, x.env, r.s, fuel),
                                    EvalSeq(q, rest.es, x.fr, x.env2, r2.s, fuel), x.s2.fs)
    ensures var o := RewriteSeq(c.on, es, c.tenv, c.promo, next);
            SeqRel(c, next, o.last, EvalSeq(p, es, x.fr, x.env, x.s, fuel),
                   EvalSeq(q, o.es, x.fr, x.env2, x.s2, fuel), x.s2.fs)
  {
    hide Eval, Rewrite, Agree;
    var o := Walk(c, es[0], next);
    var rest := RewriteSeq(c.on, es[1..], c.tenv, c.promo, o.next);
    assert ([o.e] + rest.es)[1..] == rest.es;
    if |es| == 1 { assert es[1..] == []; }
  }

  lemma RebaseSeq(c: Cfg, next: nat, next1: nat, last: AbsType, r: SeqRes, r2: SeqRes, s: State, s2: State, gs: Slots)
    requires next <= next1
    requires StateRel(c, next, s, s2, gs)
    requires SeqRel(c, next1, last, r, r2, s2.fs)
    ensures SeqRel(c, next, last, r, r2, gs)
  {
    match r
    case Stop(z) => if !z.flow.Unspec? { Rebase(c, next, next1, Other, z, r2.r, s, s2, gs); }
    case Vals(vs, t) => Rebase(c, next, next1, Other, Res(Error, t), Res(Error, r2.s), s, s2, gs);
  }

  // ---------------------------------------------------------------- primitives and calls

  /** A whole body run in a fresh frame. */
  lemma {:induction false} SimBody(p: Program, q: Program, on: bool, body: Expr, fr: Frame, w: World, fuel: nat)
    requires Linked(p, q) && Contagious(p.m)
    ensures var r, r2 := Eval(p, body, fr, [], State(w, map[]), fuel),
        Eval(q, Compile(on, body), fr, [], State(w, map[]), fuel);
            r.flow.Unspec? || (r2.flow == r.flow && r2.s.w == r.s.w)
    decreases fuel, body, 3
  {
    var base := SlotCount(body);
    var s := State(w, map[]);
    var c, x := Cfg(on, base, [], []), Sides(fr, [], [], s, s);
    forall slot: nat | 0 <= slot < base ensures SameAt(slot, s.fs, s.fs) {}
    Sim(p, q, c, body, base, x, fuel);
  }

  lemma PrimParts(c: Cfg, e: Expr, next: nat)
    requires e.Prim?
    ensures var o := RewriteSeq(c.on, e.args, c.tenv, c.promo, next);
            Walk(c, e, next) == Out(Other, Prim(e.op, o.es), o.next)
    ensures SlotCount(e) == SlotCountSeq(e.args)
  {}

  lemma CompileOff(body: Expr)
    ensures Compile(false, body) == body
  {
    OffIsIdentity(body, [], [], SlotCount(body));
  }

  lemma {:induction false} SimPrim(p: Program, q: Program, c: Cfg, e: Expr, next: nat, x: Sides, fuel: nat)
    requires Ready(p, q, c, next, x) && SlotCount(e) <= c.base && e.Prim?
    ensures Simulated(p, q, c, e, next, x, fuel)
    decreases fuel, e, 1
  {
    hide Act, Agree, Rel, Contagious, EvalSeq, Rewrite, RewriteSeq, Compile, SlotCount;
    PrimParts(c, e, next);
    SimSeq(p, q, c, e.args, next, x, fuel);
    var r := EvalSeq(p, e.args, x.fr, x.env, x.s, fuel);
    if r.Vals? {
      ActLinked(p, q, e.op, r.vs, x.fr, r.s.w);
      var act := Act(p, e.op, r.vs, x.fr, r.s.w);
      if fuel > 0 {
        if act.EnterFn? && act.sym in p.defs {
          var body := p.defs[act.sym];
          var on := q.defs[act.sym] == Compile(true, body);
          SimBody(p, q, on, body, Frame(act.args, []), r.s.w, fuel - 1);
        } else if act.EnterClo? {
          SimBody(p, q, false, act.code, Frame(act.args, act.caps), r.s.w, fuel - 1);
          CompileOff(act.code);
        }
      }
    }
  }

  // ---------------------------------------------------------------- one node at a time

  lemma {:induction false} SimStore(p: Program, q: Program, c: Cfg, e: Expr, next: nat, x: Sides, fuel: nat)
    requires Ready(p, q, c, next, x) && SlotCount(e) <= c.base && e.F64LocalStore?
    ensures Simulated(p, q, c, e, next, x, fuel)
    decreases fuel, e, 1
  {
    Sim(p, q, c, e.stored, next, x, fuel);
    var o := Walk(c, e.stored, next);
    var r, r2 := Source(p, e.stored, x, fuel), Target(q, o.e, x, fuel);
    if r.flow.Val? && ToF64(p.m, r.flow.v).Some? {
      var bits := ToF64(p.m, r.flow.v).value;
      StoreBoth(c, next, r.s, r2.s, x.s2.fs, e.wslot, bits);
    }
  }

  lemma StoreBoth(c: Cfg, next: nat, s: State, s2: State, gs: Slots, slot: nat, bits: int)
    requires StateRel(c, next, s, s2, gs) && slot < c.base
    ensures StateRel(c, next, s.(fs := s.fs[slot := bits]), s2.(fs := s2.fs[slot := bits]), gs)
  {
    var fs1, fs2 := s.fs[slot := bits], s2.fs[slot := bits];
    forall k: nat | 0 <= k < c.base ensures SameAt(k, fs1, fs2) {
      assert SameAt(k, s.fs, s2.fs);
    }
    forall k: nat | c.base <= k < next ensures SameAt(k, gs, fs2) {
      assert SameAt(k, gs, s2.fs);
    }
  }

  lemma {:induction false} SimProgn(p: Program, q: Program, c: Cfg, e: Expr, next: nat, x: Sides, fuel: nat)
    requires Ready(p, q, c, next, x) && SlotCount(e) <= c.base && e.Progn?
    ensures Simulated(p, q, c, e, next, x, fuel)
    decreases fuel, e, 1
  {
    hide EvalSeq, RewriteSeq, Agree, Rel;
    SimSeq(p, q, c, e.forms, next, x, fuel);
  }

  lemma {:induction false} SimArith(p: Program, q: Program, c: Cfg, e: Expr, next: nat, x: Sides, fuel: nat)
    requires Ready(p, q, c, next, x) && SlotCount(e) <= c.base && e.Arith?
    ensures Simulated(p, q, c, e, next, x, fuel)
    decreases fuel, e, 1
  {
    Sim(p, q, c, e.lhs, next, x, fuel);
    var o := Walk(c, e.lhs, next);
    var r, r2 := Source(p, e.lhs, x, fuel), Target(q, o.e, x, fuel);
    if r.flow.Val? {
      SimThen(p, q, c, e.rhs, next, o.next, x, r.s, r2.s, fuel);
    }
  }

  lemma {:induction false} SimIf(p: Program, q: Program, c: Cfg, e: Expr, next: nat, x: Sides, fuel: nat)
    requires Ready(p, q, c, next, x) && SlotCount(e) <= c.base && e.If?
    ensures Simulated(p, q, c, e, next, x, fuel)
    decreases fuel, e, 1
  {
    Sim(p, q, c, e.cond, next, x, fuel);
    var o := Walk(c, e.cond, next);
    var r, r2 := Source(p, e.cond, x, fuel), Target(q, o.e, x, fuel);
    if r.flow.Val? {
      if r.flow.v != VNil {
        SimThen(p, q, c, e.thn, next, o.next, x, r.s, r2.s, fuel);
      } else {
        SimThen(p, q, c, e.els, next, Walk(c, e.thn, o.next).next, x, r.s, r2.s, fuel);
      }
    }
  }

  lemma {:induction false} SimSetHalf(p: Program, q: Program, c: Cfg, e: Expr, next: nat, x: Sides, fuel: nat)
    requires Ready(p, q, c, next, x) && SlotCount(e) <= c.base && e.SetHalf?
    ensures Simulated(p, q, c, e, next, x, fuel)
    decreases fuel, e, 1
  {
    Sim(p, q, c, e.target, next, x, fuel);
    var o := Walk(c, e.target, next);
    var r, r2 := Source(p, e.target, x, fuel), Target(q, o.e, x, fuel);
    if r.flow.Val? {
      SimThen(p, q, c, e.val, next, o.next, x, r.s, r2.s, fuel);
    }
  }

  lemma {:induction false} SimDynamicBind(p: Program, q: Program, c: Cfg, e: Expr, next: nat, x: Sides, fuel: nat)
    requires Ready(p, q, c, next, x) && SlotCount(e) <= c.base && e.DynamicBind?
    ensures Simulated(p, q, c, e, next, x, fuel)
    decreases fuel, e, 1
  {
    Sim(p, q, c, e.bound, next, x, fuel);
    var o := Walk(c, e.bound, next);
    var r, r2 := Source(p, e.bound, x, fuel), Target(q, o.e, x, fuel);
    if r.flow.Val? {
      var w1 := SetGlobal(r.s.w, e.dsym, Some(r.flow.v));
      SimThen(p, q, c, e.dbody, next, o.next, x, r.s.(w := w1), r2.s.(w := w1), fuel);
    }
  }

  // ---------------------------------------------------------------- loops

  lemma {:induction false} SimTailLoop(p: Program, q: Program, c: Cfg, e: Expr, next: nat, x: Sides, fuel: nat)
    requires Ready(p, q, c, next, x) && SlotCount(e) <= c.base && e.TailLoop?
    ensures Simulated(p, q, c, e, next, x, fuel)
    decreases fuel, e, 1
  {
    Sim(p, q, c, e.tbody, next, x, fuel);
    var o := Walk(c, e.tbody, next);
    var r, r2 := Source(p, e.tbody, x, fuel), Target(q, o.e, x, fuel);
    if r.flow.TailNext? && fuel > 0 {
      SimThen(p, q, c, e, next, next, x.(fr := x.fr.(args := r.flow.args)), r.s, r2.s, fuel - 1);
    }
  }

  lemma {:induction false} SimFastLoop(p: Program, q: Program, c: Cfg, e: Expr, next: nat, x: Sides, fuel: nat)
    requires Ready(p, q, c, next, x) && SlotCount(e) <= c.base && e.FastLoop?
    ensures Simulated(p, q, c, e, next, x, fuel)
    decreases fuel, e, 1
  {
    Sim(p, q, c, e.test, next, x, fuel);
    var o := Walk(c, e.test, next);
    var o2 := Walk(c, e.result, o.next);
    var r, r2 := Source(p, e.test, x, fuel), Target(q, o.e, x, fuel);
    if r.flow.Val? {
      if r.flow.v != VNil {
        SimThen(p, q, c, e.result, next, o.next, x, r.s, r2.s, fuel);
      } else {
        SimThen(p, q, c, e.fbody, next, o2.next, x, r.s, r2.s, fuel);
        var y := x.(s := r.s, s2 := r2.s);
        var b, b2 := Source(p, e.fbody, y, fuel), Target(q, Walk(c, e.fbody, o2.next).e, y, fuel);
        if b.flow.Val? && fuel > 0 {
          SimThen(p, q, c, e, next, next, x, b.s, b2.s, fuel - 1);
        }
      }
    }
  }

  lemma {:induction false} SimInlineLoop(p: Program, q: Program, c: Cfg, e: Expr, next: nat, x: Sides, fuel: nat)
    requires Ready(p, q, c, next, x) && SlotCount(e) <= c.base && e.InlineLoop?
    ensures Simulated(p, q, c, e, next, x, fuel)
    decreases fuel, e, 1
  {
    Sim(p, q, c, e.ibody, next, x, fuel);
    var o := Walk(c, e.ibody, next);
    var r, r2 := Source(p, e.ibody, x, fuel), Target(q, o.e, x, fuel);
    if r.flow.Val? && fuel > 0 {
      SimThen(p, q, c, e, next, next, x, r.s, r2.s, fuel - 1);
    }
  }

  // ---------------------------------------------------------------- let

  lemma {:induction false} SimLet(p: Program, q: Program, c: Cfg, e: Expr, next: nat, x: Sides, fuel: nat)
    requires Ready(p, q, c, next, x) && SlotCount(e) <= c.base && e.Let?
    ensures Simulated(p, q, c, e, next, x, fuel)
    decreases fuel, e, 1
  {
    SimBinds(p, q, c, e.bindings, next, x, fuel);
    var b := RewriteBinds(c.on, e.bindings, c.tenv, c.promo, next);
    var (r, env1) := EvalBinds(p, e.bindings, x.fr, x.env, x.s, fuel);
    var (r2, env2) := EvalBinds(q, b.bs, x.fr, x.env2, x.s2, fuel);
    if r.flow.Val? {
      var c1 := c.(tenv := b.tenv, promo := b.promo);
      var y := Sides(x.fr, env1, env2, r.s, r2.s);
      Sim(p, q, c1, e.body, b.next, y, fuel);
      var o := Walk(c1, e.body, b.next);
      Rebase(c, next, b.next, o.t, Source(p, e.body, y, fuel), Target(q, o.e, y, fuel), r.s, r2.s, x.s2.fs);
    }
  }

  ghost predicate BindsRel(c: Cfg, next: nat, b: BindOut, r: (Res, seq<Value>), r2: (Res, seq<Value>), gs: Slots) {
    r.0.flow.Unspec? ||
    (&& r2.0.flow == r.0.flow
     && StateRel(c, next, r.0.s, r2.0.s, gs)
     && (r.0.flow.Val? ==> LocalsRel(c.(tenv := b.tenv, promo := b.promo), b.next, r.1, r2.1, r2.0.s.fs)))
  }

  /** The stacks after a binding. */
  function Pushed(c: Cfg, o: Out, up: bool): Cfg {
    c.(tenv := c.tenv + [if up then Float else Other], promo := c.promo + [if up then Some(o.next) else None])
  }

  lemma {:induction false} SimBinds(p: Program, q: Program, c: Cfg, bs: seq<Expr>, next: nat, x: Sides, fuel: nat)
    requires Ready(p, q, c, next, x) && SlotCountSeq(bs) <= c.base
    ensures var b := RewriteBinds(c.on, bs, c.tenv, c.promo, next);
            BindsRel(c, next, b, EvalBinds(p, bs, x.fr, x.env, x.s, fuel),
                     EvalBinds(q, b.bs, x.fr, x.env2, x.s2, fuel), x.s2.fs)
    decreases fuel, bs, 0
  {
    if bs == [] {
      StateRefl(c, next, x);
    } else {
      Sim(p, q, c, bs[0], next, x, fuel);
      var o := Walk(c, bs[0], next);
      var r, r2 := Source(p, bs[0], x, fuel), Target(q, o.e, x, fuel);
      var up := c.on && o.t.Float?;
      var bs2 := RewriteBinds(c.on, bs, c.tenv, c.promo, next).bs;
      var store := if up then F64LocalStore(o.next, o.e) else o.e;
      if r.flow.Val? {
        var c1 := Pushed(c, o, up);
        var next1 := if up then o.next + 1 else o.next;
        var y := PushLocal(c, next, x, bs[0], o, up, r, r2);
        assert bs2 == [store] + RewriteBinds(c.on, bs[1..], c1.tenv, c1.promo, next1).bs;
        assert bs2[1..] == RewriteBinds(c.on, bs[1..], c1.tenv, c1.promo, next1).bs;
        SimBinds(p, q, c1, bs[1..], next1, y, fuel);
        RebaseBinds(c, c1, next, next1, RewriteBinds(c.on, bs[1..], c1.tenv, c1.promo, next1),
                    EvalBinds(p, bs[1..], y.fr, y.env, y.s, fuel), EvalBinds(q, bs2[1..], y.fr, y.env2, y.s2, fuel),
                    y.s, y.s2, x.s2.fs);
      }
    }
  }

  /** Pushing the result of a binding, promoted or not, keeps the relation. */
  lemma PushLocal(c: Cfg, next: nat, x: Sides, b: Expr, o: Out, up: bool, r: Res, r2: Res) returns (y: Sides)
    requires Rel(c, next, x) && r.flow.Val? && next <= o.next
    requires o == Walk(c, b, next)
    requires ResRel(c, next, o.t, r, r2, x.s2.fs)
    requires up == (c.on && o.t.Float?)
    ensures y == (if up then Sides(x.fr, x.env + [Bound(b, r.flow.v)], x.env2 + [VNil],
                                   r.s, r2.s.(fs := r2.s.fs[o.next := r.flow.v.bits]))
                  else Sides(x.fr, x.env + [Bound(b, r.flow.v)], x.env2 + [Bound(o.e, r.flow.v)], r.s, r2.s))
    ensures var c1 := Pushed(c, o, up);
            && Rel(c1, if up then o.next + 1 else o.next, y)
            && StateRel(c, next, y.s, y.s2, x.s2.fs)
  {
    var c1 := Pushed(c, o, up);
    var next1 := if up then o.next + 1 else o.next;
    Advance(c, next, o.next, x, r.s, r2.s);
    var v := Bound(b, r.flow.v);
    if up {
      y := Sides(x.fr, x.env + [v], x.env2 + [VNil], r.s, r2.s.(fs := r2.s.fs[o.next := r.flow.v.bits]));
    } else {
      y := Sides(x.fr, x.env + [v], x.env2 + [Bound(o.e, r.flow.v)], r.s, r2.s);
    }
    forall k: nat | k < o.next ensures SameAt(k, r2.s.fs, y.s2.fs) {}
    forall k: nat | 0 <= k < c.base ensures SameAt(k, y.s.fs, y.s2.fs) { assert SameAt(k, r.s.fs, r2.s.fs); }
    forall k: nat | c.base <= k < next ensures SameAt(k, x.s2.fs, y.s2.fs) { assert SameAt(k, x.s2.fs, r2.s.fs); }
    forall i: nat | i < |y.env| ensures LocalRel(c1, next1, i, y.env, y.env2, y.s2.fs) {
      if i < |x.env| { assert LocalRel(c, o.next, i, x.env, x.env2, r2.s.fs); }
    }
  }

  lemma RebaseBinds(c: Cfg, c1: Cfg, next: nat, next1: nat, b: BindOut, r: (Res, seq<Value>), r2: (Res, seq<Value>),
          s: State, s2: State, gs: Slots)
    requires next <= next1 && c1.base == c.base && c1.on == c.on
    requires StateRel(c, next, s, s2, gs)
    requires BindsRel(c1, next1, b, r, r2, s2.fs)
    ensures BindsRel(c, next, b, r, r2, gs)
  {
    if !r.0.flow.Unspec? {
      Rebase(c, next, next1, Other, r.0, r2.0, s, s2, gs);
      assert c1.(tenv := b.tenv, promo := b.promo) == c.(tenv := b.tenv, promo := b.promo);
    }
  }
}
