/** Float-representation inference: proven-float let bindings move to unboxed f64 slots.
    The functions say what one walk computes; the class performs it on a mutable context. */
module Optimize {
  import opened Wrappers
  import opened Ir

  datatype AbsType = Float | Other

  datatype Out = Out(t: AbsType, e: Expr, next: nat)
  datatype SeqOut = SeqOut(last: AbsType, es: seq<Expr>, next: nat)
  datatype BindOut = BindOut(bs: seq<Expr>, tenv: seq<AbsType>, promo: seq<Option<nat>>, next: nat)

  function Join(a: AbsType, b: AbsType): AbsType { if a.Float? && b.Float? then Float else Other }

  function Contagion(a: AbsType, b: AbsType): AbsType { if a.Float? || b.Float? then Float else Other }

  function TypeAt(tenv: seq<AbsType>, i: nat): AbsType { if i < |tenv| then tenv[i] else Other }

  function SlotAt(promo: seq<Option<nat>>, i: nat): Option<nat> { if i < |promo| then promo[i] else None }

  /** One walk over `e`. `on` is false when inference is switched off for the function:
      then nothing is promoted. `tenv` and `promo` run in parallel with the locals. */
  function Rewrite(on: bool, e: Expr, tenv: seq<AbsType>, promo: seq<Option<nat>>, next: nat): (out: Out)
    ensures next <= out.next
    decreases e
  {
    match e
    case FloatLit(_, _) => Out(Float, e, next)
    case F64ParamRead(_) => Out(Float, e, next)
    case F64LocalRead(_) => Out(Float, e, next)
    case Local(i) =>
      (match SlotAt(promo, i)
       case Some(slot) => Out(Float, F64LocalRead(slot), next)
       case None => Out(TypeAt(tenv, i), e, next))
    case Let(bindings, body) =>
      var b := RewriteBinds(on, bindings, tenv, promo, next);
      var o := Rewrite(on, body, b.tenv, b.promo, b.next);
      Out(o.t, Let(b.bs, o.e), o.next)
    case Arith(op, l, r) =>
      var a := Rewrite(on, l, tenv, promo, next);
      var b := Rewrite(on, r, tenv, promo, a.next);
      Out(Contagion(a.t, b.t), Arith(op, a.e, b.e), b.next)
    case If(c, t, f) =>
      var oc := Rewrite(on, c, tenv, promo, next);
      var ot := Rewrite(on, t, tenv, promo, oc.next);
      var of := Rewrite(on, f, tenv, promo, ot.next);
      Out(Join(ot.t, of.t), If(oc.e, ot.e, of.e), of.next)
    case Progn(forms) =>
      var o := RewriteSeq(on, forms, tenv, promo, next);
      Out(o.last, Progn(o.es), o.next)
    case Lambda(arity, body, captures) =>
      var o := RewriteSeq(on, captures, tenv, promo, next);
      Out(Other, Lambda(arity, body, o.es), o.next)
    case F64LocalStore(slot, v) =>
      var o := Rewrite(on, v, tenv, promo, next);
      Out(Other, F64LocalStore(slot, o.e), o.next)
    case Prim(op, args) =>
      var o := RewriteSeq(on, args, tenv, promo, next);
      Out(Other, Prim(op, o.es), o.next)
    case SetHalf(half, a, b) =>
      var oa := Rewrite(on, a, tenv, promo, next);
      var ob := Rewrite(on, b, tenv, promo, oa.next);
      Out(Other, SetHalf(half, oa.e, ob.e), ob.next)
    case ArgOr(sel, d) =>
      var o := Rewrite(on, d, tenv, promo, next);
      Out(Other, ArgOr(sel, o.e), o.next)
    case DynamicBind(sym, v, body) =>
      var ov := Rewrite(on, v, tenv, promo, next);
      var ob := Rewrite(on, body, tenv, promo, ov.next);
      Out(Other, DynamicBind(sym, ov.e, ob.e), ob.next)
    case TailLoop(arity, body) =>
      var o := Rewrite(on, body, tenv, promo, next);
      Out(Other, TailLoop(arity, o.e), o.next)
    case SelfTailNext(args) =>
      var o := RewriteSeq(on, args, tenv, promo, next);
      Out(Other, SelfTailNext(o.es), o.next)
    case FastLoop(test, result, body) =>
      var ot := Rewrite(on, test, tenv, promo, next);
      var or := Rewrite(on, result, tenv, promo, ot.next);
      var ob := Rewrite(on, body, tenv, promo, or.next);
      Out(Other, FastLoop(ot.e, or.e, ob.e), ob.next)
    case InlineLoop(body) =>
      var o := Rewrite(on, body, tenv, promo, next);
      Out(Other, InlineLoop(o.e), o.next)
    case LoopBreak(v) =>
      var o := Rewrite(on, v, tenv, promo, next);
      Out(Other, LoopBreak(o.e), o.next)
  }

  function RewriteSeq(on: bool, es: seq<Expr>, tenv: seq<AbsType>, promo: seq<Option<nat>>, next: nat): (out: SeqOut)
    ensures next <= out.next && |out.es| == |es|
    decreases es
  {
    if es == [] then SeqOut(Other, [], next)
    else
      var o := Rewrite(on, es[0], tenv, promo, next);
      var rest := RewriteSeq(on, es[1..], tenv, promo, o.next);
      SeqOut(if |es| == 1 then o.t else rest.last, [o.e] + rest.es, rest.next)
  }

  /** A promoted binding becomes a store into the next free slot. */
  function RewriteBinds(on: bool, bs: seq<Expr>, tenv: seq<AbsType>, promo: seq<Option<nat>>, next: nat): (out: BindOut)
    ensures next <= out.next && |out.bs| == |bs|
    decreases bs
  {
    if bs == [] then BindOut([], tenv, promo, next)
    else
      var o := Rewrite(on, bs[0], tenv, promo, next);
      if on && o.t.Float? then
        var rest := RewriteBinds(on, bs[1..], tenv + [Float], promo + [Some(o.next)], o.next + 1);
        rest.(bs := [F64LocalStore(o.next, o.e)] + rest.bs)
      else
        var rest := RewriteBinds(on, bs[1..], tenv + [Other], promo + [None], o.next);
        rest.(bs := [o.e] + rest.bs)
  }

  function Max(a: nat, b: nat): nat { if a < b then b else a }

  /** One more than the highest f64 slot that occurs anywhere, lambda bodies included. */
  function SlotCount(e: Expr): nat
    decreases e
  {
    match e
    case F64LocalStore(slot, v) => Max(slot + 1, SlotCount(v))
    case F64LocalRead(slot) => slot + 1
    case FloatLit(_, _) => 0
    case F64ParamRead(_) => 0
    case Local(_) => 0
    case Prim(_, args) => SlotCountSeq(args)
    case Let(bindings, body) => Max(SlotCountSeq(bindings), SlotCount(body))
    case Progn(forms) => SlotCountSeq(forms)
    case Arith(_, a, b) => Max(SlotCount(a), SlotCount(b))
    case If(a, b, c) => Max(SlotCount(a), Max(SlotCount(b), SlotCount(c)))
    case SetHalf(_, a, b) => Max(SlotCount(a), SlotCount(b))
    case ArgOr(_, d) => SlotCount(d)
    case Lambda(_, body, captures) => Max(SlotCount(body), SlotCountSeq(captures))
    case DynamicBind(_, v, body) => Max(SlotCount(v), SlotCount(body))
    case TailLoop(_, body) => SlotCount(body)
    case SelfTailNext(args) => SlotCountSeq(args)
    case FastLoop(a, b, c) => Max(SlotCount(a), Max(SlotCount(b), SlotCount(c)))
    case InlineLoop(body) => SlotCount(body)
    case LoopBreak(v) => SlotCount(v)
  }

  function SlotCountSeq(es: seq<Expr>): nat
    decreases es
  {
    if es == [] then 0 else Max(SlotCount(es[0]), SlotCountSeq(es[1..]))
  }

  /** What is compiled for a function body: the inference can be switched off. */
  function Compile(on: bool, body: Expr): Expr {
    Rewrite(on, body, [], [], SlotCount(body)).e
  }

  /** The walk over a body with empty context. */
  function Infer(body: Expr): Expr { Compile(true, body) }

  /** The stacks run in parallel, a local is typed float exactly when it is promoted, and the
      slots in use are distinct and below the next free one. */
  ghost predicate Parallel(tenv: seq<AbsType>, promo: seq<Option<nat>>, next: nat) {
    && |tenv| == |promo|
    && (forall i | 0 <= i < |promo| :: tenv[i].Float? <==> promo[i].Some?)
    && (forall i | 0 <= i < |promo| :: promo[i].Some? ==> promo[i].value < next)
    && (forall i, j | 0 <= i < j < |promo| :: promo[i].Some? ==> promo[i] != promo[j])
  }

  lemma ParallelLater(tenv: seq<AbsType>, promo: seq<Option<nat>>, next: nat, next1: nat)
    requires Parallel(tenv, promo, next) && next <= next1
    ensures Parallel(tenv, promo, next1)
  {}

  /** The nodes whose type the walk looks into. */
  predicate Typed(e: Expr) {
    e.FloatLit? || e.F64ParamRead? || e.F64LocalRead? || e.Local? || e.Let? || e.Arith? || e.If? || e.Progn?
        || e.Lambda?
  }

  /** The mutable context of a walk. */
  class Ctx {
    var tenv: seq<AbsType>
    var promo: seq<Option<nat>>
    var nextSlot: nat

    ghost predicate Valid() reads this { Parallel(tenv, promo, nextSlot) }

    /** The value-level account of walking `e` from here. */
    ghost function Spec(e: Expr): Out reads this { Rewrite(true, e, tenv, promo, nextSlot) }

    ghost function SpecSeq(es: seq<Expr>): SeqOut reads this { RewriteSeq(true, es, tenv, promo, nextSlot) }

    constructor (firstSlot: nat)
      ensures Valid() && tenv == [] && promo == [] && nextSlot == firstSlot
    {
      tenv, promo, nextSlot := [], [], firstSlot;
    }

    method Walk(e: Expr) returns (t: AbsType, e2: Expr)
      requires Valid()
      modifies this
      ensures Valid() && tenv == old(tenv) && promo == old(promo)
      ensures Out(t, e2, nextSlot) == old(Spec(e))
      decreases e, 2
    {
      hide Parallel, RewriteSeq, RewriteBinds;
      match e
      case FloatLit(_, _) => t, e2 := Float, e;
      case F64ParamRead(_) => t, e2 := Float, e;
      case F64LocalRead(_) => t, e2 := Float, e;
      case Local(i) =>
        if i < |promo| && promo[i].Some? {
          t, e2 := Float, F64LocalRead(promo[i].value);
        } else {
          t, e2 := if i < |tenv| then tenv[i] else Other, e;
        }
      case Let(bindings, body) =>
        t, e2 := WalkLet(bindings, body);
      case Arith(op, l, r) =>
        var ta, a, tb, b := WalkTwo(l, r, e);
        t, e2 := if ta.Float? || tb.Float? then Float else Other, Arith(op, a, b);
      case If(c, th, el) =>
        var c2, tt, t2, te, f2 := WalkThree(c, th, el, e);
        t, e2 := if tt.Float? && te.Float? then Float else Other, If(c2, t2, f2);
      case Progn(forms) =>
        var last, out := WalkSeq(forms);
        t, e2 := last, Progn(out);
      case Lambda(arity, body, captures) =>
        var _, out := WalkSeq(captures);
        t, e2 := Other, Lambda(arity, body, out);
      case _ =>
        t := Other;
        e2 := WalkOther(e);
    }

    /** The nodes that are never proven float: their children are walked and the node is rebuilt. */
    method WalkOther(e: Expr) returns (e2: Expr)
      requires Valid() && !Typed(e)
      modifies this
      ensures Valid() && tenv == old(tenv) && promo == old(promo)
      ensures Out(Other, e2, nextSlot) == old(Spec(e))
      decreases e, 1
    {
      hide Parallel, RewriteSeq, RewriteBinds;
      match e
      case F64LocalStore(slot, v) =>
        var _, v2 := Walk(v);
        e2 := F64LocalStore(slot, v2);
      case Prim(op, args) =>
        var _, out := WalkSeq(args);
        e2 := Prim(op, out);
      case SetHalf(half, a, b) =>
        var _, a2, _, b2 := WalkTwo(a, b, e);
        e2 := SetHalf(half, a2, b2);
      case ArgOr(sel, d) =>
        var _, d2 := Walk(d);
        e2 := ArgOr(sel, d2);
      case DynamicBind(sym, v, body) =>
        var _, v2, _, b2 := WalkTwo(v, body, e);
        e2 := DynamicBind(sym, v2, b2);
      case TailLoop(arity, body) =>
        var _, b2 := Walk(body);
        e2 := TailLoop(arity, b2);
      case SelfTailNext(args) =>
        var _, out := WalkSeq(args);
        e2 := SelfTailNext(out);
      case FastLoop(test, result, body) =>
        var t2, _, r2, _, b2 := WalkThree(test, result, body, e);
        e2 := FastLoop(t2, r2, b2);
      case InlineLoop(body) =>
        var _, b2 := Walk(body);
        e2 := InlineLoop(b2);
      case LoopBreak(v) =>
        var _, v2 := Walk(v);
        e2 := LoopBreak(v2);
    }

    /** Two children of a node, in order. */
    method WalkTwo(a: Expr, b: Expr, ghost parent: Expr) returns (ta: AbsType, a2: Expr, tb: AbsType, b2: Expr)
      requires Valid() && a < parent && b < parent
      modifies this
      ensures Valid() && tenv == old(tenv) && promo == old(promo)
      ensures var oa := old(Spec(a)); var ob := Rewrite(true, b, tenv, promo, oa.next);
              ta == oa.t && a2 == oa.e && Out(tb, b2, nextSlot) == ob
      decreases parent, 0
    {
      ta, a2 := Walk(a);
      tb, b2 := Walk(b);
    }

    /** Three children of a node, in order; the type of the first does not matter. */
    method WalkThree(a: Expr, b: Expr, c: Expr, ghost parent: Expr)
      returns (a2: Expr, tb: AbsType, b2: Expr, tc: AbsType, c2: Expr)
      requires Valid() && a < parent && b < parent && c < parent
      modifies this
      ensures Valid() && tenv == old(tenv) && promo == old(promo)
      ensures var oa := old(Spec(a)); var ob := Rewrite(true, b, tenv, promo, oa.next);
              a2 == oa.e && tb == ob.t && b2 == ob.e && Out(tc, c2, nextSlot) == Rewrite(true, c, tenv, promo, ob.next)
      decreases parent, 0
    {
      var _, x := Walk(a);
      a2 := x;
      tb, b2 := Walk(b);
      tc, c2 := Walk(c);
    }

    method WalkSeq(es: seq<Expr>) returns (last: AbsType, out: seq<Expr>)
      requires Valid()
      modifies this
      ensures Valid() && tenv == old(tenv) && promo == old(promo)
      ensures SeqOut(last, out, nextSlot) == old(SpecSeq(es))
      decreases es, 0
    {
      last, out := Other, [];
      for k := 0 to |es|
        invariant Valid() && tenv == old(tenv) && promo == old(promo)
        invariant var rest := SpecSeq(es[k..]);
                  old(SpecSeq(es)) == SeqOut(if k == |es| then last else rest.last, out + rest.es, rest.next)
      {
        ghost var before := SpecSeq(es[k..]);
        ghost var sofar := out;
        assert es[k..][0] == es[k] && es[k..][1..] == es[k + 1..];
        var t, e2 := Walk(es[k]);
        last, out := t, out + [e2];
        assert sofar + before.es == out + SpecSeq(es[k + 1..]).es;
      }
    }

    /** Walks one binding and pushes its type and its slot, if it is promoted. */
    method WalkBinding(b: Expr) returns (b2: Expr)
      requires Valid()
      modifies this
      ensures Valid()
      ensures var o := old(Spec(b));
              && b2 == (if o.t.Float? then F64LocalStore(o.next, o.e) else o.e)
              && tenv == old(tenv) + [o.t]
              && promo == old(promo) + [if o.t.Float? then Some(o.next) else None]
              && nextSlot == (if o.t.Float? then o.next + 1 else o.next)
      decreases b, 3
    {
      var t;
      t, b2 := Walk(b);
      if t.Float? {
        var slot := nextSlot;
        nextSlot := nextSlot + 1;
        b2 := F64LocalStore(slot, b2);
        tenv, promo := tenv + [Float], promo + [Some(slot)];
      } else {
        tenv, promo := tenv + [t], promo + [None];
      }
    }

    /** Pushes each binding as it is walked. */
    method WalkBinds(bindings: seq<Expr>) returns (out: seq<Expr>)
      requires Valid()
      modifies this
      ensures Valid() && old(tenv) <= tenv && old(promo) <= promo && old(nextSlot) <= nextSlot
      ensures BindOut(out, tenv, promo, nextSlot) == old(RewriteBinds(true, bindings, tenv, promo, nextSlot))
      decreases bindings, 0
    {
      hide Rewrite, RewriteBinds;
      out := [];
      ghost var whole := RewriteBinds(true, bindings, tenv, promo, nextSlot);
      assert bindings[0..] == bindings;
      for k := 0 to |bindings|
        invariant Valid() && old(tenv) <= tenv && old(promo) <= promo && old(nextSlot) <= nextSlot
        invariant whole == Prepend(out, RewriteBinds(true, bindings[k..], tenv, promo, nextSlot))
      {
        BindsFrom(bindings, k, tenv, promo, nextSlot);
        ghost var sofar := out;
        var b2 := WalkBinding(bindings[k]);
        out := out + [b2];
        PrependSnoc(sofar, b2, RewriteBinds(true, bindings[k + 1..], tenv, promo, nextSlot));
      }
      assert bindings[|bindings|..] == [];
      NoBinds(out, tenv, promo, nextSlot);
    }

    /** Truncates both stacks when the scope ends. */
    method WalkLet(bindings: seq<Expr>, body: Expr) returns (t: AbsType, e2: Expr)
      requires Valid()
      modifies this
      ensures Valid() && tenv == old(tenv) && promo == old(promo)
      ensures Out(t, e2, nextSlot) == old(Spec(Let(bindings, body)))
      decreases Let(bindings, body), 0
    {
      var base := |tenv|;
      var out := WalkBinds(bindings);
      var bt, body2 := Walk(body);
      tenv, promo := tenv[..base], promo[..base];
      ParallelLater(tenv, promo, old(nextSlot), nextSlot);
      t, e2 := bt, Let(out, body2);
    }
  }

  ghost function Prepend(bs: seq<Expr>, rest: BindOut): BindOut { rest.(bs := bs + rest.bs) }

  lemma PrependSnoc(bs: seq<Expr>, b: Expr, rest: BindOut)
    ensures Prepend(bs, Prepend([b], rest)) == Prepend(bs + [b], rest)
  {
    assert bs + ([b] + rest.bs) == bs + [b] + rest.bs;
  }

  lemma NoBinds(out: seq<Expr>, tenv: seq<AbsType>, promo: seq<Option<nat>>, next: nat)
    ensures Prepend(out, RewriteBinds(true, [], tenv, promo, next)) == BindOut(out, tenv, promo, next)
  {
    assert out + [] == out;
  }

  lemma BindsFrom(bs: seq<Expr>, k: nat, tenv: seq<AbsType>, promo: seq<Option<nat>>, next: nat)
    requires k < |bs|
    ensures var o := Rewrite(true, bs[k], tenv, promo, next);
            var store := if o.t.Float? then F64LocalStore(o.next, o.e) else o.e;
            RewriteBinds(true, bs[k..], tenv, promo, next)
            == Prepend([store], RewriteBinds(true, bs[k + 1..], tenv + [o.t],
                                             promo + [if o.t.Float? then Some(o.next) else None],
                                             if o.t.Float? then o.next + 1 else o.next))
  {
    assert bs[k..][0] == bs[k] && bs[k..][1..] == bs[k + 1..];
  }

  /** The pass as it is run on a function body. */
  method InferFloatUnboxing(body: Expr) returns (out: Expr)
    ensures out == Infer(body)
  {
    var cx := new Ctx(SlotCount(body));
    var t;
    t, out := cx.Walk(body);
  }
}
