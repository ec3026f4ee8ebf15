/** What the rewritten tree looks like: slots, reads of locals, and a second run of the pass. */
module PassShape {
  import opened Wrappers
  import opened Ir
  import opened Optimize

  // ---------------------------------------------------------------- slots

  function Span(lo: nat, hi: nat): seq<nat>
    requires lo <= hi
  {
    seq(hi - lo, i requires 0 <= i < hi - lo => lo + i)
  }

  lemma SpanJoin(a: nat, b: nat, c: nat)
    requires a <= b <= c
    ensures Span(a, b) + Span(b, c) == Span(a, c)
  {}

  /** The slots at or above `base` that are stored to, in the order of the walk. */
  function Stores(e: Expr, base: nat): seq<nat>
    decreases e
  {
    match e
    case F64LocalStore(slot, v) => Stores(v, base) + if base <= slot then [slot] else []
    case FloatLit(_, _) => []
    case F64ParamRead(_) => []
    case F64LocalRead(_) => []
    case Local(_) => []
    case Prim(_, args) => StoresSeq(args, base)
    case Let(bindings, body) => StoresSeq(bindings, base) + Stores(body, base)
    case Progn(forms) => StoresSeq(forms, base)
    case Arith(_, a, b) => Stores(a, base) + Stores(b, base)
    case If(a, b, c) => Stores(a, base) + Stores(b, base) + Stores(c, base)
    case SetHalf(_, a, b) => Stores(a, base) + Stores(b, base)
    case ArgOr(_, d) => Stores(d, base)
    case Lambda(_, _, captures) => StoresSeq(captures, base)
    case DynamicBind(_, v, body) => Stores(v, base) + Stores(body, base)
    case TailLoop(_, body) => Stores(body, base)
    case SelfTailNext(args) => StoresSeq(args, base)
    case FastLoop(a, b, c) => Stores(a, base) + Stores(b, base) + Stores(c, base)
    case InlineLoop(body) => Stores(body, base)
    case LoopBreak(v) => Stores(v, base)
  }

  function StoresSeq(es: seq<Expr>, base: nat): seq<nat>
    decreases es
  {
    if es == [] then [] else Stores(es[0], base) + StoresSeq(es[1..], base)
  }

  // ---------------------------------------------------------------- reads

  /** No read of a promoted local survives, and every read of a slot handed out by the walk
      is inside the scope of the binding that stores to it. */
  predicate Clean(e: Expr, base: nat, promo: seq<Option<nat>>)
    decreases e
  {
    match e
    case Local(i) => SlotAt(promo, i).None?
    case F64LocalRead(slot) => slot < base || Some(slot) in promo
    case F64LocalStore(_, v) => Clean(v, base, promo)
    case FloatLit(_, _) => true
    case F64ParamRead(_) => true
    case Prim(_, args) => CleanSeq(args, base, promo)
    case Let(bindings, body) => CleanBinds(bindings, base, promo) && Clean(body, base, Scope(bindings, base, promo))
    case Progn(forms) => CleanSeq(forms, base, promo)
    case Arith(_, a, b) => Clean(a, base, promo) && Clean(b, base, promo)
    case If(a, b, c) => Clean(a, base, promo) && Clean(b, base, promo) && Clean(c, base, promo)
    case SetHalf(_, a, b) => Clean(a, base, promo) && Clean(b, base, promo)
    case ArgOr(_, d) => Clean(d, base, promo)
    case Lambda(_, _, captures) => CleanSeq(captures, base, promo)
    case DynamicBind(_, v, body) => Clean(v, base, promo) && Clean(body, base, promo)
    case TailLoop(_, body) => Clean(body, base, promo)
    case SelfTailNext(args) => CleanSeq(args, base, promo)
    case FastLoop(a, b, c) => Clean(a, base, promo) && Clean(b, base, promo) && Clean(c, base, promo)
    case InlineLoop(body) => Clean(body, base, promo)
    case LoopBreak(v) => Clean(v, base, promo)
  }

  predicate CleanSeq(es: seq<Expr>, base: nat, promo: seq<Option<nat>>)
    decreases es
  {
    es == [] || (Clean(es[0], base, promo) && CleanSeq(es[1..], base, promo))
  }

  /** A binding that stores to a slot of the walk is a promoted local. */
  function Pushed(b: Expr, base: nat): Option<nat> {
    if b.F64LocalStore? && base <= b.wslot then Some(b.wslot) else None
  }

  function Scope(bs: seq<Expr>, base: nat, promo: seq<Option<nat>>): seq<Option<nat>> {
    if bs == [] then promo else Scope(bs[1..], base, promo + [Pushed(bs[0], base)])
  }

  predicate CleanBinds(bs: seq<Expr>, base: nat, promo: seq<Option<nat>>)
    decreases bs
  {
    bs == [] || (Clean(bs[0], base, promo) && CleanBinds(bs[1..], base, promo + [Pushed(bs[0], base)]))
  }

  // ---------------------------------------------------------------- a second walk

  /** A stack as a second walk sees it: nothing is a float, nothing is promoted. */
  function Others(n: nat): seq<AbsType> { seq(n, _ => Other) }

  function Nones(n: nat): seq<Option<nat>> { seq(n, _ => None) }

  // ---------------------------------------------------------------- one induction for all three

  /** Of one walk: the slots it hands out are exactly the consecutive numbers from `next`, its
      reads are clean, and a second walk finds the same type and changes nothing. */
  ghost predicate Shaped(e: Expr, tenv: seq<AbsType>, promo: seq<Option<nat>>, next: nat, base: nat, next2: nat) {
    var o := Rewrite(true, e, tenv, promo, next);
    && Stores(o.e, base) == Span(next, o.next)
    && Clean(o.e, base, promo)
    && Rewrite(true, o.e, Others(|tenv|), Nones(|tenv|), next2) == Out(o.t, o.e, next2)
  }

  lemma {:induction false} WalkShape(e: Expr, tenv: seq<AbsType>, promo: seq<Option<nat>>, next: nat, base: nat,
          next2: nat)
    requires SlotCount(e) <= base <= next && Parallel(tenv, promo, next)
    ensures Shaped(e, tenv, promo, next, base, next2)
    decreases e, 1
  {
    hide StoresSeq, CleanSeq, RewriteSeq, RewriteBinds, SlotCountSeq;
    match e
    case Prim(_, args) => WalkShapeSeq(args, tenv, promo, next, base, next2);
    case FloatLit(_, _) =>
    case F64ParamRead(_) =>
    case F64LocalRead(_) =>
    case F64LocalStore(_, v) => WalkShape(v, tenv, promo, next, base, next2);
    case Local(_) =>
    case Let(_, _) => WalkShapeLet(e, tenv, promo, next, base, next2);
    case Progn(forms) => WalkShapeSeq(forms, tenv, promo, next, base, next2);
    case Arith(_, _, _) => WalkShape2(e, tenv, promo, next, base, next2);
    case If(_, _, _) => WalkShape3(e, tenv, promo, next, base, next2);
    case SetHalf(_, _, _) => WalkShape2(e, tenv, promo, next, base, next2);
    case ArgOr(_, d) => WalkShape(d, tenv, promo, next, base, next2);
    case Lambda(_, _, captures) => WalkShapeSeq(captures, tenv, promo, next, base, next2);
    case DynamicBind(_, _, _) => WalkShape2(e, tenv, promo, next, base, next2);
    case TailLoop(_, body) => WalkShape(body, tenv, promo, next, base, next2);
    case SelfTailNext(args) => WalkShapeSeq(args, tenv, promo, next, base, next2);
    case FastLoop(_, _, _) => WalkShape3(e, tenv, promo, next, base, next2);
    case InlineLoop(body) => WalkShape(body, tenv, promo, next, base, next2);
    case LoopBreak(v) => WalkShape(v, tenv, promo, next, base, next2);
  }

  lemma {:induction false} WalkShapeLet(e: Expr, tenv: seq<AbsType>, promo: seq<Option<nat>>, next: nat, base: nat,
          next2: nat)
    requires e.Let? && SlotCount(e) <= base <= next && Parallel(tenv, promo, next)
    ensures Shaped(e, tenv, promo, next, base, next2)
    decreases e, 0
  {
    WalkShapeBinds(e.bindings, tenv, promo, next, base, next2);
    var b := RewriteBinds(true, e.bindings, tenv, promo, next);
    WalkShape(e.body, b.tenv, b.promo, b.next, base, next2);
    SpanJoin(next, b.next, Rewrite(true, e.body, b.tenv, b.promo, b.next).next);
  }

  /** The nodes with two children, walked in order. */
  lemma {:induction false} WalkShape2(e: Expr, tenv: seq<AbsType>, promo: seq<Option<nat>>, next: nat, base: nat,
          next2: nat)
    requires e.Arith? || e.SetHalf? || e.DynamicBind?
    requires SlotCount(e) <= base <= next && Parallel(tenv, promo, next)
    ensures Shaped(e, tenv, promo, next, base, next2)
    decreases e, 0
  {
    var (a, b) := match e
      case Arith(_, a, b) => (a, b)
      case SetHalf(_, a, b) => (a, b)
      case DynamicBind(_, a, b) => (a, b);
    var oa := Rewrite(true, a, tenv, promo, next);
    WalkShape(a, tenv, promo, next, base, next2);
    WalkShape(b, tenv, promo, oa.next, base, next2);
    SpanJoin(next, oa.next, Rewrite(true, b, tenv, promo, oa.next).next);
  }

  /** The nodes with three children. */
  lemma {:induction false} WalkShape3(e: Expr, tenv: seq<AbsType>, promo: seq<Option<nat>>, next: nat, base: nat,
          next2: nat)
    requires e.If? || e.FastLoop?
    requires SlotCount(e) <= base <= next && Parallel(tenv, promo, next)
    ensures Shaped(e, tenv, promo, next, base, next2)
    decreases e, 0
  {
    hide StoresSeq, CleanSeq, RewriteSeq, RewriteBinds, SlotCountSeq, Parallel;
    var (a, b, c) := match e
      case If(a, b, c) => (a, b, c)
      case FastLoop(a, b, c) => (a, b, c);
    var oa := Rewrite(true, a, tenv, promo, next);
    var ob := Rewrite(true, b, tenv, promo, oa.next);
    WalkShape(a, tenv, promo, next, base, next2);
    ParallelLater(tenv, promo, next, oa.next);
    WalkShape(b, tenv, promo, oa.next, base, next2);
    ParallelLater(tenv, promo, next, ob.next);
    WalkShape(c, tenv, promo, ob.next, base, next2);
    SpanJoin(next, oa.next, ob.next);
    SpanJoin(next, ob.next, Rewrite(true, c, tenv, promo, ob.next).next);
  }

  lemma {:induction false} WalkShapeSeq(es: seq<Expr>, tenv: seq<AbsType>, promo: seq<Option<nat>>, next: nat,
          base: nat, next2: nat)
    requires SlotCountSeq(es) <= base <= next && Parallel(tenv, promo, next)
    ensures var o := RewriteSeq(true, es, tenv, promo, next);
            && StoresSeq(o.es, base) == Span(next, o.next)
            && CleanSeq(o.es, base, promo)
            && RewriteSeq(true, o.es, Others(|tenv|), Nones(|tenv|), next2) == SeqOut(o.last, o.es, next2)
    decreases es, 0
  {
    hide Stores, Clean, Rewrite, SlotCount, Parallel;
    if es != [] {
      var o := Rewrite(true, es[0], tenv, promo, next);
      var rest := RewriteSeq(true, es[1..], tenv, promo, o.next);
      WalkShape(es[0], tenv, promo, next, base, next2);
      ParallelLater(tenv, promo, next, o.next);
      WalkShapeSeq(es[1..], tenv, promo, o.next, base, next2);
      SpanJoin(next, o.next, rest.next);
      assert ([o.e] + rest.es)[1..] == rest.es;
    }
  }

  /** A binding with its slot store, if it is promoted. */
  lemma HeadShape(b: Expr, o: Out, tenv: seq<AbsType>, promo: seq<Option<nat>>, next: nat, base: nat, next2: nat)
    requires SlotCount(b) <= base <= next && o == Rewrite(true, b, tenv, promo, next)
    requires Shaped(b, tenv, promo, next, base, next2)
    ensures var head := if o.t.Float? then F64LocalStore(o.next, o.e) else o.e;
            && Stores(head, base) == Span(next, if o.t.Float? then o.next + 1 else o.next)
            && Clean(head, base, promo)
            && Pushed(head, base) == (if o.t.Float? then Some(o.next) else None)
            && Rewrite(true, head, Others(|tenv|), Nones(|tenv|), next2) == Out(Other, head, next2)
  {
    if o.t.Float? { SpanJoin(next, o.next, o.next + 1); }
  }

  lemma {:induction false} WalkShapeBinds(bs: seq<Expr>, tenv: seq<AbsType>, promo: seq<Option<nat>>, next: nat,
          base: nat, next2: nat)
    requires SlotCountSeq(bs) <= base <= next && Parallel(tenv, promo, next)
    ensures var b := RewriteBinds(true, bs, tenv, promo, next);
            && Parallel(b.tenv, b.promo, b.next)
            && StoresSeq(b.bs, base) == Span(next, b.next)
            && CleanBinds(b.bs, base, promo) && Scope(b.bs, base, promo) == b.promo
            && RewriteBinds(true, b.bs, Others(|tenv|), Nones(|tenv|), next2)
               == BindOut(b.bs, Others(|b.tenv|), Nones(|b.tenv|), next2)
    decreases bs, 0
  {
    hide Stores, Clean, Rewrite, SlotCount, Pushed;
    if bs != [] {
      var o := Rewrite(true, bs[0], tenv, promo, next);
      var up := o.t.Float?;
      var next1 := if up then o.next + 1 else o.next;
      var head := if up then F64LocalStore(o.next, o.e) else o.e;
      var tenv1, promo1 := tenv + [if up then Float else Other], promo + [if up then Some(o.next) else None];
      var rest := RewriteBinds(true, bs[1..], tenv1, promo1, next1);
      WalkShape(bs[0], tenv, promo, next, base, next2);
      HeadShape(bs[0], o, tenv, promo, next, base, next2);
      WalkShapeBinds(bs[1..], tenv1, promo1, next1, base, next2);
      SpanJoin(next, next1, rest.next);
      var out := [head] + rest.bs;
      assert RewriteBinds(true, bs, tenv, promo, next) == rest.(bs := out);
      assert out[0] == head && out[1..] == rest.bs;
      assert Others(|tenv|) + [Other] == Others(|tenv1|) && Nones(|tenv|) + [None] == Nones(|tenv1|);
    }
  }

  // ---------------------------------------------------------------- the pass on a whole body

  /** The slots promoted in a body are pairwise distinct and above every slot lowering used,
      and no read of a promoted local is left outside lambda bodies. */
  lemma InferShape(body: Expr)
    ensures var base := SlotCount(body); var out := Infer(body);
            && Clean(out, base, [])
            && (forall i, j | 0 <= i < j < |Stores(out, base)| :: Stores(out, base)[i] != Stores(out, base)[j])
            && (forall slot :: slot in Stores(out, base) ==> base <= slot)
  {
    var base := SlotCount(body);
    WalkShape(body, [], [], base, base, 0);
  }

  /** Running the pass twice is running it once. */
  lemma InferIdempotent(body: Expr)
    ensures Infer(Infer(body)) == Infer(body)
  {
    var base := SlotCount(body);
    WalkShape(body, [], [], base, base, SlotCount(Infer(body)));
    assert Others(0) == [] && Nones(0) == [];
  }
}
