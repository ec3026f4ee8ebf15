/** Which bindings the pass promotes, and that this and the shape of the result determine it. */
module PassPromotes {
  import opened Wrappers
  import opened Ir
  import opened Optimize
  import opened PassShape

  // ---------------------------------------------------------------- what is provably a float

  /** Provably a float, given which locals are: a float literal, an unboxed read, a local bound to a
      float, arithmetic with a float operand, a conditional with two float branches, a sequence that ends
      in a float, a let with a float body. */
  predicate ProvenFloat(e: Expr, locals: seq<bool>)
    decreases e
  {
    match e
    case FloatLit(_, _) => true
    case F64ParamRead(_) => true
    case F64LocalRead(_) => true
    case Local(i) => i < |locals| && locals[i]
    case Let(bindings, body) => ProvenFloat(body, BindLocals(bindings, locals))
    case Arith(_, a, b) => ProvenFloat(a, locals) || ProvenFloat(b, locals)
    case If(_, a, b) => ProvenFloat(a, locals) && ProvenFloat(b, locals)
    case Progn(forms) => forms != [] && ProvenFloat(forms[|forms| - 1], locals)
    case _ => false
  }

  /** Each binding sees the ones before it. */
  function BindLocals(bs: seq<Expr>, locals: seq<bool>): seq<bool>
    decreases bs
  {
    if bs == [] then locals else BindLocals(bs[1..], locals + [ProvenFloat(bs[0], locals)])
  }

  ghost predicate Typing(locals: seq<bool>, tenv: seq<AbsType>) {
    |locals| == |tenv| && forall i | 0 <= i < |locals| :: locals[i] <==> tenv[i].Float?
  }

  /** The walk types an expression float if and only if it is provably one. */
  lemma {:induction false} TypeIff(e: Expr, locals: seq<bool>, tenv: seq<AbsType>, promo: seq<Option<nat>>, next: nat)
    requires Parallel(tenv, promo, next) && Typing(locals, tenv)
    ensures Rewrite(true, e, tenv, promo, next).t.Float? <==> ProvenFloat(e, locals)
    decreases e, 1
  {
    hide Parallel, RewriteSeq, RewriteBinds;
    match e
    case Local(i) => LocalType(i, locals, tenv, promo, next);
    case Let(bindings, body) =>
      BindTypes(bindings, locals, tenv, promo, next);
      var b := RewriteBinds(true, bindings, tenv, promo, next);
      TypeIff(body, BindLocals(bindings, locals), b.tenv, b.promo, b.next);
    case Arith(_, a, b) =>
      var o := Rewrite(true, a, tenv, promo, next);
      TypeIff(a, locals, tenv, promo, next);
      ParallelLater(tenv, promo, next, o.next);
      TypeIff(b, locals, tenv, promo, o.next);
    case If(c, a, b) =>
      var oc := Rewrite(true, c, tenv, promo, next);
      var oa := Rewrite(true, a, tenv, promo, oc.next);
      ParallelLater(tenv, promo, next, oc.next);
      TypeIff(a, locals, tenv, promo, oc.next);
      ParallelLater(tenv, promo, next, oa.next);
      TypeIff(b, locals, tenv, promo, oa.next);
    case Progn(forms) => LastType(forms, locals, tenv, promo, next);
    case _ =>
  }

  lemma LocalType(i: nat, locals: seq<bool>, tenv: seq<AbsType>, promo: seq<Option<nat>>, next: nat)
    requires Parallel(tenv, promo, next) && Typing(locals, tenv)
    ensures Rewrite(true, Local(i), tenv, promo, next).t.Float? <==> i < |locals| && locals[i]
  {}

  lemma {:induction false} LastType(es: seq<Expr>, locals: seq<bool>, tenv: seq<AbsType>, promo: seq<Option<nat>>,
          next: nat)
    requires Parallel(tenv, promo, next) && Typing(locals, tenv)
    ensures RewriteSeq(true, es, tenv, promo, next).last.Float? <==> es != [] && ProvenFloat(es[|es| - 1], locals)
    decreases es, 0
  {
    hide Parallel, ProvenFloat, Rewrite;
    if es != [] {
      var o := Rewrite(true, es[0], tenv, promo, next);
      TypeIff(es[0], locals, tenv, promo, next);
      ParallelLater(tenv, promo, next, o.next);
      LastType(es[1..], locals, tenv, promo, o.next);
    }
  }

  lemma {:induction false} BindTypes(bs: seq<Expr>, locals: seq<bool>, tenv: seq<AbsType>, promo: seq<Option<nat>>,
          next: nat)
    requires Parallel(tenv, promo, next) && Typing(locals, tenv)
    ensures var b := RewriteBinds(true, bs, tenv, promo, next);
            Parallel(b.tenv, b.promo, b.next) && Typing(BindLocals(bs, locals), b.tenv)
    decreases bs, 0
  {
    hide ProvenFloat, Rewrite;
    if bs != [] {
      var o := Rewrite(true, bs[0], tenv, promo, next);
      TypeIff(bs[0], locals, tenv, promo, next);
      var up := o.t.Float?;
      BindTypes(bs[1..], locals + [ProvenFloat(bs[0], locals)], tenv + [if up then Float else Other],
                promo + [if up then Some(o.next) else None], if up then o.next + 1 else o.next);
    }
  }

  // ---------------------------------------------------------------- what the result is

  /** The parts of a node that the pass looks into, in the order of the walk; a lambda's body is not one. */
  function Children(e: Expr): (cs: seq<Expr>)
    ensures forall i | 0 <= i < |cs| :: cs[i] < e
  {
    match e
    case FloatLit(_, _) => []
    case F64ParamRead(_) => []
    case F64LocalRead(_) => []
    case Local(_) => []
    case F64LocalStore(_, v) => [v]
    case Prim(_, args) => args
    case Let(_, body) => [body]
    case Progn(forms) => forms
    case Arith(_, a, b) => [a, b]
    case If(c, a, b) => [c, a, b]
    case SetHalf(_, a, b) => [a, b]
    case ArgOr(_, d) => [d]
    case Lambda(_, _, captures) => captures
    case DynamicBind(_, v, body) => [v, body]
    case TailLoop(_, body) => [body]
    case SelfTailNext(args) => args
    case FastLoop(a, b, c) => [a, b, c]
    case InlineLoop(body) => [body]
    case LoopBreak(v) => [v]
  }

  /** The same node with other parts. */
  function WithChildren(e: Expr, cs: seq<Expr>): Expr
    requires |cs| == |Children(e)|
  {
    match e
    case FloatLit(_, _) => e
    case F64ParamRead(_) => e
    case F64LocalRead(_) => e
    case Local(_) => e
    case F64LocalStore(slot, _) => F64LocalStore(slot, cs[0])
    case Prim(op, _) => Prim(op, cs)
    case Let(bindings, _) => Let(bindings, cs[0])
    case Progn(_) => Progn(cs)
    case Arith(op, _, _) => Arith(op, cs[0], cs[1])
    case If(_, _, _) => If(cs[0], cs[1], cs[2])
    case SetHalf(half, _, _) => SetHalf(half, cs[0], cs[1])
    case ArgOr(sel, _) => ArgOr(sel, cs[0])
    case Lambda(arity, body, _) => Lambda(arity, body, cs)
    case DynamicBind(sym, _, _) => DynamicBind(sym, cs[0], cs[1])
    case TailLoop(arity, _) => TailLoop(arity, cs[0])
    case SelfTailNext(_) => SelfTailNext(cs)
    case FastLoop(_, _, _) => FastLoop(cs[0], cs[1], cs[2])
    case InlineLoop(_) => InlineLoop(cs[0])
    case LoopBreak(_) => LoopBreak(cs[0])
  }

  /** `e2` is `e` with every provably float binding, and no other, stored to a slot at or above `base`, and
      every read of such a local replaced by a read of its slot. Every other node stays as it is. */
  ghost predicate Promotes(e: Expr, e2: Expr, locals: seq<bool>, promo: seq<Option<nat>>, base: nat)
    decreases e, 1
  {
    if e.Local? then
      e2 == (match SlotAt(promo, e.i) case Some(slot) => F64LocalRead(slot) case None => e)
    else if e.Let? then
      && e2.Let? && PromotesBinds(e.bindings, e2.bindings, locals, promo, base)
      && Promotes(e.body, e2.body, BindLocals(e.bindings, locals), Scope(e2.bindings, base, promo), base)
    else
      var cs, cs2 := Children(e), Children(e2);
      && |cs2| == |cs| && e2 == WithChildren(e, cs2)
      && forall i | 0 <= i < |cs| :: Promotes(cs[i], cs2[i], locals, promo, base)
  }

  ghost predicate PromotesBinds(bs: seq<Expr>, bs2: seq<Expr>, locals: seq<bool>, promo: seq<Option<nat>>, base: nat)
    decreases bs, 0
  {
    if bs == [] then bs2 == []
    else
      && bs2 != []
      && (Pushed(bs2[0], base).Some? <==> ProvenFloat(bs[0], locals))
      && Promotes(bs[0], Unstored(bs2[0], base), locals, promo, base)
      && PromotesBinds(bs[1..], bs2[1..], locals + [ProvenFloat(bs[0], locals)], promo + [Pushed(bs2[0], base)], base)
  }

  /** The value that a binding computes. */
  function Unstored(b: Expr, base: nat): Expr { if Pushed(b, base).Some? then b.stored else b }

  // ---------------------------------------------------------------- the walk does this

  lemma SeqOne(a: Expr, tenv: seq<AbsType>, promo: seq<Option<nat>>, next: nat)
    ensures var o := Rewrite(true, a, tenv, promo, next);
            RewriteSeq(true, [a], tenv, promo, next) == SeqOut(o.t, [o.e], o.next)
  {
    hide Rewrite;
    NoParts(tenv, promo, Rewrite(true, a, tenv, promo, next).next);
    assert [a][1..] == [];
  }

  lemma SeqTwo(a: Expr, b: Expr, tenv: seq<AbsType>, promo: seq<Option<nat>>, next: nat)
    ensures var oa := Rewrite(true, a, tenv, promo, next); var ob := Rewrite(true, b, tenv, promo, oa.next);
            RewriteSeq(true, [a, b], tenv, promo, next) == SeqOut(ob.t, [oa.e, ob.e], ob.next)
  {
    hide Rewrite;
    SeqOne(b, tenv, promo, Rewrite(true, a, tenv, promo, next).next);
    assert [a, b][1..] == [b];
  }

  lemma SeqThree(a: Expr, b: Expr, c: Expr, tenv: seq<AbsType>, promo: seq<Option<nat>>, next: nat)
    ensures var oa := Rewrite(true, a, tenv, promo, next); var ob := Rewrite(true, b, tenv, promo, oa.next);
            var oc := Rewrite(true, c, tenv, promo, ob.next);
            RewriteSeq(true, [a, b, c], tenv, promo, next) == SeqOut(oc.t, [oa.e, ob.e, oc.e], oc.next)
  {
    hide Rewrite;
    var oa := Rewrite(true, a, tenv, promo, next);
    SeqTwo(b, c, tenv, promo, oa.next);
    assert [a, b, c][1..] == [b, c];
  }

  /** Every node but a read of a local and a let: its parts are walked in order, and it is rebuilt. */
  lemma NodeWalk(e: Expr, tenv: seq<AbsType>, promo: seq<Option<nat>>, next: nat)
    requires !e.Local? && !e.Let?
    ensures var o := RewriteSeq(true, Children(e), tenv, promo, next);
            var r := Rewrite(true, e, tenv, promo, next);
            r.e == WithChildren(e, o.es) && r.next == o.next && Children(r.e) == o.es
  {
    hide RewriteSeq;
    var cs := Children(e);
    if |cs| == 1 { SeqOne(cs[0], tenv, promo, next); }
    if |cs| == 2 { SeqTwo(cs[0], cs[1], tenv, promo, next); }
    if |cs| == 3 { SeqThree(cs[0], cs[1], cs[2], tenv, promo, next); }
    NoParts(tenv, promo, next);
  }

  lemma NoParts(tenv: seq<AbsType>, promo: seq<Option<nat>>, next: nat)
    ensures RewriteSeq(true, [], tenv, promo, next) == SeqOut(Other, [], next)
  {}

  lemma PartsFit(e: Expr)
    ensures SlotCountSeq(Children(e)) <= SlotCount(e)
  {
    hide SlotCountSeq;
    var cs := Children(e);
    if |cs| == 0 { CountNone(); }
    if |cs| == 1 { CountOne(cs[0]); }
    if |cs| == 2 { CountTwo(cs[0], cs[1]); }
    if |cs| == 3 { CountThree(cs[0], cs[1], cs[2]); }
  }

  lemma CountNone()
    ensures SlotCountSeq([]) == 0
  {}

  lemma CountOne(a: Expr)
    ensures SlotCountSeq([a]) == SlotCount(a)
  {
    hide SlotCount;
    CountNone();
    assert [a][1..] == [];
  }

  lemma CountTwo(a: Expr, b: Expr)
    ensures SlotCountSeq([a, b]) == Max(SlotCount(a), SlotCount(b))
  {
    hide SlotCount;
    CountOne(b);
    assert [a, b][1..] == [b];
  }

  lemma CountThree(a: Expr, b: Expr, c: Expr)
    ensures SlotCountSeq([a, b, c]) == Max(SlotCount(a), Max(SlotCount(b), SlotCount(c)))
  {
    hide SlotCount;
    CountTwo(b, c);
    assert [a, b, c][1..] == [b, c];
  }

  /** The walk promotes exactly the provably float bindings. */
  lemma {:induction false} WalkPromotes(e: Expr, locals: seq<bool>, tenv: seq<AbsType>, promo: seq<Option<nat>>,
          next: nat, base: nat)
    requires SlotCount(e) <= base <= next && Parallel(tenv, promo, next) && Typing(locals, tenv)
    ensures Promotes(e, Rewrite(true, e, tenv, promo, next).e, locals, promo, base)
    decreases e, 1
  {
    if e.Local? {
    } else if e.Let? {
      LetPromotes(e, locals, tenv, promo, next, base);
    } else {
      NodePromotes(e, locals, tenv, promo, next, base);
    }
  }

  lemma {:induction false} NodePromotes(e: Expr, locals: seq<bool>, tenv: seq<AbsType>, promo: seq<Option<nat>>,
          next: nat, base: nat)
    requires !e.Local? && !e.Let?
    requires SlotCount(e) <= base <= next && Parallel(tenv, promo, next) && Typing(locals, tenv)
    ensures Promotes(e, Rewrite(true, e, tenv, promo, next).e, locals, promo, base)
    decreases e, 0
  {
    hide Parallel, Rewrite, RewriteSeq, SlotCount, ProvenFloat, Children, WithChildren, Promotes;
    NodeWalk(e, tenv, promo, next);
    PartsFit(e);
    SeqPromotes(Children(e), e, locals, tenv, promo, next, base);
    ByParts(e, Rewrite(true, e, tenv, promo, next).e, locals, promo, base);
  }

  /** What the relation is on any other node. */
  lemma ByParts(e: Expr, e2: Expr, locals: seq<bool>, promo: seq<Option<nat>>, base: nat)
    requires !e.Local? && !e.Let?
    ensures Promotes(e, e2, locals, promo, base) <==>
            var cs, cs2 := Children(e), Children(e2);
            && |cs2| == |cs| && e2 == WithChildren(e, cs2)
            && forall i | 0 <= i < |cs| :: Promotes(cs[i], cs2[i], locals, promo, base)
  {
    hide Children, WithChildren;
  }

  lemma {:induction false} LetPromotes(e: Expr, locals: seq<bool>, tenv: seq<AbsType>, promo: seq<Option<nat>>,
          next: nat, base: nat)
    requires e.Let? && SlotCount(e) <= base <= next && Parallel(tenv, promo, next) && Typing(locals, tenv)
    ensures Promotes(e, Rewrite(true, e, tenv, promo, next).e, locals, promo, base)
    decreases e, 0
  {
    hide Parallel, RewriteBinds, ProvenFloat, PromotesBinds;
    LetFits(e.bindings, e.body);
    BindsPromote(e.bindings, locals, tenv, promo, next, base);
    BindTypes(e.bindings, locals, tenv, promo, next);
    var b := RewriteBinds(true, e.bindings, tenv, promo, next);
    WalkPromotes(e.body, BindLocals(e.bindings, locals), b.tenv, b.promo, b.next, base);
  }

  lemma LetFits(bindings: seq<Expr>, body: Expr)
    ensures SlotCountSeq(bindings) <= SlotCount(Let(bindings, body))
    ensures SlotCount(body) <= SlotCount(Let(bindings, body))
  {}

  lemma {:induction false} SeqPromotes(es: seq<Expr>, parent: Expr, locals: seq<bool>, tenv: seq<AbsType>,
          promo: seq<Option<nat>>, next: nat, base: nat)
    requires forall i | 0 <= i < |es| :: es[i] < parent
    requires SlotCountSeq(es) <= base <= next && Parallel(tenv, promo, next) && Typing(locals, tenv)
    ensures var os := RewriteSeq(true, es, tenv, promo, next).es;
            |os| == |es| && forall i | 0 <= i < |es| :: Promotes(es[i], os[i], locals, promo, base)
    decreases parent, 0, |es|
  {
    hide Parallel, Rewrite, SlotCount, ProvenFloat, Promotes;
    if es != [] {
      var o := Rewrite(true, es[0], tenv, promo, next);
      WalkPromotes(es[0], locals, tenv, promo, next, base);
      ParallelLater(tenv, promo, next, o.next);
      SeqPromotes(es[1..], parent, locals, tenv, promo, o.next, base);
      var os, more := RewriteSeq(true, es, tenv, promo, next).es, RewriteSeq(true, es[1..], tenv, promo, o.next).es;
      forall i | 0 <= i < |es| ensures Promotes(es[i], os[i], locals, promo, base) {
        if i > 0 { assert es[i] == es[1..][i - 1] && os[i] == more[i - 1]; }
      }
    }
  }

  lemma {:induction false} BindsPromote(bs: seq<Expr>, locals: seq<bool>, tenv: seq<AbsType>, promo: seq<Option<nat>>,
          next: nat, base: nat)
    requires SlotCountSeq(bs) <= base <= next && Parallel(tenv, promo, next) && Typing(locals, tenv)
    ensures var b := RewriteBinds(true, bs, tenv, promo, next);
            PromotesBinds(bs, b.bs, locals, promo, base) && Scope(b.bs, base, promo) == b.promo
    decreases bs, 0
  {
    hide Rewrite, SlotCount, ProvenFloat, Promotes;
    if bs != [] {
      var o := Rewrite(true, bs[0], tenv, promo, next);
      TypeIff(bs[0], locals, tenv, promo, next);
      WalkPromotes(bs[0], locals, tenv, promo, next, base);
      var up := o.t.Float?;
      var tenv1, promo1 := tenv + [if up then Float else Other], promo + [if up then Some(o.next) else None];
      var next1 := if up then o.next + 1 else o.next;
      var head := if up then F64LocalStore(o.next, o.e) else o.e;
      HeadPushed(bs[0], o, tenv, promo, next, base);
      BindsPromote(bs[1..], locals + [ProvenFloat(bs[0], locals)], tenv1, promo1, next1, base);
      var rest := RewriteBinds(true, bs[1..], tenv1, promo1, next1);
      assert RewriteBinds(true, bs, tenv, promo, next) == rest.(bs := [head] + rest.bs);
      assert ([head] + rest.bs)[1..] == rest.bs;
    }
  }

  lemma HeadPushed(b: Expr, o: Out, tenv: seq<AbsType>, promo: seq<Option<nat>>, next: nat, base: nat)
    requires SlotCount(b) <= base <= next && o == Rewrite(true, b, tenv, promo, next)
    ensures var head := if o.t.Float? then F64LocalStore(o.next, o.e) else o.e;
            Pushed(head, base) == (if o.t.Float? then Some(o.next) else None) && Unstored(head, base) == o.e
  {
    if !o.t.Float? && o.e.F64LocalStore? { assert b.F64LocalStore?; }
  }

  // ---------------------------------------------------------------- nothing else does this

  /** Consecutive numbers, cut in two. */
  lemma SpanCut(a: seq<nat>, b: seq<nat>, lo: nat, hi: nat)
    requires lo <= hi && a + b == Span(lo, hi)
    ensures lo + |a| <= hi && a == Span(lo, lo + |a|) && b == Span(lo + |a|, hi)
  {
    assert |a + b| == hi - lo;
    forall i | 0 <= i < |a| ensures a[i] == lo + i { assert (a + b)[i] == a[i]; }
    forall i | 0 <= i < |b| ensures b[i] == lo + |a| + i { assert (a + b)[|a| + i] == b[i]; }
  }

  /** The stores to slots of the walk stand in the parts of a node, in order. */
  lemma StoresParts(e: Expr, base: nat)
    requires !e.Let? && (e.F64LocalStore? ==> e.wslot < base)
    ensures Stores(e, base) == StoresSeq(Children(e), base)
  {
    hide StoresSeq;
    var cs := Children(e);
    if |cs| == 0 { StoresNone(base); }
    if |cs| == 1 { StoresOne(cs[0], base); }
    if |cs| == 2 { StoresTwo(cs[0], cs[1], base); }
    if |cs| == 3 { StoresTwo(cs[1], cs[2], base); StoresFirst(cs, base); }
  }

  lemma StoresNone(base: nat)
    ensures StoresSeq([], base) == []
  {}

  lemma StoresFirst(es: seq<Expr>, base: nat)
    requires es != []
    ensures StoresSeq(es, base) == Stores(es[0], base) + StoresSeq(es[1..], base)
  {}

  lemma StoresOne(a: Expr, base: nat)
    ensures StoresSeq([a], base) == Stores(a, base)
  {
    hide Stores, StoresSeq;
    StoresNone(base);
    StoresFirst([a], base);
    assert [a][1..] == [];
  }

  lemma StoresTwo(a: Expr, b: Expr, base: nat)
    ensures StoresSeq([a, b], base) == Stores(a, base) + Stores(b, base)
  {
    hide Stores, StoresSeq;
    StoresOne(b, base);
    StoresFirst([a, b], base);
    assert [a, b][1..] == [b];
  }

  /** Two results that promote the same bindings and number their slots consecutively are the same. */
  lemma {:induction false} Unique(e: Expr, x: Expr, y: Expr, locals: seq<bool>, promo: seq<Option<nat>>, base: nat,
          lo: nat, hi: nat, hi2: nat)
    requires SlotCount(e) <= base && lo <= hi && lo <= hi2
    requires Promotes(e, x, locals, promo, base) && Stores(x, base) == Span(lo, hi)
    requires Promotes(e, y, locals, promo, base) && Stores(y, base) == Span(lo, hi2)
    ensures x == y
    decreases e, 1
  {
    if e.Local? {
    } else if e.Let? {
      UniqueLet(e, x, y, locals, promo, base, lo, hi, hi2);
    } else {
      hide SlotCount, Promotes, Stores, Children, WithChildren;
      ByParts(e, x, locals, promo, base);
      ByParts(e, y, locals, promo, base);
      PartsFit(e);
      StoreKept(e, x, base);
      StoreKept(e, y, base);
      StoresParts(x, base);
      StoresParts(y, base);
      UniqueSeq(Children(e), Children(x), Children(y), e, locals, promo, base, lo, hi, hi2);
    }
  }

  lemma StoreKept(e: Expr, x: Expr, base: nat)
    requires !e.Local? && !e.Let? && SlotCount(e) <= base
    requires |Children(x)| == |Children(e)| && x == WithChildren(e, Children(x))
    ensures !x.Let? && (x.F64LocalStore? ==> x.wslot < base)
  {}

  lemma {:induction false} UniqueSeq(es: seq<Expr>, xs: seq<Expr>, ys: seq<Expr>, parent: Expr, locals: seq<bool>,
          promo: seq<Option<nat>>, base: nat, lo: nat, hi: nat, hi2: nat)
    requires forall i | 0 <= i < |es| :: es[i] < parent
    requires SlotCountSeq(es) <= base && lo <= hi && lo <= hi2 && |es| == |xs| == |ys|
    requires forall i | 0 <= i < |es| :: Promotes(es[i], xs[i], locals, promo, base)
    requires forall i | 0 <= i < |es| :: Promotes(es[i], ys[i], locals, promo, base)
    requires StoresSeq(xs, base) == Span(lo, hi) && StoresSeq(ys, base) == Span(lo, hi2)
    ensures xs == ys
    decreases parent, 0, |es|
  {
    hide SlotCount, Promotes, Stores;
    if es != [] {
      var a, b := Stores(xs[0], base), Stores(ys[0], base);
      SpanCut(a, StoresSeq(xs[1..], base), lo, hi);
      SpanCut(b, StoresSeq(ys[1..], base), lo, hi2);
      Unique(es[0], xs[0], ys[0], locals, promo, base, lo, lo + |a|, lo + |b|);
      UniqueSeq(es[1..], xs[1..], ys[1..], parent, locals, promo, base, lo + |a|, hi, hi2);
      assert xs == [xs[0]] + xs[1..] && ys == [ys[0]] + ys[1..];
    }
  }

  lemma {:induction false} UniqueLet(e: Expr, x: Expr, y: Expr, locals: seq<bool>, promo: seq<Option<nat>>, base: nat,
          lo: nat, hi: nat, hi2: nat)
    requires e.Let? && SlotCount(e) <= base && lo <= hi && lo <= hi2
    requires Promotes(e, x, locals, promo, base) && Stores(x, base) == Span(lo, hi)
    requires Promotes(e, y, locals, promo, base) && Stores(y, base) == Span(lo, hi2)
    ensures x == y
    decreases e, 0
  {
    hide PromotesBinds, StoresSeq, SlotCountSeq, BindLocals, Scope;
    LetFits(e.bindings, e.body);
    var a, b := StoresSeq(x.bindings, base), StoresSeq(y.bindings, base);
    SpanCut(a, Stores(x.body, base), lo, hi);
    SpanCut(b, Stores(y.body, base), lo, hi2);
    UniqueBinds(e.bindings, x.bindings, y.bindings, locals, promo, base, lo, lo + |a|, lo + |b|);
    Unique(e.body, x.body, y.body, BindLocals(e.bindings, locals), Scope(x.bindings, base, promo), base, lo + |a|, hi,
           hi2);
  }

  /** A binding's own store comes after those inside it. */
  lemma BindingStores(b: Expr, base: nat)
    ensures Stores(b, base) == Stores(Unstored(b, base), base)
                + match Pushed(b, base) case Some(slot) => [slot] case None => []
  {}

  lemma {:induction false} UniqueBinds(bs: seq<Expr>, xs: seq<Expr>, ys: seq<Expr>, locals: seq<bool>,
          promo: seq<Option<nat>>, base: nat, lo: nat, hi: nat, hi2: nat)
    requires SlotCountSeq(bs) <= base && lo <= hi && lo <= hi2
    requires PromotesBinds(bs, xs, locals, promo, base) && StoresSeq(xs, base) == Span(lo, hi)
    requires PromotesBinds(bs, ys, locals, promo, base) && StoresSeq(ys, base) == Span(lo, hi2)
    ensures xs == ys
    decreases bs, 0
  {
    hide SlotCount, Promotes, Stores, ProvenFloat;
    if bs != [] {
      UniqueBinding(bs[0], xs, ys, locals, promo, base, lo, hi, hi2);
      var a := Stores(xs[0], base);
      SpanCut(a, StoresSeq(xs[1..], base), lo, hi);
      SpanCut(a, StoresSeq(ys[1..], base), lo, hi2);
      UniqueBinds(bs[1..], xs[1..], ys[1..], locals + [ProvenFloat(bs[0], locals)], promo + [Pushed(xs[0], base)], base,
                  lo + |a|, hi, hi2);
      assert xs == [xs[0]] + xs[1..] && ys == [ys[0]] + ys[1..];
    }
  }

  lemma {:induction false} UniqueBinding(b: Expr, xs: seq<Expr>, ys: seq<Expr>, locals: seq<bool>,
          promo: seq<Option<nat>>, base: nat, lo: nat, hi: nat, hi2: nat)
    requires SlotCount(b) <= base && lo <= hi && lo <= hi2 && xs != [] && ys != []
    requires Pushed(xs[0], base).Some? <==> Pushed(ys[0], base).Some?
    requires Promotes(b, Unstored(xs[0], base), locals, promo, base) && StoresSeq(xs, base) == Span(lo, hi)
    requires Promotes(b, Unstored(ys[0], base), locals, promo, base) && StoresSeq(ys, base) == Span(lo, hi2)
    ensures xs[0] == ys[0]
    decreases b, 2
  {
    hide SlotCount, Promotes, Stores, StoresSeq;
    var x, y := xs[0], ys[0];
    var c, d := Unstored(x, base), Unstored(y, base);
    StoresFirst(xs, base);
    StoresFirst(ys, base);
    SpanCut(Stores(x, base), StoresSeq(xs[1..], base), lo, hi);
    SpanCut(Stores(y, base), StoresSeq(ys[1..], base), lo, hi2);
    BindingStores(x, base);
    BindingStores(y, base);
    var p := match Pushed(x, base) case Some(slot) => [slot] case None => [];
    var q := match Pushed(y, base) case Some(slot) => [slot] case None => [];
    SpanCut(Stores(c, base), p, lo, lo + |Stores(x, base)|);
    SpanCut(Stores(d, base), q, lo, lo + |Stores(y, base)|);
    Unique(b, c, d, locals, promo, base, lo, lo + |Stores(c, base)|, lo + |Stores(d, base)|);
    if Pushed(x, base).Some? { assert p[0] == q[0]; }
  }

  // ---------------------------------------------------------------- the pass on a whole body

  /** The slots stored to are numbered consecutively from `base`, in the order of the walk. */
  predicate Numbered(e: Expr, base: nat) { Stores(e, base) == Span(base, base + |Stores(e, base)|) }

  lemma InferPromotes(body: Expr)
    ensures var base := SlotCount(body); Promotes(body, Infer(body), [], [], base) && Numbered(Infer(body), base)
  {
    hide Rewrite, SlotCount, Promotes, Stores, Clean;
    var base := SlotCount(body);
    WalkPromotes(body, [], [], [], base, base);
    WalkShape(body, [], [], base, base, 0);
    assert |Span(base, Rewrite(true, body, [], [], base).next)| == Rewrite(true, body, [], [], base).next - base;
  }

  /** The pass stores exactly the provably float bindings to slots, numbered consecutively from the first that
      lowering did not use, reads those locals from their slots, and leaves everything else as it is; and this
      determines its result. */
  lemma InferIff(body: Expr, out: Expr)
    ensures out == Infer(body) <==> Promotes(body, out, [], [], SlotCount(body)) && Numbered(out, SlotCount(body))
  {
    hide Infer, SlotCount, Promotes, Stores;
    InferPromotes(body);
    var base, x := SlotCount(body), Infer(body);
    if Promotes(body, out, [], [], base) && Numbered(out, base) {
      Unique(body, out, x, [], [], base, base, base + |Stores(out, base)|, base + |Stores(x, base)|);
    }
  }

  // ---------------------------------------------------------------- the first free slot

  /** The slot that a node itself reads or stores to. */
  function OwnSlot(e: Expr): Option<nat> {
    match e
    case F64LocalStore(slot, _) => Some(slot)
    case F64LocalRead(slot) => Some(slot)
    case _ => None
  }

  /** All the parts of a node, bindings and lambda bodies included. */
  function Parts(e: Expr): (ps: seq<Expr>)
    ensures forall i | 0 <= i < |ps| :: ps[i] < e
  {
    match e
    case Let(bindings, body) => bindings + [body]
    case Lambda(_, body, captures) => captures + [body]
    case _ => Children(e)
  }

  /** A slot occurs somewhere in an expression. */
  ghost predicate Occurs(slot: nat, e: Expr)
    decreases e
  {
    OwnSlot(e) == Some(slot) || exists i :: 0 <= i < |Parts(e)| && Occurs(slot, Parts(e)[i])
  }

  lemma {:induction false} CountAppend(es: seq<Expr>, e: Expr)
    ensures SlotCountSeq(es + [e]) == Max(SlotCountSeq(es), SlotCount(e))
  {
    hide SlotCount;
    if es == [] {
      CountNone();
      CountOne(e);
      assert es + [e] == [e];
    } else {
      assert (es + [e])[0] == es[0] && (es + [e])[1..] == es[1..] + [e];
      CountAppend(es[1..], e);
    }
  }

  lemma CountParts(e: Expr)
    ensures SlotCount(e) == Max(SlotCountSeq(Parts(e)), match OwnSlot(e) case Some(slot) => slot + 1 case None => 0)
  {
    hide SlotCountSeq;
    if e.Let? {
      CountAppend(e.bindings, e.body);
    } else if e.Lambda? {
      CountAppend(e.captures, e.lbody);
    } else {
      var cs := Children(e);
      if |cs| == 0 { CountNone(); }
      if |cs| == 1 { CountOne(cs[0]); }
      if |cs| == 2 { CountTwo(cs[0], cs[1]); }
      if |cs| == 3 { CountThree(cs[0], cs[1], cs[2]); }
    }
  }

  /** The first free slot is one above the highest that occurs anywhere, and zero if none does. */
  lemma {:induction false} SlotCountIs(e: Expr)
    ensures forall slot: nat :: Occurs(slot, e) ==> slot < SlotCount(e)
    ensures SlotCount(e) > 0 ==> Occurs(SlotCount(e) - 1, e)
    decreases e, 1
  {
    hide SlotCount, Parts;
    CountParts(e);
    SeqCountIs(Parts(e), e);
  }

  lemma {:induction false} SeqCountIs(es: seq<Expr>, parent: Expr)
    requires forall i | 0 <= i < |es| :: es[i] < parent
    ensures forall slot: nat, i | 0 <= i < |es| && Occurs(slot, es[i]) :: slot < SlotCountSeq(es)
    ensures SlotCountSeq(es) > 0 ==> exists i :: 0 <= i < |es| && Occurs(SlotCountSeq(es) - 1, es[i])
    decreases parent, 0, |es|
  {
    hide SlotCount, Occurs;
    if es != [] {
      var rest := es[1..];
      SlotCountIs(es[0]);
      SeqCountIs(rest, parent);
      forall slot: nat, i | 0 <= i < |es| && Occurs(slot, es[i]) ensures slot < SlotCountSeq(es) {
        if i > 0 { assert es[i] == rest[i - 1]; }
      }
      if SlotCountSeq(rest) > SlotCount(es[0]) {
        var i :| 0 <= i < |rest| && Occurs(SlotCountSeq(rest) - 1, rest[i]);
        assert es[i + 1] == rest[i];
      }
    }
  }
}
