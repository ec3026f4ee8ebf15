/** What the simulation gives for whole programs, and exactly when it does. */
module PassTheorems {
  import opened Wrappers
  import opened Ir
  import opened Evaluator
  import opened Fuel
  import opened Guard
  import opened Optimize
  import opened Relation
  import opened Soundness

  function Run(m: Machine, defs: map<Sym, Expr>, body: Expr, fr: Frame, w: World, fuel: nat): Res {
    Returned(Eval(Program(m, defs), body, fr, [], State(w, map[]), fuel), map[])
  }

  /** A run of the body that ends, in some amount of fuel. */
  ghost predicate Ends(m: Machine, defs: map<Sym, Expr>, body: Expr, fr: Frame, w: World, r: Res) {
    !r.flow.OutOfFuel? && exists fuel: nat :: Run(m, defs, body, fr, w, fuel) == r
  }

  /** The source run relies on nothing that the IR leaves unspecified. */
  ghost predicate Specified(m: Machine, defs: map<Sym, Expr>, body: Expr, fr: Frame, w: World) {
    forall fuel: nat :: !Run(m, defs, body, fr, w, fuel).flow.Unspec?
  }

  /** The source run, on a machine that gives up where a float operand yields no float, gives up nowhere. */
  ghost predicate GuardHolds(m: Machine, defs: map<Sym, Expr>, body: Expr, fr: Frame, w: World, fuel: nat) {
    !Run(Guarded(m), defs, body, fr, w, fuel).flow.Unspec?
  }

  /** A guarded run is the real run. */
  lemma GuardedRun(m: Machine, defs: map<Sym, Expr>, body: Expr, fr: Frame, w: World, fuel: nat)
    ensures GuardHolds(m, defs, body, fr, w, fuel) ==>
              Run(Guarded(m), defs, body, fr, w, fuel) == Run(m, defs, body, fr, w, fuel)
    ensures Contagious(m) && !Run(m, defs, body, fr, w, fuel).flow.Unspec? ==> GuardHolds(m, defs, body, fr, w, fuel)
  {
    GuardedIs(m);
    var p, g := Program(m, defs), Program(Guarded(m), defs);
    Same(g, p, body, fr, [], State(w, map[]), fuel);
    if Contagious(m) { Same(p, g, body, fr, [], State(w, map[]), fuel); }
  }

  /** On every machine, and for every amount of fuel, the compiled program does what the source does,
      as long as no operation on a float in the source run yields something else. */
  lemma RunPreserved(m: Machine, defs: map<Sym, Expr>, defs2: map<Sym, Expr>, on: bool, body: Expr, fr: Frame,
          w: World, fuel: nat)
    requires Linked(Program(m, defs), Program(m, defs2))
    requires GuardHolds(m, defs, body, fr, w, fuel)
    ensures Run(m, defs2, Compile(on, body), fr, w, fuel) == Run(m, defs, body, fr, w, fuel)
  {
    var g := Guarded(m);
    GuardedIs(m);
    SimBody(Program(g, defs), Program(g, defs2), on, body, fr, w, fuel);
    GuardedRun(m, defs, body, fr, w, fuel);
    assert Run(g, defs2, Compile(on, body), fr, w, fuel) == Run(g, defs, body, fr, w, fuel);
    GuardedRun(m, defs2, Compile(on, body), fr, w, fuel);
  }

  /** At most one result: the evaluator is a partial function. */
  lemma EndsUnique(m: Machine, defs: map<Sym, Expr>, body: Expr, fr: Frame, w: World, r: Res, r2: Res)
    requires Ends(m, defs, body, fr, w, r) && Ends(m, defs, body, fr, w, r2)
    ensures r == r2
  {
    hide Eval;
    var f: nat :| Run(m, defs, body, fr, w, f) == r;
    var g: nat :| Run(m, defs, body, fr, w, g) == r2;
    var p, s := Program(m, defs), State(w, map[]);
    if f <= g { FuelIrrelevant(p, body, fr, [], s, f, g); } else { FuelIrrelevant(p, body, fr, [], s, g, f); }
  }

  /** On every machine the compiled program ends exactly when the source does, with the same outcome
      and the same heap, globals and multiple values; in particular it diverges when the source does. */
  lemma WholeProgramPreserved(m: Machine, defs: map<Sym, Expr>, defs2: map<Sym, Expr>, on: bool, body: Expr, fr: Frame,
          w: World, r: Res)
    requires Linked(Program(m, defs), Program(m, defs2))
    requires Specified(Guarded(m), defs, body, fr, w)
    ensures Ends(m, defs, body, fr, w, r) <==> Ends(m, defs2, Compile(on, body), fr, w, r)
  {
    forall fuel: nat
      ensures Run(m, defs2, Compile(on, body), fr, w, fuel) == Run(m, defs, body, fr, w, fuel)
    {
      assert !Run(Guarded(m), defs, body, fr, w, fuel).flow.Unspec?;
      RunPreserved(m, defs, defs2, on, body, fr, w, fuel);
    }
  }

  /** The same functions, each compiled with the inference. */
  function AllCompiled(p: Program): Program { p.(defs := map sym | sym in p.defs :: Compile(true, p.defs[sym])) }

  /** On every machine a body that the walk types as a float yields a float whenever it yields a value
      in a run that the guard lets through. */
  lemma InferredFloat(m: Machine, defs: map<Sym, Expr>, body: Expr, fr: Frame, w: World, fuel: nat)
    requires Rewrite(true, body, [], [], SlotCount(body)).t.Float?
    requires GuardHolds(m, defs, body, fr, w, fuel)
    ensures var r := Run(m, defs, body, fr, w, fuel); r.flow.Val? ==> r.flow.v.Flo?
  {
    var p, base, s := Program(Guarded(m), defs), SlotCount(body), State(w, map[]);
    var c, x := Cfg(true, base, [], []), Sides(fr, [], [], s, s);
    GuardedIs(m);
    GuardedRun(m, defs, body, fr, w, fuel);
    forall slot: nat | 0 <= slot < base ensures SameAt(slot, s.fs, s.fs) {}
    Sim(p, AllCompiled(p), c, body, base, x, fuel);
  }

  /** A mutation whose target is a promoted local never yields a value, in the source as in the
      result: the situation that the pass's debug assertion guards against is an error already. */
  lemma PromotedTargetFails(p: Program, q: Program, c: Cfg, half: Half, i: nat, val: Expr, next: nat, x: Sides,
          fuel: nat)
    requires Ready(p, q, c, next, x) && SlotAt(c.promo, i).Some?
    ensures !Source(p, SetHalf(half, Local(i), val), x, fuel).flow.Val?
    ensures !Target(q, Walk(c, SetHalf(half, Local(i), val), next).e, x, fuel).flow.Val?
  {
    assert LocalRel(c, next, i, x.env, x.env2, x.s2.fs);
    var slot, o := c.promo[i].value, Walk(c, val, next);
    assert Source(p, Local(i), x, fuel) == Res(Val(x.env[i]), x.s);
    assert Walk(c, Local(i), next) == Out(Float, F64LocalRead(slot), next);
    assert Walk(c, SetHalf(half, Local(i), val), next).e == SetHalf(half, F64LocalRead(slot), o.e);
    assert Target(q, F64LocalRead(slot), x, fuel) == Res(Val(Flo(x.s2.fs[slot])), x.s2);
  }

  // ---------------------------------------------------------------- exactly which machines

  /** The pass is harmless for one call of one body. */
  ghost predicate Harmless(m: Machine, body: Expr, fr: Frame, w: World, fuel: nat) {
    var r := Run(m, map[], body, fr, w, fuel);
    r.flow.Unspec? || Run(m, map[], Infer(body), fr, w, fuel) == r
  }

  /** In particular the pass is sound on a machine if and only if the machine's arithmetic is contagious.
      A numeric tower with complex numbers is not: a float plus a complex is a complex, and
      the promoted binding stores a float instead. */
  lemma SoundIffContagious(m: Machine)
    ensures Contagious(m) <==> forall body: Expr, fr: Frame, w: World, fuel: nat :: Harmless(m, body, fr, w, fuel)
  {
    if Contagious(m) {
      forall body: Expr, fr: Frame, w: World, fuel: nat ensures Harmless(m, body, fr, w, fuel) {
        if !Run(m, map[], body, fr, w, fuel).flow.Unspec? {
          GuardedRun(m, map[], body, fr, w, fuel);
          RunPreserved(m, map[], map[], true, body, fr, w, fuel);
        }
      }
    } else {
      var op: ArithOp, v: Value, u: Value :| (v.Flo? || u.Flo?) && m.arith(op, v, u).AVal? && !m.arith(op, v, u).v.Flo?;
      MiscompiledIff(m, op, v, u, World([], map[], []), 0);
      assert !Harmless(m, SumBody(op, v, u), Frame([v, u], []), World([], map[], []), 0);
    }
  }

  /** An expression for a given value, which may come in as a parameter. */
  function Operand(v: Value, i: nat): Expr { if v.Flo? then FloatLit(v.bits, 0) else Prim(OParam(i), []) }

  lemma OperandYields(p: Program, v: Value, i: nat, fr: Frame, env: seq<Value>, s: State, fuel: nat)
    requires i < |fr.args| && fr.args[i] == v
    ensures Eval(p, Operand(v, i), fr, env, s, fuel) == Res(Val(v), s)
  {
    assert EvalSeq(p, [], fr, env, s, fuel) == Vals([], s);
  }

  lemma OperandKept(v: Value, i: nat, next: nat)
    ensures Rewrite(true, Operand(v, i), [], [], next) == Out(if v.Flo? then Float else Other, Operand(v, i), next)
    ensures SlotCount(Operand(v, i)) == 0
  {
    assert RewriteSeq(true, [], [], [], next) == SeqOut(Other, [], next);
  }

  function Sum(op: ArithOp, v: Value, u: Value): Expr { Arith(op, Operand(v, 0), Operand(u, 1)) }

  /** A body that binds the result of one operation and reads it back. */
  function SumBody(op: ArithOp, v: Value, u: Value): Expr { Let([Sum(op, v, u)], Local(0)) }

  /** An operation with a float operand, as the walk and as the evaluator see it. */
  lemma SumYields(m: Machine, op: ArithOp, v: Value, u: Value, fr: Frame, s: State, fuel: nat)
    requires (v.Flo? || u.Flo?) && m.arith(op, v, u).AVal? && fr.args == [v, u]
    ensures Eval(Program(m, map[]), Sum(op, v, u), fr, [], s, fuel) == Res(Val(m.arith(op, v, u).v), s)
    ensures Rewrite(true, Sum(op, v, u), [], [], 0) == Out(Float, Sum(op, v, u), 0) && SlotCount(Sum(op, v, u)) == 0
  {
    hide Operand;
    OperandYields(Program(m, map[]), v, 0, fr, [], s, fuel);
    OperandYields(Program(m, map[]), u, 1, fr, [], s, fuel);
    OperandKept(v, 0, 0);
    OperandKept(u, 1, 0);
  }

  /** On any machine, for any two operands of which one is a float: the body that binds the result of
      the operation keeps its meaning if and only if that result is a float. */
  lemma MiscompiledIff(m: Machine, op: ArithOp, v: Value, u: Value, w: World, fuel: nat)
    requires (v.Flo? || u.Flo?) && m.arith(op, v, u).AVal?
    ensures Harmless(m, SumBody(op, v, u), Frame([v, u], []), w, fuel) <==> m.arith(op, v, u).v.Flo?
  {
    hide Rewrite, EvalBinds, EvalSeq, SlotCount, Sum;
    var fr, sum := Frame([v, u], []), Sum(op, v, u);
    var p, s, z := Program(m, map[]), State(w, map[]), m.arith(op, v, u).v;
    SumYields(m, op, v, u, fr, s, fuel);
    BindOne(p, sum, fr, s, fuel);
    assert !sum.F64LocalStore? by { SumIsArith(op, v, u); }
    assert Eval(p, SumBody(op, v, u), fr, [], s, fuel) == Res(Val(z), s);
    InferOne(sum);
    var store := F64LocalStore(0, sum);
    BindOne(p, store, fr, s, fuel);
    var target := Eval(p, Let([store], F64LocalRead(0)), fr, [], s, fuel);
    match ToF64(m, z)
    case None =>
      assert Eval(p, store, fr, [], s, fuel) == Res(Error, s);
      assert target == Res(Error, s);
    case Some(bits) =>
      var s1 := s.(fs := s.fs[0 := bits]);
      assert Eval(p, store, fr, [], s, fuel) == Res(Val(Flo(bits)), s1);
      assert Eval(p, F64LocalRead(0), fr, [VNil], s1, fuel) == Res(Val(Flo(bits)), s1);
      assert target == Res(Val(Flo(bits)), s1);
  }

  lemma SumIsArith(op: ArithOp, v: Value, u: Value)
    ensures Sum(op, v, u).Arith?
  {}

  lemma BindOne(p: Program, e: Expr, fr: Frame, s: State, fuel: nat)
    ensures var r := Eval(p, e, fr, [], s, fuel);
            EvalBinds(p, [e], fr, [], s, fuel) ==
            if r.flow.Val? then (Res(Val(VNil), r.s), [Bound(e, r.flow.v)]) else (r, [])
  {
    var r := Eval(p, e, fr, [], s, fuel);
    if r.flow.Val? {
      var env := [] + [Bound(e, r.flow.v)];
      assert env == [Bound(e, r.flow.v)];
      assert [e][1..] == [];
      assert EvalBinds(p, [], fr, env, r.s, fuel) == (Res(Val(VNil), r.s), env);
    }
  }

  lemma InferOne(e: Expr)
    requires SlotCount(e) == 0 && Rewrite(true, e, [], [], 0) == Out(Float, e, 0)
    ensures Infer(Let([e], Local(0))) == Let([F64LocalStore(0, e)], F64LocalRead(0))
  {
    var tenv: seq<AbsType>, promo: seq<Option<nat>> := [Float], [Some(0)];
    assert [e][1..] == [] && [] + [Float] == tenv && [] + [Some(0)] == promo;
    assert SlotCountSeq([e]) == 0;
    assert RewriteBinds(true, [], tenv, promo, 1) == BindOut([], tenv, promo, 1);
    assert RewriteBinds(true, [e], [], [], 0) == BindOut([F64LocalStore(0, e)], tenv, promo, 1);
    assert SlotAt(promo, 0) == Some(0);
    assert Rewrite(true, Local(0), tenv, promo, 1) == Out(Float, F64LocalRead(0), 1);
    assert SlotCount(Let([e], Local(0))) == 0;
  }
}
