/** A fuel-indexed evaluator for the IR: the documented meaning of each node. */
module Evaluator {
  import opened Wrappers
  import opened Ir

  datatype ArithResult = AVal(v: Value) | AError | AUnspec

  /** What the IR comments leave to the runtime. */
  datatype Machine = Machine(
    arith: (ArithOp, Value, Value) -> ArithResult,
    coerce: Value -> Option<int>,
    builtin: (PrimOp, seq<Value>, World) -> (ArithResult, World))

  /** A machine and the bodies of the functions named by symbols. */
  datatype Program = Program(m: Machine, defs: map<Sym, Expr>)

  /** How the evaluation of a node ends. */
  datatype Flow = Val(v: Value) | Break(v: Value) | TailNext(args: seq<Value>)
                | Error | Unspec | OutOfFuel

  type Slots = map<nat, int>

  datatype State = State(w: World, fs: Slots)

  datatype Res = Res(flow: Flow, s: State)
  datatype SeqRes = Vals(vs: seq<Value>, s: State) | Stop(r: Res)

  /** The arguments and the closure environment of the running function. */
  datatype Frame = Frame(args: seq<Value>, caps: seq<Value>)

  datatype Step = Done(flow: Flow, w: World)
                | EnterFn(sym: Sym, args: seq<Value>)
                | EnterClo(code: Expr, caps: seq<Value>, args: seq<Value>)

  function Bool(b: bool): Value { if b then VT else VNil }

  /** Values represented by a heap box, whose identity is not modelled. */
  predicate Boxed(v: Value) { v.Flo? || v.Num? || v.Clo? }

  function KeyScan(args: seq<Value>, i: nat, kw: Sym): Option<Value>
    decreases |args| - i
  {
    if i + 1 >= |args| then None
    else if args[i] == Atom(kw) then Some(args[i + 1])
    else KeyScan(args, i + 2, kw)
  }

  function Lookup(sel: ArgSel, args: seq<Value>): Option<Value> {
    match sel
    case OptArg(idx) => if idx < |args| then Some(args[idx]) else None
    case KeyArg(kw, start) => KeyScan(args, start, kw)
  }

  /** Allocates the list of the given values, last cell first. */
  function AllocList(heap: seq<(Value, Value)>, vs: seq<Value>): (Value, seq<(Value, Value)>) {
    if vs == [] then (VNil, heap)
    else
      var (tail, heap1) := AllocList(heap, vs[1..]);
      (ConsAt(|heap1|), heap1 + [(vs[0], tail)])
  }

  /** The elements of a proper list of at most n cells. */
  function ListOf(heap: seq<(Value, Value)>, v: Value, n: nat): Option<seq<Value>>
    decreases n
  {
    if v == VNil then Some([])
    else if n == 0 || !v.ConsAt? || v.addr >= |heap| then None
    else match ListOf(heap, heap[v.addr].1, n - 1)
      case None => None
      case Some(rest) => Some([heap[v.addr].0] + rest)
  }

  /** Calling a function value. */
  function CallValue(p: Program, op: PrimOp, f: Value, args: seq<Value>, w: World): Step {
    match f
    case Clo(_, code, caps) => EnterClo(code, caps, args)
    case Fn(sym) => if sym in p.defs then EnterFn(sym, args) else Builtin(p, OCall(sym), args, w)
    case _ => Builtin(p, op, [f] + args, w)
  }

  function Builtin(p: Program, op: PrimOp, vs: seq<Value>, w: World): Step {
    var (r, w1) := p.m.builtin(op, vs, w);
    match r
    case AVal(v) => Done(Val(v), w1)
    case AError => Done(Error, w1)
    case AUnspec => Done(Unspec, w1)
  }

  /** The action of a primitive node on its operand values. A node with the wrong number
      of operands does not compile; its meaning is unspecified. */
  function Act(p: Program, op: PrimOp, vs: seq<Value>, fr: Frame, w: World): Step {
    match op
    case OConst(n) => Done(Val(Fix(n)), w)
    case OWord(x) => Done(Val(Atom(x)), w)
    case ONil => Done(Val(VNil), w)
    case OTrue => Done(Val(VT), w)
    case OParam(i) => Done(if i < |fr.args| then Val(fr.args[i]) else Unspec, w)
    case OBindRest(start) =>
      var (l, heap) := AllocList(w.heap, if start <= |fr.args| then fr.args[start..] else []);
      Done(Val(l), w.(heap := heap))
    case OOptSuppliedP(idx) => Done(Val(Bool(idx < |fr.args|)), w)
    case OKeySuppliedP(kw, start) => Done(Val(Bool(KeyScan(fr.args, start, kw).Some?)), w)
    case OLoadGlobal(sym) => Done(if sym in w.globals then Val(w.globals[sym]) else Error, w)
    case OClosureRef(c) => Done(if c < |fr.caps| then Val(fr.caps[c]) else Unspec, w)
    case OLoadFunction(sym) => Done(Val(Fn(sym)), w)
    case OValues => Done(Val(if vs == [] then VNil else vs[0]), w.(mv := vs))
    case OEnsureSingleMv => if |vs| == 1 then Done(Val(vs[0]), w.(mv := vs)) else Done(Unspec, w)
    case OCons =>
      if |vs| == 2 then Done(Val(ConsAt(|w.heap|)), w.(heap := w.heap + [(vs[0], vs[1])])) else Done(Unspec, w)
    case OGet(half) =>
      if |vs| != 1 then Done(Unspec, w)
      else if vs[0] == VNil then Done(Val(VNil), w)
      else if vs[0].ConsAt? && vs[0].addr < |w.heap| then
        Done(Val(if half.Car? then w.heap[vs[0].addr].0 else w.heap[vs[0].addr].1), w)
      else Done(Error, w)
    case OEq =>
      if |vs| != 2 || (Boxed(vs[0]) && Boxed(vs[1])) then Done(Unspec, w)
      else Done(Val(Bool(vs[0] == vs[1])), w)
    case OIsNull => if |vs| == 1 then Done(Val(Bool(vs[0] == VNil)), w) else Done(Unspec, w)
    case OIsCons => if |vs| == 1 then Done(Val(Bool(vs[0].ConsAt?)), w) else Done(Unspec, w)
    case OStoreGlobal(sym) =>
      if |vs| == 1 then Done(Val(vs[0]), w.(globals := w.globals[sym := vs[0]])) else Done(Unspec, w)
    case OTheFloat => if |vs| == 1 then Done(Val(vs[0]), w) else Done(Unspec, w)
    case OCall(sym) => if sym in p.defs then EnterFn(sym, vs) else Builtin(p, op, vs, w)
    case OFuncall => if vs == [] then Done(Unspec, w) else CallValue(p, OFuncall, vs[0], vs[1..], w)
    case OApply =>
      if |vs| < 2 then Done(Unspec, w)
      else (match ListOf(w.heap, vs[|vs| - 1], |w.heap|)
            case None => Done(Error, w)
            case Some(rest) => CallValue(p, OApply, vs[0], vs[1..|vs| - 1] + rest, w))
    case _ => Builtin(p, op, vs, w)
  }

  /** A float is stored as it is; any other value goes through the machine's checked coercion. */
  function ToF64(m: Machine, v: Value): Option<int> {
    if v.Flo? then Some(v.bits) else m.coerce(v)
  }

  /** A break or a continuation that leaves a function body has no loop to go to. */
  function Returned(r: Res, fs: Slots): Res {
    Res(if r.flow.Break? || r.flow.TailNext? then Unspec else r.flow, State(r.s.w, fs))
  }

  function SetGlobal(w: World, sym: Sym, prev: Option<Value>): World {
    w.(globals := match prev case Some(v) => w.globals[sym := v] case None => w.globals - {sym})
  }

  function OldGlobal(w: World, sym: Sym): Option<Value> {
    if sym in w.globals then Some(w.globals[sym]) else None
  }

  function SetCell(w: World, half: Half, target: Value, v: Value): (Flow, World) {
    if target.ConsAt? && target.addr < |w.heap| then
      var c := w.heap[target.addr];
      (Val(v), w.(heap := w.heap[target.addr := if half.Car? then (v, c.1) else (c.0, v)]))
    else (Error, w)
  }

  function Eval(p: Program, e: Expr, fr: Frame, env: seq<Value>, s: State, fuel: nat): Res
    decreases fuel, e
  {
    match e
    case Prim(op, args) =>
      (match EvalSeq(p, args, fr, env, s, fuel)
       case Stop(r) => r
       case Vals(vs, s1) =>
         match Act(p, op, vs, fr, s1.w)
         case Done(flow, w) => Res(flow, State(w, s1.fs))
         case EnterFn(sym, actuals) =>
           if fuel == 0 then Res(OutOfFuel, s1)
           else if sym !in p.defs then Res(Unspec, s1)
           else Returned(Eval(p, p.defs[sym], Frame(actuals, []), [], State(s1.w, map[]), fuel - 1), s1.fs)
         case EnterClo(code, caps, actuals) =>
           if fuel == 0 then Res(OutOfFuel, s1)
           else Returned(Eval(p, code, Frame(actuals, caps), [], State(s1.w, map[]), fuel - 1), s1.fs))
    case FloatLit(bits, _) => Res(Val(Flo(bits)), s)
    case F64ParamRead(i) =>
      Res(if i < |fr.args| && fr.args[i].Flo? then Val(fr.args[i]) else Unspec, s)
    case F64LocalRead(slot) => Res(if slot in s.fs then Val(Flo(s.fs[slot])) else Unspec, s)
    case F64LocalStore(slot, value) =>
      var r := Eval(p, value, fr, env, s, fuel);
      if !r.flow.Val? then r
      else (match ToF64(p.m, r.flow.v)
            case None => Res(Error, r.s)
            case Some(bits) => Res(Val(Flo(bits)), r.s.(fs := r.s.fs[slot := bits])))
    case Local(i) => Res(if i < |env| then Val(env[i]) else Unspec, s)
    case Let(bindings, body) =>
      var (b, env1) := EvalBinds(p, bindings, fr, env, s, fuel);
      if !b.flow.Val? then b else Eval(p, body, fr, env1, b.s, fuel)
    case Progn(forms) =>
      (match EvalSeq(p, forms, fr, env, s, fuel)
       case Stop(r) => r
       case Vals(vs, s1) => Res(Val(if vs == [] then VNil else vs[|vs| - 1]), s1))
    case Arith(op, a, b) =>
      var ra := Eval(p, a, fr, env, s, fuel);
      if !ra.flow.Val? then ra
      else
        var rb := Eval(p, b, fr, env, ra.s, fuel);
        if !rb.flow.Val? then rb
        else Res(match p.m.arith(op, ra.flow.v, rb.flow.v)
                 case AVal(v) => Val(v)
                 case AError => Error
                 case AUnspec => Unspec, rb.s)
    case If(c, t, f) =>
      var r := Eval(p, c, fr, env, s, fuel);
      if !r.flow.Val? then r
      else if r.flow.v != VNil then Eval(p, t, fr, env, r.s, fuel)
      else Eval(p, f, fr, env, r.s, fuel)
    case SetHalf(half, target, val) =>
      var rt := Eval(p, target, fr, env, s, fuel);
      if !rt.flow.Val? then rt
      else
        var rv := Eval(p, val, fr, env, rt.s, fuel);
        if !rv.flow.Val? then rv
        else
          var (flow, w) := SetCell(rv.s.w, half, rt.flow.v, rv.flow.v);
          Res(flow, rv.s.(w := w))
    case ArgOr(sel, default) =>
      (match Lookup(sel, fr.args)
       case Some(v) => Res(Val(v), s)
       case None => Eval(p, default, fr, env, s, fuel))
    case Lambda(arity, body, captures) =>
      (match EvalSeq(p, captures, fr, env, s, fuel)
       case Stop(r) => r
       case Vals(vs, s1) => Res(Val(Clo(arity, body, vs)), s1))
    case DynamicBind(sym, value, body) =>
      var rv := Eval(p, value, fr, env, s, fuel);
      if !rv.flow.Val? then rv
      else
        var prev := OldGlobal(rv.s.w, sym);
        var w1 := SetGlobal(rv.s.w, sym, Some(rv.flow.v));
        var r := Eval(p, body, fr, env, rv.s.(w := w1), fuel);
        // Only the normal exit runs the restore.
        if r.flow.Val? then r.(s := r.s.(w := SetGlobal(r.s.w, sym, prev))) else r
    case TailLoop(arity, body) =>
      var r := Eval(p, body, fr, env, s, fuel);
      if !r.flow.TailNext? then r
      else if |r.flow.args| != arity then Res(Unspec, r.s)
      else if fuel == 0 then Res(OutOfFuel, r.s)
      else Eval(p, e, fr.(args := r.flow.args), env, r.s, fuel - 1)
    case SelfTailNext(args) =>
      (match EvalSeq(p, args, fr, env, s, fuel)
       case Stop(r) => r
       case Vals(vs, s1) => Res(TailNext(vs), s1))
    case FastLoop(test, result, body) =>
      var rt := Eval(p, test, fr, env, s, fuel);
      if !rt.flow.Val? then rt
      else if rt.flow.v != VNil then Eval(p, result, fr, env, rt.s, fuel)
      else
        var rb := Eval(p, body, fr, env, rt.s, fuel);
        if !rb.flow.Val? then rb
        else if fuel == 0 then Res(OutOfFuel, rb.s)
        else Eval(p, e, fr, env, rb.s, fuel - 1)
    case InlineLoop(body) =>
      var r := Eval(p, body, fr, env, s, fuel);
      if r.flow.Break? then r.(flow := Val(r.flow.v))
      else if !r.flow.Val? then r
      else if fuel == 0 then Res(OutOfFuel, r.s)
      else Eval(p, e, fr, env, r.s, fuel - 1)
    case LoopBreak(value) =>
      var r := Eval(p, value, fr, env, s, fuel);
      if r.flow.Val? then r.(flow := Break(r.flow.v)) else r
  }

  /** Operands from left to right, stopping at the first that does not yield a value. */
  function EvalSeq(p: Program, es: seq<Expr>, fr: Frame, env: seq<Value>, s: State, fuel: nat): (out: SeqRes)
    ensures if out.Stop? then !out.r.flow.Val? else |out.vs| == |es|
    decreases fuel, es
  {
    if es == [] then Vals([], s)
    else
      var r := Eval(p, es[0], fr, env, s, fuel);
      if !r.flow.Val? then Stop(r)
      else match EvalSeq(p, es[1..], fr, env, r.s, fuel)
        case Stop(r1) => Stop(r1)
        case Vals(vs, s1) => Vals([r.flow.v] + vs, s1)
  }

  /** Operands that stop have all yielded values up to the one that stopped them. */
  lemma {:induction false} StopsAtFirst(p: Program, es: seq<Expr>, fr: Frame, env: seq<Value>, s: State, fuel: nat)
    returns (k: nat)
    requires EvalSeq(p, es, fr, env, s, fuel).Stop?
    ensures k < |es| && EvalSeq(p, es[..k], fr, env, s, fuel).Vals?
    ensures EvalSeq(p, es, fr, env, s, fuel).r == Eval(p, es[k], fr, env, EvalSeq(p, es[..k], fr, env, s, fuel).s, fuel)
    decreases |es|
  {
    hide Eval;
    var r := Eval(p, es[0], fr, env, s, fuel);
    if !r.flow.Val? {
      k := 0;
      assert es[..0] == [];
    } else {
      var j := StopsAtFirst(p, es[1..], fr, env, r.s, fuel);
      k := j + 1;
      assert es[..k][1..] == es[1..][..j] && es[..k][0] == es[0];
    }
  }

  /** What a binding leaves in its Word position: a placeholder for a float-slot store. */
  function Bound(b: Expr, v: Value): Value { if b.F64LocalStore? then VNil else v }

  /** The bindings of a let, each result pushed as it is computed. */
  function EvalBinds(p: Program, bs: seq<Expr>, fr: Frame, env: seq<Value>, s: State, fuel: nat): (Res, seq<Value>)
    decreases fuel, bs
  {
    if bs == [] then (Res(Val(VNil), s), env)
    else
      var r := Eval(p, bs[0], fr, env, s, fuel);
      if !r.flow.Val? then (r, env)
      else EvalBinds(p, bs[1..], fr, env + [Bound(bs[0], r.flow.v)], r.s, fuel)
  }
}
