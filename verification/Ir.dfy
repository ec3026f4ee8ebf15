/** The typed intermediate representation that the reader's forms are lowered to,
    and the run-time values its nodes compute. */
module Ir {

  type Sym = int

  datatype ArithOp = Add | Sub | Mul

  datatype Half = Car | Cdr

  /** Nodes that evaluate all their operands from left to right and then act on the
      values. The optimiser treats every one of them in the same way. */
  datatype PrimOp =
    // leaves
    | OConst(n: int) | OWord(w: int) | ONil | OTrue
    | OParam(i: nat) | OBindRest(start: nat)
    | OOptSuppliedP(idx: nat) | OKeySuppliedP(kw: Sym, keyStart: nat)
    | OLoadGlobal(gsym: Sym) | OClosureRef(c: nat) | OLoadFunction(fsym: Sym)
    // the multi-value slot
    | OValues | OEnsureSingleMv
    // conses, identity, globals, the representation marker
    | OCons | OGet(half: Half) | OEq | OIsNull | OIsCons | OStoreGlobal(ssym: Sym) | OTheFloat
    // calls
    | OCall(csym: Sym) | OFuncall | OApply
    // numbers, predicates, strings and vectors: left to the machine
    | OTruncate | ORem | OLogAnd | OLogIor | OLogXor | OAsh
    | OLt | OGt | OLe | OGe | ONumEq
    | OIsAtom | OIsListp | OIsSymbol | OLength | OEqual
    | OStringEq | OStringChar | OAref | OSetChar | OSetAref

  /** The two accessors that fall back to a default form. */
  datatype ArgSel = OptArg(idx: nat) | KeyArg(keyword: Sym, keyStart: nat)

  datatype Expr =
    | Prim(op: PrimOp, args: seq<Expr>)
    | FloatLit(bits: int, boxed: int)
    | F64ParamRead(param: nat)
    | F64LocalRead(rslot: nat)
    | F64LocalStore(wslot: nat, stored: Expr)
    | Local(i: nat)
    | Let(bindings: seq<Expr>, body: Expr)
    | Progn(forms: seq<Expr>)
    | Arith(aop: ArithOp, lhs: Expr, rhs: Expr)
    | If(cond: Expr, thn: Expr, els: Expr)
    | SetHalf(half: Half, target: Expr, val: Expr)
    | ArgOr(sel: ArgSel, default: Expr)
    | Lambda(arity: nat, lbody: Expr, captures: seq<Expr>)
    | DynamicBind(dsym: Sym, bound: Expr, dbody: Expr)
    | TailLoop(larity: nat, tbody: Expr)
    | SelfTailNext(nexts: seq<Expr>)
    | FastLoop(test: Expr, result: Expr, fbody: Expr)
    | InlineLoop(ibody: Expr)
    | LoopBreak(broken: Expr)

  /** Run-time values. Floats, other boxed numbers and closures carry no identity. */
  datatype Value =
    | VNil | VT
    | Fix(n: int)
    | Flo(bits: int)
    | Num(id: int)                     // bignum, ratio or complex
    | Atom(word: int)                  // symbols, characters, strings, vectors
    | ConsAt(addr: nat)
    | Fn(fsym: Sym)
    | Clo(arity: nat, code: Expr, env: seq<Value>)

  /** What a function call shares with its caller. */
  datatype World = World(heap: seq<(Value, Value)>, globals: map<Sym, Value>, mv: seq<Value>)
}
