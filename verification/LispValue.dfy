/** Source-level Lisp data, as the reader produces it. */
module LispValue {

  datatype Home = Keyword | Package(name: string) | Uninterned

  datatype Value =
    | Nil
    | Cons(car: Value, cdr: Value)
    | Symbol(name: string, home: Home)
    | Fixnum(n: int)
    | Bignum(digits: string)
    | Ratio(num: string, den: string)
    | Float(bits: int)
    | Char(c: int)
    | Str(chars: string)
    | Vector(items: seq<Value>)
    | FfiBlock(id: int)

  function List(items: seq<Value>): Value {
    if items == [] then Nil else Cons(items[0], List(items[1..]))
  }

  lemma ListCons(x: Value, rest: seq<Value>)
    ensures List([x] + rest) == Cons(x, List(rest))
  {
    assert ([x] + rest)[1..] == rest;
  }
}
