/** Option and Result, the failure-carrying wrappers used throughout the model. */
module Wrappers {
  datatype Option<+T> = None | Some(value: T)

  datatype Result<+T, +E> = Ok(value: T) | Err(error: E)
}

/**
 * The JavaScript values the orchestration core handles: step parameters and
 * the structured results of the perception oracle (parsed JSON), plus
 * `undefined`, which is what reading a missing property yields.
 * Numbers are integers here; NaN only arises as the result of a numeric
 * conversion, where it is `None`.
 */
module Json {
  import opened Wrappers

  datatype Value =
    | Undefined
    | Null
    | Bool(b: bool)
    | Num(n: int)
    | Str(s: string)
    | Arr(elems: seq<Value>)
    | Obj(fields: map<string, Value>)

  /** JavaScript truthiness: `undefined`, `null`, `false`, `0` and `""` are falsy. */
  predicate Truthy(v: Value) {
    match v
    case Undefined => false
    case Null => false
    case Bool(b) => b
    case Num(n) => n != 0
    case Str(s) => s != ""
    case Arr(_) => true
    case Obj(_) => true
  }

  /** The values through which reading a property throws a TypeError. */
  predicate Nullish(v: Value) {
    v.Undefined? || v.Null?
  }

  /** `a || b` */
  function Or(a: Value, b: Value): Value {
    if Truthy(a) then a else b
  }

  /** `v.key` for a value that is neither null nor undefined (the caller models the TypeError). */
  function Get(v: Value, key: string): Value
    requires !Nullish(v)
  {
    match v
    case Obj(m) => if key in m then m[key] else Undefined
    case Arr(xs) => if key == "length" then Num(|xs|) else Undefined
    case Str(s) => if key == "length" then Num(|s|) else Undefined
    case _ => Undefined
  }

  /** `v?.key`: optional chaining yields undefined instead of throwing. */
  function OptGet(v: Value, key: string): Value {
    if Nullish(v) then Undefined else Get(v, key)
  }

  /** `xs[i]` on an array: undefined past the end. */
  function At(xs: seq<Value>, i: nat): Value {
    if i < |xs| then xs[i] else Undefined
  }

  predicate IsDigits(s: string) {
    forall i :: 0 <= i < |s| ==> '0' <= s[i] <= '9'
  }

  function DigitsValue(s: string): nat
    requires IsDigits(s)
  {
    if s == [] then 0
    else DigitsValue(s[..|s| - 1]) * 10 + ((s[|s| - 1] as int) - ('0' as int))
  }

  /**
   * `Number(v)`, with `None` for NaN. Strings are read as plain decimal
   * digits (the empty string is 0). An array converts through its joined
   * string: the empty array is "" and so 0, an array of two or more
   * elements has a comma and is NaN, and a one-element array is the string
   * form of its element, where `null` and `undefined` give "" (0), a
   * boolean or an object gives a word (NaN), and a number, a string or an
   * array gives what converting that element gives.
   */
  function ToNumber(v: Value): Option<int>
    decreases v
  {
    match v
    case Undefined => None
    case Null => Some(0)
    case Bool(b) => Some(if b then 1 else 0)
    case Num(n) => Some(n)
    case Str(s) => if IsDigits(s) then Some(DigitsValue(s)) else None
    case Arr(xs) =>
      if xs == [] then Some(0)
      else if |xs| > 1 then None
      else
        (match xs[0]
         case Undefined => Some(0)
         case Null => Some(0)
         case Bool(_) => None
         case Obj(_) => None
         case _ => ToNumber(xs[0]))
    case Obj(_) => None
  }

  /** `i < v` for a number `i`: false when `v` converts to NaN. */
  predicate Below(i: int, v: Value) {
    match ToNumber(v)
    case None => false
    case Some(n) => i < n
  }

  /** `i >= v` for a number `i`: false when `v` converts to NaN. */
  predicate AtLeast(i: int, v: Value) {
    match ToNumber(v)
    case None => false
    case Some(n) => i >= n
  }

  /** How many times `for (let i = 0; i < v; i++)` runs. */
  function Iterations(v: Value): (n: nat)
    ensures forall i :: 0 <= i ==> (Below(i, v) <==> i < n)
  {
    match ToNumber(v)
    case None => 0
    case Some(k) => if k < 0 then 0 else k
  }

  /** What `for (const x of v)` visits: array elements, or a string's characters. */
  function Iterate(v: Value): Option<seq<Value>> {
    match v
    case Arr(xs) => Some(xs)
    case Str(s) => Some(seq(|s|, i requires 0 <= i < |s| => Str([s[i]])))
    case _ => None
  }
}
