/**
 * The handful of JavaScript value semantics the front-end relies on:
 * truthiness (`if (x)`, `x || d`), nullishness, `Number(string)` for integer
 * literals, the loose equality `==` the mock back end filters with, and
 * `String(v)` as `Array.prototype.join` applies it to elements.
 */
module JsValues {
  import opened Wrappers
  import opened Text

  /** A JavaScript value; numbers are integers, objects carry no identity. */
  datatype Value =
    | Undefined
    | Null
    | Bool(b: bool)
    | Num(n: int)
    | Str(s: string)
    | Arr(elems: seq<Value>)
    | Obj

  predicate IsNullish(v: Value) { v.Undefined? || v.Null? }

  predicate IsPrimitive(v: Value) { !v.Arr? && !v.Obj? }

  /** `!!v`: false, 0, '', null and undefined are falsy; arrays and objects are truthy. */
  predicate Truthy(v: Value) {
    match v
    case Undefined => false
    case Null => false
    case Bool(b) => b
    case Num(n) => n != 0
    case Str(s) => s != ""
    case Arr(_) => true
    case Obj => true
  }

  /** `field && field.toLowerCase().includes(query)` on a nullable string: set, non-empty, and containing the query once lowercased. */
  predicate OptionalTextHit(field: Option<string>, query: string) {
    field.Some? && field.value != "" && Contains(Lower(field.value), query)
  }

  /** `a || b` */
  function Or(a: Value, b: Value): (r: Value)
    ensures Truthy(a) ==> r == a
    ensures !Truthy(a) ==> r == b
  {
    if Truthy(a) then a else b
  }

  /** Optional sign followed by at least one decimal digit. */
  predicate IsIntegerLiteral(s: string) {
    (|s| >= 1 && AllDigits(s))
    || (|s| >= 2 && (s[0] == '-' || s[0] == '+') && AllDigits(s[1..]))
  }

  /** The value of a trimmed, non-empty numeric literal; None is NaN. */
  function ParseInteger(t: string): (r: Option<int>)
    ensures r.Some? <==> IsIntegerLiteral(t)
  {
    if |t| >= 1 && AllDigits(t) then Some(DigitsValue(t) as int)
    else if |t| >= 2 && t[0] == '-' && AllDigits(t[1..]) then Some(-(DigitsValue(t[1..]) as int))
    else if |t| >= 2 && t[0] == '+' && AllDigits(t[1..]) then Some(DigitsValue(t[1..]))
    else None
  }

  /**
   * `Number(s)` for strings: white space is trimmed, the empty string is 0,
   * a signed decimal integer is its value, anything else is NaN (None).
   */
  function StringToNumber(s: string): (r: Option<int>)
    ensures Trim(s) == "" ==> r == Some(0)
    ensures Trim(s) != "" ==> (r.Some? <==> IsIntegerLiteral(Trim(s)))
  {
    var t := Trim(s);
    if t == "" then Some(0) else ParseInteger(t)
  }

  /** Rendering an integer and parsing it back gives the integer. */
  lemma IntToStringParses(i: int)
    ensures StringToNumber(IntToString(i)) == Some(i)
  {
    var s := IntToString(i);
    TrimUnchanged(s);
    if i < 0 {
      assert s[1..] == NatToString(-i);
      NatToStringValue(-i);
      assert !AllDigits(s) by { assert !IsDigit(s[0]); }
    } else {
      NatToStringValue(i);
    }
  }

  /** A string that neither starts nor ends with white space trims to itself. */
  lemma TrimUnchanged(s: string)
    requires |s| > 0 && !IsJsWhitespace(s[0]) && !IsJsWhitespace(s[|s| - 1])
    ensures Trim(s) == s
  {
  }

  /** The IsLooselyEqual algorithm on primitives; arrays and objects compare unequal. */
  predicate LooseEq(a: Value, b: Value) {
    match (a, b)
    case (Undefined, Undefined) => true
    case (Null, Null) => true
    case (Undefined, Null) => true
    case (Null, Undefined) => true
    case (Bool(x), Bool(y)) => x == y
    case (Num(x), Num(y)) => x == y
    case (Str(x), Str(y)) => x == y
    case (Num(x), Str(y)) => StringToNumber(y) == Some(x)
    case (Str(x), Num(y)) => StringToNumber(x) == Some(y)
    case (Bool(x), Num(y)) => (if x then 1 else 0) == y
    case (Num(x), Bool(y)) => x == (if y then 1 else 0)
    case (Bool(x), Str(y)) => StringToNumber(y) == Some(if x then 1 else 0)
    case (Str(x), Bool(y)) => StringToNumber(x) == Some(if y then 1 else 0)
    case _ => false
  }

  /** `==` is symmetric, and agrees with `===` on two values of the same primitive kind. */
  lemma LooseEqProperties(a: Value, b: Value)
    ensures LooseEq(a, b) == LooseEq(b, a)
    ensures IsPrimitive(a) && a == b ==> LooseEq(a, b)
    ensures (a.Str? && b.Str?) || (a.Num? && b.Num?) || (a.Bool? && b.Bool?) ==> (LooseEq(a, b) <==> a == b)
    ensures IsNullish(a) ==> (LooseEq(a, b) <==> IsNullish(b))
  {
  }

  /** A number equals the string that renders it. */
  lemma LooseEqNumString(i: int)
    ensures LooseEq(Num(i), Str(IntToString(i)))
  {
    IntToStringParses(i);
  }

  /** `String(v)` for an element of `Array.prototype.join`: null and undefined become ''. */
  function JoinElementString(v: Value): string
    decreases v, 1
  {
    match v
    case Undefined => ""
    case Null => ""
    case Bool(b) => if b then "true" else "false"
    case Num(n) => IntToString(n)
    case Str(s) => s
    case Arr(elems) => JoinValues(elems, ',')
    case Obj => "[object Object]"
  }

  /** `values.join(sep)` */
  function JoinValues(vs: seq<Value>, sep: char): (r: string)
    decreases vs, 0
  {
    if |vs| == 0 then ""
    else if |vs| == 1 then JoinElementString(vs[0])
    else JoinElementString(vs[0]) + [sep] + JoinValues(vs[1..], sep)
  }

  /** Joining strings is the string join of their texts. */
  lemma {:induction false} JoinValuesOfStrings(parts: seq<string>, vs: seq<Value>, sep: char)
    requires |vs| == |parts|
    requires forall i :: 0 <= i < |vs| ==> vs[i] == Str(parts[i])
    ensures JoinValues(vs, sep) == Join(parts, sep)
  {
    if |vs| > 1 {
      JoinValuesOfStrings(parts[1..], vs[1..], sep);
    }
  }
}
