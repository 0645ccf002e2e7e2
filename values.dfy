/**
 * The dynamically typed Python values that the player constructor receives,
 * and the few Python operations its checks apply to them: `isinstance`,
 * ordered comparison against an integer constant and `float(...)`.
 */
module Values {

  /** A Python float: a finite real, one of the two infinities, or NaN. */
  datatype PyFloat = Finite(r: real) | PosInf | NegInf | NaN

  /**
   * A Python argument value. `Bool` is kept apart from `Int` because the
   * two differ in what they are stored as, but `isinstance(b, int)` holds
   * for both (see IsInt). An instance of a subclass of `str`, `int`,
   * `float` or `list` that keeps the base type's `==`, `<` and `>` is
   * represented by its base case. `Other` stands for every value of any
   * other type (None, tuples, dicts, objects).
   */
  datatype Value =
    | Str(s: string)
    | Int(i: int)
    | Bool(b: bool)
    | Float(f: PyFloat)
    | List(items: seq<Value>)
    | Other

  /** `isinstance(v, int)`: true for ints and, since bool subclasses int, for bools. */
  predicate IsInt(v: Value) {
    v.Int? || v.Bool?
  }

  /** `isinstance(v, (float, int))` */
  predicate IsNumber(v: Value) {
    IsInt(v) || v.Float?
  }

  /** The integer an int-like value stands for: `True == 1`, `False == 0`. */
  function IntOf(v: Value): int
    requires IsInt(v)
  {
    match v
    case Int(i) => i
    case Bool(b) => if b then 1 else 0
  }

  /** Python's `f < x` for a float; every comparison with NaN is false. */
  predicate FloatLess(f: PyFloat, x: real) {
    match f
    case Finite(r) => r < x
    case PosInf => false
    case NegInf => true
    case NaN => false
  }

  /** Python's `f > x` for a float; every comparison with NaN is false. */
  predicate FloatGreater(f: PyFloat, x: real) {
    match f
    case Finite(r) => r > x
    case PosInf => true
    case NegInf => false
    case NaN => false
  }

  /** Python's `v < k` for a number `v` and an integer constant `k`. */
  predicate Less(v: Value, k: int)
    requires IsNumber(v)
  {
    if IsInt(v) then IntOf(v) < k else FloatLess(v.f, k as real)
  }

  /** Python's `v > k` for a number `v` and an integer constant `k`. */
  predicate Greater(v: Value, k: int)
    requires IsNumber(v)
  {
    if IsInt(v) then IntOf(v) > k else FloatGreater(v.f, k as real)
  }

  /**
   * `float(v)` for a number. An integer becomes the float of the same value;
   * see README for the rounding of very large integers, which is not modelled.
   */
  function ToFloat(v: Value): PyFloat
    requires IsNumber(v)
  {
    if IsInt(v) then Finite(IntOf(v) as real) else v.f
  }

  /** `float(v)` keeps the value: it compares with every integer as `v` did. */
  lemma ToFloatKeepsOrder(v: Value, k: int)
    requires IsNumber(v)
    ensures FloatLess(ToFloat(v), k as real) == Less(v, k)
    ensures FloatGreater(ToFloat(v), k as real) == Greater(v, k)
    ensures ToFloat(v).NaN? <==> v == Float(NaN)
  {
  }

  /** `all(isinstance(x, str) for x in xs)` */
  function AllStrings(xs: seq<Value>): (r: bool)
    ensures r <==> forall i :: 0 <= i < |xs| ==> xs[i].Str?
  {
    if xs == [] then true else xs[0].Str? && AllStrings(xs[1..])
  }

  /** The Python list holding the given strings. */
  function Wrap(ss: seq<string>): (r: seq<Value>)
    ensures |r| == |ss|
    ensures forall i :: 0 <= i < |ss| ==> r[i] == Str(ss[i])
  {
    if ss == [] then [] else [Str(ss[0])] + Wrap(ss[1..])
  }

  /** The strings held by a list whose every element is a string. */
  function Strings(xs: seq<Value>): (r: seq<string>)
    requires AllStrings(xs)
    ensures Wrap(r) == xs
  {
    if xs == [] then [] else [xs[0].s] + Strings(xs[1..])
  }

  /** Wrapping strings into a list and reading them back gives the same strings. */
  lemma StringsOfWrap(ss: seq<string>)
    ensures AllStrings(Wrap(ss))
    ensures Strings(Wrap(ss)) == ss
  {
  }
}
