/** The dynamically typed values that flow through the fault data model:
    the entries of attribute dictionaries, the elements of
    preferred-minimum-maximum tuples, and the `Parameter` uncertainty
    envelope. Python's truthiness and its `>` operator are modelled here
    because the validation rules depend on both. */
module Values {
  import opened Results

  /** A Python value as it can appear in an attribute dictionary. Numbers are
      integers only (floating point is not modelled). `PyBool` is kept apart
      from `PyInt` but, as in Python, counts as a number. */
  datatype Value =
    | PyNone
    | PyInt(i: int)
    | PyBool(b: bool)
    | PyStr(s: string)
    | PyTuple(items: seq<Value>)
    | PyParam(p: Parameter)

  /** An uncertain quantity: a central value with optional bounds, an optional
      completeness category and distribution tag, and a free-text comment
      that is always unset when the envelope is built. */
  datatype Parameter = Parameter(
    value: Value,
    minimum: Value,
    maximum: Value,
    completeness: Value,
    distribution: Value,
    comment: Value)

  /** The opaque geometry objects the observation and trace constructors are
      handed. Only the class of the object matters to the model; `handle`
      stands for the identity of the referenced external object. */
  datatype Geometry =
    | Point(handle: nat)
    | Line(handle: nat)
    | Polygon(handle: nat)
    | OtherObject(handle: nat)

  /** The `Parameter` constructor: unspecified fields default to None and the
      comment always starts as None. */
  function NewParameter(value: Value, minimum: Value := PyNone, maximum: Value := PyNone,
                        completeness: Value := PyNone, distribution: Value := PyNone): (p: Parameter)
    ensures p.value == value && p.minimum == minimum && p.maximum == maximum
    ensures p.completeness == completeness && p.distribution == distribution
    ensures p.comment == PyNone
  {
    Parameter(value, minimum, maximum, completeness, distribution, PyNone)
  }

  /** Python truthiness: None, zero, False and empty strings and tuples are
      false; every object, Parameters included, is true. */
  predicate Truthy(v: Value) {
    match v
    case PyNone => false
    case PyInt(i) => i != 0
    case PyBool(b) => b
    case PyStr(s) => s != ""
    case PyTuple(items) => items != []
    case PyParam(_) => true
  }

  /** `isinstance(v, int)`, which holds for booleans too. */
  predicate IsNumber(v: Value) {
    v.PyInt? || v.PyBool?
  }

  /** The integer a number stands for, `True` being 1 and `False` 0. */
  function NumberOf(v: Value): int
    requires IsNumber(v)
  {
    if v.PyInt? then v.i else if v.b then 1 else 0
  }

  /** Strict lexicographic order on strings by character code, as Python
      orders `str` values. */
  predicate LexLess(a: string, b: string) {
    if a == [] then b != []
    else b != [] && (a[0] < b[0] || (a[0] == b[0] && LexLess(a[1..], b[1..])))
  }

  /** The values Python 3 can put on either side of `>` without raising:
      two numbers or two strings. Ordering tuples is not modelled. */
  predicate Comparable(a: Value, b: Value) {
    (IsNumber(a) && IsNumber(b)) || (a.PyStr? && b.PyStr?)
  }

  /** Python's `a > b`: a TypeError for values it cannot order. */
  function GreaterThan(a: Value, b: Value): (r: Result<bool>)
    ensures r.Ok? <==> Comparable(a, b)
    ensures r.Ok? && IsNumber(a) ==> (r.value <==> NumberOf(a) > NumberOf(b))
    ensures r.Ok? && a.PyStr? ==> (r.value <==> LexLess(b.s, a.s))
    ensures r.Err? ==> r.error == Incomparable
  {
    if IsNumber(a) && IsNumber(b) then Ok(NumberOf(a) > NumberOf(b))
    else if a.PyStr? && b.PyStr? then Ok(LexLess(b.s, a.s))
    else Err(Incomparable)
  }

  /** `LexLess` is asymmetric, so `>` on strings never holds both ways. */
  lemma {:induction false} LexLessAsymmetric(a: string, b: string)
    requires LexLess(a, b)
    ensures !LexLess(b, a)
  {
    if a != [] && b != [] && a[0] == b[0] {
      LexLessAsymmetric(a[1..], b[1..]);
    }
  }

  /** Python's `>` is a strict order: it never holds both ways round. */
  lemma GreaterThanAsymmetric(a: Value, b: Value)
    requires GreaterThan(a, b) == Ok(true)
    ensures GreaterThan(b, a) == Ok(false)
  {
    if a.PyStr? {
      LexLessAsymmetric(b.s, a.s);
    }
  }
}
