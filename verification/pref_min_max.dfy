/** `build_pref_min_max`: normalises an uncertain quantity entered either as a
    bare value or as a (preferred, minimum, maximum[, category]) tuple into a
    tuple of fixed arity, rejecting tuples of the wrong length and tuples whose
    minimum exceeds their maximum. */
module PrefMinMax {
  import opened Results
  import opened Values

  /** A run of `n` Nones; empty when `n` is not positive, as
      `[None for val in range(0, n)]` is. */
  function NoneRun(n: int): (r: seq<Value>)
    ensures |r| == if n > 0 then n else 0
    ensures forall i :: 0 <= i < |r| ==> r[i] == PyNone
  {
    if n <= 0 then [] else NoneRun(n - 1) + [PyNone]
  }

  /** The range check applies: arity above two, both bounds truthy, and the
      minimum orders strictly above the maximum. */
  predicate MinExceedsMax(items: seq<Value>, nval: int) {
    && nval > 2 && |items| == nval
    && Truthy(items[1]) && Truthy(items[2])
    && GreaterThan(items[1], items[2]) == Ok(true)
  }

  /** The range check applies but Python cannot compare the two bounds. */
  predicate BoundsUnorderable(items: seq<Value>, nval: int) {
    && nval > 2 && |items| == nval
    && Truthy(items[1]) && Truthy(items[2])
    && !Comparable(items[1], items[2])
  }

  /** The normaliser. Python's `value(1)` and `value(2)` are read as the
      evidently intended `value[1]` and `value[2]`; see
      `BuildPrefMinMaxAsWritten` for the code as written. */
  function BuildPrefMinMax(value: Value, nval: int): (r: Result<Value>)
    // a bare value is never rejected and becomes (value, None, ..., None)
    ensures !value.PyTuple? ==> r.Ok? && r.value.PyTuple?
    ensures !value.PyTuple? ==> |r.value.items| == (if nval > 1 then nval else 1)
    ensures !value.PyTuple? ==> r.value.items[0] == value
    ensures !value.PyTuple? ==> forall i :: 1 <= i < |r.value.items| ==> r.value.items[i] == PyNone
    // a tuple of the wrong length is rejected whatever it holds
    ensures r == Err(ShapeError) <==> value.PyTuple? && |value.items| != nval
    // an accepted tuple is returned unchanged
    ensures value.PyTuple? && r.Ok? ==> r.value == value
    ensures r == Err(RangeError) <==> value.PyTuple? && MinExceedsMax(value.items, nval)
    ensures r == Err(Incomparable) <==> value.PyTuple? && BoundsUnorderable(value.items, nval)
    ensures r.Err? ==> r.error in {ShapeError, RangeError, Incomparable}
  {
    if value.PyTuple? then
      var items := value.items;
      if |items| != nval then Err(ShapeError)
      else if nval > 2 && Truthy(items[1]) && Truthy(items[2]) then
        var greater :- GreaterThan(items[1], items[2]);
        if greater then Err(RangeError) else Ok(value)
      else Ok(value)
    else
      Ok(PyTuple([value] + NoneRun(nval - 1)))
  }

  /** A tuple of the right length passes through unchanged whenever the range
      check is skipped: arity at most two, or a bound that is None, zero or
      otherwise falsy. */
  lemma FalsyBoundSkipsRangeCheck(items: seq<Value>, nval: int)
    requires |items| == nval
    requires nval <= 2 || !Truthy(items[1]) || !Truthy(items[2])
    ensures BuildPrefMinMax(PyTuple(items), nval) == Ok(PyTuple(items))
  {
  }

  /** Only the bounds are compared: a preferred value outside
      [minimum, maximum] is accepted. */
  lemma PreferredIsNotChecked(preferred: Value, minimum: int, maximum: int)
    requires minimum <= maximum
    ensures BuildPrefMinMax(PyTuple([preferred, PyInt(minimum), PyInt(maximum)]), 3)
         == Ok(PyTuple([preferred, PyInt(minimum), PyInt(maximum)]))
  {
  }

  /** Numeric bounds that are both non-zero are rejected exactly when the
      minimum exceeds the maximum. */
  lemma NumericTripleRule(preferred: Value, minimum: int, maximum: int)
    requires minimum != 0 && maximum != 0
    ensures BuildPrefMinMax(PyTuple([preferred, PyInt(minimum), PyInt(maximum)]), 3).Err?
        <==> minimum > maximum
    ensures minimum > maximum ==>
      BuildPrefMinMax(PyTuple([preferred, PyInt(minimum), PyInt(maximum)]), 3) == Err(RangeError)
  {
  }

  /** Swapping the bounds of a triple rejected for its range gives a triple
      that is accepted unchanged. */
  lemma SwappedBoundsAccepted(preferred: Value, a: Value, b: Value)
    requires BuildPrefMinMax(PyTuple([preferred, a, b]), 3) == Err(RangeError)
    ensures BuildPrefMinMax(PyTuple([preferred, b, a]), 3) == Ok(PyTuple([preferred, b, a]))
  {
    GreaterThanAsymmetric(a, b);
  }

  /** Normalising is idempotent for every positive arity: an accepted result
      is accepted again unchanged. */
  lemma NormaliseIdempotent(value: Value, nval: int)
    requires nval >= 1
    requires BuildPrefMinMax(value, nval).Ok?
    ensures BuildPrefMinMax(BuildPrefMinMax(value, nval).value, nval) == BuildPrefMinMax(value, nval)
  {
    var t := BuildPrefMinMax(value, nval).value;
    if !value.PyTuple? && nval > 2 {
      assert t.items[1] == PyNone;
    }
  }

  /** With arity zero a bare value still becomes a one-element tuple, which
      the same call then rejects for its length. */
  lemma ZeroArityIsNotIdempotent(value: Value)
    requires !value.PyTuple?
    ensures BuildPrefMinMax(value, 0) == Ok(PyTuple([value]))
    ensures BuildPrefMinMax(PyTuple([value]), 0) == Err(ShapeError)
  {
    assert [value] + NoneRun(-1) == [value];
  }

  /** The normaliser as written: `value(1)` calls the tuple, which raises a
      TypeError before any bound is inspected. */
  function BuildPrefMinMaxAsWritten(value: Value, nval: int): Result<Value> {
    if value.PyTuple? then
      if |value.items| != nval then Err(ShapeError)
      else if nval > 2 then Err(NotCallable)
      else Ok(value)
    else
      Ok(PyTuple([value] + NoneRun(nval - 1)))
  }

  /** As written, every tuple of the right length with arity above two is
      rejected, including well-ordered ones the corrected normaliser returns
      unchanged. */
  lemma AsWrittenRejectsEveryTriple(items: seq<Value>, nval: int)
    requires nval > 2 && |items| == nval
    ensures BuildPrefMinMaxAsWritten(PyTuple(items), nval) == Err(NotCallable)
    ensures nval == 3 && items == [PyInt(5), PyInt(1), PyInt(10)] ==>
      BuildPrefMinMax(PyTuple(items), nval) == Ok(PyTuple(items))
  {
  }
}
