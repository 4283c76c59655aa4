/** Reading fields from an attribute dictionary: `attributes[key]`, which
    raises a KeyError for a missing key, and `_assert_assign`, which admits
    only values that carry an uncertainty envelope. */
module Fields {
  import opened Results
  import opened Values

  /** An attribute dictionary keyed by the schema's field names. */
  type AttributeMap = map<string, Value>

  /** The dictionary has an entry for every key in `keys`. */
  predicate HasKeys(attributes: AttributeMap, keys: set<string>) {
    keys <= attributes.Keys
  }

  /** The dictionary has an entry for `key` and that entry is a Parameter. */
  predicate HasEnvelope(attributes: AttributeMap, key: string) {
    key in attributes && attributes[key].PyParam?
  }

  /** Every key in `keys` has an entry that is a Parameter. */
  predicate HasEnvelopes(attributes: AttributeMap, keys: set<string>) {
    forall k :: k in keys ==> HasEnvelope(attributes, k)
  }

  /** Some key in `keys` is present but holds a value that is not a
      Parameter: the only way `_assert_assign` can fail on one of them. */
  predicate HoldsPlainValue(attributes: AttributeMap, keys: set<string>) {
    exists k :: k in keys && k in attributes && !attributes[k].PyParam?
  }

  /** `attributes[key]`. */
  function Lookup(attributes: AttributeMap, key: string): (r: Result<Value>)
    ensures r.Ok? <==> key in attributes
    ensures r.Ok? ==> r.value == attributes[key]
    ensures r.Err? ==> r.error == MissingKey(key)
  {
    if key in attributes then Ok(attributes[key]) else Err(MissingKey(key))
  }

  /** `_assert_assign`: a Parameter is handed back as it is, anything else is
      rejected. */
  function AssertAssign(value: Value): (r: Result<Parameter>)
    ensures r.Ok? <==> value.PyParam?
    ensures r.Ok? ==> PyParam(r.value) == value
    ensures r.Err? ==> r.error == NotParameter
  {
    if value.PyParam? then Ok(value.p) else Err(NotParameter)
  }

  /** `_assert_assign(attributes[key])`: the lookup fails first, then the
      type check. */
  function Envelope(attributes: AttributeMap, key: string): (r: Result<Parameter>)
    ensures r.Ok? <==> HasEnvelope(attributes, key)
    ensures r.Ok? ==> PyParam(r.value) == attributes[key]
    ensures r.Err? ==> r.error == (if key in attributes then NotParameter else MissingKey(key))
  {
    var value :- Lookup(attributes, key);
    AssertAssign(value)
  }

  /** A freshly built Parameter passes `_assert_assign` and keeps exactly the
      fields it was given, with no comment. */
  lemma AssignKeepsNewParameter(value: Value, minimum: Value, maximum: Value,
                                completeness: Value, distribution: Value)
    ensures var r := AssertAssign(PyParam(NewParameter(value, minimum, maximum, completeness, distribution)));
      && r.Ok?
      && r.value.value == value && r.value.minimum == minimum && r.value.maximum == maximum
      && r.value.completeness == completeness && r.value.distribution == distribution
      && r.value.comment == PyNone
    ensures NewParameter(value) == Parameter(value, PyNone, PyNone, PyNone, PyNone, PyNone)
  {
  }

  /** Changing the entry of a key that is not required to be a Parameter
      leaves the envelope requirement of the other keys as it was. */
  lemma UpdateOutsideEnvelopes(attributes: AttributeMap, keys: set<string>, key: string, v: Value)
    requires key !in keys
    ensures HasEnvelopes(attributes[key := v], keys) == HasEnvelopes(attributes, keys)
  {
    if HasEnvelopes(attributes, keys) {
      forall k | k in keys
        ensures HasEnvelope(attributes[key := v], k)
      {
        assert HasEnvelope(attributes, k);
      }
    }
    if HasEnvelopes(attributes[key := v], keys) {
      forall k | k in keys
        ensures HasEnvelope(attributes, k)
      {
        assert HasEnvelope(attributes[key := v], k);
      }
    }
  }
}
