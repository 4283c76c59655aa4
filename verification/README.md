# Faulted Earth fault data model: uncertain-parameter validation

This project models, in Dafny, the input-normalisation and validation layer
of the Faulted Earth prototype data model (`faulted_earth_fault.py`): the
`build_pref_min_max` normaliser for (preferred, minimum, maximum[, category])
tuples, the `Parameter` uncertainty envelope and `_assert_assign`, and the
constructors that build point observations, traces, displacement summaries,
the fault-level attribute bundle `BaseFault`, neotectonic sections and
neotectonic faults from attribute dictionaries.

The modules follow the source's structure:

- `Results` (results.dfy): the `Result`/`Option` types and one `Error` per
  kind of exception the source raises (ValueError for shape and range,
  AssertionError for a missing envelope or a wrong geometry class, KeyError
  for a missing key, TypeError for an unorderable comparison).
- `Values` (values.dfy): Python values (`PyNone`, `PyInt`, `PyBool`, `PyStr`,
  `PyTuple`, `PyParam`), the `Parameter` record, opaque geometry objects,
  Python truthiness and Python 3's `>`.
- `PrefMinMax` (pref_min_max.dfy): `build_pref_min_max`.
- `Fields` (fields.dfy): `attributes[key]` and `_assert_assign`.
- `Observations` (observations.dfy): `BaseObservation` and its four variants.
- `Faults` (faults.dfy): `FaultTrace`, `Displacement`, `BaseFault`,
  `NeotectonicSection`, `NeotectonicFault`.

Every constructor is a pure function returning `Result`. It reads its keys in
the order the Python statements read them, so the first missing key or
non-Parameter value decides the error. Each constructor's schema is stated
declaratively as a set of plain keys and a set of envelope keys. The contract
says the constructor succeeds exactly when every key is present and every
envelope key holds a `Parameter`, and, for observations and traces, when the
location is a Point (faulted_earth_fault.py:103) or the trace geometry a Line
(faulted_earth_fault.py:196). A variant observation first builds its base, so
a base that fails decides the variant's error. `NeotectonicFault` builds no
bundle when `attributes` is not a dictionary and then cannot fail. On success
every field is stored unchanged, with two exceptions: an observation's
`accuracy` is derived by the accuracy rule (`Observations.DefaultAccuracy`),
and a section's bundle takes its `geometry` from the section's argument
(`Faults.NewNeotectonicSection`).
The round-trip lemmas rebuild each record from its own entries.

Where the source and its evident intent differ, the model follows the intent
and keeps an as-written version beside it (see "## Findings"). The other
deviations are listed here:

- `NeotectonicSection` and `NeotectonicFault` are written with `def`, not
  `class`, at faulted_earth_fault.py:267 and :312. They are modelled as the
  classes they evidently are.
- `NeotectonicSection` stores the undefined name `displacement_observations`
  at faulted_earth_fault.py:282. The model stores the `disp_observation`
  argument.
- `NeotectonicFault` calls `isinstance(dict, attributes)` at
  faulted_earth_fault.py:322. The model reads it as
  `isinstance(attributes, dict)`: an `Option<AttributeMap>`.

The source's own quirks are kept as written:

- The range check uses truthiness, so a minimum or maximum of `0` skips it.
- The accuracy test uses truthiness, so an accuracy of `0` falls through to
  the scale rule.
- `nval = 0` still yields a one-element tuple.
- `preferred` is never checked against the bounds.
- `isinstance(True, int)` holds in Python, so a boolean scale of `True`
  derives an accuracy of 2.

The code leaves these things unchecked or loosely checked, and the model does
the same:

- `Accuracy` is tested for truthiness, not for None
  (faulted_earth_fault.py:106).
- `Accuracy` is a required key, like the other base keys
  (faulted_earth_fault.py:106).
- A fault with an empty `sections` list is accepted
  (faulted_earth_fault.py:321).
- An observation's `Fault Section` entry is never checked against the
  section that holds it.
- The bare `assert` at faulted_earth_fault.py:65 names no field, so the
  not-a-Parameter error carries none.

## Model

| member | source | states |
|---|---|---|
| `Values.GreaterThanAsymmetric` | faulted_earth_fault.py:26 | the `>` used by the range check is a strict order: whenever it holds one way round it fails the other way |
| `Values.NewParameter` | faulted_earth_fault.py:49-57 | a new Parameter stores the given value, minimum, maximum, completeness and distribution, and its comment starts as None |
| `Values.GreaterThan` | faulted_earth_fault.py:26 | Python 3's `>` on the modelled values, with tuples treated as unorderable: defined exactly for two numbers (booleans counting as 0 and 1) or two strings, numeric order for numbers, code-point lexicographic order for strings, a TypeError otherwise |
| `Values.LexLessAsymmetric` | faulted_earth_fault.py:26 | lexicographic string order never holds both ways round, proved by induction on the strings |
| `PrefMinMax.NoneRun` | faulted_earth_fault.py:31-32 | the padding list has `n - 1` elements when that is positive and none otherwise, and every element is None |
| `PrefMinMax.BuildPrefMinMax` | faulted_earth_fault.py:13-33 | a bare value is never rejected: it becomes a tuple of length `max(nval, 1)` holding the value first and None everywhere else; an accepted tuple is returned unchanged; the shape error happens exactly for a tuple whose length is not `nval`; the range error happens exactly when `nval > 2`, both bounds are truthy and the minimum orders above the maximum; the type error happens exactly when both bounds are truthy but cannot be compared |
| `PrefMinMax.FalsyBoundSkipsRangeCheck` | faulted_earth_fault.py:26-28 | a tuple of the right length passes through unchanged when `nval <= 2` or either bound is None, zero or otherwise falsy |
| `PrefMinMax.PreferredIsNotChecked` | faulted_earth_fault.py:25-28 | a triple with ordered numeric bounds is accepted unchanged whatever the preferred value |
| `PrefMinMax.NumericTripleRule` | faulted_earth_fault.py:25-27 | with non-zero integer bounds a triple is rejected exactly when minimum > maximum, and then with the range error |
| `PrefMinMax.SwappedBoundsAccepted` | faulted_earth_fault.py:25-28 | swapping the bounds of a triple rejected with the range error gives a triple that is returned unchanged |
| `PrefMinMax.NormaliseIdempotent` | faulted_earth_fault.py:13-33 | for every arity of at least one, normalising an accepted result again returns it unchanged |
| `PrefMinMax.ZeroArityIsNotIdempotent` | faulted_earth_fault.py:29-33 | with arity zero a bare value becomes a one-element tuple, which the same call then rejects for its length |
| `PrefMinMax.AsWrittenRejectsEveryTriple` | faulted_earth_fault.py:26 | as written, every tuple of the right length with arity above two is rejected with a TypeError, including a well-ordered triple the corrected normaliser accepts |
| `Fields.Lookup` | faulted_earth_fault.py:105 | a dictionary read succeeds exactly when the key is present, yields that key's entry, and otherwise fails with a KeyError naming the key |
| `Fields.AssertAssign` | faulted_earth_fault.py:60-66 | a value is accepted exactly when it is a Parameter, and is then handed back unchanged; anything else is rejected with the not-a-Parameter error |
| `Fields.Envelope` | faulted_earth_fault.py:177 | reading an envelope field succeeds exactly when the key is present and holds a Parameter, returns that Parameter, and fails with a KeyError before it fails the type check |
| `Fields.AssignKeepsNewParameter` | faulted_earth_fault.py:49-57 | a freshly built Parameter passes the envelope check and keeps exactly the value, bounds, completeness and distribution it was given, with no comment; the omitted arguments default to None |
| `Observations.DefaultAccuracy` | faulted_earth_fault.py:106-111 | a truthy accuracy is kept; otherwise a numeric scale, booleans included, gives twice the scale; otherwise the accuracy is None |
| `Observations.AccuracyRule` | faulted_earth_fault.py:106-111 | the derived accuracy is truthy exactly when the given accuracy is truthy or the scale is a non-zero number |
| `Observations.AccuracyExamples` | faulted_earth_fault.py:106-111 | scale 25000 with no accuracy gives 50000; with accuracy 100 gives 100; scale "unknown" gives None; accuracy 0 falls through to 50000; scale True gives 2 |
| `Observations.AccuracyIdempotent` | faulted_earth_fault.py:106-111 | applying the accuracy rule to an accuracy it derived changes nothing |
| `Observations.NewBaseObservation` | faulted_earth_fault.py:87-114 | a base record is built exactly when the location is a Point and the five base keys are present; a non-Point location gives the assertion error and nothing else does; a KeyError names a base key that is really absent; on success the identifier, location, scale, notes, section and site feature are stored unchanged and the accuracy follows the accuracy rule |
| `Observations.BaseRoundTrip` | faulted_earth_fault.py:102-114 | a base record whose accuracy is a fixpoint of the accuracy rule is rebuilt exactly from its own entries |
| `Observations.AsWrittenBuildsNoObservation` | faulted_earth_fault.py:87-102 | as written, the base constructor fails for every input with a NameError, while the corrected one accepts every Point with a complete dictionary |
| `Observations.NewObservationSlipRate` | faulted_earth_fault.py:172-185 | a slip-rate record is built exactly when the base is accepted, `Slip Category` is present and the eight fields dip slip, strike slip, vertical, net slip, HV ratio, rake, slip type and aseismic hold Parameters; the only errors are the location assertion, a KeyError for a really absent schema key, and the not-a-Parameter error, which happens only when one of the eight fields is present but holds a plain value; on success each field is stored unchanged |
| `Observations.SlipRateRoundTrip` | faulted_earth_fault.py:172-185 | a slip-rate record with a valid base is rebuilt exactly from its own entries |
| `Observations.SlipCategoryMayBePlain` | faulted_earth_fault.py:183 | replacing `Slip Category` in an accepted dictionary with any value keeps it accepted and stores the new value |
| `Observations.SlipRateRejectsPlainEnvelope` | faulted_earth_fault.py:177-185 | with a Point and every key present, a plain value in any of the eight envelope fields gives the not-a-Parameter error |
| `Observations.NewObservationDisplacement` | faulted_earth_fault.py:122-132 | a displacement observation is built exactly when the base is accepted, the five component keys are present and `Displacement` holds a Parameter; the not-a-Parameter error happens only when `Displacement` is present but holds a plain value; on success every field is stored unchanged |
| `Observations.DisplacementObsRoundTrip` | faulted_earth_fault.py:122-132 | a displacement observation with a valid base is rebuilt exactly from its own entries |
| `Observations.NewObservationEvent` | faulted_earth_fault.py:139-150 | an event observation is built exactly when the base is accepted, the five plain keys are present and the recurrence interval and movement hold Parameters; the not-a-Parameter error happens only when one of those two is present but holds a plain value; on success every field is stored unchanged |
| `Observations.EventRoundTrip` | faulted_earth_fault.py:139-150 | an event observation with a valid base is rebuilt exactly from its own entries |
| `Observations.NewObservationGeometry` | faulted_earth_fault.py:157-165 | a geometry observation is built exactly when the base is accepted and the four orientation keys are present, none needing an envelope; on success they are stored unchanged |
| `Observations.GeometryObsRoundTrip` | faulted_earth_fault.py:157-165 | a geometry observation with a valid base is rebuilt exactly from its own entries |
| `Observations.MissingNotesIsNamed` | faulted_earth_fault.py:105-112 | with a Point, `Scale` and `Accuracy` present and `Notes` absent, every observation variant fails with a KeyError naming `Notes` |
| `Observations.VariantsShareBase` | faulted_earth_fault.py:125-126 | every variant that is built carries a valid base record, so the accuracy rule holds for all of them |
| `Faults.NewFaultTrace` | faulted_earth_fault.py:192-203 | a trace is built exactly when the geometry is a Line and its six keys are present; on success scale and accuracy are stored exactly as given, with no default |
| `Faults.TraceRoundTrip` | faulted_earth_fault.py:192-203 | a trace on a Line, rebuilt from its own six entries, comes back unchanged |
| `Faults.TraceKeepsAccuracyAsGiven` | faulted_earth_fault.py:198-199 | with scale 25000 and no accuracy, a trace keeps None where an observation derives 50000 |
| `Faults.NewDisplacement` | faulted_earth_fault.py:211-219 | a displacement summary is built exactly when its five plain keys are present and `Value` holds a Parameter; a KeyError names a really absent key, and the not-a-Parameter error happens only when `Value` is present but holds a plain value; on success every field is stored unchanged |
| `Faults.DisplacementRoundTrip` | faulted_earth_fault.py:211-219 | a displacement summary is rebuilt exactly from its own entries |
| `Faults.NewBaseFault` | faulted_earth_fault.py:227-264 | the bundle is built exactly when its eight plain keys are present and its fourteen envelope keys hold Parameters; a KeyError names a really absent schema key; the not-a-Parameter error happens only when an envelope key is present but holds a plain value; on success every field is stored unchanged and geometry, length and curator fields are unset |
| `Faults.BaseFaultRoundTrip` | faulted_earth_fault.py:227-264 | an unfilled bundle is rebuilt exactly from any dictionary holding its entries |
| `Faults.FaultKeySetsDisjoint` | faulted_earth_fault.py:234-260 | no bundle key is both plain and enveloped |
| `Faults.PlainFaultFieldsNeedNoEnvelope` | faulted_earth_fault.py:234-260 | replacing any of episodic, strike, surface dip, downthrown side, slip category, displacement, historical event or pre-historic with any value keeps an accepted dictionary accepted |
| `Faults.BaseFaultRejectsPlainEnvelope` | faulted_earth_fault.py:238-257 | with every key present, a plain value in any envelope field gives the not-a-Parameter error |
| `Faults.AsWrittenBuildsNoBundle` | faulted_earth_fault.py:227 | as written, building a bundle fails for every input with a TypeError, while the corrected constructor accepts every complete dictionary of envelopes |
| `Faults.NewNeotectonicSection` | faulted_earth_fault.py:272-283 | a section is built exactly when its bundle is accepted, and fails with the bundle's error otherwise; on success the bundle is the validated one with the given geometry attached, and the five observation lists are stored as given |
| `Faults.NewNeotectonicFault` | faulted_earth_fault.py:316-326 | a fault is built exactly when no dictionary is given or the given one is accepted; the sections are stored as given; a bundle is present exactly when a dictionary is given, and is then the one the bundle constructor builds; a rejected dictionary fails with the bundle constructor's own error |
| `Faults.ThreeObservationsOneSection` | faulted_earth_fault.py:277-283 | three slip-rate observations attached to a section, and that section to a fault, give a fault with exactly one section whose slip list is those three observations in order |

## Findings

| source | as written | input that shows it | evidently intended | confidence | as-written member | corrected member |
|---|---|---|---|---|---|---|
| faulted_earth_fault.py:26 | `value(1)` and `value(2)` call the tuple, which raises a TypeError | `build_pref_min_max((5, 1, 10), 3)` | `value[1]` and `value[2]` index the bounds | high; not executed | `PrefMinMax.BuildPrefMinMaxAsWritten`, shown by `PrefMinMax.AsWrittenRejectsEveryTriple` | `PrefMinMax.BuildPrefMinMax` |
| faulted_earth_fault.py:87 | the parameter is spelled `identifer`, but line 102 reads `identifier`, which is unbound: a NameError | any observation, e.g. a Point with a complete dictionary | store the given identifier | high; not executed | `Observations.NewBaseObservationAsWritten`, shown by `Observations.AsWrittenBuildsNoObservation` | `Observations.NewBaseObservation` |
| faulted_earth_fault.py:227 | `__init__(identifier, name, attributes)` has no `self`, so the three-argument call passes four: a TypeError | `BaseFault("f1", "name", attributes)` with any dictionary | `__init__(self, identifier, name, attributes)` | high; not executed | `Faults.NewBaseFaultAsWritten`, shown by `Faults.AsWrittenBuildsNoBundle` | `Faults.NewBaseFault` |

## Left out

- Geometry: `Point`, `Line` and `Polygon` belong to an external geometry library. Locations and trace geometries are opaque values carrying only their class; the class checks at faulted_earth_fault.py:103 and :196 are kept as tag tests.
- Floating point: numbers are integers, so a float scale or bound is not modelled.
- Values.GreaterThan: Python orders tuples lexicographically. The model treats two tuple bounds as unorderable instead.
- Python 3 semantics are assumed throughout: `>` between mixed types raises a TypeError rather than following Python 2's arbitrary cross-type order, and every integer is an `int` (Python 2's `long` would fail `isinstance(scale, int)` and derive an accuracy of None).
- Assertions are assumed enabled. Under `python -O` the `assert` statements at faulted_earth_fault.py:65, :103 and :196 are stripped: `_assert_assign` then returns any value and no Point or Line check runs. The model always raises the AssertionError.
- Object identity: two Parameters with equal fields are equal in the model, while Python tells distinct objects apart.
- The post-hoc annotation of `comment` and of the curator fields (`compiler`, `contributor`, `created`) is not modelled. No function of the source changes them after construction.
- `get_slip_observations` (faulted_earth_fault.py:286-309) is commented out and builds numpy arrays.
- Error message text is not modelled, including the hard-coded "length 3". Only the kind of error is kept, and a KeyError's key.
- The Python observation lists are untyped. In the model each list holds one observation kind, and an absent list is `None`, as distinct from an empty one.
