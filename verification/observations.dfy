/** Point observations along a fault trace: the shared identity, location and
    map-accuracy fields of `BaseObservation`, and the displacement, event,
    geometry and slip-rate variants that add their own fields. Every
    constructor reads its keys in the order the source reads them, so the
    first missing key or non-Parameter envelope decides the error. */
module Observations {
  import opened Results
  import opened Values
  import opened Fields

  // ---------------------------------------------------------------- base

  /** The fields shared by every observation. `faultSection` is the
      identifier of the owning section, not a reference to it. */
  datatype BaseObservation = BaseObservation(
    id: string,
    location: Geometry,
    scale: Value,
    accuracy: Value,
    notes: Value,
    faultSection: Value,
    siteFeature: Value)

  /** The keys every observation constructor reads. */
  const BaseKeys: set<string> := {"Scale", "Accuracy", "Notes", "Fault Section", "Site Feature"}

  /** What the shared part of every observation constructor accepts. */
  predicate BaseAccepts(location: Geometry, attributes: AttributeMap) {
    location.Point? && HasKeys(attributes, BaseKeys)
  }

  /** The map accuracy rule: a truthy accuracy is kept; otherwise a numeric
      scale (booleans included, as `isinstance(True, int)` holds) gives twice
      the scale; otherwise the accuracy is None. A zero accuracy is falsy and
      so falls through to the scale rule. */
  function DefaultAccuracy(scale: Value, accuracy: Value): (r: Value)
    ensures Truthy(accuracy) ==> r == accuracy
    ensures !Truthy(accuracy) && IsNumber(scale) ==> r == PyInt(2 * NumberOf(scale))
    ensures !Truthy(accuracy) && !IsNumber(scale) ==> r == PyNone
  {
    if Truthy(accuracy) then accuracy
    else if IsNumber(scale) then PyInt(2 * NumberOf(scale))
    else PyNone
  }

  /** A derived accuracy is truthy exactly when the given accuracy is truthy
      or the scale is a non-zero number. */
  lemma AccuracyRule(scale: Value, accuracy: Value)
    ensures Truthy(DefaultAccuracy(scale, accuracy))
        <==> Truthy(accuracy) || (IsNumber(scale) && NumberOf(scale) != 0)
  {
  }

  /** The worked examples of the accuracy rule, including the zero-accuracy
      fall-through. */
  lemma AccuracyExamples()
    ensures DefaultAccuracy(PyInt(25000), PyNone) == PyInt(50000)
    ensures DefaultAccuracy(PyInt(25000), PyInt(100)) == PyInt(100)
    ensures DefaultAccuracy(PyStr("unknown"), PyNone) == PyNone
    ensures DefaultAccuracy(PyInt(25000), PyInt(0)) == PyInt(50000)
    ensures DefaultAccuracy(PyBool(true), PyNone) == PyInt(2)
  {
  }

  /** Deriving the accuracy again from a derived accuracy changes nothing. */
  lemma AccuracyIdempotent(scale: Value, accuracy: Value)
    ensures DefaultAccuracy(scale, DefaultAccuracy(scale, accuracy)) == DefaultAccuracy(scale, accuracy)
  {
  }

  /** A base record as the constructor leaves it: located at a Point, with an
      accuracy the accuracy rule would keep. */
  predicate ValidBase(b: BaseObservation) {
    b.location.Point? && DefaultAccuracy(b.scale, b.accuracy) == b.accuracy
  }

  /** `BaseObservation.__init__`. The source names its first parameter
      `identifer` and then reads `identifier`; this is the evidently intended
      version that stores the given identifier (see
      `NewBaseObservationAsWritten`). */
  function NewBaseObservation(identifier: string, location: Geometry, attributes: AttributeMap)
    : (r: Result<BaseObservation>)
    ensures r.Ok? <==> BaseAccepts(location, attributes)
    ensures r == Err(NotPoint) <==> !location.Point?
    ensures r.Err? ==> r.error == NotPoint || r.error.MissingKey?
    ensures r.Err? && r.error.MissingKey? ==> r.error.key in BaseKeys && r.error.key !in attributes
    ensures r.Ok? ==> ValidBase(r.value)
    ensures r.Ok? ==> r.value.id == identifier && r.value.location == location
    ensures r.Ok? ==> && r.value.scale == attributes["Scale"]
                      && r.value.accuracy == DefaultAccuracy(attributes["Scale"], attributes["Accuracy"])
                      && r.value.notes == attributes["Notes"]
                      && r.value.faultSection == attributes["Fault Section"]
                      && r.value.siteFeature == attributes["Site Feature"]
  {
    if !location.Point? then Err(NotPoint)
    else
      var scale :- Lookup(attributes, "Scale");
      var accuracy :- Lookup(attributes, "Accuracy");
      var notes :- Lookup(attributes, "Notes");
      var faultSection :- Lookup(attributes, "Fault Section");
      var siteFeature :- Lookup(attributes, "Site Feature");
      AccuracyIdempotent(scale, accuracy);
      Ok(BaseObservation(identifier, location, scale, DefaultAccuracy(scale, accuracy),
                         notes, faultSection, siteFeature))
  }

  /** The entries a base record was built from, with the derived accuracy in
      place of the given one. */
  function BaseAttributes(b: BaseObservation): AttributeMap {
    map["Scale" := b.scale, "Accuracy" := b.accuracy, "Notes" := b.notes,
        "Fault Section" := b.faultSection, "Site Feature" := b.siteFeature]
  }

  /** Rebuilding a base record from its own entries gives it back. */
  lemma BaseRoundTrip(b: BaseObservation)
    requires ValidBase(b)
    ensures NewBaseObservation(b.id, b.location, BaseAttributes(b)) == Ok(b)
  {
  }

  /** The base constructor as written: `identifier` is bound nowhere, so
      reading it raises a NameError whatever the arguments. */
  function NewBaseObservationAsWritten(identifer: string, location: Geometry, attributes: AttributeMap)
    : Result<BaseObservation>
  {
    Err(UnboundName("identifier"))
  }

  /** As written, no observation can be built, while the intended constructor
      accepts a complete dictionary. */
  lemma AsWrittenBuildsNoObservation(identifier: string, location: Geometry, attributes: AttributeMap)
    ensures NewBaseObservationAsWritten(identifier, location, attributes).Err?
    ensures BaseAccepts(location, attributes) ==> NewBaseObservation(identifier, location, attributes).Ok?
  {
  }

  // ---------------------------------------------------------- slip rate

  datatype ObservationSlipRate = ObservationSlipRate(
    base: BaseObservation,
    dipSlip: Parameter,
    strikeSlip: Parameter,
    verticalSlip: Parameter,
    netSlip: Parameter,
    hvRatio: Parameter,
    rake: Parameter,
    slipCategory: Value,
    slipType: Parameter,
    aseismic: Parameter)

  /** The slip-rate fields that must carry an uncertainty envelope. */
  const SlipRateEnvelopeKeys: set<string> :=
    {"Dip Slip", "Strike-Slip", "Vertical", "Net Slip", "HV Ratio", "Rake", "Slip Type", "Aseismic"}

  /** The slip-rate fields that may hold any value. */
  const SlipRatePlainKeys: set<string> := {"Slip Category"}

  predicate SlipRateAccepts(location: Geometry, attributes: AttributeMap) {
    && BaseAccepts(location, attributes)
    && HasKeys(attributes, SlipRatePlainKeys)
    && HasEnvelopes(attributes, SlipRateEnvelopeKeys)
  }

  /** `ObservationSlipRate.__init__`. */
  function NewObservationSlipRate(identifier: string, location: Geometry, attributes: AttributeMap)
    : (r: Result<ObservationSlipRate>)
    ensures NewBaseObservation(identifier, location, attributes).Err? ==>
      r == NewBaseObservation(identifier, location, attributes).PropagateFailure()
    ensures r.Ok? <==> SlipRateAccepts(location, attributes)
    ensures r == Err(NotPoint) <==> !location.Point?
    ensures r.Err? ==> r.error == NotPoint || r.error == NotParameter || r.error.MissingKey?
    ensures r.Err? && r.error.MissingKey? ==>
      && r.error.key !in attributes
      && r.error.key in BaseKeys + SlipRatePlainKeys + SlipRateEnvelopeKeys
    ensures r == Err(NotParameter) ==> HoldsPlainValue(attributes, SlipRateEnvelopeKeys)
    ensures r.Ok? ==> Ok(r.value.base) == NewBaseObservation(identifier, location, attributes)
    ensures r.Ok? ==> && PyParam(r.value.dipSlip) == attributes["Dip Slip"]
                      && PyParam(r.value.strikeSlip) == attributes["Strike-Slip"]
                      && PyParam(r.value.verticalSlip) == attributes["Vertical"]
                      && PyParam(r.value.netSlip) == attributes["Net Slip"]
                      && PyParam(r.value.hvRatio) == attributes["HV Ratio"]
                      && PyParam(r.value.rake) == attributes["Rake"]
                      && r.value.slipCategory == attributes["Slip Category"]
                      && PyParam(r.value.slipType) == attributes["Slip Type"]
                      && PyParam(r.value.aseismic) == attributes["Aseismic"]
  {
    var base :- NewBaseObservation(identifier, location, attributes);
    var dipSlip :- Envelope(attributes, "Dip Slip");
    var strikeSlip :- Envelope(attributes, "Strike-Slip");
    var verticalSlip :- Envelope(attributes, "Vertical");
    var netSlip :- Envelope(attributes, "Net Slip");
    var hvRatio :- Envelope(attributes, "HV Ratio");
    var rake :- Envelope(attributes, "Rake");
    var slipCategory :- Lookup(attributes, "Slip Category");
    var slipType :- Envelope(attributes, "Slip Type");
    var aseismic :- Envelope(attributes, "Aseismic");
    Ok(ObservationSlipRate(base, dipSlip, strikeSlip, verticalSlip, netSlip, hvRatio, rake,
                           slipCategory, slipType, aseismic))
  }

  /** The entries a slip-rate record was built from. */
  function SlipRateAttributes(o: ObservationSlipRate): AttributeMap {
    BaseAttributes(o.base) + map[
      "Dip Slip" := PyParam(o.dipSlip), "Strike-Slip" := PyParam(o.strikeSlip),
      "Vertical" := PyParam(o.verticalSlip), "Net Slip" := PyParam(o.netSlip),
      "HV Ratio" := PyParam(o.hvRatio), "Rake" := PyParam(o.rake),
      "Slip Category" := o.slipCategory, "Slip Type" := PyParam(o.slipType),
      "Aseismic" := PyParam(o.aseismic)]
  }

  /** Rebuilding a slip-rate record from its own entries gives it back. */
  lemma SlipRateRoundTrip(o: ObservationSlipRate)
    requires ValidBase(o.base)
    ensures NewObservationSlipRate(o.base.id, o.base.location, SlipRateAttributes(o)) == Ok(o)
  {
    var m := SlipRateAttributes(o);
    BaseRoundTrip(o.base);
    assert NewBaseObservation(o.base.id, o.base.location, m) == Ok(o.base) by {
      assert forall k :: k in BaseKeys ==> k in m && m[k] == BaseAttributes(o.base)[k];
    }
    SlipRateFromEntries(o, m);
  }

  /** The slip-rate constructor rebuilds `o` from any dictionary holding its
      entries. */
  lemma SlipRateFromEntries(o: ObservationSlipRate, m: AttributeMap)
    requires NewBaseObservation(o.base.id, o.base.location, m) == Ok(o.base)
    requires "Dip Slip" in m && m["Dip Slip"] == PyParam(o.dipSlip)
    requires "Strike-Slip" in m && m["Strike-Slip"] == PyParam(o.strikeSlip)
    requires "Vertical" in m && m["Vertical"] == PyParam(o.verticalSlip)
    requires "Net Slip" in m && m["Net Slip"] == PyParam(o.netSlip)
    requires "HV Ratio" in m && m["HV Ratio"] == PyParam(o.hvRatio)
    requires "Rake" in m && m["Rake"] == PyParam(o.rake)
    requires "Slip Category" in m && m["Slip Category"] == o.slipCategory
    requires "Slip Type" in m && m["Slip Type"] == PyParam(o.slipType)
    requires "Aseismic" in m && m["Aseismic"] == PyParam(o.aseismic)
    ensures NewObservationSlipRate(o.base.id, o.base.location, m) == Ok(o)
  {
  }

  /** `Slip Category` needs no envelope: any value there is stored as given
      and does not change whether the record is accepted. */
  lemma SlipCategoryMayBePlain(identifier: string, location: Geometry, attributes: AttributeMap, v: Value)
    requires NewObservationSlipRate(identifier, location, attributes).Ok?
    ensures var r := NewObservationSlipRate(identifier, location, attributes["Slip Category" := v]);
      r.Ok? && r.value.slipCategory == v
  {
    UpdateOutsideEnvelopes(attributes, SlipRateEnvelopeKeys, "Slip Category", v);
  }

  /** A plain value in any of the eight envelope fields rejects the record
      with the not-a-Parameter error once location and keys are in order. */
  lemma SlipRateRejectsPlainEnvelope(identifier: string, location: Geometry, attributes: AttributeMap, key: string)
    requires location.Point?
    requires HasKeys(attributes, BaseKeys + SlipRatePlainKeys + SlipRateEnvelopeKeys)
    requires key in SlipRateEnvelopeKeys && !attributes[key].PyParam?
    ensures NewObservationSlipRate(identifier, location, attributes) == Err(NotParameter)
  {
    assert !HasEnvelope(attributes, key);
  }

  // ------------------------------------------------------- displacement

  datatype ObservationDisplacement = ObservationDisplacement(
    base: BaseObservation,
    totalDisp: Value,
    category: Value,
    horizontalDisp: Value,
    verticalDisp: Value,
    netDisp: Value,
    displacement: Parameter)

  const DisplacementObsPlainKeys: set<string> :=
    {"Total Displacement", "Category", "Horizontal", "Vertical", "Net"}

  const DisplacementObsEnvelopeKeys: set<string> := {"Displacement"}

  predicate DisplacementObsAccepts(location: Geometry, attributes: AttributeMap) {
    && BaseAccepts(location, attributes)
    && HasKeys(attributes, DisplacementObsPlainKeys)
    && HasEnvelopes(attributes, DisplacementObsEnvelopeKeys)
  }

  /** `ObservationDisplacement.__init__`: only `Displacement` must be a
      Parameter; the component breakdown is stored as given. */
  function NewObservationDisplacement(identifier: string, location: Geometry, attributes: AttributeMap)
    : (r: Result<ObservationDisplacement>)
    ensures NewBaseObservation(identifier, location, attributes).Err? ==>
      r == NewBaseObservation(identifier, location, attributes).PropagateFailure()
    ensures r.Ok? <==> DisplacementObsAccepts(location, attributes)
    ensures r == Err(NotPoint) <==> !location.Point?
    ensures r.Err? ==> r.error == NotPoint || r.error == NotParameter || r.error.MissingKey?
    ensures r.Err? && r.error.MissingKey? ==>
      && r.error.key !in attributes
      && r.error.key in BaseKeys + DisplacementObsPlainKeys + DisplacementObsEnvelopeKeys
    ensures r == Err(NotParameter) ==> "Displacement" in attributes && !attributes["Displacement"].PyParam?
    ensures r.Ok? ==> Ok(r.value.base) == NewBaseObservation(identifier, location, attributes)
    ensures r.Ok? ==> && r.value.totalDisp == attributes["Total Displacement"]
                      && r.value.category == attributes["Category"]
                      && r.value.horizontalDisp == attributes["Horizontal"]
                      && r.value.verticalDisp == attributes["Vertical"]
                      && r.value.netDisp == attributes["Net"]
                      && PyParam(r.value.displacement) == attributes["Displacement"]
  {
    var base :- NewBaseObservation(identifier, location, attributes);
    var totalDisp :- Lookup(attributes, "Total Displacement");
    var category :- Lookup(attributes, "Category");
    var horizontalDisp :- Lookup(attributes, "Horizontal");
    var verticalDisp :- Lookup(attributes, "Vertical");
    var netDisp :- Lookup(attributes, "Net");
    var displacement :- Envelope(attributes, "Displacement");
    Ok(ObservationDisplacement(base, totalDisp, category, horizontalDisp, verticalDisp, netDisp, displacement))
  }

  function DisplacementObsAttributes(o: ObservationDisplacement): AttributeMap {
    BaseAttributes(o.base) + map[
      "Total Displacement" := o.totalDisp, "Category" := o.category,
      "Horizontal" := o.horizontalDisp, "Vertical" := o.verticalDisp, "Net" := o.netDisp,
      "Displacement" := PyParam(o.displacement)]
  }

  /** Rebuilding a displacement record from its own entries gives it back. */
  lemma DisplacementObsRoundTrip(o: ObservationDisplacement)
    requires ValidBase(o.base)
    ensures NewObservationDisplacement(o.base.id, o.base.location, DisplacementObsAttributes(o)) == Ok(o)
  {
  }

  // -------------------------------------------------------------- event

  datatype ObservationEvent = ObservationEvent(
    base: BaseObservation,
    recurrence: Parameter,
    recurrenceCategory: Value,
    movement: Parameter,
    movementCategory: Value,
    historicEvent: Value,
    prehistoricEvent: Value,
    markerAge: Value)

  const EventPlainKeys: set<string> :=
    {"Recurrence Category", "Movement Category", "Historic Event", "Prehistoric Event", "Marker Age"}

  const EventEnvelopeKeys: set<string> := {"Recurrence Interval", "Movement"}

  predicate EventAccepts(location: Geometry, attributes: AttributeMap) {
    && BaseAccepts(location, attributes)
    && HasKeys(attributes, EventPlainKeys)
    && HasEnvelopes(attributes, EventEnvelopeKeys)
  }

  /** `ObservationEvent.__init__`: the recurrence interval and the movement
      must be Parameters; categories, event flags and marker age need not. */
  function NewObservationEvent(identifier: string, location: Geometry, attributes: AttributeMap)
    : (r: Result<ObservationEvent>)
    ensures NewBaseObservation(identifier, location, attributes).Err? ==>
      r == NewBaseObservation(identifier, location, attributes).PropagateFailure()
    ensures r.Ok? <==> EventAccepts(location, attributes)
    ensures r == Err(NotPoint) <==> !location.Point?
    ensures r.Err? ==> r.error == NotPoint || r.error == NotParameter || r.error.MissingKey?
    ensures r.Err? && r.error.MissingKey? ==>
      && r.error.key !in attributes
      && r.error.key in BaseKeys + EventPlainKeys + EventEnvelopeKeys
    ensures r == Err(NotParameter) ==> HoldsPlainValue(attributes, EventEnvelopeKeys)
    ensures r.Ok? ==> Ok(r.value.base) == NewBaseObservation(identifier, location, attributes)
    ensures r.Ok? ==> && PyParam(r.value.recurrence) == attributes["Recurrence Interval"]
                      && r.value.recurrenceCategory == attributes["Recurrence Category"]
                      && PyParam(r.value.movement) == attributes["Movement"]
                      && r.value.movementCategory == attributes["Movement Category"]
                      && r.value.historicEvent == attributes["Historic Event"]
                      && r.value.prehistoricEvent == attributes["Prehistoric Event"]
                      && r.value.markerAge == attributes["Marker Age"]
  {
    var base :- NewBaseObservation(identifier, location, attributes);
    var recurrence :- Envelope(attributes, "Recurrence Interval");
    var recurrenceCategory :- Lookup(attributes, "Recurrence Category");
    var movement :- Envelope(attributes, "Movement");
    var movementCategory :- Lookup(attributes, "Movement Category");
    var historicEvent :- Lookup(attributes, "Historic Event");
    var prehistoricEvent :- Lookup(attributes, "Prehistoric Event");
    var markerAge :- Lookup(attributes, "Marker Age");
    Ok(ObservationEvent(base, recurrence, recurrenceCategory, movement, movementCategory,
                        historicEvent, prehistoricEvent, markerAge))
  }

  function EventAttributes(o: ObservationEvent): AttributeMap {
    BaseAttributes(o.base) + map[
      "Recurrence Interval" := PyParam(o.recurrence), "Recurrence Category" := o.recurrenceCategory,
      "Movement" := PyParam(o.movement), "Movement Category" := o.movementCategory,
      "Historic Event" := o.historicEvent, "Prehistoric Event" := o.prehistoricEvent,
      "Marker Age" := o.markerAge]
  }

  /** Rebuilding an event record from its own entries gives it back. */
  lemma EventRoundTrip(o: ObservationEvent)
    requires ValidBase(o.base)
    ensures NewObservationEvent(o.base.id, o.base.location, EventAttributes(o)) == Ok(o)
  {
    var m := EventAttributes(o);
    BaseRoundTrip(o.base);
    assert NewBaseObservation(o.base.id, o.base.location, m) == Ok(o.base) by {
      assert forall k :: k in BaseKeys ==> k in m && m[k] == BaseAttributes(o.base)[k];
    }
    assert Envelope(m, "Recurrence Interval") == Ok(o.recurrence);
    assert Lookup(m, "Recurrence Category") == Ok(o.recurrenceCategory);
    assert Envelope(m, "Movement") == Ok(o.movement);
    assert Lookup(m, "Movement Category") == Ok(o.movementCategory);
    assert Lookup(m, "Historic Event") == Ok(o.historicEvent);
    assert Lookup(m, "Prehistoric Event") == Ok(o.prehistoricEvent);
    assert Lookup(m, "Marker Age") == Ok(o.markerAge);
  }

  // ----------------------------------------------------------- geometry

  datatype ObservationGeometry = ObservationGeometry(
    base: BaseObservation,
    dipDirection: Value,
    downthrownSide: Value,
    strike: Value,
    dip: Value)

  const GeometryObsKeys: set<string> := {"Dip Direction", "Downthrown Side", "Strike", "Dip"}

  predicate GeometryObsAccepts(location: Geometry, attributes: AttributeMap) {
    BaseAccepts(location, attributes) && HasKeys(attributes, GeometryObsKeys)
  }

  /** `ObservationGeometry.__init__`: orientation fields are stored as given,
      none of them needs an envelope. */
  function NewObservationGeometry(identifier: string, location: Geometry, attributes: AttributeMap)
    : (r: Result<ObservationGeometry>)
    ensures NewBaseObservation(identifier, location, attributes).Err? ==>
      r == NewBaseObservation(identifier, location, attributes).PropagateFailure()
    ensures r.Ok? <==> GeometryObsAccepts(location, attributes)
    ensures r == Err(NotPoint) <==> !location.Point?
    ensures r.Err? ==> r.error == NotPoint || r.error.MissingKey?
    ensures r.Err? && r.error.MissingKey? ==>
      r.error.key !in attributes && r.error.key in BaseKeys + GeometryObsKeys
    ensures r.Ok? ==> Ok(r.value.base) == NewBaseObservation(identifier, location, attributes)
    ensures r.Ok? ==> && r.value.dipDirection == attributes["Dip Direction"]
                      && r.value.downthrownSide == attributes["Downthrown Side"]
                      && r.value.strike == attributes["Strike"]
                      && r.value.dip == attributes["Dip"]
  {
    var base :- NewBaseObservation(identifier, location, attributes);
    var dipDirection :- Lookup(attributes, "Dip Direction");
    var downthrownSide :- Lookup(attributes, "Downthrown Side");
    var strike :- Lookup(attributes, "Strike");
    var dip :- Lookup(attributes, "Dip");
    Ok(ObservationGeometry(base, dipDirection, downthrownSide, strike, dip))
  }

  function GeometryObsAttributes(o: ObservationGeometry): AttributeMap {
    BaseAttributes(o.base) + map[
      "Dip Direction" := o.dipDirection, "Downthrown Side" := o.downthrownSide,
      "Strike" := o.strike, "Dip" := o.dip]
  }

  /** Rebuilding a geometry record from its own entries gives it back. */
  lemma GeometryObsRoundTrip(o: ObservationGeometry)
    requires ValidBase(o.base)
    ensures NewObservationGeometry(o.base.id, o.base.location, GeometryObsAttributes(o)) == Ok(o)
  {
  }

  // ----------------------------------------------------- all variants

  /** A dictionary without `Notes` is rejected by every variant with a
      KeyError naming `Notes`, once the location and the two keys read
      before it are in order. */
  lemma MissingNotesIsNamed(identifier: string, location: Geometry, attributes: AttributeMap)
    requires location.Point?
    requires "Scale" in attributes && "Accuracy" in attributes && "Notes" !in attributes
    ensures NewObservationDisplacement(identifier, location, attributes) == Err(MissingKey("Notes"))
    ensures NewObservationEvent(identifier, location, attributes) == Err(MissingKey("Notes"))
    ensures NewObservationGeometry(identifier, location, attributes) == Err(MissingKey("Notes"))
    ensures NewObservationSlipRate(identifier, location, attributes) == Err(MissingKey("Notes"))
  {
  }

  /** Every variant's base part is the base record the shared constructor
      builds, so the accuracy rule applies to all of them alike. */
  lemma VariantsShareBase(identifier: string, location: Geometry, attributes: AttributeMap)
    ensures NewObservationDisplacement(identifier, location, attributes).Ok? ==>
      ValidBase(NewObservationDisplacement(identifier, location, attributes).value.base)
    ensures NewObservationEvent(identifier, location, attributes).Ok? ==>
      ValidBase(NewObservationEvent(identifier, location, attributes).value.base)
    ensures NewObservationGeometry(identifier, location, attributes).Ok? ==>
      ValidBase(NewObservationGeometry(identifier, location, attributes).value.base)
    ensures NewObservationSlipRate(identifier, location, attributes).Ok? ==>
      ValidBase(NewObservationSlipRate(identifier, location, attributes).value.base)
  {
  }
}
