/** Traces, displacement summaries and the fault-level attribute bundle
    (`BaseFault`), and the assembly of observations into sections and of
    sections into faults. */
module Faults {
  import opened Results
  import opened Values
  import opened Fields
  import opened Observations

  // ------------------------------------------------------------- trace

  /** A mapped trace. Unlike an observation, its accuracy is stored exactly
      as given: there is no default derived from the scale. */
  datatype FaultTrace = FaultTrace(
    id: string,
    geometry: Geometry,
    scale: Value,
    accuracy: Value,
    notes: Value,
    name: Value,
    locationMethod: Value,
    expression: Value)

  const TraceKeys: set<string> :=
    {"Scale", "Accuracy", "Notes", "Name", "Location Method", "Geomorphic Expression"}

  predicate TraceAccepts(geometry: Geometry, attributes: AttributeMap) {
    geometry.Line? && HasKeys(attributes, TraceKeys)
  }

  /** `FaultTrace.__init__`. */
  function NewFaultTrace(identifier: string, geometry: Geometry, attributes: AttributeMap)
    : (r: Result<FaultTrace>)
    ensures r.Ok? <==> TraceAccepts(geometry, attributes)
    ensures r == Err(NotLine) <==> !geometry.Line?
    ensures r.Err? ==> r.error == NotLine || r.error.MissingKey?
    ensures r.Err? && r.error.MissingKey? ==> r.error.key !in attributes && r.error.key in TraceKeys
    ensures r.Ok? ==> r.value.id == identifier && r.value.geometry == geometry
    ensures r.Ok? ==> && r.value.scale == attributes["Scale"]
                      && r.value.accuracy == attributes["Accuracy"]
                      && r.value.notes == attributes["Notes"]
                      && r.value.name == attributes["Name"]
                      && r.value.locationMethod == attributes["Location Method"]
                      && r.value.expression == attributes["Geomorphic Expression"]
  {
    if !geometry.Line? then Err(NotLine)
    else
      var scale :- Lookup(attributes, "Scale");
      var accuracy :- Lookup(attributes, "Accuracy");
      var notes :- Lookup(attributes, "Notes");
      var name :- Lookup(attributes, "Name");
      var locationMethod :- Lookup(attributes, "Location Method");
      var expression :- Lookup(attributes, "Geomorphic Expression");
      Ok(FaultTrace(identifier, geometry, scale, accuracy, notes, name, locationMethod, expression))
  }

  /** The entries a trace was built from. */
  function TraceAttributes(t: FaultTrace): AttributeMap {
    map["Scale" := t.scale, "Accuracy" := t.accuracy, "Notes" := t.notes, "Name" := t.name,
        "Location Method" := t.locationMethod, "Geomorphic Expression" := t.expression]
  }

  /** Rebuilding a trace on a line from its own entries gives it back. */
  lemma TraceRoundTrip(t: FaultTrace)
    requires t.geometry.Line?
    ensures NewFaultTrace(t.id, t.geometry, TraceAttributes(t)) == Ok(t)
  {
  }

  /** The same scale and missing accuracy give an observation an accuracy of
      twice the scale but leave a trace's accuracy None. */
  lemma TraceKeepsAccuracyAsGiven(identifier: string, point: Geometry, line: Geometry, attributes: AttributeMap)
    requires point.Point? && line.Line?
    requires HasKeys(attributes, TraceKeys + BaseKeys)
    requires attributes["Scale"] == PyInt(25000) && attributes["Accuracy"] == PyNone
    ensures NewFaultTrace(identifier, line, attributes).value.accuracy == PyNone
    ensures NewBaseObservation(identifier, point, attributes).value.accuracy == PyInt(50000)
  {
  }

  // ------------------------------------------------------ displacement

  /** A displacement summary: only `value` must be a Parameter. */
  datatype Displacement = Displacement(
    total: Value,
    category: Value,
    horizontal: Value,
    vertical: Value,
    net: Value,
    value: Parameter)

  const DisplacementPlainKeys: set<string> := {"Total", "Category", "Horizontal", "Vertical", "Net"}

  predicate DisplacementAccepts(attributes: AttributeMap) {
    HasKeys(attributes, DisplacementPlainKeys) && HasEnvelope(attributes, "Value")
  }

  /** `Displacement.__init__`. */
  function NewDisplacement(attributes: AttributeMap): (r: Result<Displacement>)
    ensures r.Ok? <==> DisplacementAccepts(attributes)
    ensures r.Err? ==> r.error == NotParameter || r.error.MissingKey?
    ensures r.Err? && r.error.MissingKey? ==>
      r.error.key !in attributes && r.error.key in DisplacementPlainKeys + {"Value"}
    ensures r == Err(NotParameter) ==> "Value" in attributes && !attributes["Value"].PyParam?
    ensures r.Ok? ==> && r.value.total == attributes["Total"]
                      && r.value.category == attributes["Category"]
                      && r.value.horizontal == attributes["Horizontal"]
                      && r.value.vertical == attributes["Vertical"]
                      && r.value.net == attributes["Net"]
                      && PyParam(r.value.value) == attributes["Value"]
  {
    var total :- Lookup(attributes, "Total");
    var category :- Lookup(attributes, "Category");
    var horizontal :- Lookup(attributes, "Horizontal");
    var vertical :- Lookup(attributes, "Vertical");
    var net :- Lookup(attributes, "Net");
    var value :- Envelope(attributes, "Value");
    Ok(Displacement(total, category, horizontal, vertical, net, value))
  }

  function DisplacementAttributes(d: Displacement): AttributeMap {
    map["Total" := d.total, "Category" := d.category, "Horizontal" := d.horizontal,
        "Vertical" := d.vertical, "Net" := d.net, "Value" := PyParam(d.value)]
  }

  /** Rebuilding a displacement summary from its own entries gives it back. */
  lemma DisplacementRoundTrip(d: Displacement)
    ensures NewDisplacement(DisplacementAttributes(d)) == Ok(d)
  {
  }

  // -------------------------------------------------------- base fault

  /** The fault-level attribute bundle shared by sections and faults. The
      geometry, length and curator fields start unset. */
  datatype BaseFault = BaseFault(
    id: string,
    name: Value,
    geometry: Option<Geometry>,
    length: Value,
    isEpisodic: Value,
    strike: Value,
    surfaceDip: Value,
    downthrownSide: Value,
    upperSeismogenicDepth: Parameter,
    lowerSeismogenicDepth: Parameter,
    dip: Parameter,
    dipDirection: Parameter,
    dipSlip: Parameter,
    strikeSlip: Parameter,
    verticalSlip: Parameter,
    aspect: Parameter,
    slip: Parameter,
    slipCategory: Value,
    rake: Parameter,
    slipType: Parameter,
    aseismic: Parameter,
    displacement: Value,
    recurrence: Parameter,
    movement: Parameter,
    historic: Value,
    prehistoric: Value,
    compiler: Value,
    contributor: Value,
    created: Value,
    comment: Value)

  /** The bundle fields that may hold any value. */
  const BaseFaultPlainKeys: set<string> :=
    {"Episodic", "Strike", "Surface Dip", "Downthrown Side", "Slip Category",
     "Displacement", "Historical Event", "Pre-historic"}

  /** The bundle fields that must carry an uncertainty envelope. */
  const BaseFaultEnvelopeKeys: set<string> :=
    {"Upper Depth", "Lower Depth", "Dip", "Dip Direction", "Dip Slip", "Strike Slip",
     "Vertical Slip", "HV Ratio", "Net Slip", "Rake", "Slip Type", "Aseismic",
     "Recurrence", "Movement"}

  predicate BaseFaultAccepts(attributes: AttributeMap) {
    HasKeys(attributes, BaseFaultPlainKeys) && HasEnvelopes(attributes, BaseFaultEnvelopeKeys)
  }

  /** A bundle as the constructor leaves it: no geometry, length or curator
      data yet. */
  predicate Unfilled(f: BaseFault) {
    && f.geometry == None && f.length == PyNone
    && f.compiler == PyNone && f.contributor == PyNone && f.created == PyNone && f.comment == PyNone
  }

  /** `BaseFault.__init__`. The source's `__init__` lacks `self`; this is the
      evidently intended method (see `NewBaseFaultAsWritten`). */
  function NewBaseFault(identifier: string, name: Value, attributes: AttributeMap)
    : (r: Result<BaseFault>)
    ensures r.Ok? <==> BaseFaultAccepts(attributes)
    ensures r.Err? ==> r.error == NotParameter || r.error.MissingKey?
    ensures r.Err? && r.error.MissingKey? ==>
      r.error.key !in attributes && r.error.key in BaseFaultPlainKeys + BaseFaultEnvelopeKeys
    ensures r == Err(NotParameter) ==> HoldsPlainValue(attributes, BaseFaultEnvelopeKeys)
    ensures r.Ok? ==> r.value.id == identifier && r.value.name == name && Unfilled(r.value)
    ensures r.Ok? ==> && r.value.isEpisodic == attributes["Episodic"]
                      && r.value.strike == attributes["Strike"]
                      && r.value.surfaceDip == attributes["Surface Dip"]
                      && r.value.downthrownSide == attributes["Downthrown Side"]
                      && r.value.slipCategory == attributes["Slip Category"]
                      && r.value.displacement == attributes["Displacement"]
                      && r.value.historic == attributes["Historical Event"]
                      && r.value.prehistoric == attributes["Pre-historic"]
    ensures r.Ok? ==> && PyParam(r.value.upperSeismogenicDepth) == attributes["Upper Depth"]
                      && PyParam(r.value.lowerSeismogenicDepth) == attributes["Lower Depth"]
                      && PyParam(r.value.dip) == attributes["Dip"]
                      && PyParam(r.value.dipDirection) == attributes["Dip Direction"]
                      && PyParam(r.value.dipSlip) == attributes["Dip Slip"]
                      && PyParam(r.value.strikeSlip) == attributes["Strike Slip"]
                      && PyParam(r.value.verticalSlip) == attributes["Vertical Slip"]
                      && PyParam(r.value.aspect) == attributes["HV Ratio"]
                      && PyParam(r.value.slip) == attributes["Net Slip"]
                      && PyParam(r.value.rake) == attributes["Rake"]
                      && PyParam(r.value.slipType) == attributes["Slip Type"]
                      && PyParam(r.value.aseismic) == attributes["Aseismic"]
                      && PyParam(r.value.recurrence) == attributes["Recurrence"]
                      && PyParam(r.value.movement) == attributes["Movement"]
  {
    var isEpisodic :- Lookup(attributes, "Episodic");
    var strike :- Lookup(attributes, "Strike");
    var surfaceDip :- Lookup(attributes, "Surface Dip");
    var downthrownSide :- Lookup(attributes, "Downthrown Side");
    var upperDepth :- Envelope(attributes, "Upper Depth");
    var lowerDepth :- Envelope(attributes, "Lower Depth");
    var dip :- Envelope(attributes, "Dip");
    var dipDirection :- Envelope(attributes, "Dip Direction");
    var dipSlip :- Envelope(attributes, "Dip Slip");
    var strikeSlip :- Envelope(attributes, "Strike Slip");
    var verticalSlip :- Envelope(attributes, "Vertical Slip");
    var aspect :- Envelope(attributes, "HV Ratio");
    var slip :- Envelope(attributes, "Net Slip");
    var slipCategory :- Lookup(attributes, "Slip Category");
    var rake :- Envelope(attributes, "Rake");
    var slipType :- Envelope(attributes, "Slip Type");
    var aseismic :- Envelope(attributes, "Aseismic");
    var displacement :- Lookup(attributes, "Displacement");
    var recurrence :- Envelope(attributes, "Recurrence");
    var movement :- Envelope(attributes, "Movement");
    var historic :- Lookup(attributes, "Historical Event");
    var prehistoric :- Lookup(attributes, "Pre-historic");
    Ok(BaseFault(identifier, name, None, PyNone, isEpisodic, strike, surfaceDip, downthrownSide,
                 upperDepth, lowerDepth, dip, dipDirection, dipSlip, strikeSlip, verticalSlip,
                 aspect, slip, slipCategory, rake, slipType, aseismic, displacement,
                 recurrence, movement, historic, prehistoric, PyNone, PyNone, PyNone, PyNone))
  }

  /** Rebuilding an unfilled bundle from any dictionary holding its entries
      gives it back. */
  lemma BaseFaultRoundTrip(f: BaseFault, m: AttributeMap)
    requires Unfilled(f)
    requires "Episodic" in m && m["Episodic"] == f.isEpisodic
    requires "Strike" in m && m["Strike"] == f.strike
    requires "Surface Dip" in m && m["Surface Dip"] == f.surfaceDip
    requires "Downthrown Side" in m && m["Downthrown Side"] == f.downthrownSide
    requires "Upper Depth" in m && m["Upper Depth"] == PyParam(f.upperSeismogenicDepth)
    requires "Lower Depth" in m && m["Lower Depth"] == PyParam(f.lowerSeismogenicDepth)
    requires "Dip" in m && m["Dip"] == PyParam(f.dip)
    requires "Dip Direction" in m && m["Dip Direction"] == PyParam(f.dipDirection)
    requires "Dip Slip" in m && m["Dip Slip"] == PyParam(f.dipSlip)
    requires "Strike Slip" in m && m["Strike Slip"] == PyParam(f.strikeSlip)
    requires "Vertical Slip" in m && m["Vertical Slip"] == PyParam(f.verticalSlip)
    requires "HV Ratio" in m && m["HV Ratio"] == PyParam(f.aspect)
    requires "Net Slip" in m && m["Net Slip"] == PyParam(f.slip)
    requires "Slip Category" in m && m["Slip Category"] == f.slipCategory
    requires "Rake" in m && m["Rake"] == PyParam(f.rake)
    requires "Slip Type" in m && m["Slip Type"] == PyParam(f.slipType)
    requires "Aseismic" in m && m["Aseismic"] == PyParam(f.aseismic)
    requires "Displacement" in m && m["Displacement"] == f.displacement
    requires "Recurrence" in m && m["Recurrence"] == PyParam(f.recurrence)
    requires "Movement" in m && m["Movement"] == PyParam(f.movement)
    requires "Historical Event" in m && m["Historical Event"] == f.historic
    requires "Pre-historic" in m && m["Pre-historic"] == f.prehistoric
    ensures NewBaseFault(f.id, f.name, m) == Ok(f)
  {
  }

  /** No bundle field is both plain and enveloped. */
  lemma FaultKeySetsDisjoint()
    ensures BaseFaultPlainKeys !! BaseFaultEnvelopeKeys
  {
  }

  /** The plain bundle fields may hold anything: replacing one of them keeps
      the bundle acceptable and stores the new value. */
  lemma PlainFaultFieldsNeedNoEnvelope(identifier: string, name: Value, attributes: AttributeMap,
                                       key: string, v: Value)
    requires NewBaseFault(identifier, name, attributes).Ok?
    requires key in BaseFaultPlainKeys
    ensures NewBaseFault(identifier, name, attributes[key := v]).Ok?
  {
    FaultKeySetsDisjoint();
    UpdateOutsideEnvelopes(attributes, BaseFaultEnvelopeKeys, key, v);
  }

  /** A plain value in any envelope field rejects the bundle with the
      not-a-Parameter error once every key is present. */
  lemma BaseFaultRejectsPlainEnvelope(identifier: string, name: Value, attributes: AttributeMap, key: string)
    requires HasKeys(attributes, BaseFaultPlainKeys + BaseFaultEnvelopeKeys)
    requires key in BaseFaultEnvelopeKeys && !attributes[key].PyParam?
    ensures NewBaseFault(identifier, name, attributes) == Err(NotParameter)
  {
    assert !HasEnvelope(attributes, key);
  }

  /** `BaseFault` as written: `__init__` takes no `self`, so calling
      `BaseFault(identifier, name, attributes)` passes four arguments to a
      three-parameter method and raises a TypeError. */
  function NewBaseFaultAsWritten(identifier: string, name: Value, attributes: AttributeMap)
    : Result<BaseFault>
  {
    Err(ArgumentCount)
  }

  /** As written, no bundle can be built, while the intended constructor
      accepts every complete dictionary of envelopes. */
  lemma AsWrittenBuildsNoBundle(identifier: string, name: Value, attributes: AttributeMap)
    ensures NewBaseFaultAsWritten(identifier, name, attributes).Err?
    ensures BaseFaultAccepts(attributes) ==> NewBaseFault(identifier, name, attributes).Ok?
  {
  }

  // ------------------------------------------------- section and fault

  /** A neotectonic section: its own attribute bundle, with the trace
      geometry attached, and the observation lists it was given, each
      possibly absent. */
  datatype NeotectonicSection = NeotectonicSection(
    data: BaseFault,
    slipObservations: Option<seq<ObservationSlipRate>>,
    eventList: Option<seq<ObservationEvent>>,
    traceObservations: Option<seq<FaultTrace>>,
    displacementObservations: Option<seq<ObservationDisplacement>>,
    geometryObservations: Option<seq<ObservationGeometry>>)

  /** Building a section: the bundle is validated from the attribute
      dictionary, then the geometry and the observation lists are attached
      as given. */
  function NewNeotectonicSection(
    identifier: string, name: Value, attributes: AttributeMap, geometry: Option<Geometry>,
    slipObs: Option<seq<ObservationSlipRate>>, eventList: Option<seq<ObservationEvent>>,
    traceObs: Option<seq<FaultTrace>>, dispObservation: Option<seq<ObservationDisplacement>>,
    geometryObs: Option<seq<ObservationGeometry>>)
    : (r: Result<NeotectonicSection>)
    ensures r.Ok? <==> BaseFaultAccepts(attributes)
    ensures r.Err? ==> r == NewBaseFault(identifier, name, attributes).PropagateFailure()
    ensures r.Ok? ==> r.value.data == NewBaseFault(identifier, name, attributes).value.(geometry := geometry)
    ensures r.Ok? ==> && r.value.slipObservations == slipObs
                      && r.value.eventList == eventList
                      && r.value.traceObservations == traceObs
                      && r.value.displacementObservations == dispObservation
                      && r.value.geometryObservations == geometryObs
  {
    var data :- NewBaseFault(identifier, name, attributes);
    Ok(NeotectonicSection(data.(geometry := geometry), slipObs, eventList, traceObs,
                          dispObservation, geometryObs))
  }

  /** A neotectonic fault: its sections in order, and a fault-level bundle
      only when an attribute dictionary is given. */
  datatype NeotectonicFault = NeotectonicFault(
    id: string,
    name: Value,
    sections: seq<NeotectonicSection>,
    data: Option<BaseFault>)

  /** Building a fault: sections are stored as given; a bundle is built, and
      must validate, only when a dictionary is supplied. */
  function NewNeotectonicFault(identifier: string, name: Value, sections: seq<NeotectonicSection>,
                               attributes: Option<AttributeMap>)
    : (r: Result<NeotectonicFault>)
    ensures r.Ok? <==> attributes.None? || BaseFaultAccepts(attributes.value)
    ensures r.Err? ==> attributes.Some? && r == NewBaseFault(identifier, name, attributes.value).PropagateFailure()
    ensures r.Ok? ==> r.value.id == identifier && r.value.name == name && r.value.sections == sections
    ensures r.Ok? ==> (r.value.data.Some? <==> attributes.Some?)
    ensures r.Ok? && attributes.Some? ==>
      Ok(r.value.data.value) == NewBaseFault(identifier, name, attributes.value)
  {
    match attributes
    case Some(dictionary) =>
      var data :- NewBaseFault(identifier, name, dictionary);
      Ok(NeotectonicFault(identifier, name, sections, Some(data)))
    case None =>
      Ok(NeotectonicFault(identifier, name, sections, None))
  }

  /** Three slip-rate observations attached to one section, and that section
      to a fault without a bundle of its own: the fault exposes exactly that
      section, whose slip list is the three observations in order. */
  lemma ThreeObservationsOneSection(
    identifier: string, name: Value, attributes: AttributeMap, trace: Geometry,
    s1: ObservationSlipRate, s2: ObservationSlipRate, s3: ObservationSlipRate)
    requires BaseFaultAccepts(attributes)
    ensures var section := NewNeotectonicSection(identifier, name, attributes, Some(trace),
                                                 Some([s1, s2, s3]), None, None, None, None);
      && section.Ok?
      && var fault := NewNeotectonicFault(identifier, name, [section.value], None);
      && fault.Ok?
      && |fault.value.sections| == 1
      && fault.value.sections[0].slipObservations == Some([s1, s2, s3])
      && fault.value.sections[0].data.geometry == Some(trace)
  {
  }
}
