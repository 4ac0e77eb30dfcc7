/** The request and response schemas of the price-estimate API (api/schemas.py).

    A property description is received as a record in which every field may be
    absent (`RawFeatures`: JSON `null` and a missing key both read as `None`).
    Validation either rejects it with the list of field errors, in the order in
    which the fields are declared, or returns a `PropertyFeatures` whose required
    fields are plain values and whose optional attributes are exactly the ones
    received: nothing is defaulted, guessed or dropped. */
module Schemas {
  import opened Wrappers

  // ---------------------------------------------------------------------------
  // Records
  // ---------------------------------------------------------------------------

  /** The fields of `Location`. `Text` and `Code` are the types of the three
      required fields: `Option<...>` as received, plain once validated. */
  datatype LocationOf<Text, Code> = LocationOf(
    province: Text,
    postcode: Code,
    locality: Text,
    region: Option<string>,
    country: Option<string>)

  type RawLocation = LocationOf<Option<string>, Option<int>>
  type Location = LocationOf<string, int>

  /** The fields of `PropertyFeatures`, in declaration order. `Text`, `Loc` and
      `Surface` are the types of the required `property_type`, `location` and
      `livable_surface`; every other attribute is optional in both forms. */
  datatype Descriptor<Text, Loc, Surface> = Descriptor(
    propertyType: Text,
    subtypeOfProperty: Option<string>,
    location: Loc,
    numberOfBedrooms: Option<int>,
    livableSurface: Surface,
    totalLandSurface: Option<int>,
    surfaceGarden: Option<int>,
    surfaceTerrace: Option<int>,
    numberOfFacades: Option<int>,
    numberOfBathrooms: Option<int>,
    numberOfShowers: Option<int>,
    numberOfToilets: Option<int>,
    garage: Option<bool>,
    numberOfGarages: Option<int>,
    numberOfGaragesNumeric: Option<real>,
    stateOfProperty: Option<string>,
    availability: Option<string>,
    furnished: Option<bool>,
    attic: Option<bool>,
    garden: Option<bool>,
    terrace: Option<bool>,
    swimmingPool: Option<bool>,
    kitchenEquipment: Option<string>,
    kitchenType: Option<string>,
    typeOfHeating: Option<string>,
    typeOfGlazing: Option<string>,
    elevator: Option<bool>)

  type RawFeatures = Descriptor<Option<string>, Option<RawLocation>, Option<int>>
  type PropertyFeatures = Descriptor<string, Location, int>

  /** `PredictionRequest`: the body of a prediction call wraps one descriptor. */
  datatype PredictionRequest = PredictionRequest(data: PropertyFeatures)

  /** `PredictionResponse`: price, derived price per m² and a status code. */
  datatype PredictionResponse = PredictionResponse(
    prediction: Option<real>,
    pricePerM2: Option<real>,
    statusCode: int)

  /** The constraint a field error reports, after pydantic's error types. */
  datatype Constraint =
    | Missing                       // a required field is absent or null
    | StringTooShort(minLength: nat)
    | GreaterThanEqual(ge: int)
    | LessThanEqual(le: int)

  /** One field error: the path of the field and the constraint it violates. */
  datatype FieldError = FieldError(loc: seq<string>, kind: Constraint)

  // ---------------------------------------------------------------------------
  // Validity of a validated record
  // ---------------------------------------------------------------------------

  predicate NonEmpty(s: string) { |s| >= 1 }

  predicate AbsentOrNonEmpty(v: Option<string>) { v.None? || NonEmpty(v.value) }

  predicate AbsentOrAtLeast(v: Option<int>, lo: int) { v.None? || v.value >= lo }

  predicate AbsentOrWithin(v: Option<int>, lo: int, hi: int) { v.None? || lo <= v.value <= hi }

  predicate AbsentOrNonNegative(v: Option<real>) { v.None? || v.value >= 0.0 }

  /** The constraints declared on `Location`. */
  predicate ValidLocation(l: Location) {
    && NonEmpty(l.province)
    && 1000 <= l.postcode <= 9999
    && NonEmpty(l.locality)
    && AbsentOrNonEmpty(l.region)
    && AbsentOrNonEmpty(l.country)
  }

  /** The constraints declared on `PropertyFeatures`. */
  predicate Valid(f: PropertyFeatures) {
    && NonEmpty(f.propertyType)
    && AbsentOrNonEmpty(f.subtypeOfProperty)
    && ValidLocation(f.location)
    && AbsentOrAtLeast(f.numberOfBedrooms, 0)
    && f.livableSurface >= 1
    && AbsentOrAtLeast(f.totalLandSurface, 1)
    && AbsentOrAtLeast(f.surfaceGarden, 0)
    && AbsentOrAtLeast(f.surfaceTerrace, 0)
    && AbsentOrWithin(f.numberOfFacades, 1, 4)
    && AbsentOrAtLeast(f.numberOfBathrooms, 0)
    && AbsentOrAtLeast(f.numberOfShowers, 0)
    && AbsentOrAtLeast(f.numberOfToilets, 0)
    && AbsentOrAtLeast(f.numberOfGarages, 0)
    && AbsentOrNonNegative(f.numberOfGaragesNumeric)
    && AbsentOrNonEmpty(f.stateOfProperty)
    && AbsentOrNonEmpty(f.availability)
    && AbsentOrNonEmpty(f.kitchenEquipment)
    && AbsentOrNonEmpty(f.kitchenType)
    && AbsentOrNonEmpty(f.typeOfHeating)
    && AbsentOrNonEmpty(f.typeOfGlazing)
  }

  // ---------------------------------------------------------------------------
  // From a validated record back to the received form
  // ---------------------------------------------------------------------------

  function LocationToRaw(l: Location): RawLocation {
    LocationOf(Some(l.province), Some(l.postcode), Some(l.locality), l.region, l.country)
  }

  /** The received record that carries exactly the fields of `f`. */
  function ToRaw(f: PropertyFeatures): RawFeatures {
    Descriptor(
      Some(f.propertyType), f.subtypeOfProperty, Some(LocationToRaw(f.location)),
      f.numberOfBedrooms, Some(f.livableSurface), f.totalLandSurface,
      f.surfaceGarden, f.surfaceTerrace, f.numberOfFacades, f.numberOfBathrooms,
      f.numberOfShowers, f.numberOfToilets, f.garage, f.numberOfGarages,
      f.numberOfGaragesNumeric, f.stateOfProperty, f.availability, f.furnished,
      f.attic, f.garden, f.terrace, f.swimmingPool, f.kitchenEquipment,
      f.kitchenType, f.typeOfHeating, f.typeOfGlazing, f.elevator)
  }

  // ---------------------------------------------------------------------------
  // Field checks, one per declared constraint
  // ---------------------------------------------------------------------------

  function TextErrors(loc: seq<string>, s: string): (r: seq<FieldError>)
    ensures r == [] <==> NonEmpty(s)
    ensures forall e :: e in r ==> e.loc == loc
  {
    if |s| < 1 then [FieldError(loc, StringTooShort(1))] else []
  }

  function RequiredTextErrors(loc: seq<string>, v: Option<string>): (r: seq<FieldError>)
    ensures r == [] <==> v.Some? && NonEmpty(v.value)
    ensures forall e :: e in r ==> e.loc == loc
  {
    match v
    case None => [FieldError(loc, Missing)]
    case Some(s) => TextErrors(loc, s)
  }

  function OptionalTextErrors(loc: seq<string>, v: Option<string>): (r: seq<FieldError>)
    ensures r == [] <==> AbsentOrNonEmpty(v)
    ensures forall e :: e in r ==> e.loc == loc
  {
    match v
    case None => []
    case Some(s) => TextErrors(loc, s)
  }

  /** `ge` and, when `le` is given, `le` bounds of an integer field. */
  function IntErrors(loc: seq<string>, n: int, ge: int, le: Option<int>): (r: seq<FieldError>)
    ensures r == [] <==> ge <= n && (le.Some? ==> n <= le.value)
    ensures forall e :: e in r ==> e.loc == loc
  {
    if n < ge then [FieldError(loc, GreaterThanEqual(ge))]
    else if le.Some? && n > le.value then [FieldError(loc, LessThanEqual(le.value))]
    else []
  }

  function RequiredIntErrors(loc: seq<string>, v: Option<int>, ge: int, le: Option<int>): (r: seq<FieldError>)
    ensures r == [] <==> v.Some? && ge <= v.value && (le.Some? ==> v.value <= le.value)
    ensures forall e :: e in r ==> e.loc == loc
  {
    match v
    case None => [FieldError(loc, Missing)]
    case Some(n) => IntErrors(loc, n, ge, le)
  }

  function OptionalIntErrors(loc: seq<string>, v: Option<int>, ge: int, le: Option<int>): (r: seq<FieldError>)
    ensures r == [] <==> v.None? || (ge <= v.value && (le.Some? ==> v.value <= le.value))
    ensures forall e :: e in r ==> e.loc == loc
  {
    match v
    case None => []
    case Some(n) => IntErrors(loc, n, ge, le)
  }

  function OptionalRealErrors(loc: seq<string>, v: Option<real>, ge: int): (r: seq<FieldError>)
    ensures r == [] <==> v.None? || v.value >= ge as real
    ensures forall e :: e in r ==> e.loc == loc
  {
    match v
    case None => []
    case Some(x) => if x < ge as real then [FieldError(loc, GreaterThanEqual(ge))] else []
  }

  /** The errors of a received `Location` found at path `at`, in field order:
      none exactly when the required fields are there and every constraint holds. */
  function LocationErrors(at: seq<string>, l: RawLocation): (r: seq<FieldError>)
    ensures r == [] <==> LocationPresent(l) && ValidLocation(LocationFromRaw(l))
  {
    RequiredTextErrors(at + ["province"], l.province)
    + RequiredIntErrors(at + ["postcode"], l.postcode, 1000, Some(9999))
    + RequiredTextErrors(at + ["locality"], l.locality)
    + OptionalTextErrors(at + ["region"], l.region)
    + OptionalTextErrors(at + ["country"], l.country)
  }

  /** The errors of a received `PropertyFeatures` found at path `at`, in field
      order: none exactly when the required fields are there and every
      constraint holds. */
  function FeatureErrors(at: seq<string>, r: RawFeatures): (errors: seq<FieldError>)
    ensures errors == [] <==> RequiredPresent(r) && Valid(FromRaw(r))
  {
    RequiredTextErrors(at + ["property_type"], r.propertyType)
    + OptionalTextErrors(at + ["subtype_of_property"], r.subtypeOfProperty)
    + (match r.location
       case None => [FieldError(at + ["location"], Missing)]
       case Some(l) => LocationErrors(at + ["location"], l))
    + OptionalIntErrors(at + ["number_of_bedrooms"], r.numberOfBedrooms, 0, None)
    + RequiredIntErrors(at + ["livable_surface"], r.livableSurface, 1, None)
    + OptionalIntErrors(at + ["total_land_surface"], r.totalLandSurface, 1, None)
    + OptionalIntErrors(at + ["surface_garden"], r.surfaceGarden, 0, None)
    + OptionalIntErrors(at + ["surface_terrace"], r.surfaceTerrace, 0, None)
    + OptionalIntErrors(at + ["number_of_facades"], r.numberOfFacades, 1, Some(4))
    + OptionalIntErrors(at + ["number_of_bathrooms"], r.numberOfBathrooms, 0, None)
    + OptionalIntErrors(at + ["number_of_showers"], r.numberOfShowers, 0, None)
    + OptionalIntErrors(at + ["number_of_toilets"], r.numberOfToilets, 0, None)
    + OptionalIntErrors(at + ["number_of_garages"], r.numberOfGarages, 0, None)
    + OptionalRealErrors(at + ["number_of_garages_numeric"], r.numberOfGaragesNumeric, 0)
    + OptionalTextErrors(at + ["state_of_property"], r.stateOfProperty)
    + OptionalTextErrors(at + ["availability"], r.availability)
    + OptionalTextErrors(at + ["kitchen_equipment"], r.kitchenEquipment)
    + OptionalTextErrors(at + ["kitchen_type"], r.kitchenType)
    + OptionalTextErrors(at + ["type_of_heating"], r.typeOfHeating)
    + OptionalTextErrors(at + ["type_of_glazing"], r.typeOfGlazing)
  }

  /** Every error is reported at the path of a field below `at`. */
  lemma ErrorsLieUnderPath(at: seq<string>, r: RawFeatures)
    ensures forall e :: e in FeatureErrors(at, r) ==> at < e.loc
  {
  }

  // ---------------------------------------------------------------------------
  // Validation
  // ---------------------------------------------------------------------------

  predicate LocationPresent(l: RawLocation) {
    l.province.Some? && l.postcode.Some? && l.locality.Some?
  }

  predicate RequiredPresent(r: RawFeatures) {
    r.propertyType.Some? && r.location.Some? && LocationPresent(r.location.value)
    && r.livableSurface.Some?
  }

  function LocationFromRaw(l: RawLocation): Location
    requires LocationPresent(l)
  {
    LocationOf(l.province.value, l.postcode.value, l.locality.value, l.region, l.country)
  }

  function FromRaw(r: RawFeatures): PropertyFeatures
    requires RequiredPresent(r)
  {
    Descriptor(
      r.propertyType.value, r.subtypeOfProperty, LocationFromRaw(r.location.value),
      r.numberOfBedrooms, r.livableSurface.value, r.totalLandSurface,
      r.surfaceGarden, r.surfaceTerrace, r.numberOfFacades, r.numberOfBathrooms,
      r.numberOfShowers, r.numberOfToilets, r.garage, r.numberOfGarages,
      r.numberOfGaragesNumeric, r.stateOfProperty, r.availability, r.furnished,
      r.attic, r.garden, r.terrace, r.swimmingPool, r.kitchenEquipment,
      r.kitchenType, r.typeOfHeating, r.typeOfGlazing, r.elevator)
  }

  /** A received record that has its required fields is `ToRaw` of what it reads as. */
  lemma FromRawRoundTrip(r: RawFeatures)
    requires RequiredPresent(r)
    ensures ToRaw(FromRaw(r)) == r
  {
  }

  /** A valid record, sent as it is, draws no error. */
  lemma FeatureErrorsComplete(at: seq<string>)
    ensures forall f :: Valid(f) ==> FeatureErrors(at, ToRaw(f)) == []
  {
  }

  /** Validation of a `Location` on its own, as `Location(...)` does it. */
  function ValidateLocation(raw: RawLocation): (r: Result<Location, seq<FieldError>>)
    ensures r.Ok? ==> ValidLocation(r.value) && LocationToRaw(r.value) == raw
    ensures r.Err? ==> r.error != [] && forall l :: ValidLocation(l) ==> LocationToRaw(l) != raw
  {
    var errors := LocationErrors([], raw);
    if errors == [] then
      Ok(LocationFromRaw(raw))
    else
      Err(errors)
  }

  /** Validation of a `PropertyFeatures`, as `PropertyFeatures(...)` does it:
      accepted exactly when some valid record carries the received fields,
      and then that record is the one returned. */
  function Validate(raw: RawFeatures): (r: Result<PropertyFeatures, seq<FieldError>>)
    ensures r.Ok? ==> Valid(r.value) && ToRaw(r.value) == raw
    ensures r.Err? ==> r.error != [] && forall f :: Valid(f) ==> ToRaw(f) != raw
  {
    var errors := FeatureErrors([], raw);
    if errors == [] then
      FromRawRoundTrip(raw);
      Ok(FromRaw(raw))
    else
      FeatureErrorsComplete([]);
      Err(errors)
  }

  /** Validation of a request body: the descriptor sits under `data`. */
  function ValidateRequest(data: Option<RawFeatures>): (r: Result<PredictionRequest, seq<FieldError>>)
    ensures r.Ok? ==> data.Some? && Valid(r.value.data) && ToRaw(r.value.data) == data.value
    ensures r.Err? ==> r.error != [] && forall f :: Valid(f) ==> data != Some(ToRaw(f))
  {
    match data
    case None => Err([FieldError(["data"], Missing)])
    case Some(raw) =>
      var errors := FeatureErrors(["data"], raw);
      if errors == [] then
        FromRawRoundTrip(raw);
        Ok(PredictionRequest(FromRaw(raw)))
      else
        FeatureErrorsComplete(["data"]);
        Err(errors)
  }

  // ---------------------------------------------------------------------------
  // Properties of validation
  // ---------------------------------------------------------------------------

  /** Every valid record is accepted as itself: validation and `ToRaw` are inverse. */
  lemma ValidateRoundTrip(f: PropertyFeatures)
    requires Valid(f)
    ensures Validate(ToRaw(f)) == Ok(f)
  {
    var r := Validate(ToRaw(f));
    assert r.Ok?;
    assert ToRaw(r.value) == ToRaw(f);
  }

  lemma ValidateLocationRoundTrip(l: Location)
    requires ValidLocation(l)
    ensures ValidateLocation(LocationToRaw(l)) == Ok(l)
  {
    var r := ValidateLocation(LocationToRaw(l));
    assert r.Ok?;
    assert LocationToRaw(r.value) == LocationToRaw(l);
  }

  /** An accepted record keeps every optional attribute as received: an absent
      attribute stays absent and a present one keeps its value. */
  lemma ValidateKeepsOptionals(raw: RawFeatures)
    requires Validate(raw).Ok?
    ensures var f := Validate(raw).value;
      && f.location.region == raw.location.value.region
      && f.location.country == raw.location.value.country
      && f.subtypeOfProperty == raw.subtypeOfProperty
      && f.numberOfBedrooms == raw.numberOfBedrooms
      && f.totalLandSurface == raw.totalLandSurface
      && f.surfaceGarden == raw.surfaceGarden
      && f.surfaceTerrace == raw.surfaceTerrace
      && f.numberOfFacades == raw.numberOfFacades
      && f.numberOfBathrooms == raw.numberOfBathrooms
      && f.numberOfShowers == raw.numberOfShowers
      && f.numberOfToilets == raw.numberOfToilets
      && f.garage == raw.garage
      && f.numberOfGarages == raw.numberOfGarages
      && f.numberOfGaragesNumeric == raw.numberOfGaragesNumeric
      && f.stateOfProperty == raw.stateOfProperty
      && f.availability == raw.availability
      && f.furnished == raw.furnished
      && f.attic == raw.attic
      && f.garden == raw.garden
      && f.terrace == raw.terrace
      && f.swimmingPool == raw.swimmingPool
      && f.kitchenEquipment == raw.kitchenEquipment
      && f.kitchenType == raw.kitchenType
      && f.typeOfHeating == raw.typeOfHeating
      && f.typeOfGlazing == raw.typeOfGlazing
      && f.elevator == raw.elevator
  {
    var f := Validate(raw).value;
    assert ToRaw(f) == raw;
  }

  /** A postcode outside [1000, 9999] is rejected whatever the other fields are,
      with an error on `location.postcode`. */
  lemma PostcodeOutOfRangeRejected(raw: RawFeatures)
    requires raw.location.Some? && raw.location.value.postcode.Some?
    requires !(1000 <= raw.location.value.postcode.value <= 9999)
    ensures Validate(raw).Err?
    ensures var pc := raw.location.value.postcode.value;
      var e := FieldError(["location", "postcode"], if pc < 1000 then GreaterThanEqual(1000) else LessThanEqual(9999));
      e in Validate(raw).error
  {
    var l := raw.location.value;
    var at: seq<string> := [];
    assert at + ["location"] + ["postcode"] == ["location", "postcode"];
    var pcErrors := RequiredIntErrors(at + ["location"] + ["postcode"], l.postcode, 1000, Some(9999));
    assert pcErrors[0] in LocationErrors(at + ["location"], l);
    assert pcErrors[0] in FeatureErrors(at, raw);
  }

  /** A description without a location is rejected with `location` missing. */
  lemma MissingLocationRejected(raw: RawFeatures)
    requires raw.location.None?
    ensures Validate(raw).Err?
    ensures FieldError(["location"], Missing) in Validate(raw).error
  {
    var at: seq<string> := [];
    assert at + ["location"] == ["location"];
    var e := FieldError(["location"], Missing);
    var errors := FeatureErrors(at, raw);
    assert e in errors;
  }

  /** A missing or empty property type is rejected with an error on `property_type`. */
  lemma MissingPropertyTypeRejected(raw: RawFeatures)
    requires raw.propertyType.None? || raw.propertyType == Some("")
    ensures Validate(raw).Err?
    ensures Validate(raw).error[0]
              == FieldError(["property_type"], if raw.propertyType.None? then Missing else StringTooShort(1))
  {
    var at: seq<string> := [];
    assert at + ["property_type"] == ["property_type"];
    assert Validate(raw).error[0] == FieldError(["property_type"], if raw.propertyType.None? then Missing else StringTooShort(1));
  }

  /** A facade count outside [1, 4] is rejected, with the bound it breaks
      reported on `number_of_facades`. */
  lemma FacadesOutOfRangeRejected(raw: RawFeatures)
    requires raw.numberOfFacades.Some? && !(1 <= raw.numberOfFacades.value <= 4)
    ensures Validate(raw).Err?
    ensures var n := raw.numberOfFacades.value;
      FieldError(["number_of_facades"], if n < 1 then GreaterThanEqual(1) else LessThanEqual(4))
        in Validate(raw).error
  {
    var at: seq<string> := [];
    assert at + ["number_of_facades"] == ["number_of_facades"];
    var e := OptionalIntErrors(at + ["number_of_facades"], raw.numberOfFacades, 1, Some(4));
    assert e[0] in FeatureErrors(at, raw);
  }

  /** A livable surface below 1 is rejected with the `ge` bound on `livable_surface`. */
  lemma SurfaceBelowOneRejected(raw: RawFeatures)
    requires raw.livableSurface.Some? && raw.livableSurface.value < 1
    ensures Validate(raw).Err?
    ensures FieldError(["livable_surface"], GreaterThanEqual(1)) in Validate(raw).error
  {
    var at: seq<string> := [];
    assert at + ["livable_surface"] == ["livable_surface"];
    var e := RequiredIntErrors(at + ["livable_surface"], raw.livableSurface, 1, None);
    assert e[0] in FeatureErrors(at, raw);
  }

  // ---------------------------------------------------------------------------
  // The descriptor of api/tests/local_test.py
  // ---------------------------------------------------------------------------

  /** The record module `local_test` builds: a bungalow house in Antwerpen. */
  function LocalTestFeatures(): PropertyFeatures {
    Descriptor(
      "house", Some("bungalow"),
      LocationOf("Antwerpen", 2000, "Antwerpen", Some("Vlaanderen"), Some("Belgium")),
      Some(3), 120, None, None, None, None, None, None, None, None, None, None,
      None, None, None, None, None, None, None, None, None, None, None, None)
  }

  lemma LocalTestFeaturesAccepted()
    ensures Valid(LocalTestFeatures())
    ensures Validate(ToRaw(LocalTestFeatures())) == Ok(LocalTestFeatures())
  {
    ValidateRoundTrip(LocalTestFeatures());
  }
}
