/** The client-side pre-checks of the form that calls the API (streamlit/app.py):
    the "Not specified" sentinel mapper, the payload built from the form's
    session state, and the required-field check run when "Predict price" is
    clicked. The session state is taken as an input record; widgets, layout and
    the HTTP call itself are not part of this model. */
module Client {
  import opened Wrappers
  import opened Schemas

  /** The option the select boxes show for "no choice". */
  const NotSpecified: string := "Not specified"

  /** `none_if_not_specified`. */
  function NoneIfNotSpecified(value: Option<string>): (r: Option<string>)
    ensures r.None? <==> value.None? || value == Some(NotSpecified)
    ensures r.Some? ==> r == value
  {
    match value
    case None => None
    case Some(v) => if v == NotSpecified then None else value
  }

  lemma NoneIfNotSpecifiedIdempotent(value: Option<string>)
    ensures NoneIfNotSpecified(NoneIfNotSpecified(value)) == NoneIfNotSpecified(value)
  {
  }

  /** What a select box sends for `chosen`: nothing for the sentinel, and
      otherwise the choice itself. */
  predicate SentAs(sent: Option<string>, chosen: Option<string>) {
    if chosen == Some(NotSpecified) then sent == None else sent == chosen
  }

  /** The form's session state, one field per widget key. The select boxes may
      hold `None`; `numberOfShowers` is `None` when its key is not set at all. */
  datatype SessionState = SessionState(
    propertyType: string,
    subtypeOfProperty: Option<string>,
    province: string,
    postcode: int,
    locality: string,
    region: Option<string>,
    country: Option<string>,
    numberOfBedrooms: Option<int>,
    livableSurface: int,
    totalLandSurface: Option<int>,
    surfaceGarden: Option<int>,
    surfaceTerrace: Option<int>,
    numberOfFacades: Option<int>,
    numberOfBathrooms: Option<int>,
    numberOfShowers: Option<Option<int>>,
    numberOfToilets: Option<int>,
    garage: Option<bool>,
    numberOfGarages: Option<int>,
    stateOfProperty: Option<string>,
    availability: Option<string>,
    furnished: Option<bool>,
    attic: Option<bool>,
    garden: Option<bool>,
    terrace: Option<bool>,
    swimmingPool: Option<bool>,
    kitchenEquipment: Option<string>,
    kitchenType: Option<string>,
    typeOfHeating: Option<string>,
    typeOfGlazing: Option<string>,
    elevator: Option<bool>)

  /** `number_of_garages_numeric`: the garage count as a float, or `None`. */
  function GaragesNumeric(garages: Option<int>): (r: Option<real>)
    ensures r.None? <==> garages.None?
    ensures r.Some? ==> r.value == garages.value as real
  {
    match garages
    case None => None
    case Some(n) => Some(n as real)
  }

  /** `build_payload_from_inputs`: the `data` object of the request body. It
      always carries every required field, so the API never finds one missing. */
  function BuildPayload(s: SessionState): (p: RawFeatures)
    ensures RequiredPresent(p)
  {
    Descriptor(
      Some(s.propertyType),
      NoneIfNotSpecified(s.subtypeOfProperty),
      Some(LocationOf(Some(s.province), Some(s.postcode), Some(s.locality),
                      NoneIfNotSpecified(s.region), NoneIfNotSpecified(s.country))),
      s.numberOfBedrooms,
      Some(s.livableSurface),
      s.totalLandSurface,
      s.surfaceGarden,
      s.surfaceTerrace,
      s.numberOfFacades,
      s.numberOfBathrooms,
      match s.numberOfShowers case None => Some(0) case Some(v) => v,
      s.numberOfToilets,
      s.garage,
      s.numberOfGarages,
      GaragesNumeric(s.numberOfGarages),
      NoneIfNotSpecified(s.stateOfProperty),
      NoneIfNotSpecified(s.availability),
      s.furnished,
      s.attic,
      s.garden,
      s.terrace,
      s.swimmingPool,
      NoneIfNotSpecified(s.kitchenEquipment),
      NoneIfNotSpecified(s.kitchenType),
      NoneIfNotSpecified(s.typeOfHeating),
      NoneIfNotSpecified(s.typeOfGlazing),
      s.elevator)
  }

  // ---------------------------------------------------------------------------
  // Properties of the payload
  // ---------------------------------------------------------------------------

  /** The required fields are sent as typed; province, postcode and locality
      sit under `location` unchanged. */
  lemma PayloadRequiredFields(s: SessionState)
    ensures var p := BuildPayload(s);
      && p.propertyType == Some(s.propertyType)
      && p.livableSurface == Some(s.livableSurface)
      && p.location.Some?
      && p.location.value.province == Some(s.province)
      && p.location.value.postcode == Some(s.postcode)
      && p.location.value.locality == Some(s.locality)
  {
  }

  /** Every categorical field goes through `none_if_not_specified`: a choice
      left at "Not specified" is sent as absent, any other choice as chosen,
      so no field of the payload carries the sentinel. */
  lemma PayloadNeverCarriesSentinel(s: SessionState)
    ensures var p := BuildPayload(s);
      && SentAs(p.location.value.region, s.region)
      && SentAs(p.location.value.country, s.country)
      && SentAs(p.subtypeOfProperty, s.subtypeOfProperty)
      && SentAs(p.stateOfProperty, s.stateOfProperty)
      && SentAs(p.availability, s.availability)
      && SentAs(p.kitchenEquipment, s.kitchenEquipment)
      && SentAs(p.kitchenType, s.kitchenType)
      && SentAs(p.typeOfHeating, s.typeOfHeating)
      && SentAs(p.typeOfGlazing, s.typeOfGlazing)
    ensures var p := BuildPayload(s);
      && p.location.value.region != Some(NotSpecified)
      && p.location.value.country != Some(NotSpecified)
      && p.subtypeOfProperty != Some(NotSpecified)
      && p.stateOfProperty != Some(NotSpecified)
      && p.availability != Some(NotSpecified)
      && p.kitchenEquipment != Some(NotSpecified)
      && p.kitchenType != Some(NotSpecified)
      && p.typeOfHeating != Some(NotSpecified)
      && p.typeOfGlazing != Some(NotSpecified)
  {
  }

  /** Every count and every yes/no field is sent exactly as entered. */
  lemma PayloadCopiesCountsAndFlags(s: SessionState)
    ensures var p := BuildPayload(s);
      && p.numberOfBedrooms == s.numberOfBedrooms
      && p.totalLandSurface == s.totalLandSurface
      && p.surfaceGarden == s.surfaceGarden
      && p.surfaceTerrace == s.surfaceTerrace
      && p.numberOfFacades == s.numberOfFacades
      && p.numberOfBathrooms == s.numberOfBathrooms
      && p.numberOfToilets == s.numberOfToilets
      && p.numberOfGarages == s.numberOfGarages
      && p.garage == s.garage
      && p.furnished == s.furnished
      && p.attic == s.attic
      && p.garden == s.garden
      && p.terrace == s.terrace
      && p.swimmingPool == s.swimmingPool
      && p.elevator == s.elevator
  {
  }

  /** `number_of_garages_numeric` is absent exactly when the garage count is,
      and is otherwise that count; a missing shower count is sent as 0. */
  lemma PayloadDerivedFields(s: SessionState)
    ensures var p := BuildPayload(s);
      && (p.numberOfGaragesNumeric.None? <==> s.numberOfGarages.None?)
      && (s.numberOfGarages.Some? ==> p.numberOfGaragesNumeric == Some(s.numberOfGarages.value as real))
      && (s.numberOfShowers.None? ==> p.numberOfShowers == Some(0))
      && (s.numberOfShowers.Some? ==> p.numberOfShowers == s.numberOfShowers.value)
  {
  }

  /** The payload, once the API has validated it, reads back as the form:
      required fields, counts and flags as entered, choices as selected. */
  lemma ValidatedPayloadMatchesForm(s: SessionState)
    requires Validate(BuildPayload(s)).Ok?
    ensures var f := Validate(BuildPayload(s)).value;
      && f.propertyType == s.propertyType
      && f.location.province == s.province
      && f.location.postcode == s.postcode
      && f.location.locality == s.locality
      && f.livableSurface == s.livableSurface
      && f.numberOfBedrooms == s.numberOfBedrooms
      && f.totalLandSurface == s.totalLandSurface
      && f.surfaceGarden == s.surfaceGarden
      && f.surfaceTerrace == s.surfaceTerrace
      && f.numberOfFacades == s.numberOfFacades
      && f.numberOfBathrooms == s.numberOfBathrooms
      && f.numberOfToilets == s.numberOfToilets
      && f.numberOfGarages == s.numberOfGarages
      && f.garage == s.garage
      && f.furnished == s.furnished
      && f.attic == s.attic
      && f.garden == s.garden
      && f.terrace == s.terrace
      && f.swimmingPool == s.swimmingPool
      && f.elevator == s.elevator
      && f.numberOfShowers == (if s.numberOfShowers.None? then Some(0) else s.numberOfShowers.value)
      && f.numberOfGaragesNumeric == GaragesNumeric(s.numberOfGarages)
      && SentAs(f.location.region, s.region) && SentAs(f.location.country, s.country)
      && SentAs(f.subtypeOfProperty, s.subtypeOfProperty)
      && SentAs(f.stateOfProperty, s.stateOfProperty)
      && SentAs(f.availability, s.availability)
      && SentAs(f.kitchenEquipment, s.kitchenEquipment)
      && SentAs(f.kitchenType, s.kitchenType)
      && SentAs(f.typeOfHeating, s.typeOfHeating)
      && SentAs(f.typeOfGlazing, s.typeOfGlazing)
  {
    var f := Validate(BuildPayload(s)).value;
    assert ToRaw(f) == BuildPayload(s);
    PayloadNeverCarriesSentinel(s);
    PayloadCopiesCountsAndFlags(s);
  }

  // ---------------------------------------------------------------------------
  // The required-field check
  // ---------------------------------------------------------------------------

  /** The labels of the required fields, in the order they are checked. */
  const RequiredLabels: seq<string> :=
    ["property_type", "province", "postcode", "locality", "livable_surface (> 0)"]

  /** The position of a field in `RequiredLabels` (5 for any other string). */
  function Rank(field: string): nat {
    if field == "property_type" then 0
    else if field == "province" then 1
    else if field == "postcode" then 2
    else if field == "locality" then 3
    else if field == "livable_surface (> 0)" then 4
    else 5
  }

  /** Whether the check for a required field fails on `s` (falsy value, or a
      livable surface that is not positive). */
  predicate Fails(s: SessionState, field: string) {
    || (field == "property_type" && s.propertyType == "")
    || (field == "province" && s.province == "")
    || (field == "postcode" && s.postcode == 0)
    || (field == "locality" && s.locality == "")
    || (field == "livable_surface (> 0)" && s.livableSurface <= 0)
  }

  /** The form may be submitted: every required check passes. */
  predicate ClientReady(s: SessionState) {
    s.propertyType != "" && s.province != "" && s.postcode != 0 && s.locality != ""
    && s.livableSurface > 0
  }

  /** The labels of the failing required checks, one check after the other. */
  function MissingLabels(s: SessionState): seq<string> {
    (if s.propertyType == "" then ["property_type"] else [])
    + (if s.province == "" then ["province"] else [])
    + (if s.postcode == 0 then ["postcode"] else [])
    + (if s.locality == "" then ["locality"] else [])
    + (if s.livableSurface <= 0 then ["livable_surface (> 0)"] else [])
  }

  /** The missing labels are exactly the failing required fields. */
  lemma MissingLabelsAreFailing(s: SessionState)
    ensures forall l :: l in MissingLabels(s) <==> l in RequiredLabels && Fails(s, l)
  {
  }

  /** The missing labels come in check order, so none is listed twice. */
  lemma MissingLabelsInCheckOrder(s: SessionState)
    ensures forall a, b :: 0 <= a < b < |MissingLabels(s)| ==> Rank(MissingLabels(s)[a]) < Rank(MissingLabels(s)[b])
  {
  }

  /** No label is missing exactly when the form may be submitted. */
  lemma NoneMissingIffReady(s: SessionState)
    ensures MissingLabels(s) == [] <==> ClientReady(s)
  {
  }

  /** The `missing_fields` list, built by successive appends. */
  method MissingFields(s: SessionState) returns (missing: seq<string>)
    ensures missing == MissingLabels(s)
  {
    missing := [];
    if s.propertyType == "" {
      missing := missing + ["property_type"];
    }
    if s.province == "" {
      missing := missing + ["province"];
    }
    if s.postcode == 0 {
      missing := missing + ["postcode"];
    }
    if s.locality == "" {
      missing := missing + ["locality"];
    }
    if s.livableSurface <= 0 {
      missing := missing + ["livable_surface (> 0)"];
    }
  }

  /** `", ".join(labels)`. */
  function Join(labels: seq<string>): string {
    if labels == [] then ""
    else if |labels| == 1 then labels[0]
    else labels[0] + ", " + Join(labels[1..])
  }

  /** What a click on "Predict price" sends: the payload when every required
      check passes, otherwise the error shown in its place. */
  method OnPredictClicked(s: SessionState) returns (sent: Result<RawFeatures, string>)
    ensures sent.Ok? <==> ClientReady(s)
    ensures sent.Ok? ==> sent.value == BuildPayload(s)
    ensures sent.Err? ==> sent.error == "Missing or invalid required fields: " + Join(MissingLabels(s))
  {
    var missing := MissingFields(s);
    if missing != [] {
      return Err("Missing or invalid required fields: " + Join(missing));
    }
    var payload := BuildPayload(s);
    return Ok(payload);
  }

  // ---------------------------------------------------------------------------
  // The client check against the schema
  // ---------------------------------------------------------------------------

  /** Whatever the API accepts, the client lets through: a payload valid
      under the schema comes from a form that passes every required check. */
  lemma SchemaValidImpliesClientReady(s: SessionState)
    requires Validate(BuildPayload(s)).Ok?
    ensures ClientReady(s)
  {
    var f := Validate(BuildPayload(s)).value;
    assert ToRaw(f) == BuildPayload(s);
    assert f.location.postcode == s.postcode;
  }

  /** The client check is weaker than the schema: a five-digit postcode passes
      it and is rejected by the API. */
  lemma ClientCheckWeakerThanSchema()
    ensures exists s :: ClientReady(s) && Validate(BuildPayload(s)).Err?
  {
    var s := SessionState(
      "house", None, "Antwerpen", 99999, "Antwerpen", None, None,
      None, 120, None, None, None, None, None, Some(None), None, None, None,
      None, None, None, None, None, None, None, None, None, None, None, None);
    PostcodeOutOfRangeRejected(BuildPayload(s));
    assert ClientReady(s) && Validate(BuildPayload(s)).Err?;
  }
}
