/** The HTTP endpoint of the API (api/app.py), reduced to the status and body
    values it produces. `Endpoint` is the `predict` handler with the model
    service abstracted as a function from descriptor to price or fault;
    `Serve` is the same handler wired to the cached model service. */
module App {
  import opened Wrappers
  import opened Schemas
  import opened Predict

  /** A JSON body: a prediction, or a `detail` object carrying a status code,
      an error text and further named strings. */
  datatype Body =
    | Prediction(response: PredictionResponse)
    | Detail(statusCode: int, error: string, extras: seq<(string, string)>)

  datatype Response = Response(status: int, body: Body)

  const PropertyTypeRequired: string := "Property type is required."
  const LocationRequired: string := "Province, postcode, and locality are required."
  const PredictionFailed: string := "Prediction service failed."
  const InternalError: string := "Internal server error"

  function BadRequest(error: string): Response {
    Response(400, Detail(400, error, []))
  }

  /** The checks run before inference, with Python truthiness: a string is
      falsy when empty and an integer when 0. Gives the 400 response of the
      first check that fails. */
  function MandatoryCheck(f: PropertyFeatures): (r: Option<Response>)
    ensures r.None? <==> f.propertyType != "" && f.location.province != ""
                         && f.location.postcode != 0 && f.location.locality != ""
    ensures r.Some? ==> r.value.status == 400
  {
    if f.propertyType == "" then Some(BadRequest(PropertyTypeRequired))
    else if f.location.province == "" || f.location.postcode == 0 || f.location.locality == "" then
      Some(BadRequest(LocationRequired))
    else None
  }

  /** `price_per_m2` as the handler computes it: `price / price if price else None`. */
  function PricePerM2(price: real): (r: Option<real>)
    ensures r.None? <==> price == 0.0
    ensures r.Some? ==> r.value * price == price
  {
    if price != 0.0 then Some(price / price) else None
  }

  /** `price_per_m2` as `PredictionResponse` documents it: prediction / livable_surface. */
  function DocumentedPricePerM2(price: real, livableSurface: int): (r: Option<real>)
    ensures r.None? <==> livableSurface <= 0
    ensures r.Some? ==> r.value * livableSurface as real == price
  {
    if livableSurface > 0 then Some(price / livableSurface as real) else None
  }

  /** The response built from the outcome of the model service. */
  function Respond(outcome: Result<real, Fault>): (r: Response)
    ensures r.status == 200 <==> outcome.Ok?
    ensures outcome.Ok? ==> r.body.Prediction? && r.body.response.prediction == Some(outcome.value)
                            && r.body.response.statusCode == 200
    ensures outcome.Err? ==> r.status == 500 && r.body.Detail? && r.body.statusCode == 500
                             && r.body.extras == [("details", outcome.error.message)]
  {
    match outcome
    case Ok(price) => Response(200, Prediction(PredictionResponse(Some(price), PricePerM2(price), 200)))
    case Err(e) => Response(500, Detail(500, PredictionFailed, [("details", e.message)]))
  }

  /** The `predict` handler: checks, then inference, then the derived metric. */
  function Endpoint(req: PredictionRequest, infer: PropertyFeatures -> Result<real, Fault>): (r: Response)
    ensures r.status == 400 <==> MandatoryCheck(req.data).Some?
    ensures r.status == 200 <==> MandatoryCheck(req.data).None? && infer(req.data).Ok?
    ensures r.status == 500 <==> MandatoryCheck(req.data).None? && infer(req.data).Err?
  {
    match MandatoryCheck(req.data)
    case Some(rejection) => rejection
    case None => Respond(infer(req.data))
  }

  /** `global_exception_handler`: any other exception becomes a 500. */
  function GlobalExceptionHandler(message: string): (r: Response)
    ensures r.status == 500 && r.body.Detail? && r.body.statusCode == 500
    ensures r.body.error == InternalError && ("message", message) in r.body.extras
  {
    Response(500, Detail(500, InternalError, [("message", message)]))
  }

  // ---------------------------------------------------------------------------
  // Properties of the handler
  // ---------------------------------------------------------------------------

  /** An empty property type is answered with 400 before anything else. */
  lemma EmptyPropertyTypeRejected(req: PredictionRequest, infer: PropertyFeatures -> Result<real, Fault>)
    requires req.data.propertyType == ""
    ensures Endpoint(req, infer) == Response(400, Detail(400, "Property type is required.", []))
  {
  }

  /** A falsy province, postcode or locality is answered with 400. */
  lemma MissingLocationPartRejected(req: PredictionRequest, infer: PropertyFeatures -> Result<real, Fault>)
    requires req.data.propertyType != ""
    requires req.data.location.province == "" || req.data.location.postcode == 0 || req.data.location.locality == ""
    ensures Endpoint(req, infer) == Response(400, Detail(400, "Province, postcode, and locality are required.", []))
  {
  }

  /** A rejected request never reaches the model: the answer is the same
      whatever the model service does. */
  lemma RejectionIgnoresModel(req: PredictionRequest, infer: PropertyFeatures -> Result<real, Fault>,
                              other: PropertyFeatures -> Result<real, Fault>)
    requires MandatoryCheck(req.data).Some?
    ensures Endpoint(req, infer) == Endpoint(req, other)
    ensures Endpoint(req, infer).status == 400
  {
  }

  /** A request valid under the schema passes both checks and its answer is
      decided by the model service alone. */
  lemma ValidRequestReachesModel(req: PredictionRequest, infer: PropertyFeatures -> Result<real, Fault>)
    requires Valid(req.data)
    ensures MandatoryCheck(req.data) == None
    ensures Endpoint(req, infer) == Respond(infer(req.data))
  {
  }

  /** A price from the model is returned with status 200; `price_per_m2` is
      derived from that price alone. */
  lemma SuccessResponse(req: PredictionRequest, infer: PropertyFeatures -> Result<real, Fault>, price: real)
    requires MandatoryCheck(req.data).None? && infer(req.data) == Ok(price)
    ensures var r := Endpoint(req, infer);
      && r.status == 200 && r.body.Prediction?
      && r.body.response.prediction == Some(price)
      && r.body.response.statusCode == 200
      && r.body.response.pricePerM2 == (if price == 0.0 then None else Some(1.0))
  {
    PricePerM2IsOne(price);
  }

  /** A failure of the model service is answered with 500 and its message. */
  lemma FailureResponse(req: PredictionRequest, infer: PropertyFeatures -> Result<real, Fault>, e: Fault)
    requires MandatoryCheck(req.data).None? && infer(req.data) == Err(e)
    ensures Endpoint(req, infer) == Response(500, Detail(500, "Prediction service failed.", [("details", e.message)]))
  {
  }

  /** The answer does not tell a failed load, a missing estimator and a failed
      prediction apart: only the message differs. */
  lemma FaultsAnsweredAlike(e: Fault, e': Fault)
    requires e.message == e'.message
    ensures Respond(Err(e)) == Respond(Err(e'))
  {
  }

  /** The three error answers are distinct. */
  lemma ErrorAnswersDistinct(e: Fault, message: string, f: PropertyFeatures)
    requires MandatoryCheck(f).Some?
    ensures GlobalExceptionHandler(message) != Respond(Err(e))
    ensures MandatoryCheck(f).value != Respond(Err(e))
    ensures MandatoryCheck(f).value != GlobalExceptionHandler(message)
  {
    assert InternalError[0] != PredictionFailed[0];
  }

  /** `price_per_m2` as computed is 1 for every non-zero price. */
  lemma PricePerM2IsOne(price: real)
    ensures PricePerM2(price) == if price == 0.0 then None else Some(1.0)
  {
    if price != 0.0 {
      var q := price / price;
      assert q * price == 1.0 * price;
      assert (q - 1.0) * price == 0.0;
    }
  }

  /** The computed `price_per_m2` agrees with the documented one only when the
      price happens to equal the livable surface. */
  lemma PricePerM2MatchesDocumentOnlyByChance(price: real, livableSurface: int)
    requires livableSurface >= 1
    ensures PricePerM2(price) == DocumentedPricePerM2(price, livableSurface) <==> price == livableSurface as real
  {
    var s := livableSurface as real;
    PricePerM2IsOne(price);
    if price == s {
      assert price / s == 1.0;
    }
    if price != 0.0 && price / s == 1.0 {
      assert price == (price / s) * s;
    }
  }

  /** For the descriptor of the local script and a price of 240000, the handler
      answers 1 where the documented metric is 2000. */
  lemma PricePerM2Mismatch()
    ensures PricePerM2(240000.0) == Some(1.0)
    ensures DocumentedPricePerM2(240000.0, LocalTestFeatures().livableSurface) == Some(2000.0)
  {
  }

  /** The descriptor of the local script passes both checks. */
  lemma LocalTestReachesModel(infer: PropertyFeatures -> Result<real, Fault>)
    ensures Endpoint(PredictionRequest(LocalTestFeatures()), infer) == Respond(infer(LocalTestFeatures()))
  {
    LocalTestFeaturesAccepted();
    ValidRequestReachesModel(PredictionRequest(LocalTestFeatures()), infer);
  }

  // ---------------------------------------------------------------------------
  // The handler behind request validation
  // ---------------------------------------------------------------------------

  /** A call as the framework serves it: the body is validated against
      `PredictionRequest` first, and a body that fails is answered with its
      field errors without `predict` ever running. */
  function Handle(body: Option<RawFeatures>, infer: PropertyFeatures -> Result<real, Fault>): (r: Result<Response, seq<FieldError>>)
    ensures r.Err? <==> ValidateRequest(body).Err?
    ensures r.Err? ==> r.error == ValidateRequest(body).error && r.error != []
    ensures r.Ok? ==> r.value == Endpoint(ValidateRequest(body).value, infer)
    ensures r.Ok? ==> r.value.status != 400
  {
    match ValidateRequest(body)
    case Err(errors) => Err(errors)
    case Ok(req) =>
      ValidRequestReachesModel(req, infer);
      Ok(Endpoint(req, infer))
  }

  /** A body that fails validation is answered the same whatever the model
      service would do: no inference happens. */
  lemma SchemaRejectionSkipsModel(body: Option<RawFeatures>, infer: PropertyFeatures -> Result<real, Fault>,
                                  other: PropertyFeatures -> Result<real, Fault>)
    requires ValidateRequest(body).Err?
    ensures Handle(body, infer) == Handle(body, other)
  {
  }

  /** A body without `property_type` is refused by validation, with that field
      named, and never reaches the model. */
  lemma MissingPropertyTypeRefused(raw: RawFeatures, infer: PropertyFeatures -> Result<real, Fault>)
    requires raw.propertyType.None?
    ensures Handle(Some(raw), infer).Err?
    ensures FieldError(["data", "property_type"], Missing) in Handle(Some(raw), infer).error
  {
    var at: seq<string> := ["data"];
    assert at + ["property_type"] == ["data", "property_type"];
    assert FeatureErrors(at, raw)[0] == FieldError(["data", "property_type"], Missing);
  }

  /** A body without `location` is refused by validation, with that field
      named, and never reaches the model. */
  lemma MissingLocationRefused(raw: RawFeatures, infer: PropertyFeatures -> Result<real, Fault>)
    requires raw.location.None?
    ensures Handle(Some(raw), infer).Err?
    ensures FieldError(["data", "location"], Missing) in Handle(Some(raw), infer).error
  {
    var at: seq<string> := ["data"];
    assert at + ["location"] == ["data", "location"];
    var e := FieldError(["data", "location"], Missing);
    assert e in FeatureErrors(at, raw);
  }

  // ---------------------------------------------------------------------------
  // The handler wired to the cached model service
  // ---------------------------------------------------------------------------

  /** `predict` calling `predict_price`: the checks run first, and only a
      request that passes them loads the model and calls it. */
  method Serve(service: ModelCache, req: PredictionRequest, artifact: Result<PyObject, string>) returns (resp: Response)
    modifies service
    ensures var c := old(service.cached); resp == Endpoint(req, f => PriceOutcome(c, artifact, f))
    ensures MandatoryCheck(req.data).Some? ==> service.cached == old(service.cached)
    ensures MandatoryCheck(req.data).None? ==> service.cached == CacheAfter(old(service.cached), artifact)
  {
    var rejection := MandatoryCheck(req.data);
    if rejection.Some? {
      return rejection.value;
    }
    var price := service.PredictPrice(req.data, artifact);
    resp := Respond(price);
  }
}
