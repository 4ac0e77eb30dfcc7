# Immo Eliza price-estimate pipeline, modelled in Dafny

This project models the request pipeline of a Belgian real-estate price-estimate
API, together with the checks the input form runs before it calls that API:

- **Schema validation** (`schemas.dfy`, module `Schemas`). A property description
  arrives as a record in which every field may be absent. `Validate` either
  returns the validated `PropertyFeatures` or the list of field errors, collected
  in declaration order, each naming its field and the constraint it breaks. Validation is proved to accept
  exactly the records that some valid descriptor corresponds to. `ToRaw` is its
  inverse: nothing is defaulted, guessed or dropped.
- **Feature projection** (`predict.dfy`, module `Predict`). `Preprocess` builds the
  23-column row the trained pipeline expects, in the training order. An absent
  attribute becomes `Null`. Location, property type, subtype and the numeric
  garage count are left out. `Restore` reads the descriptor back from the row and
  the withheld fields, and the round trip is proved.
- **Artifact selection and caching** (`predict.dfy`). The class `ModelCache` holds the
  module-level `_MODEL` cache. `Load` is `_load_model`: a cache hit, then the
  artifact itself if it has `predict`, then the first of the keys `model`,
  `pipeline`, `pipe`, `estimator` whose value has `predict`, and otherwise a
  TypeError. `LoadResult` and `CacheAfter` specify it as a state machine;
  `RunLoads` runs that machine over a series of calls.
- **Endpoint** (`app.dfy`, module `App`). `Endpoint` is the `predict` handler, with the
  model service passed in as a function. First come the mandatory checks, which
  answer 400 before any inference. Then the model is called, and `price_per_m2` is
  derived from its price. A failure becomes 500 "Prediction service failed.".
  `Serve` wires the handler to `ModelCache`.
- **Client pre-checks** (`client.dfy`, module `Client`). This covers
  `none_if_not_specified`, the payload that `build_payload_from_inputs` builds from
  the session state (taken as an input record), and the required-field check.
  That check lists the missing fields in a fixed order, and the payload is sent only
  when the list is empty.

`wrappers.dfy` holds `Option` (Python's `Optional`) and `Result` (a call that
returns or raises).

Inputs that the program gets from outside become parameters. `joblib.load` is
the `artifact` argument: the object it would return, or the message of the
exception it would raise. A trained estimator is a `Model`, which wraps an
uninterpreted function from a feature row to a price or a failure message. The
session state of the form is a `SessionState` record.

### Where the code and its own documentation disagree

These points follow the code as written:

- `price_per_m2` is computed as `price / price if price else None` (api/app.py:69).
  That is 1 for every non-zero price, while `PredictionResponse` documents it as
  prediction / livable_surface (api/schemas.py:203). `App.PricePerM2` models the code.
  `App.PricePerM2MatchesDocumentOnlyByChance` proves that the two agree exactly when
  the price equals the livable surface. `App.PricePerM2Mismatch` gives the local-script
  case: 1 is returned where the documented value would be 2000.
- A description without a location, or with a postcode outside [1000, 9999], is
  rejected by schema validation before the handler runs (`App.Handle`,
  `App.MissingLocationRefused`). The handler's own
  "Province, postcode, and locality are required." answer applies only to a
  descriptor whose province or locality is empty or whose postcode is 0. A
  descriptor valid under the schema never gets that answer
  (`App.ValidRequestReachesModel`), so no request body that reaches `predict`
  is ever answered 400 (`App.Handle`).
- A failed load (missing file, no usable estimator) and a failed prediction get the
  same answer: 500 "Prediction service failed.". Only the message tells them apart
  (`App.FaultsAnsweredAlike`).
- A failed load leaves the cache empty, so the next request loads the artifact again
  (`Predict.FailedLoadIsRetried`). The error is not remembered.
- The `not loc` test in api/app.py:56 is always false for a parsed `Location`, so it
  has no counterpart here: in `PropertyFeatures` the location is always present.

## Model

| member | source | states |
|---|---|---|
| `Schemas.LocationErrors` | api/schemas.py:9-40 | a received location draws no error exactly when province, postcode and locality are present and every declared constraint on `Location` holds |
| `Schemas.FeatureErrors` | api/schemas.py:43-187 | a received description draws no error exactly when its required fields are present and every declared constraint on `PropertyFeatures` holds |
| `Schemas.ErrorsLieUnderPath` | api/schemas.py:43-193 | every error is reported at the path of a field below the model being validated (`data` in a request) |
| `Schemas.ValidateLocation` | api/schemas.py:9-40 | accepts a location exactly when some valid `Location` (non-empty province and locality, 1000 ≤ postcode ≤ 9999, region and country absent or non-empty) is the one received, and returns that location; otherwise returns a non-empty error list |
| `Schemas.ValidateLocationRoundTrip` | api/schemas.py:9-40 | every valid location, sent as it is, is accepted as itself |
| `Schemas.Validate` | api/schemas.py:43-187 | accepts a description exactly when some valid `PropertyFeatures` carries exactly the received fields, and returns it; a rejection carries at least one field error and no valid descriptor matches the input |
| `Schemas.ValidateRequest` | api/schemas.py:190-193 | a request body is accepted exactly when its `data` is present and validates; a missing `data` is an error |
| `Schemas.ValidateRoundTrip` | api/schemas.py:43-187 | validation and `ToRaw` are inverse: a valid descriptor validates to itself |
| `Schemas.ValidateKeepsOptionals` | api/schemas.py:9-187 | an accepted description keeps every one of its 26 optional attributes (region and country included) as received: absent stays absent (never 0 or false) and a present value is unchanged |
| `Schemas.PostcodeOutOfRangeRejected` | api/schemas.py:20-25 | a postcode below 1000 or above 9999 is rejected whatever the other fields are, with the matching error on `location.postcode` |
| `Schemas.MissingLocationRejected` | api/schemas.py:66-69 | a description without a location is rejected with `location` missing |
| `Schemas.MissingPropertyTypeRejected` | api/schemas.py:54-58 | a missing or empty property type is rejected with its error first in the list |
| `Schemas.FacadesOutOfRangeRejected` | api/schemas.py:97-102 | a facade count outside [1, 4] is rejected with the bound it breaks (`ge` 1 or `le` 4) reported on `number_of_facades` |
| `Schemas.SurfaceBelowOneRejected` | api/schemas.py:77-81 | a livable surface below 1 is rejected with the `ge` 1 bound reported on `livable_surface` |
| `Schemas.LocalTestFeaturesAccepted` | api/tests/local_test.py:4-18 | the house in Antwerpen/2000/Antwerpen with 120 m² and 3 bedrooms is valid and validates to itself |
| `Predict.Preprocess` | api/predict.py:57-90 | the row has exactly the 23 training columns in order, each holding `Null` or a value of its column's kind |
| `Predict.FeatureColumnsDistinct` | api/predict.py:61-90 | the 23 column names are distinct |
| `Predict.PreprocessIgnoresWithheld` | api/predict.py:61-90 | changing location, property type, subtype or numeric garage count leaves the row unchanged |
| `Predict.PreprocessRoundTrip` | api/predict.py:65-89 | each projected attribute reaches its slot unchanged: the row plus the withheld fields give the descriptor back |
| `Predict.PreprocessInjective` | api/predict.py:65-89 | two descriptors give the same row exactly when they agree on every field except the withheld ones |
| `Predict.AbsentSurfaceIsNull` | api/predict.py:57-68 | an absent land, garden or terrace surface gives `Null` in its slot and a present one never does; the livable surface is never `Null` |
| `Predict.AbsentCountIsNull` | api/predict.py:57-75 | an absent bedroom, facade, bathroom, shower, toilet or garage count gives `Null` in its slot and a present one never does |
| `Predict.AbsentFlagIsNull` | api/predict.py:57-87 | an absent garage, furnished, attic, garden, terrace, swimming-pool or elevator flag gives `Null` (never false) and a present one never does |
| `Predict.AbsentChoiceIsNull` | api/predict.py:57-89 | an absent kitchen, heating, glazing, availability or state choice gives `Null` (never "") and a present one never does |
| `Predict.FirstPredictor` | api/predict.py:35-38 | finds the first candidate key whose value has `predict`, and finds none exactly when no candidate key has one |
| `Predict.Select` | api/predict.py:28-49 | an object with `predict` is the estimator; a dict yields one exactly when some candidate key holds an object with `predict`; any other object is a TypeError naming its type; every failure is a TypeError |
| `Predict.SelectFromDict` | api/predict.py:34-44 | a dict artifact yields the estimator under the first of model, pipeline, pipe, estimator that has `predict`, and otherwise the TypeError with its message |
| `Predict.LoadResult` | api/predict.py:15-49 | a cached estimator is returned as it is; otherwise a failing `joblib.load` gives its error and a loaded object gives what `Select` finds in it; only an empty cache can fail, and never with a prediction failure |
| `Predict.CacheAfter` | api/predict.py:22-49 | the cache holds an estimator after a call exactly when the call returned one, it holds the one returned, and a filled cache is never replaced |
| `Predict.CacheHitIgnoresArtifact` | api/predict.py:23-24 | when an estimator is cached, loading returns it and keeps it, whatever the artifact |
| `Predict.FailedLoadIsRetried` | api/predict.py:41-49 | a failed load leaves the cache empty, so the next call behaves as a first call |
| `Predict.LoadIsSticky` | api/predict.py:29-38 | once a load succeeds, every later call returns the same estimator |
| `Predict.AlwaysCached` | api/predict.py:22-24 | starting from a cached estimator, every call in a series returns it |
| `Predict.PriceOutcome` | api/predict.py:95-110 | a load failure is returned as it is; otherwise the outcome is the estimator's answer on the projected row, with its failure as a prediction failure |
| `Predict.PriceIgnoresWithheld` | api/predict.py:95-110 | the price depends on the descriptor only through its row |
| `Predict.ModelCache.constructor` | api/predict.py:12 | the cache starts empty |
| `Predict.ModelCache.Load` | api/predict.py:15-49 | returns `LoadResult` of the old cache and the artifact, and leaves the cache at `CacheAfter` of them |
| `Predict.ModelCache.PredictPrice` | api/predict.py:95-110 | loads, projects and predicts: returns the estimator's price, the load fault, or the prediction failure, and updates the cache as `Load` does |
| `App.MandatoryCheck` | api/app.py:46-63 | passes exactly when the property type, province and locality are non-empty and the postcode is non-zero; whenever it rejects, the answer is 400 |
| `App.PricePerM2` | api/app.py:69 | `price_per_m2` as computed: absent exactly for price 0, and otherwise a value that multiplied by the price gives the price |
| `App.DocumentedPricePerM2` | api/schemas.py:201-204 | the documented metric: absent exactly when the surface is not positive, and otherwise a value that multiplied by the surface gives the price |
| `App.Respond` | api/app.py:66-94 | status 200 exactly for a price, carrying it as `prediction` with `status_code` 200; a failure gives 500 with its message under `details` |
| `App.Endpoint` | api/app.py:43-94 | answers 400 exactly when a mandatory check fails, 200 exactly when the checks pass and the model gives a price, and 500 exactly when they pass and the model fails |
| `App.EmptyPropertyTypeRejected` | api/app.py:46-53 | an empty property type gets 400 "Property type is required." whatever the location |
| `App.MissingLocationPartRejected` | api/app.py:55-63 | otherwise, an empty province or locality, or a zero postcode, gets 400 "Province, postcode, and locality are required." |
| `App.RejectionIgnoresModel` | api/app.py:44-66 | a rejected request gets the same 400 answer whatever the model does, so the model is not consulted |
| `App.ValidRequestReachesModel` | api/app.py:46-66 | a request valid under the schema passes both checks and goes on to the model |
| `App.SuccessResponse` | api/app.py:66-78 | a price from the model gives status 200 with `prediction` = price and `status_code` 200; `price_per_m2` is absent for price 0 and 1 otherwise |
| `App.FailureResponse` | api/app.py:80-94 | a model-service failure gives 500 "Prediction service failed." carrying its message under `details` |
| `App.FaultsAnsweredAlike` | api/app.py:83-94 | load failures, missing estimators and prediction failures with the same message get the same answer |
| `App.ErrorAnswersDistinct` | api/app.py:19-94 | the 400 answers, the prediction-failure answer and the global-handler answer are all different |
| `App.GlobalExceptionHandler` | api/app.py:19-30 | any other exception gives 500 "Internal server error" carrying its message under `message` |
| `App.PricePerM2IsOne` | api/app.py:69 | the computed `price_per_m2` is absent for price 0 and exactly 1 for every other price |
| `App.PricePerM2MatchesDocumentOnlyByChance` | api/schemas.py:201-204 | for a livable surface ≥ 1, the computed value equals the documented prediction / livable_surface exactly when the price equals the surface |
| `App.PricePerM2Mismatch` | api/app.py:69 | for the local-script descriptor and a price of 240000, the handler returns 1 where the documented value is 2000 |
| `App.LocalTestReachesModel` | api/tests/local_test.py:4-21 | the local-script descriptor goes through the checks to the model |
| `App.Handle` | api/app.py:42-43 | a body is refused exactly when it fails `PredictionRequest` validation, and then with validation's own non-empty error list; a body that passes gets exactly `Endpoint`'s answer for the validated request and the same model service, and that answer is never 400 |
| `App.SchemaRejectionSkipsModel` | api/app.py:42-43 | a body that fails validation gets the same answer whatever the model service does: no inference takes place |
| `App.MissingPropertyTypeRefused` | api/schemas.py:54-58 | a body without `property_type` is refused by validation with `data.property_type` missing, before the handler runs |
| `App.MissingLocationRefused` | api/schemas.py:66-69 | a body without `location` is refused by validation with `data.location` missing, before the handler runs |
| `App.Serve` | api/app.py:43-94 | answers as `Endpoint` with the model service at the current cache; a rejected request leaves the cache untouched, and an accepted one updates it as `_load_model` does |
| `Client.NoneIfNotSpecified` | streamlit/app.py:166-169 | gives `None` exactly for `None` and "Not specified", and otherwise returns its input unchanged |
| `Client.NoneIfNotSpecifiedIdempotent` | streamlit/app.py:166-169 | applying the mapper twice is the same as applying it once |
| `Client.GaragesNumeric` | streamlit/app.py:200-202 | the numeric garage count is absent exactly when the count is absent, and otherwise equals it |
| `Client.BuildPayload` | streamlit/app.py:173-256 | the payload always carries the property type, the livable surface and a location with province, postcode and locality |
| `Client.PayloadRequiredFields` | streamlit/app.py:218-228 | property type and livable surface are sent as entered; province, postcode and locality sit under `location` unchanged |
| `Client.PayloadNeverCarriesSentinel` | streamlit/app.py:218-253 | every one of the nine categorical fields (subtype, region, country, state, availability, kitchen equipment, kitchen type, heating, glazing) is sent as absent when left at "Not specified" and as chosen otherwise, so none carries the sentinel |
| `Client.PayloadCopiesCountsAndFlags` | streamlit/app.py:188-252 | all eight counts and surfaces other than the shower count and the livable surface, and all seven yes/no fields, are sent exactly as entered |
| `Client.PayloadDerivedFields` | streamlit/app.py:196-240 | `number_of_garages_numeric` is absent exactly when `number_of_garages` is, and otherwise equals that count; an unset shower count is sent as 0 |
| `Client.ValidatedPayloadMatchesForm` | streamlit/app.py:218-253 | once the API validates the payload, every field reads back as the form: required fields, counts and flags as entered, the shower count as entered or 0, and every choice as selected (absent for "Not specified") |
| `Client.MissingLabelsAreFailing` | streamlit/app.py:713-723 | the missing labels are exactly the required fields whose check fails |
| `Client.MissingLabelsInCheckOrder` | streamlit/app.py:713-723 | the missing labels come in the order property_type, province, postcode, locality, "livable_surface (> 0)", so none is listed twice |
| `Client.NoneMissingIffReady` | streamlit/app.py:713-725 | no label is missing exactly when every required check passes |
| `Client.MissingFields` | streamlit/app.py:713-723 | the appends build exactly the list of missing labels |
| `Client.OnPredictClicked` | streamlit/app.py:712-730 | sends the built payload exactly when every required check passes, and otherwise shows "Missing or invalid required fields: " followed by the missing labels joined with ", " |
| `Client.SchemaValidImpliesClientReady` | streamlit/app.py:712-730 | a form whose payload the API would accept always passes the client check |
| `Client.ClientCheckWeakerThanSchema` | streamlit/app.py:712-730 | some form passes the client check while the API still rejects its payload (postcode 99999) |

## Left out

- The trained estimator, pandas, numpy and joblib: an estimator is an uninterpreted function from a row to a price or a failure. The `float(np.asarray(y_pred)[0])` coercion is folded into that function.
- Floating point: prices and the numeric garage count are mathematical reals, so NaN, infinities and rounding are not modelled. In particular, `price / price` for NaN or infinite prices is not covered.
- Schemas.Validate: a JSON `null` and a missing key are both reported as `Missing`, because the received record does not tell them apart; pydantic reports a `null` in a required field as a type error (`string_type`, `int_type`) instead.
- Pydantic's parsing and coercion (strings to numbers, lax booleans, extra keys) and the 422 answer that FastAPI gives for a rejected body. Only the declared constraints and the order of the errors are modelled. Each field reports at most one error.
- FastAPI routing, `JSONResponse` and the health route `/`. A response is modelled as a status and a body value.
- Concurrency around the `_MODEL` cache: the source has no lock, and the model covers sequential calls only.
- In streamlit/app.py: widgets, styling and layout; the `requests.post` call and the display of its result; both `fill_random_example` definitions (random); and the block that calls the undefined `call_api`.
- The session state's key lookups: every key except `number_of_showers` is assumed present. A missing key, which raises `KeyError` in the source, is not modelled.
