/** The model service (api/predict.py): projection of a validated descriptor onto
    the 23 columns the trained pipeline expects, selection of the estimator from
    the loaded artifact, the process-wide cache of that estimator, and the price
    prediction that composes them.

    The artifact file and `joblib.load` are not modelled: each load attempt takes
    what `joblib.load` would have produced (an object, or the message of the
    exception it raised) as a parameter. An estimator is reduced to its `predict`
    on one feature row, which returns a price or fails with a message. */
module Predict {
  import opened Wrappers
  import opened Schemas

  // ---------------------------------------------------------------------------
  // Feature projection
  // ---------------------------------------------------------------------------

  /** A value in a feature column; `Null` is the explicit "unknown". */
  datatype Cell = Null | IntCell(i: int) | BoolCell(b: bool) | TextCell(s: string)

  /** The kind of value a column holds when it is known. */
  datatype Kind = IntKind | BoolKind | TextKind

  /** One row, as an ordered list of (column name, value) pairs. */
  type FeatureVector = seq<(string, Cell)>

  /** The columns of the training data, in the order the row is built. */
  const FeatureColumns: seq<(string, Kind)> := [
    ("Number of bedrooms", IntKind),
    ("Livable surface", IntKind),
    ("Total land surface", IntKind),
    ("Surface garden", IntKind),
    ("Surface terrace", IntKind),
    ("Number of facades", IntKind),
    ("Number of bathrooms", IntKind),
    ("Number of showers", IntKind),
    ("Number of toilets", IntKind),
    ("Garage", BoolKind),
    ("Number of garages", IntKind),
    ("Furnished", BoolKind),
    ("Attic", BoolKind),
    ("Garden", BoolKind),
    ("Terrace", BoolKind),
    ("Swimming pool", BoolKind),
    ("Kitchen equipment", TextKind),
    ("Kitchen type", TextKind),
    ("Type of heating", TextKind),
    ("Type of glazing", TextKind),
    ("Elevator", BoolKind),
    ("Availability", TextKind),
    ("State of the property", TextKind)
  ]

  predicate HasKind(c: Cell, k: Kind) {
    match c
    case Null => true
    case IntCell(_) => k == IntKind
    case BoolCell(_) => k == BoolKind
    case TextCell(_) => k == TextKind
  }

  /** A row with exactly the training columns, in order, each holding either
      `Null` or a value of its column's kind. */
  predicate WellFormed(fv: FeatureVector) {
    && |fv| == |FeatureColumns|
    && (forall i :: 0 <= i < |fv| ==> fv[i].0 == FeatureColumns[i].0)
    && (forall i :: 0 <= i < |fv| ==> HasKind(fv[i].1, FeatureColumns[i].1))
  }

  function IntSlot(v: Option<int>): (c: Cell)
    ensures HasKind(c, IntKind)
    ensures c == Null <==> v.None?
  {
    match v
    case None => Null
    case Some(n) => IntCell(n)
  }

  function BoolSlot(v: Option<bool>): (c: Cell)
    ensures HasKind(c, BoolKind)
    ensures c == Null <==> v.None?
  {
    match v
    case None => Null
    case Some(b) => BoolCell(b)
  }

  function TextSlot(v: Option<string>): (c: Cell)
    ensures HasKind(c, TextKind)
    ensures c == Null <==> v.None?
  {
    match v
    case None => Null
    case Some(s) => TextCell(s)
  }

  /** `preprocess_for_model`: the feature row of a descriptor. */
  function Preprocess(f: PropertyFeatures): (fv: FeatureVector)
    ensures WellFormed(fv)
  {
    [ ("Number of bedrooms", IntSlot(f.numberOfBedrooms)),
      ("Livable surface", IntCell(f.livableSurface)),
      ("Total land surface", IntSlot(f.totalLandSurface)),
      ("Surface garden", IntSlot(f.surfaceGarden)),
      ("Surface terrace", IntSlot(f.surfaceTerrace)),
      ("Number of facades", IntSlot(f.numberOfFacades)),
      ("Number of bathrooms", IntSlot(f.numberOfBathrooms)),
      ("Number of showers", IntSlot(f.numberOfShowers)),
      ("Number of toilets", IntSlot(f.numberOfToilets)),
      ("Garage", BoolSlot(f.garage)),
      ("Number of garages", IntSlot(f.numberOfGarages)),
      ("Furnished", BoolSlot(f.furnished)),
      ("Attic", BoolSlot(f.attic)),
      ("Garden", BoolSlot(f.garden)),
      ("Terrace", BoolSlot(f.terrace)),
      ("Swimming pool", BoolSlot(f.swimmingPool)),
      ("Kitchen equipment", TextSlot(f.kitchenEquipment)),
      ("Kitchen type", TextSlot(f.kitchenType)),
      ("Type of heating", TextSlot(f.typeOfHeating)),
      ("Type of glazing", TextSlot(f.typeOfGlazing)),
      ("Elevator", BoolSlot(f.elevator)),
      ("Availability", TextSlot(f.availability)),
      ("State of the property", TextSlot(f.stateOfProperty)) ]
  }

  /** The columns are 23 distinct names. */
  lemma FeatureColumnsDistinct()
    ensures |FeatureColumns| == 23
    ensures forall i, j :: 0 <= i < j < |FeatureColumns| ==> FeatureColumns[i].0 != FeatureColumns[j].0
  {
  }

  /** What the row does not carry: location, property type, subtype and the
      numeric garage count. */
  datatype Withheld = Withheld(
    propertyType: string,
    subtypeOfProperty: Option<string>,
    location: Location,
    numberOfGaragesNumeric: Option<real>)

  function WithheldOf(f: PropertyFeatures): Withheld {
    Withheld(f.propertyType, f.subtypeOfProperty, f.location, f.numberOfGaragesNumeric)
  }

  /** The row depends on nothing but the projected attributes. */
  lemma PreprocessIgnoresWithheld(f: PropertyFeatures, w: Withheld)
    ensures Preprocess(f) == Preprocess(f.(propertyType := w.propertyType,
                                           subtypeOfProperty := w.subtypeOfProperty,
                                           location := w.location,
                                           numberOfGaragesNumeric := w.numberOfGaragesNumeric))
  {
  }

  function IntOf(c: Cell): Option<int> { if c.IntCell? then Some(c.i) else None }

  function BoolOf(c: Cell): Option<bool> { if c.BoolCell? then Some(c.b) else None }

  function TextOf(c: Cell): Option<string> { if c.TextCell? then Some(c.s) else None }

  /** Reads a descriptor back from a well-formed row and the withheld fields. */
  function Restore(fv: FeatureVector, w: Withheld): Option<PropertyFeatures> {
    if !WellFormed(fv) || !fv[1].1.IntCell? then None
    else
      Some(Descriptor(
        w.propertyType, w.subtypeOfProperty, w.location,
        IntOf(fv[0].1), fv[1].1.i, IntOf(fv[2].1), IntOf(fv[3].1), IntOf(fv[4].1),
        IntOf(fv[5].1), IntOf(fv[6].1), IntOf(fv[7].1), IntOf(fv[8].1),
        BoolOf(fv[9].1), IntOf(fv[10].1), w.numberOfGaragesNumeric,
        TextOf(fv[22].1), TextOf(fv[21].1),
        BoolOf(fv[11].1), BoolOf(fv[12].1), BoolOf(fv[13].1), BoolOf(fv[14].1),
        BoolOf(fv[15].1), TextOf(fv[16].1), TextOf(fv[17].1), TextOf(fv[18].1),
        TextOf(fv[19].1), BoolOf(fv[20].1)))
  }

  /** Every projected attribute reaches its slot unchanged: the row and the
      withheld fields together give the descriptor back. */
  lemma PreprocessRoundTrip(f: PropertyFeatures)
    ensures Restore(Preprocess(f), WithheldOf(f)) == Some(f)
  {
    var fv := Preprocess(f);
    assert WellFormed(fv) && fv[1].1 == IntCell(f.livableSurface);
    assert forall v :: IntOf(IntSlot(v)) == v;
    assert forall v :: BoolOf(BoolSlot(v)) == v;
    assert forall v :: TextOf(TextSlot(v)) == v;
  }

  /** Two descriptors give the same row exactly when they agree on everything
      but the withheld fields. */
  lemma PreprocessInjective(f: PropertyFeatures, g: PropertyFeatures)
    ensures Preprocess(f) == Preprocess(g) <==>
            f == g.(propertyType := f.propertyType,
                    subtypeOfProperty := f.subtypeOfProperty,
                    location := f.location,
                    numberOfGaragesNumeric := f.numberOfGaragesNumeric)
  {
    var g' := g.(propertyType := f.propertyType,
                 subtypeOfProperty := f.subtypeOfProperty,
                 location := f.location,
                 numberOfGaragesNumeric := f.numberOfGaragesNumeric);
    if Preprocess(f) == Preprocess(g) {
      PreprocessRoundTrip(f);
      PreprocessRoundTrip(g');
      PreprocessIgnoresWithheld(g, WithheldOf(f));
      assert WithheldOf(g') == WithheldOf(f);
    }
    if f == g' {
      PreprocessIgnoresWithheld(g, WithheldOf(f));
    }
  }

  /** An absent surface lands in its slot as `Null`, never as 0, and a present
      one never does; the livable surface is never `Null`. */
  lemma AbsentSurfaceIsNull(f: PropertyFeatures)
    ensures f.totalLandSurface.None? <==> Preprocess(f)[2].1 == Null
    ensures f.surfaceGarden.None? <==> Preprocess(f)[3].1 == Null
    ensures f.surfaceTerrace.None? <==> Preprocess(f)[4].1 == Null
    ensures Preprocess(f)[1].1 != Null
  {
  }

  /** An absent count lands in its slot as `Null`, never as 0, and a present
      one never does. */
  lemma AbsentCountIsNull(f: PropertyFeatures)
    ensures f.numberOfBedrooms.None? <==> Preprocess(f)[0].1 == Null
    ensures f.numberOfFacades.None? <==> Preprocess(f)[5].1 == Null
    ensures f.numberOfBathrooms.None? <==> Preprocess(f)[6].1 == Null
    ensures f.numberOfShowers.None? <==> Preprocess(f)[7].1 == Null
    ensures f.numberOfToilets.None? <==> Preprocess(f)[8].1 == Null
    ensures f.numberOfGarages.None? <==> Preprocess(f)[10].1 == Null
  {
  }

  /** An absent yes/no attribute lands in its slot as `Null`, never as false,
      and a present one never does. */
  lemma AbsentFlagIsNull(f: PropertyFeatures)
    ensures f.garage.None? <==> Preprocess(f)[9].1 == Null
    ensures f.furnished.None? <==> Preprocess(f)[11].1 == Null
    ensures f.attic.None? <==> Preprocess(f)[12].1 == Null
    ensures f.garden.None? <==> Preprocess(f)[13].1 == Null
    ensures f.terrace.None? <==> Preprocess(f)[14].1 == Null
    ensures f.swimmingPool.None? <==> Preprocess(f)[15].1 == Null
    ensures f.elevator.None? <==> Preprocess(f)[20].1 == Null
  {
  }

  /** An absent choice lands in its slot as `Null`, never as "", and a present
      one never does. */
  lemma AbsentChoiceIsNull(f: PropertyFeatures)
    ensures f.kitchenEquipment.None? <==> Preprocess(f)[16].1 == Null
    ensures f.kitchenType.None? <==> Preprocess(f)[17].1 == Null
    ensures f.typeOfHeating.None? <==> Preprocess(f)[18].1 == Null
    ensures f.typeOfGlazing.None? <==> Preprocess(f)[19].1 == Null
    ensures f.availability.None? <==> Preprocess(f)[21].1 == Null
    ensures f.stateOfProperty.None? <==> Preprocess(f)[22].1 == Null
  {
  }

  // ---------------------------------------------------------------------------
  // The loaded artifact and the estimator inside it
  // ---------------------------------------------------------------------------

  /** An estimator, reduced to `predict` on one row. */
  datatype Model = Model(predict: FeatureVector -> Result<real, string>)

  /** What `joblib.load` can return: an object with `predict`, a dict, or an
      object of some other type (named as `type(...)` prints it). */
  datatype PyObject =
    | Predictor(model: Model)
    | Dict(entries: map<string, PyObject>)
    | Other(typeName: string)

  /** The exceptions of the model service, with the text `str(exc)` gives. */
  datatype Fault =
    | LoadFailed(message: string)      // raised by joblib.load itself
    | TypeError(message: string)       // the artifact holds no estimator
    | PredictFailed(message: string)   // raised by the estimator's predict

  /** The dict keys tried, in order. */
  const CandidateKeys: seq<string> := ["model", "pipeline", "pipe", "estimator"]

  const DictWithoutModel: string :=
    "Loaded joblib file is a dict but no usable model was found under keys "
    + "'model', 'pipeline', 'pipe', or 'estimator'."

  function NoPredictMessage(typeName: string): string {
    "Loaded joblib object of type " + typeName + ", which has no 'predict' method."
  }

  predicate HasPredictor(entries: map<string, PyObject>, key: string) {
    key in entries && entries[key].Predictor?
  }

  /** The position of the first of `keys` whose value has `predict`. */
  function FirstPredictor(entries: map<string, PyObject>, keys: seq<string>): (r: Option<nat>)
    ensures r.None? <==> forall i :: 0 <= i < |keys| ==> !HasPredictor(entries, keys[i])
    ensures r.Some? ==> r.value < |keys| && HasPredictor(entries, keys[r.value])
                        && forall j :: 0 <= j < r.value ==> !HasPredictor(entries, keys[j])
  {
    if keys == [] then None
    else if HasPredictor(entries, keys[0]) then Some(0)
    else
      var r := FirstPredictor(entries, keys[1..]);
      assert forall i :: 1 <= i < |keys| ==> keys[i] == keys[1..][i - 1];
      if r.Some? then Some(r.value + 1) else None
  }

  /** The estimator the artifact provides, or the TypeError raised for it. */
  function Select(loaded: PyObject): (r: Result<Model, Fault>)
    ensures loaded.Predictor? ==> r == Ok(loaded.model)
    ensures loaded.Other? ==> r == Err(TypeError(NoPredictMessage(loaded.typeName)))
    ensures loaded.Dict? ==>
      (r.Ok? <==> exists i :: 0 <= i < |CandidateKeys| && HasPredictor(loaded.entries, CandidateKeys[i]))
    ensures r.Err? ==> r.error.TypeError?
  {
    match loaded
    case Predictor(m) => Ok(m)
    case Dict(entries) =>
      (match FirstPredictor(entries, CandidateKeys)
       case Some(i) => Ok(entries[CandidateKeys[i]].model)
       case None => Err(TypeError(DictWithoutModel)))
    case Other(t) => Err(TypeError(NoPredictMessage(t)))
  }

  /** What `_load_model` returns, given the cache and what loading would give. */
  function LoadResult(cache: Option<Model>, artifact: Result<PyObject, string>): (r: Result<Model, Fault>)
    ensures cache.Some? ==> r == Ok(cache.value)
    ensures cache.None? && artifact.Err? ==> r == Err(LoadFailed(artifact.error))
    ensures cache.None? && artifact.Ok? ==> r == Select(artifact.value)
    ensures r.Err? ==> cache.None? && !r.error.PredictFailed?
  {
    if cache.Some? then Ok(cache.value)
    else
      match artifact
      case Err(msg) => Err(LoadFailed(msg))
      case Ok(loaded) => Select(loaded)
  }

  /** The cache after a `_load_model` call. */
  function CacheAfter(cache: Option<Model>, artifact: Result<PyObject, string>): (c: Option<Model>)
    ensures c.Some? <==> LoadResult(cache, artifact).Ok?
    ensures c.Some? ==> LoadResult(cache, artifact) == Ok(c.value)
    ensures cache.Some? ==> c == cache
  {
    if cache.Some? then cache
    else
      match LoadResult(cache, artifact)
      case Ok(m) => Some(m)
      case Err(_) => None
  }

  /** The results of successive `_load_model` calls, each given what loading
      would produce at that moment. */
  function RunLoads(cache: Option<Model>, artifacts: seq<Result<PyObject, string>>): (rs: seq<Result<Model, Fault>>)
    ensures |rs| == |artifacts|
    decreases |artifacts|
  {
    if artifacts == [] then []
    else [LoadResult(cache, artifacts[0])] + RunLoads(CacheAfter(cache, artifacts[0]), artifacts[1..])
  }

  // ---------------------------------------------------------------------------
  // Properties of selection and caching
  // ---------------------------------------------------------------------------

  /** A dict artifact yields the estimator under the first candidate key whose
      value has `predict`, and a TypeError when there is none. */
  lemma SelectFromDict(entries: map<string, PyObject>)
    ensures Select(Dict(entries)).Err? <==> forall i :: 0 <= i < |CandidateKeys| ==> !HasPredictor(entries, CandidateKeys[i])
    ensures Select(Dict(entries)).Err? ==> Select(Dict(entries)).error == TypeError(DictWithoutModel)
    ensures Select(Dict(entries)).Ok? ==>
      exists i :: 0 <= i < |CandidateKeys| && HasPredictor(entries, CandidateKeys[i])
                  && Select(Dict(entries)).value == entries[CandidateKeys[i]].model
                  && forall j :: 0 <= j < i ==> !HasPredictor(entries, CandidateKeys[j])
  {
  }

  /** With a model cached, loading returns it whatever the artifact. */
  lemma CacheHitIgnoresArtifact(m: Model, a: Result<PyObject, string>)
    ensures LoadResult(Some(m), a) == Ok(m)
    ensures CacheAfter(Some(m), a) == Some(m)
  {
  }

  /** A failed load leaves the cache empty, so the next call loads again. */
  lemma FailedLoadIsRetried(a: Result<PyObject, string>, b: Result<PyObject, string>)
    requires LoadResult(None, a).Err?
    ensures CacheAfter(None, a) == None
    ensures LoadResult(CacheAfter(None, a), b) == LoadResult(None, b)
  {
  }

  /** Once a load succeeds, every later call returns the same estimator. */
  lemma {:induction false} LoadIsSticky(cache: Option<Model>, artifacts: seq<Result<PyObject, string>>, i: nat)
    requires i < |artifacts| && RunLoads(cache, artifacts)[i].Ok?
    ensures forall j :: i <= j < |artifacts| ==> RunLoads(cache, artifacts)[j] == RunLoads(cache, artifacts)[i]
    decreases i
  {
    var rs := RunLoads(cache, artifacts);
    var next := CacheAfter(cache, artifacts[0]);
    var tail := RunLoads(next, artifacts[1..]);
    assert rs == [LoadResult(cache, artifacts[0])] + tail;
    if i == 0 {
      var m := rs[0].value;
      assert next == Some(m);
      forall j | 0 < j < |artifacts|
        ensures rs[j] == rs[0]
      {
        AlwaysCached(m, artifacts[1..], j - 1);
      }
    } else {
      LoadIsSticky(next, artifacts[1..], i - 1);
    }
  }

  /** From a cached estimator, every call returns it. */
  lemma {:induction false} AlwaysCached(m: Model, artifacts: seq<Result<PyObject, string>>, j: nat)
    requires j < |artifacts|
    ensures RunLoads(Some(m), artifacts)[j] == Ok(m)
    decreases j
  {
    if j > 0 {
      AlwaysCached(m, artifacts[1..], j - 1);
    }
  }

  // ---------------------------------------------------------------------------
  // Price prediction
  // ---------------------------------------------------------------------------

  /** What `predict_price` returns: load, project, predict. */
  function PriceOutcome(cache: Option<Model>, artifact: Result<PyObject, string>, f: PropertyFeatures): (r: Result<real, Fault>)
    ensures LoadResult(cache, artifact).Err? ==> r == Err(LoadResult(cache, artifact).error)
    ensures LoadResult(cache, artifact).Ok? ==>
      var y := LoadResult(cache, artifact).value.predict(Preprocess(f));
      (r.Ok? <==> y.Ok?) && (r.Ok? ==> r.value == y.value)
      && (r.Err? ==> r.error == PredictFailed(y.error))
  {
    match LoadResult(cache, artifact)
    case Err(e) => Err(e)
    case Ok(m) =>
      match m.predict(Preprocess(f))
      case Ok(price) => Ok(price)
      case Err(msg) => Err(PredictFailed(msg))
  }

  /** The estimator sees only the row: location, property type, subtype and the
      numeric garage count cannot change a price. */
  lemma PriceIgnoresWithheld(cache: Option<Model>, artifact: Result<PyObject, string>, f: PropertyFeatures, g: PropertyFeatures)
    requires Preprocess(f) == Preprocess(g)
    ensures PriceOutcome(cache, artifact, f) == PriceOutcome(cache, artifact, g)
  {
  }

  /** The module-level `_MODEL` cache and the operations that use it. */
  class ModelCache {
    var cached: Option<Model>

    constructor ()
      ensures cached == None
    {
      cached := None;
    }

    /** `_load_model`. */
    method Load(artifact: Result<PyObject, string>) returns (r: Result<Model, Fault>)
      modifies this
      ensures r == LoadResult(old(cached), artifact)
      ensures cached == CacheAfter(old(cached), artifact)
    {
      if cached.Some? {
        return Ok(cached.value);
      }
      if artifact.Err? {
        return Err(LoadFailed(artifact.error));
      }
      var loaded := artifact.value;
      if loaded.Predictor? {
        cached := Some(loaded.model);
        return Ok(loaded.model);
      }
      if loaded.Dict? {
        for i := 0 to |CandidateKeys|
          invariant forall j :: 0 <= j < i ==> !HasPredictor(loaded.entries, CandidateKeys[j])
          invariant cached == None
        {
          var key := CandidateKeys[i];
          if key in loaded.entries && loaded.entries[key].Predictor? {
            cached := Some(loaded.entries[key].model);
            return Ok(loaded.entries[key].model);
          }
        }
        return Err(TypeError(DictWithoutModel));
      }
      return Err(TypeError(NoPredictMessage(loaded.typeName)));
    }

    /** `predict_price`. */
    method PredictPrice(f: PropertyFeatures, artifact: Result<PyObject, string>) returns (r: Result<real, Fault>)
      modifies this
      ensures r == PriceOutcome(old(cached), artifact, f)
      ensures cached == CacheAfter(old(cached), artifact)
    {
      var loaded := Load(artifact);
      if loaded.Err? {
        return Err(loaded.error);
      }
      var row := Preprocess(f);
      var y := loaded.value.predict(row);
      if y.Err? {
        return Err(PredictFailed(y.error));
      }
      return Ok(y.value);
    }
  }
}
