/**
 * The prediction endpoint, `PredictCarbonFootprintView.post`: how it reads and checks the
 * request body, when it constructs and calls the service, which status it answers with,
 * and that it logs a prediction only when one was made.
 */
module Views {
  import opened Wrappers
  import Json
  import Training
  import Services

  /** What lies behind a 500 answer. */
  datatype ServerCause =
    | ConversionTypeError  // float() of a missing (None) or non-scalar field raises TypeError
    | ModelFileNotFound    // the first construction of the service found no model file
    | ModelNotLoaded       // predict on a service whose first load had failed
    | BodyNotAnObject      // the parsed body is a list, a string, a number or null: `.get` raises AttributeError

  /** A request the view answers itself, without a prediction. */
  datatype RequestError =
    | MissingRequiredFields         // 400 "Missing required fields"
    | WeightOutOfRange              // 400 "Weight must be between 0 and 1000 kg"
    | DistanceOutOfRange            // 400 "Distance must be between 0 and 50000 km"
    | InvalidInput(text: string)    // 400 "Invalid input: ...", a ValueError
    | ServerError(cause: ServerCause) // 500 "Server error: ..."

  /** The status code each error is answered with. */
  function ErrorStatus(e: RequestError): (code: int)
    ensures code == 500 <==> e.ServerError?
    ensures code == 400 <==> !e.ServerError?
  {
    if e.ServerError? then 500 else 400
  }

  /** The fields the view hands on, after conversion and checks. */
  datatype Request = Request(
    productName: Json.Value, material: Json.Value, weightKg: real,
    transportMode: Json.Value, distanceKm: real, intensity: Json.Value)

  /**
   * `float(request.data.get(key))`: a missing key is `None`, whose conversion raises TypeError
   * (a 500); text that is not a number raises ValueError (a 400).
   */
  function FloatField(data: Json.Body, key: string, parse: string -> Option<real>): (r: Result<real, RequestError>)
    ensures key !in data ==> r == Failure(ServerError(ConversionTypeError))
    ensures key in data && (data[key].Null? || data[key].Array? || data[key].Object?) ==>
              r == Failure(ServerError(ConversionTypeError))
    ensures key in data && data[key].Number? ==> r == Success(data[key].n)
    ensures key in data && data[key].Bool? ==> r == Success(if data[key].b then 1.0 else 0.0)
    ensures key in data && data[key].Str? && parse(data[key].s).None? ==> r == Failure(InvalidInput(data[key].s))
    ensures key in data && data[key].Str? && parse(data[key].s).Some? ==> r == Success(parse(data[key].s).value)
    ensures r.Failure? ==> r.error == ServerError(ConversionTypeError) || r.error.InvalidInput?
  {
    match Json.ToFloat(Json.GetOr(data, key, Json.Null), parse)
    case Success(x) => Success(x)
    case Failure(e) =>
      match e
      case TypeError => Failure(ServerError(ConversionTypeError))
      case ValueError(text) => Failure(InvalidInput(text))
  }

  /** Every check of `post` passes: both numbers convert, all four fields are truthy, both are in range. */
  predicate Acceptable(data: Json.Body, parse: string -> Option<real>)
  {
    var w := FloatField(data, "weight_kg", parse);
    var d := FloatField(data, "transport_distance_km", parse);
    && w.Success? && d.Success?
    && Json.Truthy(Json.GetOr(data, "material", Json.Null))
    && Json.Truthy(Json.GetOr(data, "transport_mode", Json.Null))
    && 0.0 < w.value <= 1000.0
    && 0.0 < d.value <= 50000.0
  }

  /**
   * The extraction and the checks of `post`, in the order `post` makes them: material, weight
   * (converted), transport mode, distance (converted), intensity (default "MEDIUM"), then
   * presence, then the weight range, then the distance range.
   */
  function ParseRequest(data: Json.Body, parse: string -> Option<real>): (r: Result<Request, RequestError>)
    ensures r.Success? <==> Acceptable(data, parse)
    ensures r.Success? ==>
              && r.value.material == Json.GetOr(data, "material", Json.Null)
              && r.value.transportMode == Json.GetOr(data, "transport_mode", Json.Null)
              && r.value.intensity == Json.GetOr(data, "manufacturing_intensity", Json.Str("MEDIUM"))
              && r.value.productName == Json.GetOr(data, "product_name", Json.Str("Unknown Product"))
              && Success(r.value.weightKg) == FloatField(data, "weight_kg", parse)
              && Success(r.value.distanceKm) == FloatField(data, "transport_distance_km", parse)
    ensures var w := FloatField(data, "weight_kg", parse);
            w.Failure? ==> r == Failure(w.error)
    ensures var w := FloatField(data, "weight_kg", parse);
            var d := FloatField(data, "transport_distance_km", parse);
            w.Success? && d.Failure? ==> r == Failure(d.error)
    ensures var w := FloatField(data, "weight_kg", parse);
            var d := FloatField(data, "transport_distance_km", parse);
            w.Success? && d.Success? &&
            !(Json.Truthy(Json.GetOr(data, "material", Json.Null)) && w.value != 0.0
              && Json.Truthy(Json.GetOr(data, "transport_mode", Json.Null)) && d.value != 0.0) ==>
              r == Failure(MissingRequiredFields)
    ensures var w := FloatField(data, "weight_kg", parse);
            var d := FloatField(data, "transport_distance_km", parse);
            w.Success? && d.Success? && w.value != 0.0 && d.value != 0.0 &&
            Json.Truthy(Json.GetOr(data, "material", Json.Null)) && Json.Truthy(Json.GetOr(data, "transport_mode", Json.Null)) ==>
              && (w.value < 0.0 || w.value > 1000.0 ==> r == Failure(WeightOutOfRange))
              && (0.0 < w.value <= 1000.0 && (d.value < 0.0 || d.value > 50000.0) ==> r == Failure(DistanceOutOfRange))
  {
    var productName := Json.GetOr(data, "product_name", Json.Str("Unknown Product"));
    var material := Json.GetOr(data, "material", Json.Null);
    match FloatField(data, "weight_kg", parse)
    case Failure(e) => Failure(e)
    case Success(weight) =>
      var mode := Json.GetOr(data, "transport_mode", Json.Null);
      match FloatField(data, "transport_distance_km", parse)
      case Failure(e) => Failure(e)
      case Success(distance) =>
        var intensity := Json.GetOr(data, "manufacturing_intensity", Json.Str("MEDIUM"));
        if !(Json.Truthy(material) && weight != 0.0 && Json.Truthy(mode) && distance != 0.0) then
          Failure(MissingRequiredFields)
        else if weight <= 0.0 || weight > 1000.0 then Failure(WeightOutOfRange)
        else if distance < 0.0 || distance > 50000.0 then Failure(DistanceOutOfRange)
        else Success(Request(productName, material, weight, mode, distance, intensity))
  }

  datatype ResponseBody =
    | ErrorBody(error: RequestError)                  // a failure dict built by the view
    | PredictionFailed(failure: Services.PredictError) // the service's own failure dict, passed on
    | PredictionBody(result: Services.Prediction)      // the service's result, passed on

  datatype Response = Response(status: int, body: ResponseBody)

  /** One `PredictionLog` row. The intensity is not among the logged fields. */
  datatype LogEntry = LogEntry(
    productName: Json.Value, material: Json.Value, weightKg: real, transportMode: Json.Value,
    distanceKm: real, predictedCo2Kg: real, materialCo2: real, manufacturingCo2: real,
    transportCo2: real, treesToOffset: real)

  function LogEntryOf(req: Request, p: Services.Prediction): (e: LogEntry)
    ensures e.productName == req.productName && e.material == req.material && e.weightKg == req.weightKg
            && e.transportMode == req.transportMode && e.distanceKm == req.distanceKm
    ensures e.predictedCo2Kg == p.co2Kg && e.treesToOffset == p.compensation.treesPerYear
    ensures e.materialCo2 == p.breakdown.materialCo2 && e.manufacturingCo2 == p.breakdown.manufacturingCo2
            && e.transportCo2 == p.breakdown.transportCo2
  {
    LogEntry(req.productName, req.material, req.weightKg, req.transportMode, req.distanceKm,
             p.co2Kg, p.breakdown.materialCo2, p.breakdown.manufacturingCo2, p.breakdown.transportCo2,
             p.compensation.treesPerYear)
  }

  /**
   * The answer to a request, given whether the service instance already exists, the
   * artifacts it holds, and what a first load would find on disk.
   */
  function Respond(data: Json.Body, parse: string -> Option<real>, created: bool,
                   artifacts: Option<Training.Artifacts>, modelFile: Option<Training.Artifacts>): (resp: Response)
    ensures resp.status == 200 || resp.status == 400 || resp.status == 500
    ensures resp.status == 200 <==> resp.body.PredictionBody?
    ensures resp.body.PredictionFailed? ==> resp.status == 400
    ensures !Acceptable(data, parse) ==>
              resp == Response(ErrorStatus(ParseRequest(data, parse).error), ErrorBody(ParseRequest(data, parse).error))
    ensures Acceptable(data, parse) && !created && modelFile.None? ==>
              resp == Response(500, ErrorBody(ServerError(ModelFileNotFound)))
    ensures Acceptable(data, parse) && (created || modelFile.Some?) ==>
              var req := ParseRequest(data, parse).value;
              var o := Services.PredictWith(if created then artifacts else modelFile,
                                            req.material, req.weightKg, req.transportMode, req.distanceKm, req.intensity);
              && (o.Predicted? ==> resp == Response(200, PredictionBody(o.result)))
              && (o.Failed? ==> resp == Response(400, PredictionFailed(o.error)))
              && (o.ModelNotLoaded? ==> resp == Response(500, ErrorBody(ServerError(ModelNotLoaded))))
  {
    match ParseRequest(data, parse)
    case Failure(e) => Response(ErrorStatus(e), ErrorBody(e))
    case Success(req) =>
      if !created && modelFile.None? then Response(500, ErrorBody(ServerError(ModelFileNotFound)))
      else
        var loaded := if created then artifacts else modelFile;
        match Services.PredictWith(loaded, req.material, req.weightKg, req.transportMode, req.distanceKm, req.intensity)
        case ModelNotLoaded => Response(500, ErrorBody(ServerError(ModelNotLoaded)))
        case Failed(e) => Response(400, PredictionFailed(e))
        case Predicted(p) => Response(200, PredictionBody(p))
  }

  /**
   * The answer to a parsed body of any JSON shape: only an object has `.get`; anything else
   * raises AttributeError inside the `try`, which the generic handler answers with 500.
   */
  function Answer(body: Json.Value, parse: string -> Option<real>, created: bool,
                  artifacts: Option<Training.Artifacts>, modelFile: Option<Training.Artifacts>): (resp: Response)
    ensures !body.Object? ==> resp == Response(500, ErrorBody(ServerError(BodyNotAnObject)))
    ensures body.Object? ==> resp == Respond(body.fields, parse, created, artifacts, modelFile)
    ensures resp.status == 200 ==> body.Object? && Acceptable(body.fields, parse)
  {
    if body.Object? then Respond(body.fields, parse, created, artifacts, modelFile)
    else Response(500, ErrorBody(ServerError(BodyNotAnObject)))
  }

  /** The `PredictionLog` table. */
  class PredictionLog {
    var entries: seq<LogEntry>

    constructor ()
      ensures entries == []
    {
      entries := [];
    }

    method Append(e: LogEntry)
      modifies this
      ensures entries == old(entries) + [e]
    {
      entries := entries + [e];
    }
  }

  /** `post`: answer the request, constructing the service when the checks pass, and log a prediction made. */
  method Post(service: Services.CarbonFootprintService, log: PredictionLog, body: Json.Value,
              parse: string -> Option<real>, modelFile: Option<Training.Artifacts>) returns (resp: Response)
    modifies service, log
    ensures resp == Answer(body, parse, old(service.created), old(service.artifacts), modelFile)
    ensures !(body.Object? && Acceptable(body.fields, parse)) ==>
              service.created == old(service.created) && service.artifacts == old(service.artifacts)
    ensures body.Object? && Acceptable(body.fields, parse) ==>
              && service.created
              && service.artifacts == (if old(service.created) || modelFile.None? then old(service.artifacts) else modelFile)
    ensures resp.status == 200 ==>
              && body.Object?
              && log.entries == old(log.entries) + [LogEntryOf(ParseRequest(body.fields, parse).value, resp.body.result)]
    ensures resp.status != 200 ==> log.entries == old(log.entries)
  {
    if !body.Object? {
      resp := Response(500, ErrorBody(ServerError(BodyNotAnObject)));
      return;
    }
    var data := body.fields;
    var parsed := ParseRequest(data, parse);
    if parsed.Failure? {
      resp := Response(ErrorStatus(parsed.error), ErrorBody(parsed.error));
      return;
    }
    var req := parsed.value;
    var instance := service.Instance(modelFile);
    if instance.Failure? {
      resp := Response(500, ErrorBody(ServerError(ModelFileNotFound)));
      return;
    }
    var outcome := service.Predict(req.material, req.weightKg, req.transportMode, req.distanceKm, req.intensity);
    match outcome {
      case ModelNotLoaded =>
        resp := Response(500, ErrorBody(ServerError(ModelNotLoaded)));
      case Failed(e) =>
        resp := Response(400, PredictionFailed(e));
      case Predicted(p) =>
        log.Append(LogEntryOf(req, p));
        resp := Response(200, PredictionBody(p));
    }
  }

  // ---------------------------------------------------------------------------
  // Properties of the endpoint

  /** A body without `weight_kg` is a server error, whatever else it holds: `float(None)` raises TypeError. */
  lemma MissingWeightIsServerError(data: Json.Body, parse: string -> Option<real>, created: bool,
                                   artifacts: Option<Training.Artifacts>, modelFile: Option<Training.Artifacts>)
    requires "weight_kg" !in data
    ensures Respond(data, parse, created, artifacts, modelFile) == Response(500, ErrorBody(ServerError(ConversionTypeError)))
  {
  }

  /** A weight that is text but not a number is invalid input, answered with 400. */
  lemma NonNumericWeightIsInvalidInput(data: Json.Body, parse: string -> Option<real>, created: bool,
                                       artifacts: Option<Training.Artifacts>, modelFile: Option<Training.Artifacts>)
    requires "weight_kg" in data && data["weight_kg"].Str? && parse(data["weight_kg"].s).None?
    ensures Respond(data, parse, created, artifacts, modelFile) == Response(400, ErrorBody(InvalidInput(data["weight_kg"].s)))
  {
  }

  /** A distance of exactly 0 counts as missing: it fails the presence check before the range check. */
  lemma ZeroDistanceIsMissing(data: Json.Body, parse: string -> Option<real>)
    requires FloatField(data, "weight_kg", parse).Success?
    requires FloatField(data, "transport_distance_km", parse) == Success(0.0)
    ensures ParseRequest(data, parse) == Failure(MissingRequiredFields)
  {
  }

  /**
   * Once both numbers convert, a falsy material or mode (None, "", ...) or a zero weight
   * or distance is answered with 400 "Missing required fields".
   */
  lemma FalsyFieldIsMissing(data: Json.Body, parse: string -> Option<real>, created: bool,
                            artifacts: Option<Training.Artifacts>, modelFile: Option<Training.Artifacts>)
    requires FloatField(data, "weight_kg", parse).Success?
    requires FloatField(data, "transport_distance_km", parse).Success?
    requires !Json.Truthy(Json.GetOr(data, "material", Json.Null)) || !Json.Truthy(Json.GetOr(data, "transport_mode", Json.Null))
             || FloatField(data, "weight_kg", parse).value == 0.0
             || FloatField(data, "transport_distance_km", parse).value == 0.0
    ensures Respond(data, parse, created, artifacts, modelFile) == Response(400, ErrorBody(MissingRequiredFields))
  {
  }

  /** With every field present and non-zero, the weight is rejected exactly when it is negative or above 1000 kg. */
  lemma WeightRangeCheck(data: Json.Body, parse: string -> Option<real>)
    requires FloatField(data, "weight_kg", parse).Success? && FloatField(data, "weight_kg", parse).value != 0.0
    requires FloatField(data, "transport_distance_km", parse).Success?
    requires FloatField(data, "transport_distance_km", parse).value != 0.0
    requires Json.Truthy(Json.GetOr(data, "material", Json.Null)) && Json.Truthy(Json.GetOr(data, "transport_mode", Json.Null))
    ensures var w := FloatField(data, "weight_kg", parse).value;
            ParseRequest(data, parse) == Failure(WeightOutOfRange) <==> w < 0.0 || w > 1000.0
  {
  }

  /** With every field present and the weight in range, the distance is rejected exactly when it is negative or above 50000 km. */
  lemma DistanceRangeCheck(data: Json.Body, parse: string -> Option<real>)
    requires FloatField(data, "weight_kg", parse).Success?
    requires 0.0 < FloatField(data, "weight_kg", parse).value <= 1000.0
    requires FloatField(data, "transport_distance_km", parse).Success?
    requires FloatField(data, "transport_distance_km", parse).value != 0.0
    requires Json.Truthy(Json.GetOr(data, "material", Json.Null)) && Json.Truthy(Json.GetOr(data, "transport_mode", Json.Null))
    ensures var d := FloatField(data, "transport_distance_km", parse).value;
            ParseRequest(data, parse) == Failure(DistanceOutOfRange) <==> d < 0.0 || d > 50000.0
  {
  }

  /** Leaving out `manufacturing_intensity` is the same as sending "MEDIUM". */
  lemma AbsentIntensityIsMedium(data: Json.Body, parse: string -> Option<real>, created: bool,
                                artifacts: Option<Training.Artifacts>, modelFile: Option<Training.Artifacts>)
    requires "manufacturing_intensity" !in data
    ensures Respond(data, parse, created, artifacts, modelFile)
            == Respond(data["manufacturing_intensity" := Json.Str("MEDIUM")], parse, created, artifacts, modelFile)
  {
    var data2 := data["manufacturing_intensity" := Json.Str("MEDIUM")];
    assert forall k :: k != "manufacturing_intensity" ==> Json.GetOr(data2, k, Json.Null) == Json.GetOr(data, k, Json.Null);
    assert FloatField(data2, "weight_kg", parse) == FloatField(data, "weight_kg", parse);
    assert FloatField(data2, "transport_distance_km", parse) == FloatField(data, "transport_distance_km", parse);
    assert Json.GetOr(data2, "product_name", Json.Str("Unknown Product")) == Json.GetOr(data, "product_name", Json.Str("Unknown Product"));
    assert ParseRequest(data2, parse) == ParseRequest(data, parse);
  }

  /**
   * A service failure is answered with 400 and the service's own error, both on the request
   * that first loads the model file and on later ones.
   */
  lemma ServiceFailureIs400(data: Json.Body, parse: string -> Option<real>, created: bool,
                            artifacts: Option<Training.Artifacts>, modelFile: Option<Training.Artifacts>, a: Training.Artifacts)
    requires Acceptable(data, parse)
    requires (if created then artifacts else modelFile) == Some(a)
    requires var req := ParseRequest(data, parse).value;
             Services.PredictWith(Some(a), req.material, req.weightKg, req.transportMode, req.distanceKm, req.intensity).Failed?
    ensures var req := ParseRequest(data, parse).value;
            var o := Services.PredictWith(Some(a), req.material, req.weightKg, req.transportMode, req.distanceKm, req.intensity);
            Respond(data, parse, created, artifacts, modelFile) == Response(400, PredictionFailed(o.error))
  {
  }

  /** Once the first load has failed, every acceptable request is a server error, even with a model file now present. */
  lemma CachedFailedLoadIsServerError(data: Json.Body, parse: string -> Option<real>, modelFile: Option<Training.Artifacts>)
    requires Acceptable(data, parse)
    ensures Respond(data, parse, true, None, modelFile) == Response(500, ErrorBody(ServerError(ModelNotLoaded)))
  {
  }

  /**
   * An acceptable request naming categories the encoders know is answered with 200 and the
   * service's prediction, both on the request that first loads the model file and on later ones.
   */
  lemma KnownCategoriesSucceed(data: Json.Body, parse: string -> Option<real>, created: bool,
                               artifacts: Option<Training.Artifacts>, modelFile: Option<Training.Artifacts>,
                               a: Training.Artifacts, material: string, mode: string, intensity: string)
    requires Acceptable(data, parse)
    requires (if created then artifacts else modelFile) == Some(a)
    requires Json.GetOr(data, "material", Json.Null) == Json.Str(material) && material in a.materialEncoder.classes
    requires Json.GetOr(data, "transport_mode", Json.Null) == Json.Str(mode) && mode in a.transportEncoder.classes
    requires Json.GetOr(data, "manufacturing_intensity", Json.Str("MEDIUM")) == Json.Str(intensity)
    requires intensity in a.intensityEncoder.classes
    ensures var req := ParseRequest(data, parse).value;
            var o := Services.PredictWith(Some(a), req.material, req.weightKg, req.transportMode, req.distanceKm, req.intensity);
            o.Predicted? && Respond(data, parse, created, artifacts, modelFile) == Response(200, PredictionBody(o.result))
  {
    var req := ParseRequest(data, parse).value;
    Services.ValidatedKnownRequestSucceeds(a, material, req.weightKg, mode, req.distanceKm, intensity);
  }
}
