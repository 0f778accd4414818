/**
 * The `/predict` handler of both service variants: extension gate, decoding and
 * preprocessing, batching, classification, reading back the scores, building
 * the response, and mapping every failure onto an HTTP status.
 */
module Inference {
  import opened Wrappers
  import opened Http
  import opened FileNames
  import opened Imaging
  import opened Scores
  import opened Catalog

  /**
   * What distinguishes the two service files: the label catalog, and the
   * remedy table that only api/main.py has (it alone answers with a solution).
   */
  datatype Variant = Variant(classNames: seq<string>, solutions: Option<map<string, string>>)

  /** api/main.py. */
  const MainApp: Variant := Variant(MainClassNames, Some(MainSolutions))

  /** api/main_1.py. */
  const Main1App: Variant := Variant(Main1ClassNames, None)

  /** FastAPI's UploadFile: the declared file name (possibly absent) and the bytes `read()` returns. */
  datatype UploadFile = UploadFile(filename: Option<string>, contents: seq<byte>)

  /** `MODEL.predict`: fails with the exception's text, or yields the flattened score array. */
  type Classifier = Batch -> Result<seq<real>, string>

  const UnsupportedType: string := "Unsupported file type. Please upload a PNG or JPG image."

  /** Python's message for calling `.lower()` on a missing file name. */
  const NoFilenameMessage: string := "'NoneType' object has no attribute 'lower'"

  /** NumPy's message for `argmax` of an empty array. */
  const EmptyArgMaxMessage: string := "attempt to get argmax of an empty sequence"

  /** Python's message for a list index past the end. */
  const IndexErrorMessage: string := "list index out of range"

  /** The extra header of every successful response. */
  const NoStore: seq<(string, string)> := [("Cache-Control", "no-store")]

  /**
   * The successful JSONResponse: the class and its confidence, then the remedy
   * when the variant has a remedy table.
   */
  function SuccessResponse(app: Variant, className: string, confidence: real): (r: JSONResponse)
    ensures Keys(r.content) == if app.solutions.Some? then ["class", "confidence", "solution"]
                               else ["class", "confidence"]
    ensures r.content[0].1 == JString(className) && r.content[1].1 == JNumber(confidence)
    ensures app.solutions.Some? ==> r.content[2].1 == JString(SolutionFor(app.solutions.value, className))
    ensures r.headers == NoStore
  {
    var fields := [("class", JString(className)), ("confidence", JNumber(confidence))];
    match app.solutions
    case Some(table) => JSONResponse(fields + [("solution", JString(SolutionFor(table, className)))], NoStore)
    case None => JSONResponse(fields, NoStore)
  }

  /**
   * The `try` block of `predict`: the response it returns or the exception it
   * raises. The only HTTPExceptions raised in it are the gate's 415 and the
   * decoder's 400.
   */
  function Attempt(app: Variant, file: UploadFile, decode: Decoder, model: Classifier): (r: Result<JSONResponse, Exception>)
    ensures r.Failure? && r.error.HTTPException? ==> r.error.statusCode == 415 || r.error.statusCode == 400
  {
    match file.filename
    case None => Failure(Error(NoFilenameMessage))
    case Some(name) =>
      if !ExtensionAllowed(name) then Failure(HTTPException(415, UnsupportedType))
      else
        match ReadFileAsImage(file.contents, decode)
        case Failure(e) => Failure(e)
        case Success(image) =>
          match model(ExpandDims(image))
          case Failure(cause) => Failure(Error(cause))
          case Success(predictions) =>
            if |predictions| == 0 then Failure(Error(EmptyArgMaxMessage))
            else
              var index := ArgMax(predictions);
              if index >= |app.classNames| then Failure(Error(IndexErrorMessage))
              else Success(SuccessResponse(app, app.classNames[index], Max(predictions)))
  }

  /**
   * The `except` clauses of `predict`: an HTTPException is re-raised as it is,
   * any other exception becomes a 500 whose detail carries its message.
   */
  function HandleException(e: Exception): (r: Outcome)
    ensures r.Failed?
    ensures e.HTTPException? ==> r.statusCode == e.statusCode && r.detail == e.detail
    ensures e.Error? ==> r.statusCode == 500 && r.detail == "Prediction error: " + e.message
  {
    match e
    case HTTPException(status, detail) => Failed(status, detail)
    case Error(message) => Failed(500, "Prediction error: " + message)
  }

  /** `predict`: what the client receives for one upload. */
  function Predict(app: Variant, file: UploadFile, decode: Decoder, model: Classifier): (r: Outcome)
    ensures r.Failed? ==> r.statusCode == 415 || r.statusCode == 400 || r.statusCode == 500
  {
    match Attempt(app, file, decode, model)
    case Success(response) => Responded(response)
    case Failure(e) => HandleException(e)
  }

  /** The scores the classifier gives the preprocessed, batched upload. */
  function ScoresFor(image: Image, model: Classifier): Result<seq<real>, string> {
    model(ExpandDims(Preprocess(image)))
  }

  /** Every stage of the pipeline succeeds for this upload, stated stage by stage. */
  ghost predicate PipelineSucceeds(app: Variant, file: UploadFile, decode: Decoder, model: Classifier) {
    && file.filename.Some? && ExtensionAllowed(file.filename.value)
    && decode(file.contents).Success?
    && var scores := ScoresFor(decode(file.contents).value, model);
    && scores.Success? && |scores.value| > 0
    && ArgMax(scores.value) < |app.classNames|
  }

  /**
   * A name failing the gate gets 415 whatever the bytes, the decoder and the
   * classifier are: nothing is decoded or classified.
   */
  lemma UnsupportedRejectedBeforeDecoding(app: Variant, name: string, contents: seq<byte>, decode: Decoder, model: Classifier)
    requires !ExtensionAllowed(name)
    ensures Predict(app, UploadFile(Some(name), contents), decode, model) == Failed(415, UnsupportedType)
  {
  }

  /** An upload without a file name fails at `.lower()` and gets a 500. */
  lemma MissingFilenameIs500(app: Variant, contents: seq<byte>, decode: Decoder, model: Classifier)
    ensures Predict(app, UploadFile(None, contents), decode, model) == Failed(500, "Prediction error: " + NoFilenameMessage)
  {
  }

  /** A decoder failure behind an accepted name reaches the client as 400 with the decoder's message. */
  lemma InvalidImageIs400(app: Variant, file: UploadFile, decode: Decoder, model: Classifier)
    requires file.filename.Some? && ExtensionAllowed(file.filename.value)
    requires decode(file.contents).Failure?
    ensures Predict(app, file, decode, model) == Failed(400, "Invalid image file: " + decode(file.contents).error)
  {
  }

  /** A classifier failure becomes a 500 carrying the classifier's message. */
  lemma ClassifierFailureIs500(app: Variant, file: UploadFile, decode: Decoder, model: Classifier)
    requires file.filename.Some? && ExtensionAllowed(file.filename.value)
    requires decode(file.contents).Success?
    requires ScoresFor(decode(file.contents).value, model).Failure?
    ensures Predict(app, file, decode, model) ==
            Failed(500, "Prediction error: " + ScoresFor(decode(file.contents).value, model).error)
  {
  }

  /**
   * An argmax past the end of the catalog raises IndexError, which becomes a 500.
   */
  lemma IndexPastCatalogIs500(app: Variant, file: UploadFile, decode: Decoder, model: Classifier)
    requires file.filename.Some? && ExtensionAllowed(file.filename.value)
    requires decode(file.contents).Success?
    requires var scores := ScoresFor(decode(file.contents).value, model);
             scores.Success? && |scores.value| > 0 && ArgMax(scores.value) >= |app.classNames|
    ensures Predict(app, file, decode, model) == Failed(500, "Prediction error: " + IndexErrorMessage)
  {
  }

  /**
   * The client gets a response exactly when every stage succeeds. The class is
   * the catalog entry at the first index of a maximal score, the confidence is
   * that score and no score exceeds it, the body has the variant's keys, and
   * the response is marked `no-store`.
   */
  lemma RespondsIffPipelineSucceeds(app: Variant, file: UploadFile, decode: Decoder, model: Classifier)
    ensures Predict(app, file, decode, model).Responded? <==> PipelineSucceeds(app, file, decode, model)
    ensures PipelineSucceeds(app, file, decode, model) ==>
      var scores := ScoresFor(decode(file.contents).value, model).value;
      var index := ArgMax(scores);
      var response := Predict(app, file, decode, model).response;
      && response == SuccessResponse(app, app.classNames[index], scores[index])
      && (forall j :: 0 <= j < |scores| ==> scores[j] <= scores[index])
      && (forall j :: 0 <= j < index ==> scores[j] < scores[index])
      && response.headers == NoStore
  {
    if PipelineSucceeds(app, file, decode, model) {
      var scores := ScoresFor(decode(file.contents).value, model).value;
      MaxAtArgMax(scores);
    }
  }

  /**
   * The three failure statuses, each tied to the stage that produces it:
   * 415 to the gate, 400 to the decoder, 500 to everything else.
   */
  lemma StatusTaxonomy(app: Variant, file: UploadFile, decode: Decoder, model: Classifier)
    ensures var r := Predict(app, file, decode, model);
      && (r.Failed? && r.statusCode == 415 <==> file.filename.Some? && !ExtensionAllowed(file.filename.value))
      && (r.Failed? && r.statusCode == 400 <==>
            file.filename.Some? && ExtensionAllowed(file.filename.value) && decode(file.contents).Failure?)
      && (r.Failed? && r.statusCode == 500 <==>
            (file.filename.None? ||
             (ExtensionAllowed(file.filename.value) && decode(file.contents).Success? &&
              !PipelineSucceeds(app, file, decode, model))))
  {
    RespondsIffPipelineSucceeds(app, file, decode, model);
  }

  /**
   * The two variants fail on exactly the same uploads and with the same status
   * and detail: they differ only in what a successful response says.
   */
  lemma VariantsFailAlike(file: UploadFile, decode: Decoder, model: Classifier)
    ensures Predict(MainApp, file, decode, model).Failed? <==> Predict(Main1App, file, decode, model).Failed?
    ensures Predict(MainApp, file, decode, model).Failed? ==>
              Predict(MainApp, file, decode, model) == Predict(Main1App, file, decode, model)
  {
    Main1ReordersMain();
  }

  /**
   * api/main_1.py answers with the class and the confidence only; the class is
   * taken from its own catalog order.
   */
  lemma Main1ResponseHasNoSolution(file: UploadFile, decode: Decoder, model: Classifier)
    requires PipelineSucceeds(Main1App, file, decode, model)
    ensures var scores := ScoresFor(decode(file.contents).value, model).value;
      var r := Predict(Main1App, file, decode, model);
      && r.Responded?
      && Keys(r.response.content) == ["class", "confidence"]
      && r.response.content[0].1 == JString(Main1ClassNames[ArgMax(scores)])
      && r.response.content[1].1 == JNumber(Max(scores))
      && r.response.headers == NoStore
  {
    RespondsIffPipelineSucceeds(Main1App, file, decode, model);
  }

  /** The scores of the healthy-fish example: 0.91 at index 4, less elsewhere. */
  const HealthyScores: seq<real> := [0.01, 0.02, 0.01, 0.02, 0.91, 0.02, 0.01]

  /**
   * A well-named upload that decodes and that the classifier scores with
   * `HealthyScores` is answered by api/main.py with "Healthy Fish", 0.91 and
   * the healthy remedy.
   */
  lemma HealthyFishExample(file: UploadFile, decode: Decoder, model: Classifier)
    requires file.filename.Some? && ExtensionAllowed(file.filename.value)
    requires decode(file.contents).Success?
    requires ScoresFor(decode(file.contents).value, model) == Success(HealthyScores)
    ensures Predict(MainApp, file, decode, model) ==
      Responded(JSONResponse([("class", JString("Healthy Fish")), ("confidence", JNumber(0.91)),
                              ("solution", JString("No action needed. Fish is healthy."))], NoStore))
  {
    ArgMaxUnique(HealthyScores, 4);
    MaxAtArgMax(HealthyScores);
  }

  /**
   * The same scores read through api/main_1.py's catalog name index 4
   * "Parasitic diseases", and the response carries no remedy.
   */
  lemma HealthyScoresInMain1(file: UploadFile, decode: Decoder, model: Classifier)
    requires file.filename.Some? && ExtensionAllowed(file.filename.value)
    requires decode(file.contents).Success?
    requires ScoresFor(decode(file.contents).value, model) == Success(HealthyScores)
    ensures Predict(Main1App, file, decode, model) ==
      Responded(JSONResponse([("class", JString("Parasitic diseases")), ("confidence", JNumber(0.91))], NoStore))
  {
    ArgMaxUnique(HealthyScores, 4);
    MaxAtArgMax(HealthyScores);
  }

  /**
   * A tie between the first and the last score goes to the first index: both
   * variants name index 0.
   */
  lemma TieGoesToFirstIndex(file: UploadFile, decode: Decoder, model: Classifier)
    requires file.filename.Some? && ExtensionAllowed(file.filename.value)
    requires decode(file.contents).Success?
    requires ScoresFor(decode(file.contents).value, model) == Success([0.4, 0.1, 0.0, 0.0, 0.0, 0.1, 0.4])
    ensures Predict(MainApp, file, decode, model).Responded?
    ensures Predict(MainApp, file, decode, model).response.content[0].1 == JString("Aeromoniasis (Bacterial disease)")
    ensures Predict(Main1App, file, decode, model).response.content[0].1 == JString("Aeromoniasis (Bacterial disease)")
  {
    ArgMaxUnique([0.4, 0.1, 0.0, 0.0, 0.0, 0.1, 0.4], 0);
  }
}
