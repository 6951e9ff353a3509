/** The prediction service: how `/predict` and `/predict_batch` label a churn probability,
    the guard both endpoints share, and the three globals `load_model_and_preprocessor`
    sets. The classifier is foreign: `joblib.load` is given as its outcome and
    `predict_proba` as a function of the loaded model and the preprocessed frame. The
    preprocessor is the `PredictionPreprocessor` of the serving module, created by
    `create_simple_preprocessor`. */
module Api {
  import opened Wrappers
  import opened Frames
  import opened Scaling
  import opened TrainingPreprocessor
  import opened ServingPreprocessor

  /** `churn_prediction`: `"Yes"` or `"No"`. */
  datatype Label = Yes | No

  /** `confidence`: `"High"`, `"Medium"` or `"Low"`. */
  datatype Confidence = High | Medium | Low

  /** `PredictionResponse` */
  datatype Response = Response(churnProbability: real, churnPrediction: Label, confidence: Confidence)

  /** One element of `predictions` in the batch reply. */
  datatype BatchEntry = BatchEntry(customerIndex: nat, churnProbability: real, churnPrediction: Label, confidence: Confidence)

  /** A reply: the body, or the `HTTPException` raised with its status code and detail. */
  datatype Reply<T> = Success(value: T) | HttpError(status: nat, detail: string)

  /** The object `joblib.load` returned for a file. */
  datatype LoadedModel = LoadedModel(file: string)

  /** `model.predict_proba`: one row of class probabilities per input row, or an error. */
  type PredictProba = (LoadedModel, Frame) -> Result<seq<seq<real>>>

  /** `CustomerData`, the request schema, fields in declaration order. */
  datatype CustomerData = CustomerData(
    tenure: real, monthlyCharges: real, totalCharges: real,
    contractType: string, paymentMethod: string, paperlessBilling: string, internetService: string,
    onlineSecurity: string, onlineBackup: string, deviceProtection: string, techSupport: string,
    streamingTv: string, streamingMovies: string)

  const NotLoaded: string := "Model or preprocessor not loaded. Check /health endpoint for status."
  const PredictionFailed: string := "Prediction failed: "
  const BatchPredictionFailed: string := "Batch prediction failed: "
  const NoFirstRow: string := "index 0 is out of bounds for axis 0 with size 0"

  const CustomerFields: seq<string> := [
    "tenure", "monthly_charges", "total_charges", "contract_type", "payment_method",
    "paperless_billing", "internet_service", "online_security", "online_backup",
    "device_protection", "tech_support", "streaming_tv", "streaming_movies"]

  /** The prediction rule: churn is predicted strictly above one half. */
  function ChurnPrediction(p: real): Label {
    if p > 0.5 then Yes else No
  }

  /** The confidence rule, with its thresholds in the source's order. */
  function ConfidenceOf(p: real): Confidence {
    if p > 0.7 || p < 0.3 then High
    else if p > 0.6 || p < 0.4 then Medium
    else Low
  }

  /** The labels of one probability, as both endpoints compute them. */
  function Labelled(p: real): Response {
    Response(p, ChurnPrediction(p), ConfidenceOf(p))
  }

  /** Entry `i` of the batch reply for probability `p`: the labels of `Labelled`. */
  function Entry(i: nat, p: real): BatchEntry {
    var r := Labelled(p);
    BatchEntry(i, r.churnProbability, r.churnPrediction, r.confidence)
  }

  /** `proba[1]` on one row of `predict_proba`: numpy's `IndexError` when the row is short. */
  function ChurnProbability(row: seq<real>): (r: Result<real>)
    ensures r.Ok? <==> |row| >= 2
    ensures r.Ok? ==> r.value == row[1]
  {
    if |row| >= 2 then Ok(row[1])
    else Err("index 1 is out of bounds for axis 0 with size " + (if |row| == 0 then "0" else "1"))
  }

  /** `"Yes"` exactly above one half, so 0.5 itself is `"No"`; a higher probability never
      turns a `"Yes"` into a `"No"`. */
  lemma PredictionThreshold(p: real, q: real)
    ensures ChurnPrediction(p) == Yes <==> p > 0.5
    ensures ChurnPrediction(0.5) == No
    ensures p <= q && ChurnPrediction(p) == Yes ==> ChurnPrediction(q) == Yes
  {
  }

  /** The distance of `p` from one half. */
  function Margin(p: real): (d: real)
    ensures d >= 0.0
    ensures d == p - 0.5 || d == 0.5 - p
  {
    if p >= 0.5 then p - 0.5 else 0.5 - p
  }

  /** The confidence depends only on the margin from one half: above 0.2 it is High, above
      0.1 up to 0.2 Medium, and Low within 0.1, that is for 0.4 <= p <= 0.6. */
  lemma ConfidenceBands(p: real)
    ensures ConfidenceOf(p) == High <==> Margin(p) > 0.2
    ensures ConfidenceOf(p) == Medium <==> 0.1 < Margin(p) <= 0.2
    ensures ConfidenceOf(p) == Low <==> Margin(p) <= 0.1
    ensures ConfidenceOf(p) == Low <==> 0.4 <= p <= 0.6
  {
  }

  /** A probability and its complement get the same confidence and, away from one half,
      opposite predictions. */
  lemma LabelsSymmetric(p: real)
    ensures ConfidenceOf(1.0 - p) == ConfidenceOf(p)
    ensures p != 0.5 ==> ChurnPrediction(1.0 - p) != ChurnPrediction(p)
  {
    ConfidenceBands(p);
    ConfidenceBands(1.0 - p);
  }

  /** The prediction and its confidence together: a `"No"` is High below 0.3, Medium from
      0.3 below 0.4, Low from 0.4 to 0.5; a `"Yes"` is Low up to 0.6, Medium up to 0.7 and
      High above. */
  lemma PredictionWithConfidence(p: real)
    ensures Labelled(p) == Response(p,
      if p > 0.5 then Yes else No,
      if p < 0.3 || p > 0.7 then High else if p < 0.4 || p > 0.6 then Medium else Low)
    ensures ChurnPrediction(p) == Yes && ConfidenceOf(p) == Low <==> 0.5 < p <= 0.6
    ensures ChurnPrediction(p) == No && ConfidenceOf(p) == Low <==> 0.4 <= p <= 0.5
  {
  }

  /** A numeric column of the request frame. */
  function NumberColumn(name: string, cs: seq<CustomerData>, field: CustomerData -> real): (c: Column)
    ensures c.name == name && c.kind == Numeric && |c.cells| == |cs|
  {
    Column(name, Numeric, seq(|cs|, i requires 0 <= i < |cs| => Num(field(cs[i]))))
  }

  /** A string column of the request frame. */
  function TextColumn(name: string, cs: seq<CustomerData>, field: CustomerData -> string): (c: Column)
    ensures c.name == name && c.kind == Categorical && |c.cells| == |cs|
  {
    Column(name, Categorical, seq(|cs|, i requires 0 <= i < |cs| => Str(field(cs[i]))))
  }

  /** `pd.DataFrame([c.dict() for c in cs])`: one row per customer, one column per field in
      declaration order; no customers give a frame without rows and without columns. */
  function CustomerFrame(cs: seq<CustomerData>): (f: Frame)
    ensures f.rows == |cs|
    ensures |cs| > 0 ==> Names(f.columns) == CustomerFields
    ensures |cs| == 0 ==> f.columns == []
  {
    if |cs| == 0 then Frame(0, [])
    else Frame(|cs|, [
      NumberColumn("tenure", cs, (c: CustomerData) => c.tenure),
      NumberColumn("monthly_charges", cs, (c: CustomerData) => c.monthlyCharges),
      NumberColumn("total_charges", cs, (c: CustomerData) => c.totalCharges),
      TextColumn("contract_type", cs, (c: CustomerData) => c.contractType),
      TextColumn("payment_method", cs, (c: CustomerData) => c.paymentMethod),
      TextColumn("paperless_billing", cs, (c: CustomerData) => c.paperlessBilling),
      TextColumn("internet_service", cs, (c: CustomerData) => c.internetService),
      TextColumn("online_security", cs, (c: CustomerData) => c.onlineSecurity),
      TextColumn("online_backup", cs, (c: CustomerData) => c.onlineBackup),
      TextColumn("device_protection", cs, (c: CustomerData) => c.deviceProtection),
      TextColumn("tech_support", cs, (c: CustomerData) => c.techSupport),
      TextColumn("streaming_tv", cs, (c: CustomerData) => c.streamingTv),
      TextColumn("streaming_movies", cs, (c: CustomerData) => c.streamingMovies)])
  }

  /** The batch loop over `predict_proba`'s rows: entry `i` carries index `i` and the labels
      of that row's churn probability; the first short row aborts the batch. */
  function BatchLabels(rows: seq<seq<real>>): (r: Result<seq<BatchEntry>>)
    ensures r.Ok? <==> forall k :: 0 <= k < |rows| ==> |rows[k]| >= 2
    ensures r.Ok? ==> |r.value| == |rows| && forall k :: 0 <= k < |rows| ==> r.value[k] == Entry(k, rows[k][1])
    decreases |rows|
  {
    if |rows| == 0 then Ok([])
    else
      var init := rows[..|rows| - 1];
      assert forall k :: 0 <= k < |init| ==> init[k] == rows[k];
      match BatchLabels(init)
      case Err(e) => Err(e)
      case Ok(es) =>
        match ChurnProbability(rows[|rows| - 1])
        case Err(e) => Err(e)
        case Ok(p) => Ok(es + [Entry(|rows| - 1, p)])
  }

  /** `predict_churn` past the guard, from the outcome of preprocessing the one-row frame:
      take the first row of `predict_proba` and its churn probability; any exception
      becomes a 500. */
  function SingleReply(prep: Result<Frame>, m: LoadedModel, predictProba: PredictProba): Reply<Response> {
    match prep
    case Err(e) => HttpError(500, PredictionFailed + e)
    case Ok(x) =>
      match predictProba(m, x)
      case Err(e) => HttpError(500, PredictionFailed + e)
      case Ok(rows) =>
        if |rows| == 0 then HttpError(500, PredictionFailed + NoFirstRow)
        else
          match ChurnProbability(rows[0])
          case Err(e) => HttpError(500, PredictionFailed + e)
          case Ok(p) => Success(Labelled(p))
  }

  function SingleOutcome(s: PreprocessorState, m: LoadedModel, c: CustomerData, predictProba: PredictProba): Reply<Response> {
    SingleReply(ServingPreprocess(s, CustomerFrame([c])), m, predictProba)
  }

  /** `predict_batch` past the guard, from the outcome of preprocessing the batch frame. */
  function BatchReply(prep: Result<Frame>, m: LoadedModel, predictProba: PredictProba): Reply<seq<BatchEntry>> {
    match prep
    case Err(e) => HttpError(500, BatchPredictionFailed + e)
    case Ok(x) =>
      match predictProba(m, x)
      case Err(e) => HttpError(500, BatchPredictionFailed + e)
      case Ok(rows) =>
        match BatchLabels(rows)
        case Err(e) => HttpError(500, BatchPredictionFailed + e)
        case Ok(es) => Success(es)
  }

  function BatchOutcome(s: PreprocessorState, m: LoadedModel, cs: seq<CustomerData>, predictProba: PredictProba): Reply<seq<BatchEntry>> {
    BatchReply(ServingPreprocess(s, CustomerFrame(cs)), m, predictProba)
  }

  /** The frame of the start-up smoke test. */
  const SmokeCustomer: CustomerData := CustomerData(12.0, 50.0, 600.0,
    "Month-to-month", "Electronic check", "Yes", "DSL", "No", "No", "No", "No", "No", "No")

  /** The start-up smoke test passes with preprocessor state `s`: the test frame is
      preprocessed and `predict_proba` gives a first row with a churn probability. */
  predicate SmokePasses(predictProba: PredictProba, m: LoadedModel, s: PreprocessorState) {
    match ServingPreprocess(s, CustomerFrame([SmokeCustomer]))
    case Err(_) => false
    case Ok(x) =>
      match predictProba(m, x)
      case Err(_) => false
      case Ok(rows) => |rows| > 0 && |rows[0]| >= 2
  }

  /** The smoke test at the end of `load_model_and_preprocessor`: preprocess the test frame
      and ask the model for its probabilities; any failure, or no churn probability in the
      first row, means the test fails. */
  method SmokeTest(p: PredictionPreprocessor, m: LoadedModel, predictProba: PredictProba) returns (ok: bool)
    ensures ok == SmokePasses(predictProba, m, p.State())
  {
    var processed := p.Preprocess(CustomerFrame([SmokeCustomer]));
    if processed.Err? {
      return false;
    }
    var proba := predictProba(m, processed.value);
    ok := proba.Ok? && |proba.value| > 0 && |proba.value[0]| >= 2;
  }

  /** The globals of the service: `model`, `preprocessor` and `model_loaded`. */
  class ChurnService {
    var model: Option<LoadedModel>
    var preprocessor: PredictionPreprocessor?
    var modelLoaded: bool

    /** The guard of both predict endpoints passes. */
    predicate Ready()
      reads this
    {
      modelLoaded && model.Some? && preprocessor != null
    }

    /** At import time: no model, no preprocessor, not loaded. */
    constructor ()
      ensures model == None && preprocessor == null && !modelLoaded && !Ready()
    {
      model := None;
      preprocessor := null;
      modelLoaded := false;
    }

    /** `load_model_and_preprocessor()`. Whether the model file exists and what
        `joblib.load` returns are parameters, so is a failure of `create_simple_preprocessor`
        outside the model (its import); the scaler's statistics are `moments`. A
        global is assigned only when its step succeeds, so a failed reload keeps the old
        model or preprocessor; `model_loaded` is set only when every step, the smoke test
        included, succeeds. */
    method LoadModelAndPreprocessor(fileExists: bool, load: Result<LoadedModel>, createError: Option<string>,
                                    moments: MomentsOf, predictProba: PredictProba)
      modifies this
      ensures modelLoaded <==> (fileExists && load.Ok? && createError.None? && preprocessor != null &&
                                SmokePasses(predictProba, load.value, preprocessor.State()))
      ensures Ready() <==> modelLoaded
      ensures !(fileExists && load.Ok?) ==> model == old(model) && preprocessor == old(preprocessor)
      ensures fileExists && load.Ok? ==> model == Some(load.value)
      ensures fileExists && load.Ok? && createError.Some? ==> preprocessor == old(preprocessor)
      ensures fileExists && load.Ok? && createError.None? ==>
        preprocessor != null && fresh(preprocessor) && preprocessor.State() == SimpleState(moments)
    {
      if !fileExists {
        modelLoaded := false;
        return;
      }
      if load.Err? {
        modelLoaded := false;
        return;
      }
      model := Some(load.value);
      if createError.Some? {
        modelLoaded := false;
        return;
      }
      var p := CreateSimplePreprocessor(moments);
      preprocessor := p;
      modelLoaded := SmokeTest(p, load.value, predictProba);
    }

    /** `predict_churn(customer_data)`: 503 unless the service is ready, otherwise the
        outcome of preprocessing and prediction. */
    method PredictChurn(c: CustomerData, predictProba: PredictProba) returns (r: Reply<Response>)
      ensures !Ready() ==> r == HttpError(503, NotLoaded)
      ensures Ready() ==> r == SingleOutcome(preprocessor.State(), model.value, c, predictProba)
    {
      if !modelLoaded || model.None? || preprocessor == null {
        return HttpError(503, NotLoaded);
      }
      var processed := preprocessor.Preprocess(CustomerFrame([c]));
      if processed.Err? {
        return HttpError(500, PredictionFailed + processed.error);
      }
      var proba := predictProba(model.value, processed.value);
      if proba.Err? {
        return HttpError(500, PredictionFailed + proba.error);
      }
      if |proba.value| == 0 {
        return HttpError(500, PredictionFailed + NoFirstRow);
      }
      var p := ChurnProbability(proba.value[0]);
      if p.Err? {
        return HttpError(500, PredictionFailed + p.error);
      }
      r := Success(Labelled(p.value));
    }

    /** `predict_batch(customers)`: 503 unless the service is ready, otherwise the outcome
        of preprocessing, prediction and the labelling loop. */
    method PredictBatch(cs: seq<CustomerData>, predictProba: PredictProba) returns (r: Reply<seq<BatchEntry>>)
      ensures !Ready() ==> r == HttpError(503, NotLoaded)
      ensures Ready() ==> r == BatchOutcome(preprocessor.State(), model.value, cs, predictProba)
    {
      if !modelLoaded || model.None? || preprocessor == null {
        return HttpError(503, NotLoaded);
      }
      var processed := preprocessor.Preprocess(CustomerFrame(cs));
      if processed.Err? {
        return HttpError(500, BatchPredictionFailed + processed.error);
      }
      var proba := predictProba(model.value, processed.value);
      if proba.Err? {
        return HttpError(500, BatchPredictionFailed + proba.error);
      }
      var results := LabelBatch(proba.value);
      if results.Err? {
        return HttpError(500, BatchPredictionFailed + results.error);
      }
      r := Success(results.value);
    }
  }

  /** The loop of `predict_batch` that appends one entry per row of `predict_proba`. */
  method LabelBatch(rows: seq<seq<real>>) returns (r: Result<seq<BatchEntry>>)
    ensures r == BatchLabels(rows)
  {
    var results: seq<BatchEntry> := [];
    var i := 0;
    while i < |rows|
      invariant 0 <= i <= |rows|
      invariant BatchLabels(rows[..i]) == Ok(results)
    {
      assert rows[..i + 1][..i] == rows[..i];
      var p := ChurnProbability(rows[i]);
      if p.Err? {
        BatchLabelsFailureIsFinal(rows, i + 1);
        return Err(p.error);
      }
      results := results + [Entry(i, p.value)];
      i := i + 1;
    }
    assert rows[..i] == rows;
    r := Ok(results);
  }

  /** Once a prefix of the rows fails, the whole batch fails with the same error. */
  lemma {:induction false} BatchLabelsFailureIsFinal(rows: seq<seq<real>>, k: nat)
    requires k <= |rows| && BatchLabels(rows[..k]).Err?
    ensures BatchLabels(rows) == BatchLabels(rows[..k])
    decreases |rows| - k
  {
    if k < |rows| {
      var init := rows[..|rows| - 1];
      assert init[..k] == rows[..k];
      BatchLabelsFailureIsFinal(init, k);
    } else {
      assert rows[..k] == rows;
    }
  }

  /** With the preprocessor `create_simple_preprocessor` returns, the smoke test depends on
      the model alone: it passes exactly when `predict_proba` gives a first row with a
      churn probability. */
  lemma SmokeFailsOnlyInModel(predictProba: PredictProba, m: LoadedModel, moments: MomentsOf)
    ensures var prep := ServingPreprocess(SimpleState(moments), CustomerFrame([SmokeCustomer]));
      && prep.Ok?
      && (SmokePasses(predictProba, m, SimpleState(moments)) <==>
            var out := predictProba(m, prep.value);
            out.Ok? && |out.value| > 0 && |out.value[0]| >= 2)
  {
    SimpleNeverFails(SimpleScaler(moments), CustomerFrame([SmokeCustomer]));
  }

  /** Past preprocessing, a batch succeeds exactly when `predict_proba` returns rows that
      all hold a churn probability; then entry `k` is row `k` labelled. */
  lemma BatchReplyEntries(x: Frame, m: LoadedModel, predictProba: PredictProba)
    ensures var out := predictProba(m, x);
      var reply := BatchReply(Ok(x), m, predictProba);
      && (reply.Success? <==> out.Ok? && forall k :: 0 <= k < |out.value| ==> |out.value[k]| >= 2)
      && (reply.Success? ==>
            && |reply.value| == |out.value|
            && forall k :: 0 <= k < |out.value| ==> reply.value[k] == Entry(k, out.value[k][1]))
      && (reply.HttpError? ==> reply.status == 500)
  {
  }

  /** With the preprocessor `create_simple_preprocessor` returns, a batch fails only in the
      model: preprocessing never fails and keeps one row per input row (one per customer
      for `CustomerFrame`), and the reply is a success exactly when `predict_proba` returns
      rows that all hold a churn probability; then entry `k` has index `k` and the labels
      `/predict` gives row `k`'s probability. */
  lemma SimpleBatchReply(moments: MomentsOf, m: LoadedModel, data: Frame, predictProba: PredictProba)
    ensures var prep := ServingPreprocess(SimpleState(moments), data);
      && prep.Ok? && prep.value.rows == data.rows
      && var out := predictProba(m, prep.value);
         var reply := BatchReply(prep, m, predictProba);
         && (reply.Success? <==> out.Ok? && forall k :: 0 <= k < |out.value| ==> |out.value[k]| >= 2)
         && (reply.Success? ==>
               && |reply.value| == |out.value|
               && forall k :: 0 <= k < |out.value| ==> reply.value[k] == Entry(k, out.value[k][1]))
         && (reply.HttpError? ==> reply.status == 500)
  {
    SimpleNeverFails(SimpleScaler(moments), data);
    BatchReplyEntries(ServingPreprocess(SimpleState(moments), data).value, m, predictProba);
  }

  /** One row from the model: the single and the batch reply agree, both succeed or both
      fail, and the batch's only entry carries the single reply's labels. */
  lemma OneRowAgrees(prep: Result<Frame>, m: LoadedModel, predictProba: PredictProba)
    requires prep.Ok? && predictProba(m, prep.value).Ok? ==> |predictProba(m, prep.value).value| == 1
    ensures var single := SingleReply(prep, m, predictProba);
      var batch := BatchReply(prep, m, predictProba);
      && (single.Success? <==> batch.Success?)
      && (single.Success? ==> batch.value == [BatchEntry(0, single.value.churnProbability,
                                                          single.value.churnPrediction, single.value.confidence)])
  {
    if prep.Ok? && predictProba(m, prep.value).Ok? {
      var rows := predictProba(m, prep.value).value;
      if |rows[0]| >= 2 {
        assert BatchLabels(rows).value == [Entry(0, rows[0][1])];
      }
    }
  }

  /** A batch of one customer and `/predict` on that customer agree when the model returns
      one row for the one-row frame. */
  lemma BatchOfOneMatchesSingle(s: PreprocessorState, m: LoadedModel, c: CustomerData, predictProba: PredictProba)
    requires var prep := ServingPreprocess(s, CustomerFrame([c]));
      prep.Ok? && predictProba(m, prep.value).Ok? ==> |predictProba(m, prep.value).value| == 1
    ensures var single := SingleOutcome(s, m, c, predictProba);
      var batch := BatchOutcome(s, m, [c], predictProba);
      && (single.Success? <==> batch.Success?)
      && (single.Success? ==> batch.value == [BatchEntry(0, single.value.churnProbability,
                                                          single.value.churnPrediction, single.value.confidence)])
  {
    OneRowAgrees(ServingPreprocess(s, CustomerFrame([c])), m, predictProba);
  }
}
