/** `StandardDataPreprocessor`, the training-side preprocessor: a fit-once, transform-many
    object. Its first `preprocess` call freezes the column partition, the label encoders
    of the categorical columns, the scaler and the feature order; `transform` replays the
    frozen steps on new data. The state is the class's fields; each step is specified by a
    function of the old state and the input. */
module TrainingPreprocessor {
  import opened Wrappers
  import opened Frames
  import opened LabelEncoding
  import opened Scaling
  import opened Imputation

  const NotFittedYet: string := "Preprocessor must be fitted before transforming new data"
  const NoFeatureOrder: string := "'NoneType' object is not iterable"

  /** The fields of a `StandardDataPreprocessor`; a `PredictionPreprocessor` has the same ones. */
  datatype PreprocessorState = PreprocessorState(
    scaler: Scaler,
    labelEncoders: map<string, LabelEncoder>,
    fitted: bool,
    featureColumns: Option<seq<string>>,
    categoricalColumns: seq<string>,
    numericalColumns: seq<string>)

  /** The state both classes' `__init__` leave. */
  const Initial: PreprocessorState := PreprocessorState(Unfitted, map[], false, None, [], [])

  /** The invariant every reachable state keeps: before the first complete fit the scaler
      is not fitted; afterwards the feature order is known and contains every column the
      scaler was fitted on. */
  ghost predicate Coherent(s: PreprocessorState) {
    && (!s.fitted ==> s.scaler.Unfitted?)
    && (s.fitted ==>
          s.featureColumns.Some? && forall n :: n in ScaledFeatures(s.scaler) ==> n in s.featureColumns.value)
  }

  /** The columns the scaler was fitted on, in fitted order. */
  function ScaledFeatures(sc: Scaler): seq<string> {
    if sc.Fitted? then FeatureNames(sc.features) else []
  }

  /** The first two steps of both `preprocess` and `transform`: drop `customer_id`, impute. */
  function Cleaned(data: Frame): (r: Frame)
    ensures r.rows == data.rows && !HasColumn(r, CustomerId)
  {
    ImputedShape(DropCustomerId(data));
    Imputed(DropCustomerId(data))
  }

  function AsFrame(rows: nat, cols: Result<seq<Column>>): Result<Frame> {
    match cols
    case Err(e) => Err(e)
    case Ok(c) => Ok(Frame(rows, c))
  }

  /** `df[names] = scaled` when the scaler succeeded; its exception otherwise. */
  function Replace(f: Frame, scaled: Result<seq<Column>>): (r: Result<Frame>)
    ensures r.Ok? <==> scaled.Ok?
    ensures r.Ok? ==> r.value.rows == f.rows && Names(r.value.columns) == Names(f.columns)
  {
    match scaled
    case Err(e) => Err(e)
    case Ok(out) => Ok(Frame(f.rows, Assign(f.columns, out)))
  }

  datatype Encoding = Encoding(encoders: map<string, LabelEncoder>, result: Result<seq<Column>>)

  datatype ColumnEncoding = ColumnEncoding(encoders: map<string, LabelEncoder>, coded: Result<Column>)

  /** One iteration of `_encode_categorical_variables`: a column outside the selection is
      left alone; a selected one without an encoder gets one fitted on it and is
      transformed (`fit_transform`); one with an encoder has its unseen values replaced by
      `classes_[0]` and is transformed. */
  function EncodeOne(encoders: map<string, LabelEncoder>, c: Column, target: string): (r: ColumnEncoding)
    ensures forall n :: n in encoders ==> n in r.encoders && r.encoders[n] == encoders[n]
    ensures r.coded.Ok? ==> r.coded.value.name == c.name && |r.coded.value.cells| == |c.cells|
    ensures c.kind != Categorical || c.name == target ==> r == ColumnEncoding(encoders, Ok(c))
    ensures c.kind == Categorical && c.name != target ==>
      c.name in r.encoders && (r.coded.Ok? ==> r.coded == EncodeColumn(r.encoders[c.name], c))
  {
    if c.kind != Categorical || c.name == target then ColumnEncoding(encoders, Ok(c))
    else if c.name in encoders then ColumnEncoding(encoders, EncodeColumn(encoders[c.name], c))
    else
      var encs := encoders[c.name := Fit(StrValues(c.cells))];
      ColumnEncoding(encs, TransformStrict(encs[c.name], c))
  }

  /** `_encode_categorical_variables(df, exclude_columns=[target])` over the columns `cols`,
      in frame order, one `EncodeOne` per column. The first exception aborts, leaving the
      encoders added so far. */
  function EncodeCategorical(encoders: map<string, LabelEncoder>, cols: seq<Column>, target: string): (r: Encoding)
    ensures forall n :: n in encoders ==> n in r.encoders && r.encoders[n] == encoders[n]
    ensures r.result.Ok? ==> Names(r.result.value) == Names(cols)
    decreases |cols|
  {
    if |cols| == 0 then Encoding(encoders, Ok([]))
    else
      var prev := EncodeCategorical(encoders, cols[..|cols| - 1], target);
      var c := cols[|cols| - 1];
      NamesAppend(cols[..|cols| - 1], c);
      assert cols[..|cols| - 1] + [c] == cols;
      if prev.result.Err? then prev
      else
        var one := EncodeOne(prev.encoders, c, target);
        match one.coded
        case Err(e) => Encoding(one.encoders, Err(e))
        case Ok(d) =>
          NamesAppend(prev.result.value, d);
          Encoding(one.encoders, Ok(prev.result.value + [d]))
  }

  datatype TargetEncoding = TargetEncoding(encoders: map<string, LabelEncoder>, result: Result<Frame>)

  /** The target column, when present and of object type, is label-encoded: fitted on the
      first call, and on later calls transformed without substitution, so that a label the
      encoder has not seen raises. */
  function EncodeTarget(encoders: map<string, LabelEncoder>, f: Frame, target: string): (r: TargetEncoding)
    ensures forall n :: n in encoders ==> n in r.encoders && r.encoders[n] == encoders[n]
    ensures r.result.Ok? ==> r.result.value.rows == f.rows && Names(r.result.value.columns) == Names(f.columns)
  {
    if HasColumn(f, target) && Lookup(f.columns, target).kind == Categorical then
      var k := IndexOf(f.columns, target);
      var c := f.columns[k];
      var encs := if target in encoders then encoders else encoders[target := Fit(StrValues(c.cells))];
      match TransformStrict(encs[target], c)
      case Err(e) => TargetEncoding(encs, Err(e))
      case Ok(d) =>
        assert Names(f.columns[k := d]) == Names(f.columns);
        TargetEncoding(encs, Ok(Frame(f.rows, f.columns[k := d])))
    else TargetEncoding(encoders, Ok(f))
  }

  datatype ScaleOutcome = ScaleOutcome(scaler: Scaler, result: Result<Frame>)

  /** `_scale_numerical_variables(df, exclude_columns=[target])`: the numeric columns other
      than the target are fitted and transformed while `fitted` is false (a failed fit
      leaves the scaler reset), and only transformed afterwards; nothing happens when there
      are none. */
  function ScaleNumerical(sc: Scaler, fitted: bool, f: Frame, target: string, moments: MomentsOf): (r: ScaleOutcome)
    ensures fitted ==> r.scaler == sc
    ensures r.result.Ok? ==> r.result.value.rows == f.rows && Names(r.result.value.columns) == Names(f.columns)
  {
    var names := NamesOfKind(f.columns, Numeric, target);
    NamesOfKindPresent(f.columns, Numeric, target);
    if |names| == 0 then ScaleOutcome(sc, Ok(f))
    else
      var selected := Select(f.columns, names);
      if !fitted then
        match FitScaler(selected, f.rows, moments)
        case Err(e) => ScaleOutcome(Unfitted, Err(e))
        case Ok(fit) => ScaleOutcome(fit, Replace(f, TransformColumns(fit, selected, f.rows)))
      else ScaleOutcome(sc, Replace(f, TransformColumns(sc, selected, f.rows)))
  }

  datatype Outcome = Outcome(state: PreprocessorState, result: Result<Frame>)

  /** `preprocess(data, target_column)`: the new state and the returned frame (or the
      exception). A failing step leaves the state changes of the earlier steps. */
  function PreprocessOutcome(s: PreprocessorState, data: Frame, target: string, moments: MomentsOf): Outcome {
    var df := Cleaned(data);
    EncodeStage(Partitioned(s, df, target), df, target, moments)
  }

  /** Before the first fit, the column partition is taken from the cleaned frame. */
  function Partitioned(s: PreprocessorState, df: Frame, target: string): PreprocessorState {
    if s.fitted then s
    else s.(categoricalColumns := NamesOfKind(df.columns, Categorical, target),
            numericalColumns := NamesOfKind(df.columns, Numeric, target))
  }

  function EncodeStage(s: PreprocessorState, df: Frame, target: string, moments: MomentsOf): Outcome {
    var enc := EncodeCategorical(s.labelEncoders, df.columns, target);
    var s2 := s.(labelEncoders := enc.encoders);
    if enc.result.Err? then Outcome(s2, Err(enc.result.error))
    else TargetStage(s2, Frame(df.rows, enc.result.value), target, moments)
  }

  function TargetStage(s: PreprocessorState, f: Frame, target: string, moments: MomentsOf): Outcome {
    var t := EncodeTarget(s.labelEncoders, f, target);
    var s3 := s.(labelEncoders := t.encoders);
    if t.result.Err? then Outcome(s3, t.result)
    else ScaleStage(s3, t.result.value, target, moments)
  }

  /** Scaling, then, on the first fit, the feature order and the `fitted` flag. */
  function ScaleStage(s: PreprocessorState, f: Frame, target: string, moments: MomentsOf): Outcome {
    var sc := ScaleNumerical(s.scaler, s.fitted, f, target, moments);
    var s4 := s.(scaler := sc.scaler);
    if sc.result.Err? || s4.fitted then Outcome(s4, sc.result)
    else
      Outcome(s4.(featureColumns := Some(NamesWithout(Names(sc.result.value.columns), target)), fitted := true),
              sc.result)
  }

  /** `transform(data)` up to its scaling step: refused before the first fit; then drop,
      impute, encode the frozen categorical columns, pad the absent feature columns with 0
      and reorder to the frozen feature order. */
  function Prepared(s: PreprocessorState, data: Frame): (r: Result<Frame>)
    ensures r.Ok? ==> s.featureColumns.Some? && r.value.rows == data.rows && Names(r.value.columns) == s.featureColumns.value
  {
    if !s.fitted then Err(NotFittedYet)
    else if s.featureColumns.None? then Err(NoFeatureOrder)
    else
      match EncodeListed(Cleaned(data), s.categoricalColumns, s.labelEncoders)
      case Err(e) => Err(e)
      case Ok(g) => Ok(Aligned(g, s.featureColumns.value))
  }

  /** Scale the named columns of `a` with the fitted scaler, if there are any. */
  function ScaleSelected(sc: Scaler, a: Frame, names: seq<string>): (r: Result<Frame>)
    requires forall n :: n in names ==> n in Names(a.columns)
    ensures r.Ok? ==> r.value.rows == a.rows && Names(r.value.columns) == Names(a.columns)
  {
    if |names| == 0 then Ok(a)
    else Replace(a, TransformColumns(sc, Select(a.columns, names), a.rows))
  }

  /** `transform` as the source writes it: the scaler is applied to the listed numerical
      columns only, although `preprocess` fitted it on every non-target column. */
  function TransformAsWritten(s: PreprocessorState, data: Frame): Result<Frame> {
    match Prepared(s, data)
    case Err(e) => Err(e)
    case Ok(a) => ScaleSelected(s.scaler, a, Present(s.numericalColumns, Names(a.columns)))
  }

  /** `transform` as intended: the scaler is applied to exactly the columns it was fitted on. */
  function TransformResult(s: PreprocessorState, data: Frame): Result<Frame> {
    match Prepared(s, data)
    case Err(e) => Err(e)
    case Ok(a) => ScaleSelected(s.scaler, a, Present(ScaledFeatures(s.scaler), Names(a.columns)))
  }

  /** `split_features_target(data, target)`: the features without the target, and the target. */
  function SplitFeaturesTarget(data: Frame, target: string): (r: Result<(Frame, Column)>)
    ensures r.Err? <==> !HasColumn(data, target)
    ensures r.Err? ==> r.error == "Target column '" + target + "' not found in data"
    ensures r.Ok? ==> var (x, y) := r.value;
      && x.rows == data.rows && !HasColumn(x, target)
      && (forall c :: c in x.columns <==> c in data.columns && c.name != target)
      && y.name == target && y == Lookup(data.columns, target)
    ensures r.Ok? && WellFormed(data) ==> var (x, y) := r.value;
      && |y.cells| == x.rows
      && x.columns == data.columns[..IndexOf(data.columns, target)] + data.columns[IndexOf(data.columns, target) + 1..]
  {
    if !HasColumn(data, target) then Err("Target column '" + target + "' not found in data")
    else
      DropInOrder(data.columns, target);
      Ok((Drop(data, target), Lookup(data.columns, target)))
  }

  class StandardDataPreprocessor {
    var scaler: Scaler
    var labelEncoders: map<string, LabelEncoder>
    var fitted: bool
    var featureColumns: Option<seq<string>>
    var categoricalColumns: seq<string>
    var numericalColumns: seq<string>
    /** The scaler's arithmetic, which the model does not compute. */
    const moments: MomentsOf

    function State(): PreprocessorState
      reads this
    {
      PreprocessorState(scaler, labelEncoders, fitted, featureColumns, categoricalColumns, numericalColumns)
    }

    ghost predicate Valid()
      reads this
    {
      Coherent(State())
    }

    constructor (moments: MomentsOf)
      ensures State() == Initial && this.moments == moments && Valid()
    {
      scaler := Unfitted;
      labelEncoders := map[];
      fitted := false;
      featureColumns := None;
      categoricalColumns := [];
      numericalColumns := [];
      this.moments := moments;
    }

    /** `_handle_missing_values`: numeric columns first, then categorical ones. */
    method HandleMissingValues(data: Frame) returns (r: Frame)
      ensures r == Imputed(data)
    {
      var cols := data.columns;
      var i := 0;
      while i < |cols|
        invariant 0 <= i <= |cols| == |data.columns|
        invariant forall k :: 0 <= k < |cols| ==>
          cols[k] == if k < i && data.columns[k].kind == Numeric then ImputeColumn(data.columns[k]) else data.columns[k]
      {
        var c := cols[i];
        ghost var before := cols;
        if c.kind == Numeric && ColumnHasMissing(c) {
          var fill := Num(NumericFill(c.cells));
          cols := cols[i := Column(c.name, c.kind, Fill(c.cells, fill))];
        }
        assert cols[i] == if c.kind == Numeric then ImputeColumn(c) else c;
        assert forall k :: 0 <= k < |cols| && k != i ==> cols[k] == before[k];
        i := i + 1;
      }
      i := 0;
      while i < |cols|
        invariant 0 <= i <= |cols| == |data.columns|
        invariant forall k :: 0 <= k < |cols| ==>
          cols[k] == if k < i || data.columns[k].kind == Numeric then ImputeColumn(data.columns[k]) else data.columns[k]
      {
        var c := cols[i];
        ghost var before := cols;
        if c.kind == Categorical && ColumnHasMissing(c) {
          var fill := Str(CategoricalFill(c.cells));
          cols := cols[i := Column(c.name, c.kind, Fill(c.cells, fill))];
        }
        assert c.kind == Categorical ==> cols[i] == ImputeColumn(c);
        assert forall k :: 0 <= k < |cols| && k != i ==> cols[k] == before[k];
        i := i + 1;
      }
      r := Frame(data.rows, cols);
      assert r.columns == Imputed(data).columns;
    }

    /** `_encode_categorical_variables(data, exclude_columns=[target])`. */
    method EncodeCategoricalVariables(data: Frame, target: string) returns (r: Result<Frame>)
      modifies this`labelEncoders
      ensures labelEncoders == EncodeCategorical(old(labelEncoders), data.columns, target).encoders
      ensures r == AsFrame(data.rows, EncodeCategorical(old(labelEncoders), data.columns, target).result)
    {
      var cols: seq<Column> := [];
      var i := 0;
      while i < |data.columns|
        invariant 0 <= i <= |data.columns|
        invariant EncodeCategorical(old(labelEncoders), data.columns[..i], target) == Encoding(labelEncoders, Ok(cols))
      {
        var c := data.columns[i];
        assert data.columns[..i] + [c] == data.columns[..i + 1];
        var coded := EncodeColumnStep(c, target);
        if coded.Err? {
          EncodeCategoricalFailureIsFinal(old(labelEncoders), data.columns, target, i + 1);
          return Err(coded.error);
        }
        EncodeCategoricalSnoc(old(labelEncoders), data.columns[..i], c, target);
        cols := cols + [coded.value];
        i := i + 1;
      }
      assert data.columns[..i] == data.columns;
      r := Ok(Frame(data.rows, cols));
    }

    /** One column of `_encode_categorical_variables`: a categorical column other than the
        target is coded, with an encoder fitted on it first when it has none; any other
        column is kept. */
    method EncodeColumnStep(c: Column, target: string) returns (coded: Result<Column>)
      modifies this`labelEncoders
      ensures ColumnEncoding(labelEncoders, coded) == EncodeOne(old(labelEncoders), c, target)
    {
      if c.kind == Categorical && c.name != target {
        if c.name !in labelEncoders {
          labelEncoders := labelEncoders[c.name := Fit(StrValues(c.cells))];
          coded := TransformStrict(labelEncoders[c.name], c);
        } else {
          coded := EncodeColumn(labelEncoders[c.name], c);
        }
      } else {
        coded := Ok(c);
      }
    }

    /** `_scale_numerical_variables(data, exclude_columns=[target])`. */
    method ScaleNumericalVariables(data: Frame, target: string) returns (r: Result<Frame>)
      modifies this`scaler
      ensures scaler == ScaleNumerical(old(scaler), fitted, data, target, moments).scaler
      ensures r == ScaleNumerical(old(scaler), fitted, data, target, moments).result
    {
      var names := NamesOfKind(data.columns, Numeric, target);
      NamesOfKindPresent(data.columns, Numeric, target);
      if |names| == 0 {
        return Ok(data);
      }
      var selected := Select(data.columns, names);
      if !fitted {
        var fit := FitScaler(selected, data.rows, moments);
        if fit.Err? {
          scaler := Unfitted;
          return Err(fit.error);
        }
        scaler := fit.value;
      }
      r := Replace(data, TransformColumns(scaler, selected, data.rows));
    }

    /** The target-encoding step of `preprocess`. */
    method EncodeTargetColumn(df: Frame, target: string) returns (r: Result<Frame>)
      modifies this`labelEncoders
      ensures labelEncoders == EncodeTarget(old(labelEncoders), df, target).encoders
      ensures r == EncodeTarget(old(labelEncoders), df, target).result
    {
      if HasColumn(df, target) && Lookup(df.columns, target).kind == Categorical {
        var k := IndexOf(df.columns, target);
        if target !in labelEncoders {
          labelEncoders := labelEncoders[target := Fit(StrValues(df.columns[k].cells))];
        }
        var coded := TransformStrict(labelEncoders[target], df.columns[k]);
        if coded.Err? {
          return Err(coded.error);
        }
        r := Ok(Frame(df.rows, df.columns[k := coded.value]));
      } else {
        r := Ok(df);
      }
    }

    /** `preprocess(data, target_column)`. */
    method Preprocess(data: Frame, target: string) returns (r: Result<Frame>)
      modifies this
      ensures State() == PreprocessOutcome(old(State()), data, target, moments).state
      ensures r == PreprocessOutcome(old(State()), data, target, moments).result
      ensures old(Valid()) ==> Valid()
    {
      ghost var s := State();
      PreprocessKeepsCoherent(s, data, target, moments);
      var df := DropCustomerId(data);
      df := HandleMissingValues(df);
      if !fitted {
        categoricalColumns := NamesOfKind(df.columns, Categorical, target);
        numericalColumns := NamesOfKind(df.columns, Numeric, target);
      }
      assert State() == Partitioned(s, df, target);
      ghost var s1 := State();
      var encoded := EncodeCategoricalVariables(df, target);
      if encoded.Err? {
        return encoded;
      }
      df := encoded.value;
      assert PreprocessOutcome(s, data, target, moments) == TargetStage(State(), df, target, moments);
      ghost var s2 := State();
      var targeted := EncodeTargetColumn(df, target);
      if targeted.Err? {
        return targeted;
      }
      df := targeted.value;
      assert PreprocessOutcome(s, data, target, moments) == ScaleStage(State(), df, target, moments);
      r := ScaleAndFreeze(df, target);
    }

    /** The scaling step of `preprocess` and, on the first fit, the frozen feature order. */
    method ScaleAndFreeze(df: Frame, target: string) returns (r: Result<Frame>)
      modifies this`scaler, this`featureColumns, this`fitted
      ensures State() == ScaleStage(old(State()), df, target, moments).state
      ensures r == ScaleStage(old(State()), df, target, moments).result
    {
      r := ScaleNumericalVariables(df, target);
      if r.Err? {
        return;
      }
      if !fitted {
        featureColumns := Some(NamesWithout(Names(r.value.columns), target));
        fitted := true;
      }
    }

    /** `transform(data)`, scaling the columns the scaler was fitted on. */
    method Transform(data: Frame) returns (r: Result<Frame>)
      ensures r == TransformResult(State(), data)
    {
      if !fitted {
        return Err(NotFittedYet);
      }
      if featureColumns.None? {
        return Err(NoFeatureOrder);
      }
      var df := HandleMissingValues(DropCustomerId(data));
      var encoded := ApplyEncoders(df, categoricalColumns, labelEncoders);
      if encoded.Err? {
        return Err(encoded.error);
      }
      var aligned := AlignColumns(encoded.value, featureColumns.value);
      var toScale := Present(ScaledFeatures(scaler), Names(aligned.columns));
      if |toScale| == 0 {
        return Ok(aligned);
      }
      r := Replace(aligned, TransformColumns(scaler, Select(aligned.columns, toScale), aligned.rows));
    }
  }

  /** Once a prefix of the columns fails to encode, the whole pass fails the same way. */
  lemma {:induction false} EncodeCategoricalFailureIsFinal(encoders: map<string, LabelEncoder>, cols: seq<Column>, target: string, k: nat)
    requires k <= |cols| && EncodeCategorical(encoders, cols[..k], target).result.Err?
    ensures EncodeCategorical(encoders, cols, target) == EncodeCategorical(encoders, cols[..k], target)
    decreases |cols| - k
  {
    if k < |cols| {
      var init := cols[..|cols| - 1];
      assert init[..k] == cols[..k];
      EncodeCategoricalFailureIsFinal(encoders, init, target, k);
    } else {
      assert cols[..k] == cols;
    }
  }

  /** `preprocess` keeps the invariant. */
  lemma PreprocessKeepsCoherent(s: PreprocessorState, data: Frame, target: string, moments: MomentsOf)
    ensures Coherent(s) ==> Coherent(PreprocessOutcome(s, data, target, moments).state)
  {
    var df := Cleaned(data);
    var s1 := Partitioned(s, df, target);
    var enc := EncodeCategorical(s1.labelEncoders, df.columns, target);
    if enc.result.Ok? {
      var s2 := s1.(labelEncoders := enc.encoders);
      var t := EncodeTarget(s2.labelEncoders, Frame(df.rows, enc.result.value), target);
      if t.result.Ok? {
        ScaleStageKeepsCoherent(s2.(labelEncoders := t.encoders), t.result.value, target, moments);
      }
    }
  }

  /** The scaling stage keeps the invariant: a first fit freezes a feature order that
      contains every column the scaler was fitted on. */
  lemma ScaleStageKeepsCoherent(s: PreprocessorState, f: Frame, target: string, moments: MomentsOf)
    ensures Coherent(s) ==> Coherent(ScaleStage(s, f, target, moments).state)
  {
  }

  /** Every cell of the columns is present. */
  ghost predicate Complete(cols: seq<Column>) {
    forall i, j :: 0 <= i < |cols| && 0 <= j < |cols[i].cells| ==> cols[i].cells[j] != Missing
  }

  /** Every column other than the target is numeric. */
  ghost predicate NumericExcept(cols: seq<Column>, target: string) {
    forall i :: 0 <= i < |cols| ==> cols[i].kind == Numeric || cols[i].name == target
  }

  /** What one pass of `_encode_categorical_variables` does to each column: a categorical
      column other than the target is replaced by its codes under the encoder the pass
      leaves for it; every other column is untouched. */
  lemma {:induction false} EncodeCategoricalColumns(encoders: map<string, LabelEncoder>, cols: seq<Column>, target: string)
    requires EncodeCategorical(encoders, cols, target).result.Ok?
    ensures var r := EncodeCategorical(encoders, cols, target);
      forall i :: 0 <= i < |cols| ==>
        if cols[i].kind == Categorical && cols[i].name != target then
          cols[i].name in r.encoders && EncodeColumn(r.encoders[cols[i].name], cols[i]) == Ok(r.result.value[i])
        else r.result.value[i] == cols[i]
    decreases |cols|
  {
    if |cols| > 0 {
      var init := cols[..|cols| - 1];
      var c := cols[|cols| - 1];
      var prev := EncodeCategorical(encoders, init, target);
      var r := EncodeCategorical(encoders, cols, target);
      assert cols == init + [c];
      EncodeCategoricalColumns(encoders, init, target);
      var one := EncodeOne(prev.encoders, c, target);
      EncodeCategoricalSnoc(encoders, init, c, target);
      assert r == Encoding(one.encoders, Ok(prev.result.value + [one.coded.value]));
      assert |prev.result.value| == |init|;
      assert r.result.value[|init|] == one.coded.value;
      forall i | 0 <= i < |init|
        ensures if cols[i].kind == Categorical && cols[i].name != target then
          cols[i].name in r.encoders && EncodeColumn(r.encoders[cols[i].name], cols[i]) == Ok(r.result.value[i])
        else r.result.value[i] == cols[i]
      {
        assert cols[i] == init[i];
        assert r.result.value[i] == prev.result.value[i];
      }
    }
  }

  /** Encoded columns are numeric and complete; a pass over complete columns yields
      complete columns in which only the target may be non-numeric. */
  lemma EncodeCategoricalShape(encoders: map<string, LabelEncoder>, cols: seq<Column>, target: string)
    requires EncodeCategorical(encoders, cols, target).result.Ok?
    ensures var out := EncodeCategorical(encoders, cols, target).result.value;
      && |out| == |cols|
      && NumericExcept(out, target)
      && (Complete(cols) ==> Complete(out))
      && (forall i :: 0 <= i < |cols| ==> |out[i].cells| == |cols[i].cells|)
  {
    EncodeCategoricalColumns(encoders, cols, target);
    var out := EncodeCategorical(encoders, cols, target).result.value;
    assert Names(out) == Names(cols);
    forall i | 0 <= i < |cols|
      ensures |out[i].cells| == |cols[i].cells|
      ensures out[i].kind == Numeric || out[i].name == target
      ensures Complete(cols) ==> forall j :: 0 <= j < |out[i].cells| ==> out[i].cells[j] != Missing
    {
    }
  }

  /** The target step keeps the columns complete and, once encoded, numeric. */
  lemma EncodeTargetShape(encoders: map<string, LabelEncoder>, f: Frame, target: string)
    requires EncodeTarget(encoders, f, target).result.Ok?
    ensures var g := EncodeTarget(encoders, f, target).result.value;
      && (Complete(f.columns) ==> Complete(g.columns))
      && (NumericExcept(f.columns, target) ==> NumericExcept(g.columns, target))
  {
  }

  /** Scaling keeps the columns complete. */
  lemma ScaleNumericalComplete(sc: Scaler, fitted: bool, f: Frame, target: string, moments: MomentsOf)
    requires ScaleNumerical(sc, fitted, f, target, moments).result.Ok? && Complete(f.columns)
    ensures Complete(ScaleNumerical(sc, fitted, f, target, moments).result.value.columns)
  {
    var names := NamesOfKind(f.columns, Numeric, target);
    NamesOfKindPresent(f.columns, Numeric, target);
    if |names| > 0 {
      var selected := Select(f.columns, names);
      var used := ScaleNumerical(sc, fitted, f, target, moments).scaler;
      var out := TransformColumns(used, selected, f.rows).value;
      assert Complete(selected) by {
        forall i | 0 <= i < |selected| ensures selected[i] in f.columns { }
      }
      assert Complete(out) by {
        forall i, j | 0 <= i < |out| && 0 <= j < |out[i].cells| ensures out[i].cells[j] != Missing {
          ScaleKeepsMissing(selected[i], used.features[i].moments, j);
        }
      }
      var g := Assign(f.columns, out);
      forall i, j | 0 <= i < |g| && 0 <= j < |g[i].cells| ensures g[i].cells[j] != Missing {
        if f.columns[i].name in Names(out) {
          assert g[i] in out;
        }
      }
    }
  }

  /** `preprocess` keeps the number of rows, never returns `customer_id`, returns the
      cleaned frame's columns in their order, and leaves no cell missing. */
  lemma PreprocessShape(s: PreprocessorState, data: Frame, target: string, moments: MomentsOf)
    requires PreprocessOutcome(s, data, target, moments).result.Ok?
    ensures var out := PreprocessOutcome(s, data, target, moments).result.value;
      && out.rows == data.rows
      && !HasColumn(out, CustomerId)
      && Names(out.columns) == Names(Cleaned(data).columns)
      && NoMissing(out)
  {
    var df := Cleaned(data);
    var s1 := Partitioned(s, df, target);
    var enc := EncodeCategorical(s1.labelEncoders, df.columns, target);
    ImputedNoMissing(DropCustomerId(data));
    assert Complete(df.columns);
    EncodeCategoricalShape(s1.labelEncoders, df.columns, target);
    var f := Frame(df.rows, enc.result.value);
    var s2 := s1.(labelEncoders := enc.encoders);
    EncodeTargetShape(s2.labelEncoders, f, target);
    var t := EncodeTarget(s2.labelEncoders, f, target);
    var s3 := s2.(labelEncoders := t.encoders);
    ScaleNumericalComplete(s3.scaler, s3.fitted, t.result.value, target, moments);
  }

  /** Once fitted, `preprocess` never changes the partition, the feature order, the
      `fitted` flag or the scaler, whatever it returns. */
  lemma PreprocessFrozenAfterFit(s: PreprocessorState, data: Frame, target: string, moments: MomentsOf)
    requires s.fitted
    ensures var s' := PreprocessOutcome(s, data, target, moments).state;
      && s'.fitted && s'.featureColumns == s.featureColumns
      && s'.categoricalColumns == s.categoricalColumns && s'.numericalColumns == s.numericalColumns
      && s'.scaler == s.scaler
  {
  }

  /** An encoder, once created, is never refitted: every vocabulary survives every call. */
  lemma PreprocessKeepsEncoders(s: PreprocessorState, data: Frame, target: string, moments: MomentsOf)
    ensures var s' := PreprocessOutcome(s, data, target, moments).state;
      forall n :: n in s.labelEncoders ==> n in s'.labelEncoders && s'.labelEncoders[n] == s.labelEncoders[n]
  {
    var df := Cleaned(data);
    var s1 := Partitioned(s, df, target);
    var enc := EncodeCategorical(s1.labelEncoders, df.columns, target);
    if enc.result.Ok? {
      var s2 := s1.(labelEncoders := enc.encoders);
      var f := Frame(df.rows, enc.result.value);
      var tt := EncodeTarget(s2.labelEncoders, f, target);
      if tt.result.Ok? {
        var s3 := s2.(labelEncoders := tt.encoders);
        assert ScaleStage(s3, tt.result.value, target, moments).state.labelEncoders == s3.labelEncoders;
      }
    }
  }

  /** The first successful `preprocess` freezes the partition of the cleaned input's columns
      (target excluded), sets the feature order to the returned non-target columns, in
      order, and sets `fitted`. */
  lemma FirstFit(s: PreprocessorState, data: Frame, target: string, moments: MomentsOf)
    requires !s.fitted && PreprocessOutcome(s, data, target, moments).result.Ok?
    ensures var o := PreprocessOutcome(s, data, target, moments);
      && o.state.fitted
      && o.state.categoricalColumns == NamesOfKind(Cleaned(data).columns, Categorical, target)
      && o.state.numericalColumns == NamesOfKind(Cleaned(data).columns, Numeric, target)
      && o.state.featureColumns == Some(NamesWithout(Names(o.result.value.columns), target))
      && target !in o.state.featureColumns.value
      && target !in o.state.categoricalColumns && target !in o.state.numericalColumns
  {
  }

  /** `transform` refuses to run before the first fit. */
  lemma TransformBeforeFit(s: PreprocessorState, data: Frame)
    requires !s.fitted
    ensures TransformResult(s, data) == Err(NotFittedYet)
    ensures TransformAsWritten(s, data) == Err(NotFittedYet)
  {
  }

  /** After a fit, `transform` returns exactly the frozen feature columns, in order, with the
      input's number of rows. */
  lemma TransformColumnOrder(s: PreprocessorState, data: Frame)
    requires TransformResult(s, data).Ok?
    ensures s.fitted && s.featureColumns.Some?
    ensures TransformResult(s, data).value.rows == data.rows
    ensures Names(TransformResult(s, data).value.columns) == s.featureColumns.value
  {
  }

  /** A feature column the input lacks is added as a column of zeros before scaling, and
      stays zeros when the scaler does not cover it. */
  lemma TransformPadsWithZero(s: PreprocessorState, data: Frame, i: nat)
    requires Prepared(s, data).Ok? && i < |s.featureColumns.value|
    requires s.featureColumns.value[i] !in Names(data.columns)
    ensures Prepared(s, data).value.columns[i] == ZeroColumn(s.featureColumns.value[i], data.rows)
    ensures TransformResult(s, data).Ok? && s.featureColumns.value[i] !in ScaledFeatures(s.scaler) ==>
      TransformResult(s, data).value.columns[i] == ZeroColumn(s.featureColumns.value[i], data.rows)
  {
    var name := s.featureColumns.value[i];
    var df := Cleaned(data);
    var g := EncodeListed(df, s.categoricalColumns, s.labelEncoders).value;
    ImputedShape(DropCustomerId(data));
    assert name !in Names(df.columns);
    assert !HasColumn(g, name);
    AlignedPadsWithZero(g, s.featureColumns.value, i);
    var a := Prepared(s, data).value;
    if TransformResult(s, data).Ok? && name !in ScaledFeatures(s.scaler) {
      var names := Present(ScaledFeatures(s.scaler), Names(a.columns));
      if |names| > 0 {
        var out := TransformColumns(s.scaler, Select(a.columns, names), a.rows).value;
        assert a.columns[i].name == name;
        assert name !in Names(out);
      }
    }
  }

  /** When every non-target column is numeric, the numeric non-target names are all the
      non-target names. */
  lemma {:induction false} NumericNamesAreAll(cols: seq<Column>, target: string)
    requires NumericExcept(cols, target)
    ensures NamesOfKind(cols, Numeric, target) == NamesWithout(Names(cols), target)
    decreases |cols|
  {
    if |cols| > 0 {
      NumericNamesAreAll(cols[1..], target);
      assert Names(cols)[1..] == Names(cols[1..]);
    }
  }

  /** The cleaned frame has distinct names when the input has. */
  lemma CleanedDistinct(data: Frame)
    requires DistinctNames(data.columns)
    ensures DistinctNames(Cleaned(data).columns)
  {
    WithoutDistinct(data.columns, CustomerId);
    ImputedShape(DropCustomerId(data));
    var names := Names(Cleaned(data).columns);
    assert forall i :: 0 <= i < |names| ==> names[i] == DropCustomerId(data).columns[i].name;
  }

  /** On the first fit the scaler is fitted on every non-target column: categorical
      columns are numeric codes by the time `_scale_numerical_variables` selects the
      numeric ones. So after it the scaler covers exactly the feature order. */
  lemma FirstFitScalesEveryFeature(s: PreprocessorState, data: Frame, target: string, moments: MomentsOf)
    requires !s.fitted && Coherent(s) && PreprocessOutcome(s, data, target, moments).result.Ok?
    ensures var s' := PreprocessOutcome(s, data, target, moments).state;
      s'.featureColumns.Some? && ScaledFeatures(s'.scaler) == s'.featureColumns.value
  {
    var df := Cleaned(data);
    var s1 := Partitioned(s, df, target);
    var enc := EncodeCategorical(s1.labelEncoders, df.columns, target);
    EncodeCategoricalShape(s1.labelEncoders, df.columns, target);
    var f := Frame(df.rows, enc.result.value);
    var s2 := s1.(labelEncoders := enc.encoders);
    EncodeTargetShape(s2.labelEncoders, f, target);
    var t := EncodeTarget(s2.labelEncoders, f, target);
    FirstScaleCoversFeatures(s2.(labelEncoders := t.encoders), t.result.value, target, moments);
  }

  /** The first scaling of a frame whose non-target columns are all numeric fits the scaler
      on exactly the feature order it then freezes. */
  lemma FirstScaleCoversFeatures(s: PreprocessorState, f: Frame, target: string, moments: MomentsOf)
    requires !s.fitted && s.scaler.Unfitted? && NumericExcept(f.columns, target)
    requires ScaleStage(s, f, target, moments).result.Ok?
    ensures var s' := ScaleStage(s, f, target, moments).state;
      s'.featureColumns.Some? && ScaledFeatures(s'.scaler) == s'.featureColumns.value
  {
    NumericNamesAreAll(f.columns, target);
    var names := NamesOfKind(f.columns, Numeric, target);
    NamesOfKindPresent(f.columns, Numeric, target);
    if |names| > 0 {
      assert Names(Select(f.columns, names)) == names;
    }
  }

  /** The source's `transform` fails on every input once the scaler covers columns other
      than the listed numerical ones (and there are listed numerical ones): it hands the
      scaler the numerical columns only, and the scaler refuses a different set of
      features. */
  lemma TransformAsWrittenFails(s: PreprocessorState, data: Frame)
    requires s.fitted && s.featureColumns.Some? && |s.numericalColumns| > 0
    requires forall n :: n in s.numericalColumns ==> n in s.featureColumns.value
    requires ScaledFeatures(s.scaler) != s.numericalColumns
    ensures TransformAsWritten(s, data).Err?
  {
    match Prepared(s, data)
    case Err(_) =>
    case Ok(a) =>
      var names := Present(s.numericalColumns, Names(a.columns));
      assert names == s.numericalColumns;
      assert Names(Select(a.columns, names)) == s.numericalColumns;
  }

  /** The state the first fit leaves makes the source's `transform` fail on every input as
      soon as the training data had both a categorical and a numeric feature column. */
  lemma FirstFitBreaksTransformAsWritten(s: PreprocessorState, data: Frame, target: string, moments: MomentsOf, other: Frame)
    requires !s.fitted && Coherent(s) && DistinctNames(data.columns)
    requires PreprocessOutcome(s, data, target, moments).result.Ok?
    requires PreprocessOutcome(s, data, target, moments).state.categoricalColumns != []
    requires PreprocessOutcome(s, data, target, moments).state.numericalColumns != []
    ensures TransformAsWritten(PreprocessOutcome(s, data, target, moments).state, other).Err?
  {
    var o := PreprocessOutcome(s, data, target, moments);
    var df := Cleaned(data);
    FirstFit(s, data, target, moments);
    PreprocessShape(s, data, target, moments);
    FirstFitScalesEveryFeature(s, data, target, moments);
    CleanedDistinct(data);
    KindsDisjoint(df.columns, target);
    NamesOfKindPresent(df.columns, Numeric, target);
    NamesOfKindPresent(df.columns, Categorical, target);
    var features := o.state.featureColumns.value;
    var c := o.state.categoricalColumns[0];
    assert c in o.state.categoricalColumns;
    assert c in features && c !in o.state.numericalColumns;
    assert ScaledFeatures(o.state.scaler) != o.state.numericalColumns;
    TransformAsWrittenFails(o.state, other);
  }

  /** The intended `transform` never offers the scaler a feature set it was not fitted on:
      on a coherent state it fails after preparation only on a string cell among the scaled
      columns, or on an empty frame. */
  lemma TransformFailsOnlyOnData(s: PreprocessorState, data: Frame)
    requires Coherent(s) && Prepared(s, data).Ok?
    ensures var a := Prepared(s, data).value;
      var scaled := ScaledFeatures(s.scaler);
      forall n :: n in scaled ==> n in Names(a.columns)
    ensures var a := Prepared(s, data).value;
      var scaled := ScaledFeatures(s.scaler);
      TransformResult(s, data).Ok? <==> scaled == [] || (!HasText(Select(a.columns, scaled)) && a.rows > 0)
  {
    var a := Prepared(s, data).value;
    var scaled := ScaledFeatures(s.scaler);
    assert Present(scaled, Names(a.columns)) == scaled;
    if scaled != [] {
      assert Names(Select(a.columns, scaled)) == FeatureNames(s.scaler.features);
    }
  }

  /** A two-column training frame, one numeric and one categorical feature. */
  function ExampleFrame(): Frame {
    Frame(1, [Column("tenure", Numeric, [Num(12.0)]), Column("contract_type", Categorical, [Str("One year")])])
  }

  /** The example has no `customer_id` and no missing cell: cleaning leaves it as it is. */
  lemma ExampleCleaned()
    ensures Cleaned(ExampleFrame()) == ExampleFrame()
  {
    var d := ExampleFrame();
    assert !HasColumn(d, CustomerId);
    assert !ColumnHasMissing(d.columns[0]) && !ColumnHasMissing(d.columns[1]);
    assert Imputed(d).columns == d.columns;
  }

  /** The example after encoding: `contract_type` replaced by its code. */
  function ExampleCodes(): seq<Column> {
    [ExampleFrame().columns[0], Column("contract_type", Numeric, [Num(Code(Fit(["One year"]), Str("One year")))])]
  }

  /** The numeric `tenure` column passes the encoding pass untouched. */
  lemma ExampleEncodedTenure()
    ensures EncodeCategorical(map[], [ExampleFrame().columns[0]], "churn") == Encoding(map[], Ok([ExampleFrame().columns[0]]))
  {
    var c0 := ExampleFrame().columns[0];
    assert [c0][..0] == [];
    assert EncodeCategorical(map[], [], "churn") == Encoding(map[], Ok([]));
    assert [] + [c0] == [c0];
  }

  /** `contract_type` has no encoder yet: one is fitted on it and codes it. */
  lemma ExampleEncodedContract()
    ensures EncodeOne(map[], ExampleFrame().columns[1], "churn") == ColumnEncoding(ExampleEncoders(), Ok(ExampleCodes()[1]))
  {
    var c1 := ExampleFrame().columns[1];
    assert c1.cells[..0] == [];
    assert StrValues(c1.cells) == ["One year"];
    var e := Fit(["One year"]);
    assert Seen(e, c1.cells[0]);
    var coded := TransformStrict(e, c1);
    assert coded.value.cells == [Num(Code(e, Str("One year")))];
  }

  /** The encoding pass over one more column: the pass over the others, then `EncodeOne`. */
  lemma EncodeCategoricalSnoc(encoders: map<string, LabelEncoder>, cols: seq<Column>, c: Column, target: string)
    requires EncodeCategorical(encoders, cols, target).result.Ok?
    requires EncodeOne(EncodeCategorical(encoders, cols, target).encoders, c, target).coded.Ok?
    ensures var prev := EncodeCategorical(encoders, cols, target);
      var one := EncodeOne(prev.encoders, c, target);
      EncodeCategorical(encoders, cols + [c], target) == Encoding(one.encoders, Ok(prev.result.value + [one.coded.value]))
  {
    assert (cols + [c])[..|cols|] == cols;
  }

  /** The first encoding pass of the example fits an encoder on `contract_type` and codes it. */
  lemma ExampleEncoded()
    ensures EncodeCategorical(map[], ExampleFrame().columns, "churn") == Encoding(ExampleEncoders(), Ok(ExampleCodes()))
  {
    var d := ExampleFrame();
    ExampleEncodedTenure();
    ExampleEncodedContract();
    EncodeCategoricalPair(map[], d.columns, "churn");
    var one := EncodeOne(map[], d.columns[1], "churn");
    assert one == ColumnEncoding(ExampleEncoders(), Ok(ExampleCodes()[1]));
    assert EncodeCategorical(map[], d.columns, "churn") == Encoding(one.encoders, Ok([d.columns[0], one.coded.value]));
    assert ExampleCodes() == [d.columns[0], ExampleCodes()[1]];
  }

  /** The encoding pass over two columns, the first of which it leaves as it is. */
  lemma EncodeCategoricalPair(encoders: map<string, LabelEncoder>, cols: seq<Column>, target: string)
    requires |cols| == 2
    requires EncodeCategorical(encoders, [cols[0]], target) == Encoding(encoders, Ok([cols[0]]))
    requires EncodeOne(encoders, cols[1], target).coded.Ok?
    ensures var one := EncodeOne(encoders, cols[1], target);
      EncodeCategorical(encoders, cols, target) == Encoding(one.encoders, Ok([cols[0], one.coded.value]))
  {
    EncodeCategoricalSnoc(encoders, [cols[0]], cols[1], target);
    assert [cols[0]] + [cols[1]] == cols;
    var one := EncodeOne(encoders, cols[1], target);
    assert [cols[0]] + [one.coded.value] == [cols[0], one.coded.value];
  }

  /** The encoded example is all numbers, and the first scaling pass fits and scales both columns. */
  lemma ExampleScaled(moments: MomentsOf)
    ensures var codes := ExampleCodes();
      var sc := ScaleNumerical(Unfitted, false, Frame(1, codes), "churn", moments);
      && FitScaler(codes, 1, moments).Ok?
      && sc.scaler == FitScaler(codes, 1, moments).value
      && sc.result.Ok?
  {
    var cols := ExampleCodes();
    var f := Frame(1, cols);
    var names := NamesOfKind(f.columns, Numeric, "churn");
    assert cols[1..][1..] == [];
    assert names == ["tenure", "contract_type"];
    NamesOfKindPresent(f.columns, Numeric, "churn");
    assert Names(cols) == names;
    SelectAll(cols);
    assert Select(f.columns, names) == cols;
    assert !HasText(cols);
    FitThenTransform(cols, 1, moments);
  }

  /** The state the first `preprocess` of the example leaves. */
  function ExampleState(moments: MomentsOf): PreprocessorState {
    PreprocessorState(
      if FitScaler(ExampleCodes(), 1, moments).Ok? then FitScaler(ExampleCodes(), 1, moments).value else Unfitted,
      ExampleEncoders(), true, Some(["tenure", "contract_type"]),
      ["contract_type"], ["tenure"])
  }

  /** The state between encoding and scaling in the example's first `preprocess`. */
  function ExampleEncodedState(): PreprocessorState {
    PreprocessorState(Unfitted, ExampleEncoders(), false, None, ["contract_type"], ["tenure"])
  }

  /** The scaling stage of the example's first `preprocess`. */
  lemma ExampleScaleStage(moments: MomentsOf)
    ensures var o := ScaleStage(ExampleEncodedState(), Frame(1, ExampleCodes()), "churn", moments);
      o.result.Ok? && o.state == ExampleState(moments)
  {
    var f := Frame(1, ExampleCodes());
    ExampleScaled(moments);
    var sc := ScaleNumerical(Unfitted, false, f, "churn", moments);
    assert Names(sc.result.value.columns) == ["tenure", "contract_type"];
    assert NamesWithout(["tenure", "contract_type"], "churn") == ["tenure", "contract_type"];
  }

  /** Before the first fit the example is partitioned into `contract_type` and `tenure`. */
  lemma ExamplePartitioned()
    ensures Partitioned(Initial, ExampleFrame(), "churn")
         == PreprocessorState(Unfitted, map[], false, None, ["contract_type"], ["tenure"])
  {
    var d := ExampleFrame();
    assert d.columns[1..][1..] == [];
    assert NamesOfKind(d.columns, Categorical, "churn") == ["contract_type"];
    assert NamesOfKind(d.columns, Numeric, "churn") == ["tenure"];
  }

  /** The example has no target column: the target step passes it on. */
  lemma ExampleTargetStage(moments: MomentsOf)
    ensures var s := ExampleEncodedState();
      TargetStage(s, Frame(1, ExampleCodes()), "churn", moments) == ScaleStage(s, Frame(1, ExampleCodes()), "churn", moments)
  {
    var f := Frame(1, ExampleCodes());
    assert Names(f.columns) == ["tenure", "contract_type"];
    assert !HasColumn(f, "churn");
  }

  /** The first `preprocess` of the example succeeds with `contract_type` as its categorical
      and `tenure` as its numerical column. */
  lemma ExamplePreprocessed(moments: MomentsOf)
    ensures var o := PreprocessOutcome(Initial, ExampleFrame(), "churn", moments);
      && o.result.Ok?
      && o.state == ExampleState(moments)
  {
    var d := ExampleFrame();
    ExampleCleaned();
    ExamplePartitioned();
    ExampleEncoded();
    var s1 := Partitioned(Initial, d, "churn");
    assert s1.(labelEncoders := ExampleEncoders()) == ExampleEncodedState();
    assert PreprocessOutcome(Initial, d, "churn", moments)
        == TargetStage(ExampleEncodedState(), Frame(1, ExampleCodes()), "churn", moments);
    ExampleTargetStage(moments);
    ExampleScaleStage(moments);
  }

  /** The first `preprocess` of the example succeeds, and afterwards the source's
      `transform` fails on every input. */
  lemma ExampleShowsTransformMismatch(moments: MomentsOf, other: Frame)
    ensures PreprocessOutcome(Initial, ExampleFrame(), "churn", moments).result.Ok?
    ensures TransformAsWritten(PreprocessOutcome(Initial, ExampleFrame(), "churn", moments).state, other).Err?
  {
    ExamplePreprocessed(moments);
    ExampleScalerCovers(moments);
    TransformAsWrittenFails(ExampleState(moments), other);
  }

  /** The encoders the example's first `preprocess` leaves. */
  function ExampleEncoders(): map<string, LabelEncoder> {
    map["contract_type" := Fit(["One year"])]
  }

  /** Replaying the frozen encoding on the example codes `contract_type` as the fit did. */
  lemma ExampleListedEncoding()
    ensures EncodeListed(ExampleFrame(), ["contract_type"], ExampleEncoders()) == Ok(Frame(1, ExampleCodes()))
  {
    var d := ExampleFrame();
    var codes := ExampleCodes();
    assert ["contract_type"][..0] == [];
    assert EncodeListed(d, [], ExampleEncoders()) == Ok(d);
    var e := Fit(["One year"]);
    assert Seen(e, d.columns[1].cells[0]);
    var r := EncodeColumn(e, d.columns[1]);
    assert r.value.cells == [Num(Code(e, Str("One year")))];
    assert r == Ok(codes[1]);
    assert IndexOf(d.columns, "contract_type") == 1;
    assert d.columns[1 := codes[1]] == codes;
  }

  /** The encoded example already has the feature order: alignment keeps it. */
  lemma ExampleAlignedCodes()
    ensures Aligned(Frame(1, ExampleCodes()), ["tenure", "contract_type"]) == Frame(1, ExampleCodes())
  {
    var f := Frame(1, ExampleCodes());
    var a := Aligned(f, ["tenure", "contract_type"]);
    assert Names(f.columns) == ["tenure", "contract_type"];
    assert IndexOf(f.columns, "tenure") == 0;
    assert IndexOf(f.columns, "contract_type") == 1;
    assert a.columns[0] == f.columns[0];
    assert a.columns[1] == f.columns[1];
    assert a.columns == f.columns;
  }

  /** After the first fit, preparing the example replays the encoding and keeps the order. */
  lemma ExamplePrepared(moments: MomentsOf)
    ensures Prepared(ExampleState(moments), ExampleFrame()) == Ok(Frame(1, ExampleCodes()))
  {
    ExampleCleaned();
    ExampleListedEncoding();
    ExampleAlignedCodes();
  }

  /** The example's fitted scaler covers both feature columns. */
  lemma ExampleScalerCovers(moments: MomentsOf)
    ensures FitScaler(ExampleCodes(), 1, moments).Ok?
    ensures ExampleState(moments).scaler == FitScaler(ExampleCodes(), 1, moments).value
    ensures ScaledFeatures(ExampleState(moments).scaler) == ["tenure", "contract_type"]
  {
    var codes := ExampleCodes();
    assert !HasText(codes);
    assert Names(codes) == ["tenure", "contract_type"];
  }

  /** The intended `transform` accepts the training example itself after the first fit. */
  lemma ExampleTransformed(moments: MomentsOf)
    ensures TransformResult(ExampleState(moments), ExampleFrame()).Ok?
  {
    ExamplePrepared(moments);
    ExampleScalerCovers(moments);
    ExampleCodesDistinct();
    TransformOfFittedFrame(ExampleState(moments), ExampleFrame(), Frame(1, ExampleCodes()), moments);
  }

  lemma ExampleCodesDistinct()
    ensures DistinctNames(ExampleCodes())
  {
    var codes := ExampleCodes();
    assert codes[0].name != codes[1].name;
  }

  /** `transform` succeeds when it prepares exactly the frame the scaler was fitted on. */
  lemma TransformOfFittedFrame(s: PreprocessorState, data: Frame, a: Frame, moments: MomentsOf)
    requires Prepared(s, data) == Ok(a) && DistinctNames(a.columns)
    requires FitScaler(a.columns, a.rows, moments).Ok? && s.scaler == FitScaler(a.columns, a.rows, moments).value
    ensures TransformResult(s, data).Ok?
  {
    var names := Names(a.columns);
    assert ScaledFeatures(s.scaler) == names;
    assert Present(names, names) == names;
    SelectAll(a.columns);
    FitThenTransform(a.columns, a.rows, moments);
  }
}
