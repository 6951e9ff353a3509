/** `PredictionPreprocessor`, the serving-side preprocessor, and `create_simple_preprocessor`,
    which presets one with fixed vocabularies, a fixed 13-column feature order and a scaler
    fitted on a fixed sample. `preprocess` never writes the object's fields: it is a function
    of the preset state and the input. It differs from the training preprocessor in how it
    fills missing cells, always scales every column, and falls back to the unscaled frame
    when the scaler refuses it. */
module ServingPreprocessor {
  import opened Wrappers
  import opened Text
  import opened Frames
  import opened LabelEncoding
  import opened Scaling
  import opened Imputation
  import opened TrainingPreprocessor

  /** What `_handle_missing_values` writes into the missing cells of a column: 0 in a numeric
      column; in an object column the first class of its encoder, or `'Unknown'` when the
      column has no encoder or the encoder an empty vocabulary. */
  function ServingFill(encoders: map<string, LabelEncoder>, c: Column): Cell {
    if c.kind == Numeric then Num(0.0)
    else if c.name in encoders && |encoders[c.name].classes| > 0 then Str(encoders[c.name].classes[0])
    else Str(Unknown)
  }

  function ServingImputeColumn(encoders: map<string, LabelEncoder>, c: Column): Column {
    if ColumnHasMissing(c) then Column(c.name, c.kind, Fill(c.cells, ServingFill(encoders, c))) else c
  }

  function ServingImputed(encoders: map<string, LabelEncoder>, f: Frame): (r: Frame)
    ensures r.rows == f.rows && |r.columns| == |f.columns|
    ensures forall i :: 0 <= i < |f.columns| ==> r.columns[i] == ServingImputeColumn(encoders, f.columns[i])
  {
    Frame(f.rows, seq(|f.columns|, i requires 0 <= i < |f.columns| => ServingImputeColumn(encoders, f.columns[i])))
  }

  /** `preprocess` up to its scaling step: drop `customer_id`, impute, encode the listed
      categorical columns (an exception propagates), and, when a feature order is set, pad
      the absent features with 0 and reorder. */
  function ServingPrepared(s: PreprocessorState, data: Frame): Result<Frame> {
    match EncodeListed(ServingImputed(s.labelEncoders, DropCustomerId(data)), s.categoricalColumns, s.labelEncoders)
    case Err(e) => Err(e)
    case Ok(g) => Ok(if s.featureColumns.Some? then Aligned(g, s.featureColumns.value) else g)
  }

  /** The scaling step: when the preprocessor is fitted and its scaler has `mean_`, every
      column goes through `scaler.transform`; if that raises, the frame is returned unscaled. */
  function ScaledOrUnscaled(s: PreprocessorState, a: Frame): Frame {
    if s.fitted && s.scaler.Fitted? then
      match TransformColumns(s.scaler, a.columns, a.rows)
      case Ok(out) => Frame(a.rows, out)
      case Err(_) => a
    else a
  }

  /** `preprocess(data)`, equally `transform(data)`. */
  function ServingPreprocess(s: PreprocessorState, data: Frame): Result<Frame> {
    match ServingPrepared(s, data)
    case Err(e) => Err(e)
    case Ok(a) => Ok(ScaledOrUnscaled(s, a))
  }

  class PredictionPreprocessor {
    var scaler: Scaler
    var labelEncoders: map<string, LabelEncoder>
    var fitted: bool
    var featureColumns: Option<seq<string>>
    var categoricalColumns: seq<string>
    var numericalColumns: seq<string>

    function State(): PreprocessorState
      reads this
    {
      PreprocessorState(scaler, labelEncoders, fitted, featureColumns, categoricalColumns, numericalColumns)
    }

    constructor ()
      ensures State() == Initial
    {
      scaler := Unfitted;
      labelEncoders := map[];
      fitted := false;
      featureColumns := None;
      categoricalColumns := [];
      numericalColumns := [];
    }

    /** `_handle_missing_values`: numeric columns first, then object columns. */
    method HandleMissingValues(data: Frame) returns (r: Frame)
      ensures r == ServingImputed(labelEncoders, data)
    {
      var cols := data.columns;
      var i := 0;
      while i < |cols|
        invariant 0 <= i <= |cols| == |data.columns|
        invariant forall k :: 0 <= k < |cols| ==>
          cols[k] == if k < i && data.columns[k].kind == Numeric then ServingImputeColumn(labelEncoders, data.columns[k]) else data.columns[k]
      {
        if cols[i].kind == Numeric && ColumnHasMissing(cols[i]) {
          cols := cols[i := Column(cols[i].name, cols[i].kind, Fill(cols[i].cells, Num(0.0)))];
        }
        i := i + 1;
      }
      i := 0;
      while i < |cols|
        invariant 0 <= i <= |cols| == |data.columns|
        invariant forall k :: 0 <= k < |cols| ==>
          cols[k] == if k < i || data.columns[k].kind == Numeric then ServingImputeColumn(labelEncoders, data.columns[k]) else data.columns[k]
      {
        var c := cols[i];
        if c.kind == Categorical && ColumnHasMissing(c) {
          var fill := Str(Unknown);
          if c.name in labelEncoders {
            var classes := labelEncoders[c.name].classes;
            fill := if |classes| > 0 then Str(classes[0]) else Str(Unknown);
          }
          cols := cols[i := Column(c.name, c.kind, Fill(c.cells, fill))];
        }
        i := i + 1;
      }
      r := Frame(data.rows, cols);
    }

    /** `_transform_categorical_variables`: the listed columns through their encoders. */
    method TransformCategoricalVariables(data: Frame) returns (r: Result<Frame>)
      ensures r == EncodeListed(data, categoricalColumns, labelEncoders)
    {
      r := ApplyEncoders(data, categoricalColumns, labelEncoders);
    }

    /** `preprocess(data)`; it reads the fields and writes none of them. */
    method Preprocess(data: Frame) returns (r: Result<Frame>)
      ensures r == ServingPreprocess(State(), data)
    {
      var df := DropCustomerId(data);
      df := HandleMissingValues(df);
      var encoded := TransformCategoricalVariables(df);
      if encoded.Err? {
        return Err(encoded.error);
      }
      df := encoded.value;
      if featureColumns.Some? {
        df := AlignColumns(df, featureColumns.value);
      }
      if fitted && scaler.Fitted? {
        var scaled := TransformColumns(scaler, df.columns, df.rows);
        if scaled.Ok? {
          return Ok(Frame(df.rows, scaled.value));
        }
      }
      r := Ok(df);
    }

    /** `transform(data)`, an alias of `preprocess`. */
    method Transform(data: Frame) returns (r: Result<Frame>)
      ensures r == ServingPreprocess(State(), data)
    {
      r := Preprocess(data);
    }
  }

  /** The fixed vocabularies of `create_simple_preprocessor`, in the dictionary's order. */
  const CategoricalMappings: seq<(string, seq<string>)> := [
    ("contract_type", ["Month-to-month", "One year", "Two year"]),
    ("payment_method", ["Electronic check", "Mailed check", "Bank transfer (automatic)", "Credit card (automatic)"]),
    ("paperless_billing", ["No", "Yes"]),
    ("internet_service", ["DSL", "Fiber optic", "No"]),
    ("online_security", ["No", "No internet service", "Yes"]),
    ("online_backup", ["No", "No internet service", "Yes"]),
    ("device_protection", ["No", "No internet service", "Yes"]),
    ("tech_support", ["No", "No internet service", "Yes"]),
    ("streaming_tv", ["No", "No internet service", "Yes"]),
    ("streaming_movies", ["No", "No internet service", "Yes"])]

  const SimpleNumerical: seq<string> := ["tenure", "monthly_charges", "total_charges"]

  /** `list(categorical_mappings.keys())` */
  function MappingNames(m: seq<(string, seq<string>)>): (r: seq<string>)
    ensures |r| == |m| && forall i :: 0 <= i < |m| ==> r[i] == m[i].0
  {
    seq(|m|, i requires 0 <= i < |m| => m[i].0)
  }

  /** The encoder dictionary the loop over the mappings builds: one fitted encoder per name. */
  function EncodersOf(m: seq<(string, seq<string>)>): (r: map<string, LabelEncoder>)
    ensures forall n :: n in r <==> n in MappingNames(m)
    decreases |m|
  {
    if |m| == 0 then map[]
    else
      var init := m[..|m| - 1];
      var last := m[|m| - 1];
      assert MappingNames(m) == MappingNames(init) + [last.0];
      EncodersOf(init)[last.0 := Fit(last.1)]
  }

  /** With distinct names, the encoder of each name is fitted on that name's values. */
  lemma {:induction false} EncodersOfBinding(m: seq<(string, seq<string>)>, i: nat)
    requires forall a, b :: 0 <= a < b < |m| ==> m[a].0 != m[b].0
    requires i < |m|
    ensures m[i].0 in EncodersOf(m) && EncodersOf(m)[m[i].0] == Fit(m[i].1)
    decreases |m|
  {
    if i < |m| - 1 {
      var init := m[..|m| - 1];
      assert init[i] == m[i];
      EncodersOfBinding(init, i);
    }
  }

  /** `sample_data`: a numeric column of integers. */
  function SampleColumn(name: string, values: seq<int>): (c: Column)
    ensures c.name == name && c.kind == Numeric && |c.cells| == |values|
    ensures forall j :: 0 <= j < |values| ==> c.cells[j] == Num(values[j] as real)
  {
    Column(name, Numeric, seq(|values|, j requires 0 <= j < |values| => Num(values[j] as real)))
  }

  /** The sample frame the scaler is fitted on, in the dictionary's order. */
  function SampleColumns(): seq<Column> {
    [SampleColumn("tenure", [1, 12, 24, 36, 48, 60, 72]),
     SampleColumn("monthly_charges", [20, 40, 60, 80, 100, 120, 140]),
     SampleColumn("total_charges", [20, 500, 1500, 3000, 5000, 7500, 10000]),
     SampleColumn("contract_type", [0, 1, 2, 0, 1, 2, 0]),
     SampleColumn("payment_method", [0, 1, 2, 3, 0, 1, 2]),
     SampleColumn("paperless_billing", [0, 1, 0, 1, 0, 1, 0]),
     SampleColumn("internet_service", [0, 1, 2, 0, 1, 2, 0]),
     SampleColumn("online_security", [0, 1, 2, 0, 1, 2, 0]),
     SampleColumn("online_backup", [0, 1, 2, 0, 1, 2, 0]),
     SampleColumn("device_protection", [0, 1, 2, 0, 1, 2, 0]),
     SampleColumn("tech_support", [0, 1, 2, 0, 1, 2, 0]),
     SampleColumn("streaming_tv", [0, 1, 2, 0, 1, 2, 0]),
     SampleColumn("streaming_movies", [0, 1, 2, 0, 1, 2, 0])]
  }

  /** Numerical columns first, then the categorical ones. */
  function SimpleFeatures(): seq<string> {
    SimpleNumerical + MappingNames(CategoricalMappings)
  }

  /** The scaler fitted on `sample_df[feature_columns]`; the fit cannot fail (see `SampleFits`). */
  function SimpleScaler(moments: MomentsOf): Scaler {
    var fit := FitScaler(SampleColumns(), 7, moments);
    if fit.Ok? then fit.value else Unfitted
  }

  /** The encoders `create_simple_preprocessor` fits on the fixed vocabularies. */
  function SimpleEncoders(): map<string, LabelEncoder> {
    EncodersOf(CategoricalMappings)
  }

  /** The fields `create_simple_preprocessor` sets, around a given scaler. */
  function PresetState(sc: Scaler): PreprocessorState {
    PreprocessorState(sc, EncodersOf(CategoricalMappings), true, Some(SimpleFeatures()), MappingNames(CategoricalMappings), SimpleNumerical)
  }

  /** The state `create_simple_preprocessor` returns. */
  function SimpleState(moments: MomentsOf): PreprocessorState {
    PresetState(SimpleScaler(moments))
  }

  /** `create_simple_preprocessor()` */
  method CreateSimplePreprocessor(moments: MomentsOf) returns (p: PredictionPreprocessor)
    ensures fresh(p) && p.State() == SimpleState(moments)
  {
    p := new PredictionPreprocessor();
    FitVocabularies(p, CategoricalMappings);
    p.categoricalColumns := MappingNames(CategoricalMappings);
    p.numericalColumns := SimpleNumerical;
    p.featureColumns := Some(p.numericalColumns + p.categoricalColumns);
    SampleSelected(moments);
    var sample := Select(SampleColumns(), p.featureColumns.value);
    p.scaler := FitScaler(sample, 7, moments).value;
    p.fitted := true;
  }

  /** The loop of `create_simple_preprocessor` over the mappings: one encoder fitted on
      each mapping's values, under its name; nothing else changes. */
  method FitVocabularies(p: PredictionPreprocessor, m: seq<(string, seq<string>)>)
    requires p.labelEncoders == map[]
    modifies p
    ensures p.State() == old(p.State()).(labelEncoders := EncodersOf(m))
  {
    var i := 0;
    while i < |m|
      invariant 0 <= i <= |m|
      invariant p.State() == old(p.State()).(labelEncoders := EncodersOf(m[..i]))
    {
      var (col, values) := m[i];
      assert m[..i + 1][..i] == m[..i];
      p.labelEncoders := p.labelEncoders[col := Fit(values)];
      i := i + 1;
    }
    assert m[..i] == m;
  }

  /** `sample_df[feature_columns]` is the sample frame itself, and fitting on it gives the
      preset scaler. */
  lemma SampleSelected(moments: MomentsOf)
    ensures Names(SampleColumns()) == SimpleFeatures()
    ensures Select(SampleColumns(), SimpleFeatures()) == SampleColumns()
    ensures FitScaler(SampleColumns(), 7, moments) == Ok(SimpleScaler(moments))
  {
    SampleFits(moments);
    SelectAll(SampleColumns());
  }

  /** The sample frame has the feature order as its column order, only numbers, and
      seven rows, so the scaler's fit succeeds and covers exactly the feature order. */
  lemma SampleFits(moments: MomentsOf)
    ensures Names(SampleColumns()) == SimpleFeatures() && DistinctNames(SampleColumns())
    ensures FitScaler(SampleColumns(), 7, moments).Ok?
    ensures SimpleScaler(moments).Fitted? && FeatureNames(SimpleScaler(moments).features) == SimpleFeatures()
  {
    SampleNames();
    SimpleFeaturesDistinct();
    SampleNumeric();
  }

  /** The sample frame's columns are named in the feature order. */
  lemma SampleNames()
    ensures Names(SampleColumns()) == SimpleFeatures()
  {
  }

  /** The sample frame holds numbers only. */
  lemma SampleNumeric()
    ensures !HasText(SampleColumns())
  {
    var cols := SampleColumns();
    forall i, j | 0 <= i < |cols| && 0 <= j < |cols[i].cells| ensures !cols[i].cells[j].Str? {
    }
  }

  /** The 13 feature names are distinct. */
  lemma SimpleFeaturesDistinct()
    ensures |SimpleFeatures()| == 13
    ensures forall a, b :: 0 <= a < b < 13 ==> SimpleFeatures()[a] != SimpleFeatures()[b]
  {
  }

  /** Each encoder the mapping loop builds has a sorted, non-empty vocabulary when every
      mapping lists at least one value. */
  lemma {:induction false} EncodersOfNonEmpty(m: seq<(string, seq<string>)>)
    requires forall i :: 0 <= i < |m| ==> |m[i].1| > 0
    ensures forall n :: n in EncodersOf(m) ==> |EncodersOf(m)[n].classes| > 0 && ValidEncoder(EncodersOf(m)[n])
    decreases |m|
  {
    if |m| > 0 {
      var last := m[|m| - 1];
      EncodersOfNonEmpty(m[..|m| - 1]);
      assert last.1[0] in Fit(last.1).classes;
    }
  }

  /** The ten mapping names are distinct. */
  lemma MappingsDistinct()
    ensures forall a, b :: 0 <= a < b < |CategoricalMappings| ==> CategoricalMappings[a].0 != CategoricalMappings[b].0
  {
    var m := CategoricalMappings;
    SimpleFeaturesDistinct();
    forall a, b | 0 <= a < b < |m| ensures m[a].0 != m[b].0 {
      assert SimpleFeatures()[a + 3] == m[a].0 && SimpleFeatures()[b + 3] == m[b].0;
    }
  }

  /** Around any scaler, the preset fields are: fitted, a feature order of the 3 numerical
      columns followed by the 10 categorical ones, and for each categorical column a
      non-empty sorted vocabulary and no other encoder. */
  lemma PresetShape(sc: Scaler)
    ensures var s := PresetState(sc);
      && s.fitted
      && s.numericalColumns == ["tenure", "monthly_charges", "total_charges"]
      && s.categoricalColumns == ["contract_type", "payment_method", "paperless_billing", "internet_service",
           "online_security", "online_backup", "device_protection", "tech_support", "streaming_tv", "streaming_movies"]
      && s.featureColumns == Some(s.numericalColumns + s.categoricalColumns)
      && |s.featureColumns.value| == 13
      && (forall n :: n in s.labelEncoders <==> n in s.categoricalColumns)
      && (forall n :: n in s.labelEncoders ==> |s.labelEncoders[n].classes| > 0 && ValidEncoder(s.labelEncoders[n]))
  {
    EncodersOfNonEmpty(CategoricalMappings);
  }

  /** `create_simple_preprocessor` leaves the preset fields around a scaler that covers
      exactly the feature order. */
  lemma SimpleShape(moments: MomentsOf)
    ensures SimpleState(moments) == PresetState(SimpleScaler(moments))
    ensures SimpleScaler(moments).Fitted? && ScaledFeatures(SimpleScaler(moments)) == SimpleFeatures()
  {
    SampleFits(moments);
  }

  /** The encoder of the `i`-th mapping is `Fit` of its values. */
  lemma SimpleEncoder(i: nat)
    requires i < |CategoricalMappings|
    ensures CategoricalMappings[i].0 in SimpleEncoders()
    ensures SimpleEncoders()[CategoricalMappings[i].0] == Fit(CategoricalMappings[i].1)
  {
    MappingsDistinct();
    EncodersOfBinding(CategoricalMappings, i);
  }

  /** Fitting on values of which `sorted` is the strictly sorted arrangement gives `sorted`. */
  lemma FitSorted(values: seq<string>, sorted: seq<string>)
    requires StrictlySorted(sorted) && forall v :: v in values <==> v in sorted
    ensures Fit(values).classes == sorted
  {
    SortedUnique(Fit(values).classes, sorted);
  }

  /** The fixed vocabularies are sorted as `LabelEncoder` sorts them: `paperless_billing`
      codes No as 0 and Yes as 1. */
  lemma SimplePaperlessBilling()
    ensures var e := SimpleEncoders();
      && "paperless_billing" in e
      && e["paperless_billing"].classes == ["No", "Yes"]
      && Code(e["paperless_billing"], Str("No")) == 0.0 && Code(e["paperless_billing"], Str("Yes")) == 1.0
  {
    SimpleEncoder(2);
    var yesNo := CategoricalMappings[2].1;
    assert yesNo == ["No", "Yes"];
    assert Less(yesNo[0], yesNo[1]);
    OrderedPairCodes(yesNo);
  }

  /** Two values already in order get the codes 0 and 1. */
  lemma OrderedPairCodes(values: seq<string>)
    requires |values| == 2 && Less(values[0], values[1])
    ensures Fit(values).classes == values
    ensures Code(Fit(values), Str(values[0])) == 0.0 && Code(Fit(values), Str(values[1])) == 1.0
  {
    assert StrictlySorted(values);
    FitSorted(values, values);
    PositionUnique(values, 0);
    PositionUnique(values, 1);
  }

  /** `payment_method` is coded in alphabetical order, not in the order the mapping lists it. */
  lemma SimplePaymentMethod()
    ensures var e := SimpleEncoders();
      && "payment_method" in e
      && e["payment_method"].classes
           == ["Bank transfer (automatic)", "Credit card (automatic)", "Electronic check", "Mailed check"]
      && Code(e["payment_method"], Str("Electronic check")) == 2.0
  {
    SimpleEncoder(1);
    var values := CategoricalMappings[1].1;
    assert values == ["Electronic check", "Mailed check", "Bank transfer (automatic)", "Credit card (automatic)"];
    assert Less(values[2], values[3]) && Less(values[3], values[0]) && Less(values[0], values[1]);
    RotatedClasses(values);
  }

  /** Four values whose sorted order starts at the third: the first is coded 2. */
  lemma RotatedClasses(values: seq<string>)
    requires |values| == 4 && Less(values[2], values[3]) && Less(values[3], values[0]) && Less(values[0], values[1])
    ensures Fit(values).classes == [values[2], values[3], values[0], values[1]]
    ensures Code(Fit(values), Str(values[0])) == 2.0
  {
    var sorted := [values[2], values[3], values[0], values[1]];
    LessTransitive(sorted[0], sorted[1], sorted[2]);
    LessTransitive(sorted[0], sorted[2], sorted[3]);
    LessTransitive(sorted[1], sorted[2], sorted[3]);
    assert StrictlySorted(sorted);
    assert forall v :: v in values <==> v in sorted;
    FitSorted(values, sorted);
    PositionUnique(sorted, 2);
  }

  /** `contract_type` keeps its listed order, which is already alphabetical. */
  lemma SimpleContractType()
    ensures var e := SimpleEncoders();
      && "contract_type" in e
      && e["contract_type"].classes == ["Month-to-month", "One year", "Two year"]
  {
    SimpleEncoder(0);
    var contract := CategoricalMappings[0].1;
    assert contract == ["Month-to-month", "One year", "Two year"];
    assert Less(contract[0], contract[1]) && Less(contract[1], contract[2]);
    OrderedTripleClasses(contract);
  }

  /** Three values already in order are their own vocabulary. */
  lemma OrderedTripleClasses(values: seq<string>)
    requires |values| == 3 && Less(values[0], values[1]) && Less(values[1], values[2])
    ensures Fit(values).classes == values
  {
    LessTransitive(values[0], values[1], values[2]);
    assert StrictlySorted(values);
    FitSorted(values, values);
  }

  /** Missing cells are filled with 0 in numeric columns, and in object columns with the
      encoder's first class, or `'Unknown'` without an encoder or with an empty vocabulary;
      present cells and columns without missing cells are untouched. */
  lemma ServingFillValues(encoders: map<string, LabelEncoder>, c: Column, j: nat)
    requires j < |c.cells|
    ensures !ColumnHasMissing(c) ==> ServingImputeColumn(encoders, c) == c
    ensures c.cells[j] != Missing ==> ServingImputeColumn(encoders, c).cells[j] == c.cells[j]
    ensures c.cells[j] == Missing && c.kind == Numeric ==> ServingImputeColumn(encoders, c).cells[j] == Num(0.0)
    ensures c.cells[j] == Missing && c.kind == Categorical ==>
      ServingImputeColumn(encoders, c).cells[j]
        == if c.name in encoders && |encoders[c.name].classes| > 0 then Str(encoders[c.name].classes[0]) else Str(Unknown)
  {
    if c.cells[j] == Missing {
      assert ColumnHasMissing(c);
    }
  }

  /** After `_handle_missing_values` no cell is missing. */
  lemma ServingImputedNoMissing(encoders: map<string, LabelEncoder>, f: Frame)
    ensures NoMissing(ServingImputed(encoders, f))
  {
    var g := ServingImputed(encoders, f);
    forall i, j | 0 <= i < |g.columns| && 0 <= j < |g.columns[i].cells|
      ensures g.columns[i].cells[j] != Missing
    {
      var c := f.columns[i];
      if !ColumnHasMissing(c) {
        assert g.columns[i] == c;
        assert c.cells[j] in c.cells;
      }
    }
  }

  /** Imputation keeps every column's name. */
  lemma ServingImputedNames(encoders: map<string, LabelEncoder>, f: Frame)
    ensures Names(ServingImputed(encoders, f).columns) == Names(f.columns)
  {
    var g := ServingImputed(encoders, f);
    assert forall i :: 0 <= i < |f.columns| ==> g.columns[i].name == f.columns[i].name;
  }

  /** `preprocess` keeps the number of rows; with a feature order its columns are exactly
      that order, otherwise the input's columns without `customer_id`; `customer_id` is
      absent unless the feature order itself lists it. */
  lemma ServingShape(s: PreprocessorState, data: Frame)
    requires ServingPreprocess(s, data).Ok?
    ensures var r := ServingPreprocess(s, data).value;
      && r.rows == data.rows
      && (s.featureColumns.Some? ==> Names(r.columns) == s.featureColumns.value)
      && (s.featureColumns.None? ==> Names(r.columns) == Names(DropCustomerId(data).columns))
      && ((s.featureColumns.None? || CustomerId !in s.featureColumns.value) ==> !HasColumn(r, CustomerId))
  {
    ServingImputedNames(s.labelEncoders, DropCustomerId(data));
  }

  /** An absent feature column is added as a column of zeros before scaling. */
  lemma ServingPadsWithZero(s: PreprocessorState, data: Frame, i: nat)
    requires ServingPrepared(s, data).Ok? && s.featureColumns.Some? && i < |s.featureColumns.value|
    requires s.featureColumns.value[i] !in Names(data.columns)
    ensures ServingPrepared(s, data).value.columns[i] == ZeroColumn(s.featureColumns.value[i], data.rows)
  {
    var name := s.featureColumns.value[i];
    var df := ServingImputed(s.labelEncoders, DropCustomerId(data));
    ServingImputedNames(s.labelEncoders, DropCustomerId(data));
    assert name !in Names(DropCustomerId(data).columns);
    var g := EncodeListed(df, s.categoricalColumns, s.labelEncoders).value;
    assert !HasColumn(g, name);
    AlignedPadsWithZero(g, s.featureColumns.value, i);
  }

  /** The scaling step either scales every column of the prepared frame, exactly when the
      preprocessor is fitted and the scaler accepts the frame (same features in the same
      order, no string, at least one row), or returns the prepared frame unscaled. */
  lemma ServingScaling(s: PreprocessorState, data: Frame)
    requires ServingPrepared(s, data).Ok?
    ensures var a := ServingPrepared(s, data).value;
      var accepted := s.fitted && s.scaler.Fitted? && Names(a.columns) == FeatureNames(s.scaler.features)
                      && !HasText(a.columns) && a.rows > 0;
      && ServingPreprocess(s, data).Ok?
      && (accepted ==> forall i :: 0 <= i < |a.columns| ==>
            ServingPreprocess(s, data).value.columns[i] == ScaleColumn(a.columns[i], s.scaler.features[i].moments))
      && (!accepted ==> ServingPreprocess(s, data).value == a)
  {
  }

  /** `preprocess` raises only when encoding raises, which needs a listed column whose
      encoder has an empty vocabulary; a preprocessor whose vocabularies are all
      non-empty never raises. */
  lemma ServingFailsOnlyInEncoding(s: PreprocessorState, data: Frame)
    ensures var df := ServingImputed(s.labelEncoders, DropCustomerId(data));
      ServingPreprocess(s, data).Err? <==> EncodeListed(df, s.categoricalColumns, s.labelEncoders).Err?
    ensures (forall n :: n in s.labelEncoders ==> |s.labelEncoders[n].classes| > 0) ==> ServingPreprocess(s, data).Ok?
  {
    var df := ServingImputed(s.labelEncoders, DropCustomerId(data));
    if forall n :: n in s.labelEncoders ==> |s.labelEncoders[n].classes| > 0 {
      EncodeListedNeverFails(df, s.categoricalColumns, s.labelEncoders);
    }
  }

  /** `customer_id` is dropped before anything else: its cells never influence the result. */
  lemma ServingIgnoresCustomerId(s: PreprocessorState, data: Frame)
    ensures ServingPreprocess(s, data) == ServingPreprocess(s, DropCustomerId(data))
  {
    assert DropCustomerId(DropCustomerId(data)) == DropCustomerId(data);
  }

  /** The simple preprocessor never raises and always returns the 13 feature columns in
      order, with the input's number of rows and no `customer_id`, whatever its scaler. */
  lemma SimpleNeverFails(sc: Scaler, data: Frame)
    ensures var r := ServingPreprocess(PresetState(sc), data);
      && r.Ok? && r.value.rows == data.rows && Names(r.value.columns) == SimpleFeatures()
      && !HasColumn(r.value, CustomerId)
  {
    EncodersOfNonEmpty(CategoricalMappings);
    CustomerIdNotFeature();
    FixedOrderNeverFails(PresetState(sc), data);
  }

  /** `customer_id` is not among the 13 feature names. */
  lemma CustomerIdNotFeature()
    ensures CustomerId !in SimpleFeatures()
  {
  }

  /** With a fixed feature order that does not name `customer_id` and only non-empty
      vocabularies, preprocessing never raises: it returns exactly the feature columns in
      order, with the input's number of rows. */
  lemma FixedOrderNeverFails(s: PreprocessorState, data: Frame)
    requires forall n :: n in s.labelEncoders ==> |s.labelEncoders[n].classes| > 0
    requires s.featureColumns.Some? && CustomerId !in s.featureColumns.value
    ensures var r := ServingPreprocess(s, data);
      && r.Ok? && r.value.rows == data.rows && Names(r.value.columns) == s.featureColumns.value
      && !HasColumn(r.value, CustomerId)
  {
    ServingFailsOnlyInEncoding(s, data);
    ServingShape(s, data);
  }
}
