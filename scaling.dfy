/** scikit-learn's `StandardScaler` as the two preprocessors use it. The mean and scale
    of a feature are computed by NumPy; the model takes them from a function `moments`
    of the feature's non-missing values and keeps only what the scaler does with them:
    which features it was fitted on, when `fit` and `transform` raise, and the map
    `x -> (x - mean) / scale` applied cell by cell, with NaN passed through. */
module Scaling {
  import opened Wrappers
  import opened Frames

  /** `scale_` is never zero: scikit-learn replaces a zero standard deviation by 1. */
  type Scale = r: real | r > 0.0 witness 1.0

  datatype Moments = Moments(mean: real, scale: Scale)

  /** The statistics NumPy computes for one feature from its non-missing values. */
  type MomentsOf = seq<real> -> Moments

  datatype Feature = Feature(name: string, moments: Moments)

  /** A scaler before `fit`, or after it: `feature_names_in_`, `mean_` and `scale_`, feature by feature. */
  datatype Scaler = Unfitted | Fitted(features: seq<Feature>)

  // The fixed text of each message; the shapes, values and names the libraries add are dropped.
  const NotFitted: string := "This StandardScaler instance is not fitted yet. Call 'fit' with appropriate arguments before using this estimator."
  const NamesDiffer: string := "The feature names should match those that were passed during fit."
  const NotNumeric: string := "could not convert string to float"
  const NoSamples: string := "Found array with 0 sample(s) while a minimum of 1 is required by StandardScaler."
  const NoFeatures: string := "Found array with 0 feature(s) while a minimum of 1 is required by StandardScaler."

  function FeatureNames(fs: seq<Feature>): (r: seq<string>)
    ensures |r| == |fs|
    ensures forall i :: 0 <= i < |fs| ==> r[i] == fs[i].name
  {
    seq(|fs|, i requires 0 <= i < |fs| => fs[i].name)
  }

  /** The numbers of a column; NaN is disregarded by `fit`. */
  function NumValues(cells: seq<Cell>): (r: seq<real>)
    ensures forall x :: x in r <==> Num(x) in cells
    ensures (forall j :: 0 <= j < |cells| ==> !cells[j].Num?) ==> r == []
    decreases |cells|
  {
    if |cells| == 0 then []
    else
      var init := cells[..|cells| - 1];
      var last := cells[|cells| - 1];
      assert cells == init + [last];
      NumValues(init) + (if last.Num? then [last.value] else [])
  }

  /** Some cell of some column is a string. The model treats every string as one NumPy cannot
      convert to float; numeric strings, which NumPy parses, are not told apart. */
  predicate HasText(cols: seq<Column>) {
    exists i, j :: 0 <= i < |cols| && 0 <= j < |cols[i].cells| && cols[i].cells[j].Str?
  }

  function ScaleCell(c: Cell, m: Moments): Cell {
    if c.Num? then Num((c.value - m.mean) / m.scale) else c
  }

  function UnscaleCell(c: Cell, m: Moments): Cell {
    if c.Num? then Num(c.value * m.scale + m.mean) else c
  }

  /** One feature through the fitted map; the result is a float column. */
  function ScaleColumn(c: Column, m: Moments): (r: Column)
    ensures r.name == c.name && r.kind == Numeric && |r.cells| == |c.cells|
    ensures forall j :: 0 <= j < |c.cells| ==> r.cells[j] == ScaleCell(c.cells[j], m)
  {
    Column(c.name, Numeric, seq(|c.cells|, j requires 0 <= j < |c.cells| => ScaleCell(c.cells[j], m)))
  }

  /** `StandardScaler().fit(df[cols])`, with `rows` the length of the frame's index:
      the scaler remembers the columns' names, in order, and each column's moments. */
  function FitScaler(cols: seq<Column>, rows: nat, moments: MomentsOf): (r: Result<Scaler>)
    ensures r.Ok? <==> !HasText(cols) && rows > 0 && |cols| > 0
    ensures r.Ok? ==> r.value.Fitted? && FeatureNames(r.value.features) == Names(cols)
  {
    if HasText(cols) then Err(NotNumeric)
    else if rows == 0 then Err(NoSamples)
    else if |cols| == 0 then Err(NoFeatures)
    else Ok(Fitted(seq(|cols|, i requires 0 <= i < |cols| => Feature(cols[i].name, moments(NumValues(cols[i].cells))))))
  }

  /** `scaler.transform(df[cols])`: refused before `fit`, when the columns are not the
      fitted features in the fitted order, when a cell is a string, and on an empty frame. */
  function TransformColumns(s: Scaler, cols: seq<Column>, rows: nat): (r: Result<seq<Column>>)
    ensures r.Ok? <==> s.Fitted? && Names(cols) == FeatureNames(s.features) && !HasText(cols) && rows > 0
    ensures s.Unfitted? ==> r == Err(NotFitted)
    ensures r.Ok? ==> Names(r.value) == Names(cols)
    ensures r.Ok? ==> forall i :: 0 <= i < |cols| ==> r.value[i] == ScaleColumn(cols[i], s.features[i].moments)
  {
    if s.Unfitted? then Err(NotFitted)
    else if Names(cols) != FeatureNames(s.features) then Err(NamesDiffer)
    else if HasText(cols) then Err(NotNumeric)
    else if rows == 0 then Err(NoSamples)
    else Ok(seq(|cols|, i requires 0 <= i < |cols| && |cols| == |s.features| => ScaleColumn(cols[i], s.features[i].moments)))
  }

  /** `scaler.inverse_transform`, the partner of `TransformColumns`. */
  function InverseColumns(s: Scaler, cols: seq<Column>): (r: seq<Column>)
    requires s.Fitted? && |cols| == |s.features|
    ensures |r| == |cols|
  {
    seq(|cols|, i requires 0 <= i < |cols| =>
      Column(cols[i].name, cols[i].kind, seq(|cols[i].cells|, j requires 0 <= j < |cols[i].cells| =>
        UnscaleCell(cols[i].cells[j], s.features[i].moments))))
  }

  /** Scaling loses nothing: the inverse map gives every cell back. */
  lemma InverseUndoesTransform(s: Scaler, cols: seq<Column>, rows: nat)
    requires TransformColumns(s, cols, rows).Ok?
    ensures forall i, j :: 0 <= i < |cols| && 0 <= j < |cols[i].cells| ==>
      InverseColumns(s, TransformColumns(s, cols, rows).value)[i].cells[j] == cols[i].cells[j]
  {
    var out := TransformColumns(s, cols, rows).value;
    forall i, j | 0 <= i < |cols| && 0 <= j < |cols[i].cells|
      ensures InverseColumns(s, out)[i].cells[j] == cols[i].cells[j]
    {
      var m := s.features[i].moments;
      var c := cols[i].cells[j];
      assert out[i].cells[j] == ScaleCell(c, m);
      if c.Num? {
        var y := (c.value - m.mean) / m.scale;
        assert y * m.scale == c.value - m.mean;
      }
    }
  }

  /** `fit_transform`: a fit that succeeds is followed by a transform that succeeds. */
  lemma FitThenTransform(cols: seq<Column>, rows: nat, moments: MomentsOf)
    requires FitScaler(cols, rows, moments).Ok?
    ensures TransformColumns(FitScaler(cols, rows, moments).value, cols, rows).Ok?
  {
  }

  /** Scaling never brings a missing value in, and keeps every missing value. */
  lemma ScaleKeepsMissing(c: Column, m: Moments, j: nat)
    requires j < |c.cells|
    ensures ScaleColumn(c, m).cells[j] == Missing <==> c.cells[j] == Missing
  {
  }
}
