/** scikit-learn's `LabelEncoder` as both preprocessors use it: a sorted vocabulary
    (`classes_`) with index lookup, and the substitution of `classes_[0]` for values
    outside the vocabulary that both preprocessors apply before `transform`. */
module LabelEncoding {
  import opened Wrappers
  import opened Text
  import opened Frames

  datatype LabelEncoder = LabelEncoder(classes: seq<string>)

  ghost predicate ValidEncoder(e: LabelEncoder) {
    StrictlySorted(e.classes)
  }

  /** The string values of a column; other cells are not part of a vocabulary. */
  function StrValues(cells: seq<Cell>): (r: seq<string>)
    ensures forall s :: s in r <==> Str(s) in cells
    ensures (forall j :: 0 <= j < |cells| ==> !cells[j].Str?) ==> r == []
    decreases |cells|
  {
    if |cells| == 0 then []
    else
      var init := cells[..|cells| - 1];
      var last := cells[|cells| - 1];
      assert cells == init + [last];
      StrValues(init) + (if last.Str? then [last.text] else [])
  }

  /** `LabelEncoder().fit(values)`: the vocabulary is the sorted set of values. */
  function Fit(values: seq<string>): (e: LabelEncoder)
    ensures ValidEncoder(e)
    ensures forall s :: s in e.classes <==> s in values
  {
    LabelEncoder(SortedDistinct(values))
  }

  /** A cell the encoder knows: `df[col].isin(encoder.classes_)`. */
  predicate Seen(e: LabelEncoder, c: Cell) {
    c.Str? && c.text in e.classes
  }

  /** The code of a cell after substitution: its index in the vocabulary when it is
      known, otherwise the index of `classes_[0]`, which is 0. */
  function Code(e: LabelEncoder, c: Cell): real {
    if Seen(e, c) then Position(e.classes, c.text) as real else 0.0
  }

  /** Substitute unseen values by `classes_[0]`, then `encoder.transform` the column.
      The substitution indexes `classes_[0]` only when some cell is unseen, and that
      raises `IndexError` when the vocabulary is empty. */
  function EncodeColumn(e: LabelEncoder, col: Column): (r: Result<Column>)
    ensures r.Ok? ==> r.value.name == col.name && r.value.kind == Numeric && |r.value.cells| == |col.cells|
  {
    if |e.classes| == 0 && exists j :: 0 <= j < |col.cells| && !Seen(e, col.cells[j]) then
      Err("index 0 is out of bounds for axis 0 with size 0")
    else
      Ok(Column(col.name, Numeric, seq(|col.cells|, j requires 0 <= j < |col.cells| => Num(Code(e, col.cells[j])))))
  }

  /** `encoder.transform(column)` with no substitution first, as `fit_transform` and the
      target column use it: a value outside the vocabulary raises. */
  function TransformStrict(e: LabelEncoder, col: Column): (r: Result<Column>)
    ensures r.Ok? <==> forall j :: 0 <= j < |col.cells| ==> Seen(e, col.cells[j])
    ensures r.Ok? ==> r == EncodeColumn(e, col)
  {
    if exists j :: 0 <= j < |col.cells| && !Seen(e, col.cells[j]) then
      Err("y contains previously unseen labels")
    else
      EncodeColumn(e, col)
  }

  /** Encoding never fails when the vocabulary is not empty (unseen values are substituted),
      nor on an empty column. */
  lemma EncodeColumnFailsOnlyOnEmptyVocabulary(e: LabelEncoder, col: Column)
    ensures EncodeColumn(e, col).Err? <==> |e.classes| == 0 && |col.cells| > 0
  {
    if |e.classes| == 0 && |col.cells| > 0 {
      assert !Seen(e, col.cells[0]);
    }
  }

  /** A known category encodes to its index in the sorted vocabulary; an unseen one to 0,
      the code of `classes_[0]`, so an unseen value is encoded exactly as `classes_[0]`
      would be; every code is within the vocabulary. */
  lemma EncodeColumnCodes(e: LabelEncoder, col: Column, j: nat)
    requires ValidEncoder(e) && j < |col.cells| && EncodeColumn(e, col).Ok?
    ensures var c := EncodeColumn(e, col).value.cells[j];
      && (forall s :: col.cells[j] == Str(s) && s in e.classes ==>
            c == Num(Position(e.classes, s) as real) && e.classes[Position(e.classes, s)] == s)
      && (!Seen(e, col.cells[j]) ==> |e.classes| > 0 && c == Num(0.0) && c == Num(Code(e, Str(e.classes[0]))))
      && 0.0 <= c.value < |e.classes| as real
  {
  }

  /** Two values a valid encoder knows get the same code exactly when they are equal. */
  lemma CodesInjective(e: LabelEncoder, s: string, t: string)
    requires ValidEncoder(e) && s in e.classes && t in e.classes
    ensures Code(e, Str(s)) == Code(e, Str(t)) <==> s == t
  {
  }

  /** When the encoder was fitted on the column itself, nothing is substituted:
      every string is coded by its own index. */
  lemma FitThenEncode(col: Column, j: nat)
    requires j < |col.cells| && col.cells[j].Str?
    ensures EncodeColumn(Fit(StrValues(col.cells)), col).Ok?
    ensures EncodeColumn(Fit(StrValues(col.cells)), col).value.cells[j]
         == Num(Position(Fit(StrValues(col.cells)).classes, col.cells[j].text) as real)
  {
    var e := Fit(StrValues(col.cells));
    assert col.cells[j].text in e.classes;
    EncodeColumnFailsOnlyOnEmptyVocabulary(e, col);
  }

  /** Encode the column called `name` if the frame has it and there is an encoder for it. */
  function EncodeNamed(g: Frame, name: string, encoders: map<string, LabelEncoder>): (r: Result<Frame>)
    ensures r.Ok? ==> r.value.rows == g.rows && Names(r.value.columns) == Names(g.columns)
  {
    if HasColumn(g, name) && name in encoders then
      var k := IndexOf(g.columns, name);
      match EncodeColumn(encoders[name], g.columns[k])
      case Err(e) => Err(e)
      case Ok(c) =>
        var cols := g.columns[k := c];
        assert Names(cols) == Names(g.columns);
        Ok(Frame(g.rows, cols))
    else Ok(g)
  }

  /** The loop shared by `StandardDataPreprocessor.transform` and
      `PredictionPreprocessor._transform_categorical_variables`: every listed column the
      frame has and an encoder exists for is encoded, in list order; the first failure aborts. */
  function EncodeListed(f: Frame, names: seq<string>, encoders: map<string, LabelEncoder>): (r: Result<Frame>)
    ensures r.Ok? ==> r.value.rows == f.rows && Names(r.value.columns) == Names(f.columns)
    decreases |names|
  {
    if |names| == 0 then Ok(f)
    else
      match EncodeListed(f, names[..|names| - 1], encoders)
      case Err(e) => Err(e)
      case Ok(g) => EncodeNamed(g, names[|names| - 1], encoders)
  }

  method ApplyEncoders(df: Frame, categoricalColumns: seq<string>, encoders: map<string, LabelEncoder>)
    returns (r: Result<Frame>)
    ensures r == EncodeListed(df, categoricalColumns, encoders)
  {
    var g := df;
    var i := 0;
    while i < |categoricalColumns|
      invariant 0 <= i <= |categoricalColumns|
      invariant EncodeListed(df, categoricalColumns[..i], encoders) == Ok(g)
    {
      var col := categoricalColumns[i];
      assert categoricalColumns[..i + 1][..i] == categoricalColumns[..i];
      if HasColumn(g, col) && col in encoders {
        var k := IndexOf(g.columns, col);
        var encoded := EncodeColumn(encoders[col], g.columns[k]);
        if encoded.Err? {
          EncodeListedFailureIsFinal(df, categoricalColumns, encoders, i + 1);
          return Err(encoded.error);
        }
        g := Frame(g.rows, g.columns[k := encoded.value]);
      }
      i := i + 1;
    }
    assert categoricalColumns[..i] == categoricalColumns;
    r := Ok(g);
  }

  /** Once a prefix of the list fails, the whole list fails with the same error. */
  lemma {:induction false} EncodeListedFailureIsFinal(f: Frame, names: seq<string>, encoders: map<string, LabelEncoder>, k: nat)
    requires k <= |names| && EncodeListed(f, names[..k], encoders).Err?
    ensures EncodeListed(f, names, encoders) == EncodeListed(f, names[..k], encoders)
    decreases |names| - k
  {
    if k < |names| {
      var init := names[..|names| - 1];
      assert init[..k] == names[..k];
      EncodeListedFailureIsFinal(f, init, encoders, k);
    } else {
      assert names[..k] == names;
    }
  }

  /** No listed column can fail when every encoder has a non-empty vocabulary. */
  lemma {:induction false} EncodeListedNeverFails(f: Frame, names: seq<string>, encoders: map<string, LabelEncoder>)
    requires forall n :: n in encoders ==> |encoders[n].classes| > 0
    ensures EncodeListed(f, names, encoders).Ok?
    decreases |names|
  {
    if |names| > 0 {
      EncodeListedNeverFails(f, names[..|names| - 1], encoders);
      var g := EncodeListed(f, names[..|names| - 1], encoders).value;
      var name := names[|names| - 1];
      if HasColumn(g, name) && name in encoders {
        EncodeColumnFailsOnlyOnEmptyVocabulary(encoders[name], g.columns[IndexOf(g.columns, name)]);
      }
    }
  }

  /** With distinct listed names and distinct column names, column `j` of the result is
      the encoding of column `j` of the input if it is listed and has an encoder, and is
      untouched otherwise. */
  lemma {:induction false} EncodeListedColumn(f: Frame, names: seq<string>, encoders: map<string, LabelEncoder>, j: nat)
    requires DistinctNames(f.columns) && j < |f.columns|
    requires forall a, b :: 0 <= a < b < |names| ==> names[a] != names[b]
    requires EncodeListed(f, names, encoders).Ok?
    ensures var out := EncodeListed(f, names, encoders).value.columns;
      var c := f.columns[j];
      if c.name in names && c.name in encoders then EncodeColumn(encoders[c.name], c) == Ok(out[j])
      else out[j] == c
    decreases |names|
  {
    if |names| > 0 {
      var init := names[..|names| - 1];
      var name := names[|names| - 1];
      EncodeListedColumn(f, init, encoders, j);
      var g := EncodeListed(f, init, encoders).value;
      assert DistinctNames(g.columns);
      var c := f.columns[j];
      assert g.columns[j].name == c.name by {
        assert Names(g.columns)[j] == Names(f.columns)[j];
      }
      assert c.name in names <==> c.name in init || c.name == name;
      if c.name == name {
        assert name !in init;
      }
      if HasColumn(g, name) && name in encoders {
        IndexOfDistinct(g.columns, j);
      }
    }
  }
}
