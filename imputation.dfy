/** What `StandardDataPreprocessor._handle_missing_values` does to a frame: a numeric
    column with missing cells has them filled with its median (0.0 when it has no numbers
    at all), a categorical one with its mode (`'Unknown'` when it has no strings at all).
    Columns without missing cells are left as they are. */
module Imputation {
  import opened Wrappers
  import opened Frames
  import opened Statistics
  import opened LabelEncoding
  import opened Scaling

  const Unknown: string := "Unknown"

  /** `data[col].median()`, or the fallback 0.0 when the median is NaN. */
  function NumericFill(cells: seq<Cell>): real {
    var xs := NumValues(cells);
    if |xs| == 0 then 0.0 else Median(xs)
  }

  /** `data[col].mode()[0]`, or `'Unknown'` when the column has no value to count. */
  function CategoricalFill(cells: seq<Cell>): string {
    match Mode(StrValues(cells))
    case None => Unknown
    case Some(m) => m
  }

  function FillValue(c: Column): Cell {
    if c.kind == Numeric then Num(NumericFill(c.cells)) else Str(CategoricalFill(c.cells))
  }

  /** `fillna(v)` on a column's cells. */
  function Fill(cells: seq<Cell>, v: Cell): (r: seq<Cell>)
    ensures |r| == |cells|
    ensures forall j :: 0 <= j < |cells| ==> r[j] == if cells[j] == Missing then v else cells[j]
  {
    seq(|cells|, j requires 0 <= j < |cells| => if cells[j] == Missing then v else cells[j])
  }

  function ImputeColumn(c: Column): Column {
    if ColumnHasMissing(c) then Column(c.name, c.kind, Fill(c.cells, FillValue(c))) else c
  }

  function Imputed(f: Frame): (r: Frame)
    ensures r.rows == f.rows && |r.columns| == |f.columns|
    ensures forall i :: 0 <= i < |f.columns| ==> r.columns[i] == ImputeColumn(f.columns[i])
  {
    Frame(f.rows, seq(|f.columns|, i requires 0 <= i < |f.columns| => ImputeColumn(f.columns[i])))
  }

  /** Imputation keeps every column's name, kind and length, hence the frame's column names. */
  lemma ImputedShape(f: Frame)
    ensures Imputed(f).rows == f.rows && Names(Imputed(f).columns) == Names(f.columns)
    ensures forall i :: 0 <= i < |f.columns| ==>
      Imputed(f).columns[i].kind == f.columns[i].kind && |Imputed(f).columns[i].cells| == |f.columns[i].cells|
  {
    var g := Imputed(f);
    assert forall i :: 0 <= i < |f.columns| ==> g.columns[i].name == f.columns[i].name;
  }

  /** After imputation no cell is missing. */
  lemma ImputedNoMissing(f: Frame)
    ensures NoMissing(Imputed(f))
  {
    var g := Imputed(f);
    forall i, j | 0 <= i < |g.columns| && 0 <= j < |g.columns[i].cells|
      ensures g.columns[i].cells[j] != Missing
    {
      var c := f.columns[i];
      if !ColumnHasMissing(c) {
        assert g.columns[i] == c;
        assert c.cells[j] in c.cells;
      }
    }
  }

  /** A well-formed frame stays well-formed: the fill value has the column's kind. */
  lemma ImputedWellFormed(f: Frame)
    requires WellFormed(f)
    ensures WellFormed(Imputed(f))
  {
    ImputedShape(f);
  }

  /** Only missing cells change; a column without missing cells is returned untouched. */
  lemma ImputeChangesOnlyMissing(c: Column)
    ensures !ColumnHasMissing(c) ==> ImputeColumn(c) == c
    ensures forall j :: 0 <= j < |c.cells| && c.cells[j] != Missing ==> ImputeColumn(c).cells[j] == c.cells[j]
    ensures forall j :: 0 <= j < |c.cells| && c.cells[j] == Missing ==> ImputeColumn(c).cells[j] == FillValue(c)
  {
  }

  /** Imputing twice is imputing once. */
  lemma ImputeIdempotent(f: Frame)
    ensures Imputed(Imputed(f)) == Imputed(f)
  {
    var g := Imputed(f);
    forall i | 0 <= i < |g.columns| ensures ImputeColumn(g.columns[i]) == g.columns[i] {
      ImputedNoMissing(f);
      assert forall j :: 0 <= j < |g.columns[i].cells| ==> g.columns[i].cells[j] != Missing;
      assert !ColumnHasMissing(g.columns[i]);
    }
  }

  /** A column with nothing but missing cells becomes all 0.0 if numeric, all `'Unknown'` if not. */
  lemma AllMissingDefaults(c: Column)
    requires |c.cells| > 0 && forall j :: 0 <= j < |c.cells| ==> c.cells[j] == Missing
    ensures c.kind == Numeric ==> forall j :: 0 <= j < |c.cells| ==> ImputeColumn(c).cells[j] == Num(0.0)
    ensures c.kind == Categorical ==> forall j :: 0 <= j < |c.cells| ==> ImputeColumn(c).cells[j] == Str(Unknown)
  {
    assert c.cells[0] in c.cells;
    assert NumValues(c.cells) == [] && StrValues(c.cells) == [];
  }

  /** A missing categorical cell takes a most frequent string of its column, the smallest
      one when several are equally frequent. */
  lemma CategoricalFillIsMode(c: Column, j: nat)
    requires c.kind == Categorical && j < |c.cells| && c.cells[j] == Missing
    requires exists s :: Str(s) in c.cells
    ensures var w := CategoricalFill(c.cells);
      && ImputeColumn(c).cells[j] == Str(w)
      && Str(w) in c.cells
      && (forall v :: Count(StrValues(c.cells), v) <= Count(StrValues(c.cells), w))
      && (forall v :: v != w && Count(StrValues(c.cells), v) == Count(StrValues(c.cells), w) ==> Text.Less(w, v))
  {
    var s :| Str(s) in c.cells;
    assert s in StrValues(c.cells);
    assert c.cells[j] in c.cells;
  }

  /** A missing numeric cell takes a value between the column's smallest and largest numbers. */
  lemma NumericFillIsMedian(c: Column, j: nat)
    requires c.kind == Numeric && j < |c.cells| && c.cells[j] == Missing
    requires exists x :: Num(x) in c.cells
    ensures ImputeColumn(c).cells[j] == Num(NumericFill(c.cells))
    ensures exists x, y :: Num(x) in c.cells && Num(y) in c.cells && x <= NumericFill(c.cells) <= y
  {
    var x :| Num(x) in c.cells;
    assert x in NumValues(c.cells);
    assert c.cells[j] in c.cells;
    var xs := NumValues(c.cells);
    var m := Median(xs);
    var i :| 0 <= i < |xs| && xs[i] <= m;
    var k :| 0 <= k < |xs| && m <= xs[k];
    assert xs[i] in xs && xs[k] in xs;
  }
}
