/** An abstract pandas DataFrame: an ordered sequence of named columns, each
    tagged numeric or categorical (`select_dtypes(include=[np.number])` versus
    `select_dtypes(include=['object'])`), each holding one optional value per row. */
module Frames {
  import Text

  /** One cell: NaN/None, a number, or a string. */
  datatype Cell = Missing | Num(value: real) | Str(text: string)

  datatype Kind = Numeric | Categorical

  datatype Column = Column(name: string, kind: Kind, cells: seq<Cell>)

  /** `rows` is the length of the frame's index, which a frame without columns still has. */
  datatype Frame = Frame(rows: nat, columns: seq<Column>)

  /** The identifier column both preprocessors drop first. */
  const CustomerId: string := "customer_id"

  function Names(cols: seq<Column>): (r: seq<string>)
    ensures |r| == |cols|
    ensures forall i :: 0 <= i < |cols| ==> r[i] == cols[i].name
  {
    seq(|cols|, i requires 0 <= i < |cols| => cols[i].name)
  }

  predicate HasColumn(f: Frame, name: string) {
    name in Names(f.columns)
  }

  ghost predicate DistinctNames(cols: seq<Column>) {
    forall i, j :: 0 <= i < j < |cols| ==> cols[i].name != cols[j].name
  }

  /** A cell agrees with its column's tag: numbers in numeric columns, strings in object columns. */
  predicate CellOfKind(c: Cell, k: Kind) {
    match c
    case Missing => true
    case Num(_) => k == Numeric
    case Str(_) => k == Categorical
  }

  /** What every frame built by pandas satisfies. */
  ghost predicate WellFormed(f: Frame) {
    && DistinctNames(f.columns)
    && (forall i :: 0 <= i < |f.columns| ==> |f.columns[i].cells| == f.rows)
    && (forall i, j :: 0 <= i < |f.columns| && 0 <= j < |f.columns[i].cells| ==>
          CellOfKind(f.columns[i].cells[j], f.columns[i].kind))
  }

  predicate ColumnHasMissing(c: Column) {
    Missing in c.cells
  }

  /** `not df.isnull().any().any()` */
  ghost predicate NoMissing(f: Frame) {
    forall i, j :: 0 <= i < |f.columns| && 0 <= j < |f.columns[i].cells| ==> f.columns[i].cells[j] != Missing
  }

  /** Index of the first column called `name`. */
  function IndexOf(cols: seq<Column>, name: string): (i: nat)
    requires name in Names(cols)
    ensures i < |cols| && cols[i].name == name
    ensures forall j :: 0 <= j < i ==> cols[j].name != name
  {
    if cols[0].name == name then 0
    else
      assert Names(cols[1..]) == Names(cols)[1..];
      IndexOf(cols[1..], name) + 1
  }

  /** `df[name]` */
  function Lookup(cols: seq<Column>, name: string): (c: Column)
    requires name in Names(cols)
    ensures c in cols && c.name == name
  {
    cols[IndexOf(cols, name)]
  }

  lemma IndexOfDistinct(cols: seq<Column>, j: nat)
    requires DistinctNames(cols) && j < |cols|
    ensures IndexOf(cols, cols[j].name) == j
  {
  }

  /** Selecting all of a frame's columns by name, in order, gives the frame's columns back. */
  lemma SelectAll(cols: seq<Column>)
    requires DistinctNames(cols)
    ensures Select(cols, Names(cols)) == cols
  {
    forall i | 0 <= i < |cols| ensures Select(cols, Names(cols))[i] == cols[i] {
      IndexOfDistinct(cols, i);
    }
  }

  /** The columns not called `name`, in their order (`df.drop(columns=[name])`). */
  function Without(cols: seq<Column>, name: string): (r: seq<Column>)
    ensures name !in Names(r)
    ensures forall c :: c in r <==> c in cols && c.name != name
    ensures |r| <= |cols|
  {
    if |cols| == 0 then []
    else
      var rest := Without(cols[1..], name);
      assert forall c :: c in cols <==> c == cols[0] || c in cols[1..] by {
        assert cols == [cols[0]] + cols[1..];
      }
      if cols[0].name == name then rest else [cols[0]] + rest
  }

  /** The names other than `name`, in their order. */
  function NamesWithout(names: seq<string>, name: string): (r: seq<string>)
    ensures name !in r
    ensures forall n :: n in r <==> n in names && n != name
  {
    if |names| == 0 then []
    else
      var rest := NamesWithout(names[1..], name);
      assert forall n :: n in names <==> n == names[0] || n in names[1..] by {
        assert names == [names[0]] + names[1..];
      }
      if names[0] == name then rest else [names[0]] + rest
  }

  /** Dropping is a filter: it distributes over concatenation, so the kept columns stay in
      their order and every column of another name survives, duplicates included. */
  lemma {:induction false} WithoutAppend(a: seq<Column>, b: seq<Column>, name: string)
    ensures Without(a + b, name) == Without(a, name) + Without(b, name)
    decreases |a|
  {
    if |a| > 0 {
      assert (a + b)[0] == a[0];
      assert (a + b)[1..] == a[1..] + b;
      WithoutAppend(a[1..], b, name);
    } else {
      assert a + b == b;
    }
  }

  /** Dropping a name the frame lacks keeps every column. */
  lemma {:induction false} WithoutAbsent(cols: seq<Column>, name: string)
    requires name !in Names(cols)
    ensures Without(cols, name) == cols
    decreases |cols|
  {
    if |cols| > 0 {
      var tail := cols[1..];
      assert cols[0].name != name by {
        assert Names(cols)[0] == cols[0].name;
      }
      assert name !in Names(tail) by {
        assert forall j :: 0 <= j < |tail| ==> Names(tail)[j] == Names(cols)[j + 1];
      }
      WithoutAbsent(tail, name);
      assert Without(cols, name) == [cols[0]] + Without(tail, name);
      assert [cols[0]] + tail == cols;
    }
  }

  /** Dropping the name of one column of a frame with distinct names removes exactly that
      column and keeps the others in their order. */
  lemma {:induction false} WithoutSplice(cols: seq<Column>, name: string)
    requires DistinctNames(cols) && name in Names(cols)
    ensures Without(cols, name) == cols[..IndexOf(cols, name)] + cols[IndexOf(cols, name) + 1..]
    decreases |cols|
  {
    var tail := cols[1..];
    if cols[0].name == name {
      HeadNotInTail(cols);
      WithoutAbsent(tail, name);
    } else {
      IndexOfTail(cols, name);
      DistinctTail(cols);
      WithoutSplice(tail, name);
      WithoutCons(cols, name);
      SpliceCons(cols, IndexOf(tail, name));
    }
  }

  lemma WithoutCons(cols: seq<Column>, name: string)
    requires |cols| > 0 && cols[0].name != name
    ensures Without(cols, name) == [cols[0]] + Without(cols[1..], name)
  {
  }

  lemma SpliceCons<T>(s: seq<T>, k: nat)
    requires k + 1 < |s|
    ensures [s[0]] + (s[1..][..k] + s[1..][k + 1..]) == s[..k + 1] + s[k + 2..]
  {
    assert s[..k + 1] == [s[0]] + s[1..][..k];
    assert s[k + 2..] == s[1..][k + 1..];
  }

  lemma HeadNotInTail(cols: seq<Column>)
    requires DistinctNames(cols) && |cols| > 0
    ensures cols[0].name !in Names(cols[1..])
  {
    assert forall j :: 0 <= j < |cols| - 1 ==> Names(cols[1..])[j] == cols[j + 1].name;
  }

  lemma DistinctTail(cols: seq<Column>)
    requires DistinctNames(cols) && |cols| > 0
    ensures DistinctNames(cols[1..])
  {
    assert forall i :: 0 <= i < |cols| - 1 ==> cols[1..][i] == cols[i + 1];
  }

  lemma IndexOfTail(cols: seq<Column>, name: string)
    requires name in Names(cols) && cols[0].name != name
    ensures name in Names(cols[1..]) && IndexOf(cols, name) == IndexOf(cols[1..], name) + 1
  {
    var k := IndexOf(cols, name);
    assert Names(cols[1..])[k - 1] == name;
  }

  /** Both facts at once, for any frame: what `df.drop(columns=[name])` leaves, in order. */
  lemma DropInOrder(cols: seq<Column>, name: string)
    ensures name !in Names(cols) ==> Without(cols, name) == cols
    ensures DistinctNames(cols) && name in Names(cols) ==>
      Without(cols, name) == cols[..IndexOf(cols, name)] + cols[IndexOf(cols, name) + 1..]
  {
    if name !in Names(cols) {
      WithoutAbsent(cols, name);
    } else if DistinctNames(cols) {
      WithoutSplice(cols, name);
    }
  }

  ghost predicate DistinctStrings(names: seq<string>) {
    forall i, j :: 0 <= i < j < |names| ==> names[i] != names[j]
  }

  /** The same two facts for a list of names. */
  lemma {:induction false} NamesWithoutInOrder(names: seq<string>, name: string)
    ensures name !in names ==> NamesWithout(names, name) == names
    ensures DistinctStrings(names) && name in names ==>
      NamesWithout(names, name) == names[..Text.Position(names, name)] + names[Text.Position(names, name) + 1..]
    decreases |names|
  {
    if |names| > 0 {
      var tail := names[1..];
      assert names == [names[0]] + tail;
      NamesWithoutInOrder(tail, name);
      if names[0] == name {
        if DistinctStrings(names) {
          assert name !in tail by {
            assert forall j :: 0 <= j < |tail| ==> tail[j] == names[j + 1];
          }
        }
      } else {
        assert NamesWithout(names, name) == [names[0]] + NamesWithout(tail, name);
        if DistinctStrings(names) && name in names {
          assert DistinctStrings(tail) by {
            assert forall j :: 0 <= j < |tail| ==> tail[j] == names[j + 1];
          }
          assert Text.Position(names, name) == Text.Position(tail, name) + 1;
          SpliceCons(names, Text.Position(tail, name));
        }
      }
    }
  }

  lemma NamesCons(c: Column, cols: seq<Column>)
    ensures Names([c] + cols) == [c.name] + Names(cols)
  {
  }

  lemma {:induction false} NamesOfWithout(cols: seq<Column>, name: string)
    ensures Names(Without(cols, name)) == NamesWithout(Names(cols), name)
    decreases |cols|
  {
    if |cols| > 0 {
      var rest := cols[1..];
      NamesOfWithout(rest, name);
      var ns := Names(cols);
      assert ns[1..] == Names(rest);
      if cols[0].name != name {
        NamesCons(cols[0], Without(rest, name));
      }
    }
  }

  function Drop(f: Frame, name: string): (r: Frame)
    ensures r.rows == f.rows && !HasColumn(r, name)
  {
    Frame(f.rows, Without(f.columns, name))
  }

  /** Step one of both preprocessors: `if 'customer_id' in df.columns: df = df.drop(columns=['customer_id'])`. */
  function DropCustomerId(f: Frame): (r: Frame)
    ensures r.rows == f.rows && !HasColumn(r, CustomerId)
    ensures forall c :: c in r.columns <==> c in f.columns && c.name != CustomerId
  {
    if HasColumn(f, CustomerId) then Drop(f, CustomerId)
    else
      assert forall c :: c in f.columns ==> c.name != CustomerId by {
        forall c | c in f.columns ensures c.name != CustomerId {
          var i :| 0 <= i < |f.columns| && f.columns[i] == c;
          assert Names(f.columns)[i] == c.name;
        }
      }
      f
  }

  /** `df[col] = 0` */
  function ZeroColumn(name: string, rows: nat): (c: Column)
    ensures c.name == name && c.kind == Numeric && |c.cells| == rows
    ensures forall j :: 0 <= j < rows ==> c.cells[j] == Num(0.0)
  {
    Column(name, Numeric, seq(rows, _ => Num(0.0)))
  }

  /** The column `name` of `f` if it has one, otherwise a column of zeros. */
  function ColumnOrZero(f: Frame, name: string): (c: Column)
    ensures c.name == name
  {
    if HasColumn(f, name) then Lookup(f.columns, name) else ZeroColumn(name, f.rows)
  }

  /** What both preprocessors' padding loop followed by `df = df[feature_columns]` produce:
      exactly the listed columns, in the listed order, absent ones filled with 0. */
  function Aligned(f: Frame, order: seq<string>): (r: Frame)
    ensures r.rows == f.rows && Names(r.columns) == order
  {
    Frame(f.rows, seq(|order|, i requires 0 <= i < |order| => ColumnOrZero(f, order[i])))
  }

  /** The columns called `names`, in that order (`df[names]`). */
  function Select(cols: seq<Column>, names: seq<string>): (r: seq<Column>)
    requires forall n :: n in names ==> n in Names(cols)
    ensures |r| == |names| && Names(r) == names
    ensures forall i :: 0 <= i < |names| ==> r[i] == Lookup(cols, names[i])
  {
    seq(|names|, i requires 0 <= i < |names| => Lookup(cols, names[i]))
  }

  /** `df[names] = values`: every column whose name is among `replacement` takes the
      replacement column of that name; the others are unchanged. */
  function Assign(cols: seq<Column>, replacement: seq<Column>): (r: seq<Column>)
    ensures |r| == |cols| && Names(r) == Names(cols)
    ensures forall i :: 0 <= i < |cols| && cols[i].name in Names(replacement) ==>
      r[i] == Lookup(replacement, cols[i].name)
    ensures forall i :: 0 <= i < |cols| && cols[i].name !in Names(replacement) ==> r[i] == cols[i]
  {
    seq(|cols|, i requires 0 <= i < |cols| =>
      if cols[i].name in Names(replacement) then Lookup(replacement, cols[i].name) else cols[i])
  }

  /** The names of the columns of one kind, other than `target`, in frame order. */
  function NamesOfKind(cols: seq<Column>, k: Kind, target: string): (r: seq<string>)
    ensures target !in r
    ensures forall n :: n in r <==> exists c :: c in cols && c.name == n && c.kind == k && n != target
    ensures |r| <= |cols|
  {
    if |cols| == 0 then []
    else
      var rest := NamesOfKind(cols[1..], k, target);
      assert forall c :: c in cols <==> c == cols[0] || c in cols[1..] by {
        assert cols == [cols[0]] + cols[1..];
      }
      if cols[0].kind == k && cols[0].name != target then [cols[0].name] + rest else rest
  }

  lemma NamesOfKindPresent(cols: seq<Column>, k: Kind, target: string)
    ensures forall n :: n in NamesOfKind(cols, k, target) ==> n in Names(cols)
  {
    forall n | n in NamesOfKind(cols, k, target) ensures n in Names(cols) {
      var c :| c in cols && c.name == n && c.kind == k && n != target;
      var i :| 0 <= i < |cols| && cols[i] == c;
      assert Names(cols)[i] == n;
    }
  }

  /** Dropping a column keeps the names distinct. */
  lemma {:induction false} WithoutDistinct(cols: seq<Column>, name: string)
    requires DistinctNames(cols)
    ensures DistinctNames(Without(cols, name))
    decreases |cols|
  {
    if |cols| > 0 {
      WithoutDistinct(cols[1..], name);
      var rest := Without(cols[1..], name);
      if cols[0].name != name {
        var r := [cols[0]] + rest;
        forall i, j | 0 <= i < j < |r| ensures r[i].name != r[j].name {
          if i == 0 {
            assert r[j] in rest;
            var k :| 0 <= k < |cols[1..]| && cols[1..][k] == r[j];
            assert cols[k + 1] == r[j];
          }
        }
      }
    }
  }

  /** In a frame with distinct names no name is both a categorical and a numeric column. */
  lemma {:induction false} KindsDisjoint(cols: seq<Column>, target: string)
    requires DistinctNames(cols)
    ensures forall n :: n in NamesOfKind(cols, Categorical, target) ==> n !in NamesOfKind(cols, Numeric, target)
    decreases |cols|
  {
    if |cols| > 0 {
      var tail := cols[1..];
      KindsDisjoint(tail, target);
      NamesOfKindPresent(tail, Categorical, target);
      NamesOfKindPresent(tail, Numeric, target);
      assert forall j :: 0 <= j < |tail| ==> Names(tail)[j] != cols[0].name;
      assert cols[0].name !in Names(tail);
    }
  }

  /** The listed names that are also available, in list order (`[c for c in names if c in df.columns]`). */
  function Present(names: seq<string>, available: seq<string>): (r: seq<string>)
    ensures forall n :: n in r <==> n in names && n in available
    ensures (forall n :: n in names ==> n in available) ==> r == names
    ensures |r| <= |names|
  {
    if |names| == 0 then []
    else
      var rest := Present(names[1..], available);
      assert forall n :: n in names <==> n == names[0] || n in names[1..] by {
        assert names == [names[0]] + names[1..];
      }
      if names[0] in available then [names[0]] + rest else rest
  }

  /** Selecting the available names is a filter: it distributes over concatenation, so the
      result keeps the list's order, and a single name is kept exactly when it is available. */
  lemma {:induction false} PresentAppend(a: seq<string>, b: seq<string>, available: seq<string>)
    ensures Present(a + b, available) == Present(a, available) + Present(b, available)
    ensures Present([], available) == []
    ensures forall n :: Present([n], available) == if n in available then [n] else []
    decreases |a|
  {
    if |a| > 0 {
      assert (a + b)[0] == a[0];
      assert (a + b)[1..] == a[1..] + b;
      PresentAppend(a[1..], b, available);
    } else {
      assert a + b == b;
    }
    forall n ensures Present([n], available) == if n in available then [n] else [] {
      assert [n][1..] == [];
    }
  }

  /** The padding loop and the column selection that both preprocessors run:
      `df[col] = 0` for every listed column the frame lacks, then `df = df[feature_columns]`. */
  method AlignColumns(df: Frame, featureColumns: seq<string>) returns (r: Frame)
    ensures r == Aligned(df, featureColumns)
  {
    var cols := df.columns;
    var n := |df.columns|;
    var i := 0;
    while i < |featureColumns|
      invariant 0 <= i <= |featureColumns|
      invariant Padded(df, cols, n)
      invariant forall k :: 0 <= k < i ==> featureColumns[k] in Names(cols)
    {
      if featureColumns[i] !in Names(cols) {
        PadStep(df, cols, n, featureColumns[i]);
        cols := cols + [ZeroColumn(featureColumns[i], df.rows)];
      }
      i := i + 1;
    }
    var selected: seq<Column> := [];
    var j := 0;
    while j < |featureColumns|
      invariant 0 <= j <= |featureColumns|
      invariant |selected| == j
      invariant forall k :: 0 <= k < j ==> selected[k] == ColumnOrZero(df, featureColumns[k])
    {
      LookupPadded(df, cols, n, featureColumns[j]);
      selected := selected + [Lookup(cols, featureColumns[j])];
      j := j + 1;
    }
    r := Frame(df.rows, selected);
  }

  /** `cols` is `df`'s columns followed by zero columns for names `df` lacks. */
  ghost predicate Padded(df: Frame, cols: seq<Column>, n: nat) {
    && n <= |cols| && cols[..n] == df.columns
    && (forall k :: n <= k < |cols| ==> cols[k] == ZeroColumn(cols[k].name, df.rows))
    && (forall k :: n <= k < |cols| ==> cols[k].name !in Names(df.columns))
  }

  lemma NamesPrefix(cols: seq<Column>, n: nat)
    requires n <= |cols|
    ensures Names(cols[..n]) == Names(cols)[..n]
  {
  }

  lemma NamesAppend(cols: seq<Column>, c: Column)
    ensures Names(cols + [c]) == Names(cols) + [c.name]
  {
  }

  lemma PadStep(df: Frame, cols: seq<Column>, n: nat, name: string)
    requires Padded(df, cols, n) && name !in Names(cols)
    ensures Padded(df, cols + [ZeroColumn(name, df.rows)], n)
    ensures Names(cols + [ZeroColumn(name, df.rows)]) == Names(cols) + [name]
  {
    NamesPrefix(cols, n);
    NamesAppend(cols, ZeroColumn(name, df.rows));
    assert (cols + [ZeroColumn(name, df.rows)])[..n] == cols[..n];
  }

  /** Looking a name up after padding finds the original column, or the zero column added for it. */
  lemma LookupPadded(df: Frame, cols: seq<Column>, n: nat, name: string)
    requires Padded(df, cols, n)
    requires name in Names(cols)
    ensures Lookup(cols, name) == ColumnOrZero(df, name)
  {
    var i := IndexOf(cols, name);
    assert forall j :: 0 <= j < n ==> cols[j] == df.columns[j];
    if HasColumn(df, name) {
      var k := IndexOf(df.columns, name);
      assert cols[k] == df.columns[k];
    } else {
      assert forall j :: 0 <= j < n ==> cols[j].name == Names(df.columns)[j];
    }
  }

  /** Every listed column is present in the aligned frame, with its original cells. */
  lemma AlignedKeepsColumns(f: Frame, order: seq<string>, i: nat)
    requires i < |order| && HasColumn(f, order[i])
    ensures Aligned(f, order).columns[i] == Lookup(f.columns, order[i])
  {
  }

  /** An absent listed column is present in the aligned frame as a column of zeros. */
  lemma AlignedPadsWithZero(f: Frame, order: seq<string>, i: nat)
    requires i < |order| && !HasColumn(f, order[i])
    ensures Aligned(f, order).columns[i] == ZeroColumn(order[i], f.rows)
  {
  }
}
