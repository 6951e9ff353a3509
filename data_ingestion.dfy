/** Data ingestion: `CSVDataIngestion.validate_data`, the accept/raise decision of
    `load_data` over a frame already read, and `DataIngestionFactory.create_data_ingestion`,
    which dispatches on the path's suffix as `pathlib` computes it for POSIX paths. */
module DataIngestion {
  import opened Wrappers
  import opened Text
  import opened Frames

  /** `data.isnull().sum().sum()` over the given columns. */
  function MissingCount(cols: seq<Column>): (n: nat)
    decreases |cols|
  {
    if |cols| == 0 then 0
    else MissingCount(cols[..|cols| - 1]) + multiset(cols[|cols| - 1].cells)[Missing]
  }

  /** `(missing_values / (len(data) * len(data.columns))) * 100`, on a non-empty frame. */
  function MissingPercentage(f: Frame): real
    requires f.rows > 0 && |f.columns| > 0
  {
    (MissingCount(f.columns) as real / (f.rows * |f.columns|) as real) * 100.0
  }

  /** `validate_data`: an empty frame (no rows or no columns) is refused, and so is one
      with more than 50% of its cells missing. */
  function ValidateData(f: Frame): bool {
    if f.rows == 0 || |f.columns| == 0 then false
    else !(MissingPercentage(f) > 50.0)
  }

  /** The percentage rule is the integer rule `2 * missing <= rows * columns`: exactly
      half the cells missing still passes. */
  lemma ValidateDataIff(f: Frame)
    ensures ValidateData(f) <==> f.rows > 0 && |f.columns| > 0 && 2 * MissingCount(f.columns) <= f.rows * |f.columns|
  {
    if f.rows > 0 && |f.columns| > 0 {
      var cells := f.rows * |f.columns|;
      PercentRule(MissingCount(f.columns) as real, cells as real);
      assert (2 * MissingCount(f.columns)) as real == 2.0 * MissingCount(f.columns) as real;
    }
  }

  /** More than 50% of `t` cells missing means more than half of them. */
  lemma PercentRule(m: real, t: real)
    requires t > 0.0
    ensures (m / t) * 100.0 > 50.0 <==> 2.0 * m > t
  {
    var q := m / t;
    assert q * t == m;
    if q > 0.5 {
      assert (q - 0.5) * t > 0.0;
    } else {
      assert (0.5 - q) * t >= 0.0;
    }
  }

  /** In a frame whose columns have one cell per row, at most every cell is missing. */
  lemma {:induction false} MissingAtMostCells(cols: seq<Column>, rows: nat)
    requires forall i :: 0 <= i < |cols| ==> |cols[i].cells| == rows
    ensures MissingCount(cols) <= rows * |cols|
    decreases |cols|
  {
    if |cols| > 0 {
      var init := cols[..|cols| - 1];
      MissingAtMostCells(init, rows);
      var c := cols[|cols| - 1];
      assert forall i :: 0 <= i < |init| ==> init[i] == cols[i];
      assert multiset(c.cells)[Missing] <= |c.cells| == rows;
      assert rows * |cols| == rows * |init| + rows;
    }
  }

  const ErrorLoading: string := "Error loading data: "
  const ValidationFailed: string := "Data validation failed"

  /** `load_data`, given what `pd.read_csv` returned or raised: the frame when it
      validates; otherwise the failure, re-raised with the `Error loading data: ` prefix. */
  function LoadData(read: Result<Frame>): (r: Result<Frame>)
    ensures r.Ok? <==> read.Ok? && ValidateData(read.value)
    ensures r.Ok? ==> r.value == read.value
    ensures r.Err? ==> |r.error| >= |ErrorLoading| && r.error[..|ErrorLoading|] == ErrorLoading
    ensures read.Ok? && !ValidateData(read.value) ==> r == Err(ErrorLoading + ValidationFailed)
    ensures read.Err? ==> r == Err(ErrorLoading + read.error)
  {
    match read
    case Err(e) => Err(ErrorLoading + e)
    case Ok(f) => if ValidateData(f) then Ok(f) else Err(ErrorLoading + ValidationFailed)
  }

  /** The `/`-separated segments of a path, empty ones included. */
  function Segments(s: string): (r: seq<string>)
    ensures |r| > 0
    ensures forall i :: 0 <= i < |r| ==> '/' !in r[i]
    decreases |s|
  {
    if |s| == 0 then [""]
    else
      var prev := Segments(s[..|s| - 1]);
      var c := s[|s| - 1];
      if c == '/' then prev + [""]
      else prev[..|prev| - 1] + [prev[|prev| - 1] + [c]]
  }

  /** The segments joined with `/`, the inverse of `Segments`. */
  function Join(segs: seq<string>): string
    requires |segs| > 0
    decreases |segs|
  {
    if |segs| == 1 then segs[0] else Join(segs[..|segs| - 1]) + "/" + segs[|segs| - 1]
  }

  /** Splitting at every `/` and joining again gives the path back. */
  lemma {:induction false} JoinSegments(s: string)
    ensures Join(Segments(s)) == s
    decreases |s|
  {
    if |s| > 0 {
      var init := s[..|s| - 1];
      var prev := Segments(init);
      var c := s[|s| - 1];
      JoinSegments(init);
      assert s == init + [c];
      if c != '/' {
        var last := prev[|prev| - 1];
        var r := prev[..|prev| - 1] + [last + [c]];
        assert r[..|r| - 1] == prev[..|prev| - 1];
        if |prev| > 1 {
          assert prev[..|prev| - 1][..|prev| - 2] == prev[..|prev| - 2];
          JoinInit(prev);
        }
      } else {
        assert (prev + [""])[..|prev|] == prev;
      }
    }
  }

  /** `Join` of a sequence is `Join` of all but its last segment, then `/`, then the last one. */
  lemma JoinInit(segs: seq<string>)
    requires |segs| > 1
    ensures Join(segs) == Join(segs[..|segs| - 1]) + "/" + segs[|segs| - 1]
  {
  }

  /** The path's components as `pathlib` keeps them: empty and `.` segments are dropped. */
  function Parts(segs: seq<string>): (r: seq<string>)
    ensures forall p :: p in r <==> p in segs && p != "" && p != "."
    decreases |segs|
  {
    if |segs| == 0 then []
    else
      var prev := Parts(segs[..|segs| - 1]);
      var last := segs[|segs| - 1];
      assert segs == segs[..|segs| - 1] + [last];
      if last == "" || last == "." then prev else prev + [last]
  }

  /** `PurePosixPath(path).name`: the last component, or `''` when there is none. */
  function Name(path: string): (r: string)
    ensures '/' !in r
  {
    var parts := Parts(Segments(path));
    if |parts| == 0 then "" else
      assert parts[|parts| - 1] in parts;
      parts[|parts| - 1]
  }

  /** `s.rfind(c)`: the last index holding `c`, or -1. */
  function RFind(s: string, c: char): (i: int)
    ensures -1 <= i < |s|
    ensures i >= 0 ==> s[i] == c
    ensures forall j :: i < j < |s| ==> s[j] != c
    decreases |s|
  {
    if |s| == 0 then -1
    else if s[|s| - 1] == c then |s| - 1
    else RFind(s[..|s| - 1], c)
  }

  /** `PurePath.suffix`: from the last dot of the name, provided that dot is neither the
      first nor the last character; `''` otherwise. */
  function Suffix(name: string): (r: string)
    ensures r == "" || (|r| >= 2 && r[0] == '.' && forall j :: 1 <= j < |r| ==> r[j] != '.')
  {
    var i := RFind(name, '.');
    if 0 < i < |name| - 1 then name[i..]
    else ""
  }

  datatype Ingestion = CsvIngestion(filePath: string)

  /** `DataIngestionFactory.create_data_ingestion(file_path)` */
  function CreateDataIngestion(path: string): (r: Result<Ingestion>)
    ensures r.Ok? ==> r.value == CsvIngestion(path)
    ensures r.Err? ==> r.error == "Unsupported file extension: " + Lower(Suffix(Name(path)))
  {
    var ext := Lower(Suffix(Name(path)));
    if ext == ".csv" then Ok(CsvIngestion(path)) else Err("Unsupported file extension: " + ext)
  }

  /** A name has suffix `.csv` in any letter case exactly when it has at least one
      character before its last four, and those four read `.csv` ignoring case. */
  lemma CsvSuffixIff(name: string)
    ensures Lower(Suffix(name)) == ".csv" <==> |name| >= 5 && Lower(name[|name| - 4..]) == ".csv"
  {
    var i := RFind(name, '.');
    var tail := if |name| >= 4 then name[|name| - 4..] else "";
    if |name| >= 5 && Lower(tail) == ".csv" {
      assert LowerChar(tail[0]) == '.';
      assert tail[0] == '.';
      assert name[|name| - 4] == '.';
      forall j | |name| - 4 < j < |name| ensures name[j] != '.' {
        assert tail[j - (|name| - 4)] == name[j];
        assert LowerChar(name[j]) in "csv";
      }
      assert i == |name| - 4;
      assert Suffix(name) == tail;
    }
    if Lower(Suffix(name)) == ".csv" {
      assert 0 < i < |name| - 1;
      assert |name[i..]| == 4;
      assert name[i..] == tail;
    }
  }

  /** The factory accepts a path exactly when its name ends in `.csv`, in any letter case,
      after at least one other character. */
  lemma FactoryAcceptsCsv(path: string)
    ensures var n := Name(path);
      CreateDataIngestion(path).Ok? <==> |n| >= 5 && Lower(n[|n| - 4..]) == ".csv"
  {
    CsvSuffixIff(Name(path));
  }

  /** A path without `/` is one segment. */
  lemma {:induction false} SegmentsPlain(s: string)
    requires '/' !in s
    ensures Segments(s) == [s]
    decreases |s|
  {
    if |s| > 0 {
      var init := s[..|s| - 1];
      SegmentsPlain(init);
      assert s == init + [s[|s| - 1]];
    }
  }

  /** Appending `/` and a segment without `/` appends that segment. */
  lemma {:induction false} SegmentsThenSlash(a: string, b: string)
    requires '/' !in b
    ensures Segments(a + "/" + b) == Segments(a) + [b]
    decreases |b|
  {
    var s := a + "/" + b;
    if |b| == 0 {
      assert s[..|s| - 1] == a;
    } else {
      var init := b[..|b| - 1];
      SegmentsThenSlash(a, init);
      assert s[..|s| - 1] == a + "/" + init;
      assert b == init + [b[|b| - 1]];
    }
  }

  /** `Parts` of one more segment. */
  lemma PartsSnoc(segs: seq<string>, last: string)
    ensures Parts(segs + [last]) == if last == "" || last == "." then Parts(segs) else Parts(segs) + [last]
  {
    assert (segs + [last])[..|segs|] == segs;
  }

  /** A plain component is its own name. */
  lemma NameOfComponent(b: string)
    requires '/' !in b && b != "" && b != "."
    ensures Name(b) == b
  {
    SegmentsPlain(b);
    PartsSnoc([], b);
  }

  /** Below a directory, a plain component is still the name. */
  lemma NameBelow(dir: string, b: string)
    requires '/' !in b && b != "" && b != "."
    ensures Name(dir + "/" + b) == b
  {
    SegmentsThenSlash(dir, b);
    PartsSnoc(Segments(dir), b);
  }

  /** A trailing `/` does not change the name. */
  lemma NameBelowWithSlash(dir: string, b: string)
    requires '/' !in b && b != "" && b != "."
    ensures Name(dir + "/" + b + "/") == b
  {
    var p := dir + "/" + b;
    SegmentsThenSlash(dir, b);
    SegmentsThenSlash(p, "");
    assert p + "/" == p + "/" + "";
    PartsSnoc(Segments(dir), b);
    PartsSnoc(Segments(dir) + [b], "");
  }

  /** The last `c` of `a + [c] + b`, when `b` has none, is at index `|a|`. */
  lemma {:induction false} RFindAt(a: string, c: char, b: string)
    requires c !in b
    ensures RFind(a + [c] + b, c) == |a|
    decreases |b|
  {
    var s := a + [c] + b;
    if |b| > 0 {
      var init := b[..|b| - 1];
      assert s[..|s| - 1] == a + [c] + init;
      assert s[|s| - 1] == b[|b| - 1];
      RFindAt(a, c, init);
    } else {
      assert s[|s| - 1] == c;
    }
  }

  /** The suffix of `stem + "." + ext` when the stem is not empty and the extension is not
      empty and has no dot. */
  lemma SuffixOf(stem: string, ext: string)
    requires |stem| > 0 && |ext| > 0 && '.' !in ext
    ensures Suffix(stem + "." + ext) == "." + ext
  {
    RFindAt(stem, '.', ext);
    var name := stem + "." + ext;
    assert name[|stem|..] == "." + ext;
  }

  /** The factory's verdict on a path whose name is `stem.ext`, with no dot in `ext`. */
  lemma FactoryOnName(path: string, stem: string, ext: string)
    requires Name(path) == stem + "." + ext && |stem| > 0 && |ext| > 0 && '.' !in ext
    ensures CreateDataIngestion(path)
      == if Lower("." + ext) == ".csv" then Ok(CsvIngestion(path))
         else Err("Unsupported file extension: " + Lower("." + ext))
  {
    SuffixOf(stem, ext);
  }

  /** A trailing `/` changes neither the name nor the factory's verdict. */
  lemma TrailingSlashIgnored(path: string)
    ensures Name(path + "/") == Name(path)
    ensures CreateDataIngestion(path + "/").Ok? <==> CreateDataIngestion(path).Ok?
    ensures CreateDataIngestion(path + "/").Err? ==> CreateDataIngestion(path + "/").error == CreateDataIngestion(path).error
  {
    SegmentsThenSlash(path, "");
    assert path + "/" == path + "/" + "";
    PartsSnoc(Segments(path), "");
  }

  /** A name without a dot has no suffix, so the path is refused with an empty extension. */
  lemma NoDotRefused(path: string)
    requires '.' !in Name(path)
    ensures CreateDataIngestion(path) == Err("Unsupported file extension: ")
  {
    assert RFind(Name(path), '.') == -1;
  }

  /** No dot is no suffix: `data` is refused with an empty extension. */
  lemma RefusesNoSuffix()
    ensures CreateDataIngestion("data") == Err("Unsupported file extension: ")
  {
    NameOfComponent("data");
    assert RFind("data", '.') == -1;
  }

  /** A leading dot is no suffix: `.csv` is refused with an empty extension. */
  lemma RefusesHiddenName()
    ensures CreateDataIngestion(".csv") == Err("Unsupported file extension: ")
  {
    NameOfComponent(".csv");
    RFindAt("", '.', "csv");
    assert "" + ['.'] + "csv" == ".csv";
  }
}
