/** Strings as Python and NumPy compare them: lexicographically by code point.
    This is the order `LabelEncoder` sorts its vocabulary in and the order
    pandas sorts the modes of a column in. */
module Text {

  /** Strict lexicographic order on code points. */
  predicate Less(a: string, b: string)
    decreases |a|
  {
    |b| > 0 && (|a| == 0 || a[0] < b[0] || (a[0] == b[0] && Less(a[1..], b[1..])))
  }

  lemma {:induction false} LessIrreflexive(a: string)
    ensures !Less(a, a)
    decreases |a|
  {
    if |a| > 0 {
      LessIrreflexive(a[1..]);
    }
  }

  lemma {:induction false} LessTransitive(a: string, b: string, c: string)
    requires Less(a, b) && Less(b, c)
    ensures Less(a, c)
    decreases |a|
  {
    if |a| > 0 && a[0] == b[0] && b[0] == c[0] {
      LessTransitive(a[1..], b[1..], c[1..]);
    }
  }

  lemma {:induction false} LessTotal(a: string, b: string)
    requires a != b
    ensures Less(a, b) || Less(b, a)
    decreases |a|
  {
    if |a| > 0 && |b| > 0 && a[0] == b[0] {
      assert a == [a[0]] + a[1..] && b == [b[0]] + b[1..];
      LessTotal(a[1..], b[1..]);
    }
  }

  lemma {:induction false} LessAsymmetric(a: string, b: string)
    requires Less(a, b)
    ensures !Less(b, a)
  {
    if Less(b, a) {
      LessTransitive(a, b, a);
      LessIrreflexive(a);
    }
  }

  /** A vocabulary in `LabelEncoder.classes_` form: strictly increasing, hence distinct. */
  ghost predicate StrictlySorted(v: seq<string>) {
    forall i, j :: 0 <= i < j < |v| ==> Less(v[i], v[j])
  }

  /** Inserts `x` into a strictly sorted sequence, keeping it strictly sorted. */
  function Insert(v: seq<string>, x: string): (r: seq<string>)
    requires StrictlySorted(v)
    ensures StrictlySorted(r)
    ensures forall y :: y in r <==> y in v || y == x
    ensures |r| > 0
  {
    if |v| == 0 then [x]
    else if x == v[0] then v
    else if Less(x, v[0]) then
      assert forall j :: 0 < j < |v| ==> Less(x, v[j]) by {
        forall j | 0 < j < |v| ensures Less(x, v[j]) {
          LessTransitive(x, v[0], v[j]);
        }
      }
      [x] + v
    else
      LessTotal(x, v[0]);
      var tail := Insert(v[1..], x);
      assert forall y :: y in tail ==> Less(v[0], y) by {
        forall y | y in tail ensures Less(v[0], y) {
          if y != x {
            var j :| 0 <= j < |v[1..]| && v[1..][j] == y;
            assert v[j + 1] == y;
          }
        }
      }
      var r := [v[0]] + tail;
      assert forall i, j :: 0 <= i < j < |r| ==> Less(r[i], r[j]) by {
        forall i, j | 0 <= i < j < |r| ensures Less(r[i], r[j]) {
          if i == 0 {
            assert r[j] == tail[j - 1];
            assert r[j] in tail;
          } else {
            assert r[i] == tail[i - 1] && r[j] == tail[j - 1];
          }
        }
      }
      assert forall y :: y in v <==> y == v[0] || y in v[1..] by {
        assert v == [v[0]] + v[1..];
      }
      r
  }

  /** The sorted distinct values of a sequence, as `numpy.unique` returns them. */
  function SortedDistinct(values: seq<string>): (r: seq<string>)
    ensures StrictlySorted(r)
    ensures forall y :: y in r <==> y in values
    decreases |values|
  {
    if |values| == 0 then []
    else
      var init := values[..|values| - 1];
      assert values == init + [values[|values| - 1]];
      Insert(SortedDistinct(init), values[|values| - 1])
  }

  /** A strictly sorted sequence is determined by its elements. */
  lemma {:induction false} SortedUnique(a: seq<string>, b: seq<string>)
    requires StrictlySorted(a) && StrictlySorted(b)
    requires forall y :: y in a <==> y in b
    ensures a == b
    decreases |a|
  {
    if |a| == 0 && |b| > 0 {
      HeadIsElement(b);
      assert false;
    } else if |a| > 0 && |b| == 0 {
      HeadIsElement(a);
      assert false;
    } else if |a| > 0 {
      assert a[0] in b;
      var k :| 0 <= k < |b| && b[k] == a[0];
      assert b[0] in a;
      var m :| 0 <= m < |a| && a[m] == b[0];
      if k > 0 {
        assert Less(b[0], b[k]);
        if m == 0 {
          LessIrreflexive(a[0]);
        } else {
          assert Less(a[0], a[m]);
          LessAsymmetric(a[0], a[m]);
        }
      }
      assert a[0] == b[0];
      forall y
        ensures y in a[1..] <==> y in b[1..]
      {
        if y in a[1..] {
          var i :| 0 <= i < |a[1..]| && a[1..][i] == y;
          assert Less(a[0], a[i + 1]);
          LessIrreflexive(y);
          assert y in b;
          var k2 :| 0 <= k2 < |b| && b[k2] == y;
          assert k2 != 0;
          assert b[1..][k2 - 1] == y;
        }
        if y in b[1..] {
          var i :| 0 <= i < |b[1..]| && b[1..][i] == y;
          assert Less(b[0], b[i + 1]);
          LessIrreflexive(y);
          assert y in a;
          var m2 :| 0 <= m2 < |a| && a[m2] == y;
          assert m2 != 0;
          assert a[1..][m2 - 1] == y;
        }
      }
      SortedUnique(a[1..], b[1..]);
      assert a == [a[0]] + a[1..] && b == [b[0]] + b[1..];
    }
  }

  lemma HeadIsElement(v: seq<string>)
    ensures |v| > 0 ==> v[0] in v
  {
  }

  /** Position of `x` in `v`: the first index holding it. */
  function Position(v: seq<string>, x: string): (i: nat)
    requires x in v
    ensures i < |v| && v[i] == x
    ensures forall j :: 0 <= j < i ==> v[j] != x
  {
    if v[0] == x then 0 else Position(v[1..], x) + 1
  }

  /** In a strictly sorted sequence the position of an element is its only index. */
  lemma PositionUnique(v: seq<string>, j: nat)
    requires StrictlySorted(v) && j < |v|
    ensures Position(v, v[j]) == j
  {
    var i := Position(v, v[j]);
    if i < j {
      assert Less(v[i], v[j]);
      LessIrreflexive(v[j]);
    }
  }

  /** ASCII lower-casing of one character. */
  function LowerChar(c: char): (r: char)
    ensures 'A' <= c <= 'Z' ==> r as int == c as int + 32
    ensures !('A' <= c <= 'Z') ==> r == c
  {
    if 'A' <= c <= 'Z' then (c as int + 32) as char else c
  }

  /** `str.lower()` restricted to ASCII letters. */
  function Lower(s: string): (r: string)
    ensures |r| == |s|
    ensures forall i :: 0 <= i < |s| ==> r[i] == LowerChar(s[i])
  {
    if |s| == 0 then [] else [LowerChar(s[0])] + Lower(s[1..])
  }
}
