/** The two column statistics the training preprocessor imputes with:
    `Series.median()` and `Series.mode()[0]`, both over the non-missing values. */
module Statistics {
  import opened Wrappers
  import opened Text

  ghost predicate SortedReals(s: seq<real>) {
    forall i, j :: 0 <= i < j < |s| ==> s[i] <= s[j]
  }

  function InsertReal(s: seq<real>, x: real): (r: seq<real>)
    requires SortedReals(s)
    ensures SortedReals(r)
    ensures multiset(r) == multiset(s) + multiset{x}
    ensures |r| == |s| + 1
  {
    if |s| == 0 then [x]
    else if x <= s[0] then
      assert multiset([x] + s) == multiset{x} + multiset(s);
      [x] + s
    else
      var tail := InsertReal(s[1..], x);
      assert s == [s[0]] + s[1..];
      assert multiset(s) == multiset{s[0]} + multiset(s[1..]);
      assert multiset([s[0]] + tail) == multiset{s[0]} + multiset(tail);
      ConsSorted(s[0], tail, s[1..], x);
      [s[0]] + tail
  }

  lemma ConsSorted(h: real, tail: seq<real>, rest: seq<real>, x: real)
    requires SortedReals(tail) && h < x
    requires forall y :: y in rest ==> h <= y
    requires multiset(tail) == multiset(rest) + multiset{x}
    ensures SortedReals([h] + tail)
  {
    forall y | y in tail ensures h <= y {
      assert y in multiset(tail);
      if y != x {
        assert y in multiset(rest);
        assert y in rest;
      }
    }
    var r := [h] + tail;
    forall i, j | 0 <= i < j < |r| ensures r[i] <= r[j] {
      assert r[j] == tail[j - 1];
      if i == 0 {
        assert tail[j - 1] in tail;
      } else {
        assert r[i] == tail[i - 1];
      }
    }
  }

  /** The values in ascending order. */
  function SortReals(s: seq<real>): (r: seq<real>)
    ensures SortedReals(r)
    ensures multiset(r) == multiset(s)
    ensures |r| == |s|
    decreases |s|
  {
    if |s| == 0 then []
    else
      var init := s[..|s| - 1];
      assert s == init + [s[|s| - 1]];
      InsertReal(SortReals(init), s[|s| - 1])
  }

  /** The median as pandas computes it: the middle value of the sorted values, or the
      mean of the two middle ones when their number is even. */
  function Median(xs: seq<real>): (m: real)
    requires |xs| > 0
    ensures exists i :: 0 <= i < |xs| && xs[i] <= m
    ensures exists j :: 0 <= j < |xs| && m <= xs[j]
  {
    var s := SortReals(xs);
    var n := |s|;
    assert s[0] in multiset(xs) && s[n - 1] in multiset(xs);
    assert s[0] in xs && s[n - 1] in xs;
    var m := if n % 2 == 1 then s[n / 2] else (s[n / 2 - 1] + s[n / 2]) / 2.0;
    assert s[0] <= m <= s[n - 1];
    m
  }

  /** How often `x` occurs (`value_counts()[x]`). */
  function Count(values: seq<string>, x: string): nat {
    multiset(values)[x]
  }

  /** The first of the candidates with the highest count. */
  function MostFrequentIndex(cands: seq<string>, values: seq<string>): (k: nat)
    requires |cands| > 0
    ensures k < |cands|
    ensures forall i :: 0 <= i < |cands| ==> Count(values, cands[i]) <= Count(values, cands[k])
    ensures forall i :: 0 <= i < k ==> Count(values, cands[i]) < Count(values, cands[k])
  {
    if |cands| == 1 then 0
    else
      var k := MostFrequentIndex(cands[1..], values) + 1;
      assert forall i :: 1 <= i < |cands| ==> cands[i] == cands[1..][i - 1];
      if Count(values, cands[0]) >= Count(values, cands[k]) then 0 else k
  }

  /** `Series.mode()[0]` when the mode is not empty: pandas sorts the values of highest
      count, so this is the smallest most frequent value. `None` when there are no values. */
  function Mode(values: seq<string>): (r: Option<string>)
    ensures r.None? <==> |values| == 0
    ensures r.Some? ==> r.value in values
    ensures r.Some? ==> forall w :: Count(values, w) <= Count(values, r.value)
    ensures r.Some? ==> forall w :: w != r.value && Count(values, w) == Count(values, r.value) ==> Less(r.value, w)
  {
    if |values| == 0 then None
    else
      assert values[0] in values;
      var cands := SortedDistinct(values);
      var k := MostFrequentIndex(cands, values);
      var m := cands[k];
      assert Count(values, m) > 0;
      assert forall w :: Count(values, w) <= Count(values, m) by {
        forall w ensures Count(values, w) <= Count(values, m) {
          if w in values {
            var i :| 0 <= i < |cands| && cands[i] == w;
          }
        }
      }
      assert forall w :: w != m && Count(values, w) == Count(values, m) ==> Less(m, w) by {
        forall w | w != m && Count(values, w) == Count(values, m) ensures Less(m, w) {
          assert w in multiset(values);
          assert w in values;
          var i :| 0 <= i < |cands| && cands[i] == w;
          assert !(i < k);
          assert i != k;
        }
      }
      Some(m)
  }
}
