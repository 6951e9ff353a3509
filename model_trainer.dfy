/** `ModelTrainer`: trains the four models of a fixed roster in turn and keeps the one with
    the highest F1 score seen so far. Training and the metrics are foreign: the model gets
    them as `scores`, a function from a roster name to that model's test metrics or to the
    exception its `train` or `evaluate` raised. The best score and the best model live in
    the object and survive from one call to the next, and a call that raises partway keeps
    the best of the models trained before the exception. */
module ModelSelection {
  import opened Wrappers

  /** `model.evaluate(X_test, y_test)` */
  datatype Metrics = Metrics(accuracy: real, precision: real, recall: real, f1: real)

  /** `best_score`: `-np.inf` or a score. */
  datatype Score = NegInf | Finite(value: real)

  /** `best_model`: the roster entry of that name (the object `self.models` holds, which
      every call retrains), or a model `load_model` read from a path. */
  datatype ModelRef = Roster(name: string) | Loaded(path: string)

  datatype Best = Best(model: Option<ModelRef>, score: Score)

  /** The keys of `self.models`, in insertion order. */
  const RosterNames: seq<string> := ["logistic_regression", "random_forest", "gradient_boosting", "svm"]

  const NoModelYet: string := "No model has been trained yet"

  /** `f1 > best_score`, with `-inf` below every score. */
  predicate Beats(f1: real, s: Score) {
    s.NegInf? || f1 > s.value
  }

  /** `a <= b` on scores. */
  predicate AtMost(a: Score, b: Score) {
    a.NegInf? || (b.Finite? && a.value <= b.value)
  }

  /** The selection rule of `train_and_evaluate` run over `entries` in order, from `b`:
      an entry replaces the best only when its F1 is strictly greater. */
  function SelectBest(b: Best, entries: seq<(string, Metrics)>): Best
    decreases |entries|
  {
    if |entries| == 0 then b
    else
      var prev := SelectBest(b, entries[..|entries| - 1]);
      var (name, m) := entries[|entries| - 1];
      if Beats(m.f1, prev.score) then Best(Some(Roster(name)), Finite(m.f1)) else prev
  }

  /** What every reachable state satisfies: no model means no score; a roster model names a
      roster entry and has a score; a score always comes with some model. */
  ghost predicate ValidBest(b: Best) {
    && (b.model.None? ==> b.score.NegInf?)
    && (b.score.Finite? ==> b.model.Some?)
    && (b.model.Some? && b.model.value.Roster? ==> b.model.value.name in RosterNames && b.score.Finite?)
  }

  /** The models evaluated in order before the first exception, and that exception. */
  datatype Evaluation = Evaluation(entries: seq<(string, Metrics)>, error: Option<string>)

  /** How many models at the head of `names` train and evaluate without an exception. */
  function OkPrefix(names: seq<string>, scores: string -> Result<Metrics>): (k: nat)
    ensures k <= |names|
    ensures forall j :: 0 <= j < k ==> scores(names[j]).Ok?
    ensures k < |names| ==> scores(names[k]).Err?
    decreases |names|
  {
    if |names| == 0 || scores(names[0]).Err? then 0
    else
      assert forall j :: 0 < j < |names| ==> names[1..][j - 1] == names[j];
      OkPrefix(names[1..], scores) + 1
  }

  /** The prefix is fixed by its two ends: every model before `i` evaluates and the one at
      `i`, if any, raises. */
  lemma {:induction false} OkPrefixAt(names: seq<string>, scores: string -> Result<Metrics>, i: nat)
    requires i <= |names| && forall j :: 0 <= j < i ==> scores(names[j]).Ok?
    requires i < |names| ==> scores(names[i]).Err?
    ensures OkPrefix(names, scores) == i
    decreases i
  {
    if i > 0 {
      assert forall j :: 0 <= j < i - 1 ==> names[1..][j] == names[j + 1];
      OkPrefixAt(names[1..], scores, i - 1);
    }
  }

  /** The loop of `train_and_evaluate` over `names`: each model's metrics in order, up to the
      first model whose training or evaluation raises. */
  function Evaluated(names: seq<string>, scores: string -> Result<Metrics>): (r: Evaluation)
    ensures |r.entries| <= |names|
    ensures forall i :: 0 <= i < |r.entries| ==>
      scores(names[i]).Ok? && r.entries[i] == (names[i], scores(names[i]).value)
    ensures r.error.None? <==> |r.entries| == |names|
    ensures r.error.Some? ==> scores(names[|r.entries|]) == Err(r.error.value)
  {
    var k := OkPrefix(names, scores);
    Evaluation(seq(k, j requires 0 <= j < k => (names[j], scores(names[j]).value)),
               if k < |names| then Some(scores(names[k]).error) else None)
  }

  class ModelTrainer {
    var bestModel: Option<ModelRef>
    var bestScore: Score

    function Current(): Best
      reads this
    {
      Best(bestModel, bestScore)
    }

    ghost predicate Valid()
      reads this
    {
      ValidBest(Current())
    }

    /** `__init__`: no best model, best score `-inf`. */
    constructor ()
      ensures bestModel == None && bestScore == NegInf && Valid()
    {
      bestModel := None;
      bestScore := NegInf;
    }

    /** `train_and_evaluate(X, y)`: `split` is the exception `train_test_split` raises, if
        any. Otherwise the results in roster order, or the first exception of a model; either
        way the best is updated by the selection rule over the models evaluated before it. */
    method TrainAndEvaluate(split: Option<string>, scores: string -> Result<Metrics>) returns (r: Result<seq<(string, Metrics)>>)
      modifies this
      ensures split.Some? ==> r == Err(split.value) && Current() == old(Current())
      ensures split.None? ==> var ev := Evaluated(RosterNames, scores);
        && (r.Ok? <==> ev.error.None?)
        && (r.Ok? ==> r.value == ev.entries)
        && (r.Err? ==> r.error == ev.error.value)
        && Current() == SelectBest(old(Current()), ev.entries)
      ensures old(Valid()) ==> Valid()
    {
      if split.Some? {
        return Err(split.value);
      }
      r := TrainEach(RosterNames, scores);
    }

    /** The loop of `train_and_evaluate` over the models called `names`, in order. */
    method TrainEach(names: seq<string>, scores: string -> Result<Metrics>) returns (r: Result<seq<(string, Metrics)>>)
      requires forall k :: 0 <= k < |names| ==> names[k] in RosterNames
      modifies this
      ensures var ev := Evaluated(names, scores);
        && (r.Ok? <==> ev.error.None?)
        && (r.Ok? ==> r.value == ev.entries)
        && (r.Err? ==> r.error == ev.error.value)
        && Current() == SelectBest(old(Current()), ev.entries)
      ensures old(Valid()) ==> Valid()
    {
      ghost var start := Current();
      var results := [];
      var i := 0;
      while i < |names|
        invariant 0 <= i <= |names| && |results| == i
        invariant forall k :: 0 <= k < i ==> scores(names[k]).Ok? && results[k] == (names[k], scores(names[k]).value)
        invariant Current() == SelectBest(start, results)
        invariant forall k :: 0 <= k < |results| ==> results[k].0 in RosterNames
      {
        var name := names[i];
        var outcome := scores(name);
        if outcome.Err? {
          OkPrefixAt(names, scores, i);
          assert results == Evaluated(names, scores).entries;
          SelectBestKeepsValid(start, results);
          return Err(outcome.error);
        }
        var metrics := outcome.value;
        ghost var before := results;
        results := results + [(name, metrics)];
        assert results[..|results| - 1] == before;
        if bestScore.NegInf? || metrics.f1 > bestScore.value {
          bestScore := Finite(metrics.f1);
          bestModel := Some(Roster(name));
        }
        i := i + 1;
      }
      OkPrefixAt(names, scores, i);
      assert results == Evaluated(names, scores).entries;
      SelectBestKeepsValid(start, results);
      r := Ok(results);
    }

    /** `save_best_model(filepath)`: the model that would be written, or the `ValueError`. */
    method SaveBestModel(filepath: string) returns (r: Result<ModelRef>)
      ensures r.Err? <==> bestModel.None?
      ensures r.Err? ==> r.error == NoModelYet
      ensures r.Ok? ==> r.value == bestModel.value
    {
      if bestModel.None? {
        return Err(NoModelYet);
      }
      r := Ok(bestModel.value);
    }

    /** `load_model(path)`: the best model is replaced, the best score is not. */
    method LoadModel(path: string)
      modifies this`bestModel
      ensures bestModel == Some(Loaded(path)) && bestScore == old(bestScore)
      ensures old(Valid()) ==> Valid()
    {
      bestModel := Some(Loaded(path));
    }
  }

  /** The selection keeps the invariant when every entry names a roster model. */
  lemma {:induction false} SelectBestKeepsValid(b: Best, entries: seq<(string, Metrics)>)
    requires forall i :: 0 <= i < |entries| ==> entries[i].0 in RosterNames
    ensures ValidBest(b) ==> ValidBest(SelectBest(b, entries))
    decreases |entries|
  {
    if |entries| > 0 {
      SelectBestKeepsValid(b, entries[..|entries| - 1]);
    }
  }

  /** After the selection the best score is at least the old best score and at least the F1
      of every entry. */
  lemma {:induction false} SelectBestDominates(b: Best, entries: seq<(string, Metrics)>)
    ensures AtMost(b.score, SelectBest(b, entries).score)
    ensures forall i :: 0 <= i < |entries| ==>
      SelectBest(b, entries).score.Finite? && entries[i].1.f1 <= SelectBest(b, entries).score.value
    decreases |entries|
  {
    if |entries| > 0 {
      var init := entries[..|entries| - 1];
      SelectBestDominates(b, init);
      assert forall i :: 0 <= i < |init| ==> entries[i] == init[i];
    }
  }

  /** Nothing beats the old best: it stays, model and score. */
  lemma {:induction false} SelectBestUnchanged(b: Best, entries: seq<(string, Metrics)>)
    requires forall i :: 0 <= i < |entries| ==> !Beats(entries[i].1.f1, b.score)
    ensures SelectBest(b, entries) == b
    decreases |entries|
  {
    if |entries| > 0 {
      var init := entries[..|entries| - 1];
      assert forall i :: 0 <= i < |init| ==> entries[i] == init[i];
      SelectBestUnchanged(b, init);
    }
  }

  /** `r` is entry `i` made best: its F1 beats the old best, entries before it score
      strictly less, entries after it at most as much. */
  ghost predicate ChosenAt(b: Best, entries: seq<(string, Metrics)>, i: nat, r: Best)
    requires i < |entries|
  {
    && r == Best(Some(Roster(entries[i].0)), Finite(entries[i].1.f1))
    && Beats(entries[i].1.f1, b.score)
    && (forall j :: 0 <= j < i ==> entries[j].1.f1 < entries[i].1.f1)
    && (forall j :: i < j < |entries| ==> entries[j].1.f1 <= entries[i].1.f1)
  }

  /** When the best changes, it is the first entry with the highest F1, and that F1 beats
      the old best: entries before it score strictly less (a tie keeps the earlier model),
      entries after it at most as much. */
  lemma {:induction false} SelectBestWitness(b: Best, entries: seq<(string, Metrics)>)
    requires SelectBest(b, entries) != b
    ensures exists i :: 0 <= i < |entries| && ChosenAt(b, entries, i, SelectBest(b, entries))
    decreases |entries|
  {
    var init := entries[..|entries| - 1];
    var prev := SelectBest(b, init);
    var last := entries[|entries| - 1];
    assert forall j :: 0 <= j < |init| ==> entries[j] == init[j];
    if Beats(last.1.f1, prev.score) {
      var i := |entries| - 1;
      SelectBestDominates(b, init);
      if |init| > 0 {
        assert forall j :: 0 <= j < i ==> entries[j].1.f1 < entries[i].1.f1;
      }
      assert AtMost(b.score, prev.score);
      assert ChosenAt(b, entries, i, SelectBest(b, entries));
    } else {
      SelectBestWitness(b, init);
      var i :| 0 <= i < |init| && ChosenAt(b, init, i, prev);
      assert entries[i] == init[i];
      assert ChosenAt(b, entries, i, SelectBest(b, entries));
    }
  }

  /** A `train_and_evaluate` call that replaces the best model had a model whose F1 was
      strictly greater than every score of the earlier calls. */
  lemma ReplacedOnlyWhenBeaten(b: Best, entries: seq<(string, Metrics)>)
    requires SelectBest(b, entries) != b
    ensures exists i :: 0 <= i < |entries| && Beats(entries[i].1.f1, b.score)
  {
    SelectBestWitness(b, entries);
    var i :| 0 <= i < |entries| && ChosenAt(b, entries, i, SelectBest(b, entries));
  }

  /** Over two calls, the second replaces the best only with a model whose F1 is strictly
      greater than every F1 of the first call. */
  lemma SecondCallMustBeatFirst(b: Best, first: seq<(string, Metrics)>, second: seq<(string, Metrics)>)
    requires SelectBest(SelectBest(b, first), second) != SelectBest(b, first)
    ensures exists i :: 0 <= i < |second| && forall j :: 0 <= j < |first| ==> second[i].1.f1 > first[j].1.f1
  {
    var b1 := SelectBest(b, first);
    SelectBestDominates(b, first);
    SelectBestWitness(b1, second);
    var i :| 0 <= i < |second| && ChosenAt(b1, second, i, SelectBest(b1, second));
    if |first| > 0 {
      assert b1.score.Finite?;
    }
  }

  /** A call from the initial trainer that raises after at least one model was evaluated
      still leaves a best model: the roster model chosen before the exception, which a later
      `save_best_model` writes. */
  lemma FailedCallKeepsEarlierBest(b: Best, scores: string -> Result<Metrics>)
    requires b.score.NegInf?
    ensures var ev := Evaluated(RosterNames, scores);
      |ev.entries| > 0 ==>
        && SelectBest(b, ev.entries).model.Some?
        && SelectBest(b, ev.entries).model.value.Roster?
        && SelectBest(b, ev.entries).score.Finite?
  {
    var ev := Evaluated(RosterNames, scores);
    if |ev.entries| > 0 {
      SelectBestDominates(b, ev.entries);
      SelectBestWitness(b, ev.entries);
    }
  }

  /** Until `load_model` is called, there is a best model exactly when the best score is
      above `-inf`, and it is a roster model. */
  lemma BestBeforeLoad(b: Best)
    requires ValidBest(b) && !(b.model.Some? && b.model.value.Loaded?)
    ensures b.model.Some? <==> b.score.Finite?
    ensures b.model.Some? ==> b.model.value.Roster? && b.model.value.name in RosterNames
  {
  }
}
