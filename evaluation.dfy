/**
 * What one pass of `train_loop` and of `test_loop` computes, as functions over the batches:
 * the shape refresh per batch, the per-episode accuracy list (with its reuse of the previous
 * count on list-shaped episodes) and the mean and variance of that list.
 */
module Evaluation {
  import opened Failures
  import opened Episodes
  import opened Scoring
  import opened Sequences

  /** The tensor whose sizes the loops read: `x`, or `x[0]` for a list-shaped batch. */
  function Lead<T>(b: Batch<T>): Option<Grid<T>>
  {
    match b
    case Single(x) => Some(x)
    case Multi(parts) => if parts == [] then None else Some(parts[0])
  }

  /**
   * The refresh at the head of each loop iteration: `n_query` becomes the per-class count
   * minus `n_support`; `n_way` becomes the class count only when `changeWay` is set.
   */
  function Refresh<T>(s: Shape, changeWay: bool, b: Batch<T>): (r: Result<Shape>)
    ensures r.Err? <==> Lead(b).None?
    ensures r.Err? ==> r.error == IndexError
    ensures r.Ok? ==>
      var g := Lead(b).value;
      r.value.nSupport == s.nSupport &&
      r.value.nSupport + r.value.nQuery == g.Size1() &&
      (changeWay ==> r.value.nWay == g.Size0()) &&
      (!changeWay ==> r.value.nWay == s.nWay)
  {
    match Lead(b)
    case None => Err(IndexError)
    case Some(g) => Ok(Shape(if changeWay then g.Size0() else s.nWay, s.nSupport, g.Size1() - s.nSupport))
  }

  /** Where a loop over batches stands: the current shape and the failure that stopped it, if any. */
  datatype Progress = Progress(shape: Shape, failure: Option<Error>)

  /**
   * The shape bookkeeping of `train_loop`: refresh per batch, stopping at the first failure.
   * The pass fails, with `IndexError`, exactly when some batch is an empty modality list.
   */
  function RefreshAll<T>(s: Shape, changeWay: bool, bs: seq<Batch<T>>): (p: Progress)
    ensures p.failure.None? <==> forall k :: 0 <= k < |bs| ==> Lead(bs[k]).Some?
    ensures p.failure.Some? ==> p.failure.value == IndexError
    decreases |bs|
  {
    if bs == [] then Progress(s, None)
    else
      assert forall k :: 0 < k < |bs| ==> bs[k] == bs[1..][k - 1];
      match Refresh(s, changeWay, bs[0])
      case Err(e) => Progress(s, Some(e))
      case Ok(s') => RefreshAll(s', changeWay, bs[1..])
  }

  /**
   * On a well-formed tensor, the shape a refresh reads off it is one `parse_feature` accepts
   * exactly when the tensor has classes and items per class, and, with `changeWay` off, the
   * kept `n_way` equals its class count.
   */
  lemma RefreshedShapeParses<T>(s: Shape, changeWay: bool, feature: Backbone<T>, g: Grid<T>)
    requires g.Rectangular()
    ensures Refresh(s, changeWay, Single(g)).Ok?
    ensures ParseFeature(Refresh(s, changeWay, Single(g)).value, feature, Single(g), false).Ok? <==>
      g.Size0() > 0 && g.Size1() > 0 && (changeWay || s.nWay == g.Size0())
  {
    var s' := Refresh(s, changeWay, Single(g)).value;
    FlattenLength(g.rows, g.perClass);
    assert s'.nSupport + s'.nQuery == g.perClass;
    MulCancel(s'.nWay, g.Size0(), g.perClass + 1);
    if g.perClass > 0 {
      MulCancel(s'.nWay, g.Size0(), g.perClass);
    }
  }

  /**
   * After a pass over batches that all have a lead tensor, `n_support` is as before,
   * `n_query` comes from the last batch, and `n_way` too when `changeWay` is set.
   */
  lemma {:induction false} RefreshAllFinalShape<T>(s: Shape, changeWay: bool, bs: seq<Batch<T>>)
    requires bs != []
    requires forall k :: 0 <= k < |bs| ==> Lead(bs[k]).Some?
    ensures var p := RefreshAll(s, changeWay, bs);
      var g := Lead(bs[|bs| - 1]).value;
      p.failure.None? &&
      p.shape.nSupport == s.nSupport &&
      p.shape.nQuery == g.Size1() - s.nSupport &&
      p.shape.nWay == (if changeWay then g.Size0() else s.nWay)
    decreases |bs|
  {
    var s' := Refresh(s, changeWay, bs[0]).value;
    if |bs| > 1 {
      assert forall k :: 0 <= k < |bs| - 1 ==> bs[1..][k] == bs[k + 1];
      RefreshAllFinalShape(s', changeWay, bs[1..]);
      assert bs[1..][|bs[1..]| - 1] == bs[|bs| - 1];
    }
  }

  /** Without `changeWay`, no pass changes `n_way`; no pass ever changes `n_support`. */
  lemma {:induction false} RefreshAllKeeps<T>(s: Shape, changeWay: bool, bs: seq<Batch<T>>)
    ensures RefreshAll(s, changeWay, bs).shape.nSupport == s.nSupport
    ensures !changeWay ==> RefreshAll(s, changeWay, bs).shape.nWay == s.nWay
    decreases |bs|
  {
    if bs != [] && Refresh(s, changeWay, bs[0]).Ok? {
      RefreshAllKeeps(Refresh(s, changeWay, bs[0]).value, changeWay, bs[1..]);
    }
  }

  /** The engine's configuration as `test_loop` uses it. */
  datatype Config<!T> = Config(
    changeWay: bool,
    isRn: bool,
    setForward: (Shape, Grid<T>) -> seq<seq<int>>,   // the algorithm's scores for a batch
    top1: seq<int> -> int)                           // `topk(1)` on one score row

  /** One episode's count, through `correct_rn` or `correct` as `isRn` selects. */
  function Score<T>(cfg: Config<T>, s: Shape, x: Grid<T>): (r: Result<Count>)
    ensures var scores := cfg.setForward(s, x);
      r.Ok? <==> s.nQuery >= 0 && NonEmptyRows(scores) &&
                 |scores| == (if s.nWay <= 0 then 0 else s.nWay * s.nQuery)
    ensures r.Ok? ==> r.value.total == |cfg.setForward(s, x)| && r.value.correct <= r.value.total
    ensures r.Ok? && !cfg.isRn ==>
      r.value.correct == |CorrectQueries(Top1Labels(cfg.setForward(s, x), cfg.top1), s.nQuery)|
    ensures r.Ok? && cfg.isRn ==>
      r.value.correct == |CorrectQueries(ArgMaxLabels(cfg.setForward(s, x)), s.nQuery)|
  {
    var scores := cfg.setForward(s, x);
    if cfg.isRn then CorrectRn(scores, s.nWay, s.nQuery)
    else Correct(scores, s.nWay, s.nQuery, cfg.top1)
  }

  /**
   * When `topk(1)` behaves as documented and no score row has a tie at the top, the count
   * does not depend on which counter `isRn` selects.
   */
  lemma ScoreIgnoresCounter<T>(cfg: Config<T>, s: Shape, x: Grid<T>)
    requires IsTopK(cfg.top1)
    requires var scores := cfg.setForward(s, x);
      forall i :: 0 <= i < |scores| ==> |scores[i]| > 0 && NoTieAtTop(scores[i])
    ensures Score(cfg, s, x) == Score(cfg.(isRn := !cfg.isRn), s, x)
  {
    CountersAgreeWithoutTies(cfg.setForward(s, x), s.nWay, s.nQuery, cfg.top1);
  }

  /** The state of `test_loop`: shape, the last `(correct_this, count_this)`, `acc_all`, failure. */
  datatype EvalRun = EvalRun(shape: Shape, last: Option<Count>, acc: seq<real>, failure: Option<Error>)

  /**
   * The `acc_all.append(correct_this / count_this * 100)` at the end of an iteration: with no
   * count yet it is an `UnboundLocal` failure, with an empty count a `ZeroDivision`; otherwise
   * one percentage in [0, 100] is appended.
   */
  function Record(run: EvalRun): (r: EvalRun)
    requires run.last.Some? ==> run.last.value.correct <= run.last.value.total
    ensures r.shape == run.shape && r.last == run.last
    ensures run.last.None? ==> r.failure == Some(UnboundLocal) && r.acc == run.acc
    ensures run.last.Some? && run.last.value.total == 0 ==> r.failure == Some(ZeroDivision) && r.acc == run.acc
    ensures run.last.Some? && run.last.value.total > 0 ==>
      r.failure == run.failure && |r.acc| == |run.acc| + 1 && r.acc[..|run.acc|] == run.acc &&
      r.acc[|run.acc|] == Percent(run.last.value) && 0.0 <= r.acc[|run.acc|] <= 100.0
  {
    match run.last
    case None => run.(failure := Some(UnboundLocal))
    case Some(c) =>
      if c.total == 0 then run.(failure := Some(ZeroDivision))
      else run.(acc := run.acc + [Percent(c)])
  }

  /**
   * One iteration of `test_loop`: refresh the shape; for a single-tensor batch recount;
   * for a list-shaped one keep the previous count; then record the percentage.
   */
  function EvalStep<T>(cfg: Config<T>, run: EvalRun, b: Batch<T>): (r: EvalRun)
    requires run.last.Some? ==> run.last.value.correct <= run.last.value.total
    ensures r.shape.nSupport == run.shape.nSupport
    ensures !cfg.changeWay ==> r.shape.nWay == run.shape.nWay
    ensures r.last.Some? ==> r.last.value.correct <= r.last.value.total
    ensures b.Multi? ==> r.last == run.last
    ensures r.failure.None? ==>
      run.failure.None? && |r.acc| == |run.acc| + 1 && r.acc[..|run.acc|] == run.acc &&
      r.last.Some? && r.last.value.total > 0 && r.acc[|run.acc|] == Percent(r.last.value) &&
      0.0 <= r.acc[|run.acc|] <= 100.0
    ensures run.failure.None? && r.failure.Some? ==> r.acc == run.acc
    ensures match Lead(b)
      case None => r.shape == run.shape && r.failure == Some(IndexError)
      case Some(_) =>
        var s := Refresh(run.shape, cfg.changeWay, b).value;
        r.shape == s &&
        match b
        case Single(x) =>
          var c := Score(cfg, s, x);
          (c.Err? ==> r.failure == Some(c.error)) &&
          (c.Ok? ==> r.last == Some(c.value)) &&
          (c.Ok? && c.value.total == 0 ==> r.failure == Some(ZeroDivision)) &&
          (r.failure.None? <==> run.failure.None? && c.Ok? && c.value.total > 0)
        case Multi(_) =>
          (run.last.None? ==> r.failure == Some(UnboundLocal)) &&
          (run.last.Some? && run.last.value.total == 0 ==> r.failure == Some(ZeroDivision)) &&
          (r.failure.None? <==> run.failure.None? && run.last.Some? && run.last.value.total > 0)
  {
    match Refresh(run.shape, cfg.changeWay, b)
    case Err(e) => run.(failure := Some(e))
    case Ok(s) =>
      match b
      case Multi(_) => Record(run.(shape := s))
      case Single(x) => Recount(cfg, run.(shape := s), x)
  }

  /**
   * The count of a single-tensor episode under the refreshed shape: a failing counter passes
   * its error on, otherwise the new count is recorded.
   */
  function Recount<T>(cfg: Config<T>, run: EvalRun, x: Grid<T>): (r: EvalRun)
    requires run.last.Some? ==> run.last.value.correct <= run.last.value.total
    ensures var c := Score(cfg, run.shape, x);
      (c.Err? ==> r == run.(failure := Some(c.error))) &&
      (c.Ok? ==> r == Record(run.(last := Some(c.value))))
  {
    match Score(cfg, run.shape, x)
    case Err(e) => run.(failure := Some(e))
    case Ok(c) => Record(run.(last := Some(c)))
  }

  /** `test_loop`'s loop over the episodes, stopping at the first failure. */
  function Evaluate<T>(cfg: Config<T>, run: EvalRun, bs: seq<Batch<T>>): (r: EvalRun)
    requires run.last.Some? ==> run.last.value.correct <= run.last.value.total
    ensures run.failure.Some? ==> r == run
    ensures r.shape.nSupport == run.shape.nSupport
    ensures !cfg.changeWay ==> r.shape.nWay == run.shape.nWay
    ensures r.last.Some? ==> r.last.value.correct <= r.last.value.total
    ensures run.acc <= r.acc
    decreases |bs|
  {
    if bs == [] || run.failure.Some? then run
    else
      var next := EvalStep(cfg, run, bs[0]);
      Evaluate(cfg, next, bs[1..])
  }

  /** The run `test_loop` starts from: no count yet, no accuracy yet. */
  function Start(s: Shape): EvalRun
  {
    EvalRun(s, None, [], None)
  }

  /**
   * The consistency `test_loop` keeps: every entry is a percentage, the last count is
   * well-formed, and the newest entry is the percentage of the last count.
   */
  ghost predicate Consistent(run: EvalRun)
  {
    (forall k :: 0 <= k < |run.acc| ==> 0.0 <= run.acc[k] <= 100.0) &&
    (run.last.Some? ==> run.last.value.correct <= run.last.value.total) &&
    (|run.acc| > 0 ==>
      run.last.Some? && run.last.value.total > 0 && run.acc[|run.acc| - 1] == Percent(run.last.value))
  }

  /**
   * From a consistent run without failure: the result is consistent, extends the old
   * entries, adds one entry per episode when nothing fails, and a list-shaped episode
   * (other than the very first entry) repeats the entry before it.
   */
  lemma {:induction false} EvaluateEntries<T>(cfg: Config<T>, run: EvalRun, bs: seq<Batch<T>>)
    requires Consistent(run) && run.failure.None?
    ensures var out := Evaluate(cfg, run, bs);
      (out.failure.None? ==> Consistent(out)) &&
      run.acc <= out.acc &&
      (out.failure.None? ==> |out.acc| == |run.acc| + |bs|) &&
      (out.failure.None? ==> forall k :: |run.acc| <= k < |out.acc| && 0 < k && bs[k - |run.acc|].Multi? ==>
                               out.acc[k] == out.acc[k - 1])
  {
    EvaluateConsistent(cfg, run, bs);
    var out := Evaluate(cfg, run, bs);
    if out.failure.None? {
      forall k | |run.acc| <= k < |out.acc| && 0 < k && bs[k - |run.acc|].Multi?
        ensures out.acc[k] == out.acc[k - 1]
      {
        RepeatAt(cfg, run, bs, k);
      }
    }
  }

  /** Without failure, a pass keeps the run consistent and adds one entry per episode. */
  lemma {:induction false} EvaluateConsistent<T>(cfg: Config<T>, run: EvalRun, bs: seq<Batch<T>>)
    requires Consistent(run) && run.failure.None?
    ensures var out := Evaluate(cfg, run, bs);
      out.failure.None? ==> Consistent(out) && |out.acc| == |run.acc| + |bs|
    decreases |bs|
  {
    if bs != [] {
      var next := EvalStep(cfg, run, bs[0]);
      StepConsistent(cfg, run, bs[0]);
      if next.failure.None? {
        EvaluateConsistent(cfg, next, bs[1..]);
      }
    }
  }

  /** Without failure, entry `k` of a list-shaped episode repeats the entry before it. */
  lemma {:induction false} RepeatAt<T>(cfg: Config<T>, run: EvalRun, bs: seq<Batch<T>>, k: nat)
    requires Consistent(run) && run.failure.None?
    requires |run.acc| <= k < |run.acc| + |bs| && 0 < k && bs[k - |run.acc|].Multi?
    requires Evaluate(cfg, run, bs).failure.None?
    ensures var out := Evaluate(cfg, run, bs);
      k < |out.acc| && out.acc[k] == out.acc[k - 1]
    decreases k - |run.acc|, 1
  {
    if k == |run.acc| {
      var next := EvalStep(cfg, run, bs[0]);
      EvaluateUnfold(cfg, run, bs);
      StepConsistent(cfg, run, bs[0]);
      assert next.acc <= Evaluate(cfg, run, bs).acc;
    } else {
      LaterRepeat(cfg, run, bs, k);
    }
  }

  /** A later repeat is the same repeat seen from the run after the first step. */
  lemma {:induction false} LaterRepeat<T>(cfg: Config<T>, run: EvalRun, bs: seq<Batch<T>>, k: nat)
    requires Consistent(run) && run.failure.None?
    requires |run.acc| < k < |run.acc| + |bs| && bs[k - |run.acc|].Multi?
    requires Evaluate(cfg, run, bs).failure.None?
    ensures var out := Evaluate(cfg, run, bs);
      k < |out.acc| && out.acc[k] == out.acc[k - 1]
    decreases k - |run.acc|, 0
  {
    var next := EvalStep(cfg, run, bs[0]);
    EvaluateUnfold(cfg, run, bs);
    StepConsistent(cfg, run, bs[0]);
    assert bs[1..][k - |next.acc|] == bs[k - |run.acc|];
    RepeatAt(cfg, next, bs[1..], k);
  }

  /** One step keeps a run consistent, and a list-shaped episode repeats the previous entry. */
  lemma StepConsistent<T>(cfg: Config<T>, run: EvalRun, b: Batch<T>)
    requires Consistent(run) && run.failure.None?
    ensures var next := EvalStep(cfg, run, b);
      next.failure.None? ==>
        Consistent(next) &&
        (forall k :: 0 <= k < |run.acc| ==> next.acc[k] == run.acc[k]) &&
        (b.Multi? && |run.acc| > 0 ==> next.acc[|run.acc|] == next.acc[|run.acc| - 1])
  {
    var next := EvalStep(cfg, run, b);
    if next.failure.None? {
      assert forall k :: 0 <= k < |run.acc| ==> next.acc[k] == run.acc[k] by {
        assert next.acc[..|run.acc|] == run.acc;
      }
    }
  }

  /**
   * The result of `test_loop` when no episode fails: one entry per episode, each in [0, 100];
   * a single-tensor episode's entry is the percentage of its own count, taken under the shape
   * refreshed from the batches so far; a list-shaped episode repeats the previous entry; and
   * the final shape is the one `train_loop`'s refresh reaches over the same batches.
   */
  lemma TestLoopEntries<T>(cfg: Config<T>, s: Shape, bs: seq<Batch<T>>)
    ensures var out := Evaluate(cfg, Start(s), bs);
      out.failure.None? ==>
        |out.acc| == |bs| &&
        (forall k :: 0 <= k < |bs| ==> 0.0 <= out.acc[k] <= 100.0) &&
        (forall k :: 0 <= k < |bs| && bs[k].Single? ==>
          var c := Score(cfg, RefreshAll(s, cfg.changeWay, bs[..k + 1]).shape, bs[k].x);
          c.Ok? && c.value.total > 0 && out.acc[k] == Percent(c.value)) &&
        (forall k :: 0 < k < |bs| && bs[k].Multi? ==> out.acc[k] == out.acc[k - 1]) &&
        out.shape == RefreshAll(s, cfg.changeWay, bs).shape
  {
    EvaluateEntries(cfg, Start(s), bs);
    EvaluateShape(cfg, Start(s), bs);
    var out := Evaluate(cfg, Start(s), bs);
    if out.failure.None? {
      forall k | 0 <= k < |bs| && bs[k].Single?
        ensures var c := Score(cfg, RefreshAll(s, cfg.changeWay, bs[..k + 1]).shape, bs[k].x);
          c.Ok? && c.value.total > 0 && out.acc[k] == Percent(c.value)
      {
        SingleEntryAt(cfg, Start(s), bs, k);
      }
    }
  }

  /** Without failure, `test_loop` ends in the shape that refreshing over the same batches gives. */
  lemma {:induction false} EvaluateShape<T>(cfg: Config<T>, run: EvalRun, bs: seq<Batch<T>>)
    requires run.failure.None?
    requires run.last.Some? ==> run.last.value.correct <= run.last.value.total
    ensures Evaluate(cfg, run, bs).failure.None? ==>
      RefreshAll(run.shape, cfg.changeWay, bs).failure.None? &&
      Evaluate(cfg, run, bs).shape == RefreshAll(run.shape, cfg.changeWay, bs).shape
    decreases |bs|
  {
    if bs != [] {
      var next := EvalStep(cfg, run, bs[0]);
      if next.failure.None? {
        EvaluateShape(cfg, next, bs[1..]);
      }
    }
  }

  /** Refreshing over the first `k + 1` batches is the first refresh, then the next `k`. */
  lemma RefreshAllPrefix<T>(s: Shape, changeWay: bool, bs: seq<Batch<T>>, k: nat)
    requires k < |bs| && Refresh(s, changeWay, bs[0]).Ok?
    ensures RefreshAll(s, changeWay, bs[..k + 1]) ==
      RefreshAll(Refresh(s, changeWay, bs[0]).value, changeWay, bs[1..][..k])
  {
    assert bs[..k + 1][0] == bs[0];
    assert bs[..k + 1][1..] == bs[1..][..k];
  }

  /** Entry `i` of `out` exists and is the percentage of the count `c`, which is non-empty. */
  ghost predicate EntryOf(out: EvalRun, i: nat, c: Result<Count>)
  {
    i < |out.acc| && c.Ok? && c.value.correct <= c.value.total && c.value.total > 0 &&
    out.acc[i] == Percent(c.value)
  }

  /**
   * Without failure, the entry of the single-tensor episode at position `k` is the percentage
   * of that episode's own count, under the shape refreshed from the batches up to and
   * including it; by induction on `k`.
   */
  lemma {:induction false} SingleEntryAt<T>(cfg: Config<T>, run: EvalRun, bs: seq<Batch<T>>, k: nat)
    requires run.failure.None? && (run.last.Some? ==> run.last.value.correct <= run.last.value.total)
    requires k < |bs| && bs[k].Single? && Evaluate(cfg, run, bs).failure.None?
    ensures EntryOf(Evaluate(cfg, run, bs), |run.acc| + k,
                    Score(cfg, RefreshAll(run.shape, cfg.changeWay, bs[..k + 1]).shape, bs[k].x))
    decreases k, 1
  {
    if k == 0 {
      FirstSingleEntry(cfg, run, bs);
    } else {
      LaterSingleEntry(cfg, run, bs, k);
    }
  }

  /** A later single-tensor entry is the entry one position earlier in the rest of the episodes. */
  lemma {:induction false} LaterSingleEntry<T>(cfg: Config<T>, run: EvalRun, bs: seq<Batch<T>>, k: nat)
    requires run.failure.None? && (run.last.Some? ==> run.last.value.correct <= run.last.value.total)
    requires 0 < k < |bs| && bs[k].Single? && Evaluate(cfg, run, bs).failure.None?
    ensures EntryOf(Evaluate(cfg, run, bs), |run.acc| + k,
                    Score(cfg, RefreshAll(run.shape, cfg.changeWay, bs[..k + 1]).shape, bs[k].x))
    decreases k, 0
  {
    var next := EvalStep(cfg, run, bs[0]);
    ShiftEntry(cfg, run, bs, k);
    SingleEntryAt(cfg, next, bs[1..], k - 1);
  }

  /** After the first step, position `k` of the episodes is position `k - 1` of the rest. */
  lemma ShiftEntry<T>(cfg: Config<T>, run: EvalRun, bs: seq<Batch<T>>, k: nat)
    requires run.failure.None? && (run.last.Some? ==> run.last.value.correct <= run.last.value.total)
    requires 0 < k < |bs| && Evaluate(cfg, run, bs).failure.None?
    ensures var next := EvalStep(cfg, run, bs[0]);
      next.failure.None? && |next.acc| + (k - 1) == |run.acc| + k &&
      (next.last.Some? ==> next.last.value.correct <= next.last.value.total) &&
      Evaluate(cfg, run, bs) == Evaluate(cfg, next, bs[1..]) &&
      bs[1..][k - 1] == bs[k] &&
      RefreshAll(run.shape, cfg.changeWay, bs[..k + 1]).shape ==
        RefreshAll(next.shape, cfg.changeWay, bs[1..][..k - 1 + 1]).shape
  {
    EvaluateUnfold(cfg, run, bs);
    RefreshAllPrefix(run.shape, cfg.changeWay, bs, k);
    assert bs[1..][..k - 1 + 1] == bs[1..][..k];
  }

  /** The entry of a single-tensor first episode is the percentage of its own count. */
  lemma FirstSingleEntry<T>(cfg: Config<T>, run: EvalRun, bs: seq<Batch<T>>)
    requires run.failure.None? && (run.last.Some? ==> run.last.value.correct <= run.last.value.total)
    requires bs != [] && bs[0].Single? && Evaluate(cfg, run, bs).failure.None?
    ensures EntryOf(Evaluate(cfg, run, bs), |run.acc|,
                    Score(cfg, RefreshAll(run.shape, cfg.changeWay, bs[..1]).shape, bs[0].x))
  {
    var next := EvalStep(cfg, run, bs[0]);
    var out := Evaluate(cfg, run, bs);
    EvaluateUnfold(cfg, run, bs);
    RefreshAllPrefix(run.shape, cfg.changeWay, bs, 0);
    assert bs[1..][..0] == [];
    assert next.acc <= out.acc;
  }

  /** One step of `test_loop`'s loop, when the run has not failed and an episode is left. */
  lemma EvaluateUnfold<T>(cfg: Config<T>, run: EvalRun, bs: seq<Batch<T>>)
    requires run.last.Some? ==> run.last.value.correct <= run.last.value.total
    requires bs != [] && run.failure.None?
    ensures Evaluate(cfg, run, bs) == Evaluate(cfg, EvalStep(cfg, run, bs[0]), bs[1..])
    ensures Evaluate(cfg, run, bs).failure.None? ==> EvalStep(cfg, run, bs[0]).failure.None?
  {
  }

  /**
   * A list-shaped first episode fails: with no modality reading `x[0]` is an `IndexError`,
   * otherwise there is no previous count to reuse.
   */
  lemma FirstListEpisodeFails<T>(cfg: Config<T>, s: Shape, bs: seq<Batch<T>>)
    requires bs != [] && bs[0].Multi?
    ensures Evaluate(cfg, Start(s), bs).failure == Some(if bs[0].parts == [] then IndexError else UnboundLocal)
  {
    var next := EvalStep(cfg, Start(s), bs[0]);
    assert next.failure == Some(if bs[0].parts == [] then IndexError else UnboundLocal);
    EvaluateUnfold(cfg, Start(s), bs);
  }

  function Sum(xs: seq<real>): real
  {
    if xs == [] then 0.0 else xs[0] + Sum(xs[1..])
  }

  /** `np.mean`: the sum shared out over the entries; `None` stands for the NaN of an empty list. */
  function Mean(xs: seq<real>): (r: Option<real>)
    ensures r.None? <==> xs == []
    ensures r.Some? ==> (|xs| as real) * r.value == Sum(xs)
  {
    if xs == [] then None else Some(Sum(xs) / (|xs| as real))
  }

  function SquaredDeviations(xs: seq<real>, m: real): (r: real)
    ensures r >= 0.0
  {
    if xs == [] then 0.0
    else
      SquareFacts(xs[0] - m);
      Square(xs[0] - m) + SquaredDeviations(xs[1..], m)
  }

  /** The population variance whose square root `np.std` returns; `None` for an empty list. */
  function Variance(xs: seq<real>): (r: Option<real>)
    ensures r.None? <==> xs == []
    ensures r.Some? ==> r.value >= 0.0
  {
    if xs == [] then None else Some(SquaredDeviations(xs, Mean(xs).value) / (|xs| as real))
  }

  function Square(d: real): real { d * d }

  /** A square is non-negative, and zero only for zero. */
  lemma SquareFacts(d: real)
    ensures Square(d) >= 0.0
    ensures Square(d) == 0.0 <==> d == 0.0
  {
    if d > 0.0 {
      PositiveProduct(d, d, Square(d));
    } else if d < 0.0 {
      PositiveProduct(-d, -d, Square(d));
    }
  }

  /** The product of two positive reals (or of their negations) is positive. */
  lemma PositiveProduct(a: real, b: real, p: real)
    requires a > 0.0 && b > 0.0 && (p == a * b || p == (-a) * (-b))
    ensures p > 0.0
  {
  }

  /** The squared deviations from `m` vanish exactly when every entry is `m`. */
  lemma {:induction false} SquaredDeviationsZero(xs: seq<real>, m: real)
    ensures SquaredDeviations(xs, m) == 0.0 <==> forall k :: 0 <= k < |xs| ==> xs[k] == m
  {
    if xs != [] {
      SquaredDeviationsZero(xs[1..], m);
      SquareFacts(xs[0] - m);
      if forall k :: 0 <= k < |xs| ==> xs[k] == m {
        assert forall k :: 0 <= k < |xs[1..]| ==> xs[1..][k] == xs[k + 1];
      } else if xs[0] == m {
        var k :| 0 < k < |xs| && xs[k] != m;
        assert xs[1..][k - 1] != m;
      }
    }
  }

  /**
   * The variance (and so `np.std`) of a non-empty list is zero exactly when all entries are
   * equal.
   */
  lemma VarianceZeroIffConstant(xs: seq<real>)
    requires xs != []
    ensures Variance(xs).value == 0.0 <==> forall j, k :: 0 <= j < |xs| && 0 <= k < |xs| ==> xs[j] == xs[k]
  {
    var m := Mean(xs).value;
    var n := |xs| as real;
    SquaredDeviationsZero(xs, m);
    assert Variance(xs).value == 0.0 <==> SquaredDeviations(xs, m) == 0.0;
    if forall j, k :: 0 <= j < |xs| && 0 <= k < |xs| ==> xs[j] == xs[k] {
      ConstantAccuracies(xs, xs[0]);
    }
  }

  lemma {:induction false} SumBounds(xs: seq<real>, lo: real, hi: real)
    requires forall k :: 0 <= k < |xs| ==> lo <= xs[k] <= hi
    ensures (|xs| as real) * lo <= Sum(xs) <= (|xs| as real) * hi
  {
    if xs != [] {
      SumBounds(xs[1..], lo, hi);
    }
  }

  /** The mean of entries in [lo, hi] lies in [lo, hi]. */
  lemma MeanBounds(xs: seq<real>, lo: real, hi: real)
    requires xs != []
    requires forall k :: 0 <= k < |xs| ==> lo <= xs[k] <= hi
    ensures lo <= Mean(xs).value <= hi
  {
    SumBounds(xs, lo, hi);
    var n := |xs| as real;
    assert n * lo / n == lo && n * hi / n == hi;
  }

  lemma {:induction false} ConstantSums(xs: seq<real>, c: real)
    requires forall k :: 0 <= k < |xs| ==> xs[k] == c
    ensures Sum(xs) == (|xs| as real) * c
    ensures SquaredDeviations(xs, c) == 0.0
  {
    if xs != [] {
      ConstantSums(xs[1..], c);
    }
  }

  /**
   * Episodes that all score the same percentage (the all-100% case among them) have that
   * mean and zero variance, so the reported standard deviation and the 95% half-width
   * `1.96 * std / sqrt(n)` are both zero.
   */
  lemma ConstantAccuracies(xs: seq<real>, c: real)
    requires xs != []
    requires forall k :: 0 <= k < |xs| ==> xs[k] == c
    ensures Mean(xs) == Some(c)
    ensures Variance(xs) == Some(0.0)
  {
    ConstantSums(xs, c);
    var n := |xs| as real;
    assert Sum(xs) / n == c;
  }
}
