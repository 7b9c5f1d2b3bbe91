/**
 * `MetaTemplate`, the engine every few-shot algorithm builds on: its episode-shape fields,
 * the training and evaluation loops that refresh them batch by batch, and the index
 * bookkeeping of the linear-probe adaptation.
 */
module MetaTemplates {
  import opened Failures
  import opened Sequences
  import opened Episodes
  import opened Scoring
  import opened Evaluation
  import opened Adaptation

  /** What `test_loop` reports: the per-episode percentages, their mean and their variance. */
  datatype Summary = Summary(accAll: seq<real>, mean: Option<real>, variance: Option<real>)

  /** What the adaptation works on: flattened support, its labels, flattened query, the mini-batches per epoch. */
  datatype AdaptationPlan<T> = AdaptationPlan(
    support: seq<T>, labels: seq<int>, query: seq<T>, epochs: seq<seq<seq<int>>>)

  class MetaTemplate<T> {
    var nWay: int
    var nSupport: nat
    var nQuery: int
    const feature: Backbone<T>
    const changeWay: bool
    const isRn: bool

    function CurrentShape(): Shape
      reads this
    {
      Shape(nWay, nSupport, nQuery)
    }

    /** `n_query` is unknown (-1) until the first batch arrives. */
    constructor (backbone: Backbone<T>, nWay: int, nSupport: nat, changeWay: bool, isRn: bool)
      ensures CurrentShape() == Shape(nWay, nSupport, -1)
      ensures feature == backbone && this.changeWay == changeWay && this.isRn == isRn
    {
      this.nWay := nWay;
      this.nSupport := nSupport;
      this.nQuery := -1;
      feature := backbone;
      this.changeWay := changeWay;
      this.isRn := isRn;
    }

    /**
     * The refresh at the head of each iteration of `train_loop` and `test_loop`. It fails,
     * leaving the fields alone, only on an empty list of modalities.
     */
    method RefreshShape(b: Batch<T>) returns (ok: bool)
      modifies this
      ensures ok <==> Lead(b).Some?
      ensures ok ==> CurrentShape() == Refresh(old(CurrentShape()), changeWay, b).value
      ensures !ok ==> CurrentShape() == old(CurrentShape())
      ensures nSupport == old(nSupport)
      ensures ok ==> nSupport + nQuery == Lead(b).value.Size1()
      ensures ok && !changeWay ==> nWay == old(nWay)
    {
      var lead: Grid<T>;
      match b {
        case Single(x) =>
          lead := x;
        case Multi(parts) =>
          if parts == [] {
            return false;
          }
          lead := parts[0];
      }
      nQuery := lead.Size1() - nSupport;
      if changeWay {
        nWay := lead.Size0();
      }
      ok := true;
    }

    /**
     * The shape bookkeeping of `train_loop`: one refresh per batch; a failure ends the epoch.
     * The loss, the backward pass and the optimizer step are not part of the model.
     */
    method TrainLoop(batches: seq<Batch<T>>) returns (failure: Option<Error>)
      modifies this
      ensures Progress(CurrentShape(), failure) == RefreshAll(old(CurrentShape()), changeWay, batches)
    {
      var i := 0;
      while i < |batches|
        invariant 0 <= i <= |batches|
        invariant RefreshAll(CurrentShape(), changeWay, batches[i..]) == RefreshAll(old(CurrentShape()), changeWay, batches)
      {
        assert batches[i..][1..] == batches[i + 1..];
        var ok := RefreshShape(batches[i]);
        if !ok {
          return Some(IndexError);
        }
        i := i + 1;
      }
      failure := None;
    }

    /**
     * `test_loop`: refresh the shape per episode, count single-tensor episodes with
     * `correct_rn` or `correct`, and append the percentage of the latest count.
     */
    method TestLoop(batches: seq<Batch<T>>, setForward: (Shape, Grid<T>) -> seq<seq<int>>, top1: seq<int> -> int)
      returns (r: Result<Summary>)
      modifies this
      ensures var out := Evaluate(Config(changeWay, isRn, setForward, top1), Start(old(CurrentShape())), batches);
        CurrentShape() == out.shape &&
        (r.Ok? <==> out.failure.None?) &&
        (r.Err? ==> r.error == out.failure.value) &&
        (r.Ok? ==> r.value == Summary(out.acc, Mean(out.acc), Variance(out.acc)))
    {
      ghost var cfg := Config(changeWay, isRn, setForward, top1);
      var correctThis: Option<Count> := None;   // `correct_this, count_this`, unbound at first
      var accAll: seq<real> := [];
      var i := 0;
      while i < |batches|
        invariant 0 <= i <= |batches|
        invariant correctThis.Some? ==> correctThis.value.correct <= correctThis.value.total
        invariant Evaluate(cfg, EvalRun(CurrentShape(), correctThis, accAll, None), batches[i..]) ==
                  Evaluate(cfg, Start(old(CurrentShape())), batches)
      {
        ghost var run := EvalRun(CurrentShape(), correctThis, accAll, None);
        assert batches[i..][1..] == batches[i + 1..];
        ghost var next := EvalStep(cfg, run, batches[i]);
        var ok := RefreshShape(batches[i]);
        if !ok {
          return Err(IndexError);
        }
        if batches[i].Single? {
          var scores := setForward(CurrentShape(), batches[i].x);
          var c := if isRn then CorrectRn(scores, nWay, nQuery) else Correct(scores, nWay, nQuery, top1);
          if c.Err? {
            return Err(c.error);
          }
          correctThis := Some(c.value);
        }
        if correctThis.None? {
          return Err(UnboundLocal);
        }
        if correctThis.value.total == 0 {
          return Err(ZeroDivision);
        }
        accAll := accAll + [Percent(correctThis.value)];
        assert next == EvalRun(CurrentShape(), correctThis, accAll, None);
        i := i + 1;
      }
      r := Ok(Summary(accAll, Mean(accAll), Variance(accAll)));
    }

    /**
     * `set_forward_adaptation` up to the classifier training: the feature must be fixed, the
     * batch is split, support and query are flattened, the support labels built, and each of
     * the `Epochs` epochs walks its permutation `perms[e]` in mini-batches of `BatchSize`.
     */
    method SetForwardAdaptation(x: Batch<T>, isFeature: bool, perms: seq<seq<int>>)
      returns (r: Result<AdaptationPlan<T>>)
      requires |perms| == Epochs
      requires forall e :: 0 <= e < |perms| ==> IsPermutation(perms[e], nWay * nSupport)
      ensures !isFeature ==> r == Err(FeatureNotFixed)
      ensures r.Ok? <==>
        isFeature && x.Single? &&
        var sp := SplitAt(x.x.rows, nSupport);
        nWay * nSupport > 0 && |Flatten(sp.support)| == nWay * nSupport &&
        nWay * nQuery > 0 && |Flatten(sp.query)| == nWay * nQuery
      ensures r.Ok? ==>
        var sp := SplitAt(x.x.rows, nSupport);
        var plan := r.value;
        plan.support == Flatten(sp.support) && plan.query == Flatten(sp.query) &&
        |plan.labels| == |plan.support| &&
        (forall i :: 0 <= i < |plan.labels| ==> plan.labels[i] == i / nSupport) &&
        |plan.epochs| == Epochs &&
        forall e :: 0 <= e < Epochs ==>
          plan.epochs[e] == Chunks(perms[e], BatchSize) &&
          (forall k :: 0 <= k < |plan.epochs[e]| ==> 0 < |plan.epochs[e][k]| <= BatchSize) &&
          (forall v :: multiset(Flatten(plan.epochs[e]))[v] == if 0 <= v < nWay * nSupport then 1 else 0)
    {
      if !isFeature {
        return Err(FeatureNotFixed);
      }
      var parsed := ParseFeature(CurrentShape(), feature, x, isFeature);
      if parsed.Err? {
        return Err(parsed.error);
      }
      var zSupport := Flatten(parsed.value.support);
      var zQuery := Flatten(parsed.value.query);
      if !(nWay * nSupport > 0 && |zSupport| == nWay * nSupport) {
        return Err(ShapeError);
      }
      if !(nWay * nQuery > 0 && |zQuery| == nWay * nQuery) {
        return Err(ShapeError);
      }
      var ySupport := CanonicalLabels(nWay, nSupport);
      forall i | 0 <= i < |ySupport|
        ensures ySupport[i] == i / nSupport
      {
        CanonicalLabelAt(nWay, nSupport, i);
      }
      var supportSize := nWay * nSupport;
      var epochs: seq<seq<seq<int>>> := [];
      for epoch := 0 to Epochs
        invariant |epochs| == epoch
        invariant forall e :: 0 <= e < epoch ==> epochs[e] == Chunks(perms[e], BatchSize)
      {
        var randId := perms[epoch];
        PermutationLength(randId, supportSize);
        var batches := MiniBatches(randId, supportSize);
        epochs := epochs + [batches];
      }
      forall e | 0 <= e < Epochs
        ensures (forall k :: 0 <= k < |epochs[e]| ==> 0 < |epochs[e][k]| <= BatchSize) &&
                (forall v :: multiset(Flatten(epochs[e]))[v] == if 0 <= v < supportSize then 1 else 0)
      {
        EpochVisitsEachOnce(perms[e], supportSize);
      }
      r := Ok(AdaptationPlan(zSupport, ySupport, zQuery, epochs));
    }
  }
}
