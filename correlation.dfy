/**
 * The regression metric `correlation`: predictions and query targets are flattened and
 * handed to a Pearson correlation; any other correlation type is refused.
 */
module Correlation {
  import opened Failures
  import opened Sequences
  import opened Episodes

  /** The two flattened sequences a Pearson correlation is computed between. */
  datatype PearsonInputs = PearsonInputs(predicted: seq<real>, observed: seq<real>)

  /**
   * `correlation(x, y, type)` given the predictions `preds` the algorithm returns for the
   * episode: `y[:, n_support:]` flattened is the observed side. The correlation value itself
   * is computed outside the model.
   */
  function CorrelationInputs(nSupport: nat, preds: seq<seq<real>>, y: seq<seq<real>>, kind: string): (r: Result<PearsonInputs>)
    ensures r.Err? <==> kind != "pearson"
    ensures r.Err? ==> r.error == UnsupportedCorrelation(kind)
    ensures r.Ok? ==> r.value.predicted == Flatten(preds)
  {
    var predicted := Flatten(preds);
    var observed := Flatten(SplitAt(y, nSupport).query);
    if kind == "pearson" then Ok(PearsonInputs(predicted, observed))
    else Err(UnsupportedCorrelation(kind))
  }

  /**
   * For targets with `nSupport + q` columns per class, the observed side lists, class by
   * class, the `q` query targets: entry `i * q + j` is `y[i][nSupport + j]`.
   */
  lemma ObservedAreQueryTargets(nSupport: nat, preds: seq<seq<real>>, y: seq<seq<real>>, q: nat, i: nat, j: nat)
    requires forall r :: 0 <= r < |y| ==> |y[r]| == nSupport + q
    requires i < |y| && j < q
    ensures var obs := CorrelationInputs(nSupport, preds, y, "pearson").value.observed;
      |obs| == |y| * q && i * q + j < |obs| && obs[i * q + j] == y[i][nSupport + j]
  {
    var sp := SplitAt(y, nSupport);
    assert forall r :: 0 <= r < |y| ==> |sp.query[r]| == q;
    FlattenAt(sp.query, q, i, j);
    assert sp.support[i] + sp.query[i] == y[i];
  }
}
