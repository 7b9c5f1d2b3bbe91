/**
 * The two correctness counters: `correct` (top-1 through `topk`) and `correct_rn`
 * (`argmax` over relation scores), both against the canonical query labels.
 */
module Scoring {
  import opened Failures
  import opened Episodes

  /** `(correct, total)` for one episode. */
  datatype Count = Count(correct: nat, total: nat)

  /** `k` indexes a largest entry of `row`. */
  predicate IsTop1(row: seq<int>, k: int)
  {
    0 <= k < |row| && forall j :: 0 <= j < |row| ==> row[j] <= row[k]
  }

  /** No two positions share the largest score. */
  predicate NoTieAtTop(row: seq<int>)
  {
    forall i, j :: 0 <= i < |row| && 0 <= j < |row| && IsTop1(row, i) && IsTop1(row, j) ==> i == j
  }

  /**
   * What `topk(1)` is known to return: some index of a largest entry of a non-empty row.
   * Which one it picks among equal scores is left open.
   */
  ghost predicate IsTopK(top1: seq<int> -> int)
  {
    forall row: seq<int> :: |row| > 0 ==> IsTop1(row, top1(row))
  }

  /** `torch.argmax`: the first index of a largest entry. */
  function ArgMax(row: seq<int>): (k: nat)
    requires |row| > 0
    ensures IsTop1(row, k)
    ensures forall j :: 0 <= j < k ==> row[j] < row[k]
  {
    if |row| == 1 then 0
    else
      var k := ArgMax(row[..|row| - 1]);
      if row[|row| - 1] > row[k] then |row| - 1 else k
  }

  /** Without a tie at the top, every top-1 index is the argmax. */
  lemma Top1IsArgMax(row: seq<int>, k: int)
    requires NoTieAtTop(row) && IsTop1(row, k)
    ensures k == ArgMax(row)
  {
    assert IsTop1(row, ArgMax(row));
  }

  predicate NonEmptyRows(scores: seq<seq<int>>)
  {
    forall i :: 0 <= i < |scores| ==> |scores[i]| > 0
  }

  /** The positions where `preds` and `labels` agree. */
  function Agreements(preds: seq<int>, labels: seq<int>): set<int>
    requires |preds| == |labels|
  {
    set i | 0 <= i < |preds| && preds[i] == labels[i]
  }

  /** `np.sum(preds == labels)`: how many positions of `preds` agree with `labels`. */
  function Matches(preds: seq<int>, labels: seq<int>): (c: nat)
    requires |preds| == |labels|
    ensures c == |Agreements(preds, labels)|
    ensures c <= |preds|
    ensures c == |preds| <==> preds == labels
    decreases |preds|
  {
    if preds == [] then 0
    else
      var n := |preds| - 1;
      AgreementsLast(preds, labels);
      Matches(preds[..n], labels[..n]) + (if preds[n] == labels[n] then 1 else 0)
  }

  /**
   * The agreements of two non-empty sequences are those of their prefixes without the last
   * position, plus that position when it agrees.
   */
  lemma AgreementsLast(preds: seq<int>, labels: seq<int>)
    requires |preds| == |labels| > 0
    ensures var n := |preds| - 1;
      |Agreements(preds, labels)| ==
        |Agreements(preds[..n], labels[..n])| + (if preds[n] == labels[n] then 1 else 0)
    ensures var n := |preds| - 1;
      preds == labels <==> preds[..n] == labels[..n] && preds[n] == labels[n]
  {
    var n := |preds| - 1;
    var a := Agreements(preds, labels);
    var b := Agreements(preds[..n], labels[..n]);
    assert n !in b;
    if preds[n] == labels[n] {
      assert a == b + {n};
    } else {
      assert a == b;
    }
    assert preds == preds[..n] + [preds[n]] && labels == labels[..n] + [labels[n]];
  }

  /** The queries whose predicted class is their canonical label `i / nQuery`. */
  function CorrectQueries(preds: seq<int>, nQuery: int): set<int>
  {
    set i | 0 <= i < |preds| && nQuery > 0 && preds[i] == i / nQuery
  }

  /** `topk(1)` row by row. */
  function Top1Labels(scores: seq<seq<int>>, top1: seq<int> -> int): (p: seq<int>)
    ensures |p| == |scores|
    ensures forall i :: 0 <= i < |scores| ==> p[i] == top1(scores[i])
  {
    seq(|scores|, i requires 0 <= i < |scores| => top1(scores[i]))
  }

  /** `torch.argmax` row by row. */
  function ArgMaxLabels(scores: seq<seq<int>>): (p: seq<int>)
    requires NonEmptyRows(scores)
    ensures |p| == |scores|
    ensures forall i :: 0 <= i < |scores| ==> p[i] == ArgMax(scores[i])
    ensures forall i :: 0 <= i < |scores| ==> IsTop1(scores[i], p[i])
  {
    seq(|scores|, i requires 0 <= i < |scores| => ArgMax(scores[i]))
  }

  /**
   * `correct`: builds the labels (a negative `nQuery` fails in `np.repeat`), takes `topk(1)` per
   * row (an empty row fails) and compares element-wise (rows and labels must match in number).
   */
  function Correct(scores: seq<seq<int>>, nWay: int, nQuery: int, top1: seq<int> -> int): (r: Result<Count>)
    ensures r.Ok? <==> nQuery >= 0 && NonEmptyRows(scores) && |scores| == (if nWay <= 0 then 0 else nWay * nQuery)
    ensures r.Err? ==> r.error == (if nQuery < 0 then NegativeRepeat else ShapeError)
    ensures r.Ok? ==> r.value.total == |scores| && r.value.correct <= r.value.total
    ensures r.Ok? ==> r.value.correct == |CorrectQueries(Top1Labels(scores, top1), nQuery)|
  {
    match Labels(nWay, nQuery)
    case Err(e) => Err(e)
    case Ok(labels) =>
      if !NonEmptyRows(scores) || |scores| != |labels| then Err(ShapeError)
      else
        var preds := Top1Labels(scores, top1);
        MatchesCanonical(preds, nWay, nQuery);
        Ok(Count(Matches(preds, labels), |labels|))
  }

  /**
   * `correct_rn`: `argmax` per row first (an empty row fails before the labels are built),
   * then the labels and the element-wise comparison.
   */
  function CorrectRn(scores: seq<seq<int>>, nWay: int, nQuery: int): (r: Result<Count>)
    ensures r.Ok? <==> nQuery >= 0 && NonEmptyRows(scores) && |scores| == (if nWay <= 0 then 0 else nWay * nQuery)
    ensures r.Err? ==> r.error == (if NonEmptyRows(scores) && nQuery < 0 then NegativeRepeat else ShapeError)
    ensures r.Ok? ==> r.value.total == |scores| && r.value.correct <= r.value.total
    ensures r.Ok? ==> r.value.correct == |CorrectQueries(ArgMaxLabels(scores), nQuery)|
  {
    if !NonEmptyRows(scores) then Err(ShapeError)
    else
      var preds := ArgMaxLabels(scores);
      match Labels(nWay, nQuery)
      case Err(e) => Err(e)
      case Ok(labels) =>
        if |preds| != |labels| then Err(ShapeError)
        else
          MatchesCanonical(preds, nWay, nQuery);
          Ok(Count(Matches(preds, labels), |labels|))
  }

  /** Against the canonical labels, the matches are the positions `i` that predict class `i / nQuery`. */
  lemma MatchesCanonical(preds: seq<int>, nWay: int, nQuery: int)
    requires Labels(nWay, nQuery).Ok? && |preds| == |Labels(nWay, nQuery).value|
    ensures Matches(preds, Labels(nWay, nQuery).value) == |CorrectQueries(preds, nQuery)|
  {
    var n := if nWay <= 0 then 0 else nWay;
    var labels := Labels(nWay, nQuery).value;
    assert labels == CanonicalLabels(n, nQuery);
    forall i | 0 <= i < |preds|
      ensures nQuery > 0 && labels[i] == i / nQuery
    {
      CanonicalLabelAt(n, nQuery, i);
    }
    assert Agreements(preds, labels) == CorrectQueries(preds, nQuery);
  }

  /** A count is all-correct exactly when every query `i`'s top-1 class is `i / nQuery`, its canonical label. */
  lemma CorrectAllExactly(scores: seq<seq<int>>, nWay: int, nQuery: int, top1: seq<int> -> int)
    requires Correct(scores, nWay, nQuery, top1).Ok?
    ensures var c := Correct(scores, nWay, nQuery, top1).value;
      c.correct == c.total <==> forall i :: 0 <= i < |scores| ==> nQuery > 0 && top1(scores[i]) == i / nQuery
  {
    var n := if nWay <= 0 then 0 else nWay;
    var labels := CanonicalLabels(n, nQuery);
    var preds := Top1Labels(scores, top1);
    assert Labels(nWay, nQuery) == Ok(labels);
    assert Correct(scores, nWay, nQuery, top1).value == Count(Matches(preds, labels), |labels|);
    forall i | 0 <= i < |scores|
      ensures nQuery > 0 && labels[i] == i / nQuery
    {
      CanonicalLabelAt(n, nQuery, i);
    }
    assert (preds == labels) <==> forall i :: 0 <= i < |scores| ==> preds[i] == labels[i];
    assert forall i :: 0 <= i < |scores| ==> preds[i] == top1(scores[i]);
  }

  /** When no score row has a tie at the top, the two counters give the same `(correct, total)`. */
  lemma CountersAgreeWithoutTies(scores: seq<seq<int>>, nWay: int, nQuery: int, top1: seq<int> -> int)
    requires IsTopK(top1)
    requires forall i :: 0 <= i < |scores| ==> |scores[i]| > 0 && NoTieAtTop(scores[i])
    ensures Correct(scores, nWay, nQuery, top1) == CorrectRn(scores, nWay, nQuery)
  {
    var a := Top1Labels(scores, top1);
    forall i | 0 <= i < |scores|
      ensures a[i] == ArgMaxLabels(scores)[i]
    {
      Top1IsArgMax(scores[i], top1(scores[i]));
    }
    assert a == ArgMaxLabels(scores);
  }

  /** `correct_this / count_this * 100` for a count with a positive total. */
  function Percent(c: Count): (p: real)
    requires c.correct <= c.total && c.total > 0
    ensures 0.0 <= p <= 100.0
    ensures p == 100.0 <==> c.correct == c.total
  {
    (c.correct as real) / (c.total as real) * 100.0
  }
}
