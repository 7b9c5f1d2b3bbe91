/**
 * Episodes as the engine sees them: the shape state (`n_way`, `n_support`, `n_query`),
 * raw batches, the support/query split of `parse_feature`, and the canonical labels
 * `np.repeat(range(n_way), n)`.
 */
module Episodes {
  import opened Failures
  import opened Sequences

  /** The engine's episode-shape fields. `nQuery` starts at -1 and may go negative. */
  datatype Shape = Shape(nWay: int, nSupport: nat, nQuery: int)

  /**
   * A tensor `[size0, size1, ...]`: one row per class, `perClass` the size of the second axis
   * (kept apart from the rows so that a tensor with no rows still has one), and every
   * trailing dimension folded into one element of type `T`.
   */
  datatype Grid<T> = Grid(perClass: nat, rows: seq<seq<T>>)
  {
    function Size0(): nat { |rows| }
    function Size1(): nat { perClass }

    /** A well-formed tensor: every class row holds `perClass` items. */
    predicate Rectangular()
    {
      forall r :: 0 <= r < |rows| ==> |rows[r]| == perClass
    }
  }

  /** A data-loader batch: one tensor, or a list of co-indexed tensors (one per modality). */
  datatype Batch<T> = Single(x: Grid<T>) | Multi(parts: seq<Grid<T>>)

  /**
   * The feature extractor, applied to one flattened example; for a list-shaped batch it
   * receives the example's entries in every modality.
   */
  datatype Backbone<!T> = Backbone(embed: T -> T, embedModalities: seq<T> -> T)

  datatype Split<T> = Split(support: seq<seq<T>>, query: seq<seq<T>>)

  /** `z[:, :n]` and `z[:, n:]`: every row is cut at index `n` (clamped to the row). */
  function SplitAt<T>(z: seq<seq<T>>, n: nat): (r: Split<T>)
    ensures |r.support| == |r.query| == |z|
    ensures forall i :: 0 <= i < |z| ==>
      |r.support[i]| == Min(n, |z[i]|) && r.support[i] + r.query[i] == z[i]
  {
    var r := Split(seq(|z|, i requires 0 <= i < |z| => z[i][..Min(n, |z[i]|)]),
                   seq(|z|, i requires 0 <= i < |z| => z[i][Min(n, |z[i]|)..]));
    assert forall i :: 0 <= i < |z| ==> r.support[i] + r.query[i] == z[i] by {
      forall i | 0 <= i < |z| ensures r.support[i] + r.query[i] == z[i] {
        assert z[i] == z[i][..Min(n, |z[i]|)] + z[i][Min(n, |z[i]|)..];
      }
    }
    r
  }

  /** The per-example embeddings of a flattened single-tensor batch. */
  function EmbedAll<T>(feature: Backbone<T>, flat: seq<T>): (e: seq<T>)
    ensures |e| == |flat|
    ensures forall k :: 0 <= k < |flat| ==> e[k] == feature.embed(flat[k])
  {
    seq(|flat|, k requires 0 <= k < |flat| => feature.embed(flat[k]))
  }

  /** The per-example embeddings of a list-shaped batch whose modalities all hold `n` examples. */
  function EmbedModalities<T>(feature: Backbone<T>, parts: seq<Grid<T>>, n: nat): (e: seq<T>)
    requires forall m :: 0 <= m < |parts| ==> |Flatten(parts[m].rows)| == n
    ensures |e| == n
    ensures forall k :: 0 <= k < n ==>
      e[k] == feature.embedModalities(seq(|parts|, m requires 0 <= m < |parts| => Flatten(parts[m].rows)[k]))
  {
    seq(n, k requires 0 <= k < n =>
      feature.embedModalities(seq(|parts|, m requires 0 <= m < |parts| => Flatten(parts[m].rows)[k])))
  }

  /**
   * The reshape `view(n_way * (n_support + n_query), ...)` followed by
   * `view(n_way, n_support + n_query, -1)` succeeds exactly for a positive class count,
   * a positive per-class count, and `count` flattened examples matching their product.
   */
  predicate ReshapeFits(s: Shape, count: nat)
  {
    s.nWay > 0 && s.nSupport + s.nQuery > 0 && count == s.nWay * (s.nSupport + s.nQuery)
  }

  /**
   * `parse_feature`: with `isFeature` the batch already holds embeddings and is split as is;
   * otherwise it is flattened, embedded example by example, regrouped into `nWay` rows of
   * `nSupport + nQuery` and split. A list-shaped batch with no modality is a shape error:
   * there is no tensor to take the examples from.
   */
  function ParseFeature<T>(s: Shape, feature: Backbone<T>, x: Batch<T>, isFeature: bool): (r: Result<Split<T>>)
    ensures r.Ok? <==>
      match x
      case Single(g) => isFeature || ReshapeFits(s, |Flatten(g.rows)|)
      case Multi(parts) =>
        !isFeature && parts != [] && s.nWay > 0 && s.nSupport + s.nQuery > 0 &&
        forall m :: 0 <= m < |parts| ==> ReshapeFits(s, |Flatten(parts[m].rows)|)
    ensures r.Err? ==> r.error == (if isFeature then TypeError else ShapeError)
  {
    var perClass := s.nSupport + s.nQuery;
    match x
    case Single(g) =>
      if isFeature then Ok(SplitAt(g.rows, s.nSupport))
      else if !ReshapeFits(s, |Flatten(g.rows)|) then Err(ShapeError)
      else
        Ok(SplitAt(Chunks(EmbedAll(feature, Flatten(g.rows)), perClass), s.nSupport))
    case Multi(parts) =>
      if isFeature then Err(TypeError)
      else if !(parts != [] && s.nWay > 0 && perClass > 0 && forall m :: 0 <= m < |parts| ==> ReshapeFits(s, |Flatten(parts[m].rows)|)) then
        Err(ShapeError)
      else
        var n := s.nWay * perClass;
        Ok(SplitAt(Chunks(EmbedModalities(feature, parts, n), perClass), s.nSupport))
  }

  /** The parsed rows of a batch that is not yet a feature tensor: the embeddings regrouped per class, then split. */
  lemma ParsedRegrouped<T>(s: Shape, feature: Backbone<T>, x: Batch<T>, sp: Split<T>)
    requires ParseFeature(s, feature, x, false) == Ok(sp)
    ensures s.nWay > 0 && s.nSupport + s.nQuery > 0
    ensures x.Single? ==>
      ReshapeFits(s, |Flatten(x.x.rows)|) &&
      sp == SplitAt(Chunks(EmbedAll(feature, Flatten(x.x.rows)), s.nSupport + s.nQuery), s.nSupport)
    ensures x.Multi? ==>
      (forall m :: 0 <= m < |x.parts| ==> ReshapeFits(s, |Flatten(x.parts[m].rows)|)) &&
      sp == SplitAt(Chunks(EmbedModalities(feature, x.parts, s.nWay * (s.nSupport + s.nQuery)),
                           s.nSupport + s.nQuery), s.nSupport)
  {
  }

  /**
   * A parsed batch has `nWay` support and query rows; each support row holds
   * `nSupport` items (fewer only if `nQuery` is negative) and each pair of rows
   * `nSupport + nQuery` items.
   */
  lemma ParseFeatureShapes<T>(s: Shape, feature: Backbone<T>, x: Batch<T>, sp: Split<T>)
    requires ParseFeature(s, feature, x, false) == Ok(sp)
    ensures |sp.support| == |sp.query| == s.nWay
    ensures forall i :: 0 <= i < s.nWay ==>
      |sp.support[i]| == Min(s.nSupport, s.nSupport + s.nQuery) &&
      |sp.support[i]| + |sp.query[i]| == s.nSupport + s.nQuery
    ensures s.nQuery >= 0 ==> forall i :: 0 <= i < s.nWay ==>
      |sp.support[i]| == s.nSupport && |sp.query[i]| == s.nQuery
  {
    ParsedRegrouped(s, feature, x, sp);
    var w := s.nSupport + s.nQuery;
    var e := if x.Single? then EmbedAll(feature, Flatten(x.x.rows)) else EmbedModalities(feature, x.parts, s.nWay * w);
    assert |e| == s.nWay * w;
    ChunksExact(e, w, s.nWay);
    assert sp == SplitAt(Chunks(e, w), s.nSupport);
  }

  /**
   * Layout of a parsed single-tensor batch: class `i`'s support row followed by its query row
   * is the embedding of the `i`-th block of `nSupport + nQuery` flattened examples.
   */
  lemma ParseFeatureLayout<T>(s: Shape, feature: Backbone<T>, g: Grid<T>, sp: Split<T>, i: nat)
    requires ParseFeature(s, feature, Single(g), false) == Ok(sp)
    requires i < s.nWay
    ensures i < |sp.support| == |sp.query|
    ensures i * (s.nSupport + s.nQuery) + (s.nSupport + s.nQuery) <= |Flatten(g.rows)|
    ensures sp.support[i] + sp.query[i] ==
      EmbedAll(feature, Flatten(g.rows)[i * (s.nSupport + s.nQuery) .. i * (s.nSupport + s.nQuery) + (s.nSupport + s.nQuery)])
  {
    ParsedRegrouped(s, feature, Single(g), sp);
    EmbeddedLayout(feature, Flatten(g.rows), s.nSupport + s.nQuery, s.nWay, s.nSupport, sp, i);
  }

  /**
   * Class `i` of a parsed list-shaped batch: its support items followed by its query items are
   * block `i`, of `nSupport + nQuery` positions, of the examples embedded across the modalities.
   */
  lemma ParseModalitiesLayout<T>(s: Shape, feature: Backbone<T>, parts: seq<Grid<T>>, sp: Split<T>, i: nat)
    requires ParseFeature(s, feature, Multi(parts), false) == Ok(sp)
    requires i < s.nWay
    ensures i < |sp.support| == |sp.query|
    ensures forall m :: 0 <= m < |parts| ==> |Flatten(parts[m].rows)| == s.nWay * (s.nSupport + s.nQuery)
    ensures i * (s.nSupport + s.nQuery) + (s.nSupport + s.nQuery) <= s.nWay * (s.nSupport + s.nQuery)
    ensures sp.support[i] + sp.query[i] ==
      EmbedModalities(feature, parts, s.nWay * (s.nSupport + s.nQuery))
        [i * (s.nSupport + s.nQuery) .. i * (s.nSupport + s.nQuery) + (s.nSupport + s.nQuery)]
  {
    ParsedRegrouped(s, feature, Multi(parts), sp);
    var w := s.nSupport + s.nQuery;
    RegroupedSplitAt(EmbedModalities(feature, parts, s.nWay * w), w, s.nWay, s.nSupport, sp, i);
  }

  /** `RegroupedSplitAt` for the per-example embeddings of `flat`. */
  lemma EmbeddedLayout<T>(feature: Backbone<T>, flat: seq<T>, w: nat, rows: nat, n: nat, sp: Split<T>, i: nat)
    requires w > 0 && |flat| == rows * w && i < rows
    requires sp == SplitAt(Chunks(EmbedAll(feature, flat), w), n)
    ensures i < |sp.support| == |sp.query|
    ensures i * w + w <= |flat|
    ensures sp.support[i] + sp.query[i] == EmbedAll(feature, flat[i * w .. i * w + w])
  {
    var e := EmbedAll(feature, flat);
    RegroupedSplitAt(e, w, rows, n, sp, i);
    EmbedSlice(feature, flat, i * w, i * w + w);
  }

  /** Embedding commutes with slicing. */
  lemma EmbedSlice<T>(feature: Backbone<T>, flat: seq<T>, lo: nat, hi: nat)
    requires lo <= hi <= |flat|
    ensures EmbedAll(feature, flat)[lo .. hi] == EmbedAll(feature, flat[lo .. hi])
  {
    var e := EmbedAll(feature, flat);
    var f := EmbedAll(feature, flat[lo .. hi]);
    forall k | 0 <= k < hi - lo ensures e[lo .. hi][k] == f[k] {
      assert flat[lo .. hi][k] == flat[lo + k];
    }
  }

  /** Splitting the regrouped sequence `e` at `n`: row `i`, support then query, is block `i` of `e`. */
  lemma RegroupedSplitAt<T>(e: seq<T>, w: nat, rows: nat, n: nat, sp: Split<T>, i: nat)
    requires w > 0 && |e| == rows * w && i < rows
    requires sp == SplitAt(Chunks(e, w), n)
    ensures i < |sp.support| == |sp.query|
    ensures i * w + w <= |e|
    ensures sp.support[i] + sp.query[i] == e[i * w .. i * w + w]
  {
    ChunksExact(e, w, rows);
    ChunkAt(e, w, i);
    AddOne(i, w);
    MulMono(i + 1, rows, w);
  }

  /** `np.repeat(range(n), k)`: `k` copies of 0, then `k` copies of 1, ..., then of `n - 1`. */
  function CanonicalLabels(n: nat, k: nat): (r: seq<int>)
    ensures |r| == n * k
  {
    if n == 0 then [] else CanonicalLabels(n - 1, k) + seq(k, _ => n - 1)
  }

  /** Position `i` of the canonical labels holds the class `i / k`. */
  lemma {:induction false} CanonicalLabelAt(n: nat, k: nat, i: nat)
    requires i < n * k
    ensures CanonicalLabels(n, k)[i] == i / k
  {
    var prev := (n - 1) * k;
    assert n * k == prev + k;
    if i < prev {
      CanonicalLabelAt(n - 1, k, i);
    } else {
      DivBetween(i, k, n - 1);
    }
  }

  lemma DivBetween(i: nat, k: nat, q: nat)
    requires q * k <= i < q * k + k
    ensures i / k == q
  {
    var d := i / k;
    assert i == d * k + i % k && 0 <= i % k < k;
    MulMono(d + 1, q, k);
    MulMono(q + 1, d, k);
    AddOne(d, k);
    AddOne(q, k);
  }

  lemma MulMono(a: int, b: int, k: nat)
    ensures a <= b ==> a * k <= b * k
  {
    if a <= b {
      assert b * k == a * k + (b - a) * k;
    }
  }

  /** Multiplication by a positive factor cancels. */
  lemma MulCancel(a: int, b: int, k: nat)
    requires k > 0
    ensures a * k == b * k ==> a == b
  {
    MulMono(a + 1, b, k);
    MulMono(b + 1, a, k);
    AddOne(a, k);
    AddOne(b, k);
  }

  lemma AddOne(a: int, k: int)
    ensures (a + 1) * k == a * k + k
  {
  }

  /** The `[0, 0, 1, 1, 2, 2]` of the three-way, two-query case. */
  lemma CanonicalLabelsExample()
    ensures CanonicalLabels(3, 2) == [0, 0, 1, 1, 2, 2]
  {
  }

  /** The label sequence of the scorers: a negative repeat count is refused, a negative class count gives no labels. */
  function Labels(nWay: int, reps: int): (r: Result<seq<int>>)
    ensures r.Err? <==> reps < 0
    ensures r.Err? ==> r.error == NegativeRepeat
    ensures r.Ok? ==> |r.value| == (if nWay <= 0 then 0 else nWay * reps)
  {
    if reps < 0 then Err(NegativeRepeat)
    else Ok(CanonicalLabels(if nWay <= 0 then 0 else nWay, reps))
  }
}
