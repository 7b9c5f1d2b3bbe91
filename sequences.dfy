/** Sequence helpers: flattening, chunking into fixed-size pieces, ranges. */
module Sequences {

  /** The smaller of two integers; `min(n, len)` is also Python's clamped slice bound `row[:n]`. */
  function Min(a: int, b: int): (m: int)
    ensures m <= a && m <= b && (m == a || m == b)
  {
    if a <= b then a else b
  }

  /** Concatenation of all rows, in order (row-major flattening). */
  function Flatten<T>(rows: seq<seq<T>>): seq<T>
  {
    if rows == [] then [] else rows[0] + Flatten(rows[1..])
  }

  /** Flattening rows that all hold `w` elements gives `|rows| * w` elements. */
  lemma {:induction false} FlattenLength<T>(rows: seq<seq<T>>, w: nat)
    requires forall r :: 0 <= r < |rows| ==> |rows[r]| == w
    ensures |Flatten(rows)| == |rows| * w
  {
    if rows != [] {
      FlattenLength(rows[1..], w);
      assert |rows| * w == w + (|rows| - 1) * w;
    }
  }

  /** Flattening rows that all hold `w` elements puts row `i`'s element `j` at `i * w + j`. */
  lemma FlattenAt<T>(rows: seq<seq<T>>, w: nat, i: nat, j: nat)
    requires forall r :: 0 <= r < |rows| ==> |rows[r]| == w
    requires i < |rows| && j < w
    ensures |Flatten(rows)| == |rows| * w
    ensures i * w + j < |Flatten(rows)| && Flatten(rows)[i * w + j] == rows[i][j]
  {
    FlattenAtTimes(rows, w, i, j);
    TimesIsMul(i, w);
    TimesIsMul(|rows|, w);
  }

  lemma {:induction false} FlattenAtTimes<T>(rows: seq<seq<T>>, w: nat, i: nat, j: nat)
    requires forall r :: 0 <= r < |rows| ==> |rows[r]| == w
    requires i < |rows| && j < w
    ensures |Flatten(rows)| == Times(|rows|, w)
    ensures Times(i, w) + j < |Flatten(rows)| && Flatten(rows)[Times(i, w) + j] == rows[i][j]
    decreases |rows|
  {
    if |rows| > 1 {
      FlattenAtTimes(rows[1..], w, if i == 0 then 0 else i - 1, if i == 0 then 0 else j);
    }
  }

  /** Consecutive pieces of `w` elements; the last piece may be shorter. */
  function Chunks<T>(s: seq<T>, w: nat): (r: seq<seq<T>>)
    requires w > 0
    decreases |s|
  {
    if s == [] then []
    else if |s| <= w then [s]
    else [s[..w]] + Chunks(s[w..], w)
  }

  /** Every piece holds between one and `w` elements, and there is a piece exactly when `s` is non-empty. */
  lemma {:induction false} ChunkSizes<T>(s: seq<T>, w: nat)
    requires w > 0
    ensures forall k :: 0 <= k < |Chunks(s, w)| ==> 0 < |Chunks(s, w)[k]| <= w
    ensures s == [] <==> Chunks(s, w) == []
    decreases |s|
  {
    if |s| > w {
      ChunkSizes(s[w..], w);
      assert forall k :: 1 <= k < |Chunks(s, w)| ==> Chunks(s, w)[k] == Chunks(s[w..], w)[k - 1];
    }
  }

  /** Chunking loses nothing and reorders nothing. */
  lemma {:induction false} ChunksFlatten<T>(s: seq<T>, w: nat)
    requires w > 0
    ensures Flatten(Chunks(s, w)) == s
    decreases |s|
  {
    if |s| > w {
      var r := Chunks(s, w);
      assert r[1..] == Chunks(s[w..], w);
      ChunksFlatten(s[w..], w);
      assert s == s[..w] + s[w..];
    } else if s != [] {
      assert Chunks(s, w) == [s];
    }
  }

  /** Piece `k` is the slice `s[k*w .. min(k*w + w, |s|)]`. */
  lemma ChunkAt<T>(s: seq<T>, w: nat, k: nat)
    requires w > 0
    requires k < |Chunks(s, w)|
    ensures k * w < |s|
    ensures Chunks(s, w)[k] == s[k * w .. Min(k * w + w, |s|)]
  {
    ChunkAtOffset(s, w, k);
    TimesIsMul(k, w);
  }

  /** `k * w` by repeated addition, so that the chunk proofs need no non-linear arithmetic. */
  function Times(k: nat, w: nat): nat
  {
    if k == 0 then 0 else Times(k - 1, w) + w
  }

  lemma {:induction false} TimesIsMul(k: nat, w: nat)
    ensures Times(k, w) == k * w
  {
    if k > 0 {
      TimesIsMul(k - 1, w);
      assert (k - 1) * w + w == k * w;
    }
  }

  lemma {:induction false} ChunkAtOffset<T>(s: seq<T>, w: nat, k: nat)
    requires w > 0
    requires k < |Chunks(s, w)|
    ensures Times(k, w) < |s|
    ensures Chunks(s, w)[k] == s[Times(k, w) .. Min(Times(k, w) + w, |s|)]
    decreases |s|
  {
    if k > 0 {
      assert |s| > w;
      var t := s[w..];
      assert Chunks(s, w)[k] == Chunks(t, w)[k - 1];
      ChunkAtOffset(t, w, k - 1);
      var j := Times(k - 1, w);
      assert Times(k, w) == j + w;
      var e := Min(j + w, |t|);
      assert e + w == Min(j + w + w, |s|);
      assert t[j .. e] == s[j + w .. e + w];
    }
  }

  /** The number of pieces is the ceiling of `|s| / w`. */
  lemma {:induction false} ChunksCount<T>(s: seq<T>, w: nat)
    requires w > 0
    ensures (|Chunks(s, w)| - 1) * w < |s| <= |Chunks(s, w)| * w || s == []
    decreases |s|
  {
    if |s| > w {
      ChunksCount(s[w..], w);
      var n := |Chunks(s[w..], w)|;
      assert |Chunks(s, w)| == n + 1;
      assert (n + 1) * w == n * w + w;
      assert (n - 1) * w + w == n * w;
    }
  }

  /** When `w` divides `|s| == n * w` exactly, there are `n` pieces of exactly `w` elements. */
  lemma ChunksExact<T>(s: seq<T>, w: nat, n: nat)
    requires w > 0 && |s| == n * w
    ensures |Chunks(s, w)| == n
    ensures forall k :: 0 <= k < n ==> |Chunks(s, w)[k]| == w
  {
    TimesIsMul(n, w);
    ChunksExactTimes(s, w, n);
  }

  lemma {:induction false} ChunksExactTimes<T>(s: seq<T>, w: nat, n: nat)
    requires w > 0 && |s| == Times(n, w)
    ensures |Chunks(s, w)| == n
    ensures forall k :: 0 <= k < n ==> |Chunks(s, w)[k]| == w
    decreases n
  {
    if n > 0 {
      var t := s[w..];
      if n > 1 {
        assert Chunks(s, w) == [s[..w]] + Chunks(t, w);
      }
      ChunksExactTimes(t, w, n - 1);
    }
  }

  /** `[0, 1, ..., n - 1]`, empty for `n <= 0`, like Python's `range(n)`. */
  function Range(n: int): (r: seq<int>)
    ensures |r| == if n <= 0 then 0 else n
    ensures forall i :: 0 <= i < |r| ==> r[i] == i
    decreases if n <= 0 then 0 else n
  {
    if n <= 0 then [] else Range(n - 1) + [n - 1]
  }

  /** `p` lists each of `0 .. n - 1` once, in some order (what `np.random.permutation(n)` yields). */
  ghost predicate IsPermutation(p: seq<int>, n: int)
  {
    multiset(p) == multiset(Range(n))
  }

  /** A permutation of `0 .. n - 1` has `n` entries. */
  lemma PermutationLength(p: seq<int>, n: nat)
    requires IsPermutation(p, n)
    ensures |p| == n
  {
    assert |multiset(p)| == |p|;
    assert |multiset(Range(n))| == |Range(n)|;
  }

  /** Every index below `n` occurs exactly once in `range(n)`, and nothing else occurs. */
  lemma {:induction false} RangeOccurrences(n: int, x: int)
    ensures multiset(Range(n))[x] == if 0 <= x < n then 1 else 0
    decreases if n <= 0 then 0 else n
  {
    if n > 0 {
      RangeOccurrences(n - 1, x);
      assert Range(n) == Range(n - 1) + [n - 1];
      assert multiset(Range(n)) == multiset(Range(n - 1)) + multiset{n - 1};
    }
  }
}
