/**
 * Hash bucketing of one input batch: row `i` goes to output partition
 * `hashes[i] % n`. The row hashes are an input here; computing them over the
 * partitioning expressions is foreign code.
 */
module ShuffleBuckets {
  import opened Errors

  /** The panic of `hash % 0`. */
  const RemainderByZero := Panic("attempt to calculate the remainder with a divisor of zero")

  /** The row indices of `hashes` that belong to output partition `p`, in row order. */
  function Bucket(hashes: seq<nat>, n: nat, p: nat): seq<nat>
    requires n > 0
    decreases |hashes|
  {
    if |hashes| == 0 then []
    else
      var rest := Bucket(hashes[..|hashes| - 1], n, p);
      if hashes[|hashes| - 1] % n == p then rest + [|hashes| - 1] else rest
  }

  /** A bucket holds exactly the rows whose hash selects it, strictly ascending. */
  lemma {:induction false} BucketContents(hashes: seq<nat>, n: nat, p: nat)
    requires n > 0
    ensures var b := Bucket(hashes, n, p);
      (forall k :: 0 <= k < |b| ==> b[k] < |hashes| && hashes[b[k]] % n == p)
      && (forall k, l :: 0 <= k < l < |b| ==> b[k] < b[l])
      && (forall i :: 0 <= i < |hashes| && hashes[i] % n == p ==> i in b)
    decreases |hashes|
  {
    if |hashes| > 0 {
      var init := hashes[..|hashes| - 1];
      BucketContents(init, n, p);
      var rest := Bucket(init, n, p);
      assert forall i :: 0 <= i < |init| ==> init[i] == hashes[i];
    }
  }

  /** Every row lands in exactly one bucket, the one its hash selects. */
  lemma EveryRowInExactlyOneBucket(hashes: seq<nat>, n: nat, i: nat)
    requires n > 0 && i < |hashes|
    ensures hashes[i] % n < n
    ensures i in Bucket(hashes, n, hashes[i] % n)
    ensures forall p :: p != hashes[i] % n ==> i !in Bucket(hashes, n, p)
  {
    BucketContents(hashes, n, hashes[i] % n);
    forall p | p != hashes[i] % n
      ensures i !in Bucket(hashes, n, p)
    {
      BucketContents(hashes, n, p);
    }
  }

  /** The total size of the buckets `0 .. k-1`. */
  function SumBucketSizes(hashes: seq<nat>, n: nat, k: nat): nat
    requires n > 0
  {
    if k == 0 then 0 else SumBucketSizes(hashes, n, k - 1) + |Bucket(hashes, n, k - 1)|
  }

  lemma {:induction false} SumBucketSizesStep(hashes: seq<nat>, n: nat, k: nat)
    requires n > 0 && |hashes| > 0
    ensures SumBucketSizes(hashes, n, k)
         == SumBucketSizes(hashes[..|hashes| - 1], n, k) + (if hashes[|hashes| - 1] % n < k then 1 else 0)
  {
    if k > 0 {
      SumBucketSizesStep(hashes, n, k - 1);
    }
  }

  lemma {:induction false} SumOfEmptyBuckets(n: nat, k: nat)
    requires n > 0
    ensures SumBucketSizes([], n, k) == 0
  {
    if k > 0 {
      SumOfEmptyBuckets(n, k - 1);
    }
  }

  /** Conservation: the `n` buckets of a batch hold all of its rows between them. */
  lemma {:induction false} BucketsConserveRows(hashes: seq<nat>, n: nat)
    requires n > 0
    ensures SumBucketSizes(hashes, n, n) == |hashes|
    decreases |hashes|
  {
    if |hashes| > 0 {
      SumBucketSizesStep(hashes, n, n);
      BucketsConserveRows(hashes[..|hashes| - 1], n);
    } else {
      SumOfEmptyBuckets(n, n);
    }
  }

  /** The total length of a list of index lists. */
  function SumSizes(lists: seq<seq<nat>>): nat {
    if |lists| == 0 then 0 else SumSizes(lists[..|lists| - 1]) + |lists[|lists| - 1]|
  }

  lemma {:induction false} SumSizesOfBuckets(hashes: seq<nat>, n: nat, indices: seq<seq<nat>>, k: nat)
    requires n > 0 && k <= |indices| == n
    requires forall p :: 0 <= p < n ==> indices[p] == Bucket(hashes, n, p)
    ensures SumSizes(indices[..k]) == SumBucketSizes(hashes, n, k)
  {
    if k > 0 {
      assert indices[..k][..k - 1] == indices[..k - 1];
      SumSizesOfBuckets(hashes, n, indices, k - 1);
    }
  }

  /** The index lists the bucketing loop builds hold every row once between them. */
  lemma BucketListsConserveRows(hashes: seq<nat>, n: nat, indices: seq<seq<nat>>)
    requires n > 0 && |indices| == n
    requires forall p :: 0 <= p < n ==> indices[p] == Bucket(hashes, n, p)
    ensures SumSizes(indices) == |hashes|
  {
    SumSizesOfBuckets(hashes, n, indices, n);
    assert indices[..n] == indices;
    BucketsConserveRows(hashes, n);
  }

  /**
   * The bucketing loop: `n` empty index lists, then one push per row into
   * list `hash % n`. With `n == 0` the remainder panics as soon as there
   * is a row.
   */
  method BucketIndices(hashes: seq<nat>, n: nat) returns (r: Result<seq<seq<nat>>>)
    ensures r.Ok? <==> n > 0 || |hashes| == 0
    ensures r.Err? ==> r.error == RemainderByZero
    ensures r.Ok? ==> |r.value| == n && forall p :: 0 <= p < n ==> r.value[p] == Bucket(hashes, n, p)
  {
    if n == 0 && |hashes| > 0 {
      return Err(RemainderByZero);
    }
    var indices: seq<seq<nat>> := seq(n, _ => []);
    var i := 0;
    while i < |hashes|
      invariant 0 <= i <= |hashes|
      invariant |indices| == n
      invariant forall p :: 0 <= p < n ==> indices[p] == Bucket(hashes[..i], n, p)
    {
      var b := hashes[i] % n;
      indices := indices[b := indices[b] + [i]];
      assert hashes[..i + 1][..i] == hashes[..i];
      i := i + 1;
    }
    assert hashes[..i] == hashes;
    r := Ok(indices);
  }
}
