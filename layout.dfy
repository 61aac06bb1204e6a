/**
 * Row-major layout of flat tensor buffers: the index arithmetic behind
 * `tf.reshape`, `tf.concat` along axis 0 and `tf.transpose` as they are
 * used by the decoder.  A tensor is a flat sequence read in row-major
 * order; a reshape never moves an element, a transpose does.
 */
module Layout {

  /** Row-major offset of position (a, b) in a two-axis view whose second axis has extent n. */
  function Flat(a: nat, b: nat, n: nat): nat
  {
    a * n + b
  }

  lemma FlatBound(a: nat, b: nat, m: nat, n: nat)
    requires a < m && b < n
    ensures Flat(a, b, n) < m * n
  {
    calc {
      Flat(a, b, n);
      < a * n + n;
      == (a + 1) * n;
      <= { MulMonotone(a + 1, m, n); } m * n;
    }
  }

  lemma MulMonotone(a: nat, b: nat, n: nat)
    requires a <= b
    ensures a * n <= b * n
  {
  }

  /** Every offset below m * n decomposes into (k / n, k % n), and back. */
  lemma FlatSplit(k: nat, m: nat, n: nat)
    requires k < m * n
    ensures n > 0 && k / n < m && k % n < n
    ensures Flat(k / n, k % n, n) == k
  {
    if k / n >= m {
      MulMonotone(m, k / n, n);
      assert false;
    }
  }

  /** The decomposition of a row-major offset is unique. */
  lemma FlatUnique(a: nat, b: nat, n: nat)
    requires b < n
    ensures Flat(a, b, n) / n == a && Flat(a, b, n) % n == b
  {
    var k := Flat(a, b, n);
    var q, r := k / n, k % n;
    assert q * n + r == a * n + b;
    if q > a {
      MulMonotone(a + 1, q, n);
      assert false;
    } else if q < a {
      MulMonotone(q + 1, a, n);
      assert false;
    }
  }

  /** Three-axis offset (a, b, c) in a view of extents (_, q, n), as a nested Flat. */
  lemma FlatAssoc(a: nat, b: nat, c: nat, q: nat, n: nat)
    requires b < q
    ensures Flat(Flat(a, b, q), c, n) == Flat(a, Flat(b, c, n), q * n)
  {
    calc {
      Flat(Flat(a, b, q), c, n);
      == (a * q + b) * n + c;
      == a * q * n + b * n + c;
      == a * (q * n) + (b * n + c);
    }
  }

  /** Concatenation of blocks along the leading axis (`tf.concat(0, ...)` of row blocks). */
  function Flatten<T>(blocks: seq<seq<T>>): (r: seq<T>)
    decreases |blocks|
  {
    if |blocks| == 0 then [] else Flatten(blocks[..|blocks| - 1]) + blocks[|blocks| - 1]
  }

  ghost predicate Uniform<T>(blocks: seq<seq<T>>, n: nat)
  {
    forall i :: 0 <= i < |blocks| ==> |blocks[i]| == n
  }

  lemma {:induction false} FlattenLength<T>(blocks: seq<seq<T>>, n: nat)
    requires Uniform(blocks, n)
    ensures |Flatten(blocks)| == |blocks| * n
  {
    if |blocks| > 0 {
      FlattenLength(blocks[..|blocks| - 1], n);
    }
  }

  /** Concatenating groups of blocks of one length gives blocks of that length. */
  lemma {:induction false} FlattenUniform<T>(groups: seq<seq<seq<T>>>, n: nat)
    requires forall g :: 0 <= g < |groups| ==> Uniform(groups[g], n)
    ensures Uniform(Flatten(groups), n)
  {
    if |groups| > 0 {
      FlattenUniform(groups[..|groups| - 1], n);
    }
  }

  /** Element j of block i sits at row-major offset (i, j) of the concatenation. */
  lemma {:induction false} FlattenAt<T>(blocks: seq<seq<T>>, n: nat, i: nat, j: nat)
    requires Uniform(blocks, n) && i < |blocks| && j < n
    ensures Flat(i, j, n) < |Flatten(blocks)|
    ensures Flatten(blocks)[Flat(i, j, n)] == blocks[i][j]
  {
    FlattenLength(blocks, n);
    FlatBound(i, j, |blocks|, n);
    var init := blocks[..|blocks| - 1];
    FlattenLength(init, n);
    if i < |blocks| - 1 {
      FlattenAt(init, n, i, j);
      FlatBound(i, j, |init|, n);
    } else {
      assert Flat(i, j, n) == |init| * n + j;
    }
  }

  /** Offset in the source buffer of the element that SwapLeading puts at offset k. */
  function SwapSource(k: nat, p: nat, q: nat, n: nat): (src: nat)
    requires k < p * q * n
    ensures src < p * q * n
  {
    FlatSplit(k, q * p, n);
    FlatSplit(k / n, q, p);
    var c, a, b := k % n, (k / n) % p, (k / n) / p;
    FlatBound(a, b, p, q);
    FlatBound(Flat(a, b, q), c, p * q, n);
    Flat(Flat(a, b, q), c, n)
  }

  /**
   * The buffer of shape [p, q, n] transposed to shape [q, p, n]
   * (`tf.transpose(x, [1, 0, 2])`, read back in row-major order).
   */
  function SwapLeading<T>(x: seq<T>, p: nat, q: nat, n: nat): (r: seq<T>)
    requires |x| == p * q * n
    ensures |r| == |x| && |r| == q * p * n
  {
    seq(|x|, k requires 0 <= k < |x| => x[SwapSource(k, p, q, n)])
  }

  /** Element (a, b, c) of the input is element (b, a, c) of the output. */
  lemma SwapLeadingAt<T>(x: seq<T>, p: nat, q: nat, n: nat, a: nat, b: nat, c: nat)
    requires |x| == p * q * n && a < p && b < q && c < n
    ensures Flat(Flat(a, b, q), c, n) < |x|
    ensures Flat(Flat(b, a, p), c, n) < |x|
    ensures SwapLeading(x, p, q, n)[Flat(Flat(b, a, p), c, n)] == x[Flat(Flat(a, b, q), c, n)]
  {
    FlatBound(a, b, p, q);
    FlatBound(Flat(a, b, q), c, p * q, n);
    FlatBound(b, a, q, p);
    FlatBound(Flat(b, a, p), c, q * p, n);
    var k := Flat(Flat(b, a, p), c, n);
    FlatUnique(Flat(b, a, p), c, n);
    FlatUnique(b, a, p);
    assert SwapSource(k, p, q, n) == Flat(Flat(a, b, q), c, n);
  }

  /** Swapping the two leading axes twice gives back the original buffer. */
  lemma SwapLeadingInvolution<T>(x: seq<T>, p: nat, q: nat, n: nat)
    requires |x| == p * q * n
    ensures SwapLeading(SwapLeading(x, p, q, n), q, p, n) == x
  {
    var y := SwapLeading(x, p, q, n);
    var z := SwapLeading(y, q, p, n);
    forall k | 0 <= k < |x|
      ensures z[k] == x[k]
    {
      FlatSplit(k, p * q, n);
      FlatSplit(k / n, p, q);
      var a, b, c := (k / n) / q, (k / n) % q, k % n;
      SwapLeadingAt(y, q, p, n, b, a, c);
      SwapLeadingAt(x, p, q, n, a, b, c);
    }
  }

  /** With a single leading block the transpose moves nothing. */
  lemma SwapLeadingSingle<T>(x: seq<T>, q: nat, n: nat)
    requires |x| == 1 * q * n
    ensures SwapLeading(x, 1, q, n) == x
  {
    forall k | 0 <= k < |x|
      ensures SwapLeading(x, 1, q, n)[k] == x[k]
    {
      FlatSplit(k, q, n);
    }
  }
}
