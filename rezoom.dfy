/**
 * The rezoom refiner: sampling the early feature map at a grid of offsets
 * around every predicted box (`_rezoom`) and the per-slot delta heads fed
 * with those samples (`apply_rezoom`).  Bilinear selection, interpolation
 * and the learned layers are external and enter as function parameters;
 * what is modelled is the order in which samples are produced and the
 * reshape/transpose that lays them out.
 */
module Rezoom {
  import opened Layout

  /** The samples for one horizontal offset, one per vertical offset (the inner loop). */
  function OffsetRow<B>(wo: real, h: seq<real>, select: (real, real) -> B): (r: seq<B>)
    ensures |r| == |h|
  {
    seq(|h|, j requires 0 <= j < |h| => select(wo, h[j]))
  }

  /** All offset samples in the order `_rezoom` appends them: w-major, h-minor. */
  function OffsetGrid<B>(w: seq<real>, h: seq<real>, select: (real, real) -> B): seq<B>
  {
    Flatten(seq(|w|, i requires 0 <= i < |w| => OffsetRow(w[i], h, select)))
  }

  /** Every offset sample selects the same number of boxes. */
  lemma OffsetGridUniform<I(!new)>(w: seq<real>, h: seq<real>, select: (real, real) -> seq<I>, n: nat)
    requires forall wo, ho :: |select(wo, ho)| == n
    ensures Uniform(OffsetGrid(w, h, select), n)
  {
    var rows := seq(|w|, i requires 0 <= i < |w| => OffsetRow(w[i], h, select));
    forall g | 0 <= g < |rows|
      ensures Uniform(rows[g], n)
    {
      forall j | 0 <= j < |rows[g]|
        ensures |rows[g][j]| == n
      {
        var wo: real, ho: real := w[g], h[j];
        assert |select(wo, ho)| == n;
        assert rows[g][j] == select(wo, ho);
      }
    }
    FlattenUniform(rows, n);
  }

  /** Sample number wi * |h| + hi is the one taken at offset (w[wi], h[hi]); there are |w| * |h| of them. */
  lemma OffsetGridAt<B>(w: seq<real>, h: seq<real>, select: (real, real) -> B, wi: nat, hi: nat)
    requires wi < |w| && hi < |h|
    ensures |OffsetGrid(w, h, select)| == |w| * |h|
    ensures Flat(wi, hi, |h|) < |OffsetGrid(w, h, select)|
    ensures OffsetGrid(w, h, select)[Flat(wi, hi, |h|)] == select(w[wi], h[hi])
  {
    var rows := seq(|w|, i requires 0 <= i < |w| => OffsetRow(w[i], h, select));
    FlattenLength(rows, |h|);
    FlattenAt(rows, |h|, wi, hi);
  }

  /**
   * The reshape to [n, outer, rnn, c], the transpose [1, 2, 0, 3] and the
   * reshape to [outer, rnn, n * c].  Axes (outer, rnn) move as one block,
   * so this is a swap of the leading axis with that block.
   */
  function RezoomLayout<T>(x: seq<T>, n: nat, outer: nat, rnn: nat, c: nat): (r: seq<T>)
    requires |x| == n * (outer * rnn) * c
    ensures |r| == |x| && |r| == outer * rnn * (n * c)
  {
    SwapLeading(x, n, outer * rnn, c)
  }

  /**
   * Element (i, o, s, ch) of the [n, outer, rnn, c] input ends at
   * (o, s, i * c + ch) of the [outer, rnn, n * c] output.
   */
  lemma RezoomLayoutAt<T>(x: seq<T>, n: nat, outer: nat, rnn: nat, c: nat, i: nat, o: nat, s: nat, ch: nat)
    requires |x| == n * (outer * rnn) * c
    requires i < n && o < outer && s < rnn && ch < c
    ensures Flat(Flat(Flat(i, o, outer), s, rnn), ch, c) < |x|
    ensures Flat(Flat(o, s, rnn), Flat(i, ch, c), n * c) < |x|
    ensures RezoomLayout(x, n, outer, rnn, c)[Flat(Flat(o, s, rnn), Flat(i, ch, c), n * c)]
         == x[Flat(Flat(Flat(i, o, outer), s, rnn), ch, c)]
  {
    var cell := Flat(o, s, rnn);
    FlatBound(o, s, outer, rnn);
    FlatAssoc(i, o, s, outer, rnn);
    FlatAssoc(cell, i, ch, n, c);
    SwapLeadingAt(x, n, outer * rnn, c, i, cell, ch);
  }

  /** With a single offset the layout moves no element: cell and slot order are kept. */
  lemma RezoomLayoutSingleOffset<T>(x: seq<T>, outer: nat, rnn: nat, c: nat)
    requires |x| == 1 * (outer * rnn) * c
    ensures RezoomLayout(x, 1, outer, rnn, c) == x
  {
    SwapLeadingSingle(x, outer * rnn, c);
  }

  /** The gathered rows, c features each, one row per selected index (`train_utils.interp`). */
  function Gather<I(!new)>(rows: seq<I>, interp: I -> seq<real>): seq<seq<real>>
  {
    seq(|rows|, r requires 0 <= r < |rows| => interp(rows[r]))
  }

  lemma GatherUniform<I(!new)>(rows: seq<I>, interp: I -> seq<real>, c: nat)
    requires forall idx :: |interp(idx)| == c
    ensures |Gather(rows, interp)| == |rows| && Uniform(Gather(rows, interp), c)
  {
    forall r | 0 <= r < |rows|
      ensures |Gather(rows, interp)[r]| == c
    {
      var idx: I := rows[r];
      assert |interp(idx)| == c;
    }
  }

  /**
   * The interpolated samples before the layout: `tf.concat(0, indices)`
   * gathered by `interp`, [n * m, c] with n offset pairs and m boxes.
   */
  function Samples<I(!new)>(w: seq<real>, h: seq<real>, select: (real, real) -> seq<I>,
                            interp: I -> seq<real>, m: nat, c: nat): (r: seq<real>)
    requires forall wo, ho :: |select(wo, ho)| == m
    requires forall idx :: |interp(idx)| == c
    ensures |r| == |w| * |h| * m * c
  {
    var grid := OffsetGrid(w, h, select);
    FlattenLength(seq(|w|, i requires 0 <= i < |w| => OffsetRow(w[i], h, select)), |h|);
    OffsetGridUniform(w, h, select, m);
    FlattenLength(grid, m);
    var rows := Flatten(grid);
    GatherUniform(rows, interp, c);
    FlattenLength(Gather(rows, interp), c);
    Flatten(Gather(rows, interp))
  }

  /** Feature ch of box b at offset pair i = wi * |h| + hi is sample row i * m + b. */
  lemma SamplesAt<I(!new)>(w: seq<real>, h: seq<real>, select: (real, real) -> seq<I>,
                           interp: I -> seq<real>, m: nat, c: nat, wi: nat, hi: nat, b: nat, ch: nat)
    requires forall wo, ho :: |select(wo, ho)| == m
    requires forall idx :: |interp(idx)| == c
    requires wi < |w| && hi < |h| && b < m && ch < c
    ensures Flat(Flat(Flat(wi, hi, |h|), b, m), ch, c) < |Samples(w, h, select, interp, m, c)|
    ensures Samples(w, h, select, interp, m, c)[Flat(Flat(Flat(wi, hi, |h|), b, m), ch, c)]
         == interp(select(w[wi], h[hi])[b])[ch]
  {
    var i := Flat(wi, hi, |h|);
    var grid := OffsetGrid(w, h, select);
    OffsetGridAt(w, h, select, wi, hi);
    OffsetGridUniform(w, h, select, m);
    FlattenLength(grid, m);
    FlattenAt(grid, m, i, b);
    var rows := Flatten(grid);
    GatherUniform(rows, interp, c);
    FlattenAt(Gather(rows, interp), c, Flat(i, b, m), ch);
  }

  /** What `_rezoom` returns, flat as [outer, rnn, |w| * |h| * c]. */
  function RezoomFeatures<I(!new)>(w: seq<real>, h: seq<real>, select: (real, real) -> seq<I>,
                                   interp: I -> seq<real>, outer: nat, rnn: nat, c: nat): (r: seq<real>)
    requires forall wo, ho :: |select(wo, ho)| == outer * rnn
    requires forall idx :: |interp(idx)| == c
    ensures |r| == outer * rnn * (|w| * |h| * c)
  {
    RezoomLayout(Samples(w, h, select, interp, outer * rnn, c), |w| * |h|, outer, rnn, c)
  }

  /**
   * End to end: feature ch of box (o, s) sampled at offset (w[wi], h[hi])
   * is output element (o, s, (wi * |h| + hi) * c + ch).
   */
  lemma RezoomFeaturesAt<I(!new)>(w: seq<real>, h: seq<real>, select: (real, real) -> seq<I>,
                                  interp: I -> seq<real>, outer: nat, rnn: nat, c: nat,
                                  wi: nat, hi: nat, o: nat, s: nat, ch: nat)
    requires forall wo, ho :: |select(wo, ho)| == outer * rnn
    requires forall idx :: |interp(idx)| == c
    requires wi < |w| && hi < |h| && o < outer && s < rnn && ch < c
    ensures Flat(o, s, rnn) < outer * rnn
    ensures Flat(Flat(o, s, rnn), Flat(Flat(wi, hi, |h|), ch, c), |w| * |h| * c)
          < |RezoomFeatures(w, h, select, interp, outer, rnn, c)|
    ensures RezoomFeatures(w, h, select, interp, outer, rnn, c)
              [Flat(Flat(o, s, rnn), Flat(Flat(wi, hi, |h|), ch, c), |w| * |h| * c)]
         == interp(select(w[wi], h[hi])[Flat(o, s, rnn)])[ch]
  {
    var i := Flat(wi, hi, |h|);
    FlatBound(wi, hi, |w|, |h|);
    FlatBound(o, s, outer, rnn);
    var x := Samples(w, h, select, interp, outer * rnn, c);
    SamplesAt(w, h, select, interp, outer * rnn, c, wi, hi, Flat(o, s, rnn), ch);
    FlatAssoc(i, o, s, outer, rnn);
    RezoomLayoutAt(x, |w| * |h|, outer, rnn, c, i, o, s, ch);
  }

  /**
   * `_rezoom`: the nested loop appends one bilinear selection per offset
   * pair, the selections are concatenated, interpolated and laid out.
   */
  method RezoomSamples<I(!new)>(w: seq<real>, h: seq<real>, select: (real, real) -> seq<I>,
                          interp: I -> seq<real>, outer: nat, rnn: nat, c: nat) returns (features: seq<real>)
    requires forall wo, ho :: |select(wo, ho)| == outer * rnn
    requires forall idx :: |interp(idx)| == c
    ensures |features| == outer * rnn * (|w| * |h| * c)
    ensures features == RezoomFeatures(w, h, select, interp, outer, rnn, c)
  {
    ghost var rows := seq(|w|, i requires 0 <= i < |w| => OffsetRow(w[i], h, select));
    var indices: seq<seq<I>> := [];
    var wi := 0;
    while wi < |w|
      invariant 0 <= wi <= |w|
      invariant indices == Flatten(rows[..wi])
    {
      var hi := 0;
      ghost var before := indices;
      while hi < |h|
        invariant 0 <= hi <= |h|
        invariant indices == before + OffsetRow(w[wi], h, select)[..hi]
      {
        indices := indices + [select(w[wi], h[hi])];
        hi := hi + 1;
      }
      assert rows[..wi + 1][..wi] == rows[..wi];
      wi := wi + 1;
    }
    assert rows[..|w|] == rows;
    var gathered := Flatten(Gather(Flatten(indices), interp));
    assert gathered == Samples(w, h, select, interp, outer * rnn, c);
    features := RezoomLayout(gathered, |w| * |h|, outer, rnn, c);
  }

  /** Feature j of cell o in slot k, scaled down by 1000 as `apply_rezoom` feeds it to the delta head. */
  function SlotFeature(features: seq<real>, outer: nat, rnn: nat, width: nat, o: nat, k: nat, j: nat): real
    requires |features| == outer * rnn * width && o < outer && k < rnn && j < width
  {
    FlatBound(o, k, outer, rnn);
    FlatBound(Flat(o, k, rnn), j, outer * rnn, width);
    features[Flat(Flat(o, k, rnn), j, width)] / 1000.0
  }

  /** Entry j of cell o of the bottleneck output, a flat [outer, lstm] buffer. */
  function RawFeature(raw: seq<real>, outer: nat, lstm: nat, o: nat, j: nat): real
    requires |raw| == outer * lstm && o < outer && j < lstm
  {
    FlatBound(o, j, outer, lstm);
    raw[Flat(o, j, lstm)]
  }

  /** Row o of slot k's head input: the bottleneck row followed by the scaled rezoom row. */
  function SlotRow(raw: seq<real>, lstm: nat, features: seq<real>, outer: nat, rnn: nat, width: nat,
                   k: nat, o: nat): (r: seq<real>)
    requires |raw| == outer * lstm && |features| == outer * rnn * width && k < rnn && o < outer
    ensures |r| == lstm + width
  {
    seq(lstm, j requires 0 <= j < lstm => RawFeature(raw, outer, lstm, o, j))
      + seq(width, j requires 0 <= j < width => SlotFeature(features, outer, rnn, width, o, k, j))
  }

  /**
   * `tf.concat(1, [raw_output, rezoom_features[:, k, :] / 1000.])`, flat
   * as [outer, lstm + width].
   */
  function SlotInput(raw: seq<real>, lstm: nat, features: seq<real>, outer: nat, rnn: nat, width: nat,
                     k: nat): (r: seq<real>)
    requires |raw| == outer * lstm && |features| == outer * rnn * width && k < rnn
    ensures |r| == outer * (lstm + width)
  {
    var rows := seq(outer, o requires 0 <= o < outer => SlotRow(raw, lstm, features, outer, rnn, width, k, o));
    FlattenLength(rows, lstm + width);
    Flatten(rows)
  }

  /** The first lstm entries of input row o are the bottleneck row o. */
  lemma SlotInputRawAt(raw: seq<real>, lstm: nat, features: seq<real>, outer: nat, rnn: nat, width: nat,
                       k: nat, o: nat, j: nat)
    requires |raw| == outer * lstm && |features| == outer * rnn * width && k < rnn && o < outer && j < lstm
    ensures Flat(o, j, lstm + width) < outer * (lstm + width)
    ensures Flat(o, j, lstm) < |raw|
    ensures SlotInput(raw, lstm, features, outer, rnn, width, k)[Flat(o, j, lstm + width)] == raw[Flat(o, j, lstm)]
  {
    var rows := seq(outer, o requires 0 <= o < outer => SlotRow(raw, lstm, features, outer, rnn, width, k, o));
    FlattenAt(rows, lstm + width, o, j);
    FlatBound(o, j, outer, lstm + width);
    FlatBound(o, j, outer, lstm);
  }

  /** The remaining width entries of input row o are slot k's rezoom row o divided by 1000. */
  lemma SlotInputFeatureAt(raw: seq<real>, lstm: nat, features: seq<real>, outer: nat, rnn: nat, width: nat,
                           k: nat, o: nat, j: nat)
    requires |raw| == outer * lstm && |features| == outer * rnn * width && k < rnn && o < outer && j < width
    ensures Flat(o, lstm + j, lstm + width) < outer * (lstm + width)
    ensures Flat(Flat(o, k, rnn), j, width) < |features|
    ensures SlotInput(raw, lstm, features, outer, rnn, width, k)[Flat(o, lstm + j, lstm + width)]
         == features[Flat(Flat(o, k, rnn), j, width)] / 1000.0
  {
    var rows := seq(outer, o requires 0 <= o < outer => SlotRow(raw, lstm, features, outer, rnn, width, k, o));
    FlattenAt(rows, lstm + width, o, lstm + j);
    FlatBound(o, lstm + j, outer, lstm + width);
    FlatBound(o, k, outer, rnn);
    FlatBound(Flat(o, k, rnn), j, outer * rnn, width);
  }

  /** What a per-slot head produces for every slot, in slot order. */
  function SlotOutputs(head: (nat, seq<real>) -> seq<real>, raw: seq<real>, lstm: nat, features: seq<real>,
                       outer: nat, rnn: nat, width: nat, n: nat): (r: seq<seq<real>>)
    requires |raw| == outer * lstm && |features| == outer * rnn * width
    requires forall k, v :: |head(k, v)| == outer * n
    ensures |r| == rnn && Uniform(r, outer * n)
  {
    var r := seq(rnn, k requires 0 <= k < rnn => head(k, SlotInput(raw, lstm, features, outer, rnn, width, k)));
    assert forall k :: 0 <= k < rnn ==> |r[k]| == |head(k, SlotInput(raw, lstm, features, outer, rnn, width, k))|;
    r
  }

  /**
   * `tf.concat(1, parts)` of rnn tensors of shape [outer, 1, n]: the
   * [rnn, outer, n] stack with its two leading axes swapped.
   */
  function ConcatSlots(parts: seq<seq<real>>, outer: nat, n: nat): (r: seq<real>)
    requires Uniform(parts, outer * n)
    ensures |r| == outer * |parts| * n
  {
    FlattenLength(parts, outer * n);
    assert |parts| * (outer * n) == |parts| * outer * n;
    SwapLeading(Flatten(parts), |parts|, outer, n)
  }

  /** Element (o, j) of slot k's part is element (o, k, j) of the concatenation. */
  lemma ConcatSlotsAt(parts: seq<seq<real>>, outer: nat, n: nat, o: nat, k: nat, j: nat)
    requires Uniform(parts, outer * n) && o < outer && k < |parts| && j < n
    ensures Flat(o, j, n) < outer * n
    ensures Flat(Flat(o, k, |parts|), j, n) < outer * |parts| * n
    ensures ConcatSlots(parts, outer, n)[Flat(Flat(o, k, |parts|), j, n)] == parts[k][Flat(o, j, n)]
  {
    FlattenLength(parts, outer * n);
    assert |parts| * (outer * n) == |parts| * outer * n;
    FlatBound(o, j, outer, n);
    FlatAssoc(k, o, j, outer, n);
    FlattenAt(parts, outer * n, k, Flat(o, j, n));
    SwapLeadingAt(Flatten(parts), |parts|, outer, n, k, o, j);
  }

  /**
   * `apply_rezoom`'s loop over the rnn slots: every slot's features,
   * appended to the bottleneck output, go through the confidence-delta head and, when re-regression is on,
   * through the box-delta head; the per-slot results are concatenated
   * along the slot axis.  Without re-regression no box deltas are
   * produced (the empty list).
   */
  method ApplyRezoom(raw: seq<real>, lstm: nat, features: seq<real>, outer: nat, rnn: nat, width: nat,
                     numClasses: nat, reregress: bool,
                     confHead: (nat, seq<real>) -> seq<real>, boxHead: (nat, seq<real>) -> seq<real>)
    returns (confDeltas: seq<real>, boxDeltas: seq<real>)
    requires |raw| == outer * lstm && |features| == outer * rnn * width
    requires forall k, v :: |confHead(k, v)| == outer * numClasses
    requires forall k, v :: |boxHead(k, v)| == outer * 4
    ensures |confDeltas| == outer * rnn * numClasses
    ensures confDeltas == ConcatSlots(SlotOutputs(confHead, raw, lstm, features, outer, rnn, width, numClasses), outer, numClasses)
    ensures reregress ==> boxDeltas == ConcatSlots(SlotOutputs(boxHead, raw, lstm, features, outer, rnn, width, 4), outer, 4)
    ensures !reregress ==> boxDeltas == []
  {
    ghost var confAll := SlotOutputs(confHead, raw, lstm, features, outer, rnn, width, numClasses);
    ghost var boxAll := SlotOutputs(boxHead, raw, lstm, features, outer, rnn, width, 4);
    var confParts: seq<seq<real>> := [];
    var boxParts: seq<seq<real>> := [];
    for k := 0 to rnn
      invariant confParts == confAll[..k]
      invariant reregress ==> boxParts == boxAll[..k]
      invariant !reregress ==> boxParts == []
    {
      var input := SlotInput(raw, lstm, features, outer, rnn, width, k);
      if reregress {
        boxParts := boxParts + [boxHead(k, input)];
      }
      confParts := confParts + [confHead(k, input)];
    }
    assert confAll[..rnn] == confAll;
    assert boxAll[..rnn] == boxAll;
    confDeltas := ConcatSlots(confParts, outer, numClasses);
    if reregress {
      boxDeltas := ConcatSlots(boxParts, outer, 4);
    } else {
      boxDeltas := [];
    }
  }

  /**
   * What `apply_rezoom` returns for one head: the head applied to every
   * slot of the sampled features, concatenated along the slot axis.
   */
  function RezoomDeltas<I(!new)>(w: seq<real>, h: seq<real>, select: (real, real) -> seq<I>,
                                 interp: I -> seq<real>, outer: nat, rnn: nat, c: nat,
                                 raw: seq<real>, lstm: nat,
                                 head: (nat, seq<real>) -> seq<real>, n: nat): (r: seq<real>)
    requires |raw| == outer * lstm
    requires forall wo, ho :: |select(wo, ho)| == outer * rnn
    requires forall idx :: |interp(idx)| == c
    requires forall k, v :: |head(k, v)| == outer * n
    ensures |r| == outer * rnn * n
  {
    var features := RezoomFeatures(w, h, select, interp, outer, rnn, c);
    ConcatSlots(SlotOutputs(head, raw, lstm, features, outer, rnn, |w| * |h| * c, n), outer, n)
  }

  /** The confidence delta for class j of slot k in cell o comes from slot k's head, row o. */
  lemma ConfDeltaAt(raw: seq<real>, lstm: nat, features: seq<real>, outer: nat, rnn: nat, width: nat,
                    numClasses: nat, confHead: (nat, seq<real>) -> seq<real>, o: nat, k: nat, j: nat)
    requires |raw| == outer * lstm && |features| == outer * rnn * width
    requires forall k, v :: |confHead(k, v)| == outer * numClasses
    requires o < outer && k < rnn && j < numClasses
    ensures Flat(o, j, numClasses) < outer * numClasses
    ensures Flat(Flat(o, k, rnn), j, numClasses) < outer * rnn * numClasses
    ensures ConcatSlots(SlotOutputs(confHead, raw, lstm, features, outer, rnn, width, numClasses), outer, numClasses)
              [Flat(Flat(o, k, rnn), j, numClasses)]
         == confHead(k, SlotInput(raw, lstm, features, outer, rnn, width, k))[Flat(o, j, numClasses)]
  {
    ConcatSlotsAt(SlotOutputs(confHead, raw, lstm, features, outer, rnn, width, numClasses), outer, numClasses, o, k, j);
  }
}
