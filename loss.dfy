/**
 * The loss (`loss`): the single-slot matcher, the binary targets, the
 * masked residuals, the clipping of the re-regression residual and the
 * composition of the terms.  Cross-entropy, IoU and the Hungarian matcher
 * are external and enter as parameters.
 */
module Loss {
  import opened Tensors
  import opened Hyper
  import opened Layout
  import opened Decoder

  datatype Box = Box(x: real, y: real, w: real, h: real)

  /** A flat buffer of 4 * count values read as count boxes (`tf.reshape(t, [-1, 4])`). */
  function Boxes(flat: seq<real>, count: nat): (r: seq<Box>)
    requires |flat| == 4 * count
    ensures |r| == count
  {
    seq(count, i requires 0 <= i < count =>
      Box(flat[4 * i], flat[4 * i + 1], flat[4 * i + 2], flat[4 * i + 3]))
  }

  function Sum(s: seq<real>): real
  {
    if |s| == 0 then 0.0 else Sum(s[..|s| - 1]) + s[|s| - 1]
  }

  lemma SumAppend(s: seq<real>, x: real)
    ensures Sum(s + [x]) == Sum(s) + x
  {
    assert (s + [x])[..|s|] == s;
  }

  lemma {:induction false} SumNonNegative(s: seq<real>)
    requires forall i :: 0 <= i < |s| ==> s[i] >= 0.0
    ensures Sum(s) >= 0.0
  {
    if |s| > 0 {
      SumNonNegative(s[..|s| - 1]);
    }
  }

  function Abs(v: real): real
  {
    if v < 0.0 then -v else v
  }

  // ----- matching ------------------------------------------------------------

  /** What a matcher assigns to every (cell, slot): a class, a ground-truth box and a mask. */
  datatype Matching = Matching(classes: seq<int>, permTruth: seq<Box>, mask: seq<real>)

  /** The typing of the Hungarian matcher's outputs for n slots: aligned, with a 0/1 mask. */
  ghost predicate MatcherTyped(m: Matching, n: nat)
  {
    && |m.classes| == n && |m.permTruth| == n && |m.mask| == n
    && forall o :: 0 <= o < n ==> m.mask[o] == 0.0 || m.mask[o] == 1.0
  }

  /** `tf.cast(tf.greater(c, 0), ...)`. */
  function Positive(c: int): int
  {
    if c > 0 then 1 else 0
  }

  function SlotMask(classes: seq<int>): (r: seq<real>)
    ensures |r| == |classes|
  {
    seq(|classes|, o requires 0 <= o < |classes| => Positive(classes[o]) as real)
  }

  function TrueClasses(classes: seq<int>): (r: seq<int>)
    ensures |r| == |classes|
  {
    seq(|classes|, o requires 0 <= o < |classes| => Positive(classes[o]))
  }

  /**
   * The matcher: the labels are reshaped to [outer, rnn, 4] and
   * [outer, rnn]; with `use_lstm` the Hungarian outputs are taken as
   * they are, otherwise every cell keeps its one ground-truth box and the
   * mask marks the cells whose class is positive.
   */
  function Match(cfg: Config, flags: seq<int>, boxes: seq<real>, hungarian: Matching): (r: Result<Matching>)
    ensures r.Ok? ==> |boxes| == OuterSize(cfg) * cfg.rnnLen * 4 && |flags| == OuterSize(cfg) * cfg.rnnLen
    ensures r.Err? ==> r.error.ShapeMismatch?
    ensures cfg.useLstm ==> (r.Ok? <==> |boxes| == OuterSize(cfg) * cfg.rnnLen * 4 && |flags| == OuterSize(cfg) * cfg.rnnLen)
    ensures cfg.useLstm && r.Ok? ==> r.value == hungarian
    ensures !cfg.useLstm && r.Ok? ==> r.value.classes == flags && |flags| == OuterSize(cfg)
    ensures !cfg.useLstm && r.Ok? ==> MatcherTyped(r.value, OuterSize(cfg))
  {
    var outer, rnn := OuterSize(cfg), cfg.rnnLen;
    Size3(outer, rnn, 4);
    Size2(outer, rnn);
    Size2(outer, 1);
    Size3(outer, 1, 4);
    var _ :- Reshape(boxes, [outer, rnn, 4]);
    var _ :- Reshape(flags, [outer, rnn]);
    if cfg.useLstm then
      Ok(hungarian)
    else
      var classes :- Reshape(flags, [outer, 1]);
      // one slot per cell, so the box labels fit [outer, 1, 4] as well
      assert |boxes| == |flags| * 4 == outer * 4;
      var permTruth := Reshape(boxes, [outer, 1, 4]).value;
      Ok(Matching(classes.data, Boxes(permTruth.data, outer), SlotMask(classes.data)))
  }

  /**
   * Single-slot matching: it succeeds exactly when the labels hold one
   * slot per cell, and then the ground truth is passed on unchanged, the
   * mask is 1 exactly on the cells with a positive class and 0 elsewhere,
   * and the classification target agrees with the mask.
   */
  lemma SingleSlotMatch(cfg: Config, flags: seq<int>, boxes: seq<real>, hungarian: Matching)
    requires !cfg.useLstm
    ensures Match(cfg, flags, boxes, hungarian).Ok? <==>
              && |boxes| == OuterSize(cfg) * cfg.rnnLen * 4 && |flags| == OuterSize(cfg) * cfg.rnnLen
              && |flags| == OuterSize(cfg) && |boxes| == OuterSize(cfg) * 4
    ensures Match(cfg, flags, boxes, hungarian).Ok? ==>
              var m := Match(cfg, flags, boxes, hungarian).value;
              && m.classes == flags
              && m.permTruth == Boxes(boxes, OuterSize(cfg))
              && MatcherTyped(m, |flags|)
              && (forall o :: 0 <= o < |flags| ==> (m.mask[o] == 1.0 <==> flags[o] > 0))
              && (forall o :: 0 <= o < |flags| ==> TrueClasses(m.classes)[o] == (if flags[o] > 0 then 1 else 0))
              && (forall o :: 0 <= o < |flags| ==> TrueClasses(m.classes)[o] as real == m.mask[o])
  {
    var outer, rnn := OuterSize(cfg), cfg.rnnLen;
    Size3(outer, rnn, 4);
    Size2(outer, rnn);
    Size2(outer, 1);
    Size3(outer, 1, 4);
  }

  // ----- targets of the rezoom confidence loss -------------------------------

  function Max1(v: real): real
  {
    if v > 1.0 then v else 1.0
  }

  function Square(v: real): real
  {
    v * v
  }

  /** Squared centre offset, each axis normalised by the truth's size but never by less than 1. */
  function CenterError(truth: Box, pred: Box): real
  {
    Square((truth.x - pred.x) / Max1(truth.w)) + Square((truth.y - pred.y) / Max1(truth.h))
  }

  /** The "inside" target of one slot under the configured policy; iou is computed outside. */
  function InsideTarget(policy: ChangeLoss, truth: Box, pred: Box, cls: int, iou: real): (r: int)
    ensures r == 0 || r == 1
  {
    match policy
    case Center => if CenterError(truth, pred) < (1.0 / 5.0) * (1.0 / 5.0) && cls > 0 then 1 else 0
    case IouAbove => if iou > 0.5 then 1 else 0
    case Presence => Positive(cls)
  }

  /** The centre policy only ever marks slots that the presence policy marks. */
  lemma CenterImpliesPresence(truth: Box, pred: Box, cls: int, iou: real)
    ensures InsideTarget(Center, truth, pred, cls, iou) == 1 ==> InsideTarget(Presence, truth, pred, cls, iou) == 1
  {
  }

  /** A prediction on the truth's centre is inside under the centre policy whenever an object is present. */
  lemma SameCenterInside(truth: Box, pred: Box, cls: int, iou: real)
    requires pred.x == truth.x && pred.y == truth.y && cls > 0
    ensures InsideTarget(Center, truth, pred, cls, iou) == 1
  {
    assert CenterError(truth, pred) == 0.0;
  }

  /** An offset of a fifth of the normalising size or more along x is never inside. */
  lemma FarCenterOutside(truth: Box, pred: Box, cls: int, iou: real)
    requires Abs(truth.x - pred.x) >= Max1(truth.w) / 5.0
    ensures InsideTarget(Center, truth, pred, cls, iou) == 0
  {
    var e := (truth.x - pred.x) / Max1(truth.w);
    assert Abs(e) >= 1.0 / 5.0;
    assert Square(e) >= (1.0 / 5.0) * (1.0 / 5.0) by {
      if e >= 0.0 {
        assert e * e >= (1.0 / 5.0) * e >= (1.0 / 5.0) * (1.0 / 5.0);
      } else {
        assert (-e) * (-e) >= (1.0 / 5.0) * (-e) >= (1.0 / 5.0) * (1.0 / 5.0);
      }
    }
    assert CenterError(truth, pred) >= (1.0 / 5.0) * (1.0 / 5.0);
  }

  // ----- residuals -------------------------------------------------------------

  /** Sum of absolute components. */
  function L1(b: Box): (r: real)
    ensures r >= 0.0
  {
    Abs(b.x) + Abs(b.y) + Abs(b.w) + Abs(b.h)
  }

  /** `perm_truth - pred_boxes * pred_mask`: the mask scales only the prediction. */
  function BaseResidual(truth: Box, pred: Box, mask: real): Box
  {
    Box(truth.x - pred.x * mask, truth.y - pred.y * mask, truth.w - pred.w * mask, truth.h - pred.h * mask)
  }

  /** `(perm_truth - (pred_boxes + pred_boxes_deltas)) * pred_mask`: the mask scales the whole difference. */
  function RereResidual(truth: Box, pred: Box, delta: Box, mask: real): Box
  {
    Box((truth.x - (pred.x + delta.x)) * mask, (truth.y - (pred.y + delta.y)) * mask,
        (truth.w - (pred.w + delta.w)) * mask, (truth.h - (pred.h + delta.h)) * mask)
  }

  /** `tf.minimum(tf.square(v), 10. ** 2)`. */
  function ClipSquare(v: real): (r: real)
    ensures 0.0 <= r <= 100.0
    ensures r <= v * v
  {
    if v * v < 100.0 then v * v else 100.0
  }

  /** Inside [-10, 10] the square is kept as it is; outside that range it is cut to 100. */
  lemma ClipSquareRange(v: real)
    ensures -10.0 <= v <= 10.0 ==> ClipSquare(v) == v * v
    ensures (v <= -10.0 || v >= 10.0) ==> ClipSquare(v) == 100.0
  {
    var a := Abs(v);
    assert v * v == a * a;
    if a <= 10.0 {
      assert a * a <= 10.0 * a <= 100.0;
    } else {
      assert a * a >= 10.0 * a >= 100.0;
    }
  }

  function ClippedSquares(b: Box): (r: real)
    ensures 0.0 <= r
  {
    ClipSquare(b.x) + ClipSquare(b.y) + ClipSquare(b.w) + ClipSquare(b.h)
  }

  /**
   * In the base residual a masked-out slot still costs the size of its
   * ground-truth box; a masked-in slot costs its distance to the truth.
   */
  lemma BaseResidualMask(truth: Box, pred: Box)
    ensures L1(BaseResidual(truth, pred, 0.0)) == L1(truth)
    ensures L1(BaseResidual(truth, pred, 1.0))
         == Abs(truth.x - pred.x) + Abs(truth.y - pred.y) + Abs(truth.w - pred.w) + Abs(truth.h - pred.h)
  {
  }

  /** In the re-regression residual a masked-out slot costs nothing. */
  lemma RereResidualMask(truth: Box, pred: Box, delta: Box)
    ensures ClippedSquares(RereResidual(truth, pred, delta, 0.0)) == 0.0
  {
  }

  /** A residual of 20 is clipped to 100, not counted as 400. */
  lemma ClipExample()
    ensures ClipSquare(20.0) == 100.0
    ensures ClippedSquares(Box(20.0, 0.0, 0.0, 0.0)) == 100.0
  {
  }

  // ----- composition -----------------------------------------------------------

  datatype LossOut = LossOut(loss: real, confidencesLoss: real, boxesLoss: real)

  /**
   * The terms that are summed: with rezoom the delta-confidence term is
   * added, with re-regression too the delta-box term is added and takes
   * the place of the returned box loss.
   */
  function Compose(useRezoom: bool, reregress: bool, conf: real, boxes: real,
                   deltaConf: real, deltaBoxes: real): (r: LossOut)
    ensures r.confidencesLoss == conf
    ensures r.boxesLoss == (if useRezoom && reregress then deltaBoxes else boxes)
    ensures r.loss == conf + boxes + (if useRezoom then deltaConf else 0.0)
                      + (if useRezoom && reregress then deltaBoxes else 0.0)
  {
    if useRezoom then
      var loss := conf + boxes + deltaConf;
      if reregress then LossOut(loss + deltaBoxes, conf, deltaBoxes) else LossOut(loss, conf, boxes)
    else
      LossOut(conf + boxes, conf, boxes)
  }

  /** With non-negative terms the loss bounds both returned terms, which are non-negative. */
  lemma ComposeBounds(useRezoom: bool, reregress: bool, conf: real, boxes: real, deltaConf: real, deltaBoxes: real)
    requires conf >= 0.0 && boxes >= 0.0 && deltaConf >= 0.0 && deltaBoxes >= 0.0
    ensures var r := Compose(useRezoom, reregress, conf, boxes, deltaConf, deltaBoxes);
            && r.loss >= r.confidencesLoss >= 0.0
            && r.loss >= r.boxesLoss >= 0.0
  {
  }

  /** A term: summed over the cells, divided by the outer size and weighted. */
  function Term(values: seq<real>, outer: nat, weight: real): real
    requires outer > 0
  {
    Sum(values) / outer as real * weight
  }

  lemma TermNonNegative(values: seq<real>, outer: nat, weight: real)
    requires outer > 0 && weight >= 0.0
    requires forall i :: 0 <= i < |values| ==> values[i] >= 0.0
    ensures Term(values, outer, weight) >= 0.0
  {
    SumNonNegative(values);
    assert Sum(values) / outer as real >= 0.0;
  }

  /** Row o of a [count, n] buffer. */
  function Row(x: seq<real>, count: nat, n: nat, o: nat): (r: seq<real>)
    requires |x| == count * n && o < count
    ensures |r| == n
  {
    MulMonotone(o + 1, count, n);
    x[o * n .. o * n + n]
  }

  // ----- the loss ----------------------------------------------------------------

  /** The shapes the decoder gives its outputs. */
  ghost predicate Shaped(cfg: Config, dec: Decoded)
  {
    var outer, rnn, nc := OuterSize(cfg), cfg.rnnLen, cfg.numClasses;
    && |dec.predBoxes.data| == outer * 4
    && |dec.predLogits.data| == outer * nc
    && (dec.confDeltas.Some? <==> cfg.useRezoom)
    && (dec.confDeltas.Some? ==> |dec.confDeltas.value.data| == outer * rnn * nc)
    && (dec.boxDeltas.Some? <==> cfg.useRezoom && cfg.reregress)
    && (dec.boxDeltas.Some? ==> |dec.boxDeltas.value.data| == outer * rnn * 4)
  }

  /** What the decoder returns, with the delta buffers the rezoom heads produce, has the shapes the loss needs. */
  lemma DecodeFeedsLoss(cfg: Config, cnnOutput: seq<real>, boxProj: seq<real>, logitProj: seq<real>,
                        softmax: seq<real> -> seq<real>, confDeltas: seq<real>, boxDeltas: seq<real>)
    requires forall v :: |softmax(v)| == |v|
    requires DecodeBase(cfg, cnnOutput, boxProj, logitProj, softmax).Ok?
    requires |confDeltas| == OuterSize(cfg) * cfg.rnnLen * cfg.numClasses
    requires |boxDeltas| == OuterSize(cfg) * cfg.rnnLen * 4
    ensures var base := DecodeBase(cfg, cnnOutput, boxProj, logitProj, softmax).value;
            Shaped(cfg, base.(
              confDeltas := if cfg.useRezoom then Some(Tensor([OuterSize(cfg) * cfg.rnnLen, cfg.numClasses], confDeltas)) else None,
              boxDeltas := if cfg.useRezoom && cfg.reregress then Some(Tensor([OuterSize(cfg), cfg.rnnLen, 4], boxDeltas)) else None))
  {
  }

  /** The external numerics the loss calls. */
  datatype External = External(
    xent: (seq<real>, int) -> real,  // sparse softmax cross-entropy of one row of logits against a label
    iou: (Box, Box) -> real,         // IoU of a predicted and a ground-truth box
    hungarian: Matching)             // the Hungarian matcher's result, used with use_lstm

  ghost predicate ExternalTyped(cfg: Config, ext: External)
  {
    && (forall row, target :: ext.xent(row, target) >= 0.0)
    && (cfg.useLstm ==> MatcherTyped(ext.hungarian, OuterSize(cfg) * cfg.rnnLen))
  }

  /** The per-cell terms, over the outer cells once the shapes are checked. */
  function ConfTerms(logits: seq<real>, outer: nat, nc: nat, targets: seq<int>, xent: (seq<real>, int) -> real): (r: seq<real>)
    requires |logits| == outer * nc && |targets| == outer
    ensures |r| == outer
  {
    seq(outer, o requires 0 <= o < outer => xent(Row(logits, outer, nc, o), targets[o]))
  }

  lemma ConfTermsNonNegative(logits: seq<real>, outer: nat, nc: nat, targets: seq<int>, xent: (seq<real>, int) -> real)
    requires |logits| == outer * nc && |targets| == outer
    requires forall row, target :: xent(row, target) >= 0.0
    ensures forall o :: 0 <= o < outer ==> ConfTerms(logits, outer, nc, targets, xent)[o] >= 0.0
  {
    forall o | 0 <= o < outer
      ensures ConfTerms(logits, outer, nc, targets, xent)[o] >= 0.0
    {
      var row, target := Row(logits, outer, nc, o), targets[o];
      assert xent(row, target) >= 0.0;
    }
  }

  function BoxTerms(m: Matching, pred: seq<Box>): (r: seq<real>)
    requires |m.permTruth| == |pred| && |m.mask| == |pred|
    ensures |r| == |pred|
  {
    seq(|pred|, o requires 0 <= o < |pred| => L1(BaseResidual(m.permTruth[o], pred[o], m.mask[o])))
  }

  function InsideTargets(policy: ChangeLoss, m: Matching, pred: seq<Box>, iou: (Box, Box) -> real): (r: seq<int>)
    requires |m.permTruth| == |pred| && |m.classes| == |pred|
    ensures |r| == |pred|
  {
    seq(|pred|, o requires 0 <= o < |pred| =>
      InsideTarget(policy, m.permTruth[o], pred[o], m.classes[o], iou(pred[o], m.permTruth[o])))
  }

  function RereTerms(m: Matching, pred: seq<Box>, deltas: seq<Box>): (r: seq<real>)
    requires |m.permTruth| == |pred| && |m.mask| == |pred| && |deltas| == |pred|
    ensures |r| == |pred|
  {
    seq(|pred|, o requires 0 <= o < |pred| => ClippedSquares(RereResidual(m.permTruth[o], pred[o], deltas[o], m.mask[o])))
  }

  /** The confidence term: mean cross-entropy of the logits against the presence targets, weighted head[0]. */
  function BaseConfLoss(cfg: Config, trueClasses: seq<int>, dec: Decoded, ext: External): real
    requires Valid(cfg) && Shaped(cfg, dec) && |trueClasses| == OuterSize(cfg)
  {
    OuterSizePositive(cfg);
    Term(ConfTerms(dec.predLogits.data, OuterSize(cfg), cfg.numClasses, trueClasses, ext.xent), OuterSize(cfg), cfg.headConf)
  }

  /** The box term: mean masked L1 residual of the predicted boxes, weighted head[1]. */
  function BaseBoxLoss(cfg: Config, m: Matching, dec: Decoded): real
    requires Valid(cfg) && Shaped(cfg, dec) && MatcherTyped(m, OuterSize(cfg))
  {
    OuterSizePositive(cfg);
    Term(BoxTerms(m, Boxes(dec.predBoxes.data, OuterSize(cfg))), OuterSize(cfg), cfg.headBox)
  }

  /**
   * The rezoom confidence term: mean cross-entropy of the confidence
   * deltas against the inside targets of the policy, weighted head[0] * 0.1.
   */
  function DeltaConfLoss(cfg: Config, policy: ChangeLoss, m: Matching, dec: Decoded, ext: External): real
    requires Valid(cfg) && Shaped(cfg, dec) && cfg.rnnLen == 1 && cfg.useRezoom && MatcherTyped(m, OuterSize(cfg))
  {
    var outer := OuterSize(cfg);
    OuterSizePositive(cfg);
    var inside := InsideTargets(policy, m, Boxes(dec.predBoxes.data, outer), ext.iou);
    Term(ConfTerms(dec.confDeltas.value.data, outer, cfg.numClasses, inside, ext.xent), outer, cfg.headConf * 0.1)
  }

  /** The re-regression term: mean clipped squared residual after the box deltas, weighted head[1] * 0.03. */
  function DeltaBoxLoss(cfg: Config, m: Matching, dec: Decoded): real
    requires Valid(cfg) && Shaped(cfg, dec) && cfg.rnnLen == 1 && cfg.useRezoom && cfg.reregress
    requires MatcherTyped(m, OuterSize(cfg))
  {
    var outer := OuterSize(cfg);
    OuterSizePositive(cfg);
    var pred := Boxes(dec.predBoxes.data, outer);
    Term(RereTerms(m, pred, Boxes(dec.boxDeltas.value.data, outer)), outer, cfg.headBox * 0.03)
  }

  /**
   * `loss`: match, derive the targets, sum the terms.  Fails with the
   * shape error of the first reshape whose element count does not fit,
   * or on an unknown `rezoom_change_loss`.
   */
  function ComputeLoss(cfg: Config, flags: seq<int>, boxes: seq<real>, dec: Decoded, ext: External): (r: Result<LossOut>)
    requires Valid(cfg) && Shaped(cfg, dec) && ExternalTyped(cfg, ext)
    ensures r.Ok? ==> cfg.rnnLen == 1 && |flags| == OuterSize(cfg) && |boxes| == OuterSize(cfg) * 4
    ensures r.Err? && r.error.UnknownChangeLoss? ==> cfg.useRezoom && r.error.name == cfg.changeLoss
    ensures r.Ok? && !cfg.useRezoom ==> r.value.loss == r.value.confidencesLoss + r.value.boxesLoss
    ensures r.Ok? ==> Match(cfg, flags, boxes, ext.hungarian).Ok?
    ensures r.Ok? ==> var m := Match(cfg, flags, boxes, ext.hungarian).value;
                      r == ComputeTerms(cfg, m, TrueClasses(m.classes), dec, ext)
  {
    var outer, rnn, nc := OuterSize(cfg), cfg.rnnLen, cfg.numClasses;
    OuterSizePositive(cfg);
    var m :- Match(cfg, flags, boxes, ext.hungarian);
    MatchShape(cfg, flags, boxes, ext.hungarian);
    Size1(outer * rnn);
    Size2(outer * rnn, nc);
    // the matcher yields outer * rnn classes, so this reshape always fits
    var trueClasses := Reshape(TrueClasses(m.classes), [outer * rnn]).value;
    var _ :- Reshape(dec.predLogits.data, [outer * rnn, nc]);
    SingleSlotOnly(cfg, dec);
    ComputeTerms(cfg, m, trueClasses.data, dec, ext)
  }

  /** Once the logits reshape fits, the configuration has one slot per cell. */
  lemma SingleSlotOnly(cfg: Config, dec: Decoded)
    requires Valid(cfg) && |dec.predLogits.data| == OuterSize(cfg) * cfg.numClasses
    ensures |dec.predLogits.data| == OuterSize(cfg) * cfg.rnnLen * cfg.numClasses ==> cfg.rnnLen == 1
  {
    OuterSizePositive(cfg);
    var outer, nc, rnn := OuterSize(cfg), cfg.numClasses, cfg.rnnLen;
    if rnn != 1 {
      MulMonotone(2, rnn, outer * nc);
      assert outer * rnn * nc == outer * nc * rnn;
    }
  }

  /** Size of the matching's sequences, as the matcher returns them. */
  lemma MatchShape(cfg: Config, flags: seq<int>, boxes: seq<real>, hungarian: Matching)
    requires cfg.useLstm ==> MatcherTyped(hungarian, OuterSize(cfg) * cfg.rnnLen)
    requires Match(cfg, flags, boxes, hungarian).Ok?
    ensures var m := Match(cfg, flags, boxes, hungarian).value;
            MatcherTyped(m, |m.classes|) && (!cfg.useLstm ==> |m.classes| == OuterSize(cfg))
            && (cfg.useLstm ==> |m.classes| == OuterSize(cfg) * cfg.rnnLen)
  {
    if !cfg.useLstm {
      SingleSlotMatch(cfg, flags, boxes, hungarian);
    }
  }

  /**
   * The weighted terms of `loss` once the matching is known: the
   * confidence and box terms, and with rezoom the delta terms under the
   * configured change-loss policy.
   */
  function ComputeTerms(cfg: Config, m: Matching, trueClasses: seq<int>, dec: Decoded, ext: External): (r: Result<LossOut>)
    requires Valid(cfg) && Shaped(cfg, dec) && cfg.rnnLen == 1
    requires MatcherTyped(m, OuterSize(cfg)) && |trueClasses| == OuterSize(cfg)
    ensures r.Err? <==> cfg.useRezoom && cfg.changeLoss !in {"center", "iou", ""}
    ensures r.Err? ==> r.error == UnknownChangeLoss(cfg.changeLoss)
    ensures r.Ok? ==> r.value.confidencesLoss == BaseConfLoss(cfg, trueClasses, dec, ext)
    ensures r.Ok? && !(cfg.useRezoom && cfg.reregress) ==> r.value.boxesLoss == BaseBoxLoss(cfg, m, dec)
    ensures r.Ok? && !cfg.useRezoom ==> r.value.loss == r.value.confidencesLoss + r.value.boxesLoss
    ensures r.Ok? ==>
              r.value == Compose(cfg.useRezoom, cfg.reregress, BaseConfLoss(cfg, trueClasses, dec, ext), BaseBoxLoss(cfg, m, dec),
                                 if cfg.useRezoom then DeltaConfLoss(cfg, ParseChangeLoss(cfg.changeLoss).value, m, dec, ext) else 0.0,
                                 if cfg.useRezoom && cfg.reregress then DeltaBoxLoss(cfg, m, dec) else 0.0)
  {
    var outer, nc := OuterSize(cfg), cfg.numClasses;
    OuterSizePositive(cfg);
    var pred := Boxes(dec.predBoxes.data, outer);
    var conf := Term(ConfTerms(dec.predLogits.data, outer, nc, trueClasses, ext.xent), outer, cfg.headConf);
    var boxes := Term(BoxTerms(m, pred), outer, cfg.headBox);
    if !cfg.useRezoom then
      Ok(Compose(false, cfg.reregress, conf, boxes, 0.0, 0.0))
    else
      var policy :- ParseChangeLoss(cfg.changeLoss);
      var inside := InsideTargets(policy, m, pred, ext.iou);
      var deltaConf := Term(ConfTerms(dec.confDeltas.value.data, outer, nc, inside, ext.xent), outer, cfg.headConf * 0.1);
      if !cfg.reregress then
        Ok(Compose(true, false, conf, boxes, deltaConf, 0.0))
      else
        var deltas := Boxes(dec.boxDeltas.value.data, outer);
        var deltaBoxes := Term(RereTerms(m, pred, deltas), outer, cfg.headBox * 0.03);
        Ok(Compose(true, true, conf, boxes, deltaConf, deltaBoxes))
  }

  /**
   * When the loss is defined: the labels hold rnn_len slots per cell,
   * rnn_len is 1 (the logits are [outer, classes] but are reshaped to
   * [outer * rnn_len, classes]), and with rezoom the change-loss setting
   * is one the dispatch knows.
   */
  lemma LossDefined(cfg: Config, flags: seq<int>, boxes: seq<real>, dec: Decoded, ext: External)
    requires Valid(cfg) && Shaped(cfg, dec) && ExternalTyped(cfg, ext)
    ensures ComputeLoss(cfg, flags, boxes, dec, ext).Ok? <==>
              && |boxes| == OuterSize(cfg) * 4 && |flags| == OuterSize(cfg) && cfg.rnnLen == 1
              && (cfg.useRezoom ==> cfg.changeLoss in {"center", "iou", ""})
  {
    var outer, rnn, nc := OuterSize(cfg), cfg.rnnLen, cfg.numClasses;
    OuterSizePositive(cfg);
    Size1(outer * rnn);
    Size2(outer * rnn, nc);
    Size3(outer, rnn, 4);
    Size2(outer, rnn);
    var mr := Match(cfg, flags, boxes, ext.hungarian);
    if !cfg.useLstm {
      SingleSlotMatch(cfg, flags, boxes, ext.hungarian);
    }
    if mr.Ok? {
      MatchShape(cfg, flags, boxes, ext.hungarian);
      SingleSlotOnly(cfg, dec);
      if rnn == 1 {
        assert |dec.predLogits.data| == Size([outer * rnn, nc]);
      }
    } else if rnn == 1 {
      assert outer * rnn * 4 == outer * 4;
    }
  }

  /** Under non-negative head weights and cross-entropies, every term and the loss are non-negative and the loss bounds both returned terms. */
  lemma LossNonNegative(cfg: Config, flags: seq<int>, boxes: seq<real>, dec: Decoded, ext: External)
    requires Valid(cfg) && Shaped(cfg, dec) && ExternalTyped(cfg, ext)
    requires cfg.headConf >= 0.0 && cfg.headBox >= 0.0
    ensures ComputeLoss(cfg, flags, boxes, dec, ext).Ok? ==>
              var r := ComputeLoss(cfg, flags, boxes, dec, ext).value;
              && r.loss >= r.confidencesLoss >= 0.0
              && r.loss >= r.boxesLoss >= 0.0
  {
    if ComputeLoss(cfg, flags, boxes, dec, ext).Ok? {
      var outer, rnn, nc := OuterSize(cfg), cfg.rnnLen, cfg.numClasses;
      OuterSizePositive(cfg);
      var m := Match(cfg, flags, boxes, ext.hungarian).value;
      MatchShape(cfg, flags, boxes, ext.hungarian);
      Size1(outer * rnn);
      Size2(outer * rnn, nc);
      SingleSlotOnly(cfg, dec);
      TermsNonNegative(cfg, m, TrueClasses(m.classes), dec, ext);
    }
  }

  lemma TermsNonNegative(cfg: Config, m: Matching, trueClasses: seq<int>, dec: Decoded, ext: External)
    requires Valid(cfg) && Shaped(cfg, dec) && cfg.rnnLen == 1 && ExternalTyped(cfg, ext)
    requires MatcherTyped(m, OuterSize(cfg)) && |trueClasses| == OuterSize(cfg)
    requires cfg.headConf >= 0.0 && cfg.headBox >= 0.0
    ensures ComputeTerms(cfg, m, trueClasses, dec, ext).Ok? ==>
              var r := ComputeTerms(cfg, m, trueClasses, dec, ext).value;
              && r.loss >= r.confidencesLoss >= 0.0
              && r.loss >= r.boxesLoss >= 0.0
  {
    var outer, nc := OuterSize(cfg), cfg.numClasses;
    OuterSizePositive(cfg);
    var pred := Boxes(dec.predBoxes.data, outer);
    var confs := ConfTerms(dec.predLogits.data, outer, nc, trueClasses, ext.xent);
    ConfTermsNonNegative(dec.predLogits.data, outer, nc, trueClasses, ext.xent);
    TermNonNegative(confs, outer, cfg.headConf);
    TermNonNegative(BoxTerms(m, pred), outer, cfg.headBox);
    var conf := Term(confs, outer, cfg.headConf);
    var boxes := Term(BoxTerms(m, pred), outer, cfg.headBox);
    if cfg.useRezoom && ParseChangeLoss(cfg.changeLoss).Ok? {
      var policy := ParseChangeLoss(cfg.changeLoss).value;
      var inside := InsideTargets(policy, m, pred, ext.iou);
      var dconfs := ConfTerms(dec.confDeltas.value.data, outer, nc, inside, ext.xent);
      ConfTermsNonNegative(dec.confDeltas.value.data, outer, nc, inside, ext.xent);
      TermNonNegative(dconfs, outer, cfg.headConf * 0.1);
      var deltaConf := Term(dconfs, outer, cfg.headConf * 0.1);
      if cfg.reregress {
        var deltas := Boxes(dec.boxDeltas.value.data, outer);
        TermNonNegative(RereTerms(m, pred, deltas), outer, cfg.headBox * 0.03);
        ComposeBounds(true, true, conf, boxes, deltaConf, Term(RereTerms(m, pred, deltas), outer, cfg.headBox * 0.03));
      } else {
        ComposeBounds(true, false, conf, boxes, deltaConf, 0.0);
      }
    } else {
      ComposeBounds(false, cfg.reregress, conf, boxes, 0.0, 0.0);
    }
  }

  /**
   * The returned confidence loss is never replaced: switching rezoom,
   * re-regression or the change-loss policy on or off leaves it as it is.
   */
  lemma ConfidencesLossKept(cfg: Config, cfg2: Config, flags: seq<int>, boxes: seq<real>,
                            dec: Decoded, dec2: Decoded, ext: External)
    requires cfg2 == cfg.(useRezoom := cfg2.useRezoom, reregress := cfg2.reregress, changeLoss := cfg2.changeLoss)
    requires dec2 == dec.(confDeltas := dec2.confDeltas, boxDeltas := dec2.boxDeltas)
    requires Valid(cfg) && Shaped(cfg, dec) && ExternalTyped(cfg, ext)
    requires Shaped(cfg2, dec2)
    requires ComputeLoss(cfg, flags, boxes, dec, ext).Ok? && ComputeLoss(cfg2, flags, boxes, dec2, ext).Ok?
    ensures ComputeLoss(cfg, flags, boxes, dec, ext).value.confidencesLoss
         == ComputeLoss(cfg2, flags, boxes, dec2, ext).value.confidencesLoss
  {
    assert OuterSize(cfg2) == OuterSize(cfg);
    assert Match(cfg2, flags, boxes, ext.hungarian) == Match(cfg, flags, boxes, ext.hungarian);
  }

  /** The collection of loss terms that the total loss sums (`tf.add_to_collection('losses', ...)`). */
  class LossCollection {
    var losses: seq<real>

    /** A collection that already holds the terms registered elsewhere, such as weight decay. */
    constructor(initial: seq<real>)
      ensures losses == initial
    {
      losses := initial;
    }

    function Total(): real
      reads this
    {
      Sum(losses)
    }

    method Add(x: real)
      modifies this
      ensures losses == old(losses) + [x]
      ensures Total() == old(Total()) + x
    {
      SumAppend(losses, x);
      losses := losses + [x];
    }
  }

  /**
   * `loss`: computes the loss, appends it to the collection and returns
   * the sum of the collection with the confidence and box terms.  On a
   * failure nothing is appended.
   */
  method AddLoss(cfg: Config, flags: seq<int>, boxes: seq<real>, dec: Decoded, ext: External, collection: LossCollection)
    returns (r: Result<(real, real, real)>)
    requires Valid(cfg) && Shaped(cfg, dec) && ExternalTyped(cfg, ext)
    modifies collection
    ensures ComputeLoss(cfg, flags, boxes, dec, ext).Err? ==>
              r.Err? && collection.losses == old(collection.losses)
    ensures ComputeLoss(cfg, flags, boxes, dec, ext).Ok? ==>
              var out := ComputeLoss(cfg, flags, boxes, dec, ext).value;
              && collection.losses == old(collection.losses) + [out.loss]
              && r == Ok((collection.Total(), out.confidencesLoss, out.boxesLoss))
              && collection.Total() == old(collection.Total()) + out.loss
  {
    var computed := ComputeLoss(cfg, flags, boxes, dec, ext);
    if computed.Err? {
      return Err(computed.error);
    }
    var out := computed.value;
    collection.Add(out.loss);
    r := Ok((collection.Total(), out.confidencesLoss, out.boxesLoss));
  }

  /** When the terms already collected are non-negative, the returned total is at least this loss. */
  lemma TotalAtLeastLoss(earlier: seq<real>, loss: real)
    requires forall i :: 0 <= i < |earlier| ==> earlier[i] >= 0.0
    ensures Sum(earlier + [loss]) >= loss
  {
    SumAppend(earlier, loss);
    SumNonNegative(earlier);
  }
}
