/**
 * The grid decoder (`decoder`): the learned projections are external and
 * enter as their flat outputs; what is modelled is the chain of reshapes
 * that fixes the shapes of the decoded tensors, and the hand-off to the
 * rezoom refiner.
 */
module Decoder {
  import opened Tensors
  import opened Hyper
  import opened Layout
  import opened Rezoom

  datatype Decoded = Decoded(
    predBoxes: Tensor<real>,           // [outer, 1, 4]
    predLogits: Tensor<real>,          // [outer, numClasses]
    predConfidences: Tensor<real>,     // [outer, rnnLen, numClasses]
    confDeltas: Option<Tensor<real>>,  // [outer * rnnLen, numClasses] when rezoom is on
    boxDeltas: Option<Tensor<real>>)   // [outer, rnnLen, 4] when rezoom and re-regression are on

  /**
   * The decoder up to the rezoom step: the features are flattened to
   * [outer, cnnChannels], the box projection (already scaled by 50) is
   * shaped [outer, 1, 4], the logits [outer, numClasses], and their
   * softmax is reshaped to [outer, rnnLen, numClasses].
   */
  function DecodeBase(cfg: Config, cnnOutput: seq<real>, boxProj: seq<real>, logitProj: seq<real>,
                      softmax: seq<real> -> seq<real>): (r: Result<Decoded>)
    requires forall v :: |softmax(v)| == |v|
    ensures r.Ok? <==>
              && |cnnOutput| == OuterSize(cfg) * cfg.cnnChannels
              && |boxProj| == OuterSize(cfg) * 4
              && |logitProj| == OuterSize(cfg) * cfg.numClasses
              && OuterSize(cfg) * cfg.numClasses == OuterSize(cfg) * cfg.rnnLen * cfg.numClasses
    ensures r.Ok? ==>
              && r.value.predBoxes == Tensor([OuterSize(cfg), 1, 4], boxProj)
              && r.value.predLogits == Tensor([OuterSize(cfg), cfg.numClasses], logitProj)
              && r.value.predConfidences == Tensor([OuterSize(cfg), cfg.rnnLen, cfg.numClasses], softmax(logitProj))
              && r.value.confDeltas == None && r.value.boxDeltas == None
  {
    var outer := OuterSize(cfg);
    Size2(outer, cfg.cnnChannels);
    Size3(outer, 1, 4);
    Size2(outer, cfg.numClasses);
    Size3(outer, cfg.rnnLen, cfg.numClasses);
    var _ :- Reshape(cnnOutput, [outer, cfg.cnnChannels]);
    var predBox :- Reshape(boxProj, [outer, 1, 4]);
    var predLogits :- Reshape(logitProj, [outer, cfg.numClasses]);
    var predConfidences :- Reshape(softmax(logitProj), [outer, cfg.rnnLen, cfg.numClasses]);
    Ok(Decoded(predBox, predLogits, predConfidences, None, None))
  }

  /**
   * The confidences reshape only type-checks with one slot per cell:
   * under a valid configuration the decoder succeeds exactly when the
   * projections have their sizes and rnnLen is 1, and then the box
   * prediction is [outer, 1, 4] whatever rnnLen is configured.
   */
  lemma DecodeNeedsOneSlot(cfg: Config, cnnOutput: seq<real>, boxProj: seq<real>, logitProj: seq<real>,
                           softmax: seq<real> -> seq<real>)
    requires Valid(cfg)
    requires forall v :: |softmax(v)| == |v|
    ensures DecodeBase(cfg, cnnOutput, boxProj, logitProj, softmax).Ok? <==>
              && |cnnOutput| == OuterSize(cfg) * cfg.cnnChannels
              && |boxProj| == OuterSize(cfg) * 4
              && |logitProj| == OuterSize(cfg) * cfg.numClasses
              && cfg.rnnLen == 1
  {
    OuterSizePositive(cfg);
    var outer, nc, rnn := OuterSize(cfg), cfg.numClasses, cfg.rnnLen;
    if rnn != 1 {
      assert outer * nc > 0;
      MulMonotone(2, rnn, outer * nc);
      assert outer * nc * rnn >= 2 * (outer * nc);
      assert outer * rnn * nc == outer * nc * rnn;
    }
  }

  /**
   * `decoder` with the rezoom refiner: when rezoom is on, the early
   * features are sampled around the predicted boxes and the per-slot
   * delta heads produce the confidence deltas, and the box deltas too
   * when re-regression is on.  Bilinear selection (which reads the
   * predicted boxes), interpolation and the heads are external.
   */
  method Decode<I(!new)>(cfg: Config, cnnOutput: seq<real>, boxProj: seq<real>, logitProj: seq<real>,
                         softmax: seq<real> -> seq<real>, rawOutput: seq<real>, select: (real, real) -> seq<I>,
                         interp: I -> seq<real>,
                         confHead: (nat, seq<real>) -> seq<real>, boxHead: (nat, seq<real>) -> seq<real>)
    returns (r: Result<Decoded>)
    requires forall v :: |softmax(v)| == |v|
    requires |rawOutput| == OuterSize(cfg) * cfg.lstmSize
    requires forall wo, ho :: |select(wo, ho)| == OuterSize(cfg) * cfg.rnnLen
    requires forall idx :: |interp(idx)| == cfg.earlyFeatChannels
    requires forall k, v :: |confHead(k, v)| == OuterSize(cfg) * cfg.numClasses
    requires forall k, v :: |boxHead(k, v)| == OuterSize(cfg) * 4
    ensures r.Ok? <==> DecodeBase(cfg, cnnOutput, boxProj, logitProj, softmax).Ok?
    ensures r.Ok? ==>
              var base := DecodeBase(cfg, cnnOutput, boxProj, logitProj, softmax).value;
              var outer, rnn, nc := OuterSize(cfg), cfg.rnnLen, cfg.numClasses;
              && r.value.predBoxes == base.predBoxes
              && r.value.predLogits == base.predLogits
              && r.value.predConfidences == base.predConfidences
              && r.value.confDeltas == (if cfg.useRezoom then Some(Tensor([outer * rnn, nc],
                   RezoomDeltas(cfg.rezoomW, cfg.rezoomH, select, interp, outer, rnn, cfg.earlyFeatChannels, rawOutput, cfg.lstmSize, confHead, nc)))
                   else None)
              && r.value.boxDeltas == (if cfg.useRezoom && cfg.reregress then Some(Tensor([outer, rnn, 4],
                   RezoomDeltas(cfg.rezoomW, cfg.rezoomH, select, interp, outer, rnn, cfg.earlyFeatChannels, rawOutput, cfg.lstmSize, boxHead, 4)))
                   else None)
  {
    r := DecodeBase(cfg, cnnOutput, boxProj, logitProj, softmax);
    if r.Err? || !cfg.useRezoom {
      return;
    }
    var confDeltas, boxDeltas := Refine(cfg, rawOutput, select, interp, confHead, boxHead);
    r := Ok(r.value.(confDeltas := Some(confDeltas), boxDeltas := boxDeltas));
  }

  /**
   * `apply_rezoom` as the decoder calls it: sample the early features
   * around the predictions, run the delta heads over the slots, and shape
   * the confidence deltas [outer * rnnLen, numClasses] and the box deltas
   * [outer, rnnLen, 4].
   */
  method Refine<I(!new)>(cfg: Config, rawOutput: seq<real>, select: (real, real) -> seq<I>, interp: I -> seq<real>,
                         confHead: (nat, seq<real>) -> seq<real>, boxHead: (nat, seq<real>) -> seq<real>)
    returns (confDeltas: Tensor<real>, boxDeltas: Option<Tensor<real>>)
    requires |rawOutput| == OuterSize(cfg) * cfg.lstmSize
    requires forall wo, ho :: |select(wo, ho)| == OuterSize(cfg) * cfg.rnnLen
    requires forall idx :: |interp(idx)| == cfg.earlyFeatChannels
    requires forall k, v :: |confHead(k, v)| == OuterSize(cfg) * cfg.numClasses
    requires forall k, v :: |boxHead(k, v)| == OuterSize(cfg) * 4
    ensures confDeltas == Tensor([OuterSize(cfg) * cfg.rnnLen, cfg.numClasses],
              RezoomDeltas(cfg.rezoomW, cfg.rezoomH, select, interp, OuterSize(cfg), cfg.rnnLen,
                           cfg.earlyFeatChannels, rawOutput, cfg.lstmSize, confHead, cfg.numClasses))
    ensures boxDeltas == if cfg.reregress then Some(Tensor([OuterSize(cfg), cfg.rnnLen, 4],
              RezoomDeltas(cfg.rezoomW, cfg.rezoomH, select, interp, OuterSize(cfg), cfg.rnnLen,
                           cfg.earlyFeatChannels, rawOutput, cfg.lstmSize, boxHead, 4)))
            else None
  {
    var outer, rnn, nc := OuterSize(cfg), cfg.rnnLen, cfg.numClasses;
    var width := |cfg.rezoomW| * |cfg.rezoomH| * cfg.earlyFeatChannels;
    var features := RezoomSamples(cfg.rezoomW, cfg.rezoomH, select, interp, outer, rnn, cfg.earlyFeatChannels);
    var confs, boxes := ApplyRezoom(rawOutput, cfg.lstmSize, features, outer, rnn, width, nc, cfg.reregress, confHead, boxHead);
    confDeltas := Tensor([outer * rnn, nc], confs);
    boxDeltas := if cfg.reregress then Some(Tensor([outer, rnn, 4], boxes)) else None;
  }
}
