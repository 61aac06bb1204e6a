# KittiBox grid decoder: a Dafny model

This project models the TensorBox-style grid decoder of KittiBox
(`decoder/my_yolo.py`). The file has four parts:

- the decoder, which shapes one box and a class distribution per grid cell;
- the optional *rezoom* refiner, which samples early features at a grid of
  offsets around every predicted box and predicts confidence deltas and,
  with *re-regression*, box deltas;
- the loss, which matches predictions to labels, builds the classification
  targets, masks the box residuals and adds up the weighted terms;
- the evaluation, which computes a slot-0 accuracy per phase and picks the
  rotating debug-image file name.

All tensors are flat row-major buffers (`seq<real>`) with a shape.
`tf.reshape` is `Tensors.Reshape`. It never moves an element, and it fails
with `ShapeMismatch` when the element counts differ; graph construction
then aborts, so every operation returns a `Result`. `tf.transpose` and
`tf.concat` are index maps in `Layout`, and their position lemmas say
where each element ends up.

Some numerics are external and enter as function-typed parameters:
matrix products with learned weights, softmax, sparse softmax
cross-entropy, bilinear selection, interpolation, IoU and the Hungarian
matcher. Only their typing is assumed: lengths, non-negative
cross-entropy, and a 0/1 mask from the matcher. The one exception is
interpolation, which is assumed to gather row by row (see "## Left out").

Modules:

- `Layout`: row-major offsets, concatenation of blocks, and the swap of the two leading axes.
- `Tensors`: errors, `Result`, `Size`, `Reshape`.
- `Hyper`: the hyperparameters and the `rezoom_change_loss` dispatch.
- `Rezoom`: `_rezoom` (the offset loop and the reshape/transpose/reshape layout) and `apply_rezoom` (the loop over slots).
- `Decoder`: `decoder`, with its shape contracts.
- `Loss`: `loss`, including the `losses` collection as a class.
- `Evaluation`: `evaluation`: argmax, accuracy, the phase loop and the display index.

## Model

| member | source | states |
|---|---|---|
| Layout.FlattenAt | decoder/my_yolo.py:49 | element j of block i of a concatenation along axis 0 sits at row-major offset (i, j) |
| Layout.SwapLeading | decoder/my_yolo.py:58 | the transpose of [p, q, n] to [q, p, n] keeps the element count p * q * n |
| Layout.SwapLeadingAt | decoder/my_yolo.py:58 | transposing [p, q, n] to [q, p, n] moves element (a, b, c) to (b, a, c) |
| Layout.SwapLeadingInvolution | decoder/my_yolo.py:58 | transposing the two leading axes twice restores the buffer |
| Tensors.Reshape | decoder/my_yolo.py:53-62 | `tf.reshape` succeeds exactly when the element count equals the product of the shape, keeps the buffer unchanged, and otherwise fails with a shape error naming both |
| Rezoom.OffsetGridAt | decoder/my_yolo.py:41-49 | the offset loop runs w-major, h-minor: the selection for (w[i], h[j]) is entry i * |h| + j, and there are |w| * |h| of them |
| Rezoom.RezoomLayout | decoder/my_yolo.py:53-62 | the reshape, transpose and reshape keep the element count, n * outer * rnn * C = outer * rnn * (n * C) |
| Rezoom.RezoomLayoutAt | decoder/my_yolo.py:53-62 | reshape to [N, outer, rnn, C], transpose [1, 2, 0, 3] and reshape to [outer, rnn, N * C]: input element (i, o, s, ch) is output element (o, s, i * C + ch) |
| Rezoom.RezoomLayoutSingleOffset | decoder/my_yolo.py:53-62 | with a single offset the layout moves nothing |
| Rezoom.RezoomFeatures | decoder/my_yolo.py:38-62 | what `_rezoom` returns has outer * rnn * (n * C) elements, for n = |w| * |h| offset pairs |
| Rezoom.RezoomFeaturesAt | decoder/my_yolo.py:41-62 | end to end, feature (o, s, (wi * |h| + hi) * C + ch) is channel ch of the interpolation of row o * rnn + s of the selection at offset (w[wi], h[hi]) |
| Rezoom.RezoomSamples | decoder/my_yolo.py:38-62 | the nested loop computes exactly that layout, with outer * rnn * (N * C) elements |
| Rezoom.SlotInputRawAt | decoder/my_yolo.py:84-85 | the first lstm_size entries of slot k's input row o are row o of the bottleneck output `raw_output` |
| Rezoom.SlotInputFeatureAt | decoder/my_yolo.py:84-85 | the remaining entries of slot k's input row o are `rezoom_features[o, k, :] / 1000`, so the row has lstm_size + n * C entries |
| Rezoom.ConcatSlotsAt | decoder/my_yolo.py:110 | concatenating the per-slot [outer, 1, n] outputs along axis 1 puts slot k's row o at (o, k) |
| Rezoom.ApplyRezoom | decoder/my_yolo.py:83-127 | the slot loop yields the concatenation of every slot's confidence-head output, of length outer * rnn * classes; with re-regression also that of the box head, otherwise no box deltas |
| Rezoom.ConfDeltaAt | decoder/my_yolo.py:83-115 | the confidence delta for class j of slot k of cell o is entry (o, j) of slot k's head output |
| Hyper.ParseChangeLoss | decoder/my_yolo.py:263-278 | "center" selects the centre policy, "iou" the IoU policy, an empty setting the presence policy; anything else fails, each in both directions |
| Decoder.DecodeBase | decoder/my_yolo.py:166-194 | succeeds exactly when the projections have their sizes and outer * classes equals outer * rnn * classes; box prediction [outer, 1, 4], logits [outer, classes], confidences [outer, rnn, classes] |
| Decoder.DecodeNeedsOneSlot | decoder/my_yolo.py:184-194 | under a valid configuration the decoder succeeds exactly when the sizes fit and rnn_len is 1 |
| Decoder.Decode | decoder/my_yolo.py:196-206 | keeps the base outputs; confidence deltas are present exactly with rezoom, box deltas exactly with rezoom and re-regression, each equal to the rezoom refiner's output on the bottleneck output and the sampled features |
| Decoder.Refine | decoder/my_yolo.py:65-127 | the refiner's confidence deltas are the slot-concatenated confidence-head outputs on the rezoom features, shaped [outer * rnn, classes]; box deltas, shaped [outer, rnn, 4], exist exactly with re-regression |
| Loss.Match | decoder/my_yolo.py:230-241 | the matcher fails only with a shape error, and it succeeds only when the labels hold outer * rnn boxes and flags; with `use_lstm` it succeeds exactly then and returns the Hungarian result; otherwise the classes are the flags themselves, one per cell |
| Loss.SingleSlotMatch | decoder/my_yolo.py:230-243 | without the Hungarian matcher: succeeds exactly when the labels hold one slot per cell; the ground truth is passed on unchanged; the mask is 1 exactly where the class is positive and 0 elsewhere; the classification target is 1 exactly where the class is positive and equals the mask |
| Loss.InsideTarget | decoder/my_yolo.py:263-278 | the inside target is always 0 or 1 |
| Loss.CenterImpliesPresence | decoder/my_yolo.py:263-278 | a slot that is inside under the centre policy is inside under the presence policy |
| Loss.SameCenterInside | decoder/my_yolo.py:263-269 | a prediction on the truth's centre is inside under the centre policy when an object is present |
| Loss.FarCenterOutside | decoder/my_yolo.py:263-269 | an x offset of at least max(width, 1) / 5 is never inside under the centre policy |
| Loss.L1 | decoder/my_yolo.py:261 | the absolute residual of a slot is non-negative |
| Loss.BaseResidualMask | decoder/my_yolo.py:258-261 | in the base residual a mask-0 slot costs the L1 size of its truth box, and a mask-1 slot costs its distance to the truth |
| Loss.RereResidualMask | decoder/my_yolo.py:289-293 | in the re-regression residual a mask-0 slot costs nothing |
| Loss.ClipSquare | decoder/my_yolo.py:293 | each squared re-regression component lies in [0, 100] and never exceeds the square |
| Loss.ClipSquareRange | decoder/my_yolo.py:293 | the square is kept inside [-10, 10] and cut to 100 outside |
| Loss.ClipExample | decoder/my_yolo.py:293 | a component of 20 contributes 100 |
| Loss.Compose | decoder/my_yolo.py:286-308 | loss = conf + box, plus delta-conf with rezoom, plus delta-box with rezoom and re-regression; the returned confidence loss is never replaced; the returned box loss is replaced by delta-box exactly with rezoom and re-regression |
| Loss.ComposeBounds | decoder/my_yolo.py:286-308 | with non-negative terms the loss bounds both returned terms, and they are non-negative |
| Loss.TermNonNegative | decoder/my_yolo.py:254-257 | a summed, size-normalised term with a non-negative weight is non-negative |
| Loss.ConfTermsNonNegative | decoder/my_yolo.py:251-252 | every per-cell cross-entropy is non-negative |
| Loss.ComputeTerms | decoder/my_yolo.py:251-308 | once matched, the terms fail exactly when rezoom is on and the change-loss setting is unknown, with that setting as the error. Otherwise the result is `Compose` of: the mean cross-entropy of the logits against the presence targets (weight head[0]); the masked L1 box term (head[1]); with rezoom, the mean cross-entropy of the confidence deltas against the policy's inside targets (head[0] * 0.1); with rezoom and re-regression, the mean clipped squared residual after the box deltas (head[1] * 0.03). So loss = conf + box + delta-conf + delta-box as enabled, and the returned box loss is delta-box exactly when both are on |
| Loss.ComputeLoss | decoder/my_yolo.py:209-308 | a defined loss implies rnn_len is 1 and the labels hold one box and one flag per cell, and it equals the terms of the matcher's result with the presence targets of its classes; a change-loss error only arises with rezoom and names the configured setting |
| Loss.DecodeFeedsLoss | decoder/my_yolo.py:184-205 | the decoder's outputs, with the refiner's deltas, have the shapes the loss reads |
| Loss.LossDefined | decoder/my_yolo.py:230-278 | under a valid configuration the loss is defined exactly when the labels hold outer boxes and flags, rnn_len is 1, and with rezoom the change-loss setting is known |
| Loss.LossNonNegative | decoder/my_yolo.py:251-308 | with non-negative head weights every returned term is non-negative and the loss bounds both |
| Loss.TermsNonNegative | decoder/my_yolo.py:251-308 | the same bounds for the term computation once the shapes are checked |
| Loss.ConfidencesLossKept | decoder/my_yolo.py:257 | switching rezoom, re-regression or the policy does not change the returned confidence loss |
| Loss.LossCollection.Add | decoder/my_yolo.py:310 | appending a term to the collection raises its total by exactly that term |
| Loss.AddLoss | decoder/my_yolo.py:310-314 | on success the loss is appended and the returned total is the sum of the collection; on failure nothing is appended |
| Loss.TotalAtLeastLoss | decoder/my_yolo.py:310-312 | with non-negative earlier terms the total is at least this loss |
| Evaluation.Argmax | decoder/my_yolo.py:339-340 | the index is in range, maximal, and the first of equal maxima |
| Evaluation.ArgmaxCharacterised | decoder/my_yolo.py:339-340 | an index is Argmax's result exactly when it is in range, maximal and first among maxima |
| Evaluation.Accuracy | decoder/my_yolo.py:339-342 | the mean slot-0 agreement lies in [0, 1] |
| Evaluation.AccuracyExtremes | decoder/my_yolo.py:339-342 | accuracy is 1 exactly when every cell agrees and 0 exactly when none does |
| Evaluation.AccuracyOfTruth | decoder/my_yolo.py:339-342 | predicting the label confidences scores 1 |
| Evaluation.PhaseMetrics | decoder/my_yolo.py:325-342 | a phase's accuracy is the slot-0 accuracy of its predicted against its label confidences, both [batch * grid, rnn_len, classes], and lies in [0, 1]; its losses are passed on unchanged |
| Evaluation.PhaseAccuracyOfTruth | decoder/my_yolo.py:339-342 | a phase whose predicted confidences equal its labels scores accuracy 1 |
| Evaluation.PhaseMetricsNeedsOneSlot | decoder/my_yolo.py:332-336 | reshaping the [outer, 1, 4] box prediction to [batch, grid, rnn, 4] succeeds only when rnn_len is 1; the phase is evaluated exactly when the confidences fit too |
| Evaluation.Evaluate | decoder/my_yolo.py:317-342 | the phase loop fills metrics for train and val, each equal to that phase's metrics; it fails exactly when a phase fails, with the train error first |
| Evaluation.FloorDiv | decoder/my_yolo.py:384-385 | numpy's integer `//`: for either sign of the divisor the quotient is the floor, and a zero divisor gives 0 |
| Evaluation.FloorDivUnique | decoder/my_yolo.py:384-385 | for a positive divisor the floor quotient is the only q with d * q <= a < d * q + d |
| Evaluation.DisplayIndex | decoder/my_yolo.py:384-386 | the image index lies in [0, 10); with a zero display interval every step writes image 0 |
| Evaluation.DisplayIndexWindows | decoder/my_yolo.py:384-386 | every step of display window q writes image q mod 10, and window q + 10 writes the same image as q |
| Evaluation.DisplayFilename | decoder/my_yolo.py:384 | the file name is the decimal digit of the index, then `_`, the kind and `.jpg`; it is six characters longer than the kind |
| Evaluation.DisplayFilenameInjective | decoder/my_yolo.py:384-386 | distinct (index, kind) pairs give distinct file names |

## Left out

- Learned layers (`_build_yolo_fc_layer`, the projections and the delta heads with their `* 50`, `* 5` and `rezoom_conf_scale` scalings), softmax, cross-entropy, IoU with `to_x1y1x2y2`, `bilinear_select`, `interp` and the Hungarian matcher are external. They are parameters with their typing only.
- Rezoom.ApplyRezoom: both delta heads of a slot read the same hidden layer `ip1` (lines 92-106). The model has two head parameters, each a function of the slot and its input. Any pair of heads over a shared `ip1` is such a pair, but the model does not promise that the two share it.
- Hyper.Config: an absent `rezoom_change_loss` key raises a KeyError at line 263 when rezoom is on. The model only has string settings; "" stands for an empty (false) setting, and the missing-key failure is not modelled.
- Evaluation.FloorDiv: numpy also emits a RuntimeWarning when it divides by zero. The warning is not modelled, only the result 0.
- Rezoom.Gather: `train_utils.interp` is called once on the whole concatenated index tensor (lines 49-52). The model applies it to each selected index separately and concatenates the rows, so it assumes the helper is a row-wise gather of C features per index. `RezoomFeaturesAt` relies on that assumption.
- Evaluation.DisplayFilename: the kind ('pred' or 'true') reaches `log_image` through `tf.py_func`, which passes strings as bytes. `'%s_%s.jpg' %` gives `3_pred.jpg` only under Python 2; Python 3 would format `3_b'pred'.jpg`. The model takes the kind as decoded text, which is the Python 2 behaviour.
- Dropout in the training phase is random and is not modelled. The phase argument of the decoder is therefore not modelled either.
- The recomputation of `pred_confidences` inside `apply_rezoom` (lines 117-123) is dead: its result is never returned. It is not modelled.
- Variable scopes and reuse, histogram and scalar summaries, the exponential moving average (`smooth_op`), `log_image` with file I/O, and `tf.pack`/`tf.image_summary` are left out. `Evaluation.Evaluate` returns only the per-phase metrics.
- The image summaries after the phase loop use the variable `phase` left over from the loop, which is always "val". That names summaries only and is not modelled.
- Decoder.Decode: with rezoom but no re-regression the source returns an empty list for the box deltas. The model returns `None`, which the loss reads the same way.
- Decoder.DecodeBase: re-regression without rezoom is silently ignored by the code. The model follows that and does not treat it as a configuration error.
- Loss.InsideTarget: the threshold `0.2 ** 2` and the weights 0.1 and 0.03 are exact rationals (1/25, 1/10, 3/100), not IEEE doubles.
- Loss.ComputeLoss: the Hungarian branch takes the matcher's result as given. Its assignments output and `hungarian_iou` are not modelled.
- Evaluation.Argmax: `tf.argmax` does not document how it breaks ties. The model takes the first maximal index.
- Evaluation.PhaseMetrics: the label confidences are required to have shape [batch, grid, rnn_len, classes], which the slicing at line 339 relies on. A mismatch is treated as a shape error.
- All floating-point rounding is left out: the model computes on exact reals.
