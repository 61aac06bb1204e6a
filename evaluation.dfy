/**
 * `evaluation`: per phase, the slot-0 classification accuracy of the
 * predictions against the label confidences, and the index of the
 * rotating debug image that a logging step writes.
 */
module Evaluation {
  import opened Tensors
  import opened Hyper
  import opened Layout
  import opened Decoder

  /** `tf.argmax` over one row, taking the first of equal maxima. */
  function Argmax(row: seq<real>): (r: nat)
    requires |row| > 0
    ensures r < |row|
    ensures forall j :: 0 <= j < |row| ==> row[j] <= row[r]
    ensures forall j :: 0 <= j < r ==> row[j] < row[r]
  {
    if |row| == 1 then 0
    else
      var a := Argmax(row[..|row| - 1]);
      if row[|row| - 1] > row[a] then |row| - 1 else a
  }

  /** The first maximal position is the only index Argmax can return. */
  lemma ArgmaxCharacterised(row: seq<real>, i: nat)
    requires |row| > 0
    ensures i == Argmax(row) <==>
              && i < |row|
              && (forall j :: 0 <= j < |row| ==> row[j] <= row[i])
              && (forall j :: 0 <= j < i ==> row[j] < row[i])
  {
    var a := Argmax(row);
    if i < |row| && (forall j :: 0 <= j < |row| ==> row[j] <= row[i]) && (forall j :: 0 <= j < i ==> row[j] < row[i]) {
      assert row[i] <= row[a];
      assert row[a] <= row[i];
    }
  }

  /** Row at slot 0 of cell o in a [cells, rnn, n] buffer (`x[o / grid, o % grid, 0, :]`). */
  function SlotZeroRow(data: seq<real>, cells: nat, rnn: nat, n: nat, o: nat): (r: seq<real>)
    requires |data| == cells * rnn * n && o < cells && rnn >= 1
    ensures |r| == n
  {
    FlatBound(o, 0, cells, rnn);
    MulMonotone(Flat(o, 0, rnn) + 1, cells * rnn, n);
    data[Flat(o, 0, rnn) * n .. Flat(o, 0, rnn) * n + n]
  }

  /** The slot-0 rows of all cells. */
  function SlotZeroRows(data: seq<real>, cells: nat, rnn: nat, n: nat): (r: seq<seq<real>>)
    requires |data| == cells * rnn * n && rnn >= 1
    ensures |r| == cells && forall o :: 0 <= o < cells ==> |r[o]| == n
  {
    seq(cells, o requires 0 <= o < cells => SlotZeroRow(data, cells, rnn, n, o))
  }

  /** Rows of classes: as many truth rows as prediction rows, none of them empty. */
  ghost predicate Comparable(truth: seq<seq<real>>, pred: seq<seq<real>>)
  {
    |truth| == |pred| && forall o :: 0 <= o < |truth| ==> |truth[o]| > 0 && |pred[o]| > 0
  }

  /** Whether truth and prediction pick the same class in cell o. */
  predicate Agrees(truth: seq<seq<real>>, pred: seq<seq<real>>, o: nat)
    requires Comparable(truth, pred) && o < |truth|
  {
    Argmax(truth[o]) == Argmax(pred[o])
  }

  /** Number of the first k cells on which truth and prediction agree. */
  function AgreeCount(truth: seq<seq<real>>, pred: seq<seq<real>>, k: nat): (r: nat)
    requires Comparable(truth, pred) && k <= |truth|
    ensures r <= k
  {
    if k == 0 then 0
    else AgreeCount(truth, pred, k - 1) + (if Agrees(truth, pred, k - 1) then 1 else 0)
  }

  /** The count reaches k exactly when every one of the first k cells agrees. */
  lemma {:induction false} AgreeCountAll(truth: seq<seq<real>>, pred: seq<seq<real>>, k: nat)
    requires Comparable(truth, pred) && k <= |truth|
    ensures AgreeCount(truth, pred, k) == k <==> forall o :: 0 <= o < k ==> Agrees(truth, pred, o)
  {
    if k > 0 {
      AgreeCountAll(truth, pred, k - 1);
    }
  }

  /** The count is 0 exactly when none of the first k cells agrees. */
  lemma {:induction false} AgreeCountNone(truth: seq<seq<real>>, pred: seq<seq<real>>, k: nat)
    requires Comparable(truth, pred) && k <= |truth|
    ensures AgreeCount(truth, pred, k) == 0 <==> forall o :: 0 <= o < k ==> !Agrees(truth, pred, o)
  {
    if k > 0 {
      AgreeCountNone(truth, pred, k - 1);
    }
  }

  /** `tf.reduce_mean` of the agreement over all cells. */
  function Accuracy(truth: seq<seq<real>>, pred: seq<seq<real>>): (r: real)
    requires Comparable(truth, pred) && |truth| >= 1
    ensures 0.0 <= r <= 1.0
  {
    var c := AgreeCount(truth, pred, |truth|);
    RatioExtremes(c, |truth|);
    c as real / |truth| as real
  }

  /** Accuracy 1 means every cell agrees, accuracy 0 means none does. */
  lemma AccuracyExtremes(truth: seq<seq<real>>, pred: seq<seq<real>>)
    requires Comparable(truth, pred) && |truth| >= 1
    ensures Accuracy(truth, pred) == 1.0 <==> forall o :: 0 <= o < |truth| ==> Agrees(truth, pred, o)
    ensures Accuracy(truth, pred) == 0.0 <==> forall o :: 0 <= o < |truth| ==> !Agrees(truth, pred, o)
  {
    AgreeCountAll(truth, pred, |truth|);
    AgreeCountNone(truth, pred, |truth|);
    RatioExtremes(AgreeCount(truth, pred, |truth|), |truth|);
  }

  lemma RatioExtremes(c: nat, k: nat)
    requires 1 <= k && c <= k
    ensures 0.0 <= c as real / k as real <= 1.0
    ensures c as real / k as real == 1.0 <==> c == k
    ensures c as real / k as real == 0.0 <==> c == 0
  {
    var x := c as real / k as real;
    assert x * k as real == c as real;
  }

  /** A prediction identical to the truth scores 1. */
  lemma AccuracyOfTruth(truth: seq<seq<real>>)
    requires Comparable(truth, truth) && |truth| >= 1
    ensures Accuracy(truth, truth) == 1.0
  {
    AccuracyExtremes(truth, truth);
  }

  // ----- per-phase metrics ---------------------------------------------------

  datatype Phase = Train | Val

  /** What one phase brings to the evaluation: its label confidences, decoder output and losses. */
  datatype PhaseData = PhaseData(confidences: seq<real>, decoded: Decoded,
                                 loss: real, confidencesLoss: real, boxesLoss: real)

  datatype Metrics = Metrics(loss: real, confidencesLoss: real, boxesLoss: real, accuracy: real)

  /**
   * acc is the slot-0 accuracy of predicted against label confidences,
   * both [batch * grid, rnn_len, classes].
   */
  ghost predicate SlotZeroAccuracy(cfg: Config, truth: seq<real>, pred: seq<real>, acc: real)
    requires Valid(cfg)
  {
    var cells, rnn, nc := cfg.batchSize * GridSize(cfg), cfg.rnnLen, cfg.numClasses;
    && cells >= 1 && |truth| == cells * rnn * nc && |pred| == cells * rnn * nc
    && acc == Accuracy(SlotZeroRows(truth, cells, rnn, nc), SlotZeroRows(pred, cells, rnn, nc))
  }

  /**
   * One iteration of the phase loop: the predictions are reshaped to
   * [batch, grid, rnn_len, classes] and [batch, grid, rnn_len, 4], the
   * label confidences must have the first of those shapes, and the
   * accuracy compares slot 0.
   */
  function PhaseMetrics(cfg: Config, d: PhaseData): (r: Result<Metrics>)
    requires Valid(cfg)
    ensures r.Ok? ==> 0.0 <= r.value.accuracy <= 1.0
    ensures r.Ok? ==> SlotZeroAccuracy(cfg, d.confidences, d.decoded.predConfidences.data, r.value.accuracy)
    ensures r.Ok? ==> r.value.loss == d.loss && r.value.confidencesLoss == d.confidencesLoss
                      && r.value.boxesLoss == d.boxesLoss
  {
    var batch, grid, rnn, nc := cfg.batchSize, GridSize(cfg), cfg.rnnLen, cfg.numClasses;
    Size4(batch, grid, rnn, nc);
    Size4(batch, grid, rnn, 4);
    var predConf :- Reshape(d.decoded.predConfidences.data, [batch, grid, rnn, nc]);
    var _ :- Reshape(d.decoded.predBoxes.data, [batch, grid, rnn, 4]);
    var truth :- Reshape(d.confidences, [batch, grid, rnn, nc]);
    assert batch * grid >= 1 by { OuterSizePositive(cfg); }
    var truthRows := SlotZeroRows(truth.data, batch * grid, rnn, nc);
    var predRows := SlotZeroRows(predConf.data, batch * grid, rnn, nc);
    Ok(Metrics(d.loss, d.confidencesLoss, d.boxesLoss, Accuracy(truthRows, predRows)))
  }

  /** A phase whose predicted confidences equal its labels scores accuracy 1. */
  lemma PhaseAccuracyOfTruth(cfg: Config, d: PhaseData)
    requires Valid(cfg) && d.decoded.predConfidences.data == d.confidences && PhaseMetrics(cfg, d).Ok?
    ensures PhaseMetrics(cfg, d).value.accuracy == 1.0
  {
    var cells := cfg.batchSize * GridSize(cfg);
    AccuracyOfTruth(SlotZeroRows(d.confidences, cells, cfg.rnnLen, cfg.numClasses));
  }

  /**
   * The box reshape fits a decoder output of [outer, 1, 4] only when
   * rnn_len is 1.
   */
  lemma PhaseMetricsNeedsOneSlot(cfg: Config, d: PhaseData)
    requires Valid(cfg) && |d.decoded.predBoxes.data| == OuterSize(cfg) * 4
    ensures PhaseMetrics(cfg, d).Ok? ==> cfg.rnnLen == 1
    ensures PhaseMetrics(cfg, d).Ok? <==>
              && cfg.rnnLen == 1
              && |d.decoded.predConfidences.data| == OuterSize(cfg) * cfg.numClasses
              && |d.confidences| == OuterSize(cfg) * cfg.numClasses
  {
    var batch, grid, rnn, nc := cfg.batchSize, GridSize(cfg), cfg.rnnLen, cfg.numClasses;
    OuterSizePositive(cfg);
    Size4(batch, grid, rnn, nc);
    Size4(batch, grid, rnn, 4);
    assert OuterSize(cfg) == batch * grid;
    if rnn != 1 {
      MulMonotone(2, rnn, batch * grid * 4);
      assert batch * grid * rnn * 4 == batch * grid * 4 * rnn;
    } else {
      assert batch * grid * rnn * nc == batch * grid * nc;
      assert batch * grid * rnn * 4 == batch * grid * 4;
    }
  }

  /**
   * The phase loop: fills the per-phase metrics for "train" and then
   * "val"; the first phase whose shapes do not fit aborts with its error.
   */
  method Evaluate(cfg: Config, data: map<Phase, PhaseData>) returns (r: Result<map<Phase, Metrics>>)
    requires Valid(cfg) && Train in data && Val in data
    ensures r.Ok? <==> PhaseMetrics(cfg, data[Train]).Ok? && PhaseMetrics(cfg, data[Val]).Ok?
    ensures r.Err? ==> r.error == (if PhaseMetrics(cfg, data[Train]).Err? then PhaseMetrics(cfg, data[Train]).error
                                   else PhaseMetrics(cfg, data[Val]).error)
    ensures r.Ok? ==> r.value.Keys == {Train, Val}
                      && forall p :: p in r.value ==> r.value[p] == PhaseMetrics(cfg, data[p]).value
  {
    var phases := [Train, Val];
    ghost var train, val := PhaseMetrics(cfg, data[Train]), PhaseMetrics(cfg, data[Val]);
    var metrics: map<Phase, Metrics> := map[];
    var i := 0;
    while i < |phases|
      invariant 0 <= i <= |phases|
      invariant i == 0 ==> metrics == map[]
      invariant i >= 1 ==> train.Ok?
      invariant i == 1 ==> metrics == map[Train := train.value]
      invariant i == 2 ==> val.Ok? && metrics == map[Train := train.value, Val := val.value]
    {
      var phase := phases[i];
      var m := PhaseMetrics(cfg, data[phase]);
      if m.Err? {
        return Err(m.error);
      }
      metrics := metrics[phase := m.value];
      i := i + 1;
    }
    r := Ok(metrics);
  }

  // ----- debug image index ---------------------------------------------------

  /**
   * numpy's integer `//` (the step arrives as a numpy integer in the
   * `py_func` callback): the quotient rounded towards minus infinity, and
   * 0 for a zero divisor, where numpy only warns.
   */
  function FloorDiv(a: int, d: int): (q: int)
    ensures d > 0 ==> d * q <= a < d * q + d
    ensures d < 0 ==> d * q + d < a <= d * q
    ensures d == 0 ==> q == 0
  {
    if d == 0 then 0 else if d > 0 || a % d == 0 then a / d else a / d - 1
  }

  /** The floor quotient is the only q with d * q <= a < d * q + d. */
  lemma FloorDivUnique(a: int, d: int, q: int)
    requires d > 0 && d * q <= a < d * q + d
    ensures FloorDiv(a, d) == q
  {
    var f := FloorDiv(a, d);
    if f > q {
      MulMonotoneInt(q + 1, f, d);
      assert false;
    } else if f < q {
      MulMonotoneInt(f + 1, q, d);
      assert false;
    }
  }

  lemma MulMonotoneInt(x: int, y: int, d: int)
    requires x <= y && d >= 0
    ensures d * x <= d * y
  {
    assert d * y - d * x == d * (y - x);
  }

  /**
   * `(global_step // display_iter) % 10`: which of the ten rotating debug
   * images a step writes; with a zero display interval every step writes
   * image 0.
   */
  function DisplayIndex(step: int, displayIter: int): (r: nat)
    ensures r < 10
    ensures displayIter == 0 ==> r == 0
  {
    FloorDiv(step, displayIter) % 10
  }

  /** Steps of one display window write the same image; after ten windows the index comes back. */
  lemma DisplayIndexWindows(q: int, j: int, displayIter: int)
    requires displayIter > 0 && 0 <= j < displayIter
    ensures DisplayIndex(q * displayIter + j, displayIter) == q % 10
    ensures DisplayIndex((q + 10) * displayIter + j, displayIter) == DisplayIndex(q * displayIter + j, displayIter)
  {
    var d := displayIter;
    assert d * q == q * d;
    assert d * (q + 10) == (q + 10) * d == q * d + 10 * d;
    FloorDivUnique(q * d + j, d, q);
    FloorDivUnique((q + 10) * d + j, d, q + 10);
    assert (q + 10) % 10 == q % 10;
  }

  /** `'%s_%s.jpg' % (index, pred_or_true)`. */
  function DisplayFilename(index: nat, kind: string): (name: string)
    requires index < 10
    ensures |name| == |kind| + 6
    ensures '0' <= name[0] <= '9' && name[0] as int - '0' as int == index
    ensures name[1] == '_' && name[2..|name| - 4] == kind && name[|name| - 4..] == ".jpg"
  {
    [(('0' as int) + index) as char] + "_" + kind + ".jpg"
  }

  /** Distinct (index, kind) pairs write distinct files. */
  lemma DisplayFilenameInjective(i1: nat, k1: string, i2: nat, k2: string)
    requires i1 < 10 && i2 < 10
    ensures DisplayFilename(i1, k1) == DisplayFilename(i2, k2) <==> i1 == i2 && k1 == k2
  {
    var n1, n2 := DisplayFilename(i1, k1), DisplayFilename(i2, k2);
    if n1 == n2 {
      assert n1[0] == n2[0];
      assert n1[2..|n1| - 4] == k1;
      assert n2[2..|n2| - 4] == k2;
    }
  }
}
