/**
 * The hyperparameters (`hyp`) that the decoder, the loss and the
 * evaluation read.
 */
module Hyper {
  import opened Tensors

  /** How the binary "inside" target of the rezoom confidence loss is derived. */
  datatype ChangeLoss = Presence | Center | IouAbove

  datatype Config = Config(
    gridWidth: nat,
    gridHeight: nat,
    batchSize: nat,
    rnnLen: nat,              // boxes predicted per cell
    numClasses: nat,
    cnnChannels: nat,
    lstmSize: nat,            // width of the bottleneck output `raw_output`
    earlyFeatChannels: nat,
    rezoomW: seq<real>,       // rezoom_w_coords
    rezoomH: seq<real>,       // rezoom_h_coords
    useRezoom: bool,
    reregress: bool,
    useLstm: bool,
    changeLoss: string,       // rezoom_change_loss; "" stands for an empty (false) setting
    headConf: real,           // solver.head_weights[0]
    headBox: real,            // solver.head_weights[1]
    displayIter: int)         // logging.display_iter

  function GridSize(c: Config): nat
  {
    c.gridWidth * c.gridHeight
  }

  /** Number of cells across the batch. */
  function OuterSize(c: Config): nat
  {
    GridSize(c) * c.batchSize
  }

  /**
   * What every configuration the program is run with satisfies: a
   * non-empty grid and batch (the losses divide by the outer size) and at
   * least the two classes the binary targets address.
   */
  ghost predicate Valid(c: Config)
  {
    c.gridWidth >= 1 && c.gridHeight >= 1 && c.batchSize >= 1 && c.rnnLen >= 1 && c.numClasses >= 2
  }

  lemma OuterSizePositive(c: Config)
    requires Valid(c)
    ensures OuterSize(c) >= 1
  {
    assert GridSize(c) >= 1;
    assert OuterSize(c) == GridSize(c) * c.batchSize;
  }

  /**
   * The dispatch on `rezoom_change_loss`: "center", "iou", and otherwise
   * the assertion that the setting is empty.
   */
  function ParseChangeLoss(name: string): (r: Result<ChangeLoss>)
    ensures r == Ok(Center) <==> name == "center"
    ensures r == Ok(IouAbove) <==> name == "iou"
    ensures r == Ok(Presence) <==> name == ""
    ensures r.Err? <==> name !in {"center", "iou", ""}
    ensures r.Err? ==> r.error == UnknownChangeLoss(name)
  {
    if name == "center" then Ok(Center)
    else if name == "iou" then Ok(IouAbove)
    else if name == "" then Ok(Presence)
    else Err(UnknownChangeLoss(name))
  }
}
