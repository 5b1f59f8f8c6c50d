/** `FullyConnectedNet.loss`: set the train/test mode, run the forward pass,
    and in training mode the softmax loss, the backward pass and the L2
    penalty. */
module NetLoss {
  import opened Wrappers
  import opened ParamKeys
  import opened NetState
  import opened Layers
  import opened ForwardPass
  import opened BackwardPass

  /** "test" when no labels are given, "train" otherwise. */
  function ModeOf(y: Option<Shape>): (m: Mode)
    ensures m == Test <==> y.None?
  {
    if y.None? then Test else Train
  }

  /** `after` is `before` with its "mode" entry set to `mode` and every other
      entry kept. */
  predicate ModeWritten(before: Config, after: Config, mode: Mode) {
    && after.Keys == before.Keys + {ModeKey}
    && after[ModeKey] == ModeValue(mode)
    && forall key :: key in before && key != ModeKey ==> after[key] == before[key]
  }

  function WriteMode(config: Config, mode: Mode): (r: Config)
    ensures ModeWritten(config, r, mode)
  {
    config[ModeKey := ModeValue(mode)]
  }

  /** The mode goes into `dropout_param` only when dropout is on, and into
      every `bn_param` only when the normalization is "batchnorm" (so never
      for "layernorm"); nothing else of the network changes. */
  function SetMode(net: Net, mode: Mode): (r: Net)
    ensures r.normalization == net.normalization && r.useDropout == net.useDropout && r.reg == net.reg
    ensures r.numLayers == net.numLayers && r.params == net.params
    ensures net.useDropout ==> ModeWritten(net.dropoutParam, r.dropoutParam, mode)
    ensures !net.useDropout ==> r.dropoutParam == net.dropoutParam
    ensures |r.bnParams| == |net.bnParams|
    ensures forall j :: 0 <= j < |net.bnParams| ==>
      if net.normalization == Named(BatchNorm) then ModeWritten(net.bnParams[j], r.bnParams[j], mode)
      else r.bnParams[j] == net.bnParams[j]
  {
    var dropoutParam := if net.useDropout then WriteMode(net.dropoutParam, mode) else net.dropoutParam;
    var bnParams :=
      if net.normalization == Named(BatchNorm) then
        seq(|net.bnParams|, j requires 0 <= j < |net.bnParams| => WriteMode(net.bnParams[j], mode))
      else net.bnParams;
    net.(dropoutParam := dropoutParam, bnParams := bnParams)
  }

  /** The training loss: the softmax data loss plus `penaltyScale` times the
      sum of the squared entries of the weights listed in `squared`. */
  datatype LossValue = LossValue(dataLoss: real, penaltyScale: real, squared: seq<ParamKey>)

  /** What `loss` returns: the scores at test time, the loss and the
      gradients at training time. */
  datatype Output = Scores(scores: Shape) | Trained(loss: LossValue, grads: map<ParamKey, Grad>)

  /** `loss(X, y)`. The first component is the network afterwards (the mode
      stays written even when the forward pass raises); the second is what the
      call returns or raises. */
  function Loss(net: Net, col: Collaborators, x: Shape, y: Option<Shape>): (r: (Net, Result<Output, LossError>))
    requires net.numLayers >= 2
    ensures r.0 == SetMode(net, ModeOf(y))
    ensures r.1.Success? <==> Runnable(net)
    ensures r.1.Failure? ==> Explained(net, r.1.error)
    ensures r.1.Success? && y.None? ==>
      r.1.value == Scores(Forward(r.0, col, x).value.activation)
    ensures r.1.Success? && y.Some? ==> TrainedBy(r.0, col, x, y.value, r.1.value)
  {
    var net' := SetMode(net, ModeOf(y));
    ModeKeepsRunnable(net, ModeOf(y));
    (net', Run(net', col, x, y))
  }

  /** What training mode returns after a successful forward pass `f`: the
      gradients the backward pass computes from `f`'s caches and the dout of
      the softmax loss on `f`'s scores, keyed by exactly the parameter layout
      with weight decay on the W entries only, and the softmax data loss plus
      0.5 * reg times the squares of W L..W1. */
  predicate TrainedBy(net: Net, col: Collaborators, x: Shape, labels: Shape, o: Output)
    requires net.numLayers >= 2 && Runnable(net)
  {
    var f := Forward(net, col, x).value;
    var (dataLoss, dout) := col.softmaxLoss(f.activation, labels);
    && CachesFit(net, f.caches)
    && o.Trained?
    && o.grads == Backward(net, col, f.caches, dout).grads
    && o.grads.Keys == Layout(net.numLayers, Normalized(net))
    && Decayed(o.grads)
    && o.loss == LossValue(dataLoss, 0.5 * net.reg, Countdown(net.numLayers))
  }

  /** `loss` after the mode is written: the forward pass, then the early
      return of the scores at test time or the training half. */
  function Run(net: Net, col: Collaborators, x: Shape, y: Option<Shape>): (r: Result<Output, LossError>)
    requires net.numLayers >= 2
    ensures r.Success? <==> Runnable(net)
    ensures r.Failure? ==> Explained(net, r.error)
    ensures r.Success? && y.None? ==> r.value == Scores(Forward(net, col, x).value.activation)
    ensures r.Success? && y.Some? ==> TrainedBy(net, col, x, y.value, r.value)
  {
    var fwd := Forward(net, col, x);
    if fwd.Failure? then
      Failure(fwd.error)
    else if y.None? then
      Success(Scores(fwd.value.activation))
    else
      IndexedFit(net, fwd.value);
      Success(Training(net, col, fwd.value, y.value))
  }

  /** Writing the mode changes neither whether the forward pass runs nor
      which errors it can raise. */
  lemma ModeKeepsRunnable(net: Net, mode: Mode)
    ensures Runnable(SetMode(net, mode)) <==> Runnable(net)
    ensures forall e :: Explained(SetMode(net, mode), e) <==> Explained(net, e)
  {
  }

  /** The training half of `loss`: the softmax loss on the scores, the
      backward pass from its dout, and the L2 penalty with its factor 0.5. */
  function Training(net: Net, col: Collaborators, f: ForwardState, labels: Shape): (o: Output)
    requires net.numLayers >= 1
    requires CachesFit(net, f.caches)
    ensures o.Trained?
    ensures o.grads == Backward(net, col, f.caches, col.softmaxLoss(f.activation, labels).1).grads
    ensures o.grads.Keys == Layout(net.numLayers, Normalized(net)) && Decayed(o.grads)
    ensures o.loss == LossValue(col.softmaxLoss(f.activation, labels).0, 0.5 * net.reg, Countdown(net.numLayers))
  {
    var (dataLoss, dout) := col.softmaxLoss(f.activation, labels);
    var back := Backward(net, col, f.caches, dout);
    Trained(LossValue(dataLoss, 0.5 * net.reg, back.squared), back.grads)
  }

  /** The caches a whole forward pass leaves have the lengths the backward pass
      reads. */
  lemma IndexedFit(net: Net, s: ForwardState)
    requires net.numLayers >= 1
    requires CachesIndexed(net, s)
    ensures CachesFit(net, s.caches)
  {
  }
}
