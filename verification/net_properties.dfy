/** Properties that relate the constructor, the forward pass, the backward
    pass and `loss` to each other. */
module NetProperties {
  import opened Wrappers
  import opened ParamKeys
  import opened NetState
  import opened Layers
  import opened NetInit
  import opened ForwardPass
  import opened BackwardPass
  import opened NetLoss

  /** The normalizations the constructor documents. */
  predicate Documented(normalization: Normalization) {
    normalization == NoNormalization || normalization == Named(BatchNorm) || normalization == Named(LayerNorm)
  }

  /** A network built with a documented normalization runs `loss` in both
      modes, and in training mode returns a gradient for exactly the keys of
      its parameter store. */
  lemma ConstructedNetRuns(hiddenDims: seq<nat>, inputDim: nat, numClasses: nat, keepRatio: real,
                           normalization: Normalization, reg: real, seed: Option<int>,
                           col: Collaborators, x: Shape, y: Shape)
    requires NewNet(hiddenDims, inputDim, numClasses, keepRatio, normalization, reg, seed).Success?
    requires Documented(normalization)
    ensures var net := NewNet(hiddenDims, inputDim, numClasses, keepRatio, normalization, reg, seed).value;
      && net.numLayers >= 2
      && Loss(net, col, x, None).1.Success?
      && Loss(net, col, x, None).1.value.Scores?
      && Loss(net, col, x, Some(y)).1.Success?
      && Loss(net, col, x, Some(y)).1.value.grads.Keys == net.params.Keys
  {
    var net := NewNet(hiddenDims, inputDim, numClasses, keepRatio, normalization, reg, seed).value;
    ConstructedRunnable(net, hiddenDims, inputDim, numClasses, keepRatio, normalization, reg, seed);
  }

  lemma ConstructedRunnable(net: Net, hiddenDims: seq<nat>, inputDim: nat, numClasses: nat, keepRatio: real,
                            normalization: Normalization, reg: real, seed: Option<int>)
    requires |hiddenDims| >= 1
    requires Constructed(net, hiddenDims, inputDim, numClasses, keepRatio, normalization, reg, seed)
    requires Documented(normalization)
    ensures net.numLayers >= 2 && Runnable(net)
    ensures net.params.Keys == Layout(net.numLayers, Normalized(net))
  {
  }

  /** A normalization string other than "batchnorm" and "layernorm" is accepted
      by the constructor, which then creates the scale and shift parameters but
      no normalization contexts; the first norm layer of `loss` then indexes
      the empty `bn_params` and raises IndexError, whatever the mode. */
  lemma UnknownNormalizationFails(hiddenDims: seq<nat>, inputDim: nat, numClasses: nat, keepRatio: real,
                                  name: string, reg: real, seed: Option<int>,
                                  col: Collaborators, x: Shape, y: Option<Shape>)
    requires name != BatchNorm && name != LayerNorm
    requires NewNet(hiddenDims, inputDim, numClasses, keepRatio, Named(name), reg, seed).Success?
    ensures var net := NewNet(hiddenDims, inputDim, numClasses, keepRatio, Named(name), reg, seed).value;
      && net.bnParams == []
      && Loss(net, col, x, y).1 == Failure(IndexError)
  {
    var net := NewNet(hiddenDims, inputDim, numClasses, keepRatio, Named(name), reg, seed).value;
    UnknownNormalizationNet(net, hiddenDims, inputDim, numClasses, keepRatio, name, reg, seed);
  }

  lemma UnknownNormalizationNet(net: Net, hiddenDims: seq<nat>, inputDim: nat, numClasses: nat, keepRatio: real,
                                name: string, reg: real, seed: Option<int>)
    requires name != BatchNorm && name != LayerNorm
    requires |hiddenDims| >= 1
    requires Constructed(net, hiddenDims, inputDim, numClasses, keepRatio, Named(name), reg, seed)
    ensures net.bnParams == [] && net.numLayers >= 2 && Normalized(net)
    ensures !Runnable(net)
    ensures forall e :: Explained(net, e) ==> e == IndexError
  {
    assert net.params.Keys == Layout(net.numLayers, true);
  }

  /** Some forward step of the same kind and layer as `st` made the cache
      object `st` consumed. */
  predicate Produced(trace: seq<Step>, st: BackStep) {
    exists i :: 0 <= i < |trace| && trace[i].op == st.op && trace[i].layer == st.layer && trace[i].token == st.token
  }

  /** Every backward call consumes the cache object that the forward call of
      the same kind and layer produced. */
  lemma BackwardConsumesForwardCaches(net: Net, col: Collaborators, x: Shape, dout: Shape)
    requires net.numLayers >= 2
    requires Forward(net, col, x).Success?
    ensures var f := Forward(net, col, x).value;
      && CachesFit(net, f.caches)
      && var b := Backward(net, col, f.caches, dout);
         forall j :: 0 <= j < |b.trace| ==> Produced(f.trace, b.trace[j])
  {
    var f := Forward(net, col, x).value;
    IndexedFit(net, f);
    var b := Backward(net, col, f.caches, dout);
    CacheProducers(net, f, b.trace);
  }

  /** The forward step behind each cache entry a backward trace consumed. */
  lemma CacheProducers(net: Net, f: ForwardState, back: seq<BackStep>)
    requires net.numLayers >= 1
    requires CachesIndexed(net, f)
    requires forall j :: 0 <= j < |back| ==> FromCache(f.caches, back[j])
    ensures forall j :: 0 <= j < |back| ==> Produced(f.trace, back[j])
  {
    forall j | 0 <= j < |back|
      ensures Produced(f.trace, back[j])
    {
      CacheProducer(net, f, back[j]);
    }
  }

  /** The forward step behind the cache entry a backward step consumed. */
  lemma CacheProducer(net: Net, f: ForwardState, st: BackStep)
    requires net.numLayers >= 1
    requires CachesIndexed(net, f)
    requires FromCache(f.caches, st)
    ensures Produced(f.trace, st)
  {
    var sel := Select(f.trace, st.op);
    SelectMembers(f.trace, st.op);
    var fs := sel[st.layer - 1];
    assert fs in f.trace && fs.op == st.op && fs.layer == st.layer && fs.token == st.token;
  }

  lemma {:induction false} SelectMembers(trace: seq<Step>, op: Op)
    ensures forall j :: 0 <= j < |Select(trace, op)| ==> Select(trace, op)[j] in trace && Select(trace, op)[j].op == op
  {
    if |trace| > 0 {
      var t := trace[..|trace| - 1];
      SelectMembers(t, op);
      forall j | 0 <= j < |Select(trace, op)|
        ensures Select(trace, op)[j] in trace && Select(trace, op)[j].op == op
      {
        if j < |Select(t, op)| {
          assert Select(t, op)[j] in t;
        }
      }
    }
  }

  /** `weights_squared` sums the square of each of W1..WL exactly once, and of
      nothing else. */
  lemma {:induction false} EachWeightSquaredOnce(m: nat)
    ensures forall key :: multiset(Countdown(m))[key] == (if key.kind == W && 1 <= key.layer <= m then 1 else 0)
  {
    if m > 0 {
      EachWeightSquaredOnce(m - 1);
      assert multiset(Countdown(m)) == multiset{ParamKey(W, m)} + multiset(Countdown(m - 1));
    }
  }

  /** Writing the same mode twice is writing it once. */
  lemma SetModeIdempotent(net: Net, mode: Mode)
    ensures SetMode(SetMode(net, mode), mode) == SetMode(net, mode)
  {
    var once := SetMode(net, mode);
    var twice := SetMode(once, mode);
    if net.useDropout {
      ConfigEqual(once.dropoutParam, twice.dropoutParam, mode);
    }
    if net.normalization == Named(BatchNorm) {
      forall j | 0 <= j < |net.bnParams|
        ensures twice.bnParams[j] == once.bnParams[j]
      {
        ConfigEqual(once.bnParams[j], twice.bnParams[j], mode);
      }
    }
  }

  /** The mode a later call writes replaces the one an earlier call wrote. */
  lemma LaterModeWins(net: Net, first: Mode, second: Mode)
    ensures SetMode(SetMode(net, first), second) == SetMode(net, second)
  {
    var once := SetMode(net, second);
    var twice := SetMode(SetMode(net, first), second);
    if net.useDropout {
      assert twice.dropoutParam == once.dropoutParam;
    }
    if net.normalization == Named(BatchNorm) {
      forall j | 0 <= j < |net.bnParams|
        ensures twice.bnParams[j] == once.bnParams[j]
      {
        assert twice.bnParams[j] == net.bnParams[j][ModeKey := ModeValue(second)];
      }
    }
  }

  lemma ConfigEqual(before: Config, after: Config, mode: Mode)
    requires ModeWritten(before, after, mode)
    requires ModeKey in before && before[ModeKey] == ModeValue(mode)
    ensures after == before
  {
  }

  /** A network with one hidden layer of 50 units on 15 inputs and 10
      classes has the entries "W1", "b1", "W2", "b2", and no dropout or
      normalization contexts. */
  lemma OneHiddenLayerExample()
    ensures var net := NewNet([50], 15, 10, 1.0, NoNormalization, 0.0, None).value;
      && (set key | key in net.params :: KeyName(key)) == {"W1", "b1", "W2", "b2"}
      && net.params[ParamKey(W, 1)].shape == [15, 50]
      && net.params[ParamKey(W, 2)].shape == [50, 10]
      && !net.useDropout && net.dropoutParam == map[] && net.bnParams == []
  {
    var net := NewNet([50], 15, 10, 1.0, NoNormalization, 0.0, None).value;
    ExampleNames(false);
    ShapesChain(net.params, [50], 15, 10, false);
  }

  /** The same network with batch normalization also has "gamma1" and
      "beta1", and one context, in train mode. */
  lemma OneHiddenLayerBatchNormExample()
    ensures var net := NewNet([50], 15, 10, 1.0, Named(BatchNorm), 0.0, None).value;
      && (set key | key in net.params :: KeyName(key)) == {"W1", "b1", "W2", "b2", "gamma1", "beta1"}
      && net.params[ParamKey(Gamma, 1)] == Param([50], Ones)
      && |net.bnParams| == 1 && net.bnParams[0] == map[ModeKey := ModeValue(Train)]
  {
    var net := NewNet([50], 15, 10, 1.0, Named(BatchNorm), 0.0, None).value;
    ExampleNames(true);
    ShapesChain(net.params, [50], 15, 10, true);
  }

  lemma ExampleNames(normalized: bool)
    ensures (set key | key in Layout(2, normalized) :: KeyName(key)) ==
      {"W1", "b1", "W2", "b2"} + (if normalized then {"gamma1", "beta1"} else {})
  {
    var keys := {ParamKey(W, 1), ParamKey(B, 1), ParamKey(W, 2), ParamKey(B, 2)} +
                (if normalized then {ParamKey(Gamma, 1), ParamKey(Beta, 1)} else {});
    forall key | InLayout(key, 2, normalized)
      ensures key in keys
    {
    }
    assert Layout(2, normalized) == keys;
    assert DecimalString(1) == "1" && DecimalString(2) == "2";
    assert KeyName(ParamKey(W, 1)) == "W1" && KeyName(ParamKey(B, 1)) == "b1";
    assert KeyName(ParamKey(W, 2)) == "W2" && KeyName(ParamKey(B, 2)) == "b2";
    assert KeyName(ParamKey(Gamma, 1)) == "gamma1" && KeyName(ParamKey(Beta, 1)) == "beta1";
  }
}
