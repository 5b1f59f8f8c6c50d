/** Construction of a network (`FullyConnectedNet.__init__`): the parameter
    store, the dropout configuration and the per-layer normalization contexts. */
module NetInit {
  import opened Wrappers
  import opened ParamKeys
  import opened NetState

  /** `hidden_dims[0]` on an empty list raises IndexError before anything is built. */
  datatype InitError = EmptyHiddenDims

  /** Width of the activation entering affine layer `k` (1-based) of a network
      with hidden widths `hiddenDims`. */
  function LayerInput(hiddenDims: seq<nat>, inputDim: nat, k: nat): nat
    requires 1 <= k <= |hiddenDims| + 1
  {
    if k == 1 then inputDim else hiddenDims[k - 2]
  }

  /** Width of the activation leaving affine layer `k`. */
  function LayerOutput(hiddenDims: seq<nat>, numClasses: nat, k: nat): nat
    requires 1 <= k <= |hiddenDims| + 1
  {
    if k == |hiddenDims| + 1 then numClasses else hiddenDims[k - 1]
  }

  /** The entry a freshly built store holds under `key`, layer by layer:
      Wk is (input width, output width) drawn from a normal distribution, bk
      is zeros of the output width, gammak ones and betak zeros of the output
      width for hidden layers of a normalized network; nothing else. */
  function ExpectedParam(hiddenDims: seq<nat>, inputDim: nat, numClasses: nat, normalized: bool, key: ParamKey): Option<Param> {
    var numLayers := |hiddenDims| + 1;
    if !InLayout(key, numLayers, normalized) then None
    else
      var k := key.layer;
      var width := LayerOutput(hiddenDims, numClasses, k);
      match key.kind
      case W => Some(Param([LayerInput(hiddenDims, inputDim, k), width], Normal))
      case B => Some(Param([width], Zeros))
      case Gamma => Some(Param([width], Ones))
      case Beta => Some(Param([width], Zeros))
  }

  /** The store holds exactly the expected entries. */
  predicate LaidOut(params: map<ParamKey, Param>, hiddenDims: seq<nat>, inputDim: nat, numClasses: nat, normalized: bool) {
    && params.Keys == Layout(|hiddenDims| + 1, normalized)
    && forall key :: key in params ==> ExpectedParam(hiddenDims, inputDim, numClasses, normalized, key) == Some(params[key])
  }

  /** Entries of layer `k` (2 <= k <= len(hidden_dims)) written by the loop body. */
  function HiddenParam(hiddenDims: seq<nat>, key: ParamKey): Param
    requires 2 <= key.layer <= |hiddenDims|
  {
    var k := key.layer;
    match key.kind
    case W => Param([hiddenDims[k - 2], hiddenDims[k - 1]], Normal)
    case B => Param([hiddenDims[k - 1]], Zeros)
    case Gamma => Param([hiddenDims[k - 1]], Ones)
    case Beta => Param([hiddenDims[k - 1]], Zeros)
  }

  /** The entries of layer 1, written before the loop. */
  function FirstLayer(hiddenDims: seq<nat>, inputDim: nat, normalized: bool): (params: map<ParamKey, Param>)
    requires |hiddenDims| >= 1
    ensures forall key :: key in params <==> InLayout(key, |hiddenDims| + 1, normalized) && key.layer == 1
    ensures forall key :: key in params ==> ExpectedParam(hiddenDims, inputDim, 0, normalized, key) == Some(params[key])
  {
    var params := map[ParamKey(W, 1) := Param([inputDim, hiddenDims[0]], Normal)];
    var params := if normalized then
        params[ParamKey(Gamma, 1) := Param([hiddenDims[0]], Ones)][ParamKey(Beta, 1) := Param([hiddenDims[0]], Zeros)]
      else params;
    params[ParamKey(B, 1) := Param([hiddenDims[0]], Zeros)]
  }

  /** One round of the `while i < len(hidden_dims)` loop: the entries of layer i + 1. */
  function AddHiddenLayer(hiddenDims: seq<nat>, normalized: bool, i: nat, params: map<ParamKey, Param>): (r: map<ParamKey, Param>)
    requires 1 <= i < |hiddenDims|
    requires forall key :: key in params ==> key.layer <= i
    ensures forall key :: key in r <==>
      key in params || (InLayout(key, |hiddenDims| + 1, normalized) && key.layer == i + 1)
    ensures forall key :: key in params ==> r[key] == params[key]
    ensures forall key :: key in r && key.layer == i + 1 ==> r[key] == HiddenParam(hiddenDims, key)
  {
    var n := i + 1;
    var params := params[ParamKey(W, n) := Param([hiddenDims[i - 1], hiddenDims[i]], Normal)];
    var params := if normalized then
        params[ParamKey(Gamma, n) := Param([hiddenDims[i]], Ones)][ParamKey(Beta, n) := Param([hiddenDims[i]], Zeros)]
      else params;
    params[ParamKey(B, n) := Param([hiddenDims[i]], Zeros)]
  }

  /** The `while i < len(hidden_dims)` loop, from counter value `i` on.
      Returns the store and the final value of the counter, which is always
      len(hidden_dims), so the keys written after the loop belong to layer
      len(hidden_dims) + 1. */
  function HiddenLoop(hiddenDims: seq<nat>, normalized: bool, i: nat, params: map<ParamKey, Param>): (r: (map<ParamKey, Param>, nat))
    requires 1 <= i <= |hiddenDims|
    requires forall key :: key in params ==> key.layer <= i
    ensures r.1 == |hiddenDims|
    ensures forall key :: key in r.0 <==>
      key in params || (InLayout(key, |hiddenDims| + 1, normalized) && i < key.layer <= |hiddenDims|)
    ensures forall key :: key in params ==> r.0[key] == params[key]
    ensures forall key :: key in r.0 && i < key.layer ==> key.layer <= |hiddenDims| && r.0[key] == HiddenParam(hiddenDims, key)
    decreases |hiddenDims| - i
  {
    if i < |hiddenDims| then
      HiddenLoop(hiddenDims, normalized, i + 1, AddHiddenLayer(hiddenDims, normalized, i, params))
    else
      (params, i)
  }

  /** The parameter store built by the constructor (no dtype cast, no random values). */
  function InitParams(hiddenDims: seq<nat>, inputDim: nat, numClasses: nat, normalized: bool): (r: Result<map<ParamKey, Param>, InitError>)
    ensures r.Success? <==> |hiddenDims| >= 1
    ensures r.Success? ==> LaidOut(r.value, hiddenDims, inputDim, numClasses, normalized)
  {
    if |hiddenDims| == 0 then Failure(EmptyHiddenDims)
    else
      var first := FirstLayer(hiddenDims, inputDim, normalized);
      var (hidden, i) := HiddenLoop(hiddenDims, normalized, 1, first);
      HiddenLayersLaidOut(hiddenDims, inputDim, numClasses, normalized, first, hidden);
      var params := hidden[ParamKey(W, i + 1) := Param([hiddenDims[i - 1], numClasses], Normal)];
      var params := params[ParamKey(B, i + 1) := Param([numClasses], Zeros)];
      OutputLayerLaidOut(hiddenDims, inputDim, numClasses, normalized, hidden, params);
      Success(params)
  }

  /** After the loop the store holds exactly the expected entries of the hidden layers. */
  lemma HiddenLayersLaidOut(hiddenDims: seq<nat>, inputDim: nat, numClasses: nat, normalized: bool,
                            first: map<ParamKey, Param>, hidden: map<ParamKey, Param>)
    requires |hiddenDims| >= 1
    requires first == FirstLayer(hiddenDims, inputDim, normalized)
    requires hidden == HiddenLoop(hiddenDims, normalized, 1, first).0
    ensures forall key :: key in hidden <==> InLayout(key, |hiddenDims| + 1, normalized) && key.layer <= |hiddenDims|
    ensures forall key :: key in hidden ==> ExpectedParam(hiddenDims, inputDim, numClasses, normalized, key) == Some(hidden[key])
  {
    var numLayers := |hiddenDims| + 1;
    forall key | key in hidden
      ensures ExpectedParam(hiddenDims, inputDim, numClasses, normalized, key) == Some(hidden[key])
    {
      if key.layer == 1 {
        assert key in first;
        ExpectedWidthsInside(hiddenDims, inputDim, numClasses, normalized, key);
      } else {
        assert hidden[key] == HiddenParam(hiddenDims, key);
        ExpectedWidthsInside(hiddenDims, inputDim, numClasses, normalized, key);
      }
    }
  }

  /** Below the output layer, the expected entries do not depend on the class
      count, and from layer 2 on they are the loop body's entries. */
  lemma ExpectedWidthsInside(hiddenDims: seq<nat>, inputDim: nat, numClasses: nat, normalized: bool, key: ParamKey)
    requires InLayout(key, |hiddenDims| + 1, normalized) && key.layer <= |hiddenDims|
    ensures ExpectedParam(hiddenDims, inputDim, numClasses, normalized, key) == ExpectedParam(hiddenDims, inputDim, 0, normalized, key)
    ensures 2 <= key.layer ==> ExpectedParam(hiddenDims, inputDim, numClasses, normalized, key) == Some(HiddenParam(hiddenDims, key))
  {
  }

  /** Adding W and b of layer len(hidden_dims) + 1 completes the store. */
  lemma OutputLayerLaidOut(hiddenDims: seq<nat>, inputDim: nat, numClasses: nat, normalized: bool,
                           hidden: map<ParamKey, Param>, params: map<ParamKey, Param>)
    requires |hiddenDims| >= 1
    requires forall key :: key in hidden <==> InLayout(key, |hiddenDims| + 1, normalized) && key.layer <= |hiddenDims|
    requires forall key :: key in hidden ==> ExpectedParam(hiddenDims, inputDim, numClasses, normalized, key) == Some(hidden[key])
    requires var n := |hiddenDims|;
      params == hidden[ParamKey(W, n + 1) := Param([hiddenDims[n - 1], numClasses], Normal)]
                      [ParamKey(B, n + 1) := Param([numClasses], Zeros)]
    ensures LaidOut(params, hiddenDims, inputDim, numClasses, normalized)
  {
    var numLayers := |hiddenDims| + 1;
    forall key | key in params
      ensures ExpectedParam(hiddenDims, inputDim, numClasses, normalized, key) == Some(params[key])
    {
      if key.layer == numLayers {
        assert key.kind == W || key.kind == B;
      } else {
        assert key in hidden;
      }
    }
    assert params.Keys == Layout(numLayers, normalized);
  }

  /** What `dropout_param` holds after construction: nothing unless dropout
      is on, otherwise the train mode, the keep ratio and the seed if one was given. */
  predicate DropoutConfigured(dropoutParam: Config, keepRatio: real, seed: Option<int>) {
    if keepRatio == 1.0 then dropoutParam == map[]
    else
      && dropoutParam.Keys == {ModeKey, "p"} + (if seed.Some? then {"seed"} else {})
      && dropoutParam[ModeKey] == ModeValue(Train)
      && dropoutParam["p"] == RealValue(keepRatio)
      && (seed.Some? ==> dropoutParam["seed"] == IntValue(seed.value))
  }

  /** What `bn_params` holds after construction: one context per hidden layer
      for "batchnorm" (mode train) and "layernorm" (empty), none otherwise. */
  predicate BnConfigured(bnParams: seq<Config>, normalization: Normalization, hiddenLayers: nat) {
    && |bnParams| == (if normalization == Named(BatchNorm) || normalization == Named(LayerNorm) then hiddenLayers else 0)
    && forall j :: 0 <= j < |bnParams| ==>
         bnParams[j] == (if normalization == Named(BatchNorm) then map[ModeKey := ModeValue(Train)] else map[])
  }

  function DropoutParam(keepRatio: real, seed: Option<int>): (d: Config)
    ensures DropoutConfigured(d, keepRatio, seed)
  {
    if keepRatio != 1.0 then
      var d := map[ModeKey := ModeValue(Train), "p" := RealValue(keepRatio)];
      if seed.Some? then d["seed" := IntValue(seed.value)] else d
    else
      map[]
  }

  function BnParams(normalization: Normalization, hiddenLayers: nat): (bn: seq<Config>)
    ensures BnConfigured(bn, normalization, hiddenLayers)
  {
    var bn := [];
    var bn := if normalization == Named(BatchNorm) then seq(hiddenLayers, _ => map[ModeKey := ModeValue(Train)]) else bn;
    if normalization == Named(LayerNorm) then seq(hiddenLayers, _ => map[]) else bn
  }

  /** `FullyConnectedNet(hidden_dims, input_dim, num_classes,
      dropout_keep_ratio, normalization, reg, seed=seed)`. */
  function NewNet(hiddenDims: seq<nat>, inputDim: nat, numClasses: nat, keepRatio: real,
                  normalization: Normalization, reg: real, seed: Option<int>): (r: Result<Net, InitError>)
    ensures r.Success? <==> |hiddenDims| >= 1
    ensures r.Success? ==> Constructed(r.value, hiddenDims, inputDim, numClasses, keepRatio, normalization, reg, seed)
  {
    var params :- InitParams(hiddenDims, inputDim, numClasses, normalization.Named?);
    var numLayers := 1 + |hiddenDims|;
    Success(Net(normalization, keepRatio != 1.0, reg, numLayers, params,
                DropoutParam(keepRatio, seed), BnParams(normalization, numLayers - 1)))
  }

  /** Everything the constructor establishes about a new network. */
  predicate Constructed(net: Net, hiddenDims: seq<nat>, inputDim: nat, numClasses: nat, keepRatio: real,
                        normalization: Normalization, reg: real, seed: Option<int>) {
    && net.numLayers == 1 + |hiddenDims|
    && net.normalization == normalization
    && net.reg == reg
    && net.useDropout == (keepRatio != 1.0)
    && LaidOut(net.params, hiddenDims, inputDim, numClasses, normalization.Named?)
    && DropoutConfigured(net.dropoutParam, keepRatio, seed)
    && BnConfigured(net.bnParams, normalization, |hiddenDims|)
  }

  /** The shapes chain from layer to layer: W1 reads the input, every Wk's
      column count is the next layer's row count, the last W produces the
      class scores, and each bias, scale and shift has its layer's width. */
  lemma ShapesChain(params: map<ParamKey, Param>, hiddenDims: seq<nat>, inputDim: nat, numClasses: nat, normalized: bool)
    requires |hiddenDims| >= 1
    requires LaidOut(params, hiddenDims, inputDim, numClasses, normalized)
    ensures params[ParamKey(W, 1)].shape == [inputDim, hiddenDims[0]]
    ensures params[ParamKey(W, |hiddenDims| + 1)].shape == [hiddenDims[|hiddenDims| - 1], numClasses]
    ensures forall k :: 1 <= k <= |hiddenDims| ==> params[ParamKey(W, k)].shape[1] == hiddenDims[k - 1]
    ensures forall k :: 2 <= k <= |hiddenDims| + 1 ==> params[ParamKey(W, k)].shape[0] == hiddenDims[k - 2]
    ensures forall k :: 1 <= k <= |hiddenDims| + 1 ==>
      params[ParamKey(B, k)] == Param([params[ParamKey(W, k)].shape[1]], Zeros)
    ensures forall k :: 1 <= k <= |hiddenDims| && normalized ==>
      && params[ParamKey(Gamma, k)] == Param([hiddenDims[k - 1]], Ones)
      && params[ParamKey(Beta, k)] == Param([hiddenDims[k - 1]], Zeros)
  {
    var numLayers := |hiddenDims| + 1;
    assert InLayout(ParamKey(W, 1), numLayers, normalized);
    assert InLayout(ParamKey(W, numLayers), numLayers, normalized);
    forall k | 1 <= k <= numLayers
      ensures params[ParamKey(B, k)] == Param([params[ParamKey(W, k)].shape[1]], Zeros)
    {
      assert InLayout(ParamKey(W, k), numLayers, normalized);
      assert InLayout(ParamKey(B, k), numLayers, normalized);
    }
    forall k | 1 <= k <= numLayers
      ensures params[ParamKey(W, k)].shape ==
        [if k == 1 then inputDim else hiddenDims[k - 2], if k == numLayers then numClasses else hiddenDims[k - 1]]
    {
      assert InLayout(ParamKey(W, k), numLayers, normalized);
    }
    forall k | 1 <= k <= |hiddenDims| && normalized
      ensures params[ParamKey(Gamma, k)] == Param([hiddenDims[k - 1]], Ones)
      ensures params[ParamKey(Beta, k)] == Param([hiddenDims[k - 1]], Zeros)
    {
      assert InLayout(ParamKey(Gamma, k), numLayers, normalized);
      assert InLayout(ParamKey(Beta, k), numLayers, normalized);
    }
  }

  /** A store with L layers has 2L entries, or 4L - 2 with normalization. */
  lemma ParamCount(params: map<ParamKey, Param>, hiddenDims: seq<nat>, inputDim: nat, numClasses: nat, normalized: bool)
    requires LaidOut(params, hiddenDims, inputDim, numClasses, normalized)
    ensures |params| == 2 * (|hiddenDims| + 1) + (if normalized then 2 * |hiddenDims| else 0)
  {
    LayoutCardinality(|hiddenDims| + 1, normalized);
    assert |params| == |params.Keys|;
  }
}
