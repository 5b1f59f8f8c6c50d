/** The forward pass of `FullyConnectedNet.loss`: the sequence of layer calls,
    the parameters and contexts each one is handed, and the four cache lists. */
module ForwardPass {
  import opened Wrappers
  import opened ParamKeys
  import opened NetState
  import opened Layers

  /** The four kinds of layer the network chains together. */
  datatype Op = AffineOp | NormOp | ReluOp | DropoutOp

  /** A layer call, identified by its kind and its layer number. */
  datatype Call = Call(op: Op, layer: nat)

  /** One forward layer call as it happened: what went in, what came out, and
      the cache object it produced. */
  datatype Step = Step(op: Op, layer: nat, input: Shape, output: Shape, token: CacheToken)

  /** `cache['affine']`, `cache['norm']`, `cache['relu']`, `cache['dropout']`. */
  datatype Caches = Caches(affine: seq<CacheToken>, norm: seq<CacheToken>, relu: seq<CacheToken>, dropout: seq<CacheToken>)

  /** What `loss` raises instead of returning. */
  datatype LossError = KeyError(key: ParamKey) | IndexError

  /** The running activation `a`, the caches and the calls made so far. */
  datatype ForwardState = ForwardState(activation: Shape, caches: Caches, trace: seq<Step>)

  function CacheFor(caches: Caches, op: Op): seq<CacheToken> {
    match op
    case AffineOp => caches.affine
    case NormOp => caches.norm
    case ReluOp => caches.relu
    case DropoutOp => caches.dropout
  }

  /** `cache[op].append(token)`. */
  function Push(caches: Caches, op: Op, token: CacheToken): (r: Caches)
    ensures forall other :: CacheFor(r, other) == CacheFor(caches, other) + (if other == op then [token] else [])
  {
    match op
    case AffineOp => caches.(affine := caches.affine + [token])
    case NormOp => caches.(norm := caches.norm + [token])
    case ReluOp => caches.(relu := caches.relu + [token])
    case DropoutOp => caches.(dropout := caches.dropout + [token])
  }

  /** `self.params[key]`, which raises KeyError when the key is missing. */
  function Lookup(params: map<ParamKey, Param>, key: ParamKey): (r: Result<Shape, LossError>)
    ensures r.Success? <==> key in params
    ensures r.Success? ==> r.value == params[key].shape
    ensures r.Failure? ==> r.error == KeyError(key)
  {
    if key in params then Success(params[key].shape) else Failure(KeyError(key))
  }

  /** `batchnorm_forward`, unless the normalization is "layernorm". */
  function NormForward(net: Net, col: Collaborators): (Shape, Shape, Shape, Config) -> (Shape, CacheToken) {
    if net.normalization == Named(LayerNorm) then col.layernormForward else col.batchnormForward
  }

  /** `a, c = <layer call>; cache[op].append(c)`. */
  function Record(s: ForwardState, op: Op, k: nat, out: (Shape, CacheToken)): ForwardState {
    ForwardState(out.0, Push(s.caches, op, out.1), s.trace + [Step(op, k, s.activation, out.0, out.1)])
  }

  function AffineLayer(net: Net, col: Collaborators, k: nat, s: ForwardState): Result<ForwardState, LossError> {
    var w :- Lookup(net.params, ParamKey(W, k));
    var b :- Lookup(net.params, ParamKey(B, k));
    Success(Record(s, AffineOp, k, col.affineForward(s.activation, w, b)))
  }

  function NormLayer(net: Net, col: Collaborators, k: nat, s: ForwardState): Result<ForwardState, LossError>
    requires k >= 1
  {
    var gamma :- Lookup(net.params, ParamKey(Gamma, k));
    var beta :- Lookup(net.params, ParamKey(Beta, k));
    if k - 1 < |net.bnParams| then
      Success(Record(s, NormOp, k, NormForward(net, col)(s.activation, gamma, beta, net.bnParams[k - 1])))
    else
      Failure(IndexError)
  }

  /** One body of the forward loop: affine, optional norm, relu, optional dropout. */
  function HiddenLayer(net: Net, col: Collaborators, k: nat, s: ForwardState): (r: Result<ForwardState, LossError>)
    requires 1 <= k < net.numLayers
    ensures r.Success? <==> LayerReady(net, k)
    ensures r.Failure? ==> Explained(net, r.error)
  {
    var s :- FrontLayers(net, col, k, s);
    Success(ActivationLayers(net, col, k, s))
  }

  /** affine, then norm when it is on. */
  function FrontLayers(net: Net, col: Collaborators, k: nat, s: ForwardState): Result<ForwardState, LossError>
    requires k >= 1
  {
    var s :- AffineLayer(net, col, k, s);
    if Normalized(net) then NormLayer(net, col, k, s) else Success(s)
  }

  /** relu, then dropout when it is on. */
  function ActivationLayers(net: Net, col: Collaborators, k: nat, s: ForwardState): ForwardState {
    var s := Record(s, ReluOp, k, col.reluForward(s.activation));
    if net.useDropout then Record(s, DropoutOp, k, col.dropoutForward(s.activation, net.dropoutParam)) else s
  }

  /** The forward pass of `loss`: hidden layers 1..L-1, then the output
      affine layer, starting from the input `x` and empty caches. The source
      unrolls the first hidden layer before its loop; that block is the loop
      body for layer 1, so the model runs the loop from layer 1. A network
      always has at least two layers, as the constructor rejects an empty
      list of hidden sizes. */
  function Forward(net: Net, col: Collaborators, x: Shape): (r: Result<ForwardState, LossError>)
    requires net.numLayers >= 2
    ensures r.Success? <==> Runnable(net)
    ensures r.Failure? ==> Explained(net, r.error)
    ensures r.Success? ==>
      && Traced(net, col, x, r.value)
      && Plan(r.value.trace) == ForwardPlan(net.numLayers, Normalized(net), net.useDropout)
      && r.value.trace[|r.value.trace| - 1].op == AffineOp
      && r.value.trace[|r.value.trace| - 1].layer == net.numLayers
      && r.value.activation == r.value.trace[|r.value.trace| - 1].output
      && CachesIndexed(net, r.value)
  {
    var s0 := ForwardState(x, Caches([], [], [], []), []);
    assert Traced(net, col, x, s0);
    RunnableReady(net);
    var r :- ForwardLoop(net, col, x, 1, s0);
    assert Plan(r.trace)[|r.trace| - 1] == Call(AffineOp, net.numLayers);
    ForwardCaches(net, col, x, r);
    Success(r)
  }

  /** The forward loop from layer `i` on, then the final affine layer. The
      state `s` is the one after hidden layers 1..i-1. */
  function ForwardLoop(net: Net, col: Collaborators, x: Shape, i: nat, s: ForwardState): (r: Result<ForwardState, LossError>)
    requires 1 <= i <= net.numLayers
    requires Traced(net, col, x, s)
    requires Plan(s.trace) == HiddenPlan(i - 1, Normalized(net), net.useDropout)
    ensures r.Success? <==> ReadyFrom(net, i) && OutputReady(net)
    ensures r.Failure? ==> Explained(net, r.error)
    ensures r.Success? ==>
      && Traced(net, col, x, r.value)
      && Plan(r.value.trace) == ForwardPlan(net.numLayers, Normalized(net), net.useDropout)
    decreases net.numLayers - i
  {
    if i < net.numLayers then
      ForwardLoopStep(net, col, x, i, s);
      var h := HiddenLayer(net, col, i, s);
      if h.Failure? then Failure(h.error) else ForwardLoop(net, col, x, i + 1, h.value)
    else
      OutputLayerSteps(net, col, x, s);
      AffineLayer(net, col, i, s)
  }

  /** One round of the loop keeps the loop's invariant, one layer further on. */
  lemma ForwardLoopStep(net: Net, col: Collaborators, x: Shape, i: nat, s: ForwardState)
    requires 1 <= i < net.numLayers
    requires Traced(net, col, x, s)
    requires Plan(s.trace) == HiddenPlan(i - 1, Normalized(net), net.useDropout)
    ensures ReadyFrom(net, i) <==> LayerReady(net, i) && ReadyFrom(net, i + 1)
    ensures HiddenLayer(net, col, i, s).Success? ==>
      && Traced(net, col, x, HiddenLayer(net, col, i, s).value)
      && Plan(HiddenLayer(net, col, i, s).value.trace) == HiddenPlan(i, Normalized(net), net.useDropout)
  {
    ReadyFromStep(net, i);
    if HiddenLayer(net, col, i, s).Success? {
      HiddenLayerSteps(net, col, x, i, s);
    }
  }

  /** The final affine layer completes the plan. */
  lemma OutputLayerSteps(net: Net, col: Collaborators, x: Shape, s: ForwardState)
    requires net.numLayers >= 1
    requires Traced(net, col, x, s)
    requires Plan(s.trace) == HiddenPlan(net.numLayers - 1, Normalized(net), net.useDropout)
    ensures AffineLayer(net, col, net.numLayers, s).Success? <==> OutputReady(net)
    ensures AffineLayer(net, col, net.numLayers, s).Failure? ==> Explained(net, AffineLayer(net, col, net.numLayers, s).error)
    ensures AffineLayer(net, col, net.numLayers, s).Success? ==>
      var r := AffineLayer(net, col, net.numLayers, s).value;
      && Traced(net, col, x, r)
      && Plan(r.trace) == ForwardPlan(net.numLayers, Normalized(net), net.useDropout)
  {
    if AffineLayer(net, col, net.numLayers, s).Success? {
      AffineSteps(net, col, x, net.numLayers, s);
    }
  }

  /** `Runnable` is exactly what the loop needs to get through. */
  lemma RunnableReady(net: Net)
    requires net.numLayers >= 1
    ensures Runnable(net) <==> ReadyFrom(net, 1) && OutputReady(net)
  {
    var L, normalized := net.numLayers, Normalized(net);
    if ReadyFrom(net, 1) && OutputReady(net) {
      forall key | InLayout(key, L, normalized)
        ensures key in net.params
      {
        if key.layer < L {
          assert LayerReady(net, key.layer);
        }
      }
      if normalized && L >= 2 {
        assert LayerReady(net, L - 1);
      }
    }
    if Runnable(net) {
      forall k | 1 <= k < L
        ensures LayerReady(net, k)
      {
        assert InLayout(ParamKey(W, k), L, normalized) && InLayout(ParamKey(B, k), L, normalized);
        assert normalized ==> InLayout(ParamKey(Gamma, k), L, normalized) && InLayout(ParamKey(Beta, k), L, normalized);
      }
      assert InLayout(ParamKey(W, L), L, normalized) && InLayout(ParamKey(B, L), L, normalized);
    }
  }

  /** The lookups of hidden layers i..L-1 succeed. */
  predicate ReadyFrom(net: Net, i: nat) {
    forall k :: i <= k < net.numLayers ==> LayerReady(net, k)
  }

  lemma ReadyFromStep(net: Net, i: nat)
    requires i < net.numLayers
    ensures ReadyFrom(net, i) <==> LayerReady(net, i) && ReadyFrom(net, i + 1)
  {
  }

  /** The lookups of the final affine layer succeed. */
  predicate OutputReady(net: Net) {
    ParamKey(W, net.numLayers) in net.params && ParamKey(B, net.numLayers) in net.params
  }

  // ---------------------------------------------------------------------------
  // What the forward pass is meant to do, stated independently of the loop.

  /** The calls of hidden layer `k`, in order. */
  function BlockPlan(k: nat, normalized: bool, dropout: bool): seq<Call> {
    FrontPlan(k, normalized) + TailPlan(k, dropout)
  }

  /** affine, then norm when it is on. */
  function FrontPlan(k: nat, normalized: bool): seq<Call> {
    [Call(AffineOp, k)] + (if normalized then [Call(NormOp, k)] else [])
  }

  /** relu, then dropout when it is on. */
  function TailPlan(k: nat, dropout: bool): seq<Call> {
    [Call(ReluOp, k)] + (if dropout then [Call(DropoutOp, k)] else [])
  }

  /** The calls of hidden layers 1..m. */
  function HiddenPlan(m: nat, normalized: bool, dropout: bool): seq<Call> {
    if m == 0 then [] else HiddenPlan(m - 1, normalized, dropout) + BlockPlan(m, normalized, dropout)
  }

  /** The architecture {affine - [norm] - relu - [dropout]} x (L - 1) - affine. */
  function ForwardPlan(numLayers: nat, normalized: bool, dropout: bool): seq<Call>
    requires numLayers >= 1
  {
    HiddenPlan(numLayers - 1, normalized, dropout) + [Call(AffineOp, numLayers)]
  }

  /** The calls a trace of forward or backward steps made, given how to read
      the call off one step. */
  function Calls<T>(trace: seq<T>, call: T -> Call): (r: seq<Call>)
    ensures |r| == |trace|
    ensures forall j :: 0 <= j < |trace| ==> r[j] == call(trace[j])
  {
    seq(|trace|, j requires 0 <= j < |trace| => call(trace[j]))
  }

  /** The calls a forward trace made. */
  function Plan(trace: seq<Step>): (r: seq<Call>)
    ensures |r| == |trace|
    ensures forall j :: 0 <= j < |trace| ==> r[j] == Call(trace[j].op, trace[j].layer)
  {
    Calls(trace, (st: Step) => Call(st.op, st.layer))
  }

  /** Number of `op` calls among hidden layers 1..m. */
  function HiddenCount(op: Op, m: nat, normalized: bool, dropout: bool): nat {
    match op
    case AffineOp => m
    case ReluOp => m
    case NormOp => if normalized then m else 0
    case DropoutOp => if dropout then m else 0
  }

  /** Length of `cache[op]` after the whole forward pass. */
  function CacheLength(op: Op, numLayers: nat, normalized: bool, dropout: bool): nat
    requires numLayers >= 1
  {
    HiddenCount(op, numLayers - 1, normalized, dropout) + (if op == AffineOp then 1 else 0)
  }

  /** The steps of kind `op`, in the order they ran. */
  function Select(trace: seq<Step>, op: Op): seq<Step> {
    if |trace| == 0 then []
    else Select(trace[..|trace| - 1], op) + (if trace[|trace| - 1].op == op then [trace[|trace| - 1]] else [])
  }

  /** The calls of kind `op`, in order. */
  function SelectCalls(calls: seq<Call>, op: Op): seq<Call> {
    if |calls| == 0 then []
    else SelectCalls(calls[..|calls| - 1], op) + (if calls[|calls| - 1].op == op then [calls[|calls| - 1]] else [])
  }

  function Tokens(steps: seq<Step>): (r: seq<CacheToken>)
    ensures |r| == |steps|
    ensures forall j :: 0 <= j < |steps| ==> r[j] == steps[j].token
  {
    seq(|steps|, j requires 0 <= j < |steps| => steps[j].token)
  }

  /** Step `st` is its collaborator applied to its input with the parameters
      and the context of its own layer: Wk and bk for affine layer k, gammak,
      betak and bn_params[k-1] for norm layer k, the shared dropout_param. */
  predicate Faithful(net: Net, col: Collaborators, st: Step) {
    1 <= st.layer &&
    match st.op
    case AffineOp =>
      && ParamKey(W, st.layer) in net.params && ParamKey(B, st.layer) in net.params
      && (st.output, st.token) == col.affineForward(st.input, net.params[ParamKey(W, st.layer)].shape, net.params[ParamKey(B, st.layer)].shape)
    case NormOp =>
      && ParamKey(Gamma, st.layer) in net.params && ParamKey(Beta, st.layer) in net.params
      && st.layer <= |net.bnParams|
      && (st.output, st.token) == NormForward(net, col)(st.input, net.params[ParamKey(Gamma, st.layer)].shape,
                                                         net.params[ParamKey(Beta, st.layer)].shape, net.bnParams[st.layer - 1])
    case ReluOp => (st.output, st.token) == col.reluForward(st.input)
    case DropoutOp => (st.output, st.token) == col.dropoutForward(st.input, net.dropoutParam)
  }

  /** The steps form a pipeline from `x` to `a`. */
  predicate Chained(x: Shape, trace: seq<Step>, a: Shape) {
    if |trace| == 0 then a == x
    else
      && trace[0].input == x
      && a == trace[|trace| - 1].output
      && forall j :: 0 < j < |trace| ==> trace[j].input == trace[j - 1].output
  }

  /** `cache[op]` holds the tokens of the `op` steps, in the order they ran. */
  predicate CachesHold(caches: Caches, trace: seq<Step>) {
    forall op :: CacheFor(caches, op) == Tokens(Select(trace, op))
  }

  /** The state is what the steps of its trace produced from `x`. */
  predicate Traced(net: Net, col: Collaborators, x: Shape, s: ForwardState) {
    && Chained(x, s.trace, s.activation)
    && (forall j :: 0 <= j < |s.trace| ==> Faithful(net, col, s.trace[j]))
    && CachesHold(s.caches, s.trace)
  }

  /** After the whole pass, `cache[op]` has one entry per layer that has an
      `op` call, and entry `n - 1` was made by layer `n`. */
  predicate CachesIndexed(net: Net, s: ForwardState)
    requires net.numLayers >= 1
  {
    forall op ::
      && |CacheFor(s.caches, op)| == CacheLength(op, net.numLayers, Normalized(net), net.useDropout)
      && |Select(s.trace, op)| == |CacheFor(s.caches, op)|
      && forall j :: 0 <= j < |Select(s.trace, op)| ==>
           Select(s.trace, op)[j].layer == j + 1 && CacheFor(s.caches, op)[j] == Select(s.trace, op)[j].token
  }

  /** The lookups of hidden layer `k` succeed. */
  predicate LayerReady(net: Net, k: nat) {
    && ParamKey(W, k) in net.params && ParamKey(B, k) in net.params
    && (Normalized(net) ==> ParamKey(Gamma, k) in net.params && ParamKey(Beta, k) in net.params && k <= |net.bnParams|)
  }

  /** Every lookup of the forward pass succeeds: all keys of the layout are
      present and, with normalization, there is a context per hidden layer. */
  predicate Runnable(net: Net) {
    && Layout(net.numLayers, Normalized(net)) <= net.params.Keys
    && (Normalized(net) ==> |net.bnParams| >= net.numLayers - 1)
  }

  /** An error the forward pass raises is a missing key the layout requires,
      or a missing normalization context. */
  predicate Explained(net: Net, e: LossError) {
    match e
    case KeyError(key) => key !in net.params && InLayout(key, net.numLayers, Normalized(net))
    case IndexError => Normalized(net) && |net.bnParams| < net.numLayers - 1
  }

  // ---------------------------------------------------------------------------
  // The forward pass meets that description.

  lemma SelectSnoc(trace: seq<Step>, st: Step, op: Op)
    ensures Select(trace + [st], op) == Select(trace, op) + (if st.op == op then [st] else [])
  {
    assert (trace + [st])[..|trace|] == trace;
  }

  lemma ChainedSnoc(x: Shape, trace: seq<Step>, a: Shape, st: Step)
    requires Chained(x, trace, a)
    requires st.input == a
    ensures Chained(x, trace + [st], st.output)
  {
    var t := trace + [st];
    forall j | 0 < j < |t|
      ensures t[j].input == t[j - 1].output
    {
      if j < |trace| {
        assert t[j] == trace[j] && t[j - 1] == trace[j - 1];
      }
    }
  }

  lemma CachesSnoc(caches: Caches, trace: seq<Step>, st: Step)
    requires CachesHold(caches, trace)
    ensures CachesHold(Push(caches, st.op, st.token), trace + [st])
  {
    forall o
      ensures CacheFor(Push(caches, st.op, st.token), o) == Tokens(Select(trace + [st], o))
    {
      CacheSnocAt(caches, trace, st, o);
    }
  }

  lemma CacheSnocAt(caches: Caches, trace: seq<Step>, st: Step, o: Op)
    requires CacheFor(caches, o) == Tokens(Select(trace, o))
    ensures CacheFor(Push(caches, st.op, st.token), o) == Tokens(Select(trace + [st], o))
  {
    var last := if st.op == o then [st] else [];
    SelectSnoc(trace, st, o);
    TokensAppend(Select(trace, o), last);
    assert Tokens(last) == (if st.op == o then [st.token] else []);
  }

  lemma TokensAppend(a: seq<Step>, b: seq<Step>)
    ensures Tokens(a + b) == Tokens(a) + Tokens(b)
  {
  }

  /** `r` is `s` followed by `calls`, all recorded faithfully. */
  predicate Extends(net: Net, col: Collaborators, x: Shape, s: ForwardState, r: ForwardState, calls: seq<Call>) {
    && Traced(net, col, x, r)
    && Plan(r.trace) == Plan(s.trace) + calls
  }

  /** Recording a faithful call extends the trace by that call. */
  lemma RecordExtends(net: Net, col: Collaborators, x: Shape, s: ForwardState, op: Op, k: nat, out: (Shape, CacheToken))
    requires Traced(net, col, x, s)
    requires Faithful(net, col, Step(op, k, s.activation, out.0, out.1))
    ensures Extends(net, col, x, s, Record(s, op, k, out), [Call(op, k)])
  {
    var st := Step(op, k, s.activation, out.0, out.1);
    var r := Record(s, op, k, out);
    ChainedSnoc(x, s.trace, s.activation, st);
    CachesSnoc(s.caches, s.trace, st);
    forall j | 0 <= j < |r.trace|
      ensures Faithful(net, col, r.trace[j])
    {
      if j < |s.trace| {
        assert r.trace[j] == s.trace[j];
      }
    }
    assert Plan(r.trace) == Plan(s.trace) + [Call(op, k)];
  }

  lemma ExtendsTrans(net: Net, col: Collaborators, x: Shape, s: ForwardState, r1: ForwardState, r2: ForwardState, c1: seq<Call>, c2: seq<Call>)
    requires Extends(net, col, x, s, r1, c1)
    requires Extends(net, col, x, r1, r2, c2)
    ensures Extends(net, col, x, s, r2, c1 + c2)
  {
    assert Plan(s.trace) + c1 + c2 == Plan(s.trace) + (c1 + c2);
  }

  lemma AffineSteps(net: Net, col: Collaborators, x: Shape, k: nat, s: ForwardState)
    requires k >= 1
    requires Traced(net, col, x, s)
    requires AffineLayer(net, col, k, s).Success?
    ensures Extends(net, col, x, s, AffineLayer(net, col, k, s).value, [Call(AffineOp, k)])
  {
    var w, b := net.params[ParamKey(W, k)].shape, net.params[ParamKey(B, k)].shape;
    RecordExtends(net, col, x, s, AffineOp, k, col.affineForward(s.activation, w, b));
  }

  lemma NormSteps(net: Net, col: Collaborators, x: Shape, k: nat, s: ForwardState)
    requires k >= 1
    requires Traced(net, col, x, s)
    requires NormLayer(net, col, k, s).Success?
    ensures Extends(net, col, x, s, NormLayer(net, col, k, s).value, [Call(NormOp, k)])
  {
    var gamma, beta := net.params[ParamKey(Gamma, k)].shape, net.params[ParamKey(Beta, k)].shape;
    RecordExtends(net, col, x, s, NormOp, k, NormForward(net, col)(s.activation, gamma, beta, net.bnParams[k - 1]));
  }

  lemma ActivationSteps(net: Net, col: Collaborators, x: Shape, k: nat, s: ForwardState)
    requires k >= 1
    requires Traced(net, col, x, s)
    ensures Extends(net, col, x, s, ActivationLayers(net, col, k, s), TailPlan(k, net.useDropout))
  {
    var s1 := Record(s, ReluOp, k, col.reluForward(s.activation));
    RecordExtends(net, col, x, s, ReluOp, k, col.reluForward(s.activation));
    if net.useDropout {
      RecordExtends(net, col, x, s1, DropoutOp, k, col.dropoutForward(s1.activation, net.dropoutParam));
      ExtendsTrans(net, col, x, s, s1, ActivationLayers(net, col, k, s), [Call(ReluOp, k)], [Call(DropoutOp, k)]);
    } else {
      assert [Call(ReluOp, k)] + [] == [Call(ReluOp, k)];
    }
  }

  lemma FrontSteps(net: Net, col: Collaborators, x: Shape, k: nat, s: ForwardState)
    requires k >= 1
    requires Traced(net, col, x, s)
    requires FrontLayers(net, col, k, s).Success?
    ensures Extends(net, col, x, s, FrontLayers(net, col, k, s).value, FrontPlan(k, Normalized(net)))
  {
    var s1 := AffineLayer(net, col, k, s).value;
    AffineSteps(net, col, x, k, s);
    if Normalized(net) {
      NormSteps(net, col, x, k, s1);
      ExtendsTrans(net, col, x, s, s1, NormLayer(net, col, k, s1).value, [Call(AffineOp, k)], [Call(NormOp, k)]);
    } else {
      assert FrontPlan(k, false) == [Call(AffineOp, k)];
    }
  }

  /** A successful hidden layer `k` appends its block of calls. */
  lemma HiddenLayerSteps(net: Net, col: Collaborators, x: Shape, k: nat, s: ForwardState)
    requires 1 <= k < net.numLayers
    requires Traced(net, col, x, s)
    requires HiddenLayer(net, col, k, s).Success?
    ensures Extends(net, col, x, s, HiddenLayer(net, col, k, s).value, BlockPlan(k, Normalized(net), net.useDropout))
  {
    HiddenLayerParts(net, col, k, s);
    var s2 := FrontLayers(net, col, k, s).value;
    FrontSteps(net, col, x, k, s);
    ActivationSteps(net, col, x, k, s2);
    ExtendsTrans(net, col, x, s, s2, ActivationLayers(net, col, k, s2), FrontPlan(k, Normalized(net)), TailPlan(k, net.useDropout));
  }

  /** A hidden layer is its front part followed by its activation part. */
  lemma HiddenLayerParts(net: Net, col: Collaborators, k: nat, s: ForwardState)
    requires 1 <= k < net.numLayers
    requires HiddenLayer(net, col, k, s).Success?
    ensures FrontLayers(net, col, k, s).Success?
    ensures HiddenLayer(net, col, k, s).value == ActivationLayers(net, col, k, FrontLayers(net, col, k, s).value)
  {
  }

  // ---------------------------------------------------------------------------
  // Reading the cache indices off the plan.

  /** The calls `(op, 1), (op, 2), ..., (op, c)`. */
  function Numbered(op: Op, c: nat): (r: seq<Call>)
    ensures |r| == c
    ensures forall j :: 0 <= j < c ==> r[j] == Call(op, j + 1)
  {
    seq(c, j requires 0 <= j < c => Call(op, j + 1))
  }

  lemma {:induction false} SelectPlan(trace: seq<Step>, op: Op)
    ensures Plan(Select(trace, op)) == SelectCalls(Plan(trace), op)
  {
    if |trace| > 0 {
      var t := trace[..|trace| - 1];
      SelectPlan(t, op);
      assert Plan(trace)[..|trace| - 1] == Plan(t);
      var last := if trace[|trace| - 1].op == op then [trace[|trace| - 1]] else [];
      assert Plan(Select(t, op) + last) == Plan(Select(t, op)) + Plan(last);
    }
  }

  lemma {:induction false} SelectCallsAppend(c1: seq<Call>, c2: seq<Call>, op: Op)
    ensures SelectCalls(c1 + c2, op) == SelectCalls(c1, op) + SelectCalls(c2, op)
    decreases |c2|
  {
    if |c2| == 0 {
      assert c1 + c2 == c1;
    } else {
      assert (c1 + c2)[..|c1 + c2| - 1] == c1 + c2[..|c2| - 1];
      SelectCallsAppend(c1, c2[..|c2| - 1], op);
    }
  }

  lemma BlockSelect(k: nat, normalized: bool, dropout: bool, op: Op)
    ensures SelectCalls(BlockPlan(k, normalized, dropout), op) ==
      (if HiddenCount(op, 1, normalized, dropout) == 1 then [Call(op, k)] else [])
  {
    var a, n := [Call(AffineOp, k)], (if normalized then [Call(NormOp, k)] else []);
    var r, d := [Call(ReluOp, k)], (if dropout then [Call(DropoutOp, k)] else []);
    SelectCallsAppend(a + n, r + d, op);
    SelectCallsAppend(a, n, op);
    SelectCallsAppend(r, d, op);
    assert a[..0] == [] && r[..0] == [];
    assert normalized ==> n[..0] == [];
    assert dropout ==> d[..0] == [];
  }

  lemma {:induction false} HiddenSelect(m: nat, normalized: bool, dropout: bool, op: Op)
    ensures SelectCalls(HiddenPlan(m, normalized, dropout), op) == Numbered(op, HiddenCount(op, m, normalized, dropout))
  {
    if m > 0 {
      HiddenSelect(m - 1, normalized, dropout, op);
      SelectCallsAppend(HiddenPlan(m - 1, normalized, dropout), BlockPlan(m, normalized, dropout), op);
      BlockSelect(m, normalized, dropout, op);
      var c := HiddenCount(op, m - 1, normalized, dropout);
      var block := if HiddenCount(op, 1, normalized, dropout) == 1 then [Call(op, m)] else [];
      assert SelectCalls(HiddenPlan(m, normalized, dropout), op) == Numbered(op, c) + block;
      HiddenCountStep(op, m, normalized, dropout);
      if HiddenCount(op, 1, normalized, dropout) == 1 {
        NumberedGrows(op, c);
      } else {
        assert Numbered(op, c) + block == Numbered(op, c);
      }
    }
  }

  /** Layer m adds one `op` call exactly when each hidden layer makes one; the
      earlier layers then made m - 1. */
  lemma HiddenCountStep(op: Op, m: nat, normalized: bool, dropout: bool)
    requires m >= 1
    ensures HiddenCount(op, m, normalized, dropout) == HiddenCount(op, m - 1, normalized, dropout) + HiddenCount(op, 1, normalized, dropout)
    ensures HiddenCount(op, 1, normalized, dropout) == 1 ==> HiddenCount(op, m - 1, normalized, dropout) == m - 1
    ensures HiddenCount(op, 1, normalized, dropout) == 0 || HiddenCount(op, 1, normalized, dropout) == 1
  {
  }

  lemma NumberedGrows(op: Op, c: nat)
    ensures Numbered(op, c) + [Call(op, c + 1)] == Numbered(op, c + 1)
  {
  }

  lemma ForwardSelect(numLayers: nat, normalized: bool, dropout: bool, op: Op)
    requires numLayers >= 1
    ensures SelectCalls(ForwardPlan(numLayers, normalized, dropout), op) == Numbered(op, CacheLength(op, numLayers, normalized, dropout))
  {
    var last := [Call(AffineOp, numLayers)];
    HiddenSelect(numLayers - 1, normalized, dropout, op);
    SelectCallsAppend(HiddenPlan(numLayers - 1, normalized, dropout), last, op);
    assert last[..0] == [];
  }

  /** A faithful trace of the whole plan fills the caches layer by layer. */
  lemma ForwardCaches(net: Net, col: Collaborators, x: Shape, s: ForwardState)
    requires net.numLayers >= 1
    requires Traced(net, col, x, s)
    requires Plan(s.trace) == ForwardPlan(net.numLayers, Normalized(net), net.useDropout)
    ensures CachesIndexed(net, s)
  {
    forall op
      ensures |CacheFor(s.caches, op)| == CacheLength(op, net.numLayers, Normalized(net), net.useDropout)
      ensures |Select(s.trace, op)| == |CacheFor(s.caches, op)|
      ensures forall j :: 0 <= j < |Select(s.trace, op)| ==>
        Select(s.trace, op)[j].layer == j + 1 && CacheFor(s.caches, op)[j] == Select(s.trace, op)[j].token
    {
      SelectPlan(s.trace, op);
      ForwardSelect(net.numLayers, Normalized(net), net.useDropout, op);
      var sel := Select(s.trace, op);
      forall j | 0 <= j < |sel|
        ensures sel[j].layer == j + 1
      {
        assert Plan(sel)[j] == Call(op, j + 1);
      }
    }
  }
}
