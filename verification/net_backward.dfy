/** The backward pass of `FullyConnectedNet.loss`: which layer each backward
    call undoes, which cache entry it consumes, which gradient entries it
    writes, and which weights enter the L2 penalty. */
module BackwardPass {
  import opened Wrappers
  import opened ParamKeys
  import opened NetState
  import opened Layers
  import opened ForwardPass

  /** An entry of `grads`: the array a backward collaborator returned, plus
      `reg` times the weight `decay` names when there is one. */
  datatype Grad = Grad(raw: Shape, decay: Option<ParamKey>)

  /** One backward call as it happened: the upstream gradient it received, the
      cache object it consumed, and what it returned (dx, and for the affine
      and norm layers the two parameter gradients; relu and dropout return
      only dx, and the model pads their result with empty shapes). */
  datatype BackStep = BackStep(op: Op, layer: nat, token: CacheToken, upstream: Shape, result: (Shape, Shape, Shape))

  /** The running `dx`, `grads`, the weights whose squares were added to
      `weights_squared` (in order), and the calls made so far. */
  datatype BackState = BackState(dx: Shape, grads: map<ParamKey, Grad>, squared: seq<ParamKey>, trace: seq<BackStep>)

  /** `batchnorm_backward_alt`, unless the normalization is "layernorm". */
  function NormBackward(net: Net, col: Collaborators): (Shape, CacheToken) -> (Shape, Shape, Shape) {
    if net.normalization == Named(LayerNorm) then col.layernormBackward else col.batchnormBackwardAlt
  }

  /** The lengths the forward pass leaves the four cache lists with. */
  predicate CachesFit(net: Net, caches: Caches)
    requires net.numLayers >= 1
  {
    forall op :: |CacheFor(caches, op)| == CacheLength(op, net.numLayers, Normalized(net), net.useDropout)
  }

  /** The cache lists are long enough for one round of the loop on layer `n`. */
  predicate HiddenFits(net: Net, caches: Caches, n: nat) {
    && 1 <= n <= |caches.affine| && n <= |caches.relu|
    && (net.useDropout ==> n <= |caches.dropout|)
    && (Normalized(net) ==> n <= |caches.norm|)
  }

  lemma FitsHidden(net: Net, caches: Caches, n: nat)
    requires 1 <= n < net.numLayers
    requires CachesFit(net, caches)
    ensures HiddenFits(net, caches, n)
  {
    assert |CacheFor(caches, AffineOp)| == net.numLayers;
    assert |CacheFor(caches, ReluOp)| == net.numLayers - 1;
    assert net.useDropout ==> |CacheFor(caches, DropoutOp)| == net.numLayers - 1;
    assert Normalized(net) ==> |CacheFor(caches, NormOp)| == net.numLayers - 1;
  }

  /** `affine_backward` on `cache['affine'][n - 1]`: writes the gradients of
      Wn (with the weight-decay term) and bn, and adds Wn to the penalty. */
  function AffineBack(col: Collaborators, caches: Caches, n: nat, s: BackState): BackState
    requires 1 <= n <= |caches.affine|
  {
    var token := caches.affine[n - 1];
    var out := col.affineBackward(s.dx, token);
    BackState(out.0,
              s.grads[ParamKey(W, n) := Grad(out.1, Some(ParamKey(W, n)))][ParamKey(B, n) := Grad(out.2, None)],
              s.squared + [ParamKey(W, n)],
              s.trace + [BackStep(AffineOp, n, token, s.dx, out)])
  }

  /** `norm_backward` on `cache['norm'][n - 1]`: writes the gradients of
      gamma n and beta n, which are not regularized. */
  function NormBack(net: Net, col: Collaborators, caches: Caches, n: nat, s: BackState): BackState
    requires 1 <= n <= |caches.norm|
  {
    var token := caches.norm[n - 1];
    var out := NormBackward(net, col)(s.dx, token);
    BackState(out.0,
              s.grads[ParamKey(Gamma, n) := Grad(out.1, None)][ParamKey(Beta, n) := Grad(out.2, None)],
              s.squared,
              s.trace + [BackStep(NormOp, n, token, s.dx, out)])
  }

  function ReluBack(col: Collaborators, caches: Caches, n: nat, s: BackState): BackState
    requires 1 <= n <= |caches.relu|
  {
    var token := caches.relu[n - 1];
    var dx := col.reluBackward(s.dx, token);
    BackState(dx, s.grads, s.squared, s.trace + [BackStep(ReluOp, n, token, s.dx, (dx, [], []))])
  }

  function DropoutBack(col: Collaborators, caches: Caches, n: nat, s: BackState): BackState
    requires 1 <= n <= |caches.dropout|
  {
    var token := caches.dropout[n - 1];
    var dx := col.dropoutBackward(s.dx, token);
    BackState(dx, s.grads, s.squared, s.trace + [BackStep(DropoutOp, n, token, s.dx, (dx, [], []))])
  }

  /** Undo dropout when it is on, then relu. */
  function ActivationBack(net: Net, col: Collaborators, caches: Caches, n: nat, s: BackState): BackState
    requires HiddenFits(net, caches, n)
  {
    var s := if net.useDropout then DropoutBack(col, caches, n, s) else s;
    ReluBack(col, caches, n, s)
  }

  /** Undo the norm layer when it is on, then the affine layer. */
  function ParamBack(net: Net, col: Collaborators, caches: Caches, n: nat, s: BackState): BackState
    requires HiddenFits(net, caches, n)
  {
    var s := if Normalized(net) then NormBack(net, col, caches, n, s) else s;
    AffineBack(col, caches, n, s)
  }

  /** One round of the backward loop, for hidden layer `n`. */
  function HiddenBack(net: Net, col: Collaborators, caches: Caches, n: nat, s: BackState): BackState
    requires HiddenFits(net, caches, n)
  {
    ParamBack(net, col, caches, n, ActivationBack(net, col, caches, n, s))
  }

  /** The backward loop over hidden layers m, m-1, ..., 1. The state `s` is the
      one after layers L..m+1. */
  function BackwardLoop(net: Net, col: Collaborators, caches: Caches, dout: Shape, m: nat, s: BackState): (r: BackState)
    requires m < net.numLayers
    requires CachesFit(net, caches)
    requires BackTraced(net, col, caches, dout, s)
    requires forall key :: key in s.grads <==> InLayout(key, net.numLayers, Normalized(net)) && key.layer > m
    requires Decayed(s.grads)
    ensures BackTraced(net, col, caches, dout, r)
    ensures forall key :: key in r.grads <==> InLayout(key, net.numLayers, Normalized(net))
    ensures Decayed(r.grads)
    ensures r.squared == s.squared + Countdown(m)
    ensures BackPlan(r.trace) == BackPlan(s.trace) + Reverse(HiddenPlan(m, Normalized(net), net.useDropout))
    decreases m
  {
    if m == 0 then s
    else
      BackLoopStep(net, col, caches, dout, m, s);
      var s' := HiddenBack(net, col, caches, m, s);
      BackwardLoop(net, col, caches, dout, m - 1, s')
  }

  /** One round of the loop keeps the loop's invariant, one layer further down. */
  lemma BackLoopStep(net: Net, col: Collaborators, caches: Caches, dout: Shape, m: nat, s: BackState)
    requires 1 <= m < net.numLayers
    requires CachesFit(net, caches)
    requires BackTraced(net, col, caches, dout, s)
    requires forall key :: key in s.grads <==> InLayout(key, net.numLayers, Normalized(net)) && key.layer > m
    requires Decayed(s.grads)
    ensures HiddenFits(net, caches, m)
    ensures var s' := HiddenBack(net, col, caches, m, s);
      && BackTraced(net, col, caches, dout, s')
      && (forall key :: key in s'.grads <==> InLayout(key, net.numLayers, Normalized(net)) && key.layer > m - 1)
      && Decayed(s'.grads)
      && s'.squared + Countdown(m - 1) == s.squared + Countdown(m)
      && BackPlan(s'.trace) + Reverse(HiddenPlan(m - 1, Normalized(net), net.useDropout)) ==
         BackPlan(s.trace) + Reverse(HiddenPlan(m, Normalized(net), net.useDropout))
  {
    FitsHidden(net, caches, m);
    var s' := HiddenBack(net, col, caches, m, s);
    HiddenBackSteps(net, col, caches, dout, m, s);
    LoopKeys(net, m, s.grads, s'.grads);
    LoopSequences(m, Normalized(net), net.useDropout, s.squared, s'.squared, BackPlan(s.trace), BackPlan(s'.trace));
  }

  /** The penalty list and the plan after one round, continued by the rest of
      the loop, are those of the whole loop. */
  lemma LoopSequences(m: nat, normalized: bool, dropout: bool, squared: seq<ParamKey>, squared': seq<ParamKey>,
                      plan: seq<Call>, plan': seq<Call>)
    requires m >= 1
    requires squared' == squared + [ParamKey(W, m)]
    requires plan' == plan + BackBlockPlan(m, normalized, dropout)
    ensures squared' + Countdown(m - 1) == squared + Countdown(m)
    ensures plan' + Reverse(HiddenPlan(m - 1, normalized, dropout)) == plan + Reverse(HiddenPlan(m, normalized, dropout))
  {
    ReverseAppend(HiddenPlan(m - 1, normalized, dropout), BlockPlan(m, normalized, dropout));
    BlockReversed(m, normalized, dropout);
    assert squared + [ParamKey(W, m)] + Countdown(m - 1) == squared + ([ParamKey(W, m)] + Countdown(m - 1));
  }

  /** The backward pass: the output affine layer, then the loop over the
      hidden layers, starting from the gradient `dout` of the data loss. */
  function Backward(net: Net, col: Collaborators, caches: Caches, dout: Shape): (r: BackState)
    requires net.numLayers >= 1
    requires CachesFit(net, caches)
    ensures BackTraced(net, col, caches, dout, r)
    ensures r.grads.Keys == Layout(net.numLayers, Normalized(net))
    ensures Decayed(r.grads)
    ensures r.squared == Countdown(net.numLayers)
    ensures BackPlan(r.trace) == Reverse(ForwardPlan(net.numLayers, Normalized(net), net.useDropout))
  {
    BackwardSteps(net, col, caches, dout);
    var s1 := AffineBack(col, caches, net.numLayers, BackState(dout, map[], [], []));
    BackwardLoop(net, col, caches, dout, net.numLayers - 1, s1)
  }

  /** The output layer establishes the loop's invariant, and the loop then
      finishes the backward pass. */
  lemma BackwardSteps(net: Net, col: Collaborators, caches: Caches, dout: Shape)
    requires net.numLayers >= 1
    requires CachesFit(net, caches)
    ensures |caches.affine| == net.numLayers
    ensures var s1 := AffineBack(col, caches, net.numLayers, BackState(dout, map[], [], []));
      && BackTraced(net, col, caches, dout, s1)
      && (forall key :: key in s1.grads <==> InLayout(key, net.numLayers, Normalized(net)) && key.layer > net.numLayers - 1)
      && Decayed(s1.grads)
      && var r := BackwardLoop(net, col, caches, dout, net.numLayers - 1, s1);
         && r.grads.Keys == Layout(net.numLayers, Normalized(net))
         && r.squared == Countdown(net.numLayers)
         && BackPlan(r.trace) == Reverse(ForwardPlan(net.numLayers, Normalized(net), net.useDropout))
  {
    var L := net.numLayers;
    var s0 := BackState(dout, map[], [], []);
    OutputBackSteps(net, col, caches, dout, s0);
    var s1 := AffineBack(col, caches, L, s0);
    var r := BackwardLoop(net, col, caches, dout, L - 1, s1);
    BackwardCloses(net, s1.squared, BackPlan(s1.trace), r.grads, r.squared, BackPlan(r.trace));
  }

  /** The output layer followed by the loop covers the whole plan, every weight
      and every key of the layout. */
  lemma BackwardCloses(net: Net, squared1: seq<ParamKey>, plan1: seq<Call>,
                       grads: map<ParamKey, Grad>, squared: seq<ParamKey>, plan: seq<Call>)
    requires net.numLayers >= 1
    requires squared1 == [ParamKey(W, net.numLayers)]
    requires plan1 == [Call(AffineOp, net.numLayers)]
    requires forall key :: key in grads <==> InLayout(key, net.numLayers, Normalized(net))
    requires squared == squared1 + Countdown(net.numLayers - 1)
    requires plan == plan1 + Reverse(HiddenPlan(net.numLayers - 1, Normalized(net), net.useDropout))
    ensures grads.Keys == Layout(net.numLayers, Normalized(net))
    ensures squared == Countdown(net.numLayers)
    ensures plan == Reverse(ForwardPlan(net.numLayers, Normalized(net), net.useDropout))
  {
    var L := net.numLayers;
    ReverseAppend(HiddenPlan(L - 1, Normalized(net), net.useDropout), [Call(AffineOp, L)]);
    assert Reverse([Call(AffineOp, L)]) == [Call(AffineOp, L)] by {
      assert [Call(AffineOp, L)][1..] == [];
    }
  }

  // ---------------------------------------------------------------------------
  // What the backward pass is meant to do.

  /** `calls` in reverse order. */
  function Reverse(calls: seq<Call>): (r: seq<Call>)
    ensures |r| == |calls|
  {
    if |calls| == 0 then [] else Reverse(calls[1..]) + [calls[0]]
  }

  /** The backward calls of hidden layer `k`: its forward block undone from the
      end. */
  function BackBlockPlan(k: nat, normalized: bool, dropout: bool): seq<Call> {
    BackTailPlan(k, dropout) + BackFrontPlan(k, normalized)
  }

  /** dropout when it is on, then relu. */
  function BackTailPlan(k: nat, dropout: bool): seq<Call> {
    (if dropout then [Call(DropoutOp, k)] else []) + [Call(ReluOp, k)]
  }

  /** norm when it is on, then affine. */
  function BackFrontPlan(k: nat, normalized: bool): seq<Call> {
    (if normalized then [Call(NormOp, k)] else []) + [Call(AffineOp, k)]
  }

  /** W L, W L-1, ..., W 1: the order in which the weights' squares are summed. */
  function Countdown(m: nat): seq<ParamKey> {
    if m == 0 then [] else [ParamKey(W, m)] + Countdown(m - 1)
  }

  /** The calls a backward trace made. */
  function BackPlan(trace: seq<BackStep>): (r: seq<Call>)
    ensures |r| == |trace|
    ensures forall j :: 0 <= j < |trace| ==> r[j] == Call(trace[j].op, trace[j].layer)
  {
    Calls(trace, (st: BackStep) => Call(st.op, st.layer))
  }

  /** The step consumed the cache entry its layer's forward call made:
      `cache[op][n - 1]` for layer n. */
  predicate FromCache(caches: Caches, st: BackStep) {
    1 <= st.layer <= |CacheFor(caches, st.op)| && st.token == CacheFor(caches, st.op)[st.layer - 1]
  }

  /** The step's result is its collaborator applied to its upstream gradient
      and its cache object. */
  predicate BackFaithful(net: Net, col: Collaborators, st: BackStep) {
    match st.op
    case AffineOp => st.result == col.affineBackward(st.upstream, st.token)
    case NormOp => st.result == NormBackward(net, col)(st.upstream, st.token)
    case ReluOp => st.result == (col.reluBackward(st.upstream, st.token), [], [])
    case DropoutOp => st.result == (col.dropoutBackward(st.upstream, st.token), [], [])
  }

  /** The gradients an affine or norm step returned are stored under the keys
      of its own layer. */
  predicate Recorded(grads: map<ParamKey, Grad>, st: BackStep) {
    match st.op
    case AffineOp =>
      && ParamKey(W, st.layer) in grads && grads[ParamKey(W, st.layer)] == Grad(st.result.1, Some(ParamKey(W, st.layer)))
      && ParamKey(B, st.layer) in grads && grads[ParamKey(B, st.layer)] == Grad(st.result.2, None)
    case NormOp =>
      && ParamKey(Gamma, st.layer) in grads && grads[ParamKey(Gamma, st.layer)] == Grad(st.result.1, None)
      && ParamKey(Beta, st.layer) in grads && grads[ParamKey(Beta, st.layer)] == Grad(st.result.2, None)
    case ReluOp => true
    case DropoutOp => true
  }

  /** `dx` flows from `dout` through the steps. */
  predicate BackChained(dout: Shape, trace: seq<BackStep>, dx: Shape) {
    if |trace| == 0 then dx == dout
    else
      && trace[0].upstream == dout
      && dx == trace[|trace| - 1].result.0
      && forall j :: 0 < j < |trace| ==> trace[j].upstream == trace[j - 1].result.0
  }

  predicate BackTraced(net: Net, col: Collaborators, caches: Caches, dout: Shape, s: BackState) {
    && BackChained(dout, s.trace, s.dx)
    && (forall j :: 0 <= j < |s.trace| ==> FromCache(caches, s.trace[j]) && BackFaithful(net, col, s.trace[j]))
    && (forall j :: 0 <= j < |s.trace| ==> Recorded(s.grads, s.trace[j]))
  }

  /** Exactly the weight gradients carry the weight-decay term, each of its
      own weight. */
  predicate Decayed(grads: map<ParamKey, Grad>) {
    forall key :: key in grads ==> grads[key].decay == (if key.kind == W then Some(key) else None)
  }

  /** The keys one round of the backward loop writes. */
  function BlockKeys(n: nat, normalized: bool): set<ParamKey> {
    {ParamKey(W, n), ParamKey(B, n)} + (if normalized then {ParamKey(Gamma, n), ParamKey(Beta, n)} else {})
  }

  // ---------------------------------------------------------------------------
  // The backward pass meets that description.

  /** `r` is `s` followed by `calls`, with the gradients of `s` kept. */
  predicate BackExtends(s: BackState, r: BackState, calls: seq<Call>) {
    && BackPlan(r.trace) == BackPlan(s.trace) + calls
    && s.grads.Items <= r.grads.Items
  }

  lemma BackRecordExtends(net: Net, col: Collaborators, caches: Caches, dout: Shape, s: BackState, r: BackState, st: BackStep)
    requires BackTraced(net, col, caches, dout, s)
    requires st.upstream == s.dx && r.dx == st.result.0 && r.trace == s.trace + [st]
    requires FromCache(caches, st) && BackFaithful(net, col, st) && Recorded(r.grads, st)
    requires forall key :: key in s.grads ==> key in r.grads && r.grads[key] == s.grads[key]
    ensures BackTraced(net, col, caches, dout, r)
    ensures BackExtends(s, r, [Call(st.op, st.layer)])
  {
    var t := r.trace;
    forall j | 0 < j < |t|
      ensures t[j].upstream == t[j - 1].result.0
    {
      if j < |s.trace| {
        assert t[j] == s.trace[j] && t[j - 1] == s.trace[j - 1];
      }
    }
    forall j | 0 <= j < |t|
      ensures FromCache(caches, t[j]) && BackFaithful(net, col, t[j]) && Recorded(r.grads, t[j])
    {
      if j < |s.trace| {
        assert t[j] == s.trace[j];
      }
    }
    assert BackPlan(r.trace) == BackPlan(s.trace) + [Call(st.op, st.layer)];
  }

  lemma BackExtendsTrans(s: BackState, r1: BackState, r2: BackState, c1: seq<Call>, c2: seq<Call>)
    requires BackExtends(s, r1, c1)
    requires BackExtends(r1, r2, c2)
    ensures BackExtends(s, r2, c1 + c2)
  {
    assert BackPlan(s.trace) + c1 + c2 == BackPlan(s.trace) + (c1 + c2);
  }

  lemma AffineBackSteps(net: Net, col: Collaborators, caches: Caches, dout: Shape, n: nat, s: BackState)
    requires 1 <= n <= |caches.affine|
    requires BackTraced(net, col, caches, dout, s)
    requires ParamKey(W, n) !in s.grads && ParamKey(B, n) !in s.grads
    ensures BackTraced(net, col, caches, dout, AffineBack(col, caches, n, s))
    ensures BackExtends(s, AffineBack(col, caches, n, s), [Call(AffineOp, n)])
    ensures AffineBack(col, caches, n, s).grads.Keys == s.grads.Keys + {ParamKey(W, n), ParamKey(B, n)}
    ensures AffineBack(col, caches, n, s).squared == s.squared + [ParamKey(W, n)]
    ensures Decayed(s.grads) ==> Decayed(AffineBack(col, caches, n, s).grads)
  {
    var r := AffineBack(col, caches, n, s);
    BackRecordExtends(net, col, caches, dout, s, r, r.trace[|r.trace| - 1]);
  }

  lemma NormBackSteps(net: Net, col: Collaborators, caches: Caches, dout: Shape, n: nat, s: BackState)
    requires 1 <= n <= |caches.norm|
    requires BackTraced(net, col, caches, dout, s)
    requires ParamKey(Gamma, n) !in s.grads && ParamKey(Beta, n) !in s.grads
    ensures BackTraced(net, col, caches, dout, NormBack(net, col, caches, n, s))
    ensures BackExtends(s, NormBack(net, col, caches, n, s), [Call(NormOp, n)])
    ensures NormBack(net, col, caches, n, s).grads.Keys == s.grads.Keys + {ParamKey(Gamma, n), ParamKey(Beta, n)}
    ensures NormBack(net, col, caches, n, s).squared == s.squared
    ensures Decayed(s.grads) ==> Decayed(NormBack(net, col, caches, n, s).grads)
  {
    var r := NormBack(net, col, caches, n, s);
    BackRecordExtends(net, col, caches, dout, s, r, r.trace[|r.trace| - 1]);
  }

  lemma ActivationBackSteps(net: Net, col: Collaborators, caches: Caches, dout: Shape, n: nat, s: BackState)
    requires HiddenFits(net, caches, n)
    requires BackTraced(net, col, caches, dout, s)
    ensures BackTraced(net, col, caches, dout, ActivationBack(net, col, caches, n, s))
    ensures BackExtends(s, ActivationBack(net, col, caches, n, s),
                        BackTailPlan(n, net.useDropout))
    ensures ActivationBack(net, col, caches, n, s).grads == s.grads
    ensures ActivationBack(net, col, caches, n, s).squared == s.squared
  {
    var s1 := if net.useDropout then DropoutBack(col, caches, n, s) else s;
    var r := ReluBack(col, caches, n, s1);
    if net.useDropout {
      BackRecordExtends(net, col, caches, dout, s, s1, s1.trace[|s1.trace| - 1]);
      BackRecordExtends(net, col, caches, dout, s1, r, r.trace[|r.trace| - 1]);
      BackExtendsTrans(s, s1, r, [Call(DropoutOp, n)], [Call(ReluOp, n)]);
    } else {
      BackRecordExtends(net, col, caches, dout, s, r, r.trace[|r.trace| - 1]);
      assert [] + [Call(ReluOp, n)] == [Call(ReluOp, n)];
    }
  }

  lemma ParamBackSteps(net: Net, col: Collaborators, caches: Caches, dout: Shape, n: nat, s: BackState)
    requires HiddenFits(net, caches, n)
    requires BackTraced(net, col, caches, dout, s)
    requires forall key :: key in s.grads ==> key.layer != n
    ensures var r := ParamBack(net, col, caches, n, s);
      && BackTraced(net, col, caches, dout, r)
      && BackExtends(s, r, BackFrontPlan(n, Normalized(net)))
      && r.grads.Keys == s.grads.Keys + BlockKeys(n, Normalized(net))
      && r.squared == s.squared + [ParamKey(W, n)]
      && (Decayed(s.grads) ==> Decayed(r.grads))
  {
    if Normalized(net) {
      NormAffineBackSteps(net, col, caches, dout, n, s);
    } else {
      AffineBackSteps(net, col, caches, dout, n, s);
      assert [] + [Call(AffineOp, n)] == [Call(AffineOp, n)];
    }
  }

  /** With normalization, the norm step and then the affine step. */
  lemma NormAffineBackSteps(net: Net, col: Collaborators, caches: Caches, dout: Shape, n: nat, s: BackState)
    requires HiddenFits(net, caches, n) && Normalized(net)
    requires BackTraced(net, col, caches, dout, s)
    requires forall key :: key in s.grads ==> key.layer != n
    ensures var s1 := NormBack(net, col, caches, n, s);
      var r := AffineBack(col, caches, n, s1);
      && BackTraced(net, col, caches, dout, r)
      && BackExtends(s, r, [Call(NormOp, n), Call(AffineOp, n)])
      && r.grads.Keys == s.grads.Keys + BlockKeys(n, true)
      && r.squared == s.squared + [ParamKey(W, n)]
      && (Decayed(s.grads) ==> Decayed(r.grads))
  {
    var s1 := NormBack(net, col, caches, n, s);
    var r := AffineBack(col, caches, n, s1);
    NormBackSteps(net, col, caches, dout, n, s);
    AffineBackSteps(net, col, caches, dout, n, s1);
    BackExtendsTrans(s, s1, r, [Call(NormOp, n)], [Call(AffineOp, n)]);
  }

  /** One round of the loop undoes hidden layer `n` in reverse and writes the
      gradients of exactly that layer's parameters. */
  lemma HiddenBackSteps(net: Net, col: Collaborators, caches: Caches, dout: Shape, n: nat, s: BackState)
    requires HiddenFits(net, caches, n)
    requires BackTraced(net, col, caches, dout, s)
    requires forall key :: key in s.grads ==> key.layer != n
    ensures BackTraced(net, col, caches, dout, HiddenBack(net, col, caches, n, s))
    ensures BackExtends(s, HiddenBack(net, col, caches, n, s), BackBlockPlan(n, Normalized(net), net.useDropout))
    ensures HiddenBack(net, col, caches, n, s).grads.Keys == s.grads.Keys + BlockKeys(n, Normalized(net))
    ensures HiddenBack(net, col, caches, n, s).squared == s.squared + [ParamKey(W, n)]
    ensures Decayed(s.grads) ==> Decayed(HiddenBack(net, col, caches, n, s).grads)
  {
    var s1 := ActivationBack(net, col, caches, n, s);
    ActivationBackSteps(net, col, caches, dout, n, s);
    ParamBackSteps(net, col, caches, dout, n, s1);
    BackExtendsTrans(s, s1, ParamBack(net, col, caches, n, s1),
                     (if net.useDropout then [Call(DropoutOp, n)] else []) + [Call(ReluOp, n)],
                     BackFrontPlan(n, Normalized(net)));
  }

  /** The output layer opens the backward pass. */
  lemma OutputBackSteps(net: Net, col: Collaborators, caches: Caches, dout: Shape, s0: BackState)
    requires net.numLayers >= 1
    requires CachesFit(net, caches)
    requires s0 == BackState(dout, map[], [], [])
    ensures |caches.affine| == net.numLayers
    ensures var s1 := AffineBack(col, caches, net.numLayers, s0);
      && BackTraced(net, col, caches, dout, s1)
      && (forall key :: key in s1.grads <==> InLayout(key, net.numLayers, Normalized(net)) && key.layer > net.numLayers - 1)
      && Decayed(s1.grads)
      && s1.squared == [ParamKey(W, net.numLayers)]
      && BackPlan(s1.trace) == [Call(AffineOp, net.numLayers)]
  {
    assert |CacheFor(caches, AffineOp)| == net.numLayers;
    AffineBackSteps(net, col, caches, dout, net.numLayers, s0);
  }

  /** The loop's key invariant carries over to the next round. */
  lemma LoopKeys(net: Net, m: nat, before: map<ParamKey, Grad>, after: map<ParamKey, Grad>)
    requires 1 <= m < net.numLayers
    requires forall key :: key in before <==> InLayout(key, net.numLayers, Normalized(net)) && key.layer > m
    requires after.Keys == before.Keys + BlockKeys(m, Normalized(net))
    ensures forall key :: key in after <==> InLayout(key, net.numLayers, Normalized(net)) && key.layer > m - 1
  {
  }

  lemma {:induction false} ReverseAppend(a: seq<Call>, b: seq<Call>)
    ensures Reverse(a + b) == Reverse(b) + Reverse(a)
  {
    if |a| == 0 {
      assert a + b == b;
    } else {
      assert (a + b)[1..] == a[1..] + b;
      ReverseAppend(a[1..], b);
    }
  }

  lemma BlockReversed(k: nat, normalized: bool, dropout: bool)
    ensures Reverse(BlockPlan(k, normalized, dropout)) == BackBlockPlan(k, normalized, dropout)
  {
    var a, n := [Call(AffineOp, k)], (if normalized then [Call(NormOp, k)] else []);
    var r, d := [Call(ReluOp, k)], (if dropout then [Call(DropoutOp, k)] else []);
    ReverseAppend(a + n, r + d);
    ReverseAppend(a, n);
    ReverseAppend(r, d);
    assert a[1..] == [] && r[1..] == [];
    assert normalized ==> n[1..] == [];
    assert dropout ==> d[1..] == [];
  }
}
