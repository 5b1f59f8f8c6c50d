# FullyConnectedNet, at the level of shapes and keys

This project models the bookkeeping of `FullyConnectedNet` from the CS231n
assignment 2 code: a fully connected network with an arbitrary number of
hidden layers, optional batch or layer normalization and optional dropout,
whose architecture is

    {affine - [batch/layer norm] - relu - [dropout]} x (L - 1) - affine - softmax

The numeric work (matrix products, normalization statistics, the softmax) is
done by layer primitives in `layers.py` and is not modelled. What is modelled
is everything the class itself decides:

- the constructor: which entries `W1..WL`, `b1..bL`, `gamma1..gamma(L-1)`,
  `beta1..beta(L-1)` the parameter store gets, with which shapes and fills,
  and what `dropout_param` and `bn_params` hold;
- `loss`: the train/test mode and where it is written; the order of the
  forward calls; which parameters and which context each call receives; the
  four cache lists; the early return of the scores at test time; the order of
  the backward calls and the cache entry each one consumes; the keys of
  `grads` and which of them carry the weight-decay term; and which weights
  enter the L2 penalty.

Modules:

- `ParamKeys` (`param_keys.dfy`): structured parameter keys, the strings the
  source builds for them, and the key layout of a network.
- `NetState` (`net_state.dfy`): the network object's attributes. Arrays are
  reduced to a shape and a fill (normal draw, zeros or ones).
- `NetInit` (`net_init.dfy`): the constructor.
- `Layers` (`layers.dfy`): the layer primitives, as arbitrary functions
  passed in as parameters. Cache objects are opaque tokens.
- `ForwardPass` (`net_forward.dfy`): the forward pass. A run is recorded as
  a trace of steps, and each step is checked against a reference plan.
- `BackwardPass` (`net_backward.dfy`): the backward pass, recorded the same
  way.
- `NetLoss` (`net_loss.dfy`): `loss` itself.
- `NetProperties` (`net_properties.dfy`): theorems that connect the modules.
- `Wrappers` (`wrappers.dfy`): `Option` and `Result`.

Python exceptions are modelled as values. `loss` returns `Failure(KeyError(key))`
when it looks up a parameter that is missing. It returns `Failure(IndexError)`
when it indexes past the end of `bn_params`. The constructor returns
`Failure(EmptyHiddenDims)` for an empty `hidden_dims`; Python raises
IndexError there.

Two behaviours of the code are worth spelling out, because the class's
docstring (fc_net.py:45-46) only lists "batchnorm", "layernorm" and None as
valid normalizations:

- The constructor does not reject any other normalization string. It creates
  the scale and shift parameters, because it only tests
  `normalization != None` (fc_net.py:79, 87). It leaves `bn_params` empty,
  because it fills them only for "batchnorm" and "layernorm"
  (fc_net.py:114-118). So every later call of `loss` raises IndexError at the
  first norm layer, fc_net.py:184 (`NetProperties.UnknownNormalizationFails`).
- An empty `hidden_dims` raises IndexError at fc_net.py:78, where
  `hidden_dims[0]` is read.

## Model

| member | source | states |
|---|---|---|
| ParamKeys.KeyNameInjective | assignment2/cs231n/classifiers/fc_net.py:78-93 | the string keys "W"+str(n), "b"+str(n), "gamma"+str(n), "beta"+str(n) never collide for distinct (kind, layer) pairs, so structured keys lose nothing |
| ParamKeys.DecimalRoundTrip | assignment2/cs231n/classifiers/fc_net.py:85 | reading back the decimal string of a layer number gives that number |
| ParamKeys.LayoutCardinality | assignment2/cs231n/classifiers/fc_net.py:77-93 | a network with L layers has 2L parameter entries, plus 2(L-1) with normalization |
| NetInit.FirstLayer | assignment2/cs231n/classifiers/fc_net.py:77-82 | the first block creates exactly W1 (input_dim x h1, normal), b1 (zeros) and, with normalization, gamma1 (ones) and beta1 (zeros) |
| NetInit.AddHiddenLayer | assignment2/cs231n/classifiers/fc_net.py:85-90 | one loop round adds exactly the keys of layer i+1, with the widths of hidden_dims[i-1] and hidden_dims[i], and keeps every earlier entry |
| NetInit.HiddenLoop | assignment2/cs231n/classifiers/fc_net.py:83-91 | the loop ends with i == len(hidden_dims), has added exactly the keys of layers 2..len(hidden_dims), and keeps the entries it started with |
| NetInit.InitParams | assignment2/cs231n/classifiers/fc_net.py:77-93 | the parameter store is built if and only if hidden_dims is non-empty; its keys are then exactly the layout and each entry has its expected shape and fill |
| NetInit.DropoutParam | assignment2/cs231n/classifiers/fc_net.py:103-107 | dropout_param is empty unless the keep ratio differs from 1; then it holds the train mode, the keep ratio and the seed if one was given |
| NetInit.BnParams | assignment2/cs231n/classifiers/fc_net.py:114-118 | one context per hidden layer, in train mode, for "batchnorm"; one empty context per hidden layer for "layernorm"; none for anything else |
| NetInit.NewNet | assignment2/cs231n/classifiers/fc_net.py:56-118 | construction succeeds if and only if hidden_dims is non-empty, and then sets the layer count to 1 + len(hidden_dims), dropout on iff the keep ratio is not 1, the laid-out parameters and both contexts |
| NetInit.ShapesChain | assignment2/cs231n/classifiers/fc_net.py:78-93 | W1 takes the input width, the last W produces num_classes scores, each Wk's column count is the next W's row count, and every bias, scale and shift has its layer's width |
| NetInit.ParamCount | assignment2/cs231n/classifiers/fc_net.py:77-93 | a constructed store has 2(len(hidden_dims)+1) entries, plus 2 len(hidden_dims) with normalization |
| ForwardPass.Lookup | assignment2/cs231n/classifiers/fc_net.py:193 | a parameter lookup succeeds exactly when the key is present and fails with KeyError of that key otherwise |
| ForwardPass.Push | assignment2/cs231n/classifiers/fc_net.py:194 | appending a cache object extends the list of its kind by that object and leaves the other three lists alone |
| ForwardPass.HiddenLayer | assignment2/cs231n/classifiers/fc_net.py:193-202 | a hidden block succeeds exactly when Wk, bk and, with normalization, gammak, betak and bn_params[k-1] exist; a failure is a missing layout key or a missing context |
| ForwardPass.HiddenLayerSteps | assignment2/cs231n/classifiers/fc_net.py:193-202 | a successful hidden block appends affine, [norm], relu, [dropout] for its layer, each step faithful to its collaborator and its own layer's parameters |
| ForwardPass.ForwardLoop | assignment2/cs231n/classifiers/fc_net.py:191-205 | the loop and the final affine layer succeed exactly when the remaining lookups succeed, and then complete the reference plan with a faithful, chained trace |
| ForwardPass.Forward | assignment2/cs231n/classifiers/fc_net.py:167-206 | the forward pass succeeds iff every layout key and, with normalization, a context per hidden layer exist; it then follows the reference architecture exactly, the scores are the output of affine layer L, and cache[op][n-1] was made by layer n |
| ForwardPass.RunnableReady | assignment2/cs231n/classifiers/fc_net.py:181-205 | all forward lookups succeed exactly when the whole layout is present and there are at least L-1 contexts with normalization |
| ForwardPass.ForwardCaches | assignment2/cs231n/classifiers/fc_net.py:175-205 | after the whole pass each cache list has one entry per layer that applies its operation, in layer order, holding that layer's cache object |
| BackwardPass.AffineBackSteps | assignment2/cs231n/classifiers/fc_net.py:252-255 | affine_backward on cache['affine'][n-1] writes exactly Wn (with the weight-decay term of Wn) and bn, and adds Wn to the penalty |
| BackwardPass.NormBackSteps | assignment2/cs231n/classifiers/fc_net.py:248-251 | the norm backward on cache['norm'][n-1] writes exactly gamma n and beta n, neither regularized, and adds nothing to the penalty |
| BackwardPass.HiddenBackSteps | assignment2/cs231n/classifiers/fc_net.py:243-255 | one loop round undoes [dropout], relu, [norm], affine of layer n, in that order, writes exactly that layer's gradient keys and squares Wn once |
| BackwardPass.BackwardLoop | assignment2/cs231n/classifiers/fc_net.py:242-255 | the loop over layers L-1..1 completes the gradient key set to the whole layout, squares W(L-1)..W1 in that order and visits the hidden blocks in reverse |
| BackwardPass.Backward | assignment2/cs231n/classifiers/fc_net.py:233-255 | the backward pass makes the forward calls in exactly reverse order, each consuming the cache entry of its own layer; grads has exactly the layout's keys, only the W entries carry weight decay, and W L..W1 are squared once each |
| BackwardPass.BlockReversed | assignment2/cs231n/classifiers/fc_net.py:245-252 | the backward calls of a hidden layer are its forward calls in reverse |
| NetLoss.ModeOf | assignment2/cs231n/classifiers/fc_net.py:143 | the mode is test exactly when no labels are given |
| NetLoss.SetMode | assignment2/cs231n/classifiers/fc_net.py:147-151 | the mode is written into dropout_param only with dropout on, and into every bn_param only for "batchnorm"; nothing else of the network changes |
| NetLoss.Loss | assignment2/cs231n/classifiers/fc_net.py:142-263 | loss writes the mode, succeeds iff the network is runnable, returns the scores at test time, and at training time returns exactly the gradients the backward pass computes from the forward caches and the softmax's dout, with the layout's keys and weight decay on the W entries only, and the loss of the softmax plus 0.5·reg times the squares of W L..W1 |
| NetProperties.ConstructedNetRuns | assignment2/cs231n/classifiers/fc_net.py:138-139 | for every network built with None, "batchnorm" or "layernorm", loss succeeds in both modes and grads has the same keys as params |
| NetProperties.UnknownNormalizationFails | assignment2/cs231n/classifiers/fc_net.py:114-118 | a network built with any other normalization string has no contexts, and loss always fails with IndexError |
| NetProperties.BackwardConsumesForwardCaches | assignment2/cs231n/classifiers/fc_net.py:235-254 | every backward call consumes the cache object made by the forward call of the same kind and layer |
| NetProperties.EachWeightSquaredOnce | assignment2/cs231n/classifiers/fc_net.py:240-255 | weights_squared includes each of W1..WL exactly once and nothing else |
| NetProperties.SetModeIdempotent | assignment2/cs231n/classifiers/fc_net.py:147-151 | writing the same mode twice is writing it once |
| NetProperties.LaterModeWins | assignment2/cs231n/classifiers/fc_net.py:147-151 | a later call's mode replaces an earlier call's mode |
| NetProperties.OneHiddenLayerExample | assignment2/cs231n/classifiers/fc_net.py:77-93 | hidden_dims [50], input 15, 10 classes, no normalization: keys "W1", "b1", "W2", "b2", W1 is 15x50, W2 is 50x10, no contexts |
| NetProperties.OneHiddenLayerBatchNormExample | assignment2/cs231n/classifiers/fc_net.py:77-118 | the same with "batchnorm" adds "gamma1" (ones of width 50) and "beta1", and one context in train mode |

## Left out

- Numeric values. Arrays are reduced to their shapes and to how they were
  filled. The random draw of the weights, `weight_scale`, `dtype` and the
  casts at fc_net.py:121-122 and fc_net.py:142 are not modelled.
- The layer primitives and `softmax_loss`. They live in `layers.py`, which is
  not part of this model. Each is an arbitrary function of the right arity.
  Their own exceptions (for instance on mismatched shapes) are not modelled.
  Neither are the running statistics `batchnorm_forward` keeps in its context.
- The floating-point arithmetic of the loss, of `dw + reg * W` and of the
  penalty. A gradient entry records the collaborator's array and which
  weight's decay term is added. The loss records the data loss, the penalty
  coefficient `0.5 * reg` and the list of weights whose squares are summed.
- The default arguments of the constructor (`input_dim=3*32*32`,
  `num_classes=10`, `dropout_keep_ratio=1`, `normalization=None`, `reg=0.0`,
  `seed=None`). `NetInit.NewNet` takes every argument explicitly.
- Randomness. The layer primitives are deterministic functions, so the random
  dropout masks and the random weight draw are not modelled. A drawn weight is
  only tagged as a normal draw.
- NetLoss.Loss: requires at least two layers. The constructor guarantees
  this. With one layer the source would run its unrolled first block and then
  look up `W2`, which the model does not cover.
- BackwardPass.Backward: requires the cache lists to have the lengths the
  forward pass leaves. `loss` only runs it after a successful forward pass.
  The lookups of `self.params['Wn']` in the backward pass cannot fail there,
  because the forward pass made them already.
- The softmax classifier file `softmax.py` is context for the terminal loss
  only. It is not modelled.
