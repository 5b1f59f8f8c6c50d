/** The layer primitives `FullyConnectedNet.loss` calls (`affine_forward`,
    `relu_backward`, `softmax_loss`, ...).  They live in `layers.py`, which is
    not part of this model, so each is an arbitrary function of the right
    arity: it maps the shapes it is given, and the cache object it gets back
    from a forward call, to the shapes (and cache object) it returns. */
module Layers {
  import opened NetState

  /** An opaque handle on what a forward layer caches for its backward pass. */
  datatype CacheToken = CacheToken(id: nat)

  datatype Collaborators = Collaborators(
    affineForward: (Shape, Shape, Shape) -> (Shape, CacheToken),
    batchnormForward: (Shape, Shape, Shape, Config) -> (Shape, CacheToken),
    layernormForward: (Shape, Shape, Shape, Config) -> (Shape, CacheToken),
    reluForward: Shape -> (Shape, CacheToken),
    dropoutForward: (Shape, Config) -> (Shape, CacheToken),
    softmaxLoss: (Shape, Shape) -> (real, Shape),
    affineBackward: (Shape, CacheToken) -> (Shape, Shape, Shape),
    batchnormBackwardAlt: (Shape, CacheToken) -> (Shape, Shape, Shape),
    layernormBackward: (Shape, CacheToken) -> (Shape, Shape, Shape),
    reluBackward: (Shape, CacheToken) -> Shape,
    dropoutBackward: (Shape, CacheToken) -> Shape)
}
