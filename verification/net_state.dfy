/** The state a `FullyConnectedNet` object keeps between calls, at shape level:
    every numeric array is reduced to its shape and to how it was filled. */
module NetState {
  import opened ParamKeys

  /** The shape of a numeric array, e.g. [N, D]. */
  type Shape = seq<nat>

  /** How the constructor filled an array: a normal draw, zeros or ones. */
  datatype Fill = Normal | Zeros | Ones

  /** One entry of the parameter store. */
  datatype Param = Param(shape: Shape, fill: Fill)

  /** The "train"/"test" flag handed to the dropout and batchnorm layers. */
  datatype Mode = Train | Test

  /** A value stored in `dropout_param` or in one of the `bn_params`. */
  datatype Value = ModeValue(mode: Mode) | RealValue(r: real) | IntValue(i: int)

  /** `dropout_param` and every element of `bn_params`: a string-keyed dictionary. */
  type Config = map<string, Value>

  /** The `normalization` argument: Python's None, or any string. */
  datatype Normalization = NoNormalization | Named(name: string)

  /** The key under which the train/test mode is stored in a context. */
  const ModeKey: string := "mode"

  const BatchNorm: string := "batchnorm"
  const LayerNorm: string := "layernorm"

  /** The attributes of a network object that `loss` reads or writes. */
  datatype Net = Net(
    normalization: Normalization,
    useDropout: bool,
    reg: real,
    numLayers: nat,
    params: map<ParamKey, Param>,
    dropoutParam: Config,
    bnParams: seq<Config>)

  /** `self.normalization != None`: the test the source uses to decide whether
      normalization layers and their parameters exist. */
  predicate Normalized(net: Net) {
    net.normalization.Named?
  }
}
