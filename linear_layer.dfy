/** LinearLayer: a dense layer with an optional batch normalization after it,
    whose dense part is materialised lazily, once, by `build`. */
module Linear {
  import opened Tensors

  /** The constructor arguments of a LinearLayer (the layer name is not modelled). */
  datatype LayerConfig = LayerConfig(numClasses: DimSpec, useBias: bool, useBn: bool)

  /** The configuration of the built `tf.keras.layers.Dense` sub-layer. */
  datatype Dense = Dense(units: nat, useBias: bool)

  /** The configuration of the `BatchNormRelu` sub-layer. */
  datatype BatchNormRelu = BatchNormRelu(relu: bool, center: bool)

  /** The bias policy of the dense sub-layer: batch normalization takes over the shift. */
  function DenseUsesBias(cfg: LayerConfig): (r: bool)
    ensures cfg.useBn ==> !r
    ensures !cfg.useBn ==> r == cfg.useBias
  {
    cfg.useBias && !cfg.useBn
  }

  /** The batch-normalization sub-layer the constructor creates, if any. */
  function BatchNormFor(cfg: LayerConfig): (r: Option<BatchNormRelu>)
    ensures r.Some? <==> cfg.useBn
    ensures r.Some? ==> !r.value.relu && r.value.center == cfg.useBias
  {
    if cfg.useBn then Some(BatchNormRelu(relu := false, center := cfg.useBias)) else None
  }

  /** With `use_bias` set, exactly one of the two sub-layers adds a learned shift;
      without it, neither does. */
  lemma ShiftAppliedOnce(cfg: LayerConfig)
    ensures var bnShift := BatchNormFor(cfg).Some? && BatchNormFor(cfg).value.center;
      && (cfg.useBias <==> DenseUsesBias(cfg) || bnShift)
      && !(DenseUsesBias(cfg) && bnShift)
  {
  }

  /** The number of outputs a fresh build for inputs with `f` features gives. */
  function OutFeatures(spec: DimSpec, f: nat): nat
  {
    match spec
    case Fixed(n) => n
    case FromInputFeatures => f
  }

  /** The dense sub-layer `build` creates for a rank-2 input with `f` features. */
  function DenseFor(cfg: LayerConfig, f: nat): Dense
  {
    Dense(OutFeatures(cfg.numClasses, f), DenseUsesBias(cfg))
  }

  /** A dense sub-layer that `build` could have created for this configuration. */
  predicate DenseFits(cfg: LayerConfig, d: Dense)
  {
    d.useBias == DenseUsesBias(cfg) && (cfg.numClasses.Fixed? ==> d.units == cfg.numClasses.n)
  }

  /** The dense sub-layer `build(input_shape)` creates, or the error resolving its size raises. */
  function Built(cfg: LayerConfig, inputShape: Shape): (r: Result<Dense>)
    ensures r.Ok? ==> DenseFits(cfg, r.value)
    ensures r.Ok? <==> cfg.numClasses.Fixed? || |inputShape| > 0
    ensures |inputShape| == 2 ==> r == Ok(DenseFor(cfg, inputShape[1]))
  {
    match Resolve(cfg.numClasses, inputShape)
    case Ok(n) => Ok(Dense(n, DenseUsesBias(cfg)))
    case Err(e) => Err(e)
  }

  /** The dense sub-layer applied to a batch of feature vectors. */
  function ApplyDense(d: Dense, x: Tensor): (r: Tensor)
    requires |x.shape| == 2
    ensures r.shape == [x.shape[0], d.units]
    ensures r.payload.Affine? && r.payload.arg == x.payload
  {
    Tensor([x.shape[0], d.units], Affine(x.payload, d.units, d.useBias))
  }

  /** The batch-normalization sub-layer: it keeps the shape. */
  function Normalize(bn: BatchNormRelu, x: Tensor): (r: Tensor)
    ensures r.shape == x.shape
    ensures r.payload.Normalized? && r.payload.arg == x.payload
  {
    Tensor(x.shape, Normalized(x.payload, bn.center))
  }

  /** LinearLayer.call on a built layer: the rank-2 check, the dense layer, then the
      batch normalization when there is one. */
  function Forward(bn: Option<BatchNormRelu>, d: Dense, x: Tensor): (r: Result<Tensor>)
    ensures r.Ok? <==> |x.shape| == 2
    ensures r.Err? ==> r.error == RankMismatch(x.shape)
    ensures r.Ok? ==> r.value.shape == [x.shape[0], d.units]
    ensures r.Ok? && bn.None? ==> r.value == ApplyDense(d, x)
    ensures r.Ok? && bn.Some? ==> r.value.payload.Normalized? && r.value.payload.arg == ApplyDense(d, x).payload
  {
    if |x.shape| != 2 then Err(RankMismatch(x.shape))
    else
      var y := ApplyDense(d, x);
      if bn.Some? then Ok(Normalize(bn.value, y)) else Ok(y)
  }

  /** What one invocation `layer(x)` does: the new dense sub-layer and the output. */
  datatype Step = Step(dense: Option<Dense>, out: Result<Tensor>)

  /** `layer(x)` through the Keras layer protocol: `build(x.shape)` runs only while the
      layer is unbuilt, then `call(x)`. */
  function Invocation(cfg: LayerConfig, state: Option<Dense>, x: Tensor): (s: Step)
    ensures state.Some? ==> s.dense == state
    ensures state.None? && (cfg.numClasses.Fixed? || |x.shape| > 0) ==> s.dense.Some?
    ensures state.None? && |x.shape| == 2 ==> s.dense == Some(DenseFor(cfg, x.shape[1]))
    ensures (state.Some? ==> DenseFits(cfg, state.value)) ==> (s.dense.Some? ==> DenseFits(cfg, s.dense.value))
    ensures s.out.Ok? <==> |x.shape| == 2
    ensures s.out.Ok? ==> s.dense.Some? && s.out.value.shape == [x.shape[0], s.dense.value.units]
  {
    var built := if state.Some? then Ok(state.value) else Built(cfg, x.shape);
    match built
    case Err(e) => Step(state, Err(e))
    case Ok(d) => Step(Some(d), Forward(BatchNormFor(cfg), d, x))
  }

  class LinearLayer {
    const config: LayerConfig
    const bnRelu: Option<BatchNormRelu>
    var dense: Option<Dense>

    ghost predicate Valid()
      reads this
    {
      bnRelu == BatchNormFor(config) && (dense.Some? ==> DenseFits(config, dense.value))
    }

    constructor (numClasses: DimSpec, useBias: bool, useBn: bool)
      ensures config == LayerConfig(numClasses, useBias, useBn)
      ensures bnRelu == BatchNormFor(config)
      ensures dense == None
      ensures Valid()
    {
      config := LayerConfig(numClasses, useBias, useBn);
      bnRelu := if useBn then Some(BatchNormRelu(relu := false, center := useBias)) else None;
      dense := None;
    }

    /** `build(input_shape)`: resolve the output dimension and create the dense sub-layer. */
    method Build(inputShape: Shape) returns (o: Outcome)
      requires Valid()
      modifies this
      ensures Valid()
      ensures Built(config, inputShape).Ok? ==> o == Pass && dense == Some(Built(config, inputShape).value)
      ensures Built(config, inputShape).Err? ==> o == Fail(Built(config, inputShape).error) && dense == old(dense)
    {
      var n: nat;
      match config.numClasses {
        case Fixed(k) =>
          n := k;
        case FromInputFeatures =>
          var i := PyIndex(-1, |inputShape|);
          if i.Err? {
            return Fail(i.error);
          }
          n := inputShape[i.value];
      }
      dense := Some(Dense(n, config.useBias && !config.useBn));
      o := Pass;
    }

    /** `call(inputs)`: only meaningful once `build` has created the dense sub-layer. */
    method Call(inputs: Tensor) returns (r: Result<Tensor>)
      requires dense.Some?
      ensures r == Forward(bnRelu, dense.value, inputs)
      ensures r.Ok? <==> |inputs.shape| == 2
      ensures r.Ok? ==> r.value.shape == [inputs.shape[0], dense.value.units]
    {
      if |inputs.shape| != 2 {
        return Err(RankMismatch(inputs.shape));
      }
      var d := dense.value;
      r := Ok(Tensor([inputs.shape[0], d.units], Affine(inputs.payload, d.units, d.useBias)));
      if bnRelu.Some? {
        r := Ok(Tensor(r.value.shape, Normalized(r.value.payload, bnRelu.value.center)));
      }
    }

    /** `layer(inputs)`: build on the first invocation only, then call. */
    method Invoke(inputs: Tensor) returns (r: Result<Tensor>)
      requires Valid()
      modifies this
      ensures Valid()
      ensures Step(dense, r) == Invocation(config, old(dense), inputs)
    {
      if dense.None? {
        var o := Build(inputs.shape);
        if o.Fail? {
          return Err(o.error);
        }
      }
      r := Call(inputs);
    }
  }
}
