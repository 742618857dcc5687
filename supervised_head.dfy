/** SupervisedHead: one LinearLayer with the default flags, sized to the class count. */
module Supervised {
  import opened Tensors
  import opened Linear

  /** `LinearLayer(num_classes)` with the defaults `use_bias=True`, `use_bn=False`:
      the dense layer has its bias and there is no batch normalization. */
  function SupervisedLayer(numClasses: nat): (cfg: LayerConfig)
    ensures cfg.numClasses == Fixed(numClasses)
    ensures DenseUsesBias(cfg)
    ensures BatchNormFor(cfg) == None
  {
    LayerConfig(Fixed(numClasses), true, false)
  }

  /** On a `[b, f]` batch the head yields `[b, num_classes]` logits straight from the
      dense layer, whether or not it was built before. */
  lemma SupervisedLogits(numClasses: nat, state: Option<Dense>, x: Tensor)
    requires |x.shape| == 2
    requires state.Some? ==> DenseFits(SupervisedLayer(numClasses), state.value)
    ensures var step := Invocation(SupervisedLayer(numClasses), state, x);
      && step.dense == Some(Dense(numClasses, true))
      && step.out == Ok(Tensor([x.shape[0], numClasses], Affine(x.payload, numClasses, true)))
  {
  }

  class SupervisedHead {
    const numClasses: nat
    const linearLayer: LinearLayer

    ghost predicate Valid()
      reads this, linearLayer
    {
      linearLayer.config == SupervisedLayer(numClasses) && linearLayer.Valid()
    }

    constructor (numClasses: nat)
      ensures this.numClasses == numClasses
      ensures fresh(linearLayer) && linearLayer.dense == None
      ensures Valid()
    {
      this.numClasses := numClasses;
      linearLayer := new LinearLayer(Fixed(numClasses), true, false);
    }

    /** `call(inputs)`: the logits of the wrapped layer. */
    method Call(inputs: Tensor) returns (r: Result<Tensor>)
      requires Valid()
      modifies linearLayer
      ensures Valid()
      ensures Step(linearLayer.dense, r) == Invocation(SupervisedLayer(numClasses), old(linearLayer.dense), inputs)
      ensures |inputs.shape| == 2 ==> r.Ok? && r.value.shape == [inputs.shape[0], numClasses]
      ensures |inputs.shape| != 2 ==> r == Err(RankMismatch(inputs.shape))
    {
      r := linearLayer.Invoke(inputs);
      if |inputs.shape| == 2 {
        SupervisedLogits(numClasses, old(linearLayer.dense), inputs);
      }
    }
  }
}
