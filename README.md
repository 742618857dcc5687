# SSL model heads: configuration and shape model

This project models the three Keras layers of `self_supervised/models/model.py`:

- `LinearLayer`: a dense layer, optionally followed by batch normalization.
- `ProjectionHead`: the SimCLR projection head. It has three modes (`none`, `linear`, `nonlinear`). It also exposes one intermediate tensor for fine-tuning.
- `SupervisedHead`: one default `LinearLayer` sized to the number of classes.

The model keeps only configuration and shapes. A tensor is a shape (`seq<nat>`) plus a symbolic payload, the chain of layer applications that produced it. The payload lets the model state identity ("returns the input itself") and selection ("the selected element of `hiddens_list`") without any numbers.

The state the source changes in place is modelled with classes:

- `LinearLayer.dense` starts as `None`. `build` sets it. It is kept in `Linear.LinearLayer.dense`.
- `ProjectionHead.__init__` fills `linear_layers` in a loop. `ProjectionHead.call` grows `hiddens_list` in a loop. Both are `while` loops in `Projection.ProjectionHead`.

Each method is proved against a pure function of the old state:

- `Linear.Invocation` specifies one `layer(x)` under Keras's layer protocol: `build(x.shape)` runs only while the layer is unbuilt, then `call(x)` runs.
- `Projection.ChainFrom` specifies the `nonlinear` loop.
- `Projection.HeadCall` specifies the whole call.

The lemmas state what the source promises about those functions.

Modules: `Tensors` (errors, shapes, Python indexing, dimension resolution), `Linear`, `Projection`, `Supervised`.

Behaviour of the code that the model keeps as written:

- `linear` mode returns `None` (self_supervised/models/model.py:104), although the comment at :116-117 and the `nonlinear` path return a pair (see Findings).
- `none` mode returns only the input (:100), not a pair.
- An out-of-range `ft_proj_selector` is not rejected up front. The nonlinear chain runs first (building its layers) and then the Python index at :119 raises `IndexError`. Negative selectors index from the end, as Python does.

## Model

| member | source | states |
|---|---|---|
| `Tensors.PyIndex` | self_supervised/models/model.py:119 | Python list indexing: defined exactly for `-len <= k < len`; non-negative indices are themselves, negative ones count from the end; otherwise IndexError |
| `Tensors.Resolve` | self_supervised/models/model.py:35-38 | a fixed `num_classes` is used as is; the resolver gives the last entry of the input shape, and fails exactly on an empty shape |
| `Tensors.Relu` | self_supervised/models/model.py:111 | ReLU preserves the shape and yields a new tensor |
| `Linear.DenseUsesBias` | self_supervised/models/model.py:42 | with batch norm the dense layer never has a bias; without it the dense bias equals `use_bias` |
| `Linear.BatchNormFor` | self_supervised/models/model.py:30-31 | a batch-norm sub-layer exists exactly when `use_bn`, with `relu=False` and `center == use_bias` |
| `Linear.ShiftAppliedOnce` | self_supervised/models/model.py:23-24 | `use_bias` holds iff a learned shift is applied by the dense layer or by batch norm, and never by both |
| `Linear.Built` | self_supervised/models/model.py:34-42 | the dense layer `build` creates obeys the bias policy and a fixed size; it exists unless the resolver meets an empty shape; for a `[b, f]` input it has the resolved width |
| `Linear.ApplyDense` | self_supervised/models/model.py:47 | the dense layer maps `[b, f]` to `[b, units]` and consumes its input |
| `Linear.Normalize` | self_supervised/models/model.py:48-49 | batch normalization keeps the shape |
| `Linear.Forward` | self_supervised/models/model.py:45-50 | `call` succeeds exactly on rank-2 inputs (else the assertion fails), maps `[b, f]` to `[b, units]`, and normalizes exactly when there is a batch-norm sub-layer |
| `Linear.Invocation` | self_supervised/models/model.py:32-50 | a built layer is never rebuilt; an unbuilt one is built whenever its size resolves, for a `[b, f]` input as `DenseFor(cfg, f)`; the output exists exactly for rank-2 inputs and has the built width |
| `Linear.LinearLayer.constructor` | self_supervised/models/model.py:9-32 | stores the flags, creates batch norm per the policy, leaves `dense` as `None` |
| `Linear.LinearLayer.Build` | self_supervised/models/model.py:34-43 | sets `dense` to the built dense layer, or raises and leaves `dense` unchanged |
| `Linear.LinearLayer.Call` | self_supervised/models/model.py:45-50 | on a built layer: the result is `Forward`, rank-2 exactly when it succeeds, `[b, units]` wide |
| `Linear.LinearLayer.Invoke` | self_supervised/models/model.py:34-50 | build on the first invocation only, then call; new `dense` and result as `Invocation` gives them |
| `Projection.ParseMode` | self_supervised/models/model.py:68-95 | exactly `none`, `linear`, `nonlinear` are accepted, each named by its mode; anything else is ValueError naming the string |
| `Projection.ParseModeName` | self_supervised/models/model.py:68-75 | parsing a mode's name gives the mode back |
| `Projection.HeadLayers` | self_supervised/models/model.py:64-92 | `none`: no layers; `linear`: one `proj_out_dim` layer without bias with batch norm; `nonlinear`: `max(N, 0)` layers, all but the last input-wide with bias and batch norm, the last `proj_out_dim` wide without bias with batch norm |
| `Projection.HeadLayersNormalize` | self_supervised/models/model.py:70-92 | no head layer's dense part has a bias, all normalize, and batch norm centers exactly in the middle layers |
| `Projection.ChainFrom` | self_supervised/models/model.py:107-112 | the loop never touches earlier layers, only appends to `hiddens_list`, and appends one tensor per remaining layer when nothing raises |
| `Projection.ChainFromShapes` | self_supervised/models/model.py:107-112 | on `[b, f]` with layers built for `f`: no failure, all layers built for `f`, middle tensors `[b, f]`, the last as wide as the last layer |
| `Projection.HeadCall` | self_supervised/models/model.py:98-119 | `none` returns the input and builds nothing; `linear` never returns a tensor |
| `Projection.LinearModeReturnsNothing` | self_supervised/models/model.py:102-105 | `linear` mode on a rank-2 input builds its layer as `proj_out_dim` wide without bias and returns `None` |
| `Projection.ChainFromSteps` | self_supervised/models/model.py:107-112 | on `[b, f]` with layers built for `f`: layer `i` reads `hiddens_list[i]`, the latest tensor, and `hiddens_list[i + 1]` is its output, rectified exactly unless it is the last layer |
| `Projection.NonlinearModeComposition` | self_supervised/models/model.py:101-112 | `nonlinear` on `[b, f]`: each `hiddens_list[k + 1]` is layer `k` (built for `f`) applied to `hiddens_list[k]`, and it is a ReLU output exactly when `k < N - 1` |
| `Projection.NonlinearModeShapes` | self_supervised/models/model.py:101-119 | `nonlinear` on `[b, f]`: `hiddens_list` has `N + 1` tensors, starts with the input, middle ones `[b, f]`, last `[b, proj_out_dim]` for `N >= 1`; the result is `(last, hiddens_list[selector])` exactly for `-(N+1) <= selector <= N`, IndexError otherwise |
| `Projection.NonRank2Rejected` | self_supervised/models/model.py:98-112 | a `linear` or `nonlinear` head with a layer raises on any non rank-2 input |
| `Projection.IntendedHeadCall` | self_supervised/models/model.py:102-119 | the corrected call changes the layers as the code does and agrees with it outside `linear` mode; in `linear` mode it succeeds exactly on a rank-2 input with selector in `-2..1`, returning the layer's output as projection (`[b, units]` wide) and the input (selector 0 or -2) or the projection (1 or -1) for fine-tuning |
| `Projection.IntendedLinearModeOutput` | self_supervised/models/model.py:116-119 | the corrected `linear` mode returns a `[b, proj_out_dim]` projection and the input or the projection as selected, IndexError outside `-2..1` |
| `Projection.LinearModeDropsProjection` | self_supervised/models/model.py:104-105 | on a `[8, 4]` input the code returns `None` where the corrected call returns a pair |
| `Projection.ProjectionHead.Create` | self_supervised/models/model.py:55-95 | an unknown mode raises ValueError naming it; a valid one yields a fresh, consistent head with the given settings and unbuilt fresh layers |
| `Projection.ProjectionHead.constructor` | self_supervised/models/model.py:64-92 | the loop leaves `linear_layers` with the configurations of `HeadLayers`, distinct, fresh and unbuilt |
| `Projection.ProjectionHead.InvokeLayer` | self_supervised/models/model.py:108 | invoking layer `j` changes only layer `j`'s dense sub-layer, as `Invocation` says |
| `Projection.ProjectionHead.Call` | self_supervised/models/model.py:98-119 | the new dense sub-layers and the result are those of `HeadCall` on the old ones |
| `Supervised.SupervisedLayer` | self_supervised/models/model.py:131 | the wrapped layer is `num_classes` wide, its dense part has a bias and there is no batch norm |
| `Supervised.SupervisedLogits` | self_supervised/models/model.py:133-136 | on `[b, f]` the layer is built as `num_classes` wide with bias and yields `[b, num_classes]` logits straight from the dense layer |
| `Supervised.SupervisedHead.constructor` | self_supervised/models/model.py:124-131 | one fresh unbuilt default layer of `num_classes` |
| `Supervised.SupervisedHead.Call` | self_supervised/models/model.py:133-136 | the wrapped layer's invocation; `[b, num_classes]` for rank-2 inputs, the rank assertion otherwise |

## Left out

- Numeric tensor content is left out: the dense matrix product, the `RandomNormal(stddev=0.01)` kernel initializer, batch-norm statistics and train/inference behaviour (the `training` flag), and ReLU's values. Dense, batch norm and ReLU act only on shapes and the symbolic payload.
- `tf.identity` and its names (lines 101, 118, 135) are left out. It returns a tensor with its input's shape and contents, so the model uses the input tensor itself.
- The layer names (`linear_layer`, `l_0`, `nl_%d`, `head_supervised`), `**kwargs`, and `super().__init__`/`super().build` are Keras plumbing and are left out. The only Keras behaviour kept is the build-once-then-call protocol (`Linear.Invocation`).
- `resnet.BatchNormRelu` comes from `self_supervised/models/resent_model.py`, which is not part of this model. It is an opaque, shape-preserving sub-layer that records `relu` and `center`.
- The dense sub-layer's own kernel shape and input-compatibility check belong to Keras and are not modelled. Feeding a built layer a different feature width raises inside Keras. The model instead keeps the width that was resolved at the first build.
- Shapes have known dimensions (`nat`). Unknown (`None`) dimensions and `int()` of them are left out. So is Keras's own check of `units`. `proj_out_dim` and `num_classes` are naturals.
- The `num_classes` callable is the closed datatype `DimSpec`, which has only the one resolver the core uses. Arbitrary Python closures are not modelled.
- `Linear.LinearLayer.Call`: requires that `build` has run. Calling `call` directly on an unbuilt layer is a Python `TypeError` (calling `None`), and that is not modelled. Every call in the core goes through `Invoke`, which builds first.
- `Projection.ProjectionHead.Call`: the mode is a constant of the head. So `call`'s own ValueError branch (lines 113-115) cannot be reached, and reassigning `proj_head_mode` after construction is not modelled.
- Two heads sharing one `LinearLayer` object is not modelled. Each head creates and owns its layers.
- Concurrency, device placement and serialization are outside the core.

## Findings

| source | as written | input that shows it | evidently intended | confidence | as-written member | corrected member |
|---|---|---|---|---|---|---|
| self_supervised/models/model.py:104-105 | `linear` mode returns the value of `hiddens_list.append(...)`, which is `None` | a `[8, 4]` input, `proj_out_dim` 3, selector 0, unbuilt layer | append the projection, then return `(hiddens_list[-1], hiddens_list[ft_proj_selector])` as lines 116-119 do | not executed | `Projection.LinearModeDropsProjection` | `Projection.IntendedLinearModeOutput` |

`Projection.ProjectionHead.Call` and `Projection.HeadCall` keep the behaviour as written, because that is what the code does. `Projection.IntendedHeadCall` is the corrected definition. Nothing else in the core consumes the head's result.
