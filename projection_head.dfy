/** ProjectionHead: zero, one or a chain of LinearLayers selected by a mode string,
    which also exposes one intermediate tensor for fine-tuning. */
module Projection {
  import opened Tensors
  import opened Linear

  /** The three valid values of `proj_head_mode`. */
  datatype HeadMode = NoProjection | LinearProjection | NonlinearProjection

  function ModeName(m: HeadMode): string
  {
    match m
    case NoProjection => "none"
    case LinearProjection => "linear"
    case NonlinearProjection => "nonlinear"
  }

  /** The mode dispatch of the constructor; any other string raises ValueError. */
  function ParseMode(s: string): (r: Result<HeadMode>)
    ensures r.Ok? <==> s == "none" || s == "linear" || s == "nonlinear"
    ensures r.Ok? ==> ModeName(r.value) == s
    ensures r.Err? ==> r.error == UnknownMode(s)
  {
    if s == "none" then Ok(NoProjection)
    else if s == "linear" then Ok(LinearProjection)
    else if s == "nonlinear" then Ok(NonlinearProjection)
    else Err(UnknownMode(s))
  }

  lemma ParseModeName(m: HeadMode)
    ensures ParseMode(ModeName(m)) == Ok(m)
  {
  }

  /** A middle layer of the nonlinear chain: as wide as its input, with bias, with batch norm. */
  const HiddenLayer := LayerConfig(FromInputFeatures, true, true)

  /** The projecting layer: `proj_out_dim` wide, no bias, with batch norm. */
  function OutputLayer(projOutDim: nat): LayerConfig
  {
    LayerConfig(Fixed(projOutDim), false, true)
  }

  /** The layer the constructor's loop appends at position `j`. */
  function NonlinearLayerAt(j: int, numProjLayers: int, projOutDim: nat): LayerConfig
  {
    if j != numProjLayers - 1 then HiddenLayer else OutputLayer(projOutDim)
  }

  /** The configurations of `linear_layers` after construction. */
  function HeadLayers(mode: HeadMode, projOutDim: nat, numProjLayers: int): (r: seq<LayerConfig>)
    ensures mode.NoProjection? ==> r == []
    ensures mode.LinearProjection? ==> r == [OutputLayer(projOutDim)]
    ensures mode.NonlinearProjection? ==> |r| == if numProjLayers < 0 then 0 else numProjLayers
    ensures mode.NonlinearProjection? ==> forall j :: 0 <= j < |r| - 1 ==> r[j] == HiddenLayer
    ensures mode.NonlinearProjection? && |r| > 0 ==> r[|r| - 1] == OutputLayer(projOutDim)
  {
    match mode
    case NoProjection => []
    case LinearProjection => [OutputLayer(projOutDim)]
    case NonlinearProjection =>
      seq(if numProjLayers < 0 then 0 else numProjLayers, j => NonlinearLayerAt(j, numProjLayers, projOutDim))
  }

  /** No layer of a projection head has a dense bias; every one normalizes, and
      only the middle layers learn a shift in their batch normalization. */
  lemma HeadLayersNormalize(mode: HeadMode, projOutDim: nat, numProjLayers: int, j: nat)
    requires j < |HeadLayers(mode, projOutDim, numProjLayers)|
    ensures var cfg := HeadLayers(mode, projOutDim, numProjLayers)[j];
      && !DenseUsesBias(cfg)
      && BatchNormFor(cfg).Some?
      && (BatchNormFor(cfg).value.center <==> j < |HeadLayers(mode, projOutDim, numProjLayers)| - 1)
  {
  }

  /** Every built layer was built for inputs with `f` features. */
  predicate ReadyFor(cfgs: seq<LayerConfig>, states: seq<Option<Dense>>, f: nat)
  {
    |states| == |cfgs| && forall i :: 0 <= i < |cfgs| ==> states[i].None? || states[i] == Some(DenseFor(cfgs[i], f))
  }

  /** What the nonlinear loop leaves behind: the layers' dense sub-layers, `hiddens_list`,
      and the exception that stopped it, if any. */
  datatype ChainRun = ChainRun(states: seq<Option<Dense>>, hiddens: seq<Tensor>, failure: Outcome)

  /** Iterations `j..` of the nonlinear loop, given the dense sub-layers and `hiddens_list` so far. */
  function ChainFrom(cfgs: seq<LayerConfig>, states: seq<Option<Dense>>, hiddens: seq<Tensor>, j: nat): (run: ChainRun)
    requires |states| == |cfgs| && j <= |cfgs| && |hiddens| > 0
    ensures |run.states| == |cfgs|
    ensures forall i :: 0 <= i < j ==> run.states[i] == states[i]
    ensures |hiddens| <= |run.hiddens| <= |hiddens| + |cfgs| - j
    ensures run.hiddens[..|hiddens|] == hiddens
    ensures run.failure.Pass? ==> |run.hiddens| == |hiddens| + |cfgs| - j
    decreases |cfgs| - j
  {
    if j == |cfgs| then ChainRun(states, hiddens, Pass)
    else
      var step := Invocation(cfgs[j], states[j], hiddens[|hiddens| - 1]);
      match step.out
      case Err(e) => ChainRun(states[j := step.dense], hiddens, Fail(e))
      case Ok(h) =>
        ChainFrom(cfgs, states[j := step.dense], hiddens + [if j != |cfgs| - 1 then Relu(h) else h], j + 1)
  }

  /** The nonlinear chain on `x`, starting from `hiddens_list == [x]`. */
  function NonlinearChain(cfgs: seq<LayerConfig>, states: seq<Option<Dense>>, x: Tensor): ChainRun
    requires |states| == |cfgs|
  {
    ChainFrom(cfgs, states, [x], 0)
  }

  /** Middle layers keep the width of their input. */
  predicate WidthPreserving(cfgs: seq<LayerConfig>)
  {
    forall i :: 0 <= i < |cfgs| - 1 ==> cfgs[i].numClasses == FromInputFeatures
  }

  /** Iterations `j..` on a batch of `b` vectors with `f` features, from layers built for `f`:
      nothing fails, every layer is built for `f`, every appended middle tensor keeps `[b, f]`,
      and the last appended tensor has the last layer's width. */
  lemma {:induction false} ChainFromShapes(cfgs: seq<LayerConfig>, states: seq<Option<Dense>>,
                                           hiddens: seq<Tensor>, j: nat, b: nat, f: nat)
    requires |states| == |cfgs| && j <= |cfgs| && |hiddens| > 0
    requires WidthPreserving(cfgs) && ReadyFor(cfgs, states, f)
    requires j < |cfgs| ==> hiddens[|hiddens| - 1].shape == [b, f]
    ensures var run := ChainFrom(cfgs, states, hiddens, j);
      && run.failure == Pass
      && ReadyFor(cfgs, run.states, f)
      && (forall i :: j <= i < |cfgs| ==> run.states[i] == Some(DenseFor(cfgs[i], f)))
      && (forall k :: |hiddens| <= k < |run.hiddens| - 1 ==> run.hiddens[k].shape == [b, f])
      && (j < |cfgs| ==> run.hiddens[|run.hiddens| - 1].shape == [b, OutFeatures(cfgs[|cfgs| - 1].numClasses, f)])
    decreases |cfgs| - j
  {
    if j < |cfgs| {
      var step := Invocation(cfgs[j], states[j], hiddens[|hiddens| - 1]);
      var d := DenseFor(cfgs[j], f);
      assert step.dense == Some(d);
      var h := step.out.value;
      assert h.shape == [b, d.units];
      var h' := if j != |cfgs| - 1 then Relu(h) else h;
      var states' := states[j := step.dense];
      var hiddens' := hiddens + [h'];
      if j < |cfgs| - 1 {
        assert d.units == f;
      }
      ChainFromShapes(cfgs, states', hiddens', j + 1, b, f);
      var run := ChainFrom(cfgs, states', hiddens', j + 1);
      assert run == ChainFrom(cfgs, states, hiddens, j);
      assert run.hiddens[|hiddens|] == hiddens'[|hiddens|] by {
        assert run.hiddens[..|hiddens'|] == hiddens';
      }
      assert run.states[j] == states'[j];
    }
  }

  /** What iteration `i` of the loop appends when layer `i`, built as `d`, reads `x`:
      the layer's output, rectified unless it is the last layer. */
  function Appended(cfg: LayerConfig, d: Dense, x: Tensor, last: bool): Result<Tensor>
  {
    match Forward(BatchNormFor(cfg), d, x)
    case Ok(y) => Ok(if last then y else Relu(y))
    case Err(e) => Err(e)
  }

  /** `hiddens[i + 1]` is what layer `i`, built for `f`, appends after reading `hiddens[i]`. */
  predicate LayerStepAt(cfgs: seq<LayerConfig>, f: nat, hiddens: seq<Tensor>, i: nat)
  {
    i < |cfgs| && i + 1 < |hiddens|
    && Ok(hiddens[i + 1]) == Appended(cfgs[i], DenseFor(cfgs[i], f), hiddens[i], i == |cfgs| - 1)
  }

  /** Iterations `j..` with `hiddens_list` holding `j + 1` tensors, under the conditions of
      `ChainFromShapes`: layer `i` reads `hiddens_list[i]`, the latest tensor, and appends its
      output, rectified unless it is the last layer. */
  lemma {:induction false} ChainFromSteps(cfgs: seq<LayerConfig>, states: seq<Option<Dense>>,
                                          hiddens: seq<Tensor>, j: nat, b: nat, f: nat)
    requires |states| == |cfgs| && j <= |cfgs| && |hiddens| == j + 1
    requires WidthPreserving(cfgs) && ReadyFor(cfgs, states, f)
    requires j < |cfgs| ==> hiddens[j].shape == [b, f]
    ensures forall i :: j <= i < |cfgs| ==> LayerStepAt(cfgs, f, ChainFrom(cfgs, states, hiddens, j).hiddens, i)
    decreases |cfgs| - j
  {
    if j < |cfgs| {
      ChainFromShapes(cfgs, states, hiddens, j, b, f);
      var x := hiddens[j];
      var step := Invocation(cfgs[j], states[j], x);
      var d := DenseFor(cfgs[j], f);
      assert step.dense == Some(d);
      assert step.out == Forward(BatchNormFor(cfgs[j]), d, x);
      var h := step.out.value;
      var h' := if j != |cfgs| - 1 then Relu(h) else h;
      assert Ok(h') == Appended(cfgs[j], d, x, j == |cfgs| - 1);
      var states' := states[j := step.dense];
      var hiddens' := hiddens + [h'];
      if j < |cfgs| - 1 {
        assert d.units == f;
        assert h'.shape == [b, f];
      }
      ReadyForUpdate(cfgs, states, f, j);
      ChainFromSteps(cfgs, states', hiddens', j + 1, b, f);
      var run := ChainFrom(cfgs, states', hiddens', j + 1);
      assert run == ChainFrom(cfgs, states, hiddens, j);
      assert run.hiddens[..|hiddens'|] == hiddens';
      assert run.hiddens[j + 1] == h' && run.hiddens[j] == x;
      assert LayerStepAt(cfgs, f, run.hiddens, j);
    }
  }

  /** Building layer `j` for `f` keeps every layer built for `f`. */
  lemma ReadyForUpdate(cfgs: seq<LayerConfig>, states: seq<Option<Dense>>, f: nat, j: nat)
    requires ReadyFor(cfgs, states, f) && j < |cfgs|
    ensures ReadyFor(cfgs, states[j := Some(DenseFor(cfgs[j], f))], f)
  {
  }

  /** What ProjectionHead.call returns: the input itself (`none`), Python's `None`
      (`linear`), or `(proj_head_output, hiddens_list[ft_proj_selector])` (`nonlinear`). */
  datatype HeadOutput = Single(t: Tensor) | NoValue | Pair(projection: Tensor, finetune: Tensor)

  /** The layers' dense sub-layers after a call, and what the call returned or raised. */
  datatype HeadRun = HeadRun(states: seq<Option<Dense>>, result: Result<HeadOutput>)

  /** ProjectionHead.call, as written. */
  function HeadCall(mode: HeadMode, cfgs: seq<LayerConfig>, states: seq<Option<Dense>>, selector: int, x: Tensor): (run: HeadRun)
    requires |states| == |cfgs|
    requires mode.LinearProjection? ==> |cfgs| == 1
    ensures |run.states| == |cfgs|
    ensures mode.NoProjection? ==> run == HeadRun(states, Ok(Single(x)))
    ensures mode.LinearProjection? && run.result.Ok? ==> run.result.value == NoValue
  {
    match mode
    case NoProjection => HeadRun(states, Ok(Single(x)))
    case LinearProjection =>
      var step := Invocation(cfgs[0], states[0], x);
      HeadRun(states[0 := step.dense], if step.out.Ok? then Ok(NoValue) else Err(step.out.error))
    case NonlinearProjection =>
      var run := NonlinearChain(cfgs, states, x);
      if run.failure.Fail? then HeadRun(run.states, Err(run.failure.error))
      else
        match PyIndex(selector, |run.hiddens|)
        case Err(e) => HeadRun(run.states, Err(e))
        case Ok(k) => HeadRun(run.states, Ok(Pair(run.hiddens[|run.hiddens| - 1], run.hiddens[k])))
  }

  /** `linear` mode on a batch of feature vectors: the layer is built and applied, and the call returns `None`. */
  lemma LinearModeReturnsNothing(projOutDim: nat, states: seq<Option<Dense>>, x: Tensor)
    requires |states| == 1 && (states[0].Some? ==> DenseFits(OutputLayer(projOutDim), states[0].value))
    requires |x.shape| == 2
    ensures var run := HeadCall(LinearProjection, [OutputLayer(projOutDim)], states, 0, x);
      && run.result == Ok(NoValue)
      && run.states[0] == Some(Dense(projOutDim, false))
  {
  }

  /** `nonlinear` mode with `N` layers on a `[b, f]` batch, from layers built for `f` (or unbuilt):
      `hiddens_list` ends with `N + 1` tensors, the first is the input, the middle ones are `[b, f]`,
      the last is `[b, proj_out_dim]` when `N >= 1`; the call returns the last one and the
      selected one, and raises IndexError exactly when the selector is out of range. */
  lemma NonlinearModeShapes(projOutDim: nat, numProjLayers: int, states: seq<Option<Dense>>,
                            selector: int, x: Tensor, b: nat, f: nat)
    requires x.shape == [b, f]
    requires ReadyFor(HeadLayers(NonlinearProjection, projOutDim, numProjLayers), states, f)
    ensures var cfgs := HeadLayers(NonlinearProjection, projOutDim, numProjLayers);
      var n := |cfgs|;
      var chain := NonlinearChain(cfgs, states, x);
      var run := HeadCall(NonlinearProjection, cfgs, states, selector, x);
      && chain.failure == Pass
      && |chain.hiddens| == n + 1
      && chain.hiddens[0] == x
      && (forall k :: 0 <= k < n ==> chain.hiddens[k].shape == [b, f])
      && (n >= 1 ==> chain.hiddens[n].shape == [b, projOutDim])
      && run.states == chain.states
      && ReadyFor(cfgs, run.states, f)
      && (forall i :: 0 <= i < n ==> run.states[i].Some?)
      && (run.result.Ok? <==> -(n + 1) <= selector <= n)
      && (run.result.Err? ==> run.result.error == IndexOutOfRange(selector, n + 1))
      && (0 <= selector <= n ==> run.result == Ok(Pair(chain.hiddens[n], chain.hiddens[selector])))
      && (-(n + 1) <= selector < 0 ==> run.result == Ok(Pair(chain.hiddens[n], chain.hiddens[n + 1 + selector])))
  {
    var cfgs := HeadLayers(NonlinearProjection, projOutDim, numProjLayers);
    ChainFromShapes(cfgs, states, [x], 0, b, f);
    var chain := NonlinearChain(cfgs, states, x);
    assert chain.hiddens[..1] == [x];
  }

  /** `nonlinear` mode on a `[b, f]` batch, from layers built for `f` (or unbuilt): each element
      `k + 1` of `hiddens_list` is layer `k` applied to element `k`, and it is rectified exactly
      when layer `k` is not the last. */
  lemma NonlinearModeComposition(projOutDim: nat, numProjLayers: int, states: seq<Option<Dense>>,
                                 x: Tensor, b: nat, f: nat)
    requires x.shape == [b, f]
    requires ReadyFor(HeadLayers(NonlinearProjection, projOutDim, numProjLayers), states, f)
    ensures var cfgs := HeadLayers(NonlinearProjection, projOutDim, numProjLayers);
      var n := |cfgs|;
      var chain := NonlinearChain(cfgs, states, x);
      && |chain.hiddens| == n + 1
      && (forall k :: 0 <= k < n ==> LayerStepAt(cfgs, f, chain.hiddens, k))
      && (forall k :: 1 <= k <= n ==> (chain.hiddens[k].payload.Rectified? <==> k < n))
  {
    var cfgs := HeadLayers(NonlinearProjection, projOutDim, numProjLayers);
    var n := |cfgs|;
    ChainFromShapes(cfgs, states, [x], 0, b, f);
    ChainFromSteps(cfgs, states, [x], 0, b, f);
    var chain := NonlinearChain(cfgs, states, x);
    forall k | 1 <= k <= n
      ensures chain.hiddens[k].payload.Rectified? <==> k < n
    {
      HeadLayersNormalize(NonlinearProjection, projOutDim, numProjLayers, k - 1);
      assert LayerStepAt(cfgs, f, chain.hiddens, k - 1);
    }
  }

  /** A layer invoked on anything but a rank-2 tensor fails with the rank assertion, so a
      `linear` or `nonlinear` head with at least one layer rejects such an input. */
  lemma NonRank2Rejected(mode: HeadMode, projOutDim: nat, numProjLayers: int, states: seq<Option<Dense>>,
                         selector: int, x: Tensor)
    requires !mode.NoProjection? && |HeadLayers(mode, projOutDim, numProjLayers)| > 0
    requires |states| == |HeadLayers(mode, projOutDim, numProjLayers)|
    requires |x.shape| != 2
    ensures HeadCall(mode, HeadLayers(mode, projOutDim, numProjLayers), states, selector, x).result.Err?
  {
  }

  /** The `linear` branch as evidently intended: the projection is appended to `hiddens_list`
      and the call falls through to the pair return that `nonlinear` mode uses. */
  function IntendedHeadCall(mode: HeadMode, cfgs: seq<LayerConfig>, states: seq<Option<Dense>>, selector: int, x: Tensor): (run: HeadRun)
    requires |states| == |cfgs|
    requires mode.LinearProjection? ==> |cfgs| == 1
    ensures !mode.LinearProjection? ==> run == HeadCall(mode, cfgs, states, selector, x)
    ensures run.states == HeadCall(mode, cfgs, states, selector, x).states
    ensures mode.LinearProjection? ==> (run.result.Ok? <==> |x.shape| == 2 && -2 <= selector <= 1)
    ensures mode.LinearProjection? && run.result.Ok? ==>
      && run.result.value.Pair?
      && run.states[0].Some?
      && run.result.value.projection.shape == [x.shape[0], run.states[0].value.units]
      && Ok(run.result.value.projection) == Forward(BatchNormFor(cfgs[0]), run.states[0].value, x)
      && ((selector == 0 || selector == -2) ==> run.result.value.finetune == x)
      && ((selector == 1 || selector == -1) ==> run.result.value.finetune == run.result.value.projection)
  {
    match mode
    case LinearProjection =>
      var step := Invocation(cfgs[0], states[0], x);
      (match step.out
       case Err(e) => HeadRun(states[0 := step.dense], Err(e))
       case Ok(h) =>
         var hiddens := [x, h];
         (match PyIndex(selector, |hiddens|)
          case Err(e) => HeadRun(states[0 := step.dense], Err(e))
          case Ok(k) => HeadRun(states[0 := step.dense], Ok(Pair(h, hiddens[k])))))
    case _ => HeadCall(mode, cfgs, states, selector, x)
  }

  /** The corrected `linear` mode projects a `[b, f]` batch to `[b, proj_out_dim]` and exposes
      the input (selector 0 or -2) or the projection (selector 1 or -1) for fine-tuning. */
  lemma IntendedLinearModeOutput(projOutDim: nat, states: seq<Option<Dense>>, selector: int, x: Tensor, b: nat, f: nat)
    requires x.shape == [b, f] && ReadyFor([OutputLayer(projOutDim)], states, f)
    ensures var run := IntendedHeadCall(LinearProjection, [OutputLayer(projOutDim)], states, selector, x);
      && (run.result.Ok? <==> -2 <= selector <= 1)
      && (run.result.Ok? ==> run.result.value.Pair? && run.result.value.projection.shape == [b, projOutDim])
      && (run.result.Ok? && (selector == 0 || selector == -2) ==> run.result.value.finetune == x)
      && (run.result.Ok? && (selector == 1 || selector == -1) ==> run.result.value.finetune == run.result.value.projection)
  {
  }

  /** On the same input the code as written returns `None` where the intended pair is expected. */
  lemma LinearModeDropsProjection()
    ensures var x := Tensor([8, 4], Source(0));
      && HeadCall(LinearProjection, [OutputLayer(3)], [None], 0, x).result == Ok(NoValue)
      && IntendedHeadCall(LinearProjection, [OutputLayer(3)], [None], 0, x).result.Ok?
      && IntendedHeadCall(LinearProjection, [OutputLayer(3)], [None], 0, x).result.value.Pair?
  {
  }

  /** The dense sub-layers of `layers`, position by position. */
  ghost function DenseStates(layers: seq<LinearLayer>): (r: seq<Option<Dense>>)
    reads layers
    ensures |r| == |layers|
    ensures forall i :: 0 <= i < |layers| ==> r[i] == layers[i].dense
  {
    seq(|layers|, i reads layers requires 0 <= i < |layers| => layers[i].dense)
  }

  /** The configurations of `layers`, position by position. */
  function Configs(layers: seq<LinearLayer>): (r: seq<LayerConfig>)
    ensures |r| == |layers|
    ensures forall i :: 0 <= i < |layers| ==> r[i] == layers[i].config
  {
    seq(|layers|, i requires 0 <= i < |layers| => layers[i].config)
  }

  class ProjectionHead {
    const projOutDim: nat
    const mode: HeadMode
    const numProjLayers: int
    const ftProjSelector: int
    var linearLayers: seq<LinearLayer>

    ghost predicate Valid()
      reads this, linearLayers
    {
      && Configs(linearLayers) == HeadLayers(mode, projOutDim, numProjLayers)
      && (forall i, k :: 0 <= i < k < |linearLayers| ==> linearLayers[i] != linearLayers[k])
      && (forall i :: 0 <= i < |linearLayers| ==> linearLayers[i].Valid())
    }

    /** `ProjectionHead(proj_out_dim, proj_head_mode, ...)`: raises ValueError for an unknown mode. */
    static method Create(projOutDim: nat, projHeadMode: string, numProjLayers: int, ftProjSelector: int)
      returns (r: Result<ProjectionHead>)
      ensures r.Err? <==> ParseMode(projHeadMode).Err?
      ensures r.Err? ==> r.error == UnknownMode(projHeadMode)
      ensures r.Ok? ==> && fresh(r.value) && r.value.Valid()
                        && r.value.mode == ParseMode(projHeadMode).value
                        && r.value.projOutDim == projOutDim
                        && r.value.numProjLayers == numProjLayers
                        && r.value.ftProjSelector == ftProjSelector
                        && (forall i :: 0 <= i < |r.value.linearLayers| ==> fresh(r.value.linearLayers[i]))
                        && DenseStates(r.value.linearLayers) == seq(|r.value.linearLayers|, _ => None)
    {
      var m := ParseMode(projHeadMode);
      if m.Err? {
        return Err(m.error);
      }
      var head := new ProjectionHead(projOutDim, m.value, numProjLayers, ftProjSelector);
      return Ok(head);
    }

    /** The constructor body for a valid mode: fill `linear_layers`, one layer per position. */
    constructor (projOutDim: nat, mode: HeadMode, numProjLayers: int, ftProjSelector: int)
      ensures this.projOutDim == projOutDim && this.mode == mode
      ensures this.numProjLayers == numProjLayers && this.ftProjSelector == ftProjSelector
      ensures Valid()
      ensures forall i :: 0 <= i < |linearLayers| ==> fresh(linearLayers[i])
      ensures DenseStates(linearLayers) == seq(|linearLayers|, _ => None)
    {
      this.projOutDim := projOutDim;
      this.mode := mode;
      this.numProjLayers := numProjLayers;
      this.ftProjSelector := ftProjSelector;
      linearLayers := [];
      new;
      if mode == LinearProjection {
        var layer := new LinearLayer(Fixed(projOutDim), false, true);
        linearLayers := [layer];
      } else if mode == NonlinearProjection {
        var j := 0;
        while j < numProjLayers
          invariant 0 <= j && (j <= numProjLayers || j == 0)
          invariant |linearLayers| == j
          invariant forall i :: 0 <= i < j ==> linearLayers[i].config == NonlinearLayerAt(i, numProjLayers, projOutDim)
          invariant forall i, k :: 0 <= i < k < j ==> linearLayers[i] != linearLayers[k]
          invariant forall i :: 0 <= i < j ==> fresh(linearLayers[i]) && linearLayers[i].Valid() && linearLayers[i].dense == None
        {
          var layer;
          if j != numProjLayers - 1 {
            layer := new LinearLayer(FromInputFeatures, true, true);
          } else {
            layer := new LinearLayer(Fixed(projOutDim), false, true);
          }
          linearLayers := linearLayers + [layer];
          j := j + 1;
        }
      }
    }

    /** `self.linear_layers[j](x)`: invokes one layer and leaves the others alone. */
    method InvokeLayer(j: nat, x: Tensor) returns (h: Result<Tensor>)
      requires Valid() && j < |linearLayers|
      modifies linearLayers[j]
      ensures Valid()
      ensures var step := Invocation(linearLayers[j].config, old(linearLayers[j].dense), x);
        DenseStates(linearLayers) == old(DenseStates(linearLayers))[j := step.dense] && h == step.out
    {
      ghost var before := DenseStates(linearLayers);
      h := linearLayers[j].Invoke(x);
      assert forall i :: 0 <= i < |linearLayers| && i != j ==> linearLayers[i].dense == before[i];
    }

    /** `call(inputs)`: the mode's branch, growing `hiddens_list` one layer at a time. */
    method Call(inputs: Tensor) returns (r: Result<HeadOutput>)
      requires Valid()
      modifies linearLayers
      ensures Valid()
      ensures var run := HeadCall(mode, Configs(linearLayers), old(DenseStates(linearLayers)), ftProjSelector, inputs);
        DenseStates(linearLayers) == run.states && r == run.result
    {
      if mode == NoProjection {
        return Ok(Single(inputs));
      }
      var hiddens := [inputs];
      if mode == LinearProjection {
        var h := InvokeLayer(0, hiddens[|hiddens| - 1]);
        if h.Err? {
          return Err(h.error);
        }
        hiddens := hiddens + [h.value];
        return Ok(NoValue);
      }
      ghost var cfgs := Configs(linearLayers);
      ghost var states0 := DenseStates(linearLayers);
      var j := 0;
      while j < numProjLayers
        invariant 0 <= j <= |linearLayers|
        invariant numProjLayers <= 0 ==> j == 0
        invariant |hiddens| == j + 1
        invariant Valid()
        invariant ChainFrom(cfgs, DenseStates(linearLayers), hiddens, j) == NonlinearChain(cfgs, states0, inputs)
      {
        var h := InvokeLayer(j, hiddens[|hiddens| - 1]);
        if h.Err? {
          return Err(h.error);
        }
        var next := h.value;
        if j != numProjLayers - 1 {
          next := Relu(next);
        }
        hiddens := hiddens + [next];
        j := j + 1;
      }
      var k := PyIndex(ftProjSelector, |hiddens|);
      if k.Err? {
        return Err(k.error);
      }
      r := Ok(Pair(hiddens[|hiddens| - 1], hiddens[k.value]));
    }
  }
}
