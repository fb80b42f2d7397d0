/**
 * Network assembly of the end model (metal/end_model/end_model.py).
 *
 * Torch modules are replaced by the opaque `Stage` datatype: a layer is a
 * `Sequential` of stages and the network is the list of its top-level
 * stages `[input layer, layer1, ..., layer{m}, head]`.
 */
module Network {
  import opened Wrappers

  /** The modules the assembler builds or receives from its caller. */
  datatype Stage =
    | Identity                          // metal's IdentityModule, which is never wrapped
    | Linear(inDim: nat, outDim: nat)
    | ReLU
    | BatchNorm(dim: nat)               // 1-D batch normalization over `dim` features
    | Dropout(rate: real)
    | Custom(id: nat)                   // a module supplied by the caller, otherwise unknown
    | Sequential(stages: seq<Stage>)

  /** The configuration keys the assembler reads. */
  datatype Config = Config(layerOutDims: seq<nat>, batchnorm: bool, dropout: real)

  /** The loss module built beside the network. */
  datatype Loss = SoftCrossEntropy(reduce: bool, sizeAverage: bool)

  /** A batch-normalization stage is added only when it is enabled and its size is known and nonzero. */
  predicate AddsBatchNorm(cfg: Config, outputDim: Option<nat>) {
    cfg.batchnorm && outputDim.Some? && outputDim.value != 0
  }

  /** Any nonzero dropout rate switches dropout on. */
  predicate AddsDropout(cfg: Config) {
    cfg.dropout != 0.0
  }

  /**
   * The layer that wraps `m`: the identity module passes through unchanged;
   * any other module is followed by ReLU, then an optional batch norm sized
   * to `outputDim`, then an optional dropout, in that order and nothing else.
   */
  function Layer(cfg: Config, m: Stage, outputDim: Option<nat>): (r: Stage)
    ensures m.Identity? ==> r == m
    ensures !m.Identity? ==> r.Sequential? && |r.stages| >= 2 && r.stages[0] == m && r.stages[1] == ReLU
    ensures !m.Identity? ==>
      |r.stages| == 2 + (if AddsBatchNorm(cfg, outputDim) then 1 else 0) + (if AddsDropout(cfg) then 1 else 0)
    ensures !m.Identity? && AddsBatchNorm(cfg, outputDim) ==> r.stages[2] == BatchNorm(outputDim.value)
    ensures !m.Identity? && AddsDropout(cfg) ==> r.stages[|r.stages| - 1] == Dropout(cfg.dropout)
  {
    if m.Identity? then m
    else
      var norm := if AddsBatchNorm(cfg, outputDim) then [BatchNorm(outputDim.value)] else [];
      var drop := if AddsDropout(cfg) then [Dropout(cfg.dropout)] else [];
      Sequential([m, ReLU] + norm + drop)
  }

  /** The input layer: the given module (identity when absent) wrapped with the first layer width. */
  function InputLayer(cfg: Config, inputModule: Option<Stage>): (r: Stage)
    requires |cfg.layerOutDims| > 0
    ensures inputModule.None? ==> r == Identity
    ensures inputModule.Some? ==> r == Layer(cfg, inputModule.value, Some(cfg.layerOutDims[0]))
  {
    var m := if inputModule.Some? then inputModule.value else Identity;
    Layer(cfg, m, Some(cfg.layerOutDims[0]))
  }

  /** Enough caller-supplied middle modules for every middle layer; extra ones are ignored. */
  predicate MiddleModulesSuffice(cfg: Config, middleModules: Option<seq<Stage>>) {
    middleModules.Some? ==> |middleModules.value| + 1 >= |cfg.layerOutDims|
  }

  /** Middle layer `i` (named `layer{i}`), for 1 <= i < |layerOutDims|. */
  function MiddleLayer(cfg: Config, middleModules: Option<seq<Stage>>, i: nat): (r: Stage)
    requires 1 <= i < |cfg.layerOutDims|
    requires MiddleModulesSuffice(cfg, middleModules)
    ensures middleModules.None? ==>
      r.Sequential? && |r.stages| >= 2 &&
      r.stages[0] == Linear(cfg.layerOutDims[i - 1], cfg.layerOutDims[i]) && r.stages[1] == ReLU &&
      ((|r.stages| > 2 && r.stages[2].BatchNorm?) <==> cfg.batchnorm && cfg.layerOutDims[i] != 0) &&
      (|r.stages| > 2 && r.stages[2].BatchNorm? ==> r.stages[2] == BatchNorm(cfg.layerOutDims[i])) &&
      |r.stages| == 2 + (if cfg.batchnorm && cfg.layerOutDims[i] != 0 then 1 else 0) + (if AddsDropout(cfg) then 1 else 0) &&
      (AddsDropout(cfg) ==> r.stages[|r.stages| - 1] == Dropout(cfg.dropout))
    ensures middleModules.Some? && middleModules.value[i - 1].Identity? ==> r == Identity
    ensures middleModules.Some? && !middleModules.value[i - 1].Identity? ==>
      r.Sequential? && |r.stages| >= 2 && r.stages[0] == middleModules.value[i - 1] && r.stages[1] == ReLU &&
      (forall j :: 1 <= j < |r.stages| ==> !r.stages[j].BatchNorm?) &&
      |r.stages| == 2 + (if AddsDropout(cfg) then 1 else 0) &&
      (AddsDropout(cfg) ==> r.stages[|r.stages| - 1] == Dropout(cfg.dropout))
  {
    var dims := cfg.layerOutDims;
    if middleModules.None? then Layer(cfg, Linear(dims[i - 1], dims[i]), Some(dims[i]))
    else Layer(cfg, middleModules.value[i - 1], None)
  }

  /**
   * The task head: a supplied head is used verbatim; the default one is a
   * bare linear map from the last layer width to `k` outputs (not k - 1).
   */
  function TaskHead(cfg: Config, k: nat, headModule: Option<Stage>): (r: Stage)
    requires |cfg.layerOutDims| > 0
    ensures headModule.Some? ==> r == headModule.value
    ensures headModule.None? ==> r.Linear? && r.inDim == cfg.layerOutDims[|cfg.layerOutDims| - 1] && r.outDim == k
  {
    if headModule.Some? then headModule.value
    else Linear(cfg.layerOutDims[|cfg.layerOutDims| - 1], k)
  }

  /** The whole network: input layer, middle layers in index order, head. */
  function Assemble(cfg: Config, k: nat, inputModule: Option<Stage>, middleModules: Option<seq<Stage>>,
                    headModule: Option<Stage>): (net: seq<Stage>)
    requires |cfg.layerOutDims| > 0
    requires MiddleModulesSuffice(cfg, middleModules)
    ensures |net| == |cfg.layerOutDims| + 1
    ensures net[0] == InputLayer(cfg, inputModule)
    ensures forall i :: 1 <= i < |cfg.layerOutDims| ==> net[i] == MiddleLayer(cfg, middleModules, i)
    ensures net[|net| - 1] == TaskHead(cfg, k, headModule)
  {
    var n := |cfg.layerOutDims|;
    [InputLayer(cfg, inputModule)]
      + seq(n - 1, j requires 0 <= j < n - 1 => MiddleLayer(cfg, middleModules, j + 1))
      + [TaskHead(cfg, k, headModule)]
  }

  // ---------------------------------------------------------------------
  // Feature widths, to state that consecutive default stages fit together.
  // ---------------------------------------------------------------------

  /**
   * The width a stage produces when fed `w` features, or None when it
   * rejects that width or its widths are unknown (a caller's module).
   */
  function Forward(s: Stage, w: nat): Option<nat>
    decreases s
  {
    match s
    case Identity => Some(w)
    case Linear(i, o) => if w == i then Some(o) else None
    case ReLU => Some(w)
    case BatchNorm(d) => if w == d then Some(w) else None
    case Dropout(_) => Some(w)
    case Custom(_) => None
    case Sequential(ss) => ForwardAll(ss, w)
  }

  /** The width a chain of stages produces when fed `w` features. */
  function ForwardAll(ss: seq<Stage>, w: nat): Option<nat>
    decreases ss
  {
    if ss == [] then Some(w)
    else match Forward(ss[0], w)
      case None => None
      case Some(v) => ForwardAll(ss[1..], v)
  }

  /** Running a chain in two parts is running the first part, then the second. */
  lemma {:induction false} ForwardAllAppend(a: seq<Stage>, b: seq<Stage>, w: nat)
    ensures ForwardAll(a + b, w) == match ForwardAll(a, w) case None => None case Some(v) => ForwardAll(b, v)
    decreases a
  {
    if a == [] {
      assert a + b == b;
    } else {
      assert (a + b)[0] == a[0];
      assert (a + b)[1..] == a[1..] + b;
      match Forward(a[0], w)
      case None =>
      case Some(v) => ForwardAllAppend(a[1..], b, v);
    }
  }

  /** A wrapped module produces whatever width the module itself produces: ReLU, batch norm and dropout keep it. */
  lemma LayerKeepsWidth(cfg: Config, m: Stage, outputDim: Option<nat>, w: nat)
    requires Forward(m, w).Some?
    requires AddsBatchNorm(cfg, outputDim) ==> outputDim.value == Forward(m, w).value
    ensures Forward(Layer(cfg, m, outputDim), w) == Forward(m, w)
  {
    if !m.Identity? {
      var r := Layer(cfg, m, outputDim);
      var v := Forward(m, w).value;
      ForwardAllAppend([m, ReLU], r.stages[2..], w);
      assert [m, ReLU] + r.stages[2..] == r.stages;
      assert ForwardAll([m, ReLU], w) == Some(v) by {
        assert [m, ReLU][1..] == [ReLU];
        assert [ReLU][1..] == [];
      }
      var rest := r.stages[2..];
      var drop := if AddsDropout(cfg) then [Dropout(cfg.dropout)] else [];
      assert ForwardAll(drop, v) == Some(v) by {
        if drop != [] { assert drop[1..] == []; }
      }
      if AddsBatchNorm(cfg, outputDim) {
        assert rest == [BatchNorm(v)] + drop;
        assert rest[0] == BatchNorm(v) && rest[1..] == drop;
      } else {
        assert rest == drop;
      }
    }
  }

  /** With default middle modules, layer i maps width dims[i-1] to width dims[i]. */
  lemma DefaultMiddleLayerWidth(cfg: Config, i: nat)
    requires 1 <= i < |cfg.layerOutDims|
    ensures Forward(MiddleLayer(cfg, None, i), cfg.layerOutDims[i - 1]) == Some(cfg.layerOutDims[i])
  {
    var dims := cfg.layerOutDims;
    LayerKeepsWidth(cfg, Linear(dims[i - 1], dims[i]), Some(dims[i]), dims[i - 1]);
  }

  /**
   * The network assembled with every default fits together: it accepts the
   * first layer width and its head emits exactly `k` columns.
   */
  lemma {:induction false} DefaultNetworkWidths(cfg: Config, k: nat)
    requires |cfg.layerOutDims| > 0
    ensures ForwardAll(Assemble(cfg, k, None, None, None), cfg.layerOutDims[0]) == Some(k)
  {
    var dims := cfg.layerOutDims;
    var net := Assemble(cfg, k, None, None, None);
    var n := |dims|;
    // The first i + 1 stages take dims[0] features to dims[i] features.
    var i := 0;
    assert net[..1] == [Identity];
    assert ForwardAll(net[..1], dims[0]) == Some(dims[0]) by {
      assert [Identity][1..] == [];
    }
    while i < n - 1
      invariant 0 <= i < n
      invariant ForwardAll(net[..i + 1], dims[0]) == Some(dims[i])
    {
      DefaultMiddleLayerWidth(cfg, i + 1);
      ForwardAllAppend(net[..i + 1], [net[i + 1]], dims[0]);
      assert net[..i + 2] == net[..i + 1] + [net[i + 1]];
      assert [net[i + 1]][1..] == [];
      i := i + 1;
    }
    ForwardAllAppend(net[..n], [net[n]], dims[0]);
    assert net == net[..n] + [net[n]];
    assert [net[n]][1..] == [];
  }

  /**
   * Consecutive default middle linears share a width: layer i's output is
   * layer i+1's input. It follows directly from `MiddleLayer`'s contract.
   */
  lemma DefaultLinearsChain(cfg: Config, i: nat)
    requires 1 <= i && i + 1 < |cfg.layerOutDims|
    ensures MiddleLayer(cfg, None, i).stages[0].outDim == MiddleLayer(cfg, None, i + 1).stages[0].inDim
  {
  }

  /** The end model: its configuration, cardinality, assembled network and loss. */
  class EndModel {
    const k: nat
    var config: Config
    var network: seq<Stage>
    var criteria: Loss

    /**
     * Builds the network from an already merged configuration. The source's
     * default cardinality 2 is not modelled: callers pass `k` explicitly.
     */
    constructor (k: nat, config: Config, inputModule: Option<Stage>, middleModules: Option<seq<Stage>>,
                 headModule: Option<Stage>)
      requires |config.layerOutDims| > 0
      requires MiddleModulesSuffice(config, middleModules)
      ensures this.k == k && this.config == config
      ensures network == Assemble(config, k, inputModule, middleModules, headModule)
      ensures criteria == SoftCrossEntropy(reduce := true, sizeAverage := false)
    {
      this.k := k;
      this.config := config;
      network := [];
      criteria := SoftCrossEntropy(true, false);
      new;
      Build(inputModule, middleModules, headModule);
    }

    /** Assembles the network and the loss module and stores both. */
    method Build(inputModule: Option<Stage>, middleModules: Option<seq<Stage>>, headModule: Option<Stage>)
      requires |config.layerOutDims| > 0
      requires MiddleModulesSuffice(config, middleModules)
      modifies this`network, this`criteria
      ensures network == Assemble(config, k, inputModule, middleModules, headModule)
      ensures criteria == SoftCrossEntropy(reduce := true, sizeAverage := false)
    {
      var inputLayer := InputLayer(config, inputModule);
      var middleLayers := BuildMiddleLayers(middleModules);
      var head := TaskHead(config, k, headModule);
      network := [inputLayer] + middleLayers + [head];
      criteria := SoftCrossEntropy(reduce := true, sizeAverage := false);
    }

    /** Wraps one module by appending ReLU, then batch norm and dropout when switched on. */
    method MakeLayer(m: Stage, outputDim: Option<nat>) returns (layer: Stage)
      ensures layer == Layer(config, m, outputDim)
    {
      if m.Identity? {
        return m;
      }
      var stages := [m];
      stages := stages + [ReLU];
      if config.batchnorm && outputDim.Some? && outputDim.value != 0 {
        stages := stages + [BatchNorm(outputDim.value)];
      }
      if config.dropout != 0.0 {
        stages := stages + [Dropout(config.dropout)];
      }
      layer := Sequential(stages);
    }

    /** Builds layer1 .. layer{m} in index order. */
    method BuildMiddleLayers(middleModules: Option<seq<Stage>>) returns (layers: seq<Stage>)
      requires MiddleModulesSuffice(config, middleModules)
      ensures |layers| == if |config.layerOutDims| == 0 then 0 else |config.layerOutDims| - 1
      ensures forall i :: 1 <= i < |config.layerOutDims| ==> layers[i - 1] == MiddleLayer(config, middleModules, i)
    {
      var dims := config.layerOutDims;
      layers := [];
      if |dims| == 0 {
        return;
      }
      for i := 1 to |dims|
        invariant |layers| == i - 1
        invariant forall j :: 1 <= j < i ==> layers[j - 1] == MiddleLayer(config, middleModules, j)
      {
        var layer;
        if middleModules.None? {
          layer := MakeLayer(Linear(dims[i - 1], dims[i]), Some(dims[i]));
        } else {
          layer := MakeLayer(middleModules.value[i - 1], None);
        }
        layers := layers + [layer];
      }
    }
  }
}
