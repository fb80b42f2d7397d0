# EndModel network assembly and label shaping, in Dafny

This project models the core of `EndModel`, the configurable discriminative
classifier of MeTaL (`metal/end_model/end_model.py`). The classifier is
assembled at construction time from an input module, a stack of middle
layers and a task head. The model covers that assembly and the conversion
of hard labels into soft labels before training.

- `Network` (network.dfy) replaces torch modules with the `Stage`
  datatype: `Identity`, `Linear(in, out)`, `ReLU`, `BatchNorm(d)`,
  `Dropout(rate)`, `Custom(id)` for a caller's module, and `Sequential`.
  - `Layer` specifies `_make_layer`.
  - `EndModel.MakeLayer` builds the same layer by successive appends.
  - `InputLayer`, `MiddleLayer` and `TaskHead` give the three kinds of stage.
  - `EndModel.BuildMiddleLayers` is the `for` loop that builds `layer1 .. layer{m}`.
  - `Assemble` is the network `[input, layer1, ..., layer{m}, head]`.
  - `EndModel.Build` stores that network and the loss module in the object.
  - `Forward`/`ForwardAll` give the feature width a stage or a chain of
    stages produces for a given input width. They are used to state that
    the default network fits together end to end.
- `Labels` (labels.dfy) models `_preprocess_Y`.
  - Labels with more than one column come back unchanged.
  - 1-D or single-column labels must be a long tensor, or the type check
    raises. They must be non-empty, because `Y.max()` raises on an empty
    tensor. Otherwise they go through `hard_to_soft(Y, k=max(Y))` and lose
    column 0.
  - `hard_to_soft` lives in `metal.utils`, which is not part of this model.
    It is a function-typed parameter. `HardToSoftShape` states the one
    assumption made about it: `hard_to_soft(ys, k)` has one row per label
    and `k + 1` columns, one per class `0 .. k`. This reading follows the
    comment at end_model.py:135-138 (cardinality 5 gives a 6-dim label
    space).
- `Shapes` (shapes.dfy) relates the two halves. The default head emits `k`
  columns (end_model.py:79). The preprocessed labels have `max(labels)`
  columns (end_model.py:134, 139). So the two widths agree only when the
  largest label observed equals the cardinality. With classes numbered
  `0 .. k-1`, the labels are at least one column short of the head, and
  exactly one short when class `k-1` occurs among the labels. The model keeps
  this asymmetry as written and proves it; it does not repair it.

`hard_to_soft(Y, k=max(Y))` (end_model.py:134) yields `max(Y) + 1` columns,
one per class `0 .. max(Y)`; dropping column 0 leaves `max(Y)` columns.

## Model

| member | source | states |
|---|---|---|
| `Network.Layer` | metal/end_model/end_model.py:86-95 | An identity module is returned unchanged whatever the flags. Any other module becomes a sequential layer: the module, then ReLU, then `BatchNorm(output_dim)` exactly when batch norm is on and the width is given and nonzero, then `Dropout(rate)` exactly when the rate is nonzero. The stage count fixes that nothing else is added. |
| `Network.EndModel.MakeLayer` | metal/end_model/end_model.py:86-95 | Building the layer by appends yields exactly `Layer` under the object's configuration. |
| `Network.InputLayer` | metal/end_model/end_model.py:56-61 | With no input module the input layer is the bare `Identity`. Otherwise it is the given module wrapped with width `layer_out_dims[0]`. Requires a non-empty `layer_out_dims`. |
| `Network.EndModel.BuildMiddleLayers` | metal/end_model/end_model.py:63-75 | The loop yields `|layer_out_dims| - 1` layers, and entry i-1 (named `layer{i}`) is middle layer i, in index order. With caller modules, at least `|layer_out_dims| - 1` of them are required and extra ones are ignored. |
| `Network.MiddleLayer` | metal/end_model/end_model.py:67-73 | Without caller modules, layer i is `Linear(dims[i-1], dims[i])`, then ReLU, then `BatchNorm(dims[i])` exactly when batch norm is on and `dims[i]` is nonzero, then `Dropout(rate)` last exactly when the rate is nonzero; the stage count fixes that nothing else is added. With caller modules, an identity `middle_modules[i-1]` is the layer itself; any other is followed by ReLU and, exactly when the rate is nonzero, a final `Dropout(rate)`, and never by a batch norm, because no width is passed. |
| `Network.TaskHead` | metal/end_model/end_model.py:77-84 | A supplied head is used verbatim, with no ReLU, batch norm or dropout. The default head is an unwrapped `Linear(last width, k)` emitting `k` columns. |
| `Network.Assemble` | metal/end_model/end_model.py:48-51 | The network has `|layer_out_dims| + 1` stages: the input layer first, then middle layer i at position i, then the head last. |
| `Network.EndModel.Build` | metal/end_model/end_model.py:44-54 | Stores the assembled network and a soft cross-entropy loss with `reduce` on and `size_average` off. |
| `Network.EndModel.constructor` | metal/end_model/end_model.py:31-36 | Records `k` and the configuration, then builds the network and the loss as `Build` does. |
| `Network.DefaultMiddleLayerWidth` | metal/end_model/end_model.py:67-70 | A default middle layer i takes `layer_out_dims[i-1]` features to `layer_out_dims[i]` features. Its ReLU, batch norm and dropout keep the width, and its batch norm is sized to that width. |
| `Network.DefaultLinearsChain` | metal/end_model/end_model.py:67-70 | The output width of default middle linear i equals the input width of default middle linear i+1. |
| `Network.LayerKeepsWidth` | metal/end_model/end_model.py:89-95 | Wrapping a module does not change the width it produces, given that any batch norm is sized to that width. |
| `Network.DefaultNetworkWidths` | metal/end_model/end_model.py:56-79 | The all-default network accepts `layer_out_dims[0]` features and its head emits exactly `k`. Every stage's output width is the next stage's input width. |
| `Labels.PreprocessY` | metal/end_model/end_model.py:126-140 | Multi-column labels come back unchanged. Hard labels that are not long raise the type error, and empty hard labels raise at `max`. Otherwise the result has the same row count and `max(labels)` columns, which is one fewer than `hard_to_soft`'s output. Entry (i, j) of the result is entry (i, j+1) of `hard_to_soft`'s output. |
| `Labels.DropFirstColumn` | metal/end_model/end_model.py:139 | `Y[:,1:]` keeps the row count and the dtype and removes one column; a tensor with no columns stays without columns. Each remaining entry is the entry one column to its right in the input. |
| `Labels.Max` | metal/end_model/end_model.py:134 | `Y.max()` is a label that occurs, and no label exceeds it. |
| `Shapes.DefaultHeadVersusLabels` | metal/end_model/end_model.py:133-139 | The default network emits `k` columns, and preprocessing hard labels succeeds. The label width equals `k` exactly when the largest observed label is `k`. When every label is below `k`, the labels are narrower than the head, and exactly one column narrower when class `k-1` occurs. |
| `Shapes.LabelsOneColumnShortOfHead` | metal/end_model/end_model.py:134-139 | For cardinality 3 and labels 0, 1, 2, 1, the preprocessed labels have 2 columns while the default head emits 3. |

## Left out

- `Network.EndModel.constructor`: the `Classifier` base constructor is not part of this model. It is taken to store only `k` and the configuration. The default argument `k=2` (end_model.py:31) is not modelled; callers pass `k` explicitly. The `None` defaults of the three modules are modelled as `Option` values.
- The configuration merge (`recursive_merge_dicts`, the merge at construction, `update_config`, and the merge at the start of `train`) is not modelled. `metal.utils` is not part of this model, so the constructor takes an already merged `Config`.
- `train`, `_train`, `reset`, `_reset_module`, `_to_torch`, `_make_data_loader` and `_get_loss_fn` are not modelled. They hand work to torch (data loading, shuffling, parameter initialisation) or to the `Classifier` base class, which is not part of this model.
- `forward` and `predict_proba` are not modelled. They run tensors through torch and compute a floating-point softmax. Only the feature widths of the network are modelled, by `Forward`/`ForwardAll`.
- The `verbose` print of the network and `_print` are not modelled. They only write to standard output.
- The torch modules' own arithmetic is not modelled. Linear, ReLU, BatchNorm1d, Dropout and the soft cross-entropy loss are opaque constructors. Torch's own validation is left out too, such as `Dropout` refusing a rate outside [0, 1].
- `Labels.PreprocessY`: the internals of `hard_to_soft` are not modelled. Only the assumption `HardToSoftShape` about its width is used, and the contents of its output are left arbitrary. The model also requires hard labels to be non-negative class indices, which `hard_to_soft` expects. The type check `_check` is taken to raise whenever the hard labels are not a long tensor. The model hands `hard_to_soft` the labels as one flat column, where the code passes the `[n]` or `[n,1]` tensor itself, so `HardToSoftShape` also assumes that `hard_to_soft` treats both shapes alike.
- `Network.Forward`: a caller's `Custom` module has no known widths, so the width results cover only the default linear modules and the identity. The assembler does not validate the widths of caller-supplied middle or head modules either; it trusts the caller.
- Label tensors that are 0-D or have three or more dimensions are not modelled; only 1-D and 2-D label tensors are. A 0-D tensor raises an `IndexError` at `Y.shape[1]` (end_model.py:130).
