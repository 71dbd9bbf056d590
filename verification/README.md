# Index unpooling layer: configuration and shape inference

A model of the 2D index-unpooling layer of this Keras fork
(`keras/layers/unpooling.py`). The layer takes a values tensor and the argmax
indices recorded by an earlier max-pooling step and scatters each value back
into an enlarged tensor. What the layer itself decides, and what is modelled
here, is:

- **construction**: the configuration it stores (`pool_size`, `strides`,
  `padding`, `data_format`), with `strides` defaulting to `pool_size` and an
  omitted `data_format` replaced by the framework-wide default layout;
- **shape inference** (`compute_output_shape`): from the list of input
  shapes, only the values tensor's shape is read; its rows and cols entries
  are multiplied by the pool size and the batch and channel entries stay
  where the layout (`channels_first` or `channels_last`) keeps them;
- **configuration serialisation** (`get_config`), which as written cannot
  run (see Findings), together with the corrected version and its round trip.

Shape entries are Python ints or `None`; the model keeps `None`
(`Dim.Unknown`) and the exceptions Python raises while evaluating the code,
in evaluation order: `IndexError` when the list of shapes is empty or the
first shape is too short, `TypeError` when a spatial entry is `None`
(`None *= int`). For `channels_last` the channel entry is read only when the
result is assembled, so a 3-entry shape with a `None` spatial entry raises
`TypeError`, and one with two int spatial entries raises `IndexError`.

Files: `unpooling.dfy` (module `Unpooling`: the data model, construction and
shape inference), `unpooling_properties.dfy` (module `UnpoolingProperties`:
lemmas about them, and the shape rule of the pooling step as a reference),
`unpooling_config.dfy` (module `UnpoolingConfig`: `get_config` as written and
corrected, and reconstruction).

`compute_output_shape` never compares the two inputs' shapes, and nothing
checks that pool sizes or strides are positive; inference fails only through
the Python errors above.

The pooling step's shape rule (`UnpoolingProperties.PooledLength`, the
valid-padding window count floor((n - pool) / stride) + 1) is the reference
the round-trip lemma `PoolingUndoesUnpooling` is stated against;
`keras/utils/conv_utils.py` and `keras/layers/pooling.py` are not part of
this model.

## Model

| member | source | states |
|---|---|---|
| `Unpooling.NewUnpooling` | keras/layers/unpooling.py:15-24 | `pool_size` and `padding` are stored as given; an omitted `strides` is stored as `pool_size`, a given one as given; an omitted `data_format` becomes the default layout, a given one is kept |
| `Unpooling.Scale` | keras/layers/unpooling.py:35-36 | multiplying a shape entry succeeds exactly when it is an int, and then gives the product; `None` raises `TypeError` |
| `Unpooling.ComputeOutputShape` | keras/layers/unpooling.py:27-41 | a successful result is a 4-tuple, the first input shape has at least four entries, the batch entry is copied to index 0 and the channel entry keeps its layout position (1 for channels-first, 3 for channels-last) |
| `UnpoolingProperties.ChannelsLastOutputShape` | keras/layers/unpooling.py:31-41 | channels-last `(b, h, w, c, ...)` gives `(b, h*pool_size[0], w*pool_size[1], c)`, whatever the other input shapes are |
| `UnpoolingProperties.ChannelsFirstOutputShape` | keras/layers/unpooling.py:28-39 | channels-first `(b, c, h, w, ...)` gives `(b, c, h*pool_size[0], w*pool_size[1])`, whatever the other input shapes are |
| `UnpoolingProperties.OutputShapeSucceedsIff` | keras/layers/unpooling.py:27-41 | inference succeeds if and only if there is a first shape, it has at least four entries, and both of its spatial entries (for the layout) are ints |
| `UnpoolingProperties.OutputShapeErrorKind` | keras/layers/unpooling.py:27-41 | a failure is `IndexError` or `TypeError`; it is `TypeError` exactly when both spatial entries could be read and one is `None` |
| `UnpoolingProperties.IndicesShapeIgnored` | keras/layers/unpooling.py:27-41 | only `input_shape[0]` is read: any two lists with the same first shape give the same result |
| `UnpoolingProperties.StridesAndPaddingIgnored` | keras/layers/unpooling.py:35-36 | two configurations with the same `pool_size` and `data_format` infer the same shape for every input, whatever their `strides` and `padding` |
| `UnpoolingProperties.UnitPoolIsIdentity` | keras/layers/unpooling.py:35-41 | with `pool_size == (1, 1)` a rank-4 shape with int spatial entries is returned unchanged, in either layout |
| `UnpoolingProperties.OmittedStridesArePoolSize` | keras/layers/unpooling.py:19-22 | constructing without `strides` gives the same configuration as passing `pool_size` as `strides` |
| `UnpoolingProperties.DefaultConfiguration` | keras/layers/unpooling.py:15-24 | all defaults give pool size `(2, 2)`, strides `(2, 2)`, valid padding and the default layout |
| `UnpoolingProperties.OutputElementCount` | keras/layers/unpooling.py:35-41 | for a fully known rank-4 shape, inference succeeds and the output holds `pool_size[0] * pool_size[1]` times as many elements as the input |
| `UnpoolingProperties.UnpoolTwice` | keras/layers/unpooling.py:35-41 | unpooling twice in the same layout gives the same shape as unpooling once with the componentwise product of the pool sizes |
| `UnpoolingProperties.PoolingUndoesUnpooling` | keras/layers/unpooling.py:15-41 | for a layer built without `strides` and with positive pool sizes, valid-padding pooling of the inferred shape gives back the input shape |
| `UnpoolingConfig.OwnEntries` | keras/layers/unpooling.py:56-59 | the layer's own dictionary has exactly the keys `pool_size`, `padding`, `strides`, `data_format`, each holding the stored field |
| `UnpoolingConfig.GetConfigAsWritten` | keras/layers/unpooling.py:55-61 | as written, every call raises `NameError` for the undefined `_Unpooling2D` |
| `UnpoolingConfig.GetConfigAsWrittenAlwaysRaises` | keras/layers/unpooling.py:55-61 | for every layer and every base configuration, `get_config` as written fails and never yields the intended dictionary |
| `UnpoolingConfig.GetConfig` | keras/layers/unpooling.py:55-61 | the corrected result has exactly the base keys plus the four own keys, the own entries hold the stored fields, and base entries under other keys are kept |
| `UnpoolingConfig.FromConfig` | keras/layers/unpooling.py:15-24 | reconstruction succeeds exactly when every other key is one the base layer's constructor accepts and each of the four keys that is present holds a value of its kind, where `strides` and `data_format` may also hold `None`; a present entry then equals the stored field; a missing `pool_size` defaults to `(2, 2)`, a missing or `None` `strides` to the pool size, a missing `padding` to valid, a missing or `None` `data_format` to the default layout |
| `UnpoolingConfig.ConfigRoundTrip` | keras/layers/unpooling.py:55-61 | reconstructing from the corrected `get_config` gives back the same configuration, whatever the base entries (when the base constructor accepts their keys) and the default layout, and hence identical shape inference |

## Left out

- `call` and `_pooling_function`: they forward to the backend scatter `K.unpool2d_with_argmax`, whose source is not part of this model, so the values, index layout, collisions and out-of-range indices are not modelled; nor is the fact that `padding` and `data_format` are not passed to it.
- The base class's `_pooling_function`, which raises `NotImplementedError`: it is always overridden by `UnpoolingIndex2D`.
- `conv_utils.normalize_tuple`, `normalize_padding`, `normalize_data_format`: modelled by their results (int pairs, the paddings valid, same, causal and full, the two layouts); that `full` is accepted only under the Theano backend is not modelled; expanding an int to a pair, lower-casing and their error cases are not modelled. `data_format` is normalised twice in `__init__`; the model does it once, as the second call gets an already-normalised value.
- Validation of pool size and strides (positivity): the shown code performs none, so the model accepts any ints.
- The base layer's own configuration entries: they are opaque values (`OtherValue`); `Layer.from_config` is not part of this model, and `FromConfig` is the reconstruction by keyword arguments that it performs. Which keyword arguments the base `Layer.__init__` accepts is not modelled: `FromConfig` takes that set as a parameter (`baseKeys`).
- `InputSpec`, the legacy-argument decorator and the `Layer` inheritance: framework plumbing.
- Tensor values, floating point and automatic differentiation.

## Findings

| source | as written | input that shows it | evidently intended | confidence | as-written member | corrected member |
|---|---|---|---|---|---|---|
| keras/layers/unpooling.py:60 | `get_config` calls `super(_Unpooling2D, self)`, but the module defines no `_Unpooling2D` | any layer, e.g. `UnpoolingIndex2D()`, then `get_config()` raises `NameError` | `super(_UnpoolingIndex2D, self)`, returning the base entries merged with the four own entries | high, not executed | `UnpoolingConfig.GetConfigAsWrittenAlwaysRaises` | `UnpoolingConfig.ConfigRoundTrip` |
