# Merlin Models: MLP blocks and sequence transforms in Dafny

This project models two parts of Merlin Models.

- The TensorFlow MLP building blocks in `merlin_models/tf/block/mlp.py`:
  - `MLPBlock` builds a sequential block with one dense layer per requested dimension, each optionally followed by dropout and a normalization layer.
  - `DenseResidualBlock` wraps a `DenseMaybeLowRank` layer, with the same optional dropout and normalization, in a residual block. It repeats the block when `depth > 1`.
  - The `DenseMaybeLowRank` layer creates its sublayers in `build`, composes them in `call`, and reports its output shape in `compute_output_shape`.
- The ragged sequence encoding used by the PyTorch sequence-transform tests in `tests/unit/torch/transforms/test_sequences.py`:
  - The `_get_values_offsets` encoder lays rows end to end as `values` and records row boundaries as `offsets`.
  - The `TabularPadding` and `BroadcastToSequence` behaviour those tests assert.

Layers are described by what the builders create, not by their numerics. Tensors are described by their shapes. The one exception is one-dimensional integer tensors such as offsets, whose contents matter.

Python truthiness of the `dropout` and `normalization` arguments is modelled explicitly:
- A dropout of `0.0` adds no layer.
- An empty string as normalization adds no layer.
- Any other truthy value that is neither `"batch_norm"` nor a layer instance raises `ValueError`.

Modules:

- `Wrappers`: `Option`, `Result` and the Python exceptions the code raises.
- `Mlp`: `MLPBlock`, `DenseResidualBlock` and the `DenseMaybeLowRank` class.
- `Ragged`: the values/offsets encoding, its decoder, and both round trips.
- `Tensors`: tensor shapes, the `__values` and `__offsets` key suffixes, and column schemas.
- `Padding`: what `TabularPadding` produces for a batch.
- `Broadcast`: the `BroadcastToSequence` class and its forward pass.

Context features such as `d_context` are not passed on: `test_padded_features` (tests/unit/torch/transforms/test_sequences.py:57) asserts that the output features are exactly `a`, `b` and `c_dense`.

The length check in `test_batch_invalid_lengths` uses a schema without tags. So the row-length check is modelled over every ragged feature of the batch, not only over the sequence-tagged ones.

## Model

| member | source | states |
|---|---|---|
| Mlp.LayerGroup | merlin_models/tf/block/mlp.py:39-49 | One group is the first layer, then a dropout layer exactly when dropout is truthy, then BatchNormalization for `"batch_norm"` or the given layer instance. It fails with the normalization ValueError exactly when the normalization is truthy but neither of those. Its length is the group size. |
| Mlp.MlpBlock | merlin_models/tf/block/mlp.py:27-51 | The loop's result is the prefix-recursive layer list of all dimensions, wrapped in a SequentialBlock with the given block name. It fails with the same error exactly when that list does. |
| Mlp.MlpBlockFails | merlin_models/tf/block/mlp.py:39-49 | MLPBlock fails exactly when there is at least one dimension and the normalization is invalid, and then with the normalization message. An empty dimension list never raises. |
| Mlp.MlpBlockLength | merlin_models/tf/block/mlp.py:39-47 | A successful block has `|dimensions| * groupSize` layers. |
| Mlp.MlpBlockGroupAt | merlin_models/tf/block/mlp.py:39-47 | The group for dimension `i` occupies positions `i*k .. (i+1)*k`: the dense layer with `dimensions[i]` units, the activation and the bias flag, then dropout, then normalization. |
| Mlp.MlpBlockDenseUnits | merlin_models/tf/block/mlp.py:39-40 | The units of the block's dense layers, in order, are exactly `dimensions`. |
| Mlp.DenseResidualBlock | merlin_models/tf/block/mlp.py:54-81 | It fails exactly on an invalid normalization, with its message. On success the unit is a residual block with the given activation around a block named "DenseResidual". That block holds a DenseMaybeLowRank layer without activation, followed by the same dropout and normalization group as MLPBlock. The result is repeated `depth - 1` times exactly when `depth > 1`. |
| Mlp.DenseMaybeLowRank.constructor | merlin_models/tf/block/mlp.py:152-176 | A new layer keeps the given low-rank dimension, bias flag and activation, and any given `dense` and `dense_u`; it is not yet built. |
| Mlp.DenseMaybeLowRank.Build | merlin_models/tf/block/mlp.py:178-200 | An empty input shape raises IndexError and changes nothing. Otherwise `dense` is created from the last input dimension only if it is missing. `dense_u` is created with `low_rank_dim` units and no bias only if a low-rank dimension is set and it is missing. Afterwards both sublayers that `call` needs are present. |
| Mlp.DenseMaybeLowRank.Call | merlin_models/tf/block/mlp.py:202-209 | `call` succeeds exactly when the sublayers it uses are present, and otherwise raises TypeError. Without a low-rank dimension it applies `dense` to the input. With one it applies `dense_u` and then `dense`. |
| Mlp.DenseMaybeLowRank.CallMatchesOutputShape | merlin_models/tf/block/mlp.py:178-216 | On a layer without a `dense` sublayer, `build` with a non-empty shape followed by `call` succeeds. The outer layer of the result is a dense layer whose units equal the last dimension that `compute_output_shape` reports for that shape. |
| Mlp.DenseMaybeLowRank.ComputeOutputShape | merlin_models/tf/block/mlp.py:211-216 | For a tensor input the reported output shape is the input shape itself. |
| Mlp.BuildTwice | merlin_models/tf/block/mlp.py:181-199 | A second `build` with any non-empty shape creates nothing new. The sublayers are those of the first `build`. |
| Ragged.GetValuesOffsets | tests/unit/torch/transforms/test_sequences.py:12-19 | The loops compute the flattened rows and `[0]` followed by the running totals of the row lengths. The offsets have one entry per row plus one and satisfy the encoding invariant. Each step equals its row's length, and decoding gives back the input rows. |
| Ragged.OffsetsShape | tests/unit/torch/transforms/test_sequences.py:14-18 | The offsets start at 0, end at the number of values, and step by each row's length. |
| Ragged.EncodeWellFormed | tests/unit/torch/transforms/test_sequences.py:14-18 | Every encoding has non-decreasing offsets from 0 to the number of values. |
| Ragged.DecodeEncode | tests/unit/torch/transforms/test_sequences.py:12-19 | Slicing the values at neighbouring offsets gives back the encoded rows. |
| Ragged.EncodeDecode | tests/unit/torch/transforms/test_sequences.py:12-19 | Every well-formed values/offsets pair is the encoding of its decoded rows. |
| Ragged.RowLengthsOfEncoding | tests/unit/torch/transforms/test_sequences.py:16-18 | The differences of neighbouring offsets are the row lengths. |
| Padding.PadFeatures | tests/unit/torch/transforms/test_sequences.py:49-59 | The padded features are exactly the sequence-tagged features present, ragged or dense, under their base names. Each has width `max_sequence_length` in dimension 1, one row per batch row, and the trailing dimensions of a dense input. |
| Padding.SequenceLengths | tests/unit/torch/transforms/test_sequences.py:56 | The reported lengths cover exactly the ragged sequence features and are the differences of their offsets. |
| Padding.PadTargets | tests/unit/torch/transforms/test_sequences.py:83-97 | Every ragged target is padded to width `max_sequence_length`. Every other target is returned unchanged, and no other key appears. |
| Padding.Forward | tests/unit/torch/transforms/test_sequences.py:49-97 | It fails with the row-length ValueError exactly when two ragged features disagree on their row lengths. Otherwise it returns the padded features, their lengths and the padded targets. |
| Padding.RejectsExactlyMismatches | tests/unit/torch/transforms/test_sequences.py:61-81 | The batch is rejected if and only if two of its ragged features imply different row lengths. |
| Padding.RecoveredLengths | tests/unit/torch/transforms/test_sequences.py:56 | For a ragged sequence feature whose offsets encode `rows`, the reported length is the list of lengths of `rows`. |
| Padding.MismatchRejected | tests/unit/torch/transforms/test_sequences.py:61-81 | Two ragged features encoding rows of different lengths make padding fail with the row-length ValueError, under any schema and width. |
| Padding.PaddedFeaturesExample | tests/unit/torch/transforms/test_sequences.py:49-59 | On the test fixture with width 8, `a` has lengths `[2, 0, 3]`, the features are exactly `a`, `b` and `c_dense`, and each is 8 wide. |
| Padding.InvalidLengthsExample | tests/unit/torch/transforms/test_sequences.py:61-81 | Rows of lengths `[2, 0, 3]` and `[1, 2, 4]` are rejected with the row-length message. |
| Padding.PaddedTargetsExample | tests/unit/torch/transforms/test_sequences.py:83-97 | The ragged target `target_2` becomes 8 wide, and `target_1` is returned unchanged. |
| Broadcast.Select | tests/unit/torch/transforms/test_sequences.py:114-117 | Resolving a selection against a schema keeps exactly the schema's columns named in the selection. |
| Broadcast.BroadcastToSequence.constructor | tests/unit/torch/transforms/test_sequences.py:110-112 | A new transform keeps the two given schemas, and both of its feature-name lists start empty. |
| Broadcast.ForwardBeforeInitialize | tests/unit/torch/transforms/test_sequences.py:110-112 | A forward pass on a freshly constructed transform, before `initialize_from_schema`, finds no sequence feature and raises IndexError, whatever the inputs. |
| Broadcast.BroadcastToSequence.InitializeFromSchema | tests/unit/torch/transforms/test_sequences.py:114-117 | The two feature-name lists become the names of the selected schema columns, in schema order. |
| Broadcast.GetSeqLength | tests/unit/torch/transforms/test_sequences.py:119-132 | When the first sequence feature is given ragged, the length is the one derived from its offsets. Otherwise the call succeeds exactly when that feature is present with at least two dimensions, and the length is its second dimension. |
| Broadcast.BroadcastOne | tests/unit/torch/transforms/test_sequences.py:134-146 | A 2- or 3-dimensional feature gains an axis of the sequence length after the batch axis, and its other dimensions are kept. Any other rank raises RuntimeError "Unsupported number of dimensions: " followed by the rank. |
| Broadcast.BroadcastItems | tests/unit/torch/transforms/test_sequences.py:134-139 | On success, the output's keys are the keys of the to-broadcast and sequence features, in input order. |
| Broadcast.Kept | tests/unit/torch/transforms/test_sequences.py:134-139 | The items passed on are exactly the inputs that are to-broadcast features or entries of sequence features: the feature itself, or its `__values` or `__offsets` entry. |
| Broadcast.BroadcastFails | tests/unit/torch/transforms/test_sequences.py:141-146 | Once the sequence length is known, forward fails if and only if some to-broadcast feature has an unsupported rank. The error names the rank of the first such feature. |
| Broadcast.BroadcastShapes | tests/unit/torch/transforms/test_sequences.py:134-139 | On success, the output lists the kept items in input order. To-broadcast features are broadcast, and the entries of sequence features, dense or ragged, are unchanged. |
| Broadcast.SequenceItemPassesThrough | tests/unit/torch/transforms/test_sequences.py:123-139 | An entry of a sequence feature that is not itself to be broadcast, including the `__values` and `__offsets` entries of a ragged one, appears unchanged in a successful output. |
| Broadcast.BroadcastToSequence.Forward | tests/unit/torch/transforms/test_sequences.py:134-146 | Forward fails with the sequence-length error when there is one. Otherwise it broadcasts every item with that length. |
| Broadcast.InitializeExample | tests/unit/torch/transforms/test_sequences.py:114-117 | The test's schema yields `["feature_1", "feature_3"]` and `["feature_2"]`. |
| Broadcast.ForwardExample | tests/unit/torch/transforms/test_sequences.py:119-139 | On the test's inputs the sequence length is 3. `feature_1` and `feature_3` become (2, 3, 3) and `feature_2` stays (2, 3, 2). |
| Broadcast.UnsupportedExample | tests/unit/torch/transforms/test_sequences.py:141-146 | A 4-dimensional `feature_3` raises "Unsupported number of dimensions: 4". |

## Left out

- Layer numerics are not modelled: matrix products, activations, dropout randomness, batch statistics, kernel and bias initializers and regularizers all belong to Keras. Layers are descriptions.
- The `Dense` wrapper class (`merlin_models/tf/block/mlp.py`:84-143) is not modelled beyond the description `Dense(units, activation, use_bias)` that the builders create. Its `call` and `compute_output_shape` delegate to Keras.
- Dictionary inputs are not modelled. These are the pre-aggregation through `tabular_aggregation_registry` in `call` and `compute_output_shape`, so the model covers tensor inputs only.
- `get_config` and `from_config` serialization are not modelled. They are a Keras round trip.
- The `filter` argument and extra keyword arguments of `MLPBlock` are not modelled. `filter` selects input features at run time; the block records its layers and name.
- The body of `Block.repeat` is not part of this model. `DenseResidualBlock` records the call and its count.
- `super().build(input_shape)` is modelled only as setting a `built` flag.
- Tensor element values are not modelled, except the offsets of ragged features. Padded tensors are described by their shapes, not by their zero-filled contents.
- The `TabularPadding` default `max_sequence_length` and its truncation of longer sequences are not modelled. The model takes the width as given, and the shapes only state the resulting width.
- Broadcast.GetSeqLength: when the first sequence feature is given ragged, the length derived from its offsets is a parameter (`offsetsLength`). The model does not compute it; the test expects 3 in `tests/unit/torch/transforms/test_sequences.py`:123-132.
- Broadcast.GetSeqLength: the errors for an empty sequence-feature list (IndexError), a missing first sequence feature (KeyError) and one with fewer than two dimensions (IndexError) are modelling choices, following Python indexing. The transform's body is not part of this model, and the tests exercise none of these cases.
- Broadcast.BroadcastFails: naming the first unsupported feature in input order is a modelling choice. The test passes only one such feature.
- Broadcast.BroadcastItems: a feature mapping is an ordered list of pairs, which could repeat a key where a Python dict cannot. No contract excludes repeated keys, and `Lookup` takes the first occurrence.
- Padding.Forward: the tests only require that the row-length error message contain its text (`pytest.raises(..., match=...)`, tests/unit/torch/transforms/test_sequences.py:66-69). The model makes that text the whole message.
- Broadcast.BroadcastOne: the tests only require that the error message contain "Unsupported number of dimensions: 4" (tests/unit/torch/transforms/test_sequences.py:145). The model makes the prefix plus the rank the whole message.
- Padding.Forward: requires every dense sequence feature to have at least two dimensions. The behaviour of padding a 1-dimensional sequence feature is not modelled.
- Padding.PadFeatures: requires the same two-dimension condition as `Padding.Forward`.
- Padding.SequenceLengths: reports lengths for ragged sequence features only. The lengths of dense sequence features are not modelled.
- Context features are not passed on. This follows `test_padded_features` (`tests/unit/torch/transforms/test_sequences.py`:57), which asserts the output features are exactly the sequence features.
- Broadcast.BroadcastShapes: items that are neither to-broadcast features nor entries of sequence features do not appear in the model's output. The tests never pass such an item.
- Broadcast.BroadcastShapes: a to-broadcast feature missing from the inputs is skipped without error, since forward goes through the inputs rather than the feature list. The tests never leave one out.
- Broadcast.BroadcastToSequence.constructor: the empty initial feature-name lists are a modelling choice. The tests always call `initialize_from_schema` before using the transform, so `Broadcast.ForwardBeforeInitialize` describes a case they never exercise.
- Unknown (None) dimensions in shapes are not modelled. Every dimension is a natural number.
- The PyTorch `module_test` scripting round trip used by the tests is not modelled.
