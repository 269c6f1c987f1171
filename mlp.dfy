/** Layer-list construction of the MLP and dense-residual blocks, and the
    DenseMaybeLowRank layer (merlin_models/tf/block/mlp.py).

    Layers are kept as descriptions of what the builders create; their
    numerics (matrix products, activations, dropout randomness, batch
    statistics, initialisers, regularisers) belong to Keras and are not part
    of this model. */
module Mlp {
  import opened Wrappers

  /** A layer as the builders see it. */
  datatype Layer =
    | Dense(units: int, activation: Option<string>, useBias: bool)
    | Dropout(rate: real)
    | BatchNormalization
      // a caller-supplied `tf.keras.layers.Layer` instance, inserted as-is
    | Custom(id: nat)
      // a DenseMaybeLowRank layer as an element of a layer list
    | MaybeLowRank(lowRankDim: Option<int>, activation: Option<string>, useBias: bool)

  /** The `normalization` argument, a Python value: None, a string, a Keras
      layer, or anything else (whose truthiness is all that matters). */
  datatype Normalization =
    | NoNormalization
    | Named(name: string)
    | Instance(id: nat)
    | Other(truthy: bool)

  /** Python truthiness of the `normalization` argument. */
  predicate IsTruthy(n: Normalization) {
    match n
    case NoNormalization => false
    case Named(s) => s != ""
    case Instance(_) => true
    case Other(t) => t
  }

  /** The only truthy normalizations the builders accept. */
  predicate ValidNormalization(n: Normalization) {
    !IsTruthy(n) || n == Named("batch_norm") || n.Instance?
  }

  /** Python truthiness of the `dropout: Optional[float]` argument. */
  predicate DropoutTruthy(dropout: Option<real>) {
    dropout.Some? && dropout.value != 0.0
  }

  const NormalizationError: string :=
    "Normalization needs to be an instance `Layer` or `batch_norm`"

  /** What the normalization branch appends, or the error it raises. */
  function NormalizationLayers(n: Normalization): Result<seq<Layer>> {
    if !IsTruthy(n) then Ok([])
    else if n == Named("batch_norm") then Ok([BatchNormalization])
    else if n.Instance? then Ok([Custom(n.id)])
    else Err(ValueError(NormalizationError))
  }

  function DropoutLayers(dropout: Option<real>): seq<Layer> {
    if DropoutTruthy(dropout) then [Dropout(dropout.value)] else []
  }

  /** How many layers each group adds. */
  function GroupSize(dropout: Option<real>, n: Normalization): nat {
    1 + (if DropoutTruthy(dropout) then 1 else 0) + (if IsTruthy(n) then 1 else 0)
  }

  /** One group of layers as both builders append it: a dense layer, then the
      dropout layer if any, then the normalization layer if any. */
  function LayerGroup(first: Layer, dropout: Option<real>, n: Normalization): (r: Result<seq<Layer>>)
    ensures r.Err? <==> !ValidNormalization(n)
    ensures r.Err? ==> r.error == ValueError(NormalizationError)
    ensures r.Ok? ==> |r.value| == GroupSize(dropout, n) && r.value[0] == first
    ensures r.Ok? && DropoutTruthy(dropout) ==> r.value[1] == Dropout(dropout.value)
    ensures r.Ok? && n == Named("batch_norm") ==> r.value[|r.value| - 1] == BatchNormalization
    ensures r.Ok? && n.Instance? ==> r.value[|r.value| - 1] == Custom(n.id)
    ensures r.Ok? && !IsTruthy(n) && !DropoutTruthy(dropout) ==> r.value == [first]
  {
    match NormalizationLayers(n)
    case Err(e) => Err(e)
    case Ok(ns) => Ok([first] + DropoutLayers(dropout) + ns)
  }

  /** The arguments every group of an MLP block shares. */
  datatype BlockOptions = BlockOptions(
    activation: Option<string>,
    useBias: bool,
    dropout: Option<real>,
    normalization: Normalization)

  function DimensionGroup(dim: int, o: BlockOptions): Result<seq<Layer>> {
    LayerGroup(Dense(dim, o.activation, o.useBias), o.dropout, o.normalization)
  }

  /** The layer list of an MLP block over `dims`, built dimension by
      dimension: the specification of MlpBlock's loop. */
  function MlpLayers(dims: seq<int>, o: BlockOptions): Result<seq<Layer>> {
    if dims == [] then Ok([])
    else
      match MlpLayers(dims[..|dims| - 1], o)
      case Err(e) => Err(e)
      case Ok(prefix) =>
        match DimensionGroup(dims[|dims| - 1], o)
        case Err(e) => Err(e)
        case Ok(group) => Ok(prefix + group)
  }

  /** The units of the dense layers of `layers`, in order. */
  function DenseUnits(layers: seq<Layer>): seq<int> {
    if layers == [] then []
    else
      DenseUnits(layers[..|layers| - 1])
      + (if layers[|layers| - 1].Dense? then [layers[|layers| - 1].units] else [])
  }

  /** A SequentialBlock: an ordered list of layers and a block name. The
      `filter` argument selects input features by schema and is not part of
      this model. */
  datatype SequentialBlock = SequentialBlock(layers: seq<Layer>, name: string)

  /** A residual block around a sequential block, or a block repeated by
      `Block.repeat`, whose body is not part of this model: `times` records
      the count passed to it. */
  datatype Block =
    | Residual(body: SequentialBlock, activation: Option<string>)
    | Repeated(block: Block, times: int)

  // ---------------------------------------------------------------------
  // MLPBlock
  // ---------------------------------------------------------------------

  /** MLPBlock: appends one group per entry of `dimensions`; an invalid
      normalization raises inside the loop, so only when there is at least
      one dimension. */
  method MlpBlock(
    dimensions: seq<int>,
    activation: Option<string> := Some("relu"),
    useBias: bool := true,
    dropout: Option<real> := None,
    normalization: Normalization := NoNormalization,
    blockName: string := "MLPBlock")
    returns (r: Result<SequentialBlock>)
    ensures var spec := MlpLayers(dimensions, BlockOptions(activation, useBias, dropout, normalization));
      (r.Err? <==> spec.Err?) &&
      (r.Err? ==> r.error == spec.error) &&
      (r.Ok? ==> r.value == SequentialBlock(spec.value, blockName))
  {
    ghost var o := BlockOptions(activation, useBias, dropout, normalization);
    var blockLayers: seq<Layer> := [];
    for i := 0 to |dimensions|
      invariant MlpLayers(dimensions[..i], o) == Ok(blockLayers)
    {
      assert dimensions[..i + 1][..i] == dimensions[..i];
      var dim := dimensions[i];
      ghost var before := blockLayers;
      blockLayers := blockLayers + [Dense(dim, activation, useBias)];
      if DropoutTruthy(dropout) {
        blockLayers := blockLayers + [Dropout(dropout.value)];
      }
      if IsTruthy(normalization) {
        if normalization == Named("batch_norm") {
          blockLayers := blockLayers + [BatchNormalization];
        } else if normalization.Instance? {
          blockLayers := blockLayers + [Custom(normalization.id)];
        } else {
          MlpBlockFails(dimensions, o);
          return Err(ValueError(NormalizationError));
        }
      }
      assert blockLayers == before + DimensionGroup(dim, o).value;
    }
    assert dimensions[..|dimensions|] == dimensions;
    r := Ok(SequentialBlock(blockLayers, blockName));
  }

  /** An MLP block fails exactly when there is at least one dimension and the
      normalization is invalid, and then with the normalization message. */
  lemma {:induction false} MlpBlockFails(dims: seq<int>, o: BlockOptions)
    ensures MlpLayers(dims, o).Err? <==> |dims| > 0 && !ValidNormalization(o.normalization)
    ensures MlpLayers(dims, o).Err? ==> MlpLayers(dims, o).error == ValueError(NormalizationError)
  {
    if dims != [] {
      MlpBlockFails(dims[..|dims| - 1], o);
    }
  }

  /** An MLP block has GroupSize layers per dimension. */
  lemma {:induction false} MlpBlockLength(dims: seq<int>, o: BlockOptions)
    requires MlpLayers(dims, o).Ok?
    ensures |MlpLayers(dims, o).value| == |dims| * GroupSize(o.dropout, o.normalization)
  {
    if dims != [] {
      MlpBlockLength(dims[..|dims| - 1], o);
    }
  }

  lemma MulMonotone(a: nat, b: nat, k: nat)
    requires a <= b
    ensures a * k <= b * k
  {
  }

  /** The group of layers for dimension `i` sits at positions
      `i * k .. (i + 1) * k` of the block, where `k` is the group size: the
      dense layer with `dims[i]` units, then the dropout, then the
      normalization layer. */
  lemma {:induction false} MlpBlockGroupAt(dims: seq<int>, o: BlockOptions, i: nat)
    requires MlpLayers(dims, o).Ok? && i < |dims|
    ensures var k := GroupSize(o.dropout, o.normalization);
      var layers := MlpLayers(dims, o).value;
      (i + 1) * k <= |layers| &&
      DimensionGroup(dims[i], o).Ok? &&
      layers[i * k .. (i + 1) * k] == DimensionGroup(dims[i], o).value
  {
    var k := GroupSize(o.dropout, o.normalization);
    var n := |dims|;
    var prefix := dims[..n - 1];
    MlpBlockLength(prefix, o);
    MlpBlockFails(dims, o);
    var before := MlpLayers(prefix, o).value;
    var group := DimensionGroup(dims[n - 1], o).value;
    assert MlpLayers(dims, o).value == before + group;
    assert |before| == (n - 1) * k;
    if i < n - 1 {
      MlpBlockGroupAt(prefix, o, i);
      MulMonotone(i + 1, n - 1, k);
      assert (before + group)[i * k .. (i + 1) * k] == before[i * k .. (i + 1) * k];
    } else {
      assert i * k == |before|;
      assert (i + 1) * k == |before| + |group|;
      assert (before + group)[i * k .. (i + 1) * k] == group;
    }
  }

  lemma {:induction false} DenseUnitsAppend(a: seq<Layer>, b: seq<Layer>)
    ensures DenseUnits(a + b) == DenseUnits(a) + DenseUnits(b)
  {
    if b == [] {
      assert a + b == a;
    } else {
      assert (a + b)[..|a + b| - 1] == a + b[..|b| - 1];
      assert (a + b)[|a + b| - 1] == b[|b| - 1];
      DenseUnitsAppend(a, b[..|b| - 1]);
    }
  }

  /** A group holds exactly one dense layer: the one for its dimension. */
  lemma GroupDenseUnits(dim: int, o: BlockOptions)
    requires DimensionGroup(dim, o).Ok?
    ensures DenseUnits(DimensionGroup(dim, o).value) == [dim]
  {
    var dense := [Dense(dim, o.activation, o.useBias)];
    var drop := DropoutLayers(o.dropout);
    var ns := NormalizationLayers(o.normalization).value;
    assert DimensionGroup(dim, o).value == dense + drop + ns;
    DenseUnitsAppend(dense, drop);
    DenseUnitsAppend(dense + drop, ns);
    assert DenseUnits(drop) == [] by {
      if drop != [] {
        assert drop[..0] == [];
      }
    }
    assert DenseUnits(ns) == [] by {
      if ns != [] {
        assert ns[..0] == [];
      }
    }
    assert DenseUnits(dense) == [dim] by {
      assert dense[..0] == [];
    }
  }

  /** A successful MLP block holds exactly one dense layer per dimension, in
      the order of `dims`, each with that dimension as its units. */
  lemma {:induction false} MlpBlockDenseUnits(dims: seq<int>, o: BlockOptions)
    requires MlpLayers(dims, o).Ok?
    ensures DenseUnits(MlpLayers(dims, o).value) == dims
  {
    if dims != [] {
      var n := |dims|;
      var prefix := dims[..n - 1];
      MlpBlockDenseUnits(prefix, o);
      GroupDenseUnits(dims[n - 1], o);
      var group := DimensionGroup(dims[n - 1], o).value;
      assert MlpLayers(dims, o).value == MlpLayers(prefix, o).value + group;
      DenseUnitsAppend(MlpLayers(prefix, o).value, group);
      assert prefix + [dims[n - 1]] == dims;
    }
  }

  // ---------------------------------------------------------------------
  // DenseResidualBlock
  // ---------------------------------------------------------------------

  /** The residual block inside a (possibly repeated) block. */
  function ResidualUnit(b: Block): (r: Block)
    ensures r.Residual?
  {
    match b
    case Residual(_, _) => b
    case Repeated(inner, _) => ResidualUnit(inner)
  }

  /** DenseResidualBlock: a DenseMaybeLowRank layer without activation, the
      optional dropout, the normalization (batch norm by default), wrapped in
      a residual block; repeated `depth - 1` times when `depth > 1`. */
  method DenseResidualBlock(
    lowRankDim: Option<int> := None,
    activation: Option<string> := Some("relu"),
    useBias: bool := true,
    dropout: Option<real> := None,
    normalization: Normalization := Named("batch_norm"),
    depth: int := 1)
    returns (r: Result<Block>)
    ensures r.Err? <==> !ValidNormalization(normalization)
    ensures r.Err? ==> r.error == ValueError(NormalizationError)
    ensures r.Ok? ==> (r.value.Repeated? <==> depth > 1)
    ensures r.Ok? && depth > 1 ==> r.value.times == depth - 1 && r.value.block.Residual?
    ensures r.Ok? ==>
      var unit := ResidualUnit(r.value);
      var layers := unit.body.layers;
      unit.activation == activation && unit.body.name == "DenseResidual" &&
      |layers| == GroupSize(dropout, normalization) &&
      layers[0] == MaybeLowRank(lowRankDim, None, useBias) &&
      Ok(layers) == LayerGroup(MaybeLowRank(lowRankDim, None, useBias), dropout, normalization)
  {
    var blockLayers: seq<Layer> := [];
    blockLayers := blockLayers + [MaybeLowRank(lowRankDim, None, useBias)];
    if DropoutTruthy(dropout) {
      blockLayers := blockLayers + [Dropout(dropout.value)];
    }
    if IsTruthy(normalization) {
      if normalization == Named("batch_norm") {
        blockLayers := blockLayers + [BatchNormalization];
      } else if normalization.Instance? {
        blockLayers := blockLayers + [Custom(normalization.id)];
      } else {
        return Err(ValueError(NormalizationError));
      }
    }
    assert blockLayers == [MaybeLowRank(lowRankDim, None, useBias)] + DropoutLayers(dropout)
      + NormalizationLayers(normalization).value;
    var output := Residual(SequentialBlock(blockLayers, "DenseResidual"), activation);
    if depth > 1 {
      return Ok(Repeated(output, depth - 1));
    }
    return Ok(output);
  }

  // ---------------------------------------------------------------------
  // DenseMaybeLowRank
  // ---------------------------------------------------------------------

  /** What `call` computes, as a term: the layers applied to the input. */
  datatype Expr = Input | Apply(layer: Layer, arg: Expr)

  /** The layers applied to the input of `e`, innermost first. */
  function Applied(e: Expr): seq<Layer> {
    match e
    case Input => []
    case Apply(l, arg) => Applied(arg) + [l]
  }

  const NotCallable: string := "'NoneType' object is not callable"

  class DenseMaybeLowRank {
    const lowRankDim: Option<int>
    const useBias: bool
    const activation: Option<string>
    var dense: Option<Layer>
    var denseU: Option<Layer>
    var built: bool

    /** Both sublayers that `call` uses are present. */
    predicate HasSublayers()
      reads this
    {
      dense.Some? && (lowRankDim.Some? ==> denseU.Some?)
    }

    constructor (
      lowRankDim: Option<int> := None,
      useBias: bool := true,
      activation: Option<string> := None,
      dense: Option<Layer> := None,
      denseU: Option<Layer> := None)
      ensures this.lowRankDim == lowRankDim && this.useBias == useBias
      ensures this.activation == activation
      ensures this.dense == dense && this.denseU == denseU && !built
    {
      this.lowRankDim := lowRankDim;
      this.useBias := useBias;
      this.activation := activation;
      this.dense := dense;
      this.denseU := denseU;
      built := false;
    }

    /** build: reads the last dimension of the input shape (an empty shape
        raises IndexError), then creates `dense` only if it is missing and
        `dense_u` only if a low-rank dimension is set and it is missing. */
    method Build(inputShape: seq<int>) returns (r: Result<()>)
      modifies this
      ensures |inputShape| == 0 ==> r == Err(IndexError) && unchanged(this)
      ensures |inputShape| > 0 ==> r == Ok(()) && built && HasSublayers()
      ensures |inputShape| > 0 ==>
        dense == if old(dense).None?
                 then Some(Dense(inputShape[|inputShape| - 1], activation, useBias))
                 else old(dense)
      ensures |inputShape| > 0 ==>
        denseU == if lowRankDim.Some? && old(denseU).None?
                  then Some(Dense(lowRankDim.value, activation, false))
                  else old(denseU)
    {
      if |inputShape| == 0 {
        return Err(IndexError);
      }
      var lastDim := inputShape[|inputShape| - 1];
      if dense.None? {
        dense := Some(Dense(lastDim, activation, useBias));
      }
      if lowRankDim.Some? && denseU.None? {
        denseU := Some(Dense(lowRankDim.value, activation, false));
      }
      built := true;
      r := Ok(());
    }

    /** call on a non-dict input: `dense` alone without a low-rank dimension,
        otherwise `dense_u` first and `dense` on its output. A missing sublayer
        is None, and calling it raises TypeError. */
    function Call(inputs: Expr): (r: Result<Expr>)
      reads this
      ensures r.Ok? <==> HasSublayers()
      ensures r.Err? ==> r.error == TypeError(NotCallable)
      ensures r.Ok? && lowRankDim.None? ==> Applied(r.value) == Applied(inputs) + [dense.value]
      ensures r.Ok? && lowRankDim.Some? ==>
        Applied(r.value) == Applied(inputs) + [denseU.value, dense.value]
    {
      if lowRankDim.None? then
        if dense.None? then Err(TypeError(NotCallable)) else Ok(Apply(dense.value, inputs))
      else if denseU.None? || dense.None? then Err(TypeError(NotCallable))
      else Ok(Apply(dense.value, Apply(denseU.value, inputs)))
    }

    /** compute_output_shape for a non-dict input shape: the layer keeps the
        shape of its input, since `build` sizes `dense` to the last input
        dimension (see CallMatchesOutputShape). */
    function ComputeOutputShape(inputShape: seq<int>): (r: seq<int>)
      ensures r == inputShape
    {
      inputShape
    }

    /** `build` on a layer without a `dense` sublayer, then `call`: the call
        succeeds, and its outer layer is a dense layer whose units are the
        last dimension of compute_output_shape(inputShape), so the declared
        output shape and the computed output agree. */
    method CallMatchesOutputShape(inputShape: seq<int>, inputs: Expr) returns (out: Result<Expr>)
      requires |inputShape| > 0 && dense.None?
      modifies this
      ensures out == Call(inputs) && out.Ok?
      ensures out.value.Apply? && out.value.layer.Dense? &&
        out.value.layer.units == ComputeOutputShape(inputShape)[|inputShape| - 1]
    {
      var _ := Build(inputShape);
      out := Call(inputs);
    }
  }

  /** A second `build`, with any input shape, changes no sublayer: the layer
      keeps what its first `build` created or was given. */
  method BuildTwice(layer: DenseMaybeLowRank, first: seq<int>, second: seq<int>)
    requires |first| > 0 && |second| > 0
    modifies layer
    ensures layer.HasSublayers() && layer.built
    ensures layer.dense == if old(layer.dense).None?
                           then Some(Dense(first[|first| - 1], layer.activation, layer.useBias))
                           else old(layer.dense)
    ensures layer.denseU == if layer.lowRankDim.Some? && old(layer.denseU).None?
                            then Some(Dense(layer.lowRankDim.value, layer.activation, false))
                            else old(layer.denseU)
  {
    var _ := layer.Build(first);
    var dense, denseU := layer.dense, layer.denseU;
    var _ := layer.Build(second);
    assert layer.dense == dense && layer.denseU == denseU;
  }
}
