/** The contract of TabularPadding over the ragged encoding, as the tests in
    tests/unit/torch/transforms/test_sequences.py assert it: sequence
    features come out padded to the configured width, their per-row lengths
    are recovered from the offsets, ragged targets are padded too, and a
    batch whose ragged features disagree on row lengths is rejected. The
    transform's own body is not part of this model, so the padded tensors
    are described by their shapes only. */
module Padding {
  import opened Wrappers
  import opened Tensors
  import Ragged

  /** A feature or target mapping. A ragged feature `x` is the pair of
      entries `x__values` and `x__offsets`. */
  type TensorMap = map<string, Tensor>

  datatype Batch = Batch(features: TensorMap, targets: Option<TensorMap>)

  /** A padded batch, with the pre-padding row lengths of every padded
      ragged sequence feature. */
  datatype PaddedBatch = PaddedBatch(
    features: TensorMap,
    lengths: map<string, seq<int>>,
    targets: Option<TensorMap>)

  datatype TabularPadding = TabularPadding(schema: Schema, maxSequenceLength: nat)

  const LengthMismatch: string :=
    "The sequential inputs must have the same length for each row in the batch"

  /** `m` holds `name` in the ragged encoding. */
  predicate IsRagged(m: TensorMap, name: string) {
    ValuesKey(name) in m && OffsetsKey(name) in m
  }

  predicate HasSuffix(k: string, suffix: string) {
    |k| >= |suffix| && k[|k| - |suffix|..] == suffix
  }

  function StripSuffix(k: string, suffix: string): string
    requires HasSuffix(k, suffix)
  {
    k[..|k| - |suffix|]
  }

  /** The base names of the ragged features of `m`. */
  function RaggedNames(m: TensorMap): set<string> {
    set k | k in m && HasSuffix(k, OffsetsSuffix) && IsRagged(m, StripSuffix(k, OffsetsSuffix))
      :: StripSuffix(k, OffsetsSuffix)
  }

  lemma RaggedNamesSpec(m: TensorMap)
    ensures forall name :: name in RaggedNames(m) <==> IsRagged(m, name)
  {
    forall name | IsRagged(m, name)
      ensures name in RaggedNames(m)
    {
      var k := OffsetsKey(name);
      assert HasSuffix(k, OffsetsSuffix) && StripSuffix(k, OffsetsSuffix) == name;
    }
  }

  /** The offsets of ragged feature `name`. */
  function OffsetsOf(m: TensorMap, name: string): seq<int> {
    if OffsetsKey(name) in m && m[OffsetsKey(name)].Ints? then m[OffsetsKey(name)].elems else []
  }

  /** The shape of a tensor after its first dimension. */
  function Trailing(t: Tensor): seq<nat> {
    if |Shape(t)| == 0 then [] else Shape(t)[1..]
  }

  /** A ragged feature padded (or truncated) to `width`: one row per pair
      of neighbouring offsets, `width` wide, with the values' trailing
      dimensions. */
  function PadRagged(m: TensorMap, name: string, width: nat): Tensor
    requires IsRagged(m, name)
  {
    Shaped([|Ragged.RowLengths(OffsetsOf(m, name))|, width] + Trailing(m[ValuesKey(name)]))
  }

  /** A dense sequence feature padded (or truncated) in its second
      dimension to `width`. */
  function PadDense(t: Tensor, width: nat): Tensor
    requires |Shape(t)| >= 2
  {
    Shaped([Shape(t)[0], width] + Shape(t)[2..])
  }

  function SequenceNames(schema: Schema): set<string> {
    set c | c in schema && Sequence in c.tags :: c.name
  }

  /** Every dense sequence feature has a second dimension to pad. */
  predicate DenseSequencesHaveWidth(schema: Schema, m: TensorMap) {
    forall c :: c in SequenceNames(schema) && c in m && !IsRagged(m, c) ==> |Shape(m[c])| >= 2
  }

  /** All ragged features of `m` imply the same row lengths. */
  predicate SameRowLengths(m: TensorMap) {
    forall a, b :: a in RaggedNames(m) && b in RaggedNames(m) ==>
      Ragged.RowLengths(OffsetsOf(m, a)) == Ragged.RowLengths(OffsetsOf(m, b))
  }

  /** Keys of a target mapping that are neither a ragged target nor one of
      its two parts. */
  function PlainKeys(t: TensorMap): set<string> {
    set k | k in t && !IsRagged(t, k)
      && !(HasSuffix(k, ValuesSuffix) && IsRagged(t, StripSuffix(k, ValuesSuffix)))
      && !(HasSuffix(k, OffsetsSuffix) && IsRagged(t, StripSuffix(k, OffsetsSuffix)))
  }

  /** Targets: every ragged target is padded, every other target is kept as
      it is, whatever the schema says. */
  function PadTargets(t: TensorMap, width: nat): (out: TensorMap)
    ensures forall k :: k in out <==> IsRagged(t, k) || k in PlainKeys(t)
    ensures forall k :: k in PlainKeys(t) ==> out[k] == t[k]
    ensures forall k :: IsRagged(t, k) ==> |Shape(out[k])| >= 2 && Shape(out[k])[1] == width
    ensures forall k :: IsRagged(t, k) ==>
      Shape(out[k])[0] == |Ragged.RowLengths(OffsetsOf(t, k))|
  {
    RaggedNamesSpec(t);
    map k | k in RaggedNames(t) + PlainKeys(t) ::
      if k in PlainKeys(t) then t[k] else PadRagged(t, k, width)
  }

  /** The sequence features of `m` under their base names, padded. */
  function PadFeatures(schema: Schema, m: TensorMap, width: nat): (out: TensorMap)
    requires DenseSequencesHaveWidth(schema, m)
    ensures forall c :: c in out <==> c in SequenceNames(schema) && (IsRagged(m, c) || c in m)
    ensures forall c :: c in out ==> |Shape(out[c])| >= 2 && Shape(out[c])[1] == width
    ensures forall c :: c in out && IsRagged(m, c) ==>
      Shape(out[c])[0] == |Ragged.RowLengths(OffsetsOf(m, c))|
    ensures forall c :: c in out && !IsRagged(m, c) ==>
      Shape(out[c])[0] == Shape(m[c])[0] && Shape(out[c])[2..] == Shape(m[c])[2..]
  {
    map c | c in SequenceNames(schema) && (IsRagged(m, c) || c in m) ::
      if IsRagged(m, c) then PadRagged(m, c, width) else PadDense(m[c], width)
  }

  /** The pre-padding row lengths of the ragged sequence features of `m`. */
  function SequenceLengths(schema: Schema, m: TensorMap): (lengths: map<string, seq<int>>)
    ensures forall c :: c in lengths <==> c in SequenceNames(schema) && IsRagged(m, c)
    ensures forall c :: c in lengths ==> lengths[c] == Ragged.RowLengths(OffsetsOf(m, c))
  {
    map c | c in SequenceNames(schema) && IsRagged(m, c) :: Ragged.RowLengths(OffsetsOf(m, c))
  }

  /** Applying TabularPadding to a batch: the row-length check comes first,
      then the features and the targets are padded. */
  function Forward(p: TabularPadding, batch: Batch): (r: Result<PaddedBatch>)
    requires DenseSequencesHaveWidth(p.schema, batch.features)
    ensures r.Err? <==> !SameRowLengths(batch.features)
    ensures r.Err? ==> r.error == ValueError(LengthMismatch)
    ensures r.Ok? ==> r.value.features == PadFeatures(p.schema, batch.features, p.maxSequenceLength)
    ensures r.Ok? ==> r.value.lengths == SequenceLengths(p.schema, batch.features)
    ensures r.Ok? ==> r.value.targets.Some? == batch.targets.Some?
    ensures r.Ok? && batch.targets.Some? ==>
      r.value.targets.value == PadTargets(batch.targets.value, p.maxSequenceLength)
  {
    if !SameRowLengths(batch.features) then
      Err(ValueError(LengthMismatch))
    else
      var targets :=
        if batch.targets.Some? then Some(PadTargets(batch.targets.value, p.maxSequenceLength)) else None;
      Ok(PaddedBatch(
        PadFeatures(p.schema, batch.features, p.maxSequenceLength),
        SequenceLengths(p.schema, batch.features),
        targets))
  }

  /** The batch is rejected exactly when two of its ragged features imply
      different row lengths. */
  lemma RejectsExactlyMismatches(p: TabularPadding, batch: Batch)
    requires DenseSequencesHaveWidth(p.schema, batch.features)
    ensures Forward(p, batch).Err? <==>
      (exists a, b :: IsRagged(batch.features, a) && IsRagged(batch.features, b) &&
        Ragged.RowLengths(OffsetsOf(batch.features, a)) != Ragged.RowLengths(OffsetsOf(batch.features, b)))
  {
    RaggedNamesSpec(batch.features);
  }

  /** A padded ragged feature that encodes `rows` reports the lengths of
      those rows. */
  lemma RecoveredLengths(p: TabularPadding, batch: Batch, c: string, rows: seq<seq<int>>)
    requires DenseSequencesHaveWidth(p.schema, batch.features)
    requires Forward(p, batch).Ok?
    requires c in SequenceNames(p.schema) && IsRagged(batch.features, c)
    requires batch.features[OffsetsKey(c)] == Ints(Ragged.Offsets(rows))
    ensures c in Forward(p, batch).value.lengths
    ensures Forward(p, batch).value.lengths[c] == Ragged.Lengths(rows)
  {
    Ragged.RowLengthsOfEncoding(rows);
  }

  /** Two ragged features encoding rows of different lengths make the
      batch fail, whatever the schema and the width. */
  lemma MismatchRejected(p: TabularPadding, batch: Batch, a: string, b: string,
                         rowsA: seq<seq<int>>, rowsB: seq<seq<int>>)
    requires DenseSequencesHaveWidth(p.schema, batch.features)
    requires IsRagged(batch.features, a) && IsRagged(batch.features, b)
    requires batch.features[OffsetsKey(a)] == Ints(Ragged.Offsets(rowsA))
    requires batch.features[OffsetsKey(b)] == Ints(Ragged.Offsets(rowsB))
    requires Ragged.Lengths(rowsA) != Ragged.Lengths(rowsB)
    ensures Forward(p, batch) == Err(ValueError(LengthMismatch))
  {
    Ragged.RowLengthsOfEncoding(rowsA);
    Ragged.RowLengthsOfEncoding(rowsB);
    RaggedNamesSpec(batch.features);
  }

  // ---------------------------------------------------------------------
  // The test fixtures of TestPadBatch
  // ---------------------------------------------------------------------

  function RowsA(): seq<seq<int>> { [[1, 2], [], [3, 4, 5]] }
  function RowsB(): seq<seq<int>> { [[34, 30], [], [33, 23, 50]] }

  function FixtureSchema(): Schema {
    [ColumnSchema("a", {Sequence}), ColumnSchema("b", {Sequence}),
     ColumnSchema("c_dense", {Sequence}), ColumnSchema("d_context", {Context})]
  }

  function FixtureFeatures(): TensorMap {
    map[
      "a__values" := Ints(Ragged.Flatten(RowsA())), "a__offsets" := Ints(Ragged.Offsets(RowsA())),
      "b__values" := Ints(Ragged.Flatten(RowsB())), "b__offsets" := Ints(Ragged.Offsets(RowsB())),
      "c_dense" := Shaped([3, 3]), "d_context" := Shaped([3])]
  }

  lemma FixtureSequenceNames()
    ensures SequenceNames(FixtureSchema()) == {"a", "b", "c_dense"}
  {
    var s := FixtureSchema();
    assert s[0] in s && s[1] in s && s[2] in s;
  }

  lemma FixtureRagged(name: string)
    requires IsRagged(FixtureFeatures(), name)
    ensures name == "a" || name == "b"
  {
    var k := OffsetsKey(name);
    assert k in FixtureFeatures();
    if |name| == 1 {
      assert k[0] == name[0];
    }
  }

  lemma FixtureOffsets()
    ensures IsRagged(FixtureFeatures(), "a") && IsRagged(FixtureFeatures(), "b")
    ensures OffsetsOf(FixtureFeatures(), "a") == Ragged.Offsets(RowsA())
    ensures OffsetsOf(FixtureFeatures(), "b") == Ragged.Offsets(RowsB())
  {
    assert ValuesKey("a") == "a__values" && OffsetsKey("a") == "a__offsets";
    assert ValuesKey("b") == "b__values" && OffsetsKey("b") == "b__offsets";
  }

  lemma FixtureRowLengths()
    ensures Ragged.RowLengths(OffsetsOf(FixtureFeatures(), "a")) == [2, 0, 3]
    ensures Ragged.RowLengths(OffsetsOf(FixtureFeatures(), "b")) == [2, 0, 3]
  {
    FixtureOffsets();
    Ragged.RowLengthsOfEncoding(RowsA());
    Ragged.RowLengthsOfEncoding(RowsB());
    assert Ragged.Lengths(RowsA()) == [2, 0, 3];
    assert Ragged.Lengths(RowsB()) == [2, 0, 3];
  }

  lemma FixtureSameRowLengths()
    ensures IsRagged(FixtureFeatures(), "a") && IsRagged(FixtureFeatures(), "b")
    ensures Ragged.RowLengths(OffsetsOf(FixtureFeatures(), "a")) == [2, 0, 3]
    ensures SameRowLengths(FixtureFeatures())
  {
    var f := FixtureFeatures();
    FixtureOffsets();
    FixtureRowLengths();
    RaggedNamesSpec(f);
    forall a, b | a in RaggedNames(f) && b in RaggedNames(f)
      ensures Ragged.RowLengths(OffsetsOf(f, a)) == Ragged.RowLengths(OffsetsOf(f, b))
    {
      FixtureRagged(a);
      FixtureRagged(b);
    }
  }

  lemma FixtureDenseWidth()
    ensures !IsRagged(FixtureFeatures(), "c_dense")
    ensures DenseSequencesHaveWidth(FixtureSchema(), FixtureFeatures())
  {
    FixtureSequenceNames();
    if IsRagged(FixtureFeatures(), "c_dense") {
      FixtureRagged("c_dense");
    }
  }

  /** test_padded_features: padding the fixture to width 8 recovers the row
      lengths [2, 0, 3] of `a`, keeps exactly the sequence features `a`,
      `b` and `c_dense`, and makes each of them 8 wide. */
  lemma PaddedFeaturesExample()
    ensures DenseSequencesHaveWidth(FixtureSchema(), FixtureFeatures())
    ensures var r := Forward(TabularPadding(FixtureSchema(), 8), Batch(FixtureFeatures(), None));
      r.Ok? && "a" in r.value.lengths && r.value.lengths["a"] == [2, 0, 3] &&
      r.value.features.Keys == {"a", "b", "c_dense"} &&
      forall c :: c in r.value.features ==> Shape(r.value.features[c])[1] == 8
  {
    FixtureSameRowLengths();
    FixtureDenseWidth();
    FixtureSequenceNames();
    var out := PadFeatures(FixtureSchema(), FixtureFeatures(), 8);
    assert "c_dense" in FixtureFeatures();
    assert out.Keys == {"a", "b", "c_dense"};
  }

  /** test_batch_invalid_lengths: rows of lengths [2, 0, 3] and [1, 2, 4]
      under an untagged schema are rejected. */
  lemma InvalidLengthsExample()
    ensures var a: seq<seq<int>> := [[1, 2], [], [3, 4, 5]];
      var b: seq<seq<int>> := [[34], [23, 56], [33, 23, 50, 4]];
      var f := map[
        "a__values" := Ints(Ragged.Flatten(a)), "a__offsets" := Ints(Ragged.Offsets(a)),
        "b__values" := Ints(Ragged.Flatten(b)), "b__offsets" := Ints(Ragged.Offsets(b))];
      var p := TabularPadding(Untagged(["a", "b"]), 0);
      DenseSequencesHaveWidth(p.schema, f) &&
      Forward(p, Batch(f, None)) == Err(ValueError(LengthMismatch))
  {
    var a: seq<seq<int>> := [[1, 2], [], [3, 4, 5]];
    var b: seq<seq<int>> := [[34], [23, 56], [33, 23, 50, 4]];
    var f := map[
      "a__values" := Ints(Ragged.Flatten(a)), "a__offsets" := Ints(Ragged.Offsets(a)),
      "b__values" := Ints(Ragged.Flatten(b)), "b__offsets" := Ints(Ragged.Offsets(b))];
    var p := TabularPadding(Untagged(["a", "b"]), 0);
    assert SequenceNames(p.schema) == {};
    assert ValuesKey("a") == "a__values" && OffsetsKey("a") == "a__offsets";
    assert ValuesKey("b") == "b__values" && OffsetsKey("b") == "b__offsets";
    assert Ragged.Lengths(a)[0] != Ragged.Lengths(b)[0];
    MismatchRejected(p, Batch(f, None), "a", "b", a, b);
  }

  /** test_padded_targets: the ragged target is padded to width 8 and the
      dense target is returned unchanged. */
  lemma PaddedTargetsExample()
    ensures var t := map[
        "target_1" := Shaped([3]),
        "target_2__values" := Ints(Ragged.Flatten([[10, 11], [], [12, 13, 14]])),
        "target_2__offsets" := Ints(Ragged.Offsets([[10, 11], [], [12, 13, 14]]))];
      var out := PadTargets(t, 8);
      "target_2" in out && Shape(out["target_2"])[1] == 8 &&
      "target_1" in out && out["target_1"] == t["target_1"]
  {
    var rows: seq<seq<int>> := [[10, 11], [], [12, 13, 14]];
    var t := map[
      "target_1" := Shaped([3]),
      "target_2__values" := Ints(Ragged.Flatten(rows)),
      "target_2__offsets" := Ints(Ragged.Offsets(rows))];
    assert ValuesKey("target_2") == "target_2__values";
    assert OffsetsKey("target_2") == "target_2__offsets";
    assert IsRagged(t, "target_2");
    assert !IsRagged(t, "target_1") by {
      assert OffsetsKey("target_1")[7] == '1';
    }
    var k := "target_1";
    assert !HasSuffix(k, ValuesSuffix) by {
      assert k[0] != ValuesSuffix[0];
    }
    assert k in PlainKeys(t);
  }
}
