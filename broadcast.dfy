/** The contract of BroadcastToSequence, as the tests in
    tests/unit/torch/transforms/test_sequences.py assert it: the feature
    lists are resolved against a schema, the sequence length is read from
    the first sequence feature, every to-broadcast feature gains a sequence
    axis of that length, sequence features (dense, or as their `__values`
    and `__offsets` entries) pass unchanged, and a
    to-broadcast feature that is neither 2- nor 3-dimensional is rejected
    with an error naming its rank. Only shapes are modelled. */
module Broadcast {
  import opened Wrappers
  import opened Tensors

  /** A feature mapping in insertion order, as a Python dict keeps it.
      Unlike the padding transform, which only looks features up, forward
      here depends on that order: the output lists features in input order
      and the first unsupported feature decides the error. */
  type Items = seq<(string, Tensor)>

  function Keys(items: Items): seq<string> {
    seq(|items|, i requires 0 <= i < |items| => items[i].0)
  }

  lemma KeysAppend(a: Items, b: Items)
    ensures Keys(a + b) == Keys(a) + Keys(b)
  {
  }

  /** The columns of `schema` named in `selection`, in the order of
      `schema`. */
  function Select(schema: Schema, selection: Schema): (r: Schema)
    ensures |r| <= |schema|
    ensures forall c :: c in r <==> c in schema && c.name in ColumnNames(selection)
  {
    if schema == [] then []
    else
      (if schema[0].name in ColumnNames(selection) then [schema[0]] else [])
      + Select(schema[1..], selection)
  }

  /** The decimal digits of `n`. */
  function NatToString(n: nat): string {
    var digit := "0123456789"[n % 10];
    if n < 10 then [digit] else NatToString(n / 10) + [digit]
  }

  const UnsupportedDimensions: string := "Unsupported number of dimensions: "

  function Lookup(items: Items, key: string): Option<Tensor> {
    if items == [] then None
    else if items[0].0 == key then Some(items[0].1)
    else Lookup(items[1..], key)
  }

  /** The sequence length: from the offsets of the first sequence feature
      when it is given ragged (`offsetsLength` stands for the length the
      transform derives from them), otherwise that feature's second
      dimension. */
  function GetSeqLength(sequenceFeatures: seq<string>, inputs: Items, offsetsLength: nat): (r: Result<nat>)
    ensures sequenceFeatures == [] ==> r == Err(IndexError)
    ensures sequenceFeatures != [] && Lookup(inputs, OffsetsKey(sequenceFeatures[0])).Some? ==>
      r == Ok(offsetsLength)
    ensures sequenceFeatures != [] && Lookup(inputs, OffsetsKey(sequenceFeatures[0])).None? ==>
      var t := Lookup(inputs, sequenceFeatures[0]);
      (r.Ok? <==> t.Some? && |Shape(t.value)| >= 2) &&
      (r.Ok? ==> r.value == Shape(t.value)[1])
  {
    if sequenceFeatures == [] then Err(IndexError)
    else
      var first := sequenceFeatures[0];
      if Lookup(inputs, OffsetsKey(first)).Some? then Ok(offsetsLength)
      else
        match Lookup(inputs, first)
        case None => Err(KeyError(first))
        case Some(t) => if |Shape(t)| >= 2 then Ok(Shape(t)[1]) else Err(IndexError)
  }

  /** One to-broadcast feature: a new axis of length `seqLength` after the
      batch dimension, for 2- and 3-dimensional tensors only. */
  function BroadcastOne(t: Tensor, seqLength: nat): (r: Result<Tensor>)
    ensures r.Ok? <==> |Shape(t)| == 2 || |Shape(t)| == 3
    ensures r.Err? ==> r.error == RuntimeError(UnsupportedDimensions + NatToString(|Shape(t)|))
    ensures r.Ok? ==> (|Shape(r.value)| == |Shape(t)| + 1 &&
      Shape(r.value)[0] == Shape(t)[0] && Shape(r.value)[1] == seqLength &&
      Shape(r.value)[2..] == Shape(t)[1..])
  {
    var s := Shape(t);
    if |s| == 2 then Ok(Shaped([s[0], seqLength, s[1]]))
    else if |s| == 3 then Ok(Shaped([s[0], seqLength, s[1], s[2]]))
    else Err(RuntimeError(UnsupportedDimensions + NatToString(|s|)))
  }

  predicate Unsupported(toBroadcast: seq<string>, item: (string, Tensor)) {
    item.0 in toBroadcast && |Shape(item.1)| != 2 && |Shape(item.1)| != 3
  }

  /** `key` belongs to a sequence feature: the feature itself, or one of
      the two entries of its ragged form. */
  predicate SequenceItem(sequence: seq<string>, key: string) {
    key in sequence ||
    exists i :: 0 <= i < |sequence| && (key == ValuesKey(sequence[i]) || key == OffsetsKey(sequence[i]))
  }

  /** The items the transform keeps: the to-broadcast features and the
      entries of the sequence features, in input order. */
  function Kept(inputs: Items, toBroadcast: seq<string>, sequence: seq<string>): (r: Items)
    ensures |r| <= |inputs|
    ensures forall item :: item in r <==> item in inputs && (item.0 in toBroadcast || SequenceItem(sequence, item.0))
  {
    if inputs == [] then []
    else
      (if inputs[0].0 in toBroadcast || SequenceItem(sequence, inputs[0].0) then [inputs[0]] else [])
      + Kept(inputs[1..], toBroadcast, sequence)
  }

  /** The items in turn: a to-broadcast feature is broadcast, an entry of a
      sequence feature is kept as it is, any other is not passed on; the first
      to-broadcast feature of unsupported rank raises. */
  function BroadcastItems(inputs: Items, toBroadcast: seq<string>, sequence: seq<string>, seqLength: nat)
    : (r: Result<Items>)
    ensures r.Ok? ==> Keys(r.value) == Keys(Kept(inputs, toBroadcast, sequence))
  {
    if inputs == [] then Ok([])
    else
      var (key, t) := inputs[0];
      var head: Result<Items> :=
        if key in toBroadcast then
          match BroadcastOne(t, seqLength)
          case Err(e) => Err(e)
          case Ok(b) => Ok([(key, b)])
        else if SequenceItem(sequence, key) then Ok([(key, t)])
        else Ok([]);
      match head
      case Err(e) => Err(e)
      case Ok(h) =>
        match BroadcastItems(inputs[1..], toBroadcast, sequence, seqLength)
        case Err(e) => Err(e)
        case Ok(rest) =>
          KeysAppend(h, rest);
          KeysAppend(if key in toBroadcast || SequenceItem(sequence, key) then [inputs[0]] else [],
                     Kept(inputs[1..], toBroadcast, sequence));
          Ok(h + rest)
  }

  /** The transform fails exactly when some to-broadcast feature is neither
      2- nor 3-dimensional, and the error names the rank of the first such
      feature. */
  lemma {:induction false} BroadcastFails(inputs: Items, toBroadcast: seq<string>, sequence: seq<string>, seqLength: nat)
    ensures var r := BroadcastItems(inputs, toBroadcast, sequence, seqLength);
      r.Err? <==> exists i :: 0 <= i < |inputs| && Unsupported(toBroadcast, inputs[i])
    ensures var r := BroadcastItems(inputs, toBroadcast, sequence, seqLength);
      r.Err? ==> exists i :: (0 <= i < |inputs| && Unsupported(toBroadcast, inputs[i]) &&
        (forall j :: 0 <= j < i ==> !Unsupported(toBroadcast, inputs[j])) &&
        r.error == RuntimeError(UnsupportedDimensions + NatToString(|Shape(inputs[i].1)|)))
  {
    if inputs != [] {
      var tail := inputs[1..];
      BroadcastFails(tail, toBroadcast, sequence, seqLength);
      assert forall i :: 1 <= i < |inputs| ==> inputs[i] == tail[i - 1];
      if !Unsupported(toBroadcast, inputs[0]) {
        var r := BroadcastItems(inputs, toBroadcast, sequence, seqLength);
        if r.Err? {
          var i :| 0 <= i < |tail| && Unsupported(toBroadcast, tail[i]) &&
            (forall j :: 0 <= j < i ==> !Unsupported(toBroadcast, tail[j])) &&
            r.error == RuntimeError(UnsupportedDimensions + NatToString(|Shape(tail[i].1)|));
          assert Unsupported(toBroadcast, inputs[i + 1]);
        }
      }
    }
  }

  /** On success, the output holds the kept items in input order, each
      to-broadcast feature broadcast to `seqLength` and each sequence
      feature unchanged. */
  lemma {:induction false} BroadcastShapes(inputs: Items, toBroadcast: seq<string>, sequence: seq<string>, seqLength: nat)
    requires BroadcastItems(inputs, toBroadcast, sequence, seqLength).Ok?
    ensures var out := BroadcastItems(inputs, toBroadcast, sequence, seqLength).value;
      var kept := Kept(inputs, toBroadcast, sequence);
      |out| == |kept| &&
      forall j :: 0 <= j < |kept| ==>
        out[j].0 == kept[j].0 &&
        (kept[j].0 in toBroadcast ==> Ok(out[j].1) == BroadcastOne(kept[j].1, seqLength)) &&
        (kept[j].0 !in toBroadcast ==> out[j].1 == kept[j].1)
  {
    if inputs != [] {
      BroadcastShapes(inputs[1..], toBroadcast, sequence, seqLength);
    }
  }

  /** Every entry of a sequence feature that is not also to be broadcast,
      dense or in ragged form, comes out of a successful forward pass
      unchanged. */
  lemma SequenceItemPassesThrough(inputs: Items, toBroadcast: seq<string>, sequence: seq<string>,
                                  seqLength: nat, item: (string, Tensor))
    requires BroadcastItems(inputs, toBroadcast, sequence, seqLength).Ok?
    requires item in inputs && SequenceItem(sequence, item.0) && item.0 !in toBroadcast
    ensures item in BroadcastItems(inputs, toBroadcast, sequence, seqLength).value
  {
    BroadcastShapes(inputs, toBroadcast, sequence, seqLength);
    var kept := Kept(inputs, toBroadcast, sequence);
    var j :| 0 <= j < |kept| && kept[j] == item;
    assert BroadcastItems(inputs, toBroadcast, sequence, seqLength).value[j] == item;
  }

  class BroadcastToSequence {
    const toBroadcast: Schema
    const sequence: Schema
    var toBroadcastFeatures: seq<string>
    var sequenceFeatures: seq<string>

    constructor (toBroadcast: Schema, sequence: Schema)
      ensures this.toBroadcast == toBroadcast && this.sequence == sequence
      ensures toBroadcastFeatures == [] && sequenceFeatures == []
    {
      this.toBroadcast := toBroadcast;
      this.sequence := sequence;
      toBroadcastFeatures := [];
      sequenceFeatures := [];
    }

    /** initialize_from_schema: the names of the columns of `schema` that
        each selection names, in schema order. */
    method InitializeFromSchema(schema: Schema)
      modifies this
      ensures toBroadcastFeatures == ColumnNames(Select(schema, toBroadcast))
      ensures sequenceFeatures == ColumnNames(Select(schema, sequence))
    {
      toBroadcastFeatures := ColumnNames(Select(schema, toBroadcast));
      sequenceFeatures := ColumnNames(Select(schema, sequence));
    }

    function SeqLength(inputs: Items, offsetsLength: nat): Result<nat>
      reads this
    {
      GetSeqLength(sequenceFeatures, inputs, offsetsLength)
    }

    /** forward: the sequence length first, then every item in turn. */
    function Forward(inputs: Items, offsetsLength: nat): (r: Result<Items>)
      reads this
      ensures SeqLength(inputs, offsetsLength).Err? ==> r == Err(SeqLength(inputs, offsetsLength).error)
      ensures SeqLength(inputs, offsetsLength).Ok? ==>
        r == BroadcastItems(inputs, toBroadcastFeatures, sequenceFeatures, SeqLength(inputs, offsetsLength).value)
    {
      match SeqLength(inputs, offsetsLength)
      case Err(e) => Err(e)
      case Ok(n) => BroadcastItems(inputs, toBroadcastFeatures, sequenceFeatures, n)
    }
  }

  /** Both feature lists start empty, so a forward pass before
      initialize_from_schema finds no sequence feature and raises IndexError. */
  method ForwardBeforeInitialize(toBroadcast: Schema, sequence: Schema, inputs: Items, offsetsLength: nat)
    returns (r: Result<Items>)
    ensures r == Err(IndexError)
  {
    var transform := new BroadcastToSequence(toBroadcast, sequence);
    r := transform.Forward(inputs, offsetsLength);
  }

  // ---------------------------------------------------------------------
  // The test fixtures of TestBroadcastToSequence
  // ---------------------------------------------------------------------

  function FixtureInputs(feature3: Tensor): Items {
    [("feature_1", Shaped([2, 3])), ("feature_2", Shaped([2, 3, 2])), ("feature_3", feature3)]
  }

  /** test_initialize_from_schema. */
  lemma InitializeExample()
    ensures var schema := Untagged(["feature_1", "feature_2", "feature_3"]);
      ColumnNames(Select(schema, Untagged(["feature_1", "feature_3"]))) == ["feature_1", "feature_3"] &&
      ColumnNames(Select(schema, Untagged(["feature_2"]))) == ["feature_2"]
  {
    var schema := Untagged(["feature_1", "feature_2", "feature_3"]);
    var tb := Untagged(["feature_1", "feature_3"]);
    var sq := Untagged(["feature_2"]);
    assert ColumnNames(tb) == ["feature_1", "feature_3"];
    assert ColumnNames(sq) == ["feature_2"];
    assert schema[1..][1..] == [schema[2]];
    assert "feature_2" != "feature_1" && "feature_2" != "feature_3";
    assert "feature_1" != "feature_2" && "feature_3" != "feature_2";
    assert Select(schema[1..][1..], tb) == [schema[2]];
    assert Select(schema[1..][1..], sq) == [];
  }

  lemma FeatureNamesDiffer()
    ensures "feature_1" != "feature_2" && "feature_2" != "feature_3" && "feature_1" != "feature_3"
    ensures "feature_1" in ["feature_1", "feature_3"] && "feature_3" in ["feature_1", "feature_3"]
    ensures "feature_2" !in ["feature_1", "feature_3"] && "feature_2" in ["feature_2"]
  {
    assert "feature_1"[8] != "feature_2"[8] && "feature_2"[8] != "feature_3"[8];
    assert "feature_1"[8] != "feature_3"[8];
  }

  /** test_get_seq_length and test_forward: the length is 3, the
      to-broadcast features become (2, 3, 3) and the sequence feature keeps
      its shape (2, 3, 2). */
  lemma ForwardExample(offsetsLength: nat)
    ensures var inputs := FixtureInputs(Shaped([2, 3]));
      GetSeqLength(["feature_2"], inputs, offsetsLength) == Ok(3) &&
      BroadcastItems(inputs, ["feature_1", "feature_3"], ["feature_2"], 3)
        == Ok([("feature_1", Shaped([2, 3, 3])), ("feature_2", Shaped([2, 3, 2])),
               ("feature_3", Shaped([2, 3, 3]))])
  {
    FeatureNamesDiffer();
    var inputs := FixtureInputs(Shaped([2, 3]));
    var tb, sq := ["feature_1", "feature_3"], ["feature_2"];
    var k := OffsetsKey("feature_2");
    assert |k| == 18;
    assert Lookup(inputs[2..], k) == None by {
      assert inputs[2..][1..] == [];
    }
    assert Lookup(inputs, k) == None;
    assert Lookup(inputs, "feature_2") == Some(Shaped([2, 3, 2]));
    assert inputs[1..][1..] == inputs[2..] && inputs[2..][1..] == [];
    assert inputs[2..] == [("feature_3", Shaped([2, 3]))];
    assert BroadcastOne(Shaped([2, 3]), 3) == Ok(Shaped([2, 3, 3]));
    assert BroadcastItems([], tb, sq, 3) == Ok([]);
    assert [("feature_3", Shaped([2, 3, 3]))] + [] == [("feature_3", Shaped([2, 3, 3]))];
    var last := BroadcastItems(inputs[2..], tb, sq, 3);
    assert last == Ok([("feature_3", Shaped([2, 3, 3]))]);
    assert inputs[1..] == [("feature_2", Shaped([2, 3, 2]))] + inputs[2..];
    var b1, t2, b3 := ("feature_1", Shaped([2, 3, 3])), ("feature_2", Shaped([2, 3, 2])), ("feature_3", Shaped([2, 3, 3]));
    assert [t2] + [b3] == [t2, b3];
    assert [b1] + [t2, b3] == [b1, t2, b3];
    var middle := BroadcastItems(inputs[1..], tb, sq, 3);
    assert middle == Ok([t2, b3]);
  }

  /** test_unsupported_dimensions: a 4-dimensional to-broadcast feature
      raises "Unsupported number of dimensions: 4". */
  lemma UnsupportedExample()
    ensures BroadcastItems(FixtureInputs(Shaped([10, 3, 3, 3])), ["feature_1", "feature_3"], ["feature_2"], 3)
      == Err(RuntimeError("Unsupported number of dimensions: 4"))
  {
    FeatureNamesDiffer();
    var inputs := FixtureInputs(Shaped([10, 3, 3, 3]));
    var tb, sq := ["feature_1", "feature_3"], ["feature_2"];
    assert inputs[1..][1..] == inputs[2..] && inputs[2..][1..] == [];
    assert NatToString(4) == "4";
    assert inputs[2..] == [("feature_3", Shaped([10, 3, 3, 3]))];
    var last := BroadcastItems(inputs[2..], tb, sq, 3);
    assert last == Err(RuntimeError("Unsupported number of dimensions: 4"));
    var middle := BroadcastItems(inputs[1..], tb, sq, 3);
    assert middle == last;
  }
}
