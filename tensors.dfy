/** Tensors as the sequence transforms see them, and feature schemas.
    Element values of data tensors are not part of this model: a tensor is
    its shape, except a one-dimensional integer tensor whose contents matter
    (the offsets of a ragged feature), which keeps them. */
module Tensors {

  datatype Tensor =
    | Shaped(dims: seq<nat>)
    | Ints(elems: seq<int>)

  function Shape(t: Tensor): seq<nat> {
    match t
    case Shaped(d) => d
    case Ints(e) => [|e|]
  }

  /** A ragged feature `x` is carried by two entries of a feature mapping:
      `x__values` and `x__offsets`. */
  const ValuesSuffix: string := "__values"
  const OffsetsSuffix: string := "__offsets"

  function ValuesKey(name: string): string { name + ValuesSuffix }
  function OffsetsKey(name: string): string { name + OffsetsSuffix }

  /** The semantic tags a column can carry that the transforms consult. */
  datatype Tag = Sequence | Context

  datatype ColumnSchema = ColumnSchema(name: string, tags: set<Tag>)

  /** An ordered collection of column descriptors. */
  type Schema = seq<ColumnSchema>

  /** A column without tags, as `Schema(["a", "b"])` builds them. */
  function Untagged(names: seq<string>): Schema {
    seq(|names|, i requires 0 <= i < |names| => ColumnSchema(names[i], {}))
  }

  function ColumnNames(schema: Schema): seq<string> {
    seq(|schema|, i requires 0 <= i < |schema| => schema[i].name)
  }
}
