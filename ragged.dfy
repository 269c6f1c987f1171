/** The ragged values/offsets encoding of a batch of variable-length rows
    (`_get_values_offsets` in tests/unit/torch/transforms/test_sequences.py):
    the rows laid end to end as `values`, and `offsets` holding the boundary
    of every row, starting at 0 and ending at the number of values. */
module Ragged {

  /** The rows laid end to end, in order. */
  function Flatten<T>(rows: seq<seq<T>>): seq<T> {
    if rows == [] then [] else Flatten(rows[..|rows| - 1]) + rows[|rows| - 1]
  }

  /** The length of every row. */
  function Lengths<T>(rows: seq<seq<T>>): seq<int> {
    seq(|rows|, i requires 0 <= i < |rows| => |rows[i]|)
  }

  /** `[0]` followed by the running totals of `lengths`. */
  function PrefixSums(lengths: seq<int>): (r: seq<int>)
    ensures |r| == |lengths| + 1
  {
    if lengths == [] then [0]
    else
      var p := PrefixSums(lengths[..|lengths| - 1]);
      p + [p[|p| - 1] + lengths[|lengths| - 1]]
  }

  /** The offsets of the encoding of `rows`. */
  function Offsets<T>(rows: seq<seq<T>>): seq<int> {
    PrefixSums(Lengths(rows))
  }

  /** The encoding invariant on offsets over `count` values: at least one
      entry, the first 0, the last `count`, never decreasing. */
  predicate ValidOffsets(offsets: seq<int>, count: int) {
    |offsets| >= 1 && offsets[0] == 0 && offsets[|offsets| - 1] == count &&
    forall i, j :: 0 <= i <= j < |offsets| ==> offsets[i] <= offsets[j]
  }

  predicate WellFormed<T>(values: seq<T>, offsets: seq<int>) {
    ValidOffsets(offsets, |values|)
  }

  /** The row lengths the offsets imply: the differences of neighbours. */
  function RowLengths(offsets: seq<int>): seq<int> {
    if offsets == [] then []
    else seq(|offsets| - 1, i requires 0 <= i < |offsets| - 1 => offsets[i + 1] - offsets[i])
  }

  /** Decoding: row `i` is `values[offsets[i] .. offsets[i + 1]]`. */
  function Rows<T>(values: seq<T>, offsets: seq<int>): seq<seq<T>>
    requires WellFormed(values, offsets)
  {
    seq(|offsets| - 1, i requires 0 <= i < |offsets| - 1 => values[offsets[i]..offsets[i + 1]])
  }

  /** `_get_values_offsets`: one pass appending every row's length and
      elements, then the running totals of the lengths after a leading 0. */
  method GetValuesOffsets<T>(data: seq<seq<T>>) returns (values: seq<T>, offsets: seq<int>)
    ensures values == Flatten(data) && offsets == Offsets(data)
    ensures |offsets| == |data| + 1 && WellFormed(values, offsets)
    ensures forall i :: 0 <= i < |data| ==> offsets[i + 1] - offsets[i] == |data[i]|
    ensures Rows(values, offsets) == data
  {
    values := [];
    var rowLengths: seq<int> := [];
    for i := 0 to |data|
      invariant values == Flatten(data[..i])
      invariant rowLengths == Lengths(data[..i])
    {
      assert data[..i + 1][..i] == data[..i];
      rowLengths := rowLengths + [|data[i]|];
      values := values + data[i];
    }
    assert data[..|data|] == data;
    offsets := [0];
    var total := 0;
    for i := 0 to |rowLengths|
      invariant offsets == PrefixSums(rowLengths[..i])
      invariant total == offsets[|offsets| - 1]
    {
      assert rowLengths[..i + 1][..i] == rowLengths[..i];
      total := total + rowLengths[i];
      offsets := offsets + [total];
    }
    assert rowLengths[..|rowLengths|] == rowLengths;
    OffsetsShape(data);
    EncodeWellFormed(data);
    DecodeEncode(data);
  }

  lemma LengthsPrefix<T>(rows: seq<seq<T>>)
    requires rows != []
    ensures Lengths(rows)[..|rows| - 1] == Lengths(rows[..|rows| - 1])
  {
  }

  /** The offsets have one entry more than there are rows, start at 0, end
      at the number of values, and step by each row's length. */
  lemma {:induction false} OffsetsShape<T>(rows: seq<seq<T>>)
    ensures |Offsets(rows)| == |rows| + 1 && Offsets(rows)[0] == 0
    ensures Offsets(rows)[|rows|] == |Flatten(rows)|
    ensures forall i :: 0 <= i < |rows| ==> Offsets(rows)[i + 1] - Offsets(rows)[i] == |rows[i]|
  {
    if rows != [] {
      var n := |rows|;
      var p := rows[..n - 1];
      OffsetsShape(p);
      LengthsPrefix(rows);
      assert Offsets(rows) == Offsets(p) + [Offsets(p)[n - 1] + |rows[n - 1]|];
      forall i | 0 <= i < n
        ensures Offsets(rows)[i + 1] - Offsets(rows)[i] == |rows[i]|
      {
        if i < n - 1 {
          assert rows[i] == p[i];
        }
      }
    }
  }

  /** The encoding of any rows satisfies the encoding invariant. */
  lemma {:induction false} EncodeWellFormed<T>(rows: seq<seq<T>>)
    ensures WellFormed(Flatten(rows), Offsets(rows))
  {
    OffsetsShape(rows);
    if rows != [] {
      var n := |rows|;
      var p := rows[..n - 1];
      EncodeWellFormed(p);
      OffsetsShape(p);
      LengthsPrefix(rows);
      var o := Offsets(rows);
      assert o == Offsets(p) + [Offsets(p)[n - 1] + |rows[n - 1]|];
      forall i, j | 0 <= i <= j < |o|
        ensures o[i] <= o[j]
      {
        if i == n {
        } else if j == n {
          assert Offsets(p)[i] <= Offsets(p)[n - 1];
        } else {
          assert Offsets(p)[i] <= Offsets(p)[j];
        }
      }
    }
  }

  /** Row `i` is found at its offsets in the values. */
  lemma {:induction false} FlattenSlice<T>(rows: seq<seq<T>>, i: nat)
    requires i < |rows|
    ensures 0 <= Offsets(rows)[i] <= Offsets(rows)[i + 1] <= |Flatten(rows)|
    ensures Flatten(rows)[Offsets(rows)[i]..Offsets(rows)[i + 1]] == rows[i]
  {
    EncodeWellFormed(rows);
    OffsetsShape(rows);
    var n := |rows|;
    var p := rows[..n - 1];
    OffsetsShape(p);
    LengthsPrefix(rows);
    assert Offsets(rows) == Offsets(p) + [Offsets(p)[n - 1] + |rows[n - 1]|];
    assert Flatten(rows) == Flatten(p) + rows[n - 1];
    if i < n - 1 {
      FlattenSlice(p, i);
      assert rows[i] == p[i];
    }
  }

  /** Decoding an encoding gives back the rows. */
  lemma DecodeEncode<T>(rows: seq<seq<T>>)
    ensures WellFormed(Flatten(rows), Offsets(rows))
    ensures Rows(Flatten(rows), Offsets(rows)) == rows
  {
    EncodeWellFormed(rows);
    OffsetsShape(rows);
    forall i | 0 <= i < |rows|
      ensures Rows(Flatten(rows), Offsets(rows))[i] == rows[i]
    {
      FlattenSlice(rows, i);
    }
  }

  lemma PrefixSlice<T>(s: seq<T>, m: int, a: int, b: int)
    requires 0 <= a <= b <= m <= |s|
    ensures s[..m][a..b] == s[a..b]
  {
  }

  /** Encoding a decoding gives back the values and the offsets: every
      well-formed pair is the encoding of its rows. */
  lemma {:induction false} EncodeDecode<T>(values: seq<T>, offsets: seq<int>)
    requires WellFormed(values, offsets)
    ensures Flatten(Rows(values, offsets)) == values
    ensures Offsets(Rows(values, offsets)) == offsets
    decreases |offsets|
  {
    var rows := Rows(values, offsets);
    if |offsets| == 1 {
      assert rows == [];
      assert offsets == [0];
    } else {
      var n := |offsets| - 1;
      var o' := offsets[..n];
      var v' := values[..offsets[n - 1]];
      assert WellFormed(v', o');
      EncodeDecode(v', o');
      var rows' := Rows(v', o');
      assert rows[..n - 1] == rows' by {
        forall i | 0 <= i < n - 1
          ensures rows[i] == rows'[i]
        {
          assert offsets[0] <= offsets[i] <= offsets[i + 1] <= offsets[n - 1];
          assert o'[i] == offsets[i] && o'[i + 1] == offsets[i + 1];
          PrefixSlice(values, offsets[n - 1], offsets[i], offsets[i + 1]);
        }
      }
      assert Flatten(rows) == Flatten(rows') + values[offsets[n - 1]..offsets[n]];
      assert values == v' + values[offsets[n - 1]..offsets[n]];
      LengthsPrefix(rows);
      assert Offsets(rows) == Offsets(rows') + [offsets[n - 1] + (offsets[n] - offsets[n - 1])];
      assert offsets == o' + [offsets[n]];
    }
  }

  /** The row lengths implied by an encoding are the lengths of the rows. */
  lemma RowLengthsOfEncoding<T>(rows: seq<seq<T>>)
    ensures RowLengths(Offsets(rows)) == Lengths(rows)
  {
    OffsetsShape(rows);
  }
}
