/**
 * The tensor operations the target builder uses (tf.where, tf.gather,
 * tf.boolean_mask, slicing, tf.pad, tf.reduce_max, tf.argmax and the
 * float-to-int casts), stated on sequences.
 */
module TensorOps {

  /** A reduce_max result: the largest entry of a row, or minus infinity for an empty row. */
  datatype ExtReal = NegInf | Finite(value: real)

  /** m >= t, where minus infinity is below every real. */
  predicate AtLeast(m: ExtReal, t: real) {
    m.Finite? && m.value >= t
  }

  /** m < t, where minus infinity is below every real. */
  predicate Below(m: ExtReal, t: real) {
    m.NegInf? || m.value < t
  }

  function Min(a: int, b: int): int {
    if a <= b then a else b
  }

  predicate StrictlyIncreasing(s: seq<nat>) {
    forall j, k :: 0 <= j < k < |s| ==> s[j] < s[k]
  }

  predicate Distinct(s: seq<nat>) {
    forall j, k :: 0 <= j < k < |s| ==> s[j] != s[k]
  }

  lemma IncreasingIsDistinct(s: seq<nat>)
    requires StrictlyIncreasing(s)
    ensures Distinct(s)
  {
  }

  /** tf.where(mask)[:, 0]: the positions at which the mask holds, in ascending order. */
  function Where(mask: seq<bool>): (idx: seq<nat>)
    ensures |idx| <= |mask|
    ensures forall k :: 0 <= k < |idx| ==> idx[k] < |mask| && mask[idx[k]]
    ensures forall i :: 0 <= i < |mask| && mask[i] ==> i in idx
    ensures StrictlyIncreasing(idx)
  {
    if mask == [] then []
    else
      var rest := Where(mask[..|mask| - 1]);
      if mask[|mask| - 1] then rest + [|mask| - 1] else rest
  }

  /** tf.gather(xs, idx): the entries of xs at the given positions, in the order of idx. */
  function Gather<T>(xs: seq<T>, idx: seq<nat>): (r: seq<T>)
    requires forall k :: 0 <= k < |idx| ==> idx[k] < |xs|
    ensures |r| == |idx|
    ensures forall k :: 0 <= k < |idx| ==> r[k] == xs[idx[k]]
  {
    if idx == [] then [] else [xs[idx[0]]] + Gather(xs, idx[1..])
  }

  /**
   * tf.boolean_mask(xs, mask): the entries whose mask bit is set, in order.
   * Its result is the gather of xs at tf.where(mask).
   */
  function BooleanMask<T>(xs: seq<T>, mask: seq<bool>): (r: seq<T>)
    requires |xs| == |mask|
    ensures |r| == |Where(mask)|
    ensures forall k :: 0 <= k < |r| ==> r[k] == xs[Where(mask)[k]]
  {
    if xs == [] then []
    else
      var rest := BooleanMask(xs[..|xs| - 1], mask[..|mask| - 1]);
      if mask[|mask| - 1] then rest + [xs[|xs| - 1]] else rest
  }

  /** xs[:n] for n >= 0: a slice past the end stops at the end. */
  function Take<T>(xs: seq<T>, n: nat): (r: seq<T>)
    ensures |r| == if n <= |xs| then n else |xs|
    ensures r == xs[..|r|]
  {
    if n <= |xs| then xs[..n] else xs
  }

  /** tf.pad(xs, [(0, n)]): xs followed by n zeros. */
  function PadZeros(xs: seq<int>, n: nat): (r: seq<int>)
    ensures |r| == |xs| + n
    ensures r[..|xs|] == xs
    ensures forall k :: |xs| <= k < |r| ==> r[k] == 0
  {
    xs + seq(n, _ => 0)
  }

  /** tf.reduce_max over one row: its largest entry, or minus infinity when the row is empty. */
  function ReduceMax(row: seq<real>): (m: ExtReal)
    ensures m.NegInf? <==> row == []
    ensures m.Finite? ==> exists i :: 0 <= i < |row| && row[i] == m.value
    ensures forall i :: 0 <= i < |row| ==> m.Finite? && row[i] <= m.value
  {
    if row == [] then NegInf
    else
      var last := row[|row| - 1];
      var front := row[..|row| - 1];
      match ReduceMax(front)
      case NegInf => Finite(last)
      case Finite(v) =>
        assert forall i :: 0 <= i < |front| ==> front[i] == row[i];
        if last > v then Finite(last) else Finite(v)
  }

  /**
   * tf.argmax over one non-empty row: a position holding the row's maximum,
   * the first such position (ties go to the lowest index).
   */
  function ArgMax(row: seq<real>): (j: nat)
    requires row != []
    ensures j < |row|
    ensures ReduceMax(row) == Finite(row[j])
    ensures forall i :: 0 <= i < j ==> row[i] < row[j]
  {
    if |row| == 1 then 0
    else
      var front := row[..|row| - 1];
      var j := ArgMax(front);
      assert front[j] == row[j];
      if row[|row| - 1] > row[j] then |row| - 1 else j
  }

  /** tf.argmax(rows, axis=1) for rows that are all non-empty. */
  function RowArgMax(rows: seq<seq<real>>): (js: seq<nat>)
    requires forall k :: 0 <= k < |rows| ==> rows[k] != []
    ensures |js| == |rows|
    ensures forall k :: 0 <= k < |rows| ==> js[k] == ArgMax(rows[k])
  {
    seq(|rows|, k requires 0 <= k < |rows| => ArgMax(rows[k]))
  }

  /** Conversion of a real to an integer by truncation toward zero (Python's int(), tf.cast to int32). */
  function Trunc(x: real): (n: int)
    ensures 0.0 <= x ==> n as real <= x < n as real + 1.0
    ensures x < 0.0 ==> n as real - 1.0 < x <= n as real
  {
    if x >= 0.0 then x.Floor else -((-x).Floor)
  }
}
