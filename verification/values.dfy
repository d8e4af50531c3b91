/**
  Dynamically typed call arguments and replies.

  The Go engine passes `[]interface{}` around and compares argument lists
  with `reflect.DeepEqual`. Here a value is a tagged variant and deep
  equality is written out over it, then shown to coincide with Dafny's
  structural equality.
 */
module Values {

  /**
    A Go value as the engine sees it through `interface{}`. `Int` stands
    for a Go `int` only and `List` for a `[]interface{}` only: the other
    integer kinds and typed slices, which `reflect.DeepEqual` tells apart
    by their dynamic type, have no counterpart here.
   */
  datatype Value =
    | Nil
    | Bool(b: bool)
    | Int(i: int)
    | Str(s: string)
    | List(items: seq<Value>)

  /** Deep equality: same dynamic type, and the same contents. */
  predicate DeepEqual(a: Value, b: Value)
    decreases a
  {
    match a
    case Nil => b.Nil?
    case Bool(x) => b.Bool? && b.b == x
    case Int(x) => b.Int? && b.i == x
    case Str(x) => b.Str? && b.s == x
    case List(xs) => b.List? && DeepEqualSeq(xs, b.items)
  }

  /** Deep equality of two lists: same length, pairwise deeply equal. */
  predicate DeepEqualSeq(xs: seq<Value>, ys: seq<Value>)
    decreases xs
  {
    && |xs| == |ys|
    && (|xs| == 0 || (DeepEqual(xs[0], ys[0]) && DeepEqualSeq(xs[1..], ys[1..])))
  }

  /** Deep equality on values is exactly structural equality. */
  lemma {:induction false} DeepEqualIsEquality(a: Value, b: Value)
    ensures DeepEqual(a, b) <==> a == b
    decreases a
  {
    match a
    case List(xs) =>
      if b.List? {
        DeepEqualSeqIsEquality(xs, b.items);
      }
    case _ =>
  }

  /** Deep equality on lists is exactly sequence equality. */
  lemma {:induction false} DeepEqualSeqIsEquality(xs: seq<Value>, ys: seq<Value>)
    ensures DeepEqualSeq(xs, ys) <==> xs == ys
    decreases xs
  {
    if |xs| == |ys| && |xs| > 0 {
      DeepEqualIsEquality(xs[0], ys[0]);
      DeepEqualSeqIsEquality(xs[1..], ys[1..]);
      if xs[0] == ys[0] && xs[1..] == ys[1..] {
        assert xs == [xs[0]] + xs[1..];
        assert ys == [ys[0]] + ys[1..];
      }
    }
  }
}
