/** Order-preserving sub-sequences, the shape of every `filter` in the source. */
module Sequences {
  /** `a` can be obtained from `b` by deleting elements, without reordering the rest. */
  ghost predicate Subsequence<T>(a: seq<T>, b: seq<T>)
    decreases |b|
  {
    a == [] || (b != [] && ((a[0] == b[0] && Subsequence(a[1..], b[1..])) || Subsequence(a, b[1..])))
  }
}
