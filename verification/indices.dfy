/** Ranges of consecutive integers, Python's `range(lo, hi)` as a sequence. */
module Indices {

  /** The integers lo, lo + 1, ..., hi - 1 in increasing order (empty when hi <= lo). */
  function Range(lo: int, hi: int): (r: seq<int>)
    ensures |r| == if lo < hi then hi - lo else 0
    ensures forall i :: 0 <= i < |r| ==> r[i] == lo + i
    decreases hi - lo
  {
    if lo >= hi then [] else [lo] + Range(lo + 1, hi)
  }
}
