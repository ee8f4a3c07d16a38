/** The one measure shared by framed bodies and joined paths: the total size of a sequence of sequences. */
module Sizes {

  /** The number of elements in all the inner sequences together. */
  function TotalSize<T>(xs: seq<seq<T>>): nat
  {
    if xs == [] then 0 else |xs[0]| + TotalSize(xs[1..])
  }
}
