/** Rows of `absolute_distances_all.csv`, the pairwise distance table the
    relative distance and route plan generators read. */
module Pairs {

  /** One row: two actor names and their distance in metres. */
  datatype PairDistance = PairDistance(actor1: string, actor2: string, answer: real)

  /** The row concerns the unordered pair `{a, b}`. */
  predicate Mentions(r: PairDistance, a: string, b: string) {
    (r.actor1 == a && r.actor2 == b) || (r.actor1 == b && r.actor2 == a)
  }
}
