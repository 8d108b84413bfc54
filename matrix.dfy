/** Weighted adjacency matrices, as lists of rows. */
module Matrix {
  import opened Stats

  type Mat = seq<seq<real>>

  /** Every row is as long as the matrix: `W[i][j]` exists for all `i, j < len(W)`. */
  predicate Square(w: Mat) {
    forall i :: 0 <= i < |w| ==> |w[i]| == |w|
  }

  /** `[[W[i][j] for j in nodes] for i in nodes]`. */
  function Submatrix(w: Mat, nodes: seq<int>): (c: Mat)
    requires Square(w)
    requires forall a :: 0 <= a < |nodes| ==> 0 <= nodes[a] < |w|
    ensures Square(c) && |c| == |nodes|
    ensures forall a, b :: 0 <= a < |nodes| && 0 <= b < |nodes| ==> c[a][b] == w[nodes[a]][nodes[b]]
  {
    seq(|nodes|, a requires 0 <= a < |nodes| =>
      seq(|nodes|, b requires 0 <= b < |nodes| => w[nodes[a]][nodes[b]]))
  }

  /** The weighted degree of every node: the sum of its row. */
  function RowSums(w: Mat): (s: seq<real>)
    ensures |s| == |w| && forall i :: 0 <= i < |w| ==> s[i] == Sum(w[i])
  {
    seq(|w|, i requires 0 <= i < |w| => Sum(w[i]))
  }

  /** Two matrices that agree on the block of `nodes` have the same submatrix: the rest of the world does not matter. */
  lemma SubmatrixSeesOnlyTheBlock(w1: Mat, w2: Mat, nodes: seq<int>)
    requires Square(w1) && Square(w2)
    requires forall a :: 0 <= a < |nodes| ==> 0 <= nodes[a] < |w1| && nodes[a] < |w2|
    requires forall a, b :: 0 <= a < |nodes| && 0 <= b < |nodes| ==> w1[nodes[a]][nodes[b]] == w2[nodes[a]][nodes[b]]
    ensures Submatrix(w1, nodes) == Submatrix(w2, nodes)
  {
    var c1 := Submatrix(w1, nodes);
    var c2 := Submatrix(w2, nodes);
    assert forall a :: 0 <= a < |nodes| ==> c1[a] == c2[a];
  }
}
