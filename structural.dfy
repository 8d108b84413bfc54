/**
 * The Obsidia structural core: an equilibrium gate over a weighted,
 * undirected adjacency matrix. It scores strong triangles (local closure),
 * the best radial hexagon (a centre with a ring of six neighbours), and a
 * weighted-degree asymmetry penalty, combines them into `S`, and decides
 * ACT when `S` reaches a threshold. The core-fixed form evaluates only the
 * block of a chosen set of core nodes, so the rest of the world cannot move
 * the decision.
 */
module Structural {
  import opened Wrappers
  import opened Stats
  import opened Matrix

  /** The defaults of `compute_metrics`. */
  const DefaultThetaT: real := 0.7
  const DefaultThetaR: real := 0.7
  const DefaultThetaA: real := 0.6
  const DefaultWeight: real := 1.0
  /** How many complete rings are scored per centre before the search moves on. */
  const DefaultMaxCandidatesPerP: int := 2000
  /** The number of nodes on a hexagon's ring. */
  const RingSize: nat := 6

  datatype Triangle = Triangle(i: int, j: int, k: int, score: real)

  datatype Hexagon = Hexagon(p: int, ring: seq<int>, radialMean: real, radialVar: real, score: real)

  datatype Metrics = Metrics(
    strongTriangles: seq<Triangle>,
    strongTriangleMean: real,
    bestHexagon: Option<Hexagon>,
    asymmetry: real,
    s: real)

  /** Every entry of `xs` is a node of `w`. */
  predicate Nodes(w: Mat, xs: seq<int>) {
    forall e :: 0 <= e < |xs| ==> 0 <= xs[e] < |w|
  }

  // ---------------------------------------------------------------- triangles

  /** `triangle_score`: the three edge weights of the triangle, divided by three. */
  function TriangleScore(w: Mat, i: int, j: int, k: int): real
    requires Square(w) && 0 <= i < |w| && 0 <= j < |w| && 0 <= k < |w|
  {
    (w[i][j] + w[j][k] + w[k][i]) / 3.0
  }

  /** The triangle score is the mean of the triangle's three edge weights. */
  lemma TriangleScoreIsMean(w: Mat, i: int, j: int, k: int)
    requires Square(w) && 0 <= i < |w| && 0 <= j < |w| && 0 <= k < |w|
    ensures TriangleScore(w, i, j, k) == Mean([w[i][j], w[j][k], w[k][i]])
  {
    var xs := [w[i][j], w[j][k], w[k][i]];
    assert xs[..2][..1][..0] == [];
    assert Sum(xs[..2][..1]) == w[i][j];
    assert xs[..2] == [w[i][j], w[j][k]] && xs[..2][..1] == [w[i][j]];
    assert Sum(xs[..2]) == w[i][j] + w[j][k];
    assert Sum(xs) == w[i][j] + w[j][k] + w[k][i];
  }

  /** The test applied to `(i, j, k)`: three positive edges and a score of at least `thetaT`. */
  predicate Strong(w: Mat, thetaT: real, i: int, j: int, k: int)
    requires Square(w) && 0 <= i < |w| && 0 <= j < |w| && 0 <= k < |w|
  {
    w[i][j] > 0.0 && w[j][k] > 0.0 && w[k][i] > 0.0 && TriangleScore(w, i, j, k) >= thetaT
  }

  /** `t` is a strong triangle of `w`: increasing nodes, the test passes, and the score is recorded. */
  predicate IsStrongTriangle(w: Mat, thetaT: real, t: Triangle)
    requires Square(w)
  {
    0 <= t.i < t.j < t.k < |w| &&
    Strong(w, thetaT, t.i, t.j, t.k) && t.score == TriangleScore(w, t.i, t.j, t.k)
  }

  /** The strong triangles `(i, j, k)` with `j < k < kEnd`, by increasing `k`. */
  function StrongWith(w: Mat, thetaT: real, i: int, j: int, kEnd: int): seq<Triangle>
    requires Square(w) && 0 <= i < j < |w| && kEnd <= |w|
    decreases kEnd
  {
    if kEnd <= j + 1 then []
    else
      StrongWith(w, thetaT, i, j, kEnd - 1) +
      (if Strong(w, thetaT, i, j, kEnd - 1) then [Triangle(i, j, kEnd - 1, TriangleScore(w, i, j, kEnd - 1))] else [])
  }

  /** The strong triangles `(i, j, k)` with `i < j < jEnd`, in lexicographic order. */
  function StrongFrom(w: Mat, thetaT: real, i: int, jEnd: int): seq<Triangle>
    requires Square(w) && 0 <= i < |w| && jEnd <= |w|
    decreases jEnd
  {
    if jEnd <= i + 1 then []
    else StrongFrom(w, thetaT, i, jEnd - 1) + StrongWith(w, thetaT, i, jEnd - 1, |w|)
  }

  /**
   * The strong triangles with `i < iEnd`, in the lexicographic order in which
   * `combinations(range(n), 3)` visits them.
   */
  function StrongBelow(w: Mat, thetaT: real, iEnd: nat): seq<Triangle>
    requires Square(w) && iEnd <= |w|
  {
    if iEnd == 0 then []
    else StrongBelow(w, thetaT, iEnd - 1) + StrongFrom(w, thetaT, iEnd - 1, |w|)
  }

  lemma {:induction false} StrongWithMembers(w: Mat, thetaT: real, i: int, j: int, kEnd: int)
    requires Square(w) && 0 <= i < j < |w| && kEnd <= |w|
    ensures forall t :: t in StrongWith(w, thetaT, i, j, kEnd) <==>
                          IsStrongTriangle(w, thetaT, t) && t.i == i && t.j == j && t.k < kEnd
    decreases kEnd
  {
    if kEnd > j + 1 {
      StrongWithMembers(w, thetaT, i, j, kEnd - 1);
    }
  }

  lemma {:induction false} StrongFromMembers(w: Mat, thetaT: real, i: int, jEnd: int)
    requires Square(w) && 0 <= i < |w| && jEnd <= |w|
    ensures forall t :: t in StrongFrom(w, thetaT, i, jEnd) <==>
                          IsStrongTriangle(w, thetaT, t) && t.i == i && t.j < jEnd
    decreases jEnd
  {
    if jEnd > i + 1 {
      StrongFromMembers(w, thetaT, i, jEnd - 1);
      StrongWithMembers(w, thetaT, i, jEnd - 1, |w|);
    }
  }

  lemma {:induction false} StrongBelowMembers(w: Mat, thetaT: real, iEnd: nat)
    requires Square(w) && iEnd <= |w|
    ensures forall t :: t in StrongBelow(w, thetaT, iEnd) <==> IsStrongTriangle(w, thetaT, t) && t.i < iEnd
  {
    if iEnd > 0 {
      StrongBelowMembers(w, thetaT, iEnd - 1);
      StrongFromMembers(w, thetaT, iEnd - 1, |w|);
    }
  }

  // ---------------------------------------------------------------- sorting

  /** Scores never increase along the list. */
  predicate Descending(ts: seq<Triangle>) {
    forall a, b :: 0 <= a < b < |ts| ==> ts[a].score >= ts[b].score
  }

  /** Puts `t` in front of the first triangle that does not score more than it. */
  function InsertByScore(t: Triangle, ts: seq<Triangle>): (r: seq<Triangle>)
    ensures multiset(r) == multiset(ts) + multiset{t}
  {
    if |ts| == 0 || ts[0].score <= t.score then [t] + ts
    else
      assert ts == [ts[0]] + ts[1..];
      [ts[0]] + InsertByScore(t, ts[1..])
  }

  /**
   * `sort(key=score, reverse=True)`: a stable sort by decreasing score. Each
   * triangle goes in front of the later ones it ties with, so ties keep the
   * order of the input.
   */
  function SortByScore(ts: seq<Triangle>): (r: seq<Triangle>)
    ensures multiset(r) == multiset(ts)
  {
    if |ts| == 0 then []
    else
      assert ts == [ts[0]] + ts[1..];
      InsertByScore(ts[0], SortByScore(ts[1..]))
  }

  lemma {:induction false} InsertKeepsDescending(t: Triangle, ts: seq<Triangle>)
    requires Descending(ts)
    ensures Descending(InsertByScore(t, ts))
  {
    if |ts| > 0 && ts[0].score > t.score {
      var rest := InsertByScore(t, ts[1..]);
      InsertKeepsDescending(t, ts[1..]);
      forall b | 0 <= b < |rest|
        ensures ts[0].score >= rest[b].score
      {
        assert rest[b] in multiset(rest);
        assert rest[b] in multiset(ts[1..]) || rest[b] == t;
        if rest[b] != t {
          var c :| 0 <= c < |ts[1..]| && ts[1..][c] == rest[b];
          assert ts[c + 1] == rest[b];
        }
      }
      assert InsertByScore(t, ts) == [ts[0]] + rest;
    }
  }

  /** The sort returns the same triangles, by decreasing score. */
  lemma {:induction false} SortByScoreSorts(ts: seq<Triangle>)
    ensures Descending(SortByScore(ts))
    ensures multiset(SortByScore(ts)) == multiset(ts)
  {
    if |ts| > 0 {
      SortByScoreSorts(ts[1..]);
      InsertKeepsDescending(ts[0], SortByScore(ts[1..]));
    }
  }

  /** Stability: a list that is already sorted comes back unchanged, ties included. */
  lemma {:induction false} SortKeepsSortedInput(ts: seq<Triangle>)
    requires Descending(ts)
    ensures SortByScore(ts) == ts
  {
    if |ts| > 0 {
      assert Descending(ts[1..]);
      SortKeepsSortedInput(ts[1..]);
      assert ts == [ts[0]] + ts[1..];
    }
  }

  /** The result of `find_strong_triangles`. */
  function StrongTriangles(w: Mat, thetaT: real): seq<Triangle>
    requires Square(w)
  {
    SortByScore(StrongBelow(w, thetaT, |w|))
  }

  /**
   * The strong triangles are exactly the triples `i < j < k` with three
   * positive edges and a score of at least `thetaT`, each with its score,
   * sorted by decreasing score.
   */
  lemma StrongTrianglesAreTheStrongTriples(w: Mat, thetaT: real)
    requires Square(w)
    ensures forall t :: t in StrongTriangles(w, thetaT) <==> IsStrongTriangle(w, thetaT, t)
    ensures Descending(StrongTriangles(w, thetaT))
  {
    StrongBelowMembers(w, thetaT, |w|);
    SortByScoreSorts(StrongBelow(w, thetaT, |w|));
    forall t
      ensures t in StrongTriangles(w, thetaT) <==> t in StrongBelow(w, thetaT, |w|)
    {
      assert t in StrongTriangles(w, thetaT) <==> t in multiset(StrongTriangles(w, thetaT));
    }
  }

  /** `find_strong_triangles`: the triples in `combinations(range(n), 3)` order, then the sort. */
  method FindStrongTriangles(w: Mat, thetaT: real) returns (out: seq<Triangle>)
    requires Square(w)
    ensures out == StrongTriangles(w, thetaT)
  {
    var n := |w|;
    out := [];
    for i := 0 to n
      invariant out == StrongBelow(w, thetaT, i)
    {
      assert out + StrongFrom(w, thetaT, i, i + 1) == out;
      for j := i + 1 to n
        invariant out == StrongBelow(w, thetaT, i) + StrongFrom(w, thetaT, i, j)
      {
        var found := StrongTrianglesWith(w, thetaT, i, j);
        out := out + found;
      }
    }
    out := SortByScore(out);
  }

  /** The innermost loop of `find_strong_triangles`: the strong triangles `(i, j, k)` for every `k > j`. */
  method StrongTrianglesWith(w: Mat, thetaT: real, i: int, j: int) returns (found: seq<Triangle>)
    requires Square(w) && 0 <= i < j < |w|
    ensures found == StrongWith(w, thetaT, i, j, |w|)
  {
    found := [];
    for k := j + 1 to |w|
      invariant found == StrongWith(w, thetaT, i, j, k)
    {
      if w[i][j] > 0.0 && w[j][k] > 0.0 && w[k][i] > 0.0 {
        var t := TriangleScore(w, i, j, k);
        if t >= thetaT {
          found := found + [Triangle(i, j, k, t)];
        }
      }
    }
  }

  // ---------------------------------------------------------------- hexagons

  /**
   * `xs` lists radial nodes of centre `p`: nodes of `w` other than `p` whose
   * edge to `p` weighs at least `thetaR`.
   */
  predicate Radial(w: Mat, p: int, thetaR: real, xs: seq<int>)
    requires Square(w) && 0 <= p < |w|
  {
    forall e :: 0 <= e < |xs| ==> 0 <= xs[e] < |w| && xs[e] != p && w[p][xs[e]] >= thetaR
  }

  /** The candidates `h < hEnd` of centre `p`, in increasing order. */
  function CandidatesBelow(w: Mat, p: int, thetaR: real, hEnd: nat): (c: seq<int>)
    requires Square(w) && 0 <= p < |w| && hEnd <= |w|
    ensures forall h :: h in c <==> 0 <= h < hEnd && h != p && w[p][h] >= thetaR
  {
    if hEnd == 0 then []
    else
      CandidatesBelow(w, p, thetaR, hEnd - 1) +
      (if hEnd - 1 != p && w[p][hEnd - 1] >= thetaR then [hEnd - 1] else [])
  }

  /** `[h for h in range(n) if h != p and W[p][h] >= theta_R]`. */
  function Candidates(w: Mat, p: int, thetaR: real): seq<int>
    requires Square(w) && 0 <= p < |w|
  {
    CandidatesBelow(w, p, thetaR, |w|)
  }

  /** `[[x] + c for c in cs]`. */
  function Prefixed(x: int, cs: seq<seq<int>>): (r: seq<seq<int>>)
    ensures |r| == |cs| && forall a :: 0 <= a < |cs| ==> r[a] == [x] + cs[a]
  {
    seq(|cs|, a requires 0 <= a < |cs| => [x] + cs[a])
  }

  /**
   * `itertools.combinations(xs, k)`: the `k`-element selections of `xs`, in
   * the lexicographic order of their positions.
   */
  function Combinations(xs: seq<int>, k: nat): (r: seq<seq<int>>)
    ensures forall a :: 0 <= a < |r| ==> |r[a]| == k && forall e :: 0 <= e < k ==> r[a][e] in xs
    decreases |xs|
  {
    if k == 0 then [[]]
    else if |xs| < k then []
    else
      var taken := Prefixed(xs[0], Combinations(xs[1..], k - 1));
      assert forall a :: 0 <= a < |taken| ==> |taken[a]| == k && forall e :: 0 <= e < k ==> taken[a][e] in xs by {
        forall a, e | 0 <= a < |taken| && 0 <= e < k
          ensures taken[a][e] in xs
        {
          if e > 0 {
            assert taken[a][e] == Combinations(xs[1..], k - 1)[a][e - 1];
          }
        }
      }
      taken + Combinations(xs[1..], k)
  }

  /** `xs` without its entry at `i`. */
  function Without(xs: seq<int>, i: int): (r: seq<int>)
    requires 0 <= i < |xs|
    ensures multiset(r) + multiset{xs[i]} == multiset(xs)
  {
    assert xs == xs[..i] + [xs[i]] + xs[i + 1..];
    xs[..i] + xs[i + 1..]
  }

  /**
   * `itertools.permutations(xs)`: every ordering of `xs`, in the
   * lexicographic order of positions (first by which entry comes first).
   */
  function Permutations(xs: seq<int>): (r: seq<seq<int>>)
    ensures forall a :: 0 <= a < |r| ==> multiset(r[a]) == multiset(xs)
    decreases |xs|, 1
  {
    if |xs| == 0 then [[]] else PermutationsPicking(xs, 0)
  }

  /** The orderings of `xs` whose first entry is taken from position `i` or later. */
  function PermutationsPicking(xs: seq<int>, i: nat): (r: seq<seq<int>>)
    requires i <= |xs|
    ensures forall a :: 0 <= a < |r| ==> multiset(r[a]) == multiset(xs)
    decreases |xs|, 0, |xs| - i
  {
    if i == |xs| then []
    else
      var rest := Permutations(Without(xs, i));
      var here := Prefixed(xs[i], rest);
      assert forall a :: 0 <= a < |here| ==> multiset(here[a]) == multiset(xs) by {
        forall a | 0 <= a < |here|
          ensures multiset(here[a]) == multiset(xs)
        {
          assert multiset(here[a]) == multiset{xs[i]} + multiset(rest[a]);
        }
      }
      here + PermutationsPicking(xs, i + 1)
  }

  /** The rings of a six-node selection: its first node, then any ordering of the other five. */
  function RingsOf(subset: seq<int>): (r: seq<seq<int>>)
    requires |subset| > 0
    ensures forall a :: 0 <= a < |r| ==> multiset(r[a]) == multiset(subset)
  {
    var perms := Permutations(subset[1..]);
    var rings := Prefixed(subset[0], perms);
    assert subset == [subset[0]] + subset[1..];
    assert forall a :: 0 <= a < |rings| ==> multiset(rings[a]) == multiset{subset[0]} + multiset(perms[a]);
    rings
  }

  /** Two lists with the same elements are radial for the same centre together. */
  lemma RadialTransfers(w: Mat, p: int, thetaR: real, xs: seq<int>, ys: seq<int>)
    requires Square(w) && 0 <= p < |w|
    requires multiset(xs) == multiset(ys) && Radial(w, p, thetaR, xs)
    ensures Radial(w, p, thetaR, ys)
  {
    forall e | 0 <= e < |ys|
      ensures 0 <= ys[e] < |w| && ys[e] != p && w[p][ys[e]] >= thetaR
    {
      assert ys[e] in multiset(ys);
      var c :| 0 <= c < |xs| && xs[c] == ys[e];
    }
  }

  /** All six ring edges `ring[i] -> ring[(i + 1) % 6]` weigh at least `thetaA`. */
  predicate RingOk(w: Mat, ring: seq<int>, thetaA: real)
    requires Square(w) && |ring| == RingSize && Nodes(w, ring)
  {
    forall e :: 0 <= e < RingSize ==> w[ring[e]][ring[(e + 1) % RingSize]] >= thetaA
  }

  /** The weights `W[p][h]` of the radial edges. */
  function Radials(w: Mat, p: int, ring: seq<int>): (r: seq<real>)
    requires Square(w) && 0 <= p < |w| && Nodes(w, ring)
    ensures |r| == |ring| && forall e :: 0 <= e < |ring| ==> r[e] == w[p][ring[e]]
  {
    seq(|ring|, e requires 0 <= e < |ring| => w[p][ring[e]])
  }

  /** The hexagon that a passing ring makes, scored `mean - lam * var` of its radials. */
  function MakeHexagon(w: Mat, p: int, ring: seq<int>, lam: real): Hexagon
    requires Square(w) && 0 <= p < |w| && Nodes(w, ring)
  {
    var radial := Radials(w, p, ring);
    Hexagon(p, ring, Mean(radial), Var(radial), Mean(radial) - lam * Var(radial))
  }

  /** `best` after meeting `hx`: only a strictly higher score replaces it. */
  function Better(best: Option<Hexagon>, hx: Hexagon): Option<Hexagon> {
    if best.None? || hx.score > best.value.score then Some(hx) else best
  }

  /** The search state of one centre: the best hexagon so far and the passing rings counted. */
  datatype Search = Search(best: Option<Hexagon>, tried: int)

  predicate AllRadial(w: Mat, p: int, thetaR: real, xss: seq<seq<int>>)
    requires Square(w) && 0 <= p < |w|
  {
    forall a :: 0 <= a < |xss| ==> |xss[a]| == RingSize && Radial(w, p, thetaR, xss[a])
  }

  lemma RadialNodes(w: Mat, p: int, thetaR: real, xs: seq<int>)
    requires Square(w) && 0 <= p < |w| && Radial(w, p, thetaR, xs)
    ensures Nodes(w, xs)
  {
  }

  /**
   * The permutation loop of one selection: rings that fail the edge test are
   * skipped; a passing ring is scored, and the loop stops once `cap` rings
   * have passed.
   */
  function ScanRings(w: Mat, p: int, thetaR: real, thetaA: real, lam: real, cap: int, st: Search, rings: seq<seq<int>>): Search
    requires Square(w) && 0 <= p < |w| && AllRadial(w, p, thetaR, rings)
    decreases |rings|
  {
    if |rings| == 0 then st
    else
      RadialNodes(w, p, thetaR, rings[0]);
      if !RingOk(w, rings[0], thetaA) then ScanRings(w, p, thetaR, thetaA, lam, cap, st, rings[1..])
      else
        var next := Search(Better(st.best, MakeHexagon(w, p, rings[0], lam)), st.tried + 1);
        if next.tried >= cap then next else ScanRings(w, p, thetaR, thetaA, lam, cap, next, rings[1..])
  }

  /** One step of the scan: the first ring is skipped, or counted and compared, before the rest is scanned. */
  lemma ScanRingsFirst(w: Mat, p: int, thetaR: real, thetaA: real, lam: real, cap: int, st: Search, rings: seq<seq<int>>)
    requires Square(w) && 0 <= p < |w| && AllRadial(w, p, thetaR, rings) && |rings| > 0
    ensures AllRadial(w, p, thetaR, rings[1..]) && Nodes(w, rings[0])
    ensures !RingOk(w, rings[0], thetaA) ==>
              ScanRings(w, p, thetaR, thetaA, lam, cap, st, rings) == ScanRings(w, p, thetaR, thetaA, lam, cap, st, rings[1..])
    ensures RingOk(w, rings[0], thetaA) ==>
              var next := Search(Better(st.best, MakeHexagon(w, p, rings[0], lam)), st.tried + 1);
              ScanRings(w, p, thetaR, thetaA, lam, cap, st, rings) ==
              (if next.tried >= cap then next else ScanRings(w, p, thetaR, thetaA, lam, cap, next, rings[1..]))
  {
    RadialNodes(w, p, thetaR, rings[0]);
  }

  /** The rings of a radial selection are radial. */
  lemma RingsOfRadial(w: Mat, p: int, thetaR: real, subset: seq<int>)
    requires Square(w) && 0 <= p < |w| && |subset| == RingSize && Radial(w, p, thetaR, subset)
    ensures AllRadial(w, p, thetaR, RingsOf(subset))
  {
    var rings := RingsOf(subset);
    forall a | 0 <= a < |rings|
      ensures |rings[a]| == RingSize && Radial(w, p, thetaR, rings[a])
    {
      assert |multiset(rings[a])| == |multiset(subset)|;
      RadialTransfers(w, p, thetaR, subset, rings[a]);
    }
  }

  /** The selection loop of one centre, which also stops once `cap` rings have passed. */
  function ScanSubsets(w: Mat, p: int, thetaR: real, thetaA: real, lam: real, cap: int, st: Search, subsets: seq<seq<int>>): Search
    requires Square(w) && 0 <= p < |w| && AllRadial(w, p, thetaR, subsets)
    decreases |subsets|
  {
    if |subsets| == 0 then st
    else
      RingsOfRadial(w, p, thetaR, subsets[0]);
      var next := ScanRings(w, p, thetaR, thetaA, lam, cap, st, RingsOf(subsets[0]));
      if next.tried >= cap then next else ScanSubsets(w, p, thetaR, thetaA, lam, cap, next, subsets[1..])
  }

  /** The six-node selections of a centre's candidates are radial. */
  lemma SelectionsRadial(w: Mat, p: int, thetaR: real)
    requires Square(w) && 0 <= p < |w|
    ensures AllRadial(w, p, thetaR, Combinations(Candidates(w, p, thetaR), RingSize))
  {
  }

  /** The selections of centre `p`, searched from `best` with a fresh count. */
  function SearchCentre(w: Mat, p: int, thetaR: real, thetaA: real, lam: real, cap: int, best: Option<Hexagon>): Option<Hexagon>
    requires Square(w) && 0 <= p < |w|
  {
    var cand := Candidates(w, p, thetaR);
    if |cand| < RingSize then best
    else
      SelectionsRadial(w, p, thetaR);
      ScanSubsets(w, p, thetaR, thetaA, lam, cap, Search(best, 0), Combinations(cand, RingSize)).best
  }

  /** The centres `p, p + 1, ..., n - 1`, searched in turn. */
  function ScanCentres(w: Mat, thetaR: real, thetaA: real, lam: real, cap: int, best: Option<Hexagon>, p: nat): Option<Hexagon>
    requires Square(w) && p <= |w|
    decreases |w| - p
  {
    if p == |w| then best
    else ScanCentres(w, thetaR, thetaA, lam, cap, SearchCentre(w, p, thetaR, thetaA, lam, cap, best), p + 1)
  }

  /** The result of `find_best_hexagon`. */
  function BestHexagon(w: Mat, thetaR: real, thetaA: real, lam: real, cap: int := DefaultMaxCandidatesPerP): (best: Option<Hexagon>)
    requires Square(w)
  {
    ScanCentres(w, thetaR, thetaA, lam, cap, None, 0)
  }

  /**
   * A hexagon of `w`: a centre, six radial nodes other than the centre, six
   * ring edges of at least `thetaA`, and the mean, variance and score of its
   * radial weights.
   */
  predicate ValidHexagon(w: Mat, thetaR: real, thetaA: real, lam: real, h: Hexagon)
    requires Square(w)
  {
    0 <= h.p < |w| && |h.ring| == RingSize && Radial(w, h.p, thetaR, h.ring) &&
    RingOk(w, h.ring, thetaA) &&
    h.radialMean == Mean(Radials(w, h.p, h.ring)) &&
    h.radialVar == Var(Radials(w, h.p, h.ring)) &&
    h.score == h.radialMean - lam * h.radialVar
  }

  predicate ValidBest(w: Mat, thetaR: real, thetaA: real, lam: real, best: Option<Hexagon>)
    requires Square(w)
  {
    best.Some? ==> ValidHexagon(w, thetaR, thetaA, lam, best.value)
  }

  lemma {:induction false} ScanRingsValid(w: Mat, p: int, thetaR: real, thetaA: real, lam: real, cap: int, st: Search, rings: seq<seq<int>>)
    requires Square(w) && 0 <= p < |w| && AllRadial(w, p, thetaR, rings)
    requires ValidBest(w, thetaR, thetaA, lam, st.best)
    ensures ValidBest(w, thetaR, thetaA, lam, ScanRings(w, p, thetaR, thetaA, lam, cap, st, rings).best)
    decreases |rings|
  {
    if |rings| > 0 {
      var ring := rings[0];
      RadialNodes(w, p, thetaR, ring);
      if !RingOk(w, ring, thetaA) {
        ScanRingsValid(w, p, thetaR, thetaA, lam, cap, st, rings[1..]);
      } else {
        var next := Search(Better(st.best, MakeHexagon(w, p, ring, lam)), st.tried + 1);
        assert ValidBest(w, thetaR, thetaA, lam, next.best);
        if next.tried < cap {
          ScanRingsValid(w, p, thetaR, thetaA, lam, cap, next, rings[1..]);
        }
      }
    }
  }

  lemma {:induction false} ScanSubsetsValid(w: Mat, p: int, thetaR: real, thetaA: real, lam: real, cap: int, st: Search, subsets: seq<seq<int>>)
    requires Square(w) && 0 <= p < |w| && AllRadial(w, p, thetaR, subsets)
    requires ValidBest(w, thetaR, thetaA, lam, st.best)
    ensures ValidBest(w, thetaR, thetaA, lam, ScanSubsets(w, p, thetaR, thetaA, lam, cap, st, subsets).best)
    decreases |subsets|
  {
    if |subsets| > 0 {
      RingsOfRadial(w, p, thetaR, subsets[0]);
      ScanRingsValid(w, p, thetaR, thetaA, lam, cap, st, RingsOf(subsets[0]));
      var next := ScanRings(w, p, thetaR, thetaA, lam, cap, st, RingsOf(subsets[0]));
      if next.tried < cap {
        ScanSubsetsValid(w, p, thetaR, thetaA, lam, cap, next, subsets[1..]);
      }
    }
  }

  lemma {:induction false} ScanCentresValid(w: Mat, thetaR: real, thetaA: real, lam: real, cap: int, best: Option<Hexagon>, p: nat)
    requires Square(w) && p <= |w| && ValidBest(w, thetaR, thetaA, lam, best)
    ensures ValidBest(w, thetaR, thetaA, lam, ScanCentres(w, thetaR, thetaA, lam, cap, best, p))
    decreases |w| - p
  {
    if p < |w| {
      var cand := Candidates(w, p, thetaR);
      if |cand| >= RingSize {
        SelectionsRadial(w, p, thetaR);
        ScanSubsetsValid(w, p, thetaR, thetaA, lam, cap, Search(best, 0), Combinations(cand, RingSize));
      }
      ScanCentresValid(w, thetaR, thetaA, lam, cap, SearchCentre(w, p, thetaR, thetaA, lam, cap, best), p + 1);
    }
  }

  /**
   * The best hexagon, when there is one, has a centre outside its ring, six
   * radial edges of at least `thetaR`, six ring edges of at least `thetaA`,
   * and the score `mean - lam * var` of its radial weights.
   */
  lemma BestHexagonIsAHexagon(w: Mat, thetaR: real, thetaA: real, lam: real, cap: int)
    requires Square(w)
    ensures ValidBest(w, thetaR, thetaA, lam, BestHexagon(w, thetaR, thetaA, lam, cap))
  {
    ScanCentresValid(w, thetaR, thetaA, lam, cap, None, 0);
  }

  /** Some ring of the list passes the edge test. */
  predicate RingsPass(w: Mat, p: int, thetaR: real, thetaA: real, rings: seq<seq<int>>)
    requires Square(w) && 0 <= p < |w| && AllRadial(w, p, thetaR, rings)
  {
    exists a :: 0 <= a < |rings| && RingOk(w, rings[a], thetaA)
  }

  /** Some ring of some selection of the list passes the edge test. */
  predicate SubsetsPass(w: Mat, p: int, thetaR: real, thetaA: real, subsets: seq<seq<int>>)
    requires Square(w) && 0 <= p < |w| && AllRadial(w, p, thetaR, subsets)
  {
    exists a :: 0 <= a < |subsets| && (RingsOfRadial(w, p, thetaR, subsets[a]); RingsPass(w, p, thetaR, thetaA, RingsOf(subsets[a])))
  }

  /** Centre `p` has six candidates and one of the rings built from them passes the edge test. */
  predicate CentrePasses(w: Mat, p: int, thetaR: real, thetaA: real)
    requires Square(w) && 0 <= p < |w|
  {
    SelectionsRadial(w, p, thetaR);
    |Candidates(w, p, thetaR)| >= RingSize &&
    SubsetsPass(w, p, thetaR, thetaA, Combinations(Candidates(w, p, thetaR), RingSize))
  }

  lemma RingsPassSplit(w: Mat, p: int, thetaR: real, thetaA: real, rings: seq<seq<int>>)
    requires Square(w) && 0 <= p < |w| && AllRadial(w, p, thetaR, rings) && |rings| > 0
    ensures AllRadial(w, p, thetaR, rings[1..])
    ensures RingsPass(w, p, thetaR, thetaA, rings) <==>
              RingOk(w, rings[0], thetaA) || RingsPass(w, p, thetaR, thetaA, rings[1..])
  {
    assert forall a :: 1 <= a < |rings| ==> rings[a] == rings[1..][a - 1];
    if RingsPass(w, p, thetaR, thetaA, rings[1..]) {
      var a :| 0 <= a < |rings[1..]| && RingOk(w, rings[1..][a], thetaA);
      assert rings[a + 1] == rings[1..][a];
    }
  }

  lemma SubsetsPassSplit(w: Mat, p: int, thetaR: real, thetaA: real, subsets: seq<seq<int>>)
    requires Square(w) && 0 <= p < |w| && AllRadial(w, p, thetaR, subsets) && |subsets| > 0
    ensures AllRadial(w, p, thetaR, subsets[1..]) && AllRadial(w, p, thetaR, RingsOf(subsets[0]))
    ensures SubsetsPass(w, p, thetaR, thetaA, subsets) <==>
              RingsPass(w, p, thetaR, thetaA, RingsOf(subsets[0])) || SubsetsPass(w, p, thetaR, thetaA, subsets[1..])
  {
    RingsOfRadial(w, p, thetaR, subsets[0]);
    assert forall a :: 1 <= a < |subsets| ==> subsets[a] == subsets[1..][a - 1];
    if SubsetsPass(w, p, thetaR, thetaA, subsets[1..]) {
      var a :| 0 <= a < |subsets[1..]| && (RingsOfRadial(w, p, thetaR, subsets[1..][a]); RingsPass(w, p, thetaR, thetaA, RingsOf(subsets[1..][a])));
      assert subsets[a + 1] == subsets[1..][a];
    }
  }

  lemma {:induction false} ScanRingsFinds(w: Mat, p: int, thetaR: real, thetaA: real, lam: real, cap: int, st: Search, rings: seq<seq<int>>)
    requires Square(w) && 0 <= p < |w| && AllRadial(w, p, thetaR, rings)
    ensures var r := ScanRings(w, p, thetaR, thetaA, lam, cap, st, rings);
            r.tried >= st.tried && (r.tried > st.tried ==> r.best.Some?) &&
            (r.best.Some? <==> st.best.Some? || RingsPass(w, p, thetaR, thetaA, rings))
    decreases |rings|
  {
    if |rings| > 0 {
      RingsPassSplit(w, p, thetaR, thetaA, rings);
      if !RingOk(w, rings[0], thetaA) {
        ScanRingsFinds(w, p, thetaR, thetaA, lam, cap, st, rings[1..]);
      } else {
        var next := Search(Better(st.best, MakeHexagon(w, p, rings[0], lam)), st.tried + 1);
        ScanRingsFinds(w, p, thetaR, thetaA, lam, cap, next, rings[1..]);
      }
    }
  }

  lemma {:induction false} ScanSubsetsFinds(w: Mat, p: int, thetaR: real, thetaA: real, lam: real, cap: int, st: Search, subsets: seq<seq<int>>)
    requires Square(w) && 0 <= p < |w| && AllRadial(w, p, thetaR, subsets)
    requires st.tried < cap || st.best.Some?
    ensures ScanSubsets(w, p, thetaR, thetaA, lam, cap, st, subsets).best.Some? <==>
              st.best.Some? || SubsetsPass(w, p, thetaR, thetaA, subsets)
    decreases |subsets|
  {
    if |subsets| > 0 {
      SubsetsPassSplit(w, p, thetaR, thetaA, subsets);
      var next := ScanRings(w, p, thetaR, thetaA, lam, cap, st, RingsOf(subsets[0]));
      ScanRingsFinds(w, p, thetaR, thetaA, lam, cap, st, RingsOf(subsets[0]));
      if next.tried < cap {
        ScanSubsetsFinds(w, p, thetaR, thetaA, lam, cap, next, subsets[1..]);
      }
    }
  }

  /** With a positive cap, searching centre `p` finds a hexagon exactly when one was known or `p` has a passing ring. */
  lemma SearchCentreFinds(w: Mat, p: int, thetaR: real, thetaA: real, lam: real, cap: int, best: Option<Hexagon>)
    requires Square(w) && 0 <= p < |w| && cap >= 1
    ensures SearchCentre(w, p, thetaR, thetaA, lam, cap, best).Some? <==> best.Some? || CentrePasses(w, p, thetaR, thetaA)
  {
    var cand := Candidates(w, p, thetaR);
    if |cand| >= RingSize {
      SelectionsRadial(w, p, thetaR);
      ScanSubsetsFinds(w, p, thetaR, thetaA, lam, cap, Search(best, 0), Combinations(cand, RingSize));
    }
  }

  /** Some centre `q` with `p <= q` has a passing ring. */
  predicate SomeCentrePasses(w: Mat, thetaR: real, thetaA: real, p: nat)
    requires Square(w)
  {
    exists q :: p <= q < |w| && CentrePasses(w, q, thetaR, thetaA)
  }

  lemma SomeCentreSplit(w: Mat, thetaR: real, thetaA: real, p: nat)
    requires Square(w) && p < |w|
    ensures SomeCentrePasses(w, thetaR, thetaA, p) <==>
              CentrePasses(w, p, thetaR, thetaA) || SomeCentrePasses(w, thetaR, thetaA, p + 1)
  {
    if SomeCentrePasses(w, thetaR, thetaA, p) && !CentrePasses(w, p, thetaR, thetaA) {
      var q :| p <= q < |w| && CentrePasses(w, q, thetaR, thetaA);
      assert p + 1 <= q;
    }
  }

  lemma {:induction false} ScanCentresFinds(w: Mat, thetaR: real, thetaA: real, lam: real, cap: int, best: Option<Hexagon>, p: nat)
    requires Square(w) && p <= |w| && cap >= 1
    ensures ScanCentres(w, thetaR, thetaA, lam, cap, best, p).Some? <==>
              best.Some? || SomeCentrePasses(w, thetaR, thetaA, p)
    decreases |w| - p
  {
    if p < |w| {
      SearchCentreFinds(w, p, thetaR, thetaA, lam, cap, best);
      SomeCentreSplit(w, thetaR, thetaA, p);
      ScanCentresFinds(w, thetaR, thetaA, lam, cap, SearchCentre(w, p, thetaR, thetaA, lam, cap, best), p + 1);
    }
  }

  /**
   * With a positive cap, the search finds a hexagon exactly when some centre
   * has six candidates and a ring of them whose six edges pass `thetaA`.
   */
  lemma BestHexagonExists(w: Mat, thetaR: real, thetaA: real, lam: real, cap: int)
    requires Square(w) && cap >= 1
    ensures BestHexagon(w, thetaR, thetaA, lam, cap).Some? <==> exists p :: 0 <= p < |w| && CentrePasses(w, p, thetaR, thetaA)
  {
    ScanCentresFinds(w, thetaR, thetaA, lam, cap, None, 0);
  }

  /** `best` is a hexagon scoring at least `hx`. */
  predicate Beats(best: Option<Hexagon>, hx: Hexagon) {
    best.Some? && best.value.score >= hx.score
  }

  /** `b2` is at least as good as `b1`. */
  predicate Dominates(b1: Option<Hexagon>, b2: Option<Hexagon>) {
    b1.Some? ==> Beats(b2, b1.value)
  }

  /** No passing ring of the list makes a hexagon scoring more than `best`. */
  predicate BeatsRings(w: Mat, p: int, thetaR: real, thetaA: real, lam: real, best: Option<Hexagon>, rings: seq<seq<int>>)
    requires Square(w) && 0 <= p < |w| && AllRadial(w, p, thetaR, rings)
  {
    forall a :: 0 <= a < |rings| && RingOk(w, rings[a], thetaA) ==> Beats(best, MakeHexagon(w, p, rings[a], lam))
  }

  /** No passing ring of any selection of the list makes a hexagon scoring more than `best`. */
  predicate BeatsSubsets(w: Mat, p: int, thetaR: real, thetaA: real, lam: real, best: Option<Hexagon>, subsets: seq<seq<int>>)
    requires Square(w) && 0 <= p < |w| && AllRadial(w, p, thetaR, subsets)
  {
    forall a :: 0 <= a < |subsets| ==>
      (RingsOfRadial(w, p, thetaR, subsets[a]); BeatsRings(w, p, thetaR, thetaA, lam, best, RingsOf(subsets[a])))
  }

  /** No passing ring of centre `p` makes a hexagon scoring more than `best`. */
  predicate BeatsCentre(w: Mat, p: int, thetaR: real, thetaA: real, lam: real, best: Option<Hexagon>)
    requires Square(w) && 0 <= p < |w|
  {
    SelectionsRadial(w, p, thetaR);
    |Candidates(w, p, thetaR)| < RingSize ||
    BeatsSubsets(w, p, thetaR, thetaA, lam, best, Combinations(Candidates(w, p, thetaR), RingSize))
  }

  /** How many rings the selections of the list have. */
  function RingTotal(subsets: seq<seq<int>>): nat
    requires forall a :: 0 <= a < |subsets| ==> |subsets[a]| > 0
  {
    if |subsets| == 0 then 0 else |RingsOf(subsets[0])| + RingTotal(subsets[1..])
  }

  /** How many rings centre `p` has. */
  function CentreRings(w: Mat, p: int, thetaR: real): nat
    requires Square(w) && 0 <= p < |w|
  {
    var cand := Candidates(w, p, thetaR);
    if |cand| < RingSize then 0 else RingTotal(Combinations(cand, RingSize))
  }

  lemma {:induction false} ScanRingsBest(w: Mat, p: int, thetaR: real, thetaA: real, lam: real, cap: int, st: Search, rings: seq<seq<int>>)
    requires Square(w) && 0 <= p < |w| && AllRadial(w, p, thetaR, rings)
    requires st.tried + |rings| < cap
    ensures var r := ScanRings(w, p, thetaR, thetaA, lam, cap, st, rings);
            r.tried <= st.tried + |rings| && Dominates(st.best, r.best) &&
            BeatsRings(w, p, thetaR, thetaA, lam, r.best, rings)
    decreases |rings|
  {
    if |rings| > 0 {
      var ring := rings[0];
      assert AllRadial(w, p, thetaR, rings[1..]);
      assert forall a :: 1 <= a < |rings| ==> rings[a] == rings[1..][a - 1];
      if !RingOk(w, ring, thetaA) {
        ScanRingsBest(w, p, thetaR, thetaA, lam, cap, st, rings[1..]);
      } else {
        var next := Search(Better(st.best, MakeHexagon(w, p, ring, lam)), st.tried + 1);
        ScanRingsBest(w, p, thetaR, thetaA, lam, cap, next, rings[1..]);
      }
    }
  }

  lemma BeatsRingsLater(w: Mat, p: int, thetaR: real, thetaA: real, lam: real, b1: Option<Hexagon>, b2: Option<Hexagon>, rings: seq<seq<int>>)
    requires Square(w) && 0 <= p < |w| && AllRadial(w, p, thetaR, rings)
    requires BeatsRings(w, p, thetaR, thetaA, lam, b1, rings) && Dominates(b1, b2)
    ensures BeatsRings(w, p, thetaR, thetaA, lam, b2, rings)
  {
  }

  lemma {:induction false} ScanSubsetsBest(w: Mat, p: int, thetaR: real, thetaA: real, lam: real, cap: int, st: Search, subsets: seq<seq<int>>)
    requires Square(w) && 0 <= p < |w| && AllRadial(w, p, thetaR, subsets)
    requires st.tried + RingTotal(subsets) < cap
    ensures var r := ScanSubsets(w, p, thetaR, thetaA, lam, cap, st, subsets);
            r.tried <= st.tried + RingTotal(subsets) && Dominates(st.best, r.best) &&
            BeatsSubsets(w, p, thetaR, thetaA, lam, r.best, subsets)
    decreases |subsets|
  {
    if |subsets| > 0 {
      RingsOfRadial(w, p, thetaR, subsets[0]);
      var rings := RingsOf(subsets[0]);
      ScanRingsBest(w, p, thetaR, thetaA, lam, cap, st, rings);
      var next := ScanRings(w, p, thetaR, thetaA, lam, cap, st, rings);
      assert AllRadial(w, p, thetaR, subsets[1..]);
      ScanSubsetsBest(w, p, thetaR, thetaA, lam, cap, next, subsets[1..]);
      var r := ScanSubsets(w, p, thetaR, thetaA, lam, cap, next, subsets[1..]);
      BeatsRingsLater(w, p, thetaR, thetaA, lam, next.best, r.best, rings);
      assert forall a :: 1 <= a < |subsets| ==> subsets[a] == subsets[1..][a - 1];
    }
  }

  /** Searching a centre with fewer rings than the cap beats all of that centre's rings. */
  lemma SearchCentreBest(w: Mat, p: int, thetaR: real, thetaA: real, lam: real, cap: int, best: Option<Hexagon>)
    requires Square(w) && 0 <= p < |w| && CentreRings(w, p, thetaR) < cap
    ensures var here := SearchCentre(w, p, thetaR, thetaA, lam, cap, best);
            Dominates(best, here) && BeatsCentre(w, p, thetaR, thetaA, lam, here)
  {
    var cand := Candidates(w, p, thetaR);
    if |cand| >= RingSize {
      SelectionsRadial(w, p, thetaR);
      ScanSubsetsBest(w, p, thetaR, thetaA, lam, cap, Search(best, 0), Combinations(cand, RingSize));
    }
  }

  lemma BeatsCentreLater(w: Mat, p: int, thetaR: real, thetaA: real, lam: real, b1: Option<Hexagon>, b2: Option<Hexagon>)
    requires Square(w) && 0 <= p < |w|
    requires BeatsCentre(w, p, thetaR, thetaA, lam, b1) && Dominates(b1, b2)
    ensures BeatsCentre(w, p, thetaR, thetaA, lam, b2)
  {
    var cand := Candidates(w, p, thetaR);
    if |cand| >= RingSize {
      var subsets := Combinations(cand, RingSize);
      SelectionsRadial(w, p, thetaR);
      forall a | 0 <= a < |subsets|
        ensures (RingsOfRadial(w, p, thetaR, subsets[a]); BeatsRings(w, p, thetaR, thetaA, lam, b2, RingsOf(subsets[a])))
      {
        RingsOfRadial(w, p, thetaR, subsets[a]);
        BeatsRingsLater(w, p, thetaR, thetaA, lam, b1, b2, RingsOf(subsets[a]));
      }
    }
  }

  lemma {:induction false} ScanCentresBest(w: Mat, thetaR: real, thetaA: real, lam: real, cap: int, best: Option<Hexagon>, p: nat)
    requires Square(w) && p <= |w|
    requires forall q :: p <= q < |w| ==> CentreRings(w, q, thetaR) < cap
    ensures var r := ScanCentres(w, thetaR, thetaA, lam, cap, best, p);
            Dominates(best, r) && forall q :: p <= q < |w| ==> BeatsCentre(w, q, thetaR, thetaA, lam, r)
    decreases |w| - p
  {
    if p < |w| {
      var here := SearchCentre(w, p, thetaR, thetaA, lam, cap, best);
      SearchCentreBest(w, p, thetaR, thetaA, lam, cap, best);
      ScanCentresBest(w, thetaR, thetaA, lam, cap, here, p + 1);
      var r := ScanCentres(w, thetaR, thetaA, lam, cap, here, p + 1);
      BeatsCentreLater(w, p, thetaR, thetaA, lam, here, r);
    }
  }

  /**
   * When no centre has as many rings as the cap allows passing rings, the
   * cap never stops the search, and the hexagon found scores at least as
   * much as the hexagon of every passing ring of every centre.
   */
  lemma BestHexagonIsBest(w: Mat, thetaR: real, thetaA: real, lam: real, cap: int)
    requires Square(w) && forall p :: 0 <= p < |w| ==> CentreRings(w, p, thetaR) < cap
    ensures forall p :: 0 <= p < |w| ==> BeatsCentre(w, p, thetaR, thetaA, lam, BestHexagon(w, thetaR, thetaA, lam, cap))
  {
    ScanCentresBest(w, thetaR, thetaA, lam, cap, None, 0);
  }

  /** The edge test of one ring, as the loop `for i in range(6)` with its early exit. */
  method CheckRing(w: Mat, ring: seq<int>, thetaA: real) returns (ok: bool)
    requires Square(w) && |ring| == RingSize && Nodes(w, ring)
    ensures ok == RingOk(w, ring, thetaA)
  {
    ok := true;
    var e := 0;
    while e < RingSize
      invariant 0 <= e <= RingSize
      invariant forall f :: 0 <= f < e ==> w[ring[f]][ring[(f + 1) % RingSize]] >= thetaA
    {
      var a := ring[e];
      var b := ring[(e + 1) % RingSize];
      if w[a][b] < thetaA {
        ok := false;
        break;
      }
      e := e + 1;
    }
  }

  /** The permutation loop over the rings of one selection. */
  method SearchRings(w: Mat, p: int, thetaR: real, thetaA: real, lam: real, cap: int, best0: Option<Hexagon>, tried0: int, subset: seq<int>)
    returns (best: Option<Hexagon>, tried: int)
    requires Square(w) && 0 <= p < |w| && |subset| == RingSize && Radial(w, p, thetaR, subset)
    ensures AllRadial(w, p, thetaR, RingsOf(subset))
    ensures Search(best, tried) == ScanRings(w, p, thetaR, thetaA, lam, cap, Search(best0, tried0), RingsOf(subset))
  {
    RingsOfRadial(w, p, thetaR, subset);
    var first := subset[0];
    var others := subset[1..];
    var perms := Permutations(others);
    ghost var rings := RingsOf(subset);
    best, tried := best0, tried0;
    var q := 0;
    while q < |perms|
      invariant 0 <= q <= |perms| && |rings| == |perms|
      invariant ScanRings(w, p, thetaR, thetaA, lam, cap, Search(best, tried), rings[q..]) ==
                ScanRings(w, p, thetaR, thetaA, lam, cap, Search(best0, tried0), rings)
    {
      var ring := [first] + perms[q];
      assert ring == rings[q] && rings[q..][0] == ring && rings[q..][1..] == rings[q + 1..];
      ScanRingsFirst(w, p, thetaR, thetaA, lam, cap, Search(best, tried), rings[q..]);
      RadialNodes(w, p, thetaR, ring);
      var ok := CheckRing(w, ring, thetaA);
      if !ok {
        q := q + 1;
        continue;
      }
      var hx := MakeHexagon(w, p, ring, lam);
      if best.None? || hx.score > best.value.score {
        best := Some(hx);
      }
      tried := tried + 1;
      if tried >= cap {
        break;
      }
      q := q + 1;
    }
  }

  /** The selection loop of one centre. */
  method SearchSelections(w: Mat, p: int, thetaR: real, thetaA: real, lam: real, cap: int, best0: Option<Hexagon>)
    returns (best: Option<Hexagon>)
    requires Square(w) && 0 <= p < |w|
    ensures best == SearchCentre(w, p, thetaR, thetaA, lam, cap, best0)
  {
    var cand := Candidates(w, p, thetaR);
    best := best0;
    if |cand| < RingSize {
      return;
    }
    SelectionsRadial(w, p, thetaR);
    var tried := 0;
    var subsets := Combinations(cand, RingSize);
    var s := 0;
    while s < |subsets|
      invariant 0 <= s <= |subsets|
      invariant ScanSubsets(w, p, thetaR, thetaA, lam, cap, Search(best, tried), subsets[s..]) ==
                ScanSubsets(w, p, thetaR, thetaA, lam, cap, Search(best0, 0), subsets)
    {
      assert subsets[s..][0] == subsets[s] && subsets[s..][1..] == subsets[s + 1..];
      best, tried := SearchRings(w, p, thetaR, thetaA, lam, cap, best, tried, subsets[s]);
      if tried >= cap {
        break;
      }
      s := s + 1;
    }
  }

  /** `find_best_hexagon`: every centre in turn, keeping the highest-scoring hexagon found. */
  method FindBestHexagon(w: Mat, thetaR: real, thetaA: real, lam: real, maxCandidatesPerP: int := DefaultMaxCandidatesPerP)
    returns (best: Option<Hexagon>)
    requires Square(w)
    ensures best == BestHexagon(w, thetaR, thetaA, lam, maxCandidatesPerP)
  {
    best := None;
    for p := 0 to |w|
      invariant ScanCentres(w, thetaR, thetaA, lam, maxCandidatesPerP, best, p) == BestHexagon(w, thetaR, thetaA, lam, maxCandidatesPerP)
    {
      best := SearchSelections(w, p, thetaR, thetaA, lam, maxCandidatesPerP, best);
    }
  }

  // ---------------------------------------------------------------- metrics

  /** `asymmetry_weighted_degree`: the mean absolute deviation of the weighted degrees. */
  function Asymmetry(w: Mat): Result<real> {
    MeanAbsDeviation(RowSums(w))
  }

  /**
   * The asymmetry raises `ZeroDivisionError` exactly on the empty graph;
   * otherwise it is non-negative, and zero exactly when every node has the
   * same weighted degree.
   */
  lemma AsymmetryIsADeviation(w: Mat)
    ensures Asymmetry(w) == Raise(ZeroDivisionError) <==> |w| == 0
    ensures Asymmetry(w).Ok? ==> Asymmetry(w).value >= 0.0
    ensures Asymmetry(w).Ok? ==>
              (Asymmetry(w).value == 0.0 <==> forall i, j :: 0 <= i < |w| && 0 <= j < |w| ==> Sum(w[i]) == Sum(w[j]))
  {
    var s := RowSums(w);
    MeanAbsDeviationZeroIffEqual(s);
    assert forall i, j :: 0 <= i < |w| && 0 <= j < |w| ==> (s[i] == s[j] <==> Sum(w[i]) == Sum(w[j]));
  }

  /** The scores of a list of triangles. */
  function Scores(ts: seq<Triangle>): (r: seq<real>)
    ensures |r| == |ts| && forall a :: 0 <= a < |ts| ==> r[a] == ts[a].score
  {
    seq(|ts|, a requires 0 <= a < |ts| => ts[a].score)
  }

  /** `compute_metrics`, with the thresholds and weights of its signature as defaults. */
  function ComputeMetrics(
    w: Mat,
    thetaT: real := DefaultThetaT, thetaR: real := DefaultThetaR, thetaA: real := DefaultThetaA,
    alpha: real := DefaultWeight, beta: real := DefaultWeight, gamma: real := DefaultWeight, lam: real := DefaultWeight
  ): Result<Metrics>
    requires Square(w)
  {
    var strong := StrongTriangles(w, thetaT);
    var tmean := if |strong| > 0 then Mean(Scores(strong)) else 0.0;
    var hx := BestHexagon(w, thetaR, thetaA, lam);
    var hstar := if hx.Some? then hx.value.score else 0.0;
    var a :- Asymmetry(w);
    Ok(Metrics(strong, tmean, hx, a, Combined(alpha, beta, gamma, tmean, hstar, a)))
  }

  /** The structural score `S = alpha*T + beta*H - gamma*A`. */
  function Combined(alpha: real, beta: real, gamma: real, t: real, h: real, a: real): real {
    alpha * t + beta * h - gamma * a
  }

  /** The mean of the strong triangles' scores is at least `thetaT`, since each score is. */
  lemma StrongMeanAtLeastThreshold(w: Mat, thetaT: real)
    requires Square(w) && |StrongTriangles(w, thetaT)| > 0
    ensures Mean(Scores(StrongTriangles(w, thetaT))) >= thetaT
  {
    var strong := StrongTriangles(w, thetaT);
    StrongTrianglesAreTheStrongTriples(w, thetaT);
    var xs := Scores(strong);
    forall a | 0 <= a < |xs|
      ensures thetaT <= xs[a]
    {
      assert strong[a] in strong;
    }
    MeanAtLeast(xs, thetaT);
  }

  /**
   * `compute_metrics` raises `ZeroDivisionError` exactly on the empty graph.
   * Otherwise it reports the strong triangles and the best hexagon, whose
   * score enters `S` (0 when there is none), a strong-triangle mean of at
   * least `thetaT` (0 when there are none), a non-negative asymmetry, and
   * `S = alpha*T + beta*H - gamma*A` of those parts.
   */
  lemma MetricsCombineTheParts(w: Mat, thetaT: real, thetaR: real, thetaA: real, alpha: real, beta: real, gamma: real, lam: real)
    requires Square(w)
    ensures ComputeMetrics(w, thetaT, thetaR, thetaA, alpha, beta, gamma, lam).Raise? <==> |w| == 0
    ensures var r := ComputeMetrics(w, thetaT, thetaR, thetaA, alpha, beta, gamma, lam);
            r.Ok? ==>
              r.value.strongTriangles == StrongTriangles(w, thetaT) &&
              r.value.bestHexagon == BestHexagon(w, thetaR, thetaA, lam) &&
              ValidBest(w, thetaR, thetaA, lam, r.value.bestHexagon) &&
              (r.value.strongTriangles == [] ==> r.value.strongTriangleMean == 0.0) &&
              (r.value.strongTriangles != [] ==> r.value.strongTriangleMean >= thetaT) &&
              r.value.asymmetry >= 0.0 &&
              r.value.s == alpha * r.value.strongTriangleMean
                           + beta * (if r.value.bestHexagon.Some? then r.value.bestHexagon.value.score else 0.0)
                           - gamma * r.value.asymmetry
  {
    AsymmetryIsADeviation(w);
    BestHexagonIsAHexagon(w, thetaR, thetaA, lam, DefaultMaxCandidatesPerP);
    if |StrongTriangles(w, thetaT)| > 0 {
      StrongMeanAtLeastThreshold(w, thetaT);
    }
    MetricsScore(w, thetaT, thetaR, thetaA, alpha, beta, gamma, lam);
  }

  /** The `S` of a `compute_metrics` record is the combination of its own parts. */
  lemma MetricsScore(w: Mat, thetaT: real, thetaR: real, thetaA: real, alpha: real, beta: real, gamma: real, lam: real)
    requires Square(w)
    ensures var r := ComputeMetrics(w, thetaT, thetaR, thetaA, alpha, beta, gamma, lam);
            r.Ok? ==>
              r.value.s == Combined(alpha, beta, gamma, r.value.strongTriangleMean,
                                    if r.value.bestHexagon.Some? then r.value.bestHexagon.value.score else 0.0,
                                    r.value.asymmetry)
  {
  }



  // ---------------------------------------------------------------- core-fixed

  /** The node labels a metrics record uses all lie below `n`. */
  predicate LabelsBelow(m: Metrics, n: int) {
    (forall a :: 0 <= a < |m.strongTriangles| ==>
       0 <= m.strongTriangles[a].i < n && 0 <= m.strongTriangles[a].j < n && 0 <= m.strongTriangles[a].k < n) &&
    (m.bestHexagon.Some? ==>
       0 <= m.bestHexagon.value.p < n &&
       forall e :: 0 <= e < |m.bestHexagon.value.ring| ==> 0 <= m.bestHexagon.value.ring[e] < n)
  }

  /** `relabel_metrics`: node `a` of the metrics becomes `nodes[a]`; every score is kept. */
  function Relabel(m: Metrics, nodes: seq<int>): Metrics
    requires LabelsBelow(m, |nodes|)
  {
    var strong := seq(|m.strongTriangles|, a requires 0 <= a < |m.strongTriangles| =>
      var t := m.strongTriangles[a];
      Triangle(nodes[t.i], nodes[t.j], nodes[t.k], t.score));
    var hx := if m.bestHexagon.None? then None
              else
                var h := m.bestHexagon.value;
                Some(Hexagon(nodes[h.p], seq(|h.ring|, e requires 0 <= e < |h.ring| => nodes[h.ring[e]]),
                             h.radialMean, h.radialVar, h.score));
    Metrics(strong, m.strongTriangleMean, hx, m.asymmetry, m.s)
  }

  /** `[0, 1, ..., n - 1]`. */
  function Identity(n: nat): (r: seq<int>)
    ensures |r| == n && forall a :: 0 <= a < n ==> r[a] == a
  {
    seq(n, a => a)
  }

  /**
   * Relabelling keeps the number of triangles, every score, the mean, the
   * asymmetry and `S`; relabelling by `[0, ..., n - 1]` changes nothing.
   */
  lemma RelabelKeepsScores(m: Metrics, nodes: seq<int>)
    requires LabelsBelow(m, |nodes|)
    ensures var r := Relabel(m, nodes);
            |r.strongTriangles| == |m.strongTriangles| &&
            (forall a :: 0 <= a < |m.strongTriangles| ==>
               r.strongTriangles[a] == Triangle(nodes[m.strongTriangles[a].i], nodes[m.strongTriangles[a].j],
                                                nodes[m.strongTriangles[a].k], m.strongTriangles[a].score)) &&
            r.bestHexagon.Some? == m.bestHexagon.Some? &&
            (r.bestHexagon.Some? ==> r.bestHexagon.value.score == m.bestHexagon.value.score) &&
            r.strongTriangleMean == m.strongTriangleMean && r.asymmetry == m.asymmetry && r.s == m.s
    ensures nodes == Identity(|nodes|) ==> Relabel(m, nodes) == m
  {
    if nodes == Identity(|nodes|) {
      var r := Relabel(m, nodes);
      assert r.strongTriangles == m.strongTriangles;
      if m.bestHexagon.Some? {
        assert r.bestHexagon.value.ring == m.bestHexagon.value.ring;
      }
    }
  }

  /** The metrics of a graph only name its own nodes. */
  lemma MetricsLabels(w: Mat, thetaT: real, thetaR: real, thetaA: real, alpha: real, beta: real, gamma: real, lam: real)
    requires Square(w)
    ensures var r := ComputeMetrics(w, thetaT, thetaR, thetaA, alpha, beta, gamma, lam);
            r.Ok? ==> LabelsBelow(r.value, |w|)
  {
    StrongTrianglesAreTheStrongTriples(w, thetaT);
    BestHexagonIsAHexagon(w, thetaR, thetaA, lam, DefaultMaxCandidatesPerP);
    var strong := StrongTriangles(w, thetaT);
    assert forall a :: 0 <= a < |strong| ==> strong[a] in strong;
  }

  /** Every core entry is a node of `w`. */
  predicate CoreNodes(w: Mat, core: seq<int>) {
    forall a :: 0 <= a < |core| ==> 0 <= core[a] < |w|
  }

  /**
   * `compute_metrics_core_fixed`: the metrics of the core block, with the
   * core's own node numbers put back.
   */
  function CoreFixed(
    w: Mat, core: seq<int>,
    thetaT: real := DefaultThetaT, thetaR: real := DefaultThetaR, thetaA: real := DefaultThetaA,
    alpha: real := DefaultWeight, beta: real := DefaultWeight, gamma: real := DefaultWeight, lam: real := DefaultWeight
  ): (r: Result<Metrics>)
    requires Square(w) && CoreNodes(w, core)
    ensures r.Raise? <==> |core| == 0
  {
    var c := Submatrix(w, core);
    var m :- ComputeMetrics(c, thetaT, thetaR, thetaA, alpha, beta, gamma, lam);
    MetricsLabels(c, thetaT, thetaR, thetaA, alpha, beta, gamma, lam);
    Ok(Relabel(m, core))
  }

  /**
   * Strict invariance under world changes: two graphs that agree on the
   * core × core block give the same core-fixed metrics, whatever they do
   * elsewhere.
   */
  lemma CoreFixedSeesOnlyTheCore(
    w1: Mat, w2: Mat, core: seq<int>,
    thetaT: real, thetaR: real, thetaA: real, alpha: real, beta: real, gamma: real, lam: real)
    requires Square(w1) && Square(w2) && CoreNodes(w1, core) && CoreNodes(w2, core)
    requires forall a, b :: 0 <= a < |core| && 0 <= b < |core| ==> w1[core[a]][core[b]] == w2[core[a]][core[b]]
    ensures CoreFixed(w1, core, thetaT, thetaR, thetaA, alpha, beta, gamma, lam) ==
            CoreFixed(w2, core, thetaT, thetaR, thetaA, alpha, beta, gamma, lam)
  {
    SubmatrixSeesOnlyTheBlock(w1, w2, core);
  }

  /** The core-fixed metrics raise exactly when the core is empty. */
  lemma CoreFixedRaisesIffEmptyCore(
    w: Mat, core: seq<int>,
    thetaT: real, thetaR: real, thetaA: real, alpha: real, beta: real, gamma: real, lam: real)
    requires Square(w) && CoreNodes(w, core)
    ensures CoreFixed(w, core, thetaT, thetaR, thetaA, alpha, beta, gamma, lam).Raise? <==> |core| == 0
  {
    var c := Submatrix(w, core);
    MetricsCombineTheParts(c, thetaT, thetaR, thetaA, alpha, beta, gamma, lam);
  }

  /**
   * Otherwise they carry the `S`, asymmetry and triangle mean of the core
   * block, and every strong triangle is a triple of core nodes.
   */
  lemma CoreFixedIsTheCoreBlock(
    w: Mat, core: seq<int>,
    thetaT: real, thetaR: real, thetaA: real, alpha: real, beta: real, gamma: real, lam: real)
    requires Square(w) && CoreNodes(w, core)
    ensures var r := CoreFixed(w, core, thetaT, thetaR, thetaA, alpha, beta, gamma, lam);
            var m := ComputeMetrics(Submatrix(w, core), thetaT, thetaR, thetaA, alpha, beta, gamma, lam);
            r.Ok? ==>
              m.Ok? && r.value.s == m.value.s && r.value.asymmetry == m.value.asymmetry &&
              r.value.strongTriangleMean == m.value.strongTriangleMean &&
              forall a :: 0 <= a < |r.value.strongTriangles| ==>
                r.value.strongTriangles[a].i in core && r.value.strongTriangles[a].j in core &&
                r.value.strongTriangles[a].k in core
  {
    var c := Submatrix(w, core);
    var m := ComputeMetrics(c, thetaT, thetaR, thetaA, alpha, beta, gamma, lam);
    if m.Ok? {
      MetricsLabels(c, thetaT, thetaR, thetaA, alpha, beta, gamma, lam);
      RelabelKeepsScores(m.value, core);
      var r := Relabel(m.value, core);
      assert CoreFixed(w, core, thetaT, thetaR, thetaA, alpha, beta, gamma, lam) == Ok(r);
      forall a | 0 <= a < |r.strongTriangles|
        ensures r.strongTriangles[a].i in core && r.strongTriangles[a].j in core && r.strongTriangles[a].k in core
      {
        var t := m.value.strongTriangles[a];
        assert 0 <= t.i < |core| && 0 <= t.j < |core| && 0 <= t.k < |core|;
        assert r.strongTriangles[a] == Triangle(core[t.i], core[t.j], core[t.k], t.score);
      }
    }
  }

  /** `decision_act_hold`. */
  function DecisionActHold(m: Metrics, thetaS: real): (d: string)
    ensures d == "ACT" || d == "HOLD"
    ensures d == "ACT" <==> m.s >= thetaS
  {
    if m.s >= thetaS then "ACT" else "HOLD"
  }
}
