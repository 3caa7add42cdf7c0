/** The two graphs the ranking runs on (internal/handlers/articleanalysis/analyzer.go): word
    co-occurrence and sentence similarity. Both are built edge by edge, in place. */
module Graphs {
  import opened TextRank

  const COOC_WINDOW := 4

  ghost predicate Undirected(adj: Graph) {
    forall a: nat, b: nat :: a < |adj| && b < |adj| ==> Weight(adj, a, b) == Weight(adj, b, a)
  }

  ghost predicate NoSelfLoops(adj: Graph) {
    forall a: nat :: a < |adj| ==> Weight(adj, a, a) == 0.0
  }

  // ------------------------------------------------------------------ co-occurrence

  /** Positions p and q hold the words a and b, in either order, within the window. A stop
      word keeps its position but never pairs, and a word does not pair with itself. */
  predicate Pairs(words: seq<int>, p: nat, q: nat, a: int, b: int)
    requires p < q < |words|
  {
    && q <= p + COOC_WINDOW && words[p] >= 0 && words[q] >= 0 && words[p] != words[q]
    && ((words[p] == a && words[q] == b) || (words[p] == b && words[q] == a))
  }

  /** Pairs of position p with the positions before q. */
  function PairsAt(words: seq<int>, p: nat, q: nat, a: int, b: int): nat
    requires p < |words| && q <= |words|
  {
    if q <= p + 1 then 0 else PairsAt(words, p, q - 1, a, b) + if Pairs(words, p, q - 1, a, b) then 1 else 0
  }

  /** Pairs whose first position is below p. */
  function PairCount(words: seq<int>, p: nat, a: int, b: int): nat
    requires p <= |words|
  {
    if p == 0 then 0 else PairCount(words, p - 1, a, b) + PairsAt(words, p - 1, |words|, a, b)
  }

  /** The places, with the first before k, where the two words stand at most four apart. */
  function Occurrences(words: seq<int>, k: nat, a: int, b: int): set<(int, int)>
    requires k <= |words|
  {
    set p, q | 0 <= p < k && p < q < |words| && OccurAt(words, p, q, a, b) :: (p, q)
  }

  predicate OccurAt(words: seq<int>, p: int, q: int, a: int, b: int)
    requires 0 <= p < q < |words|
  {
    a >= 0 && b >= 0 && a != b && q - p <= 4 && ((words[p] == a && words[q] == b) || (words[p] == b && words[q] == a))
  }

  function OccurrencesFrom(words: seq<int>, p: nat, k: nat, a: int, b: int): set<(int, int)>
    requires p < |words| && k <= |words|
  {
    set q | p < q < k && OccurAt(words, p, q, a, b) :: (p, q)
  }

  lemma {:induction false} PairsFromAreCounted(words: seq<int>, p: nat, k: nat, a: int, b: int)
    requires p < |words| && k <= |words|
    ensures PairsAt(words, p, k, a, b) == |OccurrencesFrom(words, p, k, a, b)|
  {
    if k <= p + 1 {
      assert OccurrencesFrom(words, p, k, a, b) == {};
    } else {
      PairsFromAreCounted(words, p, k - 1, a, b);
      var more: set<(int, int)> := if OccurAt(words, p, k - 1, a, b) then {(p, k - 1)} else {};
      assert OccurrencesFrom(words, p, k, a, b) == OccurrencesFrom(words, p, k - 1, a, b) + more;
      assert (p, k - 1) !in OccurrencesFrom(words, p, k - 1, a, b);
    }
  }

  /** The loops count every such place exactly once. */
  lemma {:induction false} PairsAreCounted(words: seq<int>, p: nat, a: int, b: int)
    requires p <= |words|
    ensures PairCount(words, p, a, b) == |Occurrences(words, p, a, b)|
  {
    if p == 0 {
      assert Occurrences(words, p, a, b) == {};
    } else {
      PairsAreCounted(words, p - 1, a, b);
      PairsFromAreCounted(words, p - 1, |words|, a, b);
      var here, before := OccurrencesFrom(words, p - 1, |words|, a, b), Occurrences(words, p - 1, a, b);
      assert Occurrences(words, p, a, b) == before + here;
      assert before !! here;
    }
  }

  /** Nothing pairs outside the window. */
  lemma {:induction false} WindowIsEnough(words: seq<int>, p: nat, q: nat, a: int, b: int)
    requires p < |words| && p + COOC_WINDOW < q <= |words|
    ensures PairsAt(words, p, q, a, b) == PairsAt(words, p, p + COOC_WINDOW + 1, a, b)
  {
    if q > p + COOC_WINDOW + 1 {
      WindowIsEnough(words, p, q - 1, a, b);
    }
  }

  lemma {:induction false} StopWordsDoNotPair(words: seq<int>, p: nat, q: nat, a: int, b: int)
    requires p < |words| && q <= |words| && words[p] < 0
    ensures PairsAt(words, p, q, a, b) == 0
  {
    if q > p + 1 {
      StopWordsDoNotPair(words, p, q - 1, a, b);
    }
  }

  lemma {:induction false} PairsAtSymmetric(words: seq<int>, p: nat, q: nat, a: int, b: int)
    requires p < |words| && q <= |words|
    ensures PairsAt(words, p, q, a, b) == PairsAt(words, p, q, b, a)
    ensures a == b ==> PairsAt(words, p, q, a, b) == 0
  {
    if q > p + 1 {
      PairsAtSymmetric(words, p, q - 1, a, b);
    }
  }

  lemma {:induction false} PairCountSymmetric(words: seq<int>, p: nat, a: int, b: int)
    requires p <= |words|
    ensures PairCount(words, p, a, b) == PairCount(words, p, b, a)
    ensures a == b ==> PairCount(words, p, a, b) == 0
  {
    if p > 0 {
      PairCountSymmetric(words, p - 1, a, b);
      PairsAtSymmetric(words, p - 1, |words|, a, b);
    }
  }

  /** adj[a][b]++ */
  function Bumped(adj: Graph, a: nat, b: nat): (r: Graph)
    requires a < |adj| && b < |adj| && WellFormed(adj)
    ensures |r| == |adj| && WellFormed(r)
    ensures forall x: nat, y: nat :: x < |adj| ==> Weight(r, x, y) == Weight(adj, x, y) + if x == a && y == b then 1.0 else 0.0
  {
    var row: map<nat, real> := adj[a][b := Weight(adj, a, b) + 1.0];
    adj[a := row]
  }

  /** The table of counts the loops have reached. */
  ghost predicate Counted(adj: Graph, words: seq<int>, p: nat, q: nat)
    requires p <= |words| && q <= |words|
  {
    forall a: nat, b: nat :: a < |adj| && b < |adj| ==>
      Weight(adj, a, b) == (PairCount(words, p, a, b) + if p < |words| then PairsAt(words, p, q, a, b) else 0) as real
  }

  lemma NextPosition(adj: Graph, words: seq<int>, p: nat, q: nat)
    requires p < |words| && q <= |words| && Counted(adj, words, p, q)
    requires words[p] < 0 || q == |words| || q == p + COOC_WINDOW + 1
    ensures Counted(adj, words, p + 1, 0)
  {
    forall a: nat, b: nat | a < |adj| && b < |adj| ensures PairsAt(words, p, q, a, b) == PairsAt(words, p, |words|, a, b) {
      if words[p] < 0 {
        StopWordsDoNotPair(words, p, q, a, b);
        StopWordsDoNotPair(words, p, |words|, a, b);
      } else if q < |words| {
        WindowIsEnough(words, p, |words|, a, b);
      }
    }
  }

  lemma Bump(adj: Graph, words: seq<int>, p: nat, q: nat)
    requires WellFormed(adj) && p < q < |words| && Counted(adj, words, p, q)
    requires 0 <= words[p] < |adj| && 0 <= words[q] < |adj| && words[p] != words[q] && q <= p + COOC_WINDOW
    ensures Counted(Bumped(Bumped(adj, words[p], words[q]), words[q], words[p]), words, p, q + 1)
  {
    hide PairCount;
    forall a: nat, b: nat | a < |adj| && b < |adj|
      ensures PairsAt(words, p, q + 1, a, b) == PairsAt(words, p, q, a, b) + if Pairs(words, p, q, a, b) then 1 else 0
    {
    }
  }

  lemma Skip(adj: Graph, words: seq<int>, p: nat, q: nat)
    requires p < q < |words| && Counted(adj, words, p, q) && words[p] >= 0
    requires words[q] < 0 || words[q] == words[p]
    ensures Counted(adj, words, p, q + 1)
  {
    hide PairCount;
    forall a: nat, b: nat | a < |adj| && b < |adj| ensures PairsAt(words, p, q + 1, a, b) == PairsAt(words, p, q, a, b) {
    }
  }

  /** The sliding window counts every unordered pair of different words exactly once for
      each time they stand within the window. */
  method Cooccurrence(words: seq<int>, vocab: nat) returns (adj: Graph)
    requires forall i :: 0 <= i < |words| ==> words[i] < vocab
    ensures |adj| == vocab && WellFormed(adj)
    ensures forall a: nat, b: nat :: a < vocab && b < vocab ==> Weight(adj, a, b) == |Occurrences(words, |words|, a, b)| as real
    ensures Undirected(adj) && NoSelfLoops(adj) && NonNegative(adj)
  {
    hide PairCount, PairsAt, Bumped, WellFormed;
    adj := NoEdges(vocab);
    NothingCounted(adj, words);
    for i := 0 to |words|
      invariant |adj| == vocab && WellFormed(adj) && Counted(adj, words, i, 0)
    {
      var j := i + 1;
      StartRow(adj, words, i);
      if words[i] >= 0 {
        while j < |words| && j <= i + COOC_WINDOW
          invariant i < j <= |words| && j <= i + COOC_WINDOW + 1
          invariant |adj| == vocab && WellFormed(adj) && Counted(adj, words, i, j)
        {
          if words[j] < 0 || words[j] == words[i] {
            Skip(adj, words, i, j);
          } else {
            Bump(adj, words, i, j);
            adj := Bumped(adj, words[i], words[j]);
            adj := Bumped(adj, words[j], words[i]);
          }
          j := j + 1;
        }
      }
      NextPosition(adj, words, i, j);
    }
    CountsAreSymmetric(adj, words);
    WeightsNonNegative(adj);
    forall a: nat, b: nat | a < vocab && b < vocab ensures PairCount(words, |words|, a, b) == |Occurrences(words, |words|, a, b)| {
      PairsAreCounted(words, |words|, a, b);
    }
  }

  lemma CountsAreSymmetric(adj: Graph, words: seq<int>)
    requires Counted(adj, words, |words|, 0)
    ensures Undirected(adj) && NoSelfLoops(adj)
    ensures forall a: nat, b: nat :: a < |adj| && b < |adj| ==> Weight(adj, a, b) >= 0.0
  {
    forall a: nat, b: nat | a < |adj| && b < |adj| ensures Weight(adj, a, b) == Weight(adj, b, a) && (a == b ==> Weight(adj, a, b) == 0.0) {
      PairCountSymmetric(words, |words|, a, b);
    }
  }

  lemma WeightsNonNegative(adj: Graph)
    requires WellFormed(adj) && forall a: nat, b: nat :: a < |adj| && b < |adj| ==> Weight(adj, a, b) >= 0.0
    ensures NonNegative(adj)
  {
    forall a: nat, b: nat | a < |adj| && b in adj[a] ensures adj[a][b] >= 0.0 {
      assert adj[a][b] == Weight(adj, a, b);
    }
  }

  function NoEdges(n: nat): (r: Graph)
    ensures |r| == n && WellFormed(r) && forall a: nat, b: nat :: a < n ==> Weight(r, a, b) == 0.0
  {
    seq(n, _ => map[])
  }

  lemma NothingCounted(adj: Graph, words: seq<int>)
    requires forall a: nat, b: nat :: a < |adj| ==> Weight(adj, a, b) == 0.0
    ensures Counted(adj, words, 0, 0)
  {
  }

  lemma StartRow(adj: Graph, words: seq<int>, p: nat)
    requires p < |words| && Counted(adj, words, p, 0)
    ensures Counted(adj, words, p, p + 1)
  {
  }

  // ------------------------------------------------------------------ similarity

  /** A logarithm is positive above one. */
  ghost predicate LogLike(log: nat -> real) {
    forall n: nat :: n >= 2 ==> log(n) > 0.0
  }

  /** |overlap| / (log(|a|+1) + log(|b|+1)), or no edge. */
  function Similarity(a: set<string>, b: set<string>, log: nat -> real): real
    requires LogLike(log)
  {
    if a == {} || b == {} || a * b == {} then 0.0
    else
      assert |a| > 0 && |b| > 0;
      |a * b| as real / (log(|a| + 1) + log(|b| + 1))
  }

  lemma SimilaritySymmetric(a: set<string>, b: set<string>, log: nat -> real)
    requires LogLike(log)
    ensures Similarity(a, b, log) == Similarity(b, a, log) >= 0.0
    ensures Similarity(a, b, log) > 0.0 <==> a * b != {}
  {
    assert a * b == b * a;
    if a * b != {} {
      assert |a| > 0 && |b| > 0 && |a * b| > 0;
      PositiveQuotient(|a * b| as real, log(|a| + 1) + log(|b| + 1));
    }
  }

  lemma PositiveQuotient(a: real, b: real)
    requires a > 0.0 && b > 0.0
    ensures a / b > 0.0
  {
  }

  lemma OneMoreShared(done: set<string>, large: set<string>, w: string)
    requires w !in done
    ensures |(done + {w}) * large| == |done * large| + if w in large then 1 else 0
  {
    if w in large {
      assert (done + {w}) * large == done * large + {w};
    } else {
      assert (done + {w}) * large == done * large;
    }
  }

  /** Counts the shared words by walking the smaller set. */
  method Overlap(a: set<string>, b: set<string>) returns (overlap: nat)
    ensures overlap == |a * b|
  {
    var small, large := a, b;
    if |small| > |large| {
      small, large := large, small;
    }
    assert small * large == a * b;
    overlap := 0;
    var done, left := {}, small;
    while true
      invariant done + left == small && done !! left && overlap == |done * large|
      decreases left
    {
      if w :| w in left {
        OneMoreShared(done, large, w);
        if w in large {
          overlap := overlap + 1;
        }
        done, left := done + {w}, left - {w};
      } else {
        break;
      }
    }
    assert done == small;
  }

  /** Rows below i are complete in both directions, and row i up to column j. */
  ghost predicate Linked(adj: Graph, sets: seq<set<string>>, log: nat -> real, i: nat, j: nat)
    requires |adj| == |sets| && LogLike(log)
  {
    forall a: nat, b: nat :: a < |sets| && b < |sets| ==>
      Weight(adj, a, b) == if a != b && (Reached(a, b, i, j) || Reached(b, a, i, j)) then Similarity(sets[a], sets[b], log) else 0.0
  }

  predicate Reached(a: nat, b: nat, i: nat, j: nat) {
    a < b && (a < i || (a == i && b < j))
  }

  /** adj[i][j] = w; adj[j][i] = w */
  function Joined(adj: Graph, i: nat, j: nat, w: real): (r: Graph)
    requires i < j < |adj| && WellFormed(adj)
    ensures |r| == |adj| && WellFormed(r)
    ensures forall x: nat, y: nat :: x < |adj| ==>
              Weight(r, x, y) == if (x == i && y == j) || (x == j && y == i) then w else Weight(adj, x, y)
  {
    var there: map<nat, real> := adj[i][j := w];
    var back: map<nat, real> := adj[j][i := w];
    adj[i := there][j := back]
  }

  lemma JoinedLinks(adj: Graph, sets: seq<set<string>>, log: nat -> real, i: nat, j: nat)
    requires |adj| == |sets| && LogLike(log) && i < j < |adj| && WellFormed(adj) && Linked(adj, sets, log, i, j)
    ensures Linked(Joined(adj, i, j, Similarity(sets[i], sets[j], log)), sets, log, i, j + 1)
  {
    hide Similarity, Joined;
    SimilaritySymmetric(sets[i], sets[j], log);
  }

  lemma UnjoinedLinks(adj: Graph, sets: seq<set<string>>, log: nat -> real, i: nat, j: nat)
    requires |adj| == |sets| && LogLike(log) && i < j < |adj| && Linked(adj, sets, log, i, j)
    requires Similarity(sets[i], sets[j], log) == 0.0
    ensures Linked(adj, sets, log, i, j + 1)
  {
    hide Similarity;
    SimilaritySymmetric(sets[i], sets[j], log);
  }

  lemma RowLinked(adj: Graph, sets: seq<set<string>>, log: nat -> real, i: nat)
    requires |adj| == |sets| && LogLike(log) && i < |adj| && Linked(adj, sets, log, i, |sets|)
    ensures i + 1 < |sets| ==> Linked(adj, sets, log, i + 1, i + 2)
    ensures i + 1 == |sets| ==> Linked(adj, sets, log, i + 1, 0)
  {
    hide Similarity;
  }

  lemma RowEmpty(adj: Graph, sets: seq<set<string>>, log: nat -> real, i: nat)
    requires |adj| == |sets| && LogLike(log) && i < |adj| && Linked(adj, sets, log, i, i + 1) && sets[i] == {}
    ensures Linked(adj, sets, log, i, |sets|)
  {
  }

  lemma NothingLinked(adj: Graph, sets: seq<set<string>>, log: nat -> real)
    requires |adj| == |sets| && LogLike(log) && forall a: nat, b: nat :: a < |adj| ==> Weight(adj, a, b) == 0.0
    ensures Linked(adj, sets, log, 0, 1) && (sets == [] ==> Linked(adj, sets, log, 0, 0))
  {
  }

  /** The overlap of two sentences, normalised by the logarithms of their lengths. */
  lemma SimilarityIs(a: set<string>, b: set<string>, log: nat -> real)
    requires LogLike(log)
    ensures |a * b| == 0 ==> Similarity(a, b, log) == 0.0
    ensures |a * b| > 0 ==>
              log(|a| + 1) + log(|b| + 1) > 0.0
              && Similarity(a, b, log) == |a * b| as real / (log(|a| + 1) + log(|b| + 1))
  {
    if a * b != {} {
      assert a != {} && b != {} && |a| > 0 && |b| > 0;
    }
  }

  lemma AllLinked(adj: Graph, sets: seq<set<string>>, log: nat -> real)
    requires |adj| == |sets| && LogLike(log) && Linked(adj, sets, log, |sets|, 0)
    ensures forall a: nat, b: nat :: a < |sets| && b < |sets| ==>
              Weight(adj, a, b) == if a == b then 0.0 else Similarity(sets[a], sets[b], log)
    ensures Undirected(adj) && NoSelfLoops(adj)
    ensures forall a: nat, b: nat :: a < |adj| && b < |adj| ==> Weight(adj, a, b) >= 0.0
  {
    hide Similarity, Weight;
    forall a: nat, b: nat | a < |sets| && b < |sets|
      ensures Similarity(sets[a], sets[b], log) == Similarity(sets[b], sets[a], log) >= 0.0
    {
      SimilaritySymmetric(sets[a], sets[b], log);
    }
  }

  /** Every two different sentences are joined by their similarity, in both directions. */
  method SimilarityGraph(sets: seq<set<string>>, log: nat -> real) returns (adj: Graph)
    requires LogLike(log)
    ensures |adj| == |sets| && WellFormed(adj) && NonNegative(adj)
    ensures forall a: nat, b: nat :: a < |sets| && b < |sets| ==>
              Weight(adj, a, b) == if a == b then 0.0 else Similarity(sets[a], sets[b], log)
    ensures Undirected(adj) && NoSelfLoops(adj)
  {
    hide Similarity, Joined, Linked, WellFormed, Weight;
    var n := |sets|;
    adj := NoEdges(n);
    NothingLinked(adj, sets, log);
    for i := 0 to n
      invariant |adj| == n && WellFormed(adj)
      invariant if i < n then Linked(adj, sets, log, i, i + 1) else Linked(adj, sets, log, n, 0)
    {
      if sets[i] == {} {
        RowEmpty(adj, sets, log, i);
      } else {
        for j := i + 1 to n
          invariant |adj| == n && WellFormed(adj) && Linked(adj, sets, log, i, j)
        {
          SimilarityIs(sets[i], sets[j], log);
          var overlap := 0;
          if sets[j] != {} {
            overlap := Overlap(sets[i], sets[j]);
          }
          if overlap == 0 {
            UnjoinedLinks(adj, sets, log, i, j);
          } else {
            JoinedLinks(adj, sets, log, i, j);
            adj := Joined(adj, i, j, overlap as real / (log(|sets[i]| + 1) + log(|sets[j]| + 1)));
          }
        }
      }
      RowLinked(adj, sets, log, i);
    }
    AllLinked(adj, sets, log);
    WeightsNonNegative(adj);
  }
}
