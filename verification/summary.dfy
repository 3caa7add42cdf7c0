/** The extractive summary (internal/handlers/articleanalysis/analyzer.go): rank the
    sentences, keep the best, present them in reading order. */
module Summary {
  import opened Common
  import opened TextRank
  import opened Graphs

  const DEFAULT_LENGTH := 3
  const MAX_GRAPH_SENTENCES := 600
  const MAX_REQUESTED := 10

  // ------------------------------------------------------------------ sorting

  type Less = (nat, nat) -> bool

  ghost predicate TotalOrder(less: Less) {
    && (forall a: nat, b: nat :: a != b ==> less(a, b) || less(b, a))
    && (forall a: nat, b: nat :: less(a, b) ==> !less(b, a))
    && (forall a: nat, b: nat, c: nat :: less(a, b) && less(b, c) ==> less(a, c))
  }

  ghost predicate Sorted(s: seq<nat>, less: Less) {
    forall i, j :: 0 <= i < j < |s| ==> less(s[i], s[j])
  }

  function Insert(x: nat, s: seq<nat>, less: Less): seq<nat> {
    if s == [] || less(x, s[0]) then [x] + s else [s[0]] + Insert(x, s[1..], less)
  }

  function SortBy(s: seq<nat>, less: Less): seq<nat> {
    if s == [] then [] else Insert(s[0], SortBy(s[1..], less), less)
  }

  lemma {:induction false} InsertSorts(x: nat, s: seq<nat>, less: Less)
    requires TotalOrder(less) && Sorted(s, less) && x !in s
    ensures Sorted(Insert(x, s, less), less) && multiset(Insert(x, s, less)) == multiset(s) + multiset{x}
  {
    if s != [] && !less(x, s[0]) {
      var rest := Insert(x, s[1..], less);
      InsertSorts(x, s[1..], less);
      assert s == [s[0]] + s[1..];
      SmallestFirst(x, s, rest, less);
    }
  }

  lemma SmallestFirst(x: nat, s: seq<nat>, rest: seq<nat>, less: Less)
    requires TotalOrder(less) && s != [] && Sorted(s, less) && Sorted(rest, less) && x !in s && !less(x, s[0])
    requires multiset(rest) == multiset(s[1..]) + multiset{x}
    ensures Sorted([s[0]] + rest, less)
  {
    forall y | y in rest ensures less(s[0], y) {
      assert y in multiset(rest);
      assert y == x || y in s[1..];
    }
  }

  ghost predicate NoRepeats(s: seq<nat>) {
    forall i, j :: 0 <= i < j < |s| ==> s[i] != s[j]
  }

  lemma {:induction false} SortSorts(s: seq<nat>, less: Less)
    requires TotalOrder(less) && NoRepeats(s)
    ensures Sorted(SortBy(s, less), less) && multiset(SortBy(s, less)) == multiset(s)
  {
    if s != [] {
      var rest := SortBy(s[1..], less);
      SortSorts(s[1..], less);
      assert s == [s[0]] + s[1..];
      assert s[0] !in s[1..];
      assert forall y :: y in rest <==> y in multiset(rest);
      InsertSorts(s[0], rest, less);
    }
  }

  lemma SameElements(a: seq<nat>, b: seq<nat>)
    requires multiset(a) == multiset(b)
    ensures |a| == |b| && forall x :: x in a <==> x in b
  {
    assert |a| == |multiset(a)| && |b| == |multiset(b)|;
    assert forall x :: x in a <==> x in multiset(a);
    assert forall x :: x in b <==> x in multiset(b);
  }

  // ------------------------------------------------------------------ the selection

  function Score(scores: seq<real>, i: nat): real {
    if i < |scores| then scores[i] else 0.0
  }

  /** By score descending, then by position ascending. */
  predicate Better(scores: seq<real>, a: nat, b: nat) {
    Score(scores, a) > Score(scores, b) || (Score(scores, a) == Score(scores, b) && a < b)
  }

  function Positions(n: nat): (s: seq<nat>)
    ensures |s| == n && forall i :: 0 <= i < n ==> s[i] == i
  {
    seq(n, i => i)
  }

  function ByScore(scores: seq<real>): Less {
    (a: nat, b: nat) => Better(scores, a, b)
  }

  function Earlier(): Less {
    (a: nat, b: nat) => a < b
  }

  /** The two sorts and the cut between them. */
  function Picked(scores: seq<real>, n: nat, k: nat): seq<nat>
    requires k <= |SortBy(Positions(n), ByScore(scores))|
  {
    SortBy(SortBy(Positions(n), ByScore(scores))[..k], Earlier())
  }

  /** A selection of k of the first n sentences, in reading order, none of which is beaten by
      a sentence left out. */
  ghost predicate TopInOrder(picked: seq<nat>, scores: seq<real>, n: nat, k: nat)
    requires n <= |scores|
  {
    && |picked| == k && (forall i :: 0 <= i < k ==> picked[i] < n)
    && (forall i, j :: 0 <= i < j < k ==> picked[i] < picked[j])
    && (forall p, q: nat :: p in picked && q < n && q !in picked ==>
          scores[p] > scores[q] || (scores[p] == scores[q] && p < q))
  }

  lemma SortedHasNoRepeats(s: seq<nat>, less: Less)
    requires TotalOrder(less) && Sorted(s, less)
    ensures NoRepeats(s)
  {
  }

  lemma BetterIsTotal(scores: seq<real>)
    ensures TotalOrder(ByScore(scores))
  {
  }

  lemma PickedIsTop(scores: seq<real>, n: nat, k: nat)
    requires k <= n <= |scores|
    ensures |SortBy(Positions(n), ByScore(scores))| == n
    ensures TopInOrder(Picked(scores, n, k), scores, n, k)
  {
    hide SortBy, Better, Score;
    var better := ByScore(scores);
    var earlier := Earlier();
    var order := SortBy(Positions(n), better);
    BetterIsTotal(scores);
    SortSorts(Positions(n), better);
    SameElements(order, Positions(n));
    SortedHasNoRepeats(order, better);
    SortSorts(order[..k], earlier);
    var picked := SortBy(order[..k], earlier);
    SameElements(picked, order[..k]);
    forall i | 0 <= i < k ensures picked[i] < n {
      assert picked[i] in order[..k];
      assert picked[i] in order;
      assert picked[i] in Positions(n);
    }
    forall m | 0 <= m < k ensures order[m] in picked {
      assert order[..k][m] in order[..k];
    }
    forall p, q: nat | p in picked && q < n && q !in picked ensures scores[p] > scores[q] || (scores[p] == scores[q] && p < q) {
      assert p in order[..k];
      assert Positions(n)[q] in order;
      var i :| 0 <= i < k && order[i] == p;
      var j :| 0 <= j < n && order[j] == q;
      assert better(order[i], order[j]);
      BetterMeans(scores, p, q);
    }
  }

  lemma BetterMeans(scores: seq<real>, p: nat, q: nat)
    requires p < |scores| && q < |scores|
    ensures Better(scores, p, q) <==> scores[p] > scores[q] || (scores[p] == scores[q] && p < q)
  {
  }

  /** There is only one such selection. */
  lemma TopIsUnique(a: seq<nat>, b: seq<nat>, scores: seq<real>, n: nat, k: nat)
    requires n <= |scores| && TopInOrder(a, scores, n, k) && TopInOrder(b, scores, n, k)
    ensures a == b
  {
    var xs, ys := Members(a), Members(b);
    AscendingSize(a);
    AscendingSize(b);
    if xs != ys {
      if p :| p in xs && p !in ys {
        var q := OtherSide(xs, ys, p);
        assert false;
      } else {
        assert xs <= ys;
        SubsetOfSameSize(xs, ys);
        assert false;
      }
    }
    SameAscending(a, b);
  }

  function Members(s: seq<nat>): set<nat> {
    set p | p in s
  }

  lemma SubsetOfSameSize(xs: set<nat>, ys: set<nat>)
    requires xs <= ys && |xs| == |ys|
    ensures xs == ys
  {
    assert |ys - xs| == |ys| - |xs|;
    assert ys - xs == {};
  }

  lemma OtherSide(xs: set<nat>, ys: set<nat>, p: nat) returns (q: nat)
    requires |xs| == |ys| && p in xs && p !in ys
    ensures q in ys && q !in xs
  {
    if forall r :: r in ys ==> r in xs {
      SubsetOfSameSize(ys, xs);
      assert false;
    }
    q :| q in ys && q !in xs;
  }

  lemma MembersOfSnoc(s: seq<nat>)
    requires s != [] && forall i, j :: 0 <= i < j < |s| ==> s[i] < s[j]
    ensures var init, last := s[..|s| - 1], s[|s| - 1];
            && Members(s) == Members(init) + {last} && last !in Members(init)
            && forall p :: p in Members(s) ==> p <= last
  {
    assert s == s[..|s| - 1] + [s[|s| - 1]];
  }

  lemma {:induction false} AscendingSize(s: seq<nat>)
    requires forall i, j :: 0 <= i < j < |s| ==> s[i] < s[j]
    ensures |Members(s)| == |s|
  {
    if s != [] {
      AscendingSize(s[..|s| - 1]);
      MembersOfSnoc(s);
    }
  }

  lemma {:induction false} SameAscending(a: seq<nat>, b: seq<nat>)
    requires |a| == |b| && Members(a) == Members(b)
    requires forall i, j :: 0 <= i < j < |a| ==> a[i] < a[j]
    requires forall i, j :: 0 <= i < j < |b| ==> b[i] < b[j]
    ensures a == b
  {
    if a != [] {
      var n := |a| - 1;
      MembersOfSnoc(a);
      MembersOfSnoc(b);
      assert a[n] in Members(b) && b[n] in Members(a);
      assert a == a[..n] + [a[n]] && b == b[..n] + [b[n]];
      assert Members(a[..n]) == Members(a) - {a[n]} && Members(b[..n]) == Members(b) - {b[n]};
      SameAscending(a[..n], b[..n]);
    }
  }

  // ------------------------------------------------------------------ the summary

  function Length(requested: int): int {
    if requested <= 0 then DEFAULT_LENGTH else requested
  }

  /** The slice of the ranking that the code takes runs past its end. */
  predicate SlicesOut(requested: int, count: nat) {
    MAX_GRAPH_SENTENCES < Length(requested) < count
  }

  /** What the job handler makes of a requested length before it analyzes. */
  function Clamped(requested: int): int {
    if requested <= 0 then DEFAULT_LENGTH else if requested > MAX_REQUESTED then MAX_REQUESTED else requested
  }

  /** The handler's clamp keeps every request clear of the bad slice; called directly, the
      analysis meets it exactly for lengths above the graph cap on texts longer still. */
  lemma ClampedNeverSlicesOut(requested: int, count: nat)
    ensures !SlicesOut(Clamped(requested), count) && 1 <= Length(Clamped(requested)) <= MAX_REQUESTED
    ensures SlicesOut(MAX_GRAPH_SENTENCES + 1, MAX_GRAPH_SENTENCES + 2)
  {
  }

  /** The similarity weights of the first n sentences. */
  ghost predicate SimilarityWeights(adj: Graph, sentences: seq<string>, n: nat, words: string -> set<string>, log: nat -> real)
    requires n <= |sentences| && LogLike(log)
  {
    && |adj| == n && NonNegative(adj)
    && forall a: nat, b: nat :: a < n && b < n ==>
         Weight(adj, a, b) == if a == b then 0.0 else Similarity(words(sentences[a]), words(sentences[b]), log)
  }

  /** The summary. A short text is its own summary. Otherwise exactly the top k of the first
      600 sentences come out, in reading order. None is the slice out of range. */
  method SummaryTextRank(sentences: seq<string>, requested: int, words: string -> set<string>, log: nat -> real)
    returns (out: Option<seq<string>>, ghost adj: Graph, ghost picked: seq<nat>)
    requires LogLike(log)
    ensures out.None? <==> 600 < requested < |sentences|
    ensures var k := if requested <= 0 then 3 else requested;
            && (|sentences| <= k ==> out == Some(sentences))
            && (out.Some? ==> |out.value| == Min(k, |sentences|))
    ensures var k := if requested <= 0 then 3 else requested;
            out.Some? && k < |sentences| ==>
              var n := Min(600, |sentences|);
              && SimilarityWeights(adj, sentences, n, words, log)
              && TopInOrder(picked, Ranks(adj, 30), n, k)
              && forall i :: 0 <= i < |picked| ==> out.value[i] == sentences[picked[i]]
  {
    hide Ranks, TopInOrder, Similarity, SortBy, Picked, Better;
    var summaryLen := Length(requested);
    adj, picked := [], [];
    var n := |sentences|;
    if n == 0 {
      return Some([]), adj, picked;
    }
    if n <= summaryLen {
      return Some(sentences), adj, picked;
    }
    if n > MAX_GRAPH_SENTENCES {
      n := MAX_GRAPH_SENTENCES;
    }
    var sets: seq<set<string>> := [];
    for i := 0 to n
      invariant |sets| == i && forall j :: 0 <= j < i ==> sets[j] == words(sentences[j])
    {
      sets := sets + [words(sentences[i])];
    }
    var graph := SimilarityGraph(sets, log);
    var rank := PageRank(graph, ITERATIONS);
    adj := graph;
    if summaryLen > n {
      return None, adj, picked;
    }
    PickedIsTop(rank, n, summaryLen);
    var chosen := Picked(rank, n, summaryLen);
    assert |chosen| == summaryLen && forall i :: 0 <= i < |chosen| ==> chosen[i] < n by { TopIsInside(chosen, rank, n, summaryLen); }
    var summary: seq<string> := [];
    for i := 0 to |chosen|
      invariant |summary| == i && forall j :: 0 <= j < i ==> summary[j] == sentences[chosen[j]]
    {
      summary := summary + [sentences[chosen[i]]];
    }
    return Some(summary), adj, chosen;
  }

  /** The summary a job gets: its request clamped, there always is one. */
  method Summarize(sentences: seq<string>, requested: int, words: string -> set<string>, log: nat -> real)
    returns (summary: seq<string>, ghost adj: Graph, ghost picked: seq<nat>)
    requires LogLike(log)
    ensures var k := if requested <= 0 then 3 else Min(requested, 10);
            && |summary| == Min(k, |sentences|) && (|sentences| <= k ==> summary == sentences)
    ensures var k := if requested <= 0 then 3 else Min(requested, 10);
            k < |sentences| ==>
              var n := Min(600, |sentences|);
              && SimilarityWeights(adj, sentences, n, words, log)
              && TopInOrder(picked, Ranks(adj, 30), n, k)
              && forall i :: 0 <= i < |picked| ==> summary[i] == sentences[picked[i]]
  {
    hide Ranks, TopInOrder, SimilarityWeights;
    ClampedNeverSlicesOut(requested, |sentences|);
    var out;
    out, adj, picked := SummaryTextRank(sentences, Clamped(requested), words, log);
    summary := out.value;
  }

  lemma TopIsInside(picked: seq<nat>, scores: seq<real>, n: nat, k: nat)
    requires n <= |scores| && TopInOrder(picked, scores, n, k)
    ensures |picked| == k && forall i :: 0 <= i < |picked| ==> picked[i] < n
  {
  }
}
