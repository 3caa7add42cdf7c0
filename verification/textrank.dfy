/** PageRank over a weighted graph (internal/handlers/articleanalysis/analyzer.go), over
    reals: what the array loops compute, and the conservation law of the mass they move. */
module TextRank {

  /** Adjacency: for every node, its neighbours and the weights of the edges. */
  type Graph = seq<map<nat, real>>

  const DAMPING := 0.85
  const ITERATIONS := 30

  predicate WellFormed(adj: Graph) {
    forall j :: 0 <= j < |adj| ==> forall i :: i in adj[j] ==> i < |adj|
  }

  predicate NonNegative(adj: Graph) {
    forall j :: 0 <= j < |adj| ==> forall i :: i in adj[j] ==> adj[j][i] >= 0.0
  }

  function Weight(adj: Graph, j: nat, i: nat): real
    requires j < |adj|
  {
    if i in adj[j] then adj[j][i] else 0.0
  }

  /** What node j sends to its neighbours below k, counting only those in `some`. */
  function OutOver(adj: Graph, j: nat, some: set<nat>, k: nat): real
    requires j < |adj|
  {
    if k == 0 then 0.0
    else OutOver(adj, j, some, k - 1) + if k - 1 in some then Weight(adj, j, k - 1) else 0.0
  }

  function Out(adj: Graph, j: nat, k: nat): real
    requires j < |adj|
  {
    if k == 0 then 0.0 else Out(adj, j, k - 1) + Weight(adj, j, k - 1)
  }

  function OutSum(adj: Graph, j: nat): real
    requires j < |adj|
  {
    Out(adj, j, |adj|)
  }

  predicate Isolated(adj: Graph, j: nat)
    requires j < |adj|
  {
    OutSum(adj, j) == 0.0
  }

  function Share(adj: Graph, rank: seq<real>, j: nat): real
    requires j < |adj| == |rank|
  {
    if Isolated(adj, j) then 0.0 else DAMPING * rank[j] / OutSum(adj, j)
  }

  /** What node j passes to node i in one iteration. */
  function Flow(adj: Graph, rank: seq<real>, j: nat, i: nat): real
    requires j < |adj| == |rank|
  {
    Share(adj, rank, j) * Weight(adj, j, i)
  }

  /** What node i receives from the first k nodes. */
  function Inflow(adj: Graph, rank: seq<real>, i: nat, k: nat): real
    requires k <= |adj| == |rank|
  {
    if k == 0 then 0.0 else Inflow(adj, rank, i, k - 1) + Flow(adj, rank, k - 1, i)
  }

  function Base(n: nat): real
    requires n > 0
  {
    (1.0 - DAMPING) / n as real
  }

  function Next(adj: Graph, rank: seq<real>): (r: seq<real>)
    requires |adj| == |rank|
    ensures |r| == |adj|
  {
    seq(|adj|, i requires 0 <= i < |adj| => Base(|adj|) + Inflow(adj, rank, i, |adj|))
  }

  /** The ranks after t iterations from the uniform start. */
  function Ranks(adj: Graph, t: nat): (r: seq<real>)
    ensures |r| == |adj|
  {
    if t == 0 then seq(|adj|, i requires 0 <= i < |adj| => 1.0 / |adj| as real) else Next(adj, Ranks(adj, t - 1))
  }

  // ------------------------------------------------------------------ the array loops

  lemma {:induction false} OneMoreNeighbour(adj: Graph, j: nat, some: set<nat>, i: nat, k: nat)
    requires j < |adj| && i !in some
    ensures OutOver(adj, j, some + {i}, k) == OutOver(adj, j, some, k) + if i < k then Weight(adj, j, i) else 0.0
  {
    if k > 0 {
      OneMoreNeighbour(adj, j, some, i, k - 1);
    }
  }

  lemma {:induction false} AllNeighbours(adj: Graph, j: nat, k: nat)
    requires j < |adj|
    ensures OutOver(adj, j, adj[j].Keys, k) == Out(adj, j, k)
    ensures OutOver(adj, j, {}, k) == 0.0
  {
    if k > 0 {
      AllNeighbours(adj, j, k - 1);
    }
  }

  /** The sum over a map's values, in whatever order the map yields them. */
  method SumWeights(adj: Graph, j: nat) returns (sum: real)
    requires j < |adj| && WellFormed(adj)
    ensures sum == OutSum(adj, j)
  {
    sum := 0.0;
    var done: set<nat>, left := {}, adj[j].Keys;
    AllNeighbours(adj, j, |adj|);
    while true
      invariant done + left == adj[j].Keys && done !! left
      invariant sum == OutOver(adj, j, done, |adj|)
      decreases left
    {
      if i :| i in left {
        OneMoreNeighbour(adj, j, done, i, |adj|);
        sum := sum + adj[j][i];
        done, left := done + {i}, left - {i};
      } else {
        break;
      }
    }
    assert done == adj[j].Keys;
  }

  /** Node j passes its share to every neighbour, in whatever order. */
  method Spread(adj: Graph, ghost rank: seq<real>, j: nat, share: real, next: array<real>)
    requires j < |adj| == |rank| == next.Length && WellFormed(adj) && share == Share(adj, rank, j)
    modifies next
    ensures forall i :: 0 <= i < next.Length ==> next[i] == old(next[i]) + Flow(adj, rank, j, i)
  {
    hide Share;
    var done: set<nat>, left := {}, adj[j].Keys;
    while true
      invariant done + left == adj[j].Keys && done !! left
      invariant forall i :: 0 <= i < next.Length ==>
                  next[i] == if i in done then old(next[i]) + Flow(adj, rank, j, i) else old(next[i])
      decreases left
    {
      if i :| i in left {
        next[i] := next[i] + share * adj[j][i];
        done, left := done + {i}, left - {i};
      } else {
        break;
      }
    }
    assert done == adj[j].Keys;
  }

  lemma NothingFromIsolated(adj: Graph, rank: seq<real>, j: nat, i: nat)
    requires j < |adj| == |rank| && Isolated(adj, j)
    ensures Flow(adj, rank, j, i) == 0.0
  {
  }

  /** One iteration from `rank` into `next`. */
  method Sweep(adj: Graph, outSum: array<real>, rank: array<real>, next: array<real>)
    requires 0 < |adj| == outSum.Length == rank.Length == next.Length && WellFormed(adj)
    requires rank != next && outSum != next
    requires forall j :: 0 <= j < |adj| ==> outSum[j] == OutSum(adj, j)
    modifies next
    ensures next[..] == Next(adj, rank[..])
  {
    hide Flow, Share, OutSum, Base;
    var n := |adj|;
    ghost var ranks := rank[..];
    for i := 0 to n
      invariant forall k :: 0 <= k < i ==> next[k] == Base(n)
    {
      next[i] := BaseValue(n);
    }
    for j := 0 to n
      invariant rank[..] == ranks
      invariant forall i :: 0 <= i < n ==> next[i] == Base(n) + Inflow(adj, ranks, i, j)
    {
      if outSum[j] == 0.0 {
        forall i | 0 <= i < n ensures Flow(adj, ranks, j, i) == 0.0 {
          NothingFromIsolated(adj, ranks, j, i);
        }
      } else {
        ShareIs(adj, ranks, j);
        Spread(adj, ranks, j, DAMPING * rank[j] / outSum[j], next);
      }
    }
  }

  method BaseValue(n: nat) returns (b: real)
    requires n > 0
    ensures b == Base(n)
  {
    b := (1.0 - DAMPING) / n as real;
  }

  lemma ShareIs(adj: Graph, rank: seq<real>, j: nat)
    requires j < |adj| == |rank| && OutSum(adj, j) != 0.0
    ensures Share(adj, rank, j) == DAMPING * rank[j] / OutSum(adj, j)
  {
  }

  /** The power iteration over two swapped arrays computes exactly `iters` iterations. */
  method PageRank(adj: Graph, iters: nat) returns (ranks: seq<real>)
    requires WellFormed(adj)
    ensures ranks == Ranks(adj, iters)
    ensures iters == 0 ==> |ranks| == |adj| && forall i :: 0 <= i < |adj| ==> ranks[i] == 1.0 / |adj| as real
    ensures iters > 0 ==>
              && |ranks| == |adj|
              && forall i :: 0 <= i < |adj| ==>
                   ranks[i] == 0.15 / |adj| as real + Total(Flows(adj, Ranks(adj, iters - 1), i))
  {
    hide OutSum, Next;
    var n := |adj|;
    if n == 0 {
      NoRanks(adj, iters);
      return [];
    }
    var rank := new real[n];
    var outSum := new real[n];
    for i := 0 to n
      invariant forall k :: 0 <= k < i ==> rank[k] == 1.0 / n as real && outSum[k] == OutSum(adj, k)
    {
      rank[i] := 1.0 / n as real;
      outSum[i] := SumWeights(adj, i);
    }
    var next := new real[n];
    assert rank[..] == Ranks(adj, 0);
    for it := 0 to iters
      invariant rank.Length == next.Length == n && rank != next && outSum != next && outSum != rank
      invariant fresh(rank) && fresh(next)
      invariant forall k :: 0 <= k < n ==> outSum[k] == OutSum(adj, k)
      invariant rank[..] == Ranks(adj, it)
    {
      Sweep(adj, outSum, rank, next);
      rank, next := next, rank;
    }
    if iters > 0 {
      RankEquation(adj, iters);
    }
    return rank[..];
  }

  /** The equation of one iteration: the base share, and what every node passes on. */
  lemma RankEquation(adj: Graph, t: nat)
    requires t > 0 && |adj| > 0
    ensures forall i :: 0 <= i < |adj| ==>
              Ranks(adj, t)[i] == 0.15 / |adj| as real + Total(Flows(adj, Ranks(adj, t - 1), i))
  {
    var rank := Ranks(adj, t - 1);
    forall i | 0 <= i < |adj| ensures Inflow(adj, rank, i, |adj|) == Total(Flows(adj, rank, i)) {
      InflowIsSum(adj, rank, i, |adj|);
    }
  }

  /** What node i receives, sender by sender. */
  function Flows(adj: Graph, rank: seq<real>, i: nat): seq<real>
    requires |adj| == |rank|
  {
    seq(|adj|, j requires 0 <= j < |adj| => Flow(adj, rank, j, i))
  }

  lemma {:induction false} InflowIsSum(adj: Graph, rank: seq<real>, i: nat, k: nat)
    requires k <= |adj| == |rank|
    ensures Inflow(adj, rank, i, k) == Sum(Flows(adj, rank, i), k)
  {
    hide Flow;
    if k > 0 {
      InflowIsSum(adj, rank, i, k - 1);
    }
  }

  lemma NoRanks(adj: Graph, t: nat)
    requires adj == []
    ensures Ranks(adj, t) == []
  {
  }

  // ------------------------------------------------------------------ the mass law

  function Sum(a: seq<real>, k: nat): real
    requires k <= |a|
  {
    if k == 0 then 0.0 else Sum(a, k - 1) + a[k - 1]
  }

  function Total(a: seq<real>): real {
    Sum(a, |a|)
  }

  /** The mass on the first k nodes that have out-weight. */
  function Connected(adj: Graph, rank: seq<real>, k: nat): real
    requires k <= |adj| == |rank|
  {
    if k == 0 then 0.0
    else Connected(adj, rank, k - 1) + if Isolated(adj, k - 1) then 0.0 else rank[k - 1]
  }

  /** What the first k nodes pass to the first m nodes, by sender. */
  function Sent(adj: Graph, rank: seq<real>, k: nat, m: nat): real
    requires k <= |adj| == |rank|
  {
    if k == 0 then 0.0 else Sent(adj, rank, k - 1, m) + Share(adj, rank, k - 1) * Out(adj, k - 1, m)
  }

  /** ... and by receiver. */
  function Received(adj: Graph, rank: seq<real>, k: nat, m: nat): real
    requires k <= |adj| == |rank|
  {
    if m == 0 then 0.0 else Received(adj, rank, k, m - 1) + Inflow(adj, rank, m - 1, k)
  }

  lemma {:induction false} SentStep(adj: Graph, rank: seq<real>, k: nat, m: nat)
    requires k <= |adj| == |rank| && m > 0
    ensures Sent(adj, rank, k, m) == Sent(adj, rank, k, m - 1) + Inflow(adj, rank, m - 1, k)
  {
    hide Share, Weight;
    if k > 0 {
      SentStep(adj, rank, k - 1, m);
      Distribute(Share(adj, rank, k - 1), Out(adj, k - 1, m - 1), Weight(adj, k - 1, m - 1));
    }
  }

  lemma Distribute(a: real, b: real, c: real)
    ensures a * (b + c) == a * b + a * c
  {
  }

  lemma {:induction false} SentNothing(adj: Graph, rank: seq<real>, k: nat)
    requires k <= |adj| == |rank|
    ensures Sent(adj, rank, k, 0) == 0.0
  {
    hide Share;
    if k > 0 {
      SentNothing(adj, rank, k - 1);
    }
  }

  /** The double sum can be taken in either order. */
  lemma {:induction false} Exchange(adj: Graph, rank: seq<real>, k: nat, m: nat)
    requires k <= |adj| == |rank|
    ensures Sent(adj, rank, k, m) == Received(adj, rank, k, m)
  {
    if m == 0 {
      SentNothing(adj, rank, k);
    } else {
      Exchange(adj, rank, k, m - 1);
      SentStep(adj, rank, k, m);
    }
  }

  /** A node with out-weight passes on exactly the damped part of its rank. */
  lemma SharesAddUp(adj: Graph, rank: seq<real>, j: nat)
    requires j < |adj| == |rank|
    ensures Share(adj, rank, j) * OutSum(adj, j) == if Isolated(adj, j) then 0.0 else 0.85 * rank[j]
  {
    hide OutSum;
    if !Isolated(adj, j) {
      DivideMultiply(DAMPING * rank[j], OutSum(adj, j));
    }
  }

  /** Every neighbour gets its part of that in proportion to the weight of its edge, and nobody
      gets anything from an isolated node. */
  lemma SharedByWeight(adj: Graph, rank: seq<real>, j: nat, i: nat)
    requires j < |adj| == |rank|
    ensures if Isolated(adj, j) then Flow(adj, rank, j, i) == 0.0
            else Flow(adj, rank, j, i) * OutSum(adj, j) == 0.85 * rank[j] * Weight(adj, j, i)
  {
    hide OutSum, Weight;
    if !Isolated(adj, j) {
      SharesAddUp(adj, rank, j);
      Regroup(Share(adj, rank, j), Weight(adj, j, i), OutSum(adj, j));
    }
  }

  lemma Regroup(a: real, b: real, c: real)
    ensures a * b * c == a * c * b
  {
  }

  lemma DivideMultiply(a: real, b: real)
    requires b != 0.0
    ensures a / b * b == a
  {
  }

  lemma {:induction false} AllSent(adj: Graph, rank: seq<real>, k: nat)
    requires k <= |adj| == |rank|
    ensures Sent(adj, rank, k, |adj|) == DAMPING * Connected(adj, rank, k)
  {
    hide Share, Isolated;
    if k > 0 {
      AllSent(adj, rank, k - 1);
      SharesAddUp(adj, rank, k - 1);
    }
  }

  lemma {:induction false} SumOfNext(adj: Graph, rank: seq<real>, m: nat)
    requires m <= |adj| == |rank| && |adj| > 0
    ensures Sum(Next(adj, rank), m) == m as real * Base(|adj|) + Received(adj, rank, |adj|, m)
  {
    hide Base, Inflow;
    if m > 0 {
      SumOfNext(adj, rank, m - 1);
      OneMoreBase(m, Base(|adj|));
    }
  }

  lemma OneMoreBase(m: nat, b: real)
    requires m > 0
    ensures (m - 1) as real * b + b == m as real * b
  {
  }

  /** After each iteration the ranks sum to (1 - d) plus d times the previous mass on nodes
      with out-weight. */
  lemma MassLaw(adj: Graph, rank: seq<real>)
    requires |adj| == |rank| && |adj| > 0
    ensures Total(Next(adj, rank)) == 0.15 + 0.85 * Connected(adj, rank, |adj|)
  {
    hide Base, Next, Connected, Received, Sent;
    SumOfNext(adj, rank, |adj|);
    Exchange(adj, rank, |adj|, |adj|);
    AllSent(adj, rank, |adj|);
    BaseTotal(|adj|);
  }

  lemma BaseTotal(n: nat)
    requires n > 0
    ensures n as real * Base(n) == 1.0 - DAMPING
  {
    DivideMultiply(1.0 - DAMPING, n as real);
  }

  // ------------------------------------------------------------------ bounds

  predicate AllAtLeast(a: seq<real>, low: real) {
    forall i :: 0 <= i < |a| ==> a[i] >= low
  }

  lemma {:induction false} OutNonNegative(adj: Graph, j: nat, k: nat)
    requires j < |adj| && NonNegative(adj)
    ensures Out(adj, j, k) >= 0.0
  {
    if k > 0 {
      OutNonNegative(adj, j, k - 1);
    }
  }

  lemma FlowNonNegative(adj: Graph, rank: seq<real>, j: nat, i: nat)
    requires j < |adj| == |rank| && NonNegative(adj) && AllAtLeast(rank, 0.0)
    ensures Flow(adj, rank, j, i) >= 0.0
  {
    OutNonNegative(adj, j, |adj|);
    assert Weight(adj, j, i) >= 0.0;
    if !Isolated(adj, j) {
      QuotientNonNegative(DAMPING * rank[j], OutSum(adj, j));
    }
    ProductNonNegative(Share(adj, rank, j), Weight(adj, j, i));
  }

  lemma QuotientNonNegative(a: real, b: real)
    requires a >= 0.0 && b > 0.0
    ensures a / b >= 0.0
  {
  }

  lemma ProductNonNegative(a: real, b: real)
    requires a >= 0.0 && b >= 0.0
    ensures a * b >= 0.0
  {
  }

  lemma {:induction false} InflowNonNegative(adj: Graph, rank: seq<real>, i: nat, k: nat)
    requires k <= |adj| == |rank| && NonNegative(adj) && AllAtLeast(rank, 0.0)
    ensures Inflow(adj, rank, i, k) >= 0.0
  {
    hide Flow;
    if k > 0 {
      InflowNonNegative(adj, rank, i, k - 1);
      FlowNonNegative(adj, rank, k - 1, i);
    }
  }

  /** After at least one iteration every rank is at least (1 - d) / n, and it starts at 1 / n. */
  lemma {:induction false} RankFloor(adj: Graph, t: nat)
    requires NonNegative(adj) && |adj| > 0
    ensures AllAtLeast(Ranks(adj, t), 0.15 / |adj| as real) && 0.15 / |adj| as real == Base(|adj|) > 0.0
  {
    BasePositive(|adj|);
    if t > 0 {
      RankFloor(adj, t - 1);
      hide Base, Inflow;
      forall i | 0 <= i < |adj| ensures Ranks(adj, t)[i] >= Base(|adj|) {
        InflowNonNegative(adj, Ranks(adj, t - 1), i, |adj|);
      }
    }
  }

  lemma BasePositive(n: nat)
    requires n > 0
    ensures 0.0 < Base(n) <= 1.0 / n as real
  {
  }

  /** With non-negative weights a node is isolated exactly if it has no edge of weight. */
  lemma {:induction false} IsolatedExactly(adj: Graph, j: nat, k: nat)
    requires j < |adj| && NonNegative(adj)
    ensures Out(adj, j, k) == 0.0 <==> forall i :: 0 <= i < k ==> Weight(adj, j, i) == 0.0
  {
    if k > 0 {
      IsolatedExactly(adj, j, k - 1);
      OutNonNegative(adj, j, k - 1);
      assert Weight(adj, j, k - 1) >= 0.0;
    }
  }

  /** The mass on isolated nodes, which the next iteration loses. */
  lemma {:induction false} ConnectedIsPart(adj: Graph, rank: seq<real>, k: nat)
    requires k <= |adj| == |rank| && AllAtLeast(rank, 0.0)
    ensures 0.0 <= Connected(adj, rank, k) <= Sum(rank, k)
    ensures (forall j :: 0 <= j < k ==> !Isolated(adj, j)) ==> Connected(adj, rank, k) == Sum(rank, k)
    ensures forall j :: 0 <= j < k && Isolated(adj, j) ==> Connected(adj, rank, k) <= Sum(rank, k) - rank[j]
  {
    hide Isolated;
    if k > 0 {
      ConnectedIsPart(adj, rank, k - 1);
    }
  }

  lemma {:induction false} UniformSum(a: seq<real>, x: real, k: nat)
    requires k <= |a| && forall i :: 0 <= i < |a| ==> a[i] == x
    ensures Sum(a, k) == k as real * x
  {
    if k > 0 {
      UniformSum(a, x, k - 1);
      OneMoreBase(k, x);
    }
  }

  /** The ranks always sum to something in [1 - d, 1]. */
  lemma {:induction false} TotalBounds(adj: Graph, t: nat)
    requires NonNegative(adj) && |adj| > 0
    ensures 0.15 <= Total(Ranks(adj, t)) <= 1.0
    ensures t == 0 ==> Total(Ranks(adj, t)) == 1.0
  {
    if t == 0 {
      UniformSum(Ranks(adj, 0), 1.0 / |adj| as real, |adj|);
      DivideMultiply(1.0, |adj| as real);
    } else {
      TotalBounds(adj, t - 1);
      RankFloor(adj, t - 1);
      MassLaw(adj, Ranks(adj, t - 1));
      ConnectedIsPart(adj, Ranks(adj, t - 1), |adj|);
    }
  }

  /** From the first iteration on, mass is conserved exactly if no node is isolated. */
  lemma {:induction false} ConservedExactly(adj: Graph, t: nat)
    requires NonNegative(adj) && |adj| > 0 && t > 0
    ensures Total(Ranks(adj, t)) == 1.0 <==> forall j :: 0 <= j < |adj| ==> !Isolated(adj, j)
  {
    var before := Ranks(adj, t - 1);
    TotalBounds(adj, t - 1);
    RankFloor(adj, t - 1);
    MassLaw(adj, before);
    ConnectedIsPart(adj, before, |adj|);
    if (forall j :: 0 <= j < |adj| ==> !Isolated(adj, j)) && t > 1 {
      ConservedExactly(adj, t - 1);
    }
  }

  // ------------------------------------------------------------------ determinism

  ghost predicate SameWeights(adj: Graph, adj': Graph) {
    |adj| == |adj'| && forall j: nat, i: nat :: j < |adj| && i < |adj| ==> Weight(adj, j, i) == Weight(adj', j, i)
  }

  lemma {:induction false} SameOut(adj: Graph, adj': Graph, j: nat, k: nat)
    requires SameWeights(adj, adj') && j < |adj| && k <= |adj|
    ensures Out(adj, j, k) == Out(adj', j, k)
  {
    if k > 0 {
      SameOut(adj, adj', j, k - 1);
    }
  }

  lemma {:induction false} SameInflow(adj: Graph, adj': Graph, rank: seq<real>, i: nat, k: nat)
    requires SameWeights(adj, adj') && i < |adj| && k <= |adj| == |rank|
    ensures Inflow(adj, rank, i, k) == Inflow(adj', rank, i, k)
  {
    if k > 0 {
      SameInflow(adj, adj', rank, i, k - 1);
      SameOut(adj, adj', k - 1, |adj|);
    }
  }

  /** The ranks depend on the weights alone, not on which zero-weight edges a map holds. */
  lemma {:induction false} WeightsDecideRanks(adj: Graph, adj': Graph, t: nat)
    requires SameWeights(adj, adj')
    ensures Ranks(adj, t) == Ranks(adj', t)
  {
    if t > 0 {
      WeightsDecideRanks(adj, adj', t - 1);
      forall i | 0 <= i < |adj| ensures Ranks(adj, t)[i] == Ranks(adj', t)[i] {
        SameInflow(adj, adj', Ranks(adj, t - 1), i, |adj|);
      }
    }
  }
}
