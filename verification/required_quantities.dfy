/** Required quantities: for each good, the number of simple paths from it to
    the final good (`cantidad_caminos_x_to_y`, `generar_cantidad_requerida_bienes`). */
module Quantities {
  import opened Wrappers
  import opened Seqs
  import opened ProductionGraph

  /** Goods paired with their required quantity, in the insertion order of the
      source's dictionary: primaries, then intermediates, then the final good. */
  type Requirements = seq<(Good, nat)>

  function NodeSet(g: Graph): set<Good> {
    set v | v in g.nodes
  }

  /** Number of simple paths from `x` to `y` that avoid `visited`: the
      depth-first enumeration of `all_simple_paths`, which stops at the
      target and never re-enters a node already on the current path. */
  function PathCount(g: Graph, x: Good, y: Good, visited: set<Good>): nat
    requires x in g.nodes && visited <= NodeSet(g) && x !in visited
    decreases |NodeSet(g) - visited|, 0, 0
  {
    if x == y then 1
    else
      assert NodeSet(g) - (visited + {x}) == (NodeSet(g) - visited) - {x};
      PathSum(g, OutputsOf(g, x), y, visited + {x})
  }

  /** Sum of the path counts of the successors in `succs` not yet visited. */
  function PathSum(g: Graph, succs: seq<Good>, y: Good, visited: set<Good>): nat
    requires forall s :: s in succs ==> s in g.nodes
    requires visited <= NodeSet(g)
    decreases |NodeSet(g) - visited|, 1, |succs|
  {
    if succs == [] then 0
    else (if succs[0] in visited then 0 else PathCount(g, succs[0], y, visited)) + PathSum(g, succs[1..], y, visited)
  }

  /** Every member of `vs` is a node ranked below `lo`. */
  ghost predicate Behind(g: Graph, rank: map<Good, nat>, vs: set<Good>, lo: int) {
    forall v :: v in vs ==> v in g.nodes && v in rank && rank[v] < lo
  }

  /** In a DAG, nodes visited before `x` all rank below it, so none is
      reachable from `x` and the visited set does not change the count. */
  lemma {:induction false} PathCountIgnoresVisited(g: Graph, rank: map<Good, nat>, top: nat, x: Good, y: Good, v1: set<Good>, v2: set<Good>)
    requires WellFormed(g) && Ranking(g, rank) && forall v :: v in g.nodes ==> rank[v] <= top
    requires x in g.nodes
    requires Behind(g, rank, v1, rank[x]) && Behind(g, rank, v2, rank[x])
    ensures x !in v1 && x !in v2 && v1 <= NodeSet(g) && v2 <= NodeSet(g)
    ensures PathCount(g, x, y, v1) == PathCount(g, x, y, v2)
    decreases top + 1 - rank[x], 0, 0
  {
    if x != y {
      var outs := OutputsOf(g, x);
      assert forall s :: s in outs ==> s in g.nodes && rank[s] >= rank[x] + 1;
      PathSumIgnoresVisited(g, rank, top, outs, y, v1 + {x}, v2 + {x}, rank[x] + 1);
    }
  }

  lemma {:induction false} PathSumIgnoresVisited(g: Graph, rank: map<Good, nat>, top: nat, succs: seq<Good>, y: Good, v1: set<Good>, v2: set<Good>, lo: nat)
    requires WellFormed(g) && Ranking(g, rank) && forall v :: v in g.nodes ==> rank[v] <= top
    requires lo <= top + 1
    requires forall s :: s in succs ==> s in g.nodes && rank[s] >= lo
    requires Behind(g, rank, v1, lo) && Behind(g, rank, v2, lo)
    ensures v1 <= NodeSet(g) && v2 <= NodeSet(g)
    ensures PathSum(g, succs, y, v1) == PathSum(g, succs, y, v2)
    decreases top + 1 - lo, 1, |succs|
  {
    if succs != [] {
      PathCountIgnoresVisited(g, rank, top, succs[0], y, v1, v2);
      PathSumIgnoresVisited(g, rank, top, succs[1..], y, v1, v2, lo);
    }
  }

  /** Sum over `succs` of their path counts to `y`. */
  function CountSum(g: Graph, succs: seq<Good>, y: Good): nat
    requires forall s :: s in succs ==> s in g.nodes
  {
    if succs == [] then 0 else PathCount(g, succs[0], y, {}) + CountSum(g, succs[1..], y)
  }

  lemma {:induction false} PathSumFromSource(g: Graph, rank: map<Good, nat>, top: nat, x: Good, succs: seq<Good>, y: Good)
    requires WellFormed(g) && Ranking(g, rank) && forall v :: v in g.nodes ==> rank[v] <= top
    requires x in g.nodes
    requires forall s :: s in succs ==> s in g.nodes && rank[s] > rank[x]
    ensures PathSum(g, succs, y, {x}) == CountSum(g, succs, y)
  {
    if succs != [] {
      PathCountIgnoresVisited(g, rank, top, succs[0], y, {x}, {});
      PathSumFromSource(g, rank, top, x, succs[1..], y);
    }
  }

  /** In a DAG the number of paths from a good other than the target is the
      sum of the numbers of paths from its direct outputs. */
  lemma PathCountSplits(g: Graph, x: Good, y: Good)
    requires IsDag(g) && x in g.nodes && x != y
    ensures PathCount(g, x, y, {}) == CountSum(g, OutputsOf(g, x), y)
  {
    var rank :| Ranking(g, rank);
    var top := RankBound(rank, g.nodes);
    assert forall s :: s in OutputsOf(g, x) ==> s in g.nodes && rank[s] > rank[x];
    PathSumFromSource(g, rank, top, x, OutputsOf(g, x), y);
    assert {} + {x} == {x};
  }

  /** The goods of a requirements list, in order. */
  function Keys(q: Requirements): (r: seq<Good>)
    ensures |r| == |q| && forall i :: 0 <= i < |q| ==> r[i] == q[i].0
  {
    seq(|q|, i requires 0 <= i < |q| => q[i].0)
  }

  /** The keys of a non-empty list are its first good followed by the keys
      of the rest, and distinct keys stay distinct in the rest. */
  lemma KeysTail(q: Requirements)
    requires q != []
    ensures Keys(q) == [q[0].0] + Keys(q[1..])
    ensures NoDuplicates(Keys(q)) ==> NoDuplicates(Keys(q[1..])) && q[0].0 !in Keys(q[1..])
  {
    assert Keys(q) == [q[0].0] + Keys(q[1..]);
  }

  /** The quantity recorded for `g`, or 0 for a good without an entry. */
  function QuantityOf(q: Requirements, g: Good): nat {
    if q == [] then 0
    else if q[0].0 == g then q[0].1
    else QuantityOf(q[1..], g)
  }

  /** `sum(cantidades_requeridas.values())`. */
  function TotalRequired(q: Requirements): nat {
    if q == [] then 0 else q[0].1 + TotalRequired(q[1..])
  }

  lemma {:induction false} QuantityByKey(q: Requirements, g: Good, n: nat)
    requires g in Keys(q)
    requires forall i :: 0 <= i < |q| && q[i].0 == g ==> q[i].1 == n
    ensures QuantityOf(q, g) == n
  {
    if q[0].0 != g {
      assert Keys(q) == [q[0].0] + Keys(q[1..]);
      QuantityByKey(q[1..], g, n);
    }
  }

  lemma {:induction false} QuantityAbsent(q: Requirements, g: Good)
    requires g !in Keys(q)
    ensures QuantityOf(q, g) == 0
  {
    if q != [] {
      assert Keys(q) == [q[0].0] + Keys(q[1..]);
      QuantityAbsent(q[1..], g);
    }
  }

  /** `generar_cantidad_requerida_bienes` raises when the graph has no final good. */
  datatype GraphError = NoFinalGood

  /** The entries the source writes: each of `goods` with its path count to
      `f`, then `f` with quantity 1. */
  function Entries(g: Graph, goods: seq<Good>, f: Good): (q: Requirements)
    requires forall v :: v in goods ==> v in g.nodes
    ensures |q| == |goods| + 1
    ensures Keys(q) == goods + [f]
    ensures q[|goods|] == (f, 1)
    ensures forall i :: 0 <= i < |goods| ==> q[i] == (goods[i], PathCount(g, goods[i], f, {}))
  {
    var q := seq(|goods|, i requires 0 <= i < |goods| => (goods[i], PathCount(g, goods[i], f, {}))) + [(f, 1)];
    assert Keys(q) == goods + [f];
    q
  }

  lemma EntriesQuantity(g: Graph, goods: seq<Good>, f: Good, s: Good)
    requires forall v :: v in goods ==> v in g.nodes
    requires s in goods + [f]
    ensures QuantityOf(Entries(g, goods, f), s) == if s in goods then PathCount(g, s, f, {}) else 1
  {
    var q := Entries(g, goods, f);
    if s in goods {
      assert s != f ==> q[|goods|].0 != s;
      if s == f {
        assert g.nodes[FirstIndex(g.nodes, f)] == f;
      }
      QuantityByKey(q, s, PathCount(g, s, f, {}));
    } else {
      QuantityByKey(q, s, 1);
    }
  }

  /** The final good heads no list but its own, and the keys are distinct. */
  lemma KeysDistinct(g: Graph)
    requires WellFormed(g) && Finals(g) != []
    ensures Finals(g)[0] !in Primaries(g) + Intermediates(g)
    ensures NoDuplicates(Primaries(g) + Intermediates(g) + [Finals(g)[0]])
  {
    ClassificationPartition(g);
    NoDuplicatesConcat(Primaries(g), Intermediates(g));
    NoDuplicatesConcat(Primaries(g) + Intermediates(g), [Finals(g)[0]]);
  }

  /** The required-quantity map. Its keys are the primaries, then the
      intermediates, then the first final good, each once, and the final
      good's quantity is 1. It fails exactly when there is no final good. */
  function RequiredQuantities(g: Graph): (r: Result<Requirements, GraphError>)
    requires WellFormed(g)
    ensures r.Failure? <==> Finals(g) == []
    ensures r.Success? ==> Keys(r.value) == Primaries(g) + Intermediates(g) + [Finals(g)[0]]
    ensures r.Success? ==> NoDuplicates(Keys(r.value))
    ensures r.Success? ==> QuantityOf(r.value, Finals(g)[0]) == 1
  {
    var finals := Finals(g);
    if finals == [] then Failure(NoFinalGood)
    else
      var goods := Primaries(g) + Intermediates(g);
      var f := finals[0];
      KeysDistinct(g);
      EntriesQuantity(g, goods, f, f);
      Success(Entries(g, goods, f))
  }

  /** For every good, its required quantity is its number of simple paths to
      the final good; a good without an entry has none. */
  lemma QuantityIsPathCount(g: Graph, s: Good)
    requires WellFormed(g) && RequiredQuantities(g).Success? && s in g.nodes
    ensures QuantityOf(RequiredQuantities(g).value, s) == PathCount(g, s, Finals(g)[0], {})
  {
    var q := RequiredQuantities(g).value;
    var f := Finals(g)[0];
    var goods := Primaries(g) + Intermediates(g);
    assert q == Entries(g, goods, f);
    if s in goods + [f] {
      EntriesQuantity(g, goods, f, s);
    } else {
      UnlistedGood(g, s);
    }
  }

  /** A good outside the map is a final good other than the chosen one: it
      has no entry and no path to the chosen final good. */
  lemma UnlistedGood(g: Graph, s: Good)
    requires WellFormed(g) && Finals(g) != [] && s in g.nodes
    requires s !in Primaries(g) + Intermediates(g) + [Finals(g)[0]]
    ensures QuantityOf(RequiredQuantities(g).value, s) == 0
    ensures PathCount(g, s, Finals(g)[0], {}) == 0
  {
    QuantityAbsent(RequiredQuantities(g).value, s);
    ClassificationPartition(g);
    ClassesMatchEdges(g, s);
    OutputsEmpty(g, s);
  }

  /** Sum of the required quantities of `succs`. */
  function QuantitySum(q: Requirements, succs: seq<Good>): nat {
    if succs == [] then 0 else QuantityOf(q, succs[0]) + QuantitySum(q, succs[1..])
  }

  lemma {:induction false} CountSumIsQuantitySum(g: Graph, succs: seq<Good>)
    requires WellFormed(g) && RequiredQuantities(g).Success?
    requires forall s :: s in succs ==> s in g.nodes
    ensures CountSum(g, succs, Finals(g)[0]) == QuantitySum(RequiredQuantities(g).value, succs)
  {
    if succs != [] {
      QuantityIsPathCount(g, succs[0]);
      CountSumIsQuantitySum(g, succs[1..]);
    }
  }

  /** In a DAG, the required quantity of any good other than the final one is
      the sum of the required quantities of its direct outputs (a good
      without an entry counting 0). When the final good is the only good
      without outputs, every direct output has an entry. */
  lemma RequiredSplit(g: Graph, x: Good)
    requires IsDag(g) && RequiredQuantities(g).Success?
    requires x in g.nodes && x != Finals(g)[0]
    ensures QuantityOf(RequiredQuantities(g).value, x) == QuantitySum(RequiredQuantities(g).value, OutputsOf(g, x))
    ensures |Finals(g)| == 1 ==> forall s :: s in OutputsOf(g, x) ==> s in Keys(RequiredQuantities(g).value)
  {
    QuantityIsPathCount(g, x);
    PathCountSplits(g, x, Finals(g)[0]);
    CountSumIsQuantitySum(g, OutputsOf(g, x));
    if |Finals(g)| == 1 {
      forall s | s in OutputsOf(g, x)
        ensures s in Keys(RequiredQuantities(g).value)
      {
        ClassificationPartition(g);
        ClassesMatchEdges(g, s);
        assert Edge(g, x, s);
        assert s !in Primaries(g);
        if s in Finals(g) {
          SingletonMember(Finals(g), s);
        }
      }
    }
  }

  lemma SingletonMember(fs: seq<Good>, s: Good)
    requires |fs| == 1 && s in fs
    ensures s == fs[0]
  {
    assert fs == [fs[0]];
  }

  lemma {:induction false} CountSumAtLeast(g: Graph, succs: seq<Good>, y: Good, s: Good)
    requires forall t :: t in succs ==> t in g.nodes
    requires s in succs
    ensures CountSum(g, succs, y) >= PathCount(g, s, y, {})
  {
    if succs[0] != s {
      CountSumAtLeast(g, succs[1..], y, s);
    }
  }

  /** Following inputs backwards from a good that reaches `y` ends at a
      good without inputs that reaches `y`. */
  lemma {:induction false} ReachedFromPrimary(g: Graph, rank: map<Good, nat>, v: Good, y: Good)
    requires IsDag(g) && Ranking(g, rank) && v in g.nodes && !HasOutput(g, y)
    requires PathCount(g, v, y, {}) >= 1
    ensures exists p :: p in g.nodes && !HasInput(g, p) && PathCount(g, p, y, {}) >= 1
    decreases rank[v]
  {
    if HasInput(g, v) {
      var u :| Edge(g, u, v);
      assert u in g.nodes && rank[u] < rank[v];
      assert u != y;
      PathCountSplits(g, u, y);
      CountSumAtLeast(g, OutputsOf(g, u), y, v);
      ReachedFromPrimary(g, rank, u, y);
    }
  }

  /** Some primary good is required at least once, so a compiled plan always
      starts with a purchase. */
  lemma SomePrimaryNeeded(g: Graph)
    requires IsDag(g) && RequiredQuantities(g).Success?
    ensures exists p :: p in Primaries(g) && QuantityOf(RequiredQuantities(g).value, p) >= 1
  {
    var f := Finals(g)[0];
    ClassesMatchEdges(g, f);
    var rank :| Ranking(g, rank);
    ReachedFromPrimary(g, rank, f, f);
    var p :| p in g.nodes && !HasInput(g, p) && PathCount(g, p, f, {}) >= 1;
    ClassesMatchEdges(g, p);
    QuantityIsPathCount(g, p);
  }
}
