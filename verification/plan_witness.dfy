/** `PlanSuccess.PlanCompletes` is not vacuous: its precondition holds for
    the smallest production graph, one raw good feeding one final good. */
module PlanWitness {
  import opened Seqs
  import opened ProductionGraph
  import opened Quantities
  import opened PlannerTypes
  import opened AgentInventory
  import opened PlanCompiler
  import opened OrderEngine
  import opened PlanSuccess

  /** The chain `a → b`, enumerated in that order. */
  function Chain(a: Good, b: Good): Graph {
    Graph([a, b], {(a, b)})
  }

  /** The process built from the chain: `a` is primary, `b` is final, and the
      graph is enumerated topologically. */
  lemma ChainSorted(a: Good, b: Good) returns (p: Process)
    requires a != b
    ensures p.graph == Chain(a, b) && SortedProcess(p)
    ensures Primaries(p.graph) == [a] && Finals(p.graph) == [b]
  {
    ChainShape(a, b);
    p := NewProcess(Chain(a, b)).value;
  }

  /** The chain is acyclic and enumerated topologically; `a` is its only
      primary good and `b` its only final good. */
  lemma ChainShape(a: Good, b: Good)
    requires a != b
    ensures IsDag(Chain(a, b)) && Topological(Chain(a, b))
    ensures Primaries(Chain(a, b)) == [a] && Finals(Chain(a, b)) == [b]
  {
    ChainDag(a, b);
    ChainClasses(a, b);
    SelectPair(a, b, Classify(Chain(a, b)), Primary);
    SelectPair(a, b, Classify(Chain(a, b)), Final);
  }

  /** Ranking `a` below `b` makes the chain acyclic. */
  lemma ChainDag(a: Good, b: Good)
    requires a != b
    ensures IsDag(Chain(a, b)) && Topological(Chain(a, b))
  {
    var g := Chain(a, b);
    assert WellFormed(g);
    assert Ranking(g, map[a := 0, b := 1]);
  }

  /** Selecting from a two-good list. */
  lemma SelectPair(x: Good, y: Good, c: map<Good, Class>, k: Class)
    requires x in c && y in c
    ensures Select([x, y], c, k) == (if c[x] == k then [x] else []) + (if c[y] == k then [y] else [])
  {
    assert [x, y][1..] == [y] && [y][1..] == [];
    assert Select([y], c, k) == (if c[y] == k then [y] else []) + Select([], c, k);
  }

  /** `a` has no input, and `b` has an input but no output. */
  lemma ChainClasses(a: Good, b: Good)
    requires a != b
    ensures WellFormed(Chain(a, b))
    ensures Classify(Chain(a, b))[a] == Primary && Classify(Chain(a, b))[b] == Final
  {
    var g := Chain(a, b);
    assert WellFormed(g);
    assert Edge(g, a, b);
    assert !HasInput(g, a) && HasInput(g, b) && !HasOutput(g, b);
  }

  /** A plan that hands every order to NCT, as long as the requirements. */
  function AllNct(p: Process): seq<int> {
    Repeat(1, TotalRequired(p.reqs))
  }

  /** Any process compiles the all-NCT plan of the required length. */
  lemma AllNctCompiles(p: Process)
    requires Classified(p.reqs, p.classes)
    ensures CompilePlan(p, AllNct(p)).Success?
  {
  }

  /** On the chain, the all-NCT plan runs to completion and leaves one unit
      of `b` and none of `a`. */
  lemma ChainPlanCompletes(a: Good, b: Good) returns (pl: Planner)
    requires a != b
    ensures pl.process.graph == Chain(a, b) && Classified(pl.process.reqs, pl.process.classes)
    ensures ExecutePlan(pl, AllNct(pl.process)).Done?
    ensures Total(ExecutePlan(pl, AllNct(pl.process)).state, a) == 0
    ensures Total(ExecutePlan(pl, AllNct(pl.process)).state, b) == 1
  {
    var p := ChainSorted(a, b);
    pl := Planner(p, InitialState(p));
    AllNctCompiles(p);
    ProcessTables(p);
    PlanCompletes(pl, AllNct(p));
    assert a in p.graph.nodes && b in p.graph.nodes;
  }
}
