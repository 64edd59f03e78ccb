/** The production graph: direct-input and direct-output maps and the
    classification of goods into primary, intermediate and final. */
module ProductionGraph {
  import opened Seqs

  /** A good is identified by its name. */
  type Good = string

  /** A production graph. `nodes` lists every good once, in the order the
      graph library enumerates them; `(u, v) in edges` says that `u` is a
      direct input of `v`. */
  datatype Graph = Graph(nodes: seq<Good>, edges: set<(Good, Good)>)

  /** There is an edge from `u` to `v` (`has_edge`). */
  predicate Edge(g: Graph, u: Good, v: Good) {
    (u, v) in g.edges
  }

  /** Nodes are distinct and every edge joins two nodes. */
  ghost predicate WellFormed(g: Graph) {
    && NoDuplicates(g.nodes)
    && forall u, v :: Edge(g, u, v) ==> u in g.nodes && v in g.nodes
  }

  /** `rank` numbers every good so that each edge goes to a higher number. */
  ghost predicate Ranking(g: Graph, rank: map<Good, nat>) {
    && (forall v :: v in g.nodes ==> v in rank)
    && forall u, v :: Edge(g, u, v) && u in rank && v in rank ==> rank[u] < rank[v]
  }

  /** Acyclic: some numbering of the goods makes every edge go up. The node
      enumeration itself need not be a topological order. */
  ghost predicate IsDag(g: Graph) {
    WellFormed(g) && exists rank :: Ranking(g, rank)
  }

  /** The node enumeration is a topological order: every edge goes forward
      in it, as in the list `get_nodes` returns. */
  ghost predicate Topological(g: Graph) {
    forall i, j :: 0 <= i < |g.nodes| && 0 <= j < |g.nodes| && Edge(g, g.nodes[i], g.nodes[j]) ==> i < j
  }

  /** A well-formed graph enumerated in topological order is acyclic: the
      position of a good ranks it. */
  lemma TopologicalIsDag(g: Graph)
    requires WellFormed(g) && Topological(g)
    ensures IsDag(g)
  {
    var rank := map v | v in g.nodes :: FirstIndex(g.nodes, v);
    forall u, v | Edge(g, u, v) && u in rank && v in rank
      ensures rank[u] < rank[v]
    {
      assert g.nodes[rank[u]] == u && g.nodes[rank[v]] == v;
    }
    assert Ranking(g, rank);
  }

  /** An upper bound of the ranks of `vs`. */
  function RankBound(rank: map<Good, nat>, vs: seq<Good>): (top: nat)
    requires forall v :: v in vs ==> v in rank
    ensures forall v :: v in vs ==> rank[v] <= top
  {
    if vs == [] then 0
    else
      var t := RankBound(rank, vs[1..]);
      if rank[vs[0]] > t then rank[vs[0]] else t
  }

  /** A DAG has no edge from a good to itself. */
  lemma NoSelfLoop(g: Graph, v: Good)
    requires IsDag(g)
    ensures !Edge(g, v, v)
  {
    var rank :| Ranking(g, rank);
  }

  ghost predicate HasInput(g: Graph, v: Good) {
    exists u :: Edge(g, u, v)
  }

  ghost predicate HasOutput(g: Graph, u: Good) {
    exists v :: Edge(g, u, v)
  }

  /** The members of `ns` that are direct inputs of `v`, in the order of `ns`. */
  function InputsAmong(g: Graph, ns: seq<Good>, v: Good): (r: seq<Good>)
    ensures forall u :: u in r <==> u in ns && Edge(g, u, v)
    ensures NoDuplicates(ns) ==> NoDuplicates(r)
  {
    if ns == [] then []
    else
      var init := ns[..|ns| - 1];
      var last := ns[|ns| - 1];
      assert ns == init + [last];
      assert NoDuplicates(ns) ==> last !in init;
      InputsAmong(g, init, v) + (if Edge(g, last, v) then [last] else [])
  }

  /** The members of `ns` that are direct outputs of `u`, in the order of `ns`. */
  function OutputsAmong(g: Graph, ns: seq<Good>, u: Good): (r: seq<Good>)
    ensures forall v :: v in r <==> v in ns && Edge(g, u, v)
    ensures NoDuplicates(ns) ==> NoDuplicates(r)
  {
    if ns == [] then []
    else
      var init := ns[..|ns| - 1];
      var last := ns[|ns| - 1];
      assert ns == init + [last];
      assert NoDuplicates(ns) ==> last !in init;
      OutputsAmong(g, init, u) + (if Edge(g, u, last) then [last] else [])
  }

  /** Direct inputs of `v`, in node order. */
  function InputsOf(g: Graph, v: Good): seq<Good> {
    InputsAmong(g, g.nodes, v)
  }

  /** Direct outputs of `u`, in node order. */
  function OutputsOf(g: Graph, u: Good): seq<Good> {
    OutputsAmong(g, g.nodes, u)
  }

  /** The direct-input map (`generar_insumos_directos`): every good has an
      entry, listing exactly its direct inputs, each once. */
  function DirectInputs(g: Graph): (m: map<Good, seq<Good>>)
    requires WellFormed(g)
    ensures forall v :: v in m <==> v in g.nodes
    ensures forall u, v :: v in m ==> (u in m[v] <==> Edge(g, u, v))
    ensures forall v :: v in m ==> NoDuplicates(m[v])
  {
    map v | v in g.nodes :: InputsOf(g, v)
  }

  /** The direct-output map (`generar_productos_directos`), dual of `DirectInputs`. */
  function DirectOutputs(g: Graph): (m: map<Good, seq<Good>>)
    requires WellFormed(g)
    ensures forall u :: u in m <==> u in g.nodes
    ensures forall u, v :: u in m ==> (v in m[u] <==> Edge(g, u, v))
    ensures forall u :: u in m ==> NoDuplicates(m[u])
  {
    map u | u in g.nodes :: OutputsOf(g, u)
  }

  /** The two maps are duals: `v` is a direct output of `u` exactly when `u`
      is a direct input of `v`, exactly when the edge exists. */
  lemma InputsOutputsDual(g: Graph, u: Good, v: Good)
    requires WellFormed(g) && u in g.nodes && v in g.nodes
    ensures v in DirectOutputs(g)[u] <==> u in DirectInputs(g)[v]
    ensures u in DirectInputs(g)[v] <==> Edge(g, u, v)
  {
  }

  lemma InputsStep(g: Graph, ns: seq<Good>, i: nat, v: Good)
    requires i < |ns|
    ensures InputsAmong(g, ns[..i + 1], v) == InputsAmong(g, ns[..i], v) + (if Edge(g, ns[i], v) then [ns[i]] else [])
  {
    assert ns[..i + 1][..i] == ns[..i];
  }

  lemma OutputsStep(g: Graph, ns: seq<Good>, i: nat, u: Good)
    requires i < |ns|
    ensures OutputsAmong(g, ns[..i + 1], u) == OutputsAmong(g, ns[..i], u) + (if Edge(g, u, ns[i]) then [ns[i]] else [])
  {
    assert ns[..i + 1][..i] == ns[..i];
  }

  /** A map keyed by exactly the nodes is determined by its values at each node position. */
  lemma MapByPositions(g: Graph, m: map<Good, seq<Good>>, f: map<Good, seq<Good>>)
    requires forall v :: v in m <==> v in g.nodes
    requires forall v :: v in f <==> v in g.nodes
    requires forall k :: 0 <= k < |g.nodes| ==> m[g.nodes[k]] == f[g.nodes[k]]
    ensures m == f
  {
    forall v | v in m
      ensures m[v] == f[v]
    {
      var k := FirstIndex(g.nodes, v);
      assert g.nodes[k] == v;
    }
  }

  /** The first loop of both map builders: an empty list for every node. */
  method EmptyEntries(g: Graph) returns (m: map<Good, seq<Good>>)
    ensures forall v :: v in m <==> v in g.nodes
    ensures forall v :: v in m ==> m[v] == []
  {
    m := map[];
    for k := 0 to |g.nodes|
      invariant forall v :: v in m <==> v in g.nodes[..k]
      invariant forall v :: v in m ==> m[v] == []
    {
      m := m[g.nodes[k] := []];
    }
    assert g.nodes[..|g.nodes|] == g.nodes;
  }

  /** One pass of the inner loop of `generar_insumos_directos`: `u = nodes[i]`
      is appended under every direct output of `u`. */
  method AppendAsInput(g: Graph, ins0: map<Good, seq<Good>>, i: nat) returns (ins: map<Good, seq<Good>>)
    requires WellFormed(g) && i < |g.nodes|
    requires forall v :: v in ins0 <==> v in g.nodes
    requires forall k :: 0 <= k < |g.nodes| ==> ins0[g.nodes[k]] == InputsAmong(g, g.nodes[..i], g.nodes[k])
    ensures forall v :: v in ins <==> v in g.nodes
    ensures forall k :: 0 <= k < |g.nodes| ==> ins[g.nodes[k]] == InputsAmong(g, g.nodes[..i + 1], g.nodes[k])
  {
    var n := |g.nodes|;
    var u := g.nodes[i];
    ins := ins0;
    for j := 0 to n
      invariant forall v :: v in ins <==> v in g.nodes
      invariant forall k :: 0 <= k < j ==> ins[g.nodes[k]] == InputsAmong(g, g.nodes[..i + 1], g.nodes[k])
      invariant forall k :: j <= k < n ==> ins[g.nodes[k]] == InputsAmong(g, g.nodes[..i], g.nodes[k])
    {
      var v := g.nodes[j];
      var row := if Edge(g, u, v) then ins[v] + [u] else ins[v];
      AppendAsInputStep(g, ins, i, j);
      ins := ins[v := row];
    }
  }

  /** One step of the inner loop of `AppendAsInput`: updating the row of
      `nodes[j]` leaves every other row as it was. */
  lemma AppendAsInputStep(g: Graph, ins: map<Good, seq<Good>>, i: nat, j: nat)
    requires WellFormed(g) && i < |g.nodes| && j < |g.nodes|
    requires forall v :: v in ins <==> v in g.nodes
    requires forall k :: 0 <= k < j ==> ins[g.nodes[k]] == InputsAmong(g, g.nodes[..i + 1], g.nodes[k])
    requires forall k :: j <= k < |g.nodes| ==> ins[g.nodes[k]] == InputsAmong(g, g.nodes[..i], g.nodes[k])
    ensures var v := g.nodes[j];
      var row := if Edge(g, g.nodes[i], v) then ins[v] + [g.nodes[i]] else ins[v];
      forall k :: 0 <= k <= j ==> ins[v := row][g.nodes[k]] == InputsAmong(g, g.nodes[..i + 1], g.nodes[k])
    ensures var v := g.nodes[j];
      var row := if Edge(g, g.nodes[i], v) then ins[v] + [g.nodes[i]] else ins[v];
      forall k :: j < k < |g.nodes| ==> ins[v := row][g.nodes[k]] == InputsAmong(g, g.nodes[..i], g.nodes[k])
  {
    var v := g.nodes[j];
    var row := if Edge(g, g.nodes[i], v) then ins[v] + [g.nodes[i]] else ins[v];
    InputsStep(g, g.nodes, i, v);
    assert ins[v := row][v] == InputsAmong(g, g.nodes[..i + 1], v);
    forall k | 0 <= k < |g.nodes| && k != j
      ensures ins[v := row][g.nodes[k]] == ins[g.nodes[k]]
    {
      assert g.nodes[k] != v;
    }
  }

  /** `generar_insumos_directos` as written: an entry per node, then a
      double loop over the nodes appending `u` under `v` for each edge. */
  method GenerateDirectInputs(g: Graph) returns (ins: map<Good, seq<Good>>)
    requires WellFormed(g)
    ensures ins == DirectInputs(g)
  {
    var n := |g.nodes|;
    ins := EmptyEntries(g);
    InputsNoneYet(g, ins);
    for i := 0 to n
      invariant forall v :: v in ins <==> v in g.nodes
      invariant forall k :: 0 <= k < n ==> ins[g.nodes[k]] == InputsAmong(g, g.nodes[..i], g.nodes[k])
    {
      ins := AppendAsInput(g, ins, i);
    }
    InputsAllSeen(g, ins);
  }

  /** Before the double loop, every row holds the inputs among no nodes. */
  lemma InputsNoneYet(g: Graph, m: map<Good, seq<Good>>)
    requires forall v :: v in m <==> v in g.nodes
    requires forall v :: v in m ==> m[v] == []
    ensures forall k :: 0 <= k < |g.nodes| ==> m[g.nodes[k]] == InputsAmong(g, g.nodes[..0], g.nodes[k])
  {
    assert g.nodes[..0] == [];
  }

  /** After the double loop, the rows are the inputs among all nodes. */
  lemma InputsAllSeen(g: Graph, m: map<Good, seq<Good>>)
    requires WellFormed(g)
    requires forall v :: v in m <==> v in g.nodes
    requires forall k :: 0 <= k < |g.nodes| ==> m[g.nodes[k]] == InputsAmong(g, g.nodes[..|g.nodes|], g.nodes[k])
    ensures m == DirectInputs(g)
  {
    assert g.nodes[..|g.nodes|] == g.nodes;
    MapByPositions(g, m, DirectInputs(g));
  }

  /** One pass of the inner loop of `generar_productos_directos`: every direct
      output of `u = nodes[i]` is appended under `u`, in node order. */
  method AppendOutputs(g: Graph, outs0: map<Good, seq<Good>>, i: nat) returns (outs: map<Good, seq<Good>>)
    requires WellFormed(g) && i < |g.nodes|
    requires forall v :: v in outs0 <==> v in g.nodes
    requires outs0[g.nodes[i]] == []
    ensures forall v :: v in outs <==> v in g.nodes
    ensures outs == outs0[g.nodes[i] := OutputsOf(g, g.nodes[i])]
  {
    var n := |g.nodes|;
    var u := g.nodes[i];
    // `row` is the list object stored under `u`; appending to it appends to the entry
    var row := outs0[u];
    for j := 0 to n
      invariant row == OutputsAmong(g, g.nodes[..j], u)
    {
      var v := g.nodes[j];
      OutputsStep(g, g.nodes, j, u);
      if Edge(g, u, v) {
        row := row + [v];
      }
    }
    assert g.nodes[..n] == g.nodes;
    outs := outs0[u := row];
  }

  /** `generar_productos_directos` as written: an entry per node, then a
      double loop over the nodes appending `v` under `u` for each edge. */
  method GenerateDirectOutputs(g: Graph) returns (outs: map<Good, seq<Good>>)
    requires WellFormed(g)
    ensures outs == DirectOutputs(g)
  {
    var n := |g.nodes|;
    outs := EmptyEntries(g);
    for i := 0 to n
      invariant forall v :: v in outs <==> v in g.nodes
      invariant forall k :: 0 <= k < i ==> outs[g.nodes[k]] == OutputsOf(g, g.nodes[k])
      invariant forall k :: i <= k < n ==> outs[g.nodes[k]] == []
    {
      outs := AppendOutputs(g, outs, i);
    }
    MapByPositions(g, outs, DirectOutputs(g));
  }

  /** Position of a good in the production chain. */
  datatype Class = Primary | Intermediate | Final

  /** The test of `clasificar_bienes`: no inputs comes first, then no outputs. */
  function ClassOf(inputs: seq<Good>, outputs: seq<Good>): Class {
    if inputs == [] then Primary
    else if outputs == [] then Final
    else Intermediate
  }

  /** The classification map (`clasificar_bienes`). It is total over the
      nodes; a good without inputs is primary even when it has no outputs
      either, and otherwise a good without outputs is final. */
  function Classify(g: Graph): (c: map<Good, Class>)
    requires WellFormed(g)
    ensures forall v :: v in c <==> v in g.nodes
    ensures forall v :: v in c ==> (c[v] == Primary <==> !HasInput(g, v))
    ensures forall v :: v in c ==> (c[v] == Final <==> HasInput(g, v) && !HasOutput(g, v))
    ensures forall v :: v in c ==> (c[v] == Intermediate <==> HasInput(g, v) && HasOutput(g, v))
  {
    map v | v in g.nodes :: ClassifyGood(g, v)
  }

  /** The class of one good, from its entries in the direct-input and
      direct-output maps (`DirectInputs(g)[v]` is `InputsOf(g, v)`). */
  function ClassifyGood(g: Graph, v: Good): (k: Class)
    requires WellFormed(g)
    ensures k == Primary <==> !HasInput(g, v)
    ensures k == Final <==> HasInput(g, v) && !HasOutput(g, v)
    ensures k == Intermediate <==> HasInput(g, v) && HasOutput(g, v)
  {
    InputsEmpty(g, v);
    OutputsEmpty(g, v);
    ClassOf(InputsOf(g, v), OutputsOf(g, v))
  }

  lemma InputsEmpty(g: Graph, v: Good)
    requires WellFormed(g)
    ensures InputsOf(g, v) == [] <==> !HasInput(g, v)
  {
    if InputsOf(g, v) != [] {
      assert Edge(g, InputsOf(g, v)[0], v);
    }
  }

  lemma OutputsEmpty(g: Graph, u: Good)
    requires WellFormed(g)
    ensures OutputsOf(g, u) == [] <==> !HasOutput(g, u)
  {
    if OutputsOf(g, u) != [] {
      assert Edge(g, u, OutputsOf(g, u)[0]);
    }
  }

  /** The goods of `ns` whose class is `k`, in the order of `ns`. */
  function Select(ns: seq<Good>, c: map<Good, Class>, k: Class): (r: seq<Good>)
    requires forall v :: v in ns ==> v in c
    ensures forall v :: v in r <==> v in ns && c[v] == k
    ensures NoDuplicates(ns) ==> NoDuplicates(r)
  {
    if ns == [] then []
    else
      assert NoDuplicates(ns) ==> ns[0] !in ns[1..];
      (if c[ns[0]] == k then [ns[0]] else []) + Select(ns[1..], c, k)
  }

  /** The primary goods in node order (`get_bienes_primarios`). */
  function Primaries(g: Graph): seq<Good>
    requires WellFormed(g)
  {
    Select(g.nodes, Classify(g), Primary)
  }

  /** The intermediate goods in node order (`get_bienes_intermedios`). */
  function Intermediates(g: Graph): seq<Good>
    requires WellFormed(g)
  {
    Select(g.nodes, Classify(g), Intermediate)
  }

  /** The final goods in node order (`get_bienes_finales`). */
  function Finals(g: Graph): seq<Good>
    requires WellFormed(g)
  {
    Select(g.nodes, Classify(g), Final)
  }

  lemma {:induction false} SelectPartition(ns: seq<Good>, c: map<Good, Class>)
    requires forall v :: v in ns ==> v in c
    ensures |Select(ns, c, Primary)| + |Select(ns, c, Intermediate)| + |Select(ns, c, Final)| == |ns|
  {
    if ns != [] {
      SelectPartition(ns[1..], c);
    }
  }

  /** The three lists are disjoint, free of repeats, and together list every
      node exactly once. */
  lemma ClassificationPartition(g: Graph)
    requires WellFormed(g)
    ensures |Primaries(g)| + |Intermediates(g)| + |Finals(g)| == |g.nodes|
    ensures NoDuplicates(Primaries(g)) && NoDuplicates(Intermediates(g)) && NoDuplicates(Finals(g))
    ensures forall v :: v in g.nodes <==> v in Primaries(g) || v in Intermediates(g) || v in Finals(g)
    ensures forall v :: v in Primaries(g) ==> v !in Intermediates(g) && v !in Finals(g)
    ensures forall v :: v in Intermediates(g) ==> v !in Finals(g)
  {
    SelectPartition(g.nodes, Classify(g));
  }

  /** The lists agree with the graph: primaries have no inputs, finals have
      inputs but no outputs, intermediates have both. */
  lemma ClassesMatchEdges(g: Graph, v: Good)
    requires WellFormed(g)
    ensures v in Primaries(g) <==> v in g.nodes && !HasInput(g, v)
    ensures v in Finals(g) <==> v in g.nodes && HasInput(g, v) && !HasOutput(g, v)
    ensures v in Intermediates(g) <==> v in g.nodes && HasInput(g, v) && HasOutput(g, v)
  {
  }

  /** Selecting by class keeps the relative order of the selected goods. */
  lemma {:induction false} SelectKeepsOrder(ns: seq<Good>, c: map<Good, Class>, k: Class, i: nat, j: nat)
    requires forall v :: v in ns ==> v in c
    requires i < j < |ns| && c[ns[i]] == k && c[ns[j]] == k
    ensures Before(Select(ns, c, k), ns[i], ns[j])
  {
    var head := if c[ns[0]] == k then [ns[0]] else [];
    var rest := Select(ns[1..], c, k);
    assert Select(ns, c, k) == head + rest + [];
    assert ns[j] == ns[1..][j - 1];
    if i == 0 {
      assert ns[j] in rest;
      var m :| 0 <= m < |rest| && rest[m] == ns[j];
      assert Select(ns, c, k)[0] == ns[0] && Select(ns, c, k)[m + 1] == ns[j];
    } else {
      assert ns[i] == ns[1..][i - 1];
      SelectKeepsOrder(ns[1..], c, k, i - 1, j - 1);
      BeforeInMiddle(head, rest, [], ns[i], ns[j]);
    }
  }
}
