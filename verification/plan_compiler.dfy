/** `Proceso_productivo` and the plan compiler: turning an allocation vector
    into buy orders followed by produce orders, and `cortar_lista`. */
module PlanCompiler {
  import opened Wrappers
  import opened Seqs
  import opened ProductionGraph
  import opened Quantities
  import opened PlannerTypes

  /** A production process: the graph and everything derived from it once. */
  datatype Process = Process(
    graph: Graph,
    inputs: map<Good, seq<Good>>,
    outputs: map<Good, seq<Good>>,
    classes: map<Good, Class>,
    reqs: Requirements)

  /** Every good with a required quantity has a class. */
  ghost predicate Classified(reqs: Requirements, classes: map<Good, Class>) {
    forall i :: 0 <= i < |reqs| ==> reqs[i].0 in classes
  }

  /** `Proceso_productivo(pgraph)`: derives the maps and the required
      quantities; fails exactly when the graph has no final good. */
  function NewProcess(g: Graph): (r: Result<Process, Error>)
    requires WellFormed(g)
    ensures r.Failure? <==> Finals(g) == []
    ensures r.Failure? ==> r.error == Error.NoFinalGood
    ensures r.Success? ==> r.value.graph == g && Classified(r.value.reqs, r.value.classes)
    ensures r.Success? ==> forall v :: v in r.value.inputs <==> v in g.nodes
    ensures r.Success? ==> forall v :: v in r.value.outputs <==> v in g.nodes
    ensures r.Success? ==> r.value.classes == Classify(g) && r.value.reqs == RequiredQuantities(g).value
  {
    match RequiredQuantities(g)
    case Failure(_) => Failure(Error.NoFinalGood)
    case Success(reqs) =>
      RequirementsClassified(g);
      Success(Process(g, DirectInputs(g), DirectOutputs(g), Classify(g), reqs))
  }

  lemma RequirementsClassified(g: Graph)
    requires WellFormed(g) && RequiredQuantities(g).Success?
    ensures Classified(RequiredQuantities(g).value, Classify(g))
  {
    var reqs := RequiredQuantities(g).value;
    forall i | 0 <= i < |reqs|
      ensures reqs[i].0 in Classify(g)
    {
      assert Keys(reqs)[i] == reqs[i].0;
      assert reqs[i].0 in Keys(reqs);
    }
  }

  /** A process built from a DAG. */
  ghost predicate ValidProcess(p: Process) {
    IsDag(p.graph) && NewProcess(p.graph) == Success(p)
  }

  /** `agent_map = {1: "NCT", 0: "ZF"}`; any other index is a missing key. */
  function AgentOf(index: int): (r: Option<AgentName>)
    ensures r.Some? ==> r.value != MKT
  {
    if index == 1 then Some(NCT) else if index == 0 then Some(ZF) else None
  }

  /** The first of the first `n` plan entries with no agent, or `n`. */
  function FirstUnknown(plan: seq<int>, n: nat): (k: nat)
    requires n <= |plan|
    ensures k <= n
    ensures forall i :: 0 <= i < k ==> AgentOf(plan[i]).Some?
    ensures k < n ==> AgentOf(plan[k]).None?
  {
    if n == 0 then 0
    else if AgentOf(plan[0]).None? then 0
    else 1 + FirstUnknown(plan[1..], n - 1)
  }

  lemma {:induction false} FirstUnknownSplit(plan: seq<int>, m: nat, n: nat)
    requires m + n <= |plan|
    ensures FirstUnknown(plan, m) < m ==> FirstUnknown(plan, m + n) == FirstUnknown(plan, m)
    ensures FirstUnknown(plan, m) == m ==> FirstUnknown(plan, m + n) == m + FirstUnknown(plan[m..], n)
  {
    if m > 0 && AgentOf(plan[0]).Some? {
      FirstUnknownSplit(plan[1..], m - 1, n);
      assert plan[1..][m - 1..] == plan[m..];
    }
  }

  /** When the first unknown entry lies past `m`, it is the first unknown
      entry of the rest of the plan. */
  lemma FirstUnknownInSecond(plan: seq<int>, m: nat, n: nat)
    requires m + n <= |plan|
    requires FirstUnknown(plan, m) == m ==> FirstUnknown(plan, m + n) == m + FirstUnknown(plan[m..], n)
    ensures FirstUnknown(plan, m) == m && FirstUnknown(plan[m..], n) < n ==>
      plan[m..][FirstUnknown(plan[m..], n)] == plan[FirstUnknown(plan, m + n)]
  {
  }

  /** Whether goods of class `k` belong to the purchase phase (`buying`) or
      to the production phase. */
  predicate InPhase(k: Class, buying: bool) {
    if buying then k == Primary else k == Intermediate || k == Final
  }

  /** The goods one phase handles, each repeated by its required quantity,
      in the order of the requirements. */
  function PhaseGoods(reqs: Requirements, classes: map<Good, Class>, buying: bool): (r: seq<Good>)
    requires Classified(reqs, classes)
    ensures forall v :: v in r ==> v in classes && InPhase(classes[v], buying)
  {
    if reqs == [] then []
    else
      var head := if InPhase(classes[reqs[0].0], buying) then Repeat(reqs[0].0, reqs[0].1) else [];
      head + PhaseGoods(reqs[1..], classes, buying)
  }

  /** One phase's loop: the i-th good goes to the agent named by `plan[i]`,
      failing at the first entry the agent map lacks. */
  function Assign(goods: seq<Good>, action: Action, plan: seq<int>): (r: Result<seq<Order>, Error>)
    requires |goods| <= |plan|
    ensures r.Success? <==> FirstUnknown(plan, |goods|) == |goods|
    ensures r.Failure? ==> r.error == UnknownAgentIndex(plan[FirstUnknown(plan, |goods|)])
    ensures r.Success? ==> Assigned(goods, action, plan, r.value)
  {
    if goods == [] then Success([])
    else
      match AgentOf(plan[0])
      case None => Failure(UnknownAgentIndex(plan[0]))
      case Some(a) =>
        match Assign(goods[1..], action, plan[1..])
        case Failure(e) => Failure(e)
        case Success(rest) => Success([Order(goods[0], action, a)] + rest)
  }

  /** `orders` gives each good of `goods`, in turn, the agent its plan entry names. */
  predicate Assigned(goods: seq<Good>, action: Action, plan: seq<int>, orders: seq<Order>)
    requires |goods| <= |plan|
  {
    |orders| == |goods| &&
    forall i :: 0 <= i < |goods| ==>
      AgentOf(plan[i]).Some? && orders[i] == Order(goods[i], action, AgentOf(plan[i]).value)
  }

  /** The goods of a list of orders. */
  function GoodsOf(orders: seq<Order>): (r: seq<Good>)
    ensures |r| == |orders| && forall i :: 0 <= i < |orders| ==> r[i] == orders[i].good
  {
    seq(|orders|, i requires 0 <= i < |orders| => orders[i].good)
  }

  lemma {:induction false} PhaseLengths(reqs: Requirements, classes: map<Good, Class>)
    requires Classified(reqs, classes)
    ensures |PhaseGoods(reqs, classes, true)| + |PhaseGoods(reqs, classes, false)| == TotalRequired(reqs)
  {
    if reqs != [] {
      PhaseLengths(reqs[1..], classes);
    }
  }

  lemma {:induction false} PhaseCount(reqs: Requirements, classes: map<Good, Class>, buying: bool, g: Good)
    requires Classified(reqs, classes) && NoDuplicates(Keys(reqs))
    ensures Count(PhaseGoods(reqs, classes, buying), g) ==
      if g in Keys(reqs) && InPhase(classes[g], buying) then QuantityOf(reqs, g) else 0
  {
    if reqs != [] {
      var (g0, q0) := reqs[0];
      var head := if InPhase(classes[g0], buying) then Repeat(g0, q0) else [];
      assert Keys(reqs) == [g0] + Keys(reqs[1..]);
      assert NoDuplicates(Keys(reqs[1..]));
      PhaseCount(reqs[1..], classes, buying, g);
      CountConcat(head, PhaseGoods(reqs[1..], classes, buying), g);
      CountRepeat(g0, q0, g);
      if g == g0 {
        assert g !in Keys(reqs[1..]);
      }
    }
  }

  /** The two assignment loops of `crear_plan_produccion`: purchases take
      the first agents of the plan, productions the ones after them. */
  function AssignPhases(buys: seq<Good>, makes: seq<Good>, plan: seq<int>): (r: Result<seq<Order>, Error>)
    requires |buys| + |makes| <= |plan|
    ensures r.Success? <==> FirstUnknown(plan, |buys| + |makes|) == |buys| + |makes|
    ensures r.Failure? ==> r.error == UnknownAgentIndex(plan[FirstUnknown(plan, |buys| + |makes|)])
    ensures r.Success? ==> |r.value| == |buys| + |makes|
  {
    FirstUnknownSplit(plan, |buys|, |makes|);
    FirstUnknownInSecond(plan, |buys|, |makes|);
    match Assign(buys, Buy, plan)
    case Failure(e) => Failure(e)
    case Success(first) =>
      match Assign(makes, Produce, plan[|buys|..])
      case Failure(e) => Failure(e)
      case Success(second) => Success(first + second)
  }

  /** `crear_plan_produccion`. It raises when the plan is shorter than the
      total requirement, then at the first plan entry outside the agent map;
      otherwise it yields one order per required unit (see `PlanShape`). */
  function CompilePlan(p: Process, plan: seq<int>): (r: Result<seq<Order>, Error>)
    requires Classified(p.reqs, p.classes)
    ensures r == Failure(PlanTooShort) <==> |plan| < TotalRequired(p.reqs)
    ensures r.Success? <==> |plan| >= TotalRequired(p.reqs) && FirstUnknown(plan, TotalRequired(p.reqs)) == TotalRequired(p.reqs)
    ensures r.Failure? && |plan| >= TotalRequired(p.reqs) ==>
      FirstUnknown(plan, TotalRequired(p.reqs)) < TotalRequired(p.reqs)
      && r.error == UnknownAgentIndex(plan[FirstUnknown(plan, TotalRequired(p.reqs))])
    ensures r.Success? ==> |r.value| == TotalRequired(p.reqs)
  {
    if |plan| < TotalRequired(p.reqs) then Failure(PlanTooShort)
    else
      PhaseLengths(p.reqs, p.classes);
      AssignPhases(PhaseGoods(p.reqs, p.classes, true), PhaseGoods(p.reqs, p.classes, false), plan)
  }

  /** A compiled plan as the two phase loops leave it. */
  lemma CompiledParts(p: Process, plan: seq<int>) returns (buys: seq<Good>, makes: seq<Good>)
    requires Classified(p.reqs, p.classes) && CompilePlan(p, plan).Success?
    ensures buys == PhaseGoods(p.reqs, p.classes, true) && makes == PhaseGoods(p.reqs, p.classes, false)
    ensures |buys| + |makes| == |CompilePlan(p, plan).value| <= |plan|
    ensures forall i :: 0 <= i < |buys| ==>
      AgentOf(plan[i]).Some? && CompilePlan(p, plan).value[i] == Order(buys[i], Buy, AgentOf(plan[i]).value)
    ensures forall i :: |buys| <= i < |buys| + |makes| ==>
      AgentOf(plan[i]).Some? && CompilePlan(p, plan).value[i] == Order(makes[i - |buys|], Produce, AgentOf(plan[i]).value)
  {
    buys := PhaseGoods(p.reqs, p.classes, true);
    makes := PhaseGoods(p.reqs, p.classes, false);
    PhaseLengths(p.reqs, p.classes);
    FirstUnknownSplit(plan, |buys|, |makes|);
    assert CompilePlan(p, plan) == AssignPhases(buys, makes, plan);
    var first := Assign(buys, Buy, plan).value;
    var second := Assign(makes, Produce, plan[|buys|..]).value;
    assert AssignPhases(buys, makes, plan).value == first + second;
    AssignedConcat(buys, makes, plan, first, second);
  }

  /** Index bookkeeping for `CompiledParts`: the production orders follow the
      purchases and take their agents from the rest of the plan. */
  lemma AssignedConcat(buys: seq<Good>, makes: seq<Good>, plan: seq<int>, first: seq<Order>, second: seq<Order>)
    requires |buys| + |makes| <= |plan|
    requires Assigned(buys, Buy, plan, first)
    requires Assigned(makes, Produce, plan[|buys|..], second)
    ensures forall i :: 0 <= i < |buys| ==>
      AgentOf(plan[i]).Some? && (first + second)[i] == Order(buys[i], Buy, AgentOf(plan[i]).value)
    ensures forall i :: |buys| <= i < |buys| + |makes| ==>
      AgentOf(plan[i]).Some? && (first + second)[i] == Order(makes[i - |buys|], Produce, AgentOf(plan[i]).value)
  {
    forall i | |buys| <= i < |buys| + |makes|
      ensures AgentOf(plan[i]).Some? && (first + second)[i] == Order(makes[i - |buys|], Produce, AgentOf(plan[i]).value)
    {
      assert plan[|buys|..][i - |buys|] == plan[i];
    }
  }

  /** The shape of a compiled plan: every order is a purchase of a primary
      good or a production of an intermediate or final good, all purchases
      come before all productions, and the i-th order goes to the agent
      named by `plan[i]`. */
  lemma PlanShape(p: Process, plan: seq<int>)
    requires Classified(p.reqs, p.classes) && CompilePlan(p, plan).Success?
    ensures forall i :: 0 <= i < |CompilePlan(p, plan).value| ==> AgentOf(plan[i]) == Some(CompilePlan(p, plan).value[i].agent)
    ensures forall i :: 0 <= i < |CompilePlan(p, plan).value| ==>
      var o := CompilePlan(p, plan).value[i];
      && o.good in p.classes
      && (o.action == Buy || o.action == Produce)
      && (o.action == Buy <==> p.classes[o.good] == Primary)
    ensures forall i, j :: 0 <= i < j < |CompilePlan(p, plan).value| && CompilePlan(p, plan).value[j].action == Buy ==>
      CompilePlan(p, plan).value[i].action == Buy
  {
    var buys, makes := CompiledParts(p, plan);
    var orders := CompilePlan(p, plan).value;
    forall i | 0 <= i < |orders|
      ensures orders[i].good in p.classes && (orders[i].action == Buy <==> p.classes[orders[i].good] == Primary)
      ensures orders[i].action == Buy <==> i < |buys|
    {
      if i < |buys| {
        assert buys[i] in buys;
      } else {
        assert makes[i - |buys|] in makes;
      }
    }
  }

  /** The goods of a compiled plan: the purchase phase, then the production
      phase. */
  lemma CompiledGoods(p: Process, plan: seq<int>)
    requires Classified(p.reqs, p.classes) && CompilePlan(p, plan).Success?
    ensures GoodsOf(CompilePlan(p, plan).value) == PhaseGoods(p.reqs, p.classes, true) + PhaseGoods(p.reqs, p.classes, false)
  {
    var buys := PhaseGoods(p.reqs, p.classes, true);
    var makes := PhaseGoods(p.reqs, p.classes, false);
    PhaseLengths(p.reqs, p.classes);
    assert CompilePlan(p, plan) == AssignPhases(buys, makes, plan);
    FirstUnknownSplit(plan, |buys|, |makes|);
    var first := Assign(buys, Buy, plan).value;
    var second := Assign(makes, Produce, plan[|buys|..]).value;
    assert AssignPhases(buys, makes, plan).value == first + second;
    AssignedGoods(buys, Buy, plan, first);
    AssignedGoods(makes, Produce, plan[|buys|..], second);
    GoodsOfConcat(first, second);
  }

  lemma AssignedGoods(goods: seq<Good>, action: Action, plan: seq<int>, orders: seq<Order>)
    requires |goods| <= |plan| && Assigned(goods, action, plan, orders)
    ensures GoodsOf(orders) == goods
  {
    assert forall i :: 0 <= i < |goods| ==> GoodsOf(orders)[i] == goods[i];
  }

  lemma GoodsOfCons(orders: seq<Order>)
    requires orders != []
    ensures GoodsOf(orders) == [orders[0].good] + GoodsOf(orders[1..])
  {
    assert forall i :: 0 <= i < |orders| ==> GoodsOf(orders)[i] == ([orders[0].good] + GoodsOf(orders[1..]))[i];
  }

  lemma GoodsOfConcat(a: seq<Order>, b: seq<Order>)
    ensures GoodsOf(a + b) == GoodsOf(a) + GoodsOf(b)
  {
    assert forall i :: 0 <= i < |a| + |b| ==> GoodsOf(a + b)[i] == (GoodsOf(a) + GoodsOf(b))[i];
  }

  /** Each good occurs in a compiled plan exactly as often as its required
      quantity (the keys being distinct, as `RequiredQuantities` ensures). */
  lemma PlanCounts(p: Process, plan: seq<int>, g: Good)
    requires Classified(p.reqs, p.classes) && CompilePlan(p, plan).Success?
    requires NoDuplicates(Keys(p.reqs))
    ensures Count(GoodsOf(CompilePlan(p, plan).value), g) == QuantityOf(p.reqs, g)
  {
    var buys := PhaseGoods(p.reqs, p.classes, true);
    var makes := PhaseGoods(p.reqs, p.classes, false);
    CompiledGoods(p, plan);
    CountConcat(buys, makes, g);
    PhaseCount(p.reqs, p.classes, true, g);
    PhaseCount(p.reqs, p.classes, false, g);
    if g !in Keys(p.reqs) {
      QuantityAbsent(p.reqs, g);
    }
  }

  /** Index of the last order with the given action, if any. */
  function LastIndexOf(orders: seq<Order>, action: Action): (r: Option<nat>)
    ensures r.None? <==> forall i :: 0 <= i < |orders| ==> orders[i].action != action
    ensures r.Some? ==> r.value < |orders| && orders[r.value].action == action
    ensures r.Some? ==> forall j :: r.value < j < |orders| ==> orders[j].action != action
  {
    if orders == [] then None
    else if orders[|orders| - 1].action == action then Some(|orders| - 1)
    else LastIndexOf(orders[..|orders| - 1], action)
  }

  /** `cortar_lista`: cut at the last order with the given action and return
      the part up to and including it, or the part after it; with no such
      order, the whole list either way. */
  function CutList(orders: seq<Order>, action: Action, firstPart: bool): (r: seq<Order>)
    ensures (forall i :: 0 <= i < |orders| ==> orders[i].action != action) ==> r == orders
    ensures (exists i :: 0 <= i < |orders| && orders[i].action == action) && firstPart ==>
      r <= orders && |r| > 0 && r[|r| - 1].action == action &&
      forall k :: |r| <= k < |orders| ==> orders[k].action != action
    ensures (exists i :: 0 <= i < |orders| && orders[i].action == action) && !firstPart ==>
      |r| < |orders| && r == orders[|orders| - |r|..] && orders[|orders| - |r| - 1].action == action &&
      forall k :: 0 <= k < |r| ==> r[k].action != action
  {
    match LastIndexOf(orders, action)
    case None => orders
    case Some(i) => if firstPart then orders[..i + 1] else orders[i + 1..]
  }

  /** When the action occurs, the two parts put back together give the list. */
  lemma CutListSplits(orders: seq<Order>, action: Action)
    requires exists i :: 0 <= i < |orders| && orders[i].action == action
    ensures CutList(orders, action, true) + CutList(orders, action, false) == orders
  {
    var i := LastIndexOf(orders, action).value;
    assert orders[..i + 1] + orders[i + 1..] == orders;
  }
}
