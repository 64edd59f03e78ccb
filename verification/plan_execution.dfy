/** Running whole plans: `ejecutar_plan` on a process built from a DAG. */
module PlanExecution {
  import opened Wrappers
  import opened Seqs
  import opened ProductionGraph
  import opened Quantities
  import opened PlannerTypes
  import opened PlanCompiler
  import opened OrderEngine

  /** Running `a + b` runs `a` and, if it completed, `b` from where `a` left. */
  lemma {:induction false} RunOrdersConcat(p: Process, s: State, a: seq<Order>, b: seq<Order>)
    ensures RunOrders(p, s, a).Failed? ==> RunOrders(p, s, a + b) == RunOrders(p, s, a)
    ensures RunOrders(p, s, a).Done? ==> RunOrders(p, s, a + b) == RunOrders(p, RunOrders(p, s, a).state, b)
    decreases |a|
  {
    if a != [] {
      assert (a + b)[0] == a[0] && (a + b)[1..] == a[1..] + b;
      if ProcessOrder(p, s, a[0]).Done? {
        RunOrdersConcat(p, ProcessOrder(p, s, a[0]).state, a[1..], b);
      }
    } else {
      assert a + b == b;
    }
  }

  /** A plan compiled for a process built from a DAG contains a purchase. */
  lemma CompiledPlanBuys(p: Process, plan: seq<int>) returns (i: nat)
    requires ValidProcess(p) && CompilePlan(p, plan).Success?
    ensures i < |CompilePlan(p, plan).value| && CompilePlan(p, plan).value[i].action == Buy
  {
    var g := p.graph;
    var orders := CompilePlan(p, plan).value;
    SomePrimaryNeeded(g);
    var q :| q in Primaries(g) && QuantityOf(RequiredQuantities(g).value, q) >= 1;
    PlanCounts(p, plan, q);
    if q !in GoodsOf(orders) {
      CountAbsent(GoodsOf(orders), q);
    }
    i :| 0 <= i < |orders| && GoodsOf(orders)[i] == q;
    PlanShape(p, plan);
  }

  /** `ejecutar_plan` on a process built from a DAG: the planner is reset and
      the compiled orders run once, in order, whatever state the planner was
      in. Cutting at the last purchase never drops or repeats an order,
      because a compiled plan always contains a purchase. */
  lemma ExecuteRunsCompiledPlan(pl: Planner, plan: seq<int>)
    requires ValidProcess(pl.process) && CompilePlan(pl.process, plan).Success?
    ensures ExecutePlan(pl, plan) == RunOrders(pl.process, InitialState(pl.process), CompilePlan(pl.process, plan).value)
  {
    var p := pl.process;
    var orders := CompilePlan(p, plan).value;
    var i := CompiledPlanBuys(p, plan);
    CutListSplits(orders, Buy);
    RunOrdersConcat(p, InitialState(p), CutList(orders, Buy, true), CutList(orders, Buy, false));
  }
}
