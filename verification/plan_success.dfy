/** Why `ejecutar_plan` succeeds on a well-built process: every purchase
    finds a seller and every production finds its inputs, and the plan leaves
    exactly one unit of the final good and nothing else. */
module PlanSuccess {
  import opened Seqs
  import opened ProductionGraph
  import opened Quantities
  import opened PlannerTypes
  import opened AgentInventory
  import opened PlanCompiler
  import opened OrderEngine
  import opened EngineProperties
  import opened PlanExecution

  /** A process built from a graph whose node enumeration is topological, as
      `get_nodes` returns it. */
  ghost predicate SortedProcess(p: Process) {
    Topological(p.graph) && ValidProcess(p)
  }

  /** The goods of the production phase, in plan order. */
  function Makes(p: Process): seq<Good>
    requires Classified(p.reqs, p.classes)
  {
    PhaseGoods(p.reqs, p.classes, false)
  }

  /** Units of a good with direct outputs `outs` that the productions `done`
      used up: one per production of each output. */
  function Uses(done: seq<Good>, outs: seq<Good>): nat {
    if outs == [] then 0 else Count(done, outs[0]) + Uses(done, outs[1..])
  }

  lemma {:induction false} UsesNone(outs: seq<Good>)
    ensures Uses([], outs) == 0
  {
    if outs != [] {
      UsesNone(outs[1..]);
    }
  }

  /** One more production of `v` uses one more unit of each input of `v`. */
  lemma {:induction false} UsesSnoc(done: seq<Good>, v: Good, outs: seq<Good>)
    requires NoDuplicates(outs)
    ensures Uses(done + [v], outs) == Uses(done, outs) + if v in outs then 1 else 0
  {
    if outs != [] {
      assert NoDuplicates(outs[1..]) && outs[0] !in outs[1..];
      assert v in outs <==> v == outs[0] || v in outs[1..];
      CountSnoc(done, v, outs[0]);
      UsesSnoc(done, v, outs[1..]);
    }
  }

  /** More productions never use fewer units. */
  lemma {:induction false} UsesGrow(done: seq<Good>, more: seq<Good>, outs: seq<Good>)
    ensures Uses(done, outs) <= Uses(done + more, outs)
  {
    if outs != [] {
      CountConcat(done, more, outs[0]);
      UsesGrow(done, more, outs[1..]);
    }
  }

  /** When each output occurs in `makes` as often as it is required, `makes`
      uses up the sum of the outputs' requirements. */
  lemma {:induction false} UsesAll(reqs: Requirements, makes: seq<Good>, outs: seq<Good>)
    requires forall w :: w in outs ==> Count(makes, w) == QuantityOf(reqs, w)
    ensures Uses(makes, outs) == QuantitySum(reqs, outs)
  {
    if outs != [] {
      assert outs[0] in outs;
      UsesAll(reqs, makes, outs[1..]);
    }
  }

  /** Units of `u` created once the productions `done` ran: a primary good's
      whole requirement is seeded up front; any other good is made by its
      own productions. */
  function Made(p: Process, u: Good, done: seq<Good>): nat
    requires u in p.classes
  {
    if p.classes[u] == Primary then QuantityOf(p.reqs, u) else Count(done, u)
  }

  /** The units of every good present across the agents are the units
      created minus the units used up. */
  ghost predicate Balanced(p: Process, s: State, done: seq<Good>) {
    forall u :: u in p.graph.nodes && u in p.classes ==>
      Total(s, u) + Uses(done, OutputsOf(p.graph, u)) == Made(p, u, done)
  }

  /** Each non-primary good is produced exactly as often as it is required. */
  lemma MakesCount(p: Process, w: Good)
    requires ValidProcess(p) && w in p.classes && p.classes[w] != Primary
    ensures Count(Makes(p), w) == QuantityOf(p.reqs, w)
  {
    PhaseCount(p.reqs, p.classes, false, w);
    if w !in Keys(p.reqs) {
      QuantityAbsent(p.reqs, w);
    }
  }

  /** A good of the production phase has a requirement entry and is not primary. */
  lemma MadeGoodListed(p: Process, done: seq<Good>, rest: seq<Good>)
    requires ValidProcess(p) && done + rest == Makes(p) && rest != []
    ensures rest[0] in p.classes && p.classes[rest[0]] != Primary
    ensures rest[0] in Keys(p.reqs) && rest[0] in p.graph.nodes
  {
    var v := rest[0];
    assert v in Makes(p) by {
      assert (done + rest)[|done|] == v;
    }
    assert p.classes[v] != Primary;
    CountConcat(done, rest, v);
    assert Count(rest, v) >= 1;
    PhaseCount(p.reqs, p.classes, false, v);
  }

  /** An edge `u -> v` between goods of the production phase puts `u`'s
      requirement entry before `v`'s: intermediates are listed in node order,
      which is topological, and the final good comes last. */
  lemma KeysOrder(g: Graph, keys: seq<Good>, u: Good, v: Good)
    requires WellFormed(g) && Topological(g) && Finals(g) != []
    requires keys == Primaries(g) + Intermediates(g) + [Finals(g)[0]]
    requires Edge(g, u, v) && u !in Primaries(g) && v in keys
    ensures Before(keys, u, v)
  {
    var ps, mids, f := Primaries(g), Intermediates(g), Finals(g)[0];
    ClassesMatchEdges(g, u);
    ClassesMatchEdges(g, v);
    assert u in mids;
    if v == f {
      BeforeLast(ps, mids, u, f);
    } else {
      assert v in mids;
      IntermediatesOrder(g, u, v);
      BeforeInMiddle(ps, mids, [f], u, v);
    }
  }

  /** Intermediates are listed in node order, which is topological. */
  lemma IntermediatesOrder(g: Graph, u: Good, v: Good)
    requires WellFormed(g) && Topological(g) && Edge(g, u, v)
    requires u in Intermediates(g) && v in Intermediates(g)
    ensures Before(Intermediates(g), u, v)
  {
    var iu, iv := FirstIndex(g.nodes, u), FirstIndex(g.nodes, v);
    assert Edge(g, g.nodes[iu], g.nodes[iv]);
    SelectKeepsOrder(g.nodes, Classify(g), Intermediate, iu, iv);
  }

  /** In a phase list, all units of a good listed before `v` come before the
      first unit of `v` still to be handled. */
  lemma {:induction false} UnitsBefore(reqs: Requirements, classes: map<Good, Class>, buying: bool, u: Good, v: Good, done: seq<Good>, rest: seq<Good>)
    requires Classified(reqs, classes) && NoDuplicates(Keys(reqs))
    requires Before(Keys(reqs), u, v)
    requires done + rest == PhaseGoods(reqs, classes, buying) && rest != [] && rest[0] == v
    ensures Count(done, u) == Count(PhaseGoods(reqs, classes, buying), u)
    decreases |reqs|
  {
    LaterNotFirst(reqs, u, v);
    var head, later := PhaseSplit(reqs, classes, buying, u, done, rest);
    var tail := PhaseGoods(reqs[1..], classes, buying);
    CountConcat(head, later, u);
    CountConcat(head, tail, u);
    assert Count(done, u) == Count(head, u) + Count(later, u);
    assert Count(PhaseGoods(reqs, classes, buying), u) == Count(head, u) + Count(tail, u);
    if reqs[0].0 == u {
      FirstEntryDone(reqs, classes, buying, later, rest);
    } else {
      BeforeInRest(reqs, u, v);
      UnitsBefore(reqs[1..], classes, buying, u, v, later, rest);
    }
  }

  /** A good listed after another is not the first entry. */
  lemma LaterNotFirst(reqs: Requirements, u: Good, v: Good)
    requires NoDuplicates(Keys(reqs)) && Before(Keys(reqs), u, v)
    ensures reqs != [] && reqs[0].0 != v
  {
    var i, j :| 0 <= i < j < |Keys(reqs)| && Keys(reqs)[i] == u && Keys(reqs)[j] == v;
    assert Keys(reqs)[0] == reqs[0].0;
  }

  /** An order between keys that does not start at the first entry holds
      in the rest of the list, whose keys stay distinct. */
  lemma BeforeInRest(reqs: Requirements, u: Good, v: Good)
    requires NoDuplicates(Keys(reqs)) && Before(Keys(reqs), u, v) && reqs != [] && reqs[0].0 != u
    ensures Before(Keys(reqs[1..]), u, v) && NoDuplicates(Keys(reqs[1..]))
  {
    KeysTail(reqs);
    assert Keys(reqs[1..]) == Keys(reqs)[1..];
    BeforeTail(Keys(reqs), u, v);
  }

  /** Keys are distinct, so the first entry's good has no unit in the rest
      of a phase list. */
  lemma FirstEntryDone(reqs: Requirements, classes: map<Good, Class>, buying: bool, later: seq<Good>, rest: seq<Good>)
    requires Classified(reqs, classes) && NoDuplicates(Keys(reqs)) && reqs != []
    requires later + rest == PhaseGoods(reqs[1..], classes, buying)
    ensures Count(later, reqs[0].0) == 0 && Count(PhaseGoods(reqs[1..], classes, buying), reqs[0].0) == 0
  {
    KeysTail(reqs);
    PhaseCount(reqs[1..], classes, buying, reqs[0].0);
    CountConcat(later, rest, reqs[0].0);
  }

  /** The step of `UnitsBefore`: when the next good to handle is not the
      first entry's, the handled goods are the first entry's units followed
      by a prefix of the rest's phase list. */
  lemma PhaseSplit(reqs: Requirements, classes: map<Good, Class>, buying: bool, x: Good, done: seq<Good>, rest: seq<Good>)
    returns (head: seq<Good>, later: seq<Good>)
    requires Classified(reqs, classes) && reqs != []
    requires done + rest == PhaseGoods(reqs, classes, buying) && rest != [] && rest[0] != reqs[0].0
    ensures Classified(reqs[1..], classes)
    ensures PhaseGoods(reqs, classes, buying) == head + PhaseGoods(reqs[1..], classes, buying)
    ensures done == head + later && later + rest == PhaseGoods(reqs[1..], classes, buying)
    ensures x != reqs[0].0 ==> Count(head, x) == 0
  {
    head := PhaseHead(reqs, classes, buying, x);
    var tail := PhaseGoods(reqs[1..], classes, buying);
    PrefixPastHead(head, tail, done, rest);
    SplitAfterHead(head, tail, done, rest);
    later := done[|head|..];
  }

  /** A phase list opens with the units of its first entry, if that entry
      belongs to the phase. */
  lemma PhaseHead(reqs: Requirements, classes: map<Good, Class>, buying: bool, x: Good) returns (head: seq<Good>)
    requires Classified(reqs, classes) && reqs != []
    ensures Classified(reqs[1..], classes)
    ensures PhaseGoods(reqs, classes, buying) == head + PhaseGoods(reqs[1..], classes, buying)
    ensures forall m :: 0 <= m < |head| ==> head[m] == reqs[0].0
    ensures x != reqs[0].0 ==> Count(head, x) == 0
  {
    var k0 := reqs[0].0;
    if InPhase(classes[k0], buying) {
      head := Repeat(k0, reqs[0].1);
      CountRepeat(k0, reqs[0].1, x);
    } else {
      head := [];
    }
  }

  /** A good used by a production-phase good is completely made, or seeded,
      before that production runs. */
  lemma MadeInFull(p: Process, done: seq<Good>, rest: seq<Good>, u: Good)
    requires SortedProcess(p) && done + rest == Makes(p) && rest != []
    requires Edge(p.graph, u, rest[0]) && u in p.classes
    ensures Made(p, u, done) == QuantityOf(p.reqs, u)
  {
    if p.classes[u] != Primary {
      MadeGoodListed(p, done, rest);
      ProcessParts(p);
      KeysOrder(p.graph, Keys(p.reqs), u, rest[0]);
      UnitsBefore(p.reqs, p.classes, false, u, rest[0], done, rest);
      MakesCount(p, u);
    }
  }

  /** What a process built from a DAG is made of. */
  lemma ProcessParts(p: Process)
    requires ValidProcess(p)
    ensures WellFormed(p.graph) && RequiredQuantities(p.graph).Success?
    ensures p.reqs == RequiredQuantities(p.graph).value && p.classes == Classify(p.graph)
    ensures p.inputs == DirectInputs(p.graph)
    ensures Classified(p.reqs, p.classes) && NoDuplicates(Keys(p.reqs))
  {
  }

  /** The two facts about a valid process's tables that the purchase phase
      needs, without the rest of `ProcessParts`. */
  lemma ProcessTables(p: Process)
    requires ValidProcess(p)
    ensures Classified(p.reqs, p.classes) && NoDuplicates(Keys(p.reqs))
  {
    ProcessParts(p);
  }

  /** Before a production of `v`, fewer units of each input of `v` have
      been used up than the input's requirement. */
  lemma UsedBelowRequired(p: Process, done: seq<Good>, rest: seq<Good>, u: Good)
    requires ValidProcess(p) && done + rest == Makes(p) && rest != []
    requires Edge(p.graph, u, rest[0])
    ensures Uses(done, OutputsOf(p.graph, u)) < QuantityOf(p.reqs, u)
  {
    var g := p.graph;
    assert u in g.nodes;
    ClassesMatchEdges(g, u);
    ClassesMatchEdges(g, Finals(g)[0]);
    RequirementIsUses(p, u);
    UsesBeforeRest(done, rest, OutputsOf(g, u));
  }

  /** The requirement of a good other than the final one is what the whole
      production phase uses up of it. */
  lemma RequirementIsUses(p: Process, u: Good)
    requires ValidProcess(p) && u in p.graph.nodes && u != Finals(p.graph)[0]
    ensures QuantityOf(p.reqs, u) == Uses(Makes(p), OutputsOf(p.graph, u))
  {
    var g := p.graph;
    var outs := OutputsOf(g, u);
    RequiredSplit(g, u);
    forall w | w in outs
      ensures Count(Makes(p), w) == QuantityOf(p.reqs, w)
    {
      assert Edge(g, u, w);
      MakesCount(p, w);
    }
    UsesAll(p.reqs, Makes(p), outs);
  }

  /** The first production still to run uses a unit of each of its inputs. */
  lemma UsesBeforeRest(done: seq<Good>, rest: seq<Good>, outs: seq<Good>)
    requires rest != [] && rest[0] in outs && NoDuplicates(outs)
    ensures Uses(done, outs) < Uses(done + rest, outs)
  {
    var v := rest[0];
    UsesSnoc(done, v, outs);
    assert done + rest == done + [v] + rest[1..];
    UsesGrow(done + [v], rest[1..], outs);
  }

  /** Before a production of `v`, some unit of each input of `v` exists. */
  lemma InputsAvailable(p: Process, s: State, done: seq<Good>, rest: seq<Good>, u: Good)
    requires SortedProcess(p) && done + rest == Makes(p) && rest != []
    requires Balanced(p, s, done)
    requires Edge(p.graph, u, rest[0])
    ensures Total(s, u) > 0
  {
    assert u in p.graph.nodes && u in p.classes;
    MadeInFull(p, done, rest, u);
    UsedBelowRequired(p, done, rest, u);
  }

  /** A production of a non-primary good `v` keeps the balance, with `v`
      added to the productions done. */
  lemma BalancedStep(p: Process, s: State, t: State, o: Order, done: seq<Good>)
    requires ValidProcess(p) && o.good in p.inputs && o.good in p.classes && p.classes[o.good] != Primary
    requires Produced(s, t, o, p.inputs[o.good])
    requires Balanced(p, s, done)
    ensures Balanced(p, t, done + [o.good])
  {
    ProducedTotals(s, t, o, p.inputs[o.good]);
    forall u | u in p.graph.nodes && u in p.classes
      ensures Total(t, u) + Uses(done + [o.good], OutputsOf(p.graph, u)) == Made(p, u, done + [o.good])
    {
      BalancedAt(p, s, t, o, done, u);
    }
  }

  /** How a production moves the totals: one more of the good, one less of
      each input, and the same of everything else. */
  ghost predicate TotalsMoved(s: State, t: State, v: Good, inputs: seq<Good>) {
    && Total(t, v) == Total(s, v) + 1
    && (forall g :: g in inputs ==> Total(t, g) + 1 == Total(s, g))
    && (forall h :: h != v && h !in inputs ==> Total(t, h) == Total(s, h))
  }

  lemma ProducedTotals(s: State, t: State, o: Order, inputs: seq<Good>)
    requires Produced(s, t, o, inputs)
    ensures TotalsMoved(s, t, o.good, inputs)
  {
    forall h | h != o.good && h !in inputs
      ensures Total(t, h) == Total(s, h)
    {
      SameTotal(s, t, h);
    }
  }

  /** `BalancedStep` for one good `u`. */
  lemma BalancedAt(p: Process, s: State, t: State, o: Order, done: seq<Good>, u: Good)
    requires ValidProcess(p) && o.good in p.inputs && o.good in p.classes && p.classes[o.good] != Primary
    requires TotalsMoved(s, t, o.good, p.inputs[o.good])
    requires u in p.graph.nodes && u in p.classes
    requires Total(s, u) + Uses(done, OutputsOf(p.graph, u)) == Made(p, u, done)
    ensures Total(t, u) + Uses(done + [o.good], OutputsOf(p.graph, u)) == Made(p, u, done + [o.good])
  {
    var g, v := p.graph, o.good;
    NoSelfLoop(g, v);
    var outs := OutputsOf(g, u);
    UsesSnoc(done, v, outs);
    CountSnoc(done, v, u);
    assert v in outs <==> u in p.inputs[v];
  }

  /** A good whose units did not move keeps its total. */
  lemma SameTotal(s: State, t: State, h: Good)
    requires forall a :: Stock(Inv(t, a), h) == Stock(Inv(s, a), h)
    ensures Total(t, h) == Total(s, h)
  {
    assert Stock(Inv(t, NCT), h) == Stock(Inv(s, NCT), h);
    assert Stock(Inv(t, ZF), h) == Stock(Inv(s, ZF), h);
    assert Stock(Inv(t, MKT), h) == Stock(Inv(s, MKT), h);
  }

  /** The market holds at least as many units of each good as purchases of
      it remain once `done` is bought. */
  ghost predicate Stocked(s: State, done: seq<Good>, buys: seq<Good>) {
    forall h :: |Stock(Inv(s, MKT), h)| + Count(done, h) >= Count(buys, h)
  }

  /** A completed first order hands its state to the rest of the list. */
  lemma RunOrdersStep(p: Process, s: State, orders: seq<Order>)
    requires orders != [] && ProcessOrder(p, s, orders[0]).Done?
    ensures RunOrders(p, s, orders) == RunOrders(p, ProcessOrder(p, s, orders[0]).state, orders[1..])
  {
  }

  /** The purchase phase. While the market is stocked, every purchase by a
      firm finds a seller, and every good keeps its total. */
  lemma {:induction false} BuysComplete(p: Process, s: State, orders: seq<Order>, done: seq<Good>, buys: seq<Good>)
    requires forall i :: 0 <= i < |orders| ==> orders[i].action == Buy && orders[i].agent != MKT
    requires done + GoodsOf(orders) == buys
    requires Stocked(s, done, buys)
    ensures RunOrders(p, s, orders).Done?
    ensures forall h :: Total(RunOrders(p, s, orders).state, h) == Total(s, h)
    decreases |orders|
  {
    if orders != [] {
      var o := orders[0];
      GoodsOfCons(orders);
      ConsAssoc(done, o.good, GoodsOf(orders[1..]));
      BuyStep(s, o, done, GoodsOf(orders[1..]), buys);
      var t := ProcessBuy(s, o).state;
      BuysComplete(p, t, orders[1..], done + [o.good], buys);
      RunOrdersStep(p, s, orders);
    }
  }

  /** One purchase of the phase: it completes, keeps every total, and keeps
      the market stocked for the purchases after it. */
  lemma BuyStep(s: State, o: Order, done: seq<Good>, later: seq<Good>, buys: seq<Good>)
    requires o.action == Buy && o.agent != MKT
    requires done + ([o.good] + later) == buys
    requires Stocked(s, done, buys)
    ensures ProcessBuy(s, o).Done?
    ensures forall h :: Total(ProcessBuy(s, o).state, h) == Total(s, h)
    ensures Stocked(ProcessBuy(s, o).state, done + [o.good], buys)
  {
    var v := o.good;
    assert done + [v] + later == buys;
    CountConcat(done + [v], later, v);
    CountSnoc(done, v, v);
    assert Stock(Inv(s, MKT), v) != [];
    var t := ProcessBuy(s, o).state;
    var seller := FindSeller(s, v, o.agent).value;
    forall h
      ensures |Stock(Inv(t, MKT), h)| + Count(done + [v], h) >= Count(buys, h)
    {
      CountSnoc(done, v, h);
      MarketStep(s, t, v, o.agent, seller, h);
    }
  }

  /** A purchase by a firm takes at most one unit, of the good bought, from
      the market. */
  lemma MarketStep(s: State, t: State, good: Good, buyer: AgentName, seller: AgentName, h: Good)
    requires Transferred(s, t, good, buyer, seller) && buyer != MKT
    ensures |Stock(Inv(t, MKT), h)| + (if h == good then 1 else 0) >= |Stock(Inv(s, MKT), h)|
  {
    if h != good || seller != MKT {
      assert Stock(Inv(t, MKT), h) == Stock(Inv(s, MKT), h);
    }
  }

  /** Midway through the production phase: `done` was produced, `orders`
      remain, and the state is balanced. */
  ghost predicate Producing(p: Process, s: State, orders: seq<Order>, done: seq<Good>) {
    && SortedProcess(p)
    && (forall i :: 0 <= i < |orders| ==> orders[i].action == Produce)
    && done + GoodsOf(orders) == Makes(p)
    && Balanced(p, s, done)
  }

  /** The production phase. From a balanced state, every production finds
      its inputs, and the state stays balanced up to the end. */
  lemma {:induction false} MakesComplete(p: Process, s: State, orders: seq<Order>, done: seq<Good>) returns (t: State)
    requires Producing(p, s, orders, done)
    ensures RunOrders(p, s, orders) == Done(t)
    ensures Balanced(p, t, Makes(p))
    decreases |orders|, 1
  {
    if orders == [] {
      assert done == Makes(p);
      t := s;
    } else {
      t := MakesFrom(p, s, orders, done);
    }
  }

  /** `MakesComplete` for a non-empty list: the first production, then the rest. */
  lemma {:induction false} MakesFrom(p: Process, s: State, orders: seq<Order>, done: seq<Good>) returns (t: State)
    requires orders != [] && Producing(p, s, orders, done)
    ensures RunOrders(p, s, orders) == Done(t)
    ensures Balanced(p, t, Makes(p))
    decreases |orders|, 0
  {
    var s1 := MakeStep(p, s, orders, done);
    t := MakesComplete(p, s1, orders[1..], done + [orders[0].good]);
    RunOrdersStep(p, s, orders);
  }

  /** One production of the phase: it completes and keeps the balance. */
  lemma MakeStep(p: Process, s: State, orders: seq<Order>, done: seq<Good>) returns (t: State)
    requires orders != [] && Producing(p, s, orders, done)
    ensures ProcessOrder(p, s, orders[0]) == Done(t)
    ensures Producing(p, t, orders[1..], done + [orders[0].good])
  {
    t := ProduceNext(p, s, orders, done);
    GoodsOfCons(orders);
    ConsAssoc(done, orders[0].good, GoodsOf(orders[1..]));
  }

  /** The next production finds its inputs and keeps the balance. */
  lemma ProduceNext(p: Process, s: State, orders: seq<Order>, done: seq<Good>) returns (t: State)
    requires orders != [] && Producing(p, s, orders, done)
    ensures ProcessOrder(p, s, orders[0]) == Done(t)
    ensures Balanced(p, t, done + [orders[0].good])
  {
    var o := orders[0];
    GoodsOfCons(orders);
    MadeGoodListed(p, done, GoodsOf(orders));
    NextInputsAvailable(p, s, orders, done);
    ProduceEffect(p, s, o);
    t := ProcessProduce(p, s, o).state;
    BalancedStep(p, s, t, o, done);
  }

  /** Every direct input of the next good has a unit somewhere. */
  lemma NextInputsAvailable(p: Process, s: State, orders: seq<Order>, done: seq<Good>)
    requires orders != [] && Producing(p, s, orders, done)
    ensures orders[0].good in p.inputs
    ensures forall u :: u in p.inputs[orders[0].good] ==> Total(s, u) > 0
  {
    var rest := GoodsOf(orders);
    GoodsOfCons(orders);
    MadeGoodListed(p, done, rest);
    ProcessParts(p);
    forall u | u in p.inputs[orders[0].good]
      ensures Total(s, u) > 0
    {
      InputsAvailable(p, s, done, rest, u);
    }
  }

  /** The market starts with as many units of each good as the purchase
      phase buys. */
  lemma MarketStocked(p: Process)
    requires Classified(p.reqs, p.classes) && NoDuplicates(Keys(p.reqs))
    ensures forall h :: |Stock(Inv(InitialState(p), MKT), h)| + Count([], h) >= Count(PhaseGoods(p.reqs, p.classes, true), h)
  {
    var m := InitialState(p).mkt;
    forall h
      ensures |Stock(m, h)| + Count([], h) >= Count(PhaseGoods(p.reqs, p.classes, true), h)
    {
      PhaseCount(p.reqs, p.classes, true, h);
      if h in Keys(p.reqs) && p.classes[h] == Primary {
        assert |Stock(m, h)| == QuantityOf(p.reqs, h);
      }
    }
  }

  /** Once the purchases moved units around without changing any total, the
      state is balanced with no production done. */
  lemma StartBalanced(p: Process, s: State)
    requires Classified(p.reqs, p.classes) && NoDuplicates(Keys(p.reqs))
    requires forall h :: Total(s, h) == Total(InitialState(p), h)
    ensures Balanced(p, s, [])
  {
    var s0 := InitialState(p);
    forall u | u in p.graph.nodes && u in p.classes
      ensures Total(s, u) + Uses([], OutputsOf(p.graph, u)) == Made(p, u, [])
    {
      UsesNone(OutputsOf(p.graph, u));
      assert Total(s0, u) == |Stock(s0.mkt, u)|;
      if u !in Keys(p.reqs) {
        QuantityAbsent(p.reqs, u);
      }
    }
  }

  /** A balanced state after the whole production phase holds one unit of
      the final good and none of any other good. */
  lemma FinalTotals(p: Process, s: State)
    requires ValidProcess(p) && Balanced(p, s, Makes(p))
    ensures forall u :: u in p.graph.nodes ==> Total(s, u) == if u == Finals(p.graph)[0] then 1 else 0
  {
    ProcessParts(p);
    forall u | u in p.graph.nodes
      ensures Total(s, u) == if u == Finals(p.graph)[0] then 1 else 0
    {
      FinalTotal(p, s, u);
    }
  }

  /** `FinalTotals` for one good `u`. */
  lemma FinalTotal(p: Process, s: State, u: Good)
    requires ValidProcess(p) && u in p.graph.nodes && u in p.classes
    requires Total(s, u) + Uses(Makes(p), OutputsOf(p.graph, u)) == Made(p, u, Makes(p))
    ensures Total(s, u) == if u == Finals(p.graph)[0] then 1 else 0
  {
    if u == Finals(p.graph)[0] {
      FinalMade(p);
    } else {
      IntermediateUsed(p, u);
    }
  }

  /** The final good is made once and used by nothing. */
  lemma FinalMade(p: Process)
    requires ValidProcess(p)
    ensures Finals(p.graph)[0] in p.classes
    ensures Made(p, Finals(p.graph)[0], Makes(p)) == 1
    ensures Uses(Makes(p), OutputsOf(p.graph, Finals(p.graph)[0])) == 0
  {
    var g := p.graph;
    var f := Finals(g)[0];
    ProcessParts(p);
    assert f in p.classes;
    MakesCount(p, f);
    ClassesMatchEdges(g, f);
    OutputsEmpty(g, f);
  }

  /** Every good but the final one is used as often as it is made. */
  lemma IntermediateUsed(p: Process, u: Good)
    requires ValidProcess(p) && u in p.graph.nodes && u != Finals(p.graph)[0]
    ensures u in p.classes && Made(p, u, Makes(p)) == Uses(Makes(p), OutputsOf(p.graph, u))
  {
    ProcessParts(p);
    assert u in p.classes;
    if p.classes[u] != Primary {
      MakesCount(p, u);
    }
    RequirementIsUses(p, u);
  }

  /** A compiled plan as its purchase orders, all by firms, followed by its
      production orders. */
  lemma CompiledSplit(p: Process, plan: seq<int>) returns (bo: seq<Order>, mo: seq<Order>)
    requires Classified(p.reqs, p.classes) && CompilePlan(p, plan).Success?
    ensures CompilePlan(p, plan).value == bo + mo
    ensures GoodsOf(bo) == PhaseGoods(p.reqs, p.classes, true) && GoodsOf(mo) == Makes(p)
    ensures forall i :: 0 <= i < |bo| ==> bo[i].action == Buy && bo[i].agent != MKT
    ensures forall i :: 0 <= i < |mo| ==> mo[i].action == Produce
  {
    var buys, makes := CompiledParts(p, plan);
    bo, mo := SplitOrders(CompilePlan(p, plan).value, plan, buys, makes);
  }

  /** The index bookkeeping of `CompiledSplit`, apart from the process. */
  lemma SplitOrders(orders: seq<Order>, plan: seq<int>, buys: seq<Good>, makes: seq<Good>) returns (bo: seq<Order>, mo: seq<Order>)
    requires |buys| + |makes| == |orders| <= |plan|
    requires forall i :: 0 <= i < |buys| ==>
      AgentOf(plan[i]).Some? && orders[i] == Order(buys[i], Buy, AgentOf(plan[i]).value)
    requires forall i :: |buys| <= i < |buys| + |makes| ==>
      AgentOf(plan[i]).Some? && orders[i] == Order(makes[i - |buys|], Produce, AgentOf(plan[i]).value)
    ensures orders == bo + mo && GoodsOf(bo) == buys && GoodsOf(mo) == makes
    ensures forall i :: 0 <= i < |bo| ==> bo[i].action == Buy && bo[i].agent != MKT
    ensures forall i :: 0 <= i < |mo| ==> mo[i].action == Produce
  {
    bo, mo := orders[..|buys|], orders[|buys|..];
    assert orders == bo + mo;
    forall i | 0 <= i < |bo|
      ensures bo[i].action == Buy && bo[i].agent != MKT
    {
      assert bo[i] == orders[i];
    }
    forall i | 0 <= i < |mo|
      ensures mo[i].action == Produce
    {
      assert mo[i] == orders[|buys| + i];
    }
    assert forall i :: 0 <= i < |buys| ==> GoodsOf(bo)[i] == buys[i];
    assert forall i :: 0 <= i < |makes| ==> GoodsOf(mo)[i] == makes[i];
  }

  /** `ejecutar_plan` on a process built from a graph enumerated in
      topological order: any plan that compiles runs to completion. Every
      purchase finds the market stocked and every production finds its
      inputs, and the plan leaves exactly one unit of the final good and no
      unit of any other good. */
  lemma PlanCompletes(pl: Planner, plan: seq<int>)
    requires SortedProcess(pl.process) && CompilePlan(pl.process, plan).Success?
    ensures ExecutePlan(pl, plan).Done?
    ensures forall u :: u in pl.process.graph.nodes ==>
      Total(ExecutePlan(pl, plan).state, u) == if u == Finals(pl.process.graph)[0] then 1 else 0
  {
    var s := CompiledRun(pl.process, plan);
    ExecuteRunsCompiledPlan(pl, plan);
    FinalTotals(pl.process, s);
  }

  /** The compiled plan runs through both phases and ends balanced. */
  lemma CompiledRun(p: Process, plan: seq<int>) returns (s: State)
    requires SortedProcess(p) && CompilePlan(p, plan).Success?
    ensures RunOrders(p, InitialState(p), CompilePlan(p, plan).value) == Done(s)
    ensures Balanced(p, s, Makes(p))
  {
    var s1, mo := AfterBuys(p, plan);
    s := MakesComplete(p, s1, mo, []);
  }

  /** A compiled plan of `p` split into its purchases by firms, `bo`, and its
      productions, `mo`, which make the goods of `Makes`. */
  ghost predicate SplitAt(p: Process, plan: seq<int>, bo: seq<Order>, mo: seq<Order>) {
    && Classified(p.reqs, p.classes) && NoDuplicates(Keys(p.reqs))
    && CompilePlan(p, plan).Success? && CompilePlan(p, plan).value == bo + mo
    && GoodsOf(bo) == PhaseGoods(p.reqs, p.classes, true)
    && (forall i :: 0 <= i < |bo| ==> bo[i].action == Buy && bo[i].agent != MKT)
    && [] + GoodsOf(mo) == Makes(p)
    && (forall i :: 0 <= i < |mo| ==> mo[i].action == Produce)
  }

  /** After the purchases of a compiled plan, its production orders remain,
      from a balanced state. */
  lemma AfterBuys(p: Process, plan: seq<int>) returns (s: State, mo: seq<Order>)
    requires SortedProcess(p) && CompilePlan(p, plan).Success?
    ensures RunOrders(p, InitialState(p), CompilePlan(p, plan).value) == RunOrders(p, s, mo)
    ensures Producing(p, s, mo, [])
  {
    ProcessTables(p);
    var bo;
    bo, mo := SplitPlan(p, plan);
    s := BuyPhase(p, plan, bo, mo);
    RunOrdersConcat(p, InitialState(p), bo, mo);
  }

  /** `CompiledSplit`, packaged as `SplitAt`. */
  lemma SplitPlan(p: Process, plan: seq<int>) returns (bo: seq<Order>, mo: seq<Order>)
    requires Classified(p.reqs, p.classes) && NoDuplicates(Keys(p.reqs))
    requires CompilePlan(p, plan).Success?
    ensures SplitAt(p, plan, bo, mo)
  {
    bo, mo := CompiledSplit(p, plan);
    assert [] + GoodsOf(mo) == GoodsOf(mo);
  }

  /** The purchase phase of a compiled plan completes, and leaves the state
      balanced with no production done. */
  lemma BuyPhase(p: Process, plan: seq<int>, bo: seq<Order>, mo: seq<Order>) returns (s: State)
    requires SplitAt(p, plan, bo, mo)
    ensures RunOrders(p, InitialState(p), bo) == Done(s)
    ensures Balanced(p, s, [])
  {
    var s0 := InitialState(p);
    MarketStocked(p);
    assert Stocked(s0, [], GoodsOf(bo));
    BuysComplete(p, s0, bo, [], GoodsOf(bo));
    s := RunOrders(p, s0, bo).state;
    StartBalanced(p, s);
  }
}
