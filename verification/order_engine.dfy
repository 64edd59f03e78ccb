/** `Planner`: the market seeding, the purchase and production handlers, the
    order dispatcher and plan execution, as pure state transitions. */
module OrderEngine {
  import opened Wrappers
  import opened Seqs
  import opened ProductionGraph
  import opened Quantities
  import opened PlannerTypes
  import opened AgentInventory
  import opened PlanCompiler

  /** The planner's state: one inventory per agent and the ledger. */
  datatype State = State(nct: Inventory, zf: Inventory, mkt: Inventory, ledger: seq<Entry>)

  /** The outcome of processing. The source mutates in place, so when it
      raises, every change made before the raise remains: `Failed` carries
      the state reached along with the error. */
  datatype Exec = Done(state: State) | Failed(error: Error, state: State)

  /** A planner: its production process and its current state. */
  datatype Planner = Planner(process: Process, state: State)

  function Inv(s: State, a: AgentName): Inventory {
    match a
    case NCT => s.nct
    case ZF => s.zf
    case MKT => s.mkt
  }

  function WithInv(s: State, a: AgentName, inv: Inventory): (r: State)
    ensures Inv(r, a) == inv
    ensures forall b :: b != a ==> Inv(r, b) == Inv(s, b)
    ensures r.ledger == s.ledger
    ensures Tidy(s) && NoEmptyStock(inv) ==> Tidy(r)
  {
    match a
    case NCT => s.(nct := inv)
    case ZF => s.(zf := inv)
    case MKT => s.(mkt := inv)
  }

  /** The state with `e` appended to the ledger. */
  function Log(s: State, e: Entry): (t: State)
    ensures forall a :: Inv(t, a) == Inv(s, a)
    ensures t.ledger == s.ledger + [e]
    ensures Tidy(s) ==> Tidy(t)
  {
    s.(ledger := s.ledger + [e])
  }

  /** Units of `g` held across all agents. */
  function Total(s: State, g: Good): nat {
    |Stock(Inv(s, NCT), g)| + |Stock(Inv(s, ZF), g)| + |Stock(Inv(s, MKT), g)|
  }

  /** No agent's inventory holds an empty list. */
  ghost predicate Tidy(s: State) {
    forall a :: NoEmptyStock(Inv(s, a))
  }

  function Digit(d: nat): char
    requires d < 10
  {
    "0123456789"[d]
  }

  /** Decimal rendering of a natural number, as an f-string prints it. */
  function Decimal(n: nat): string {
    if n < 10 then [Digit(n)] else Decimal(n / 10) + [Digit(n % 10)]
  }

  /** The i-th unit the market is seeded with: "unidad_<i>". */
  function SeededUnit(i: nat): Unit {
    "unidad_" + Decimal(i)
  }

  /** Every produced unit of `g` is named "unidad_<g>". */
  function ProducedUnit(g: Good): Unit {
    "unidad_" + g
  }

  /** "unidad_1" .. "unidad_<n>". */
  function SeededUnits(n: nat): (r: seq<Unit>)
    ensures |r| == n && forall i :: 0 <= i < n ==> r[i] == SeededUnit(i + 1)
  {
    seq(n, i requires 0 <= i < n => SeededUnit(i + 1))
  }

  /** `for i in range(1, n + 1): agregar_inventario(g, f"unidad_{i}")`. */
  function SeedGood(inv: Inventory, g: Good, n: nat): (r: Inventory)
    ensures Stock(r, g) == Stock(inv, g) + SeededUnits(n)
    ensures forall h :: h != g ==> Stock(r, h) == Stock(inv, h)
    ensures NoEmptyStock(inv) ==> NoEmptyStock(r)
  {
    if n == 0 then inv
    else
      assert SeededUnits(n) == SeededUnits(n - 1) + [SeededUnit(n)];
      AddUnit(SeedGood(inv, g, n - 1), g, SeededUnit(n))
  }

  /** The units the market receives of `g`: its required quantity when `g`
      is a primary good with an entry, none otherwise. */
  function Seeds(reqs: Requirements, classes: map<Good, Class>, g: Good): seq<Unit> {
    if g in Keys(reqs) && g in classes && classes[g] == Primary then SeededUnits(QuantityOf(reqs, g)) else []
  }

  /** The seeding loop of `Planner.__init__`: each primary good of the
      requirements receives its required number of units (`SeedMarketStocks`). */
  function SeedMarket(inv: Inventory, reqs: Requirements, classes: map<Good, Class>): (r: Inventory)
    requires Classified(reqs, classes)
    ensures NoEmptyStock(inv) ==> NoEmptyStock(r)
    decreases |reqs|
  {
    if reqs == [] then inv
    else
      var next := if classes[reqs[0].0] == Primary then SeedGood(inv, reqs[0].0, reqs[0].1) else inv;
      SeedMarket(next, reqs[1..], classes)
  }

  /** With distinct keys, seeding adds to each good exactly its `Seeds`. */
  lemma {:induction false} SeedMarketStocks(inv: Inventory, reqs: Requirements, classes: map<Good, Class>)
    requires Classified(reqs, classes)
    ensures NoDuplicates(Keys(reqs)) ==>
      forall g :: Stock(SeedMarket(inv, reqs, classes), g) == Stock(inv, g) + Seeds(reqs, classes, g)
    decreases |reqs|
  {
    if reqs != [] && NoDuplicates(Keys(reqs)) {
      var g0 := reqs[0].0;
      var next := if classes[g0] == Primary then SeedGood(inv, g0, reqs[0].1) else inv;
      KeysTail(reqs);
      SeedMarketStocks(next, reqs[1..], classes);
      var r := SeedMarket(inv, reqs, classes);
      assert r == SeedMarket(next, reqs[1..], classes);
      forall g
        ensures Stock(r, g) == Stock(inv, g) + Seeds(reqs, classes, g)
      {
        if g != g0 {
          assert Stock(next, g) == Stock(inv, g);
          assert QuantityOf(reqs, g) == QuantityOf(reqs[1..], g);
          assert g in Keys(reqs) <==> g in Keys(reqs[1..]);
        }
      }
    }
  }

  /** `Planner.__init__` / `reset`: the market holds "unidad_1" ..
      "unidad_<n>" of each primary good, n its required quantity; the two
      firms hold nothing; the ledger is empty. */
  function InitialState(p: Process): (s: State)
    requires Classified(p.reqs, p.classes)
    ensures s.nct == map[] && s.zf == map[] && s.ledger == []
    ensures NoDuplicates(Keys(p.reqs)) ==>
      forall g :: Stock(s.mkt, g) == if g in Keys(p.reqs) && g in p.classes && p.classes[g] == Primary then SeededUnits(QuantityOf(p.reqs, g)) else []
    ensures Tidy(s)
  {
    SeedMarketStocks(map[], p.reqs, p.classes);
    State(map[], map[], SeedMarket(map[], p.reqs, p.classes), [])
  }

  /** Roster order of `self._agentes`: NCT, ZF, MKT. */
  function Rank(a: AgentName): nat {
    match a
    case NCT => 0
    case ZF => 1
    case MKT => 2
  }

  const Roster: seq<AgentName> := [NCT, ZF, MKT]

  /** `agents` without `buyer`, order kept (the dictionary comprehension). */
  function Except(agents: seq<AgentName>, buyer: AgentName): (r: seq<AgentName>)
    requires forall i, j :: 0 <= i < j < |agents| ==> Rank(agents[i]) < Rank(agents[j])
    ensures forall a :: a in r <==> a in agents && a != buyer
    ensures forall i, j :: 0 <= i < j < |r| ==> Rank(r[i]) < Rank(r[j])
  {
    if agents == [] then []
    else if agents[0] == buyer then Except(agents[1..], buyer)
    else
      var rest := Except(agents[1..], buyer);
      assert forall a :: a in rest ==> Rank(agents[0]) < Rank(a) by {
        forall a | a in rest
          ensures Rank(agents[0]) < Rank(a)
        {
          var k :| 0 <= k < |agents[1..]| && agents[1..][k] == a;
          assert agents[k + 1] == a;
        }
      }
      [agents[0]] + rest
  }

  /** The first of `candidates` holding at least one unit of `good`. */
  function FirstHolder(s: State, good: Good, candidates: seq<AgentName>): (r: Option<AgentName>)
    requires forall i, j :: 0 <= i < j < |candidates| ==> Rank(candidates[i]) < Rank(candidates[j])
    ensures r.None? <==> forall a :: a in candidates ==> Stock(Inv(s, a), good) == []
    ensures r.Some? ==> r.value in candidates && Stock(Inv(s, r.value), good) != []
    ensures r.Some? ==> forall a :: a in candidates && Rank(a) < Rank(r.value) ==> Stock(Inv(s, a), good) == []
  {
    if candidates == [] then None
    else if Stock(Inv(s, candidates[0]), good) != [] then Some(candidates[0])
    else FirstHolder(s, good, candidates[1..])
  }

  /** Nobody but the buyer holds the good. */
  ghost predicate NoSellerFor(s: State, good: Good, buyer: AgentName) {
    forall a :: a != buyer ==> Stock(Inv(s, a), good) == []
  }

  /** The seller search of `procesar_compra`: the first agent other than the
      buyer, in roster order, holding the good. */
  function FindSeller(s: State, good: Good, buyer: AgentName): (r: Option<AgentName>)
    ensures r.None? <==> NoSellerFor(s, good, buyer)
    ensures r.Some? ==> r.value != buyer && Stock(Inv(s, r.value), good) != []
    ensures r.Some? ==> forall a :: a != buyer && Rank(a) < Rank(r.value) ==> Stock(Inv(s, a), good) == []
  {
    FirstHolder(s, good, Except(Roster, buyer))
  }

  /** `t` is `s` after the seller's front unit of `good` moved to the end of
      the buyer's list and the purchase was recorded; nothing else changed. */
  ghost predicate Transferred(s: State, t: State, good: Good, buyer: AgentName, seller: AgentName) {
    && seller != buyer
    && Stock(Inv(s, seller), good) != []
    && Stock(Inv(t, seller), good) == Stock(Inv(s, seller), good)[1..]
    && Stock(Inv(t, buyer), good) == Stock(Inv(s, buyer), good) + [Stock(Inv(s, seller), good)[0]]
    && (forall a, h :: (a != seller && a != buyer) || h != good ==> Stock(Inv(t, a), h) == Stock(Inv(s, a), h))
    && t.ledger == s.ledger + [Purchase(buyer, seller, good)]
  }

  lemma TransferConserves(s: State, t: State, good: Good, buyer: AgentName, seller: AgentName)
    requires Transferred(s, t, good, buyer, seller)
    ensures forall h :: Total(t, h) == Total(s, h)
  {
    forall h
      ensures Total(t, h) == Total(s, h)
    {
      if h == good {
        match seller
        case NCT => match buyer { case ZF => case MKT => }
        case ZF => match buyer { case NCT => case MKT => }
        case MKT => match buyer { case NCT => case ZF => }
      }
    }
  }

  /** An inventory without the front unit of `g`, removed by name as
      `eliminar_inventario` does. */
  function TakeFront(inv: Inventory, g: Good): (r: Inventory)
    requires Stock(inv, g) != []
    ensures Stock(r, g) == Stock(inv, g)[1..]
    ensures forall h :: h != g ==> Stock(r, h) == Stock(inv, h)
    ensures NoEmptyStock(inv) ==> NoEmptyStock(r)
  {
    RemoveFront(inv, g);
    RemoveUnit(inv, g, Stock(inv, g)[0]).value
  }

  /** The effect of a successful `procesar_compra`. */
  function Transfer(s: State, good: Good, buyer: AgentName, seller: AgentName): (t: State)
    requires seller != buyer && Stock(Inv(s, seller), good) != []
    ensures Transferred(s, t, good, buyer, seller)
    ensures Tidy(s) ==> Tidy(t)
  {
    var unit := Stock(Inv(s, seller), good)[0];
    var s1 := WithInv(s, seller, TakeFront(Inv(s, seller), good));
    var s2 := WithInv(s1, buyer, AddUnit(Inv(s1, buyer), good, unit));
    Log(s2, Purchase(buyer, seller, good))
  }

  /** `procesar_compra`. A non-purchase order, or a good nobody but the buyer
      holds, raises with nothing changed. Otherwise the first other agent in
      roster order holding the good gives its front unit to the buyer, one
      purchase entry is appended, and every good's total count is unchanged. */
  function ProcessBuy(s: State, o: Order): (r: Exec)
    ensures o.action != Buy ==> r == Failed(NotABuyOrder, s)
    ensures o.action == Buy && NoSellerFor(s, o.good, o.agent) ==> r == Failed(NoSeller(o.good), s)
    ensures o.action == Buy && !NoSellerFor(s, o.good, o.agent) ==>
      r.Done? && Transferred(s, r.state, o.good, o.agent, FindSeller(s, o.good, o.agent).value)
    ensures r.Done? ==> forall h :: Total(r.state, h) == Total(s, h)
    ensures s.ledger <= r.state.ledger
    ensures Tidy(s) ==> Tidy(r.state)
  {
    if o.action != Buy then Failed(NotABuyOrder, s)
    else
      match FindSeller(s, o.good, o.agent)
      case None => Failed(NoSeller(o.good), s)
      case Some(seller) =>
        var t := Transfer(s, o.good, o.agent, seller);
        TransferConserves(s, t, o.good, o.agent, seller);
        Done(t)
  }

  /** The first loop of `procesar_produccion`: each input the agent holds no
      unit of is bought, in input order, through a purchase order. */
  function BuyMissing(s: State, agent: AgentName, inputs: seq<Good>): (r: Exec)
    ensures s.ledger <= r.state.ledger
    ensures Tidy(s) ==> Tidy(r.state)
    ensures r.Failed? ==> r.error.NoSeller?
    decreases |inputs|
  {
    if inputs == [] then Done(s)
    else
      var step := if Stock(Inv(s, agent), inputs[0]) == [] then ProcessBuy(s, Order(inputs[0], Buy, agent)) else Done(s);
      match step
      case Failed(_, _) => step
      case Done(s1) => BuyMissing(s1, agent, inputs[1..])
  }

  /** The second loop of `procesar_produccion`: the front unit of each input
      is removed from the agent's inventory; an input with no units left is a
      missing key. */
  function ConsumeFronts(s: State, agent: AgentName, inputs: seq<Good>): (r: Exec)
    ensures r.state.ledger == s.ledger
    ensures Tidy(s) ==> Tidy(r.state)
    decreases |inputs|
  {
    if inputs == [] then Done(s)
    else
      var stock := Stock(Inv(s, agent), inputs[0]);
      if stock == [] then Failed(MissingInput(inputs[0]), s)
      else
        ConsumeFronts(WithInv(s, agent, TakeFront(Inv(s, agent), inputs[0])), agent, inputs[1..])
  }

  /** `procesar_produccion`: buy every missing direct input, add one unit
      named "unidad_<good>", consume the front unit of each direct input, and
      record the production. */
  function ProcessProduce(p: Process, s: State, o: Order): (r: Exec)
    ensures o.action != Produce ==> r == Failed(NotAProduceOrder, s)
    ensures o.action == Produce && o.good !in p.inputs ==> r == Failed(UnknownGood(o.good), s)
    ensures s.ledger <= r.state.ledger
    ensures Tidy(s) ==> Tidy(r.state)
  {
    if o.action != Produce then Failed(NotAProduceOrder, s)
    else if o.good !in p.inputs then Failed(UnknownGood(o.good), s)
    else
      var inputs := p.inputs[o.good];
      match BuyMissing(s, o.agent, inputs)
      case Failed(e, s1) => Failed(e, s1)
      case Done(s1) =>
        var s2 := WithInv(s1, o.agent, AddUnit(Inv(s1, o.agent), o.good, ProducedUnit(o.good)));
        match ConsumeFronts(s2, o.agent, inputs)
        case Failed(e, s3) => Failed(e, s3)
        case Done(s3) =>
          Done(Log(s3, Production(o.agent, o.good)))
  }

  /** Ledger entry `e` records order `o`. */
  predicate Records(e: Entry, o: Order) {
    match e
    case Purchase(buyer, _, good) => o.action == Buy && buyer == o.agent && good == o.good
    case Production(agent, good) => o.action == Produce && agent == o.agent && good == o.good
  }

  /** `procesar_orden`: purchases and productions go to their handlers; any
      other action raises with nothing changed. */
  function ProcessOrder(p: Process, s: State, o: Order): (r: Exec)
    ensures o.action.Unknown? ==> r == Failed(UnknownAction(o.action.tag), s)
    ensures o.action == Buy ==> r == ProcessBuy(s, o)
    ensures o.action == Produce ==> r == ProcessProduce(p, s, o)
    ensures s.ledger <= r.state.ledger
    ensures r.Done? ==> |r.state.ledger| > |s.ledger| && Records(r.state.ledger[|r.state.ledger| - 1], o)
    ensures Tidy(s) ==> Tidy(r.state)
  {
    match o.action
    case Buy => ProcessBuy(s, o)
    case Produce => ProcessProduce(p, s, o)
    case Unknown(tag) => Failed(UnknownAction(tag), s)
  }

  /** Process orders one after another, stopping at the first raise; the
      ledger only ever grows, so a failure keeps every entry recorded before. */
  function RunOrders(p: Process, s: State, orders: seq<Order>): (r: Exec)
    ensures s.ledger <= r.state.ledger
    ensures r.Done? ==> |r.state.ledger| >= |s.ledger| + |orders|
    ensures Tidy(s) ==> Tidy(r.state)
    decreases |orders|
  {
    if orders == [] then Done(s)
    else
      match ProcessOrder(p, s, orders[0])
      case Failed(e, t) => Failed(e, t)
      case Done(t) =>
        RunOrders(p, t, orders[1..])
  }

  /** `ejecutar_plan`: reset, compile the plan, cut it at the last purchase,
      run the first part and then the second. A plan that does not compile
      raises on the freshly reset state, before any entry is recorded. */
  function ExecutePlan(pl: Planner, plan: seq<int>): (r: Exec)
    requires Classified(pl.process.reqs, pl.process.classes)
    ensures CompilePlan(pl.process, plan).Failure? ==>
      r.Failed? && r.error == CompilePlan(pl.process, plan).error && r.state.ledger == []
  {
    var p := pl.process;
    var s0 := InitialState(p);
    match CompilePlan(p, plan)
    case Failure(e) => Failed(e, s0)
    case Success(orders) =>
      var part1 := CutList(orders, Buy, true);
      var part2 := CutList(orders, Buy, false);
      match RunOrders(p, s0, part1)
      case Failed(e, s1) => Failed(e, s1)
      case Done(s1) => RunOrders(p, s1, part2)
  }
}
