# Rule-based production planner, modelled in Dafny

This project models the core of a small rule-based production simulator:

- **A production graph.** Goods are nodes. An edge `u → v` means `u` is a direct input of `v`.
  - Goods are classified as primary (no inputs), final (inputs but no outputs) or intermediate.
  - Each good's required quantity is its number of simple paths to the final good.
- **A plan compiler.** It turns an allocation vector of agent indices (`1` = NCT, `0` = ZF) into an ordered list of purchase and production orders.
- **A planner.** It seeds a market agent (MKT) with the primary goods and executes the orders against the inventories of three agents.
  - A production order first buys any direct input the agent lacks, then creates one unit of the good and uses up one unit of each input.
  - Every purchase and production is recorded in a ledger.
- **The economy layer's `Good` and `Inventory`.** Units with a price and a last cost, kept in per-type lists.

Everything is modelled as immutable data and pure functions:

- A graph is a node sequence plus an edge set.
  - The node sequence stands for the topological order `get_nodes` returns. `Topological` states that every edge points forward in it.
  - Acyclicity is stated as the existence of a ranking that every edge climbs.
- Python dictionaries whose iteration order matters are association lists.
  - The required quantities are `seq<(Good, nat)>`, with the keys in insertion order.
- The planner's mutable state is a `State` value: three inventories and the ledger.
  - An operation returns `Done(state)` or `Failed(error, state)`.
  - The source mutates in place and never rolls back, so a failure carries every change made before the raise.

The files are:

- `production_graph.dfy`: the graph maps, the classification and the selection of goods by class.
- `required_quantities.dfy`: the path count and the required-quantity map.
- `plan_compiler.dfy`: the production process, plan compilation and cutting.
- `agent_inventory.dfy`: an agent's inventory.
- `order_engine.dfy`: the planner.
- `engine_properties.dfy`: the effects of purchases and productions.
- `plan_execution.dfy`: whole-plan execution.
- `plan_success.dfy`: why every compiled plan on a well-built process runs to completion.
- `plan_witness.dfy`: a two-good chain that meets that theorem's precondition.
- `economy.dfy`: the economy layer.
- Shared helpers: `wrappers.dfy`, `seqs.dfy` and `keyed_stock.dfy`.

The main theorem, `PlanSuccess.PlanCompletes`, needs `get_nodes` to return a topological order. Intermediate goods are then produced in an order where every input is made in full before it is used. The proof keeps one invariant through the production phase: for every good, units held = units created − units used.

## Model

| member | source | states |
|---|---|---|
| ProductionGraph.DirectInputs | Rule_Based_systems/production_graph.py:35-59 | every node has an entry; `u` is listed under `v` exactly when `u → v` is an edge; no input is listed twice |
| ProductionGraph.DirectOutputs | Rule_Based_systems/production_graph.py:62-84 | every node has an entry; `v` is listed under `u` exactly when `u → v` is an edge; no output is listed twice |
| ProductionGraph.InputsOutputsDual | Rule_Based_systems/production_graph.py:50-57 | `v` is an output of `u` exactly when `u` is an input of `v` |
| ProductionGraph.GenerateDirectInputs | Rule_Based_systems/production_graph.py:47-59 | the nested loop over node pairs builds exactly the direct-input map |
| ProductionGraph.GenerateDirectOutputs | Rule_Based_systems/production_graph.py:72-84 | the nested loop over node pairs builds exactly the direct-output map |
| ProductionGraph.InputsAmong | Rule_Based_systems/production_graph.py:52-57 | the inputs found among a node list are exactly the listed goods with an edge into the good, each once |
| ProductionGraph.OutputsAmong | Rule_Based_systems/production_graph.py:77-82 | the outputs found among a node list are exactly the listed goods with an edge from the good, each once |
| ProductionGraph.ClassifyGood | Rule_Based_systems/production_graph.py:106-112 | primary iff no input; final iff inputs but no output; intermediate iff both |
| ProductionGraph.Classify | Rule_Based_systems/production_graph.py:87-114 | one class per node, primary iff no input, final iff inputs and no outputs, intermediate iff both |
| ProductionGraph.Select | Rule_Based_systems/production_graph.py:138-142 | keeps exactly the goods of the requested class, in node order, without duplicates |
| ProductionGraph.ClassificationPartition | Rule_Based_systems/production_graph.py:120-192 | primaries, intermediates and finals are disjoint, have no duplicates, cover the nodes and their sizes add up to the node count |
| ProductionGraph.ClassesMatchEdges | Rule_Based_systems/production_graph.py:163-168 | membership of each class list matches the edge conditions |
| ProductionGraph.TopologicalIsDag | Rule_Based_systems/production_graph.py:6-15 | a node order in which every edge points forward, as a topological sort gives, makes the graph acyclic |
| ProductionGraph.SelectKeepsOrder | Rule_Based_systems/production_graph.py:138-142 | two goods of the same class keep their node order in that class's list |
| ProductionGraph.Primaries | Rule_Based_systems/production_graph.py:120-142 | `get_bienes_primarios`: the primary goods in node order; no contract of its own: `Select`, `ClassesMatchEdges` and `ClassificationPartition` state its contents |
| ProductionGraph.Intermediates | Rule_Based_systems/production_graph.py:145-168 | `get_bienes_intermedios`: the intermediate goods in node order; no contract of its own: `Select`, `ClassesMatchEdges` and `ClassificationPartition` state its contents |
| ProductionGraph.Finals | Rule_Based_systems/production_graph.py:171-192 | `get_bienes_finales`: the final goods in node order; no contract of its own: `Select`, `ClassesMatchEdges` and `ClassificationPartition` state its contents |
| ProductionGraph.NoSelfLoop | Rule_Based_systems/production_graph.py:15 | an acyclic graph has no edge from a good to itself |
| Quantities.PathCount | Rule_Based_systems/production_graph.py:195-214 | the number of simple paths from `x` to `y` avoiding `visited`; no contract of its own: `PathCountSplits`, `PathCountIgnoresVisited` and `QuantityIsPathCount` state its properties |
| Quantities.PathCountIgnoresVisited | Rule_Based_systems/production_graph.py:213-214 | in a DAG, goods ranked below the start never change the simple-path count |
| Quantities.PathCountSplits | Rule_Based_systems/production_graph.py:195-214 | in a DAG the number of simple paths from `x ≠ y` is the sum over its direct outputs |
| Quantities.RequiredQuantities | Rule_Based_systems/production_graph.py:217-245 | fails exactly when there is no final good; otherwise the keys are primaries, then intermediates, then the first final good, each once, and the final good's quantity is 1 |
| Quantities.QuantityIsPathCount | Rule_Based_systems/production_graph.py:238-244 | every node's quantity is its simple-path count to the chosen final good; a node without an entry has none |
| Quantities.RequiredSplit | Rule_Based_systems/production_graph.py:233-245 | in a DAG a good's requirement equals the sum of the requirements of its direct outputs |
| Quantities.SomePrimaryNeeded | Rule_Based_systems/production_graph.py:234-244 | some primary good has a required quantity of at least one |
| AgentInventory.AddUnit | Rule_Based_systems/planner.py:24-28 | the unit goes to the end of the good's list, created if absent; nothing else changes; no list is left empty |
| AgentInventory.RemoveUnit | Rule_Based_systems/planner.py:30-36 | absent good: no change. Absent unit: `ValueError`. Otherwise the first occurrence goes and an emptied entry is deleted |
| AgentInventory.RemoveFront | Rule_Based_systems/planner.py:30-34 | removing the front unit by name succeeds and leaves the rest of the list |
| PlanCompiler.NewProcess | Rule_Based_systems/planner.py:40-62 | building a process fails exactly when there is no final good; otherwise the input and output maps have an entry for every node and no other, the classes are the graph's classification and the requirements are its required quantities, every requirement key being classified |
| PlanCompiler.FirstUnknownSplit | Rule_Based_systems/planner.py:100-124 | the first unmapped plan entry is found in the purchase part if there is one there, else in the production part |
| PlanCompiler.Assign | Rule_Based_systems/planner.py:102-111 | each good takes the agent of the next plan entry, failing at the first entry outside `{1: NCT, 0: ZF}` |
| PlanCompiler.PhaseCount | Rule_Based_systems/planner.py:100-124 | each phase lists each good of its classes exactly its required number of times |
| PlanCompiler.CompilePlan | Rule_Based_systems/planner.py:79-126 | too short iff fewer entries than the requirement sum. Succeeds iff every used entry is 0 or 1. Otherwise fails on the first bad entry. A result has one order per required unit |
| PlanCompiler.PlanShape | Rule_Based_systems/planner.py:100-124 | order `i` uses plan entry `i`'s agent; purchases are exactly the primary goods; every purchase precedes every production |
| PlanCompiler.PlanCounts | Rule_Based_systems/planner.py:100-124 | each good appears in the compiled plan exactly its required quantity of times |
| PlanCompiler.CutList | Rule_Based_systems/planner.py:129-149 | the first part is a prefix ending with a matching order and followed by none; the second part is a suffix preceded by a matching order and holding none; with no match, both are the whole list |
| PlanCompiler.CutListSplits | Rule_Based_systems/planner.py:144-146 | when the action occurs, the two parts concatenate back to the list |
| OrderEngine.SeedGood | Rule_Based_systems/planner.py:162-163 | the good gains "unidad_1" .. "unidad_n" at the end; other goods are unchanged |
| OrderEngine.SeedMarket | Rule_Based_systems/planner.py:160-163 | the seeding loop over the requirements; its own contract only keeps inventories free of empty lists: `SeedMarketStocks` states what it adds |
| OrderEngine.SeedMarketStocks | Rule_Based_systems/planner.py:160-163 | each primary good with an entry receives exactly its required quantity of seeded units; nothing else is added |
| OrderEngine.InitialState | Rule_Based_systems/planner.py:153-173 | NCT and ZF start empty, the market holds the seeded primaries, the ledger is empty |
| OrderEngine.FindSeller | Rule_Based_systems/planner.py:201-208 | no seller iff nobody but the buyer holds the good; otherwise the first other agent in roster order that holds it |
| OrderEngine.Transfer | Rule_Based_systems/planner.py:211-214 | the seller's front unit of the good moves to the end of the buyer's list and one purchase is recorded; no other agent's list and no other good changes |
| OrderEngine.ProcessBuy | Rule_Based_systems/planner.py:183-228 | a wrong action or no seller fails with the state unchanged; otherwise the seller's front unit moves to the buyer, one purchase is recorded and every good's total is kept |
| OrderEngine.TransferConserves | Rule_Based_systems/planner.py:211-214 | moving a unit between agents keeps every good's total |
| OrderEngine.ProcessProduce | Rule_Based_systems/planner.py:230-272 | a wrong action fails unchanged; a good without a direct-input entry fails unchanged; the ledger only grows |
| OrderEngine.BuyMissing | Rule_Based_systems/planner.py:252-259 | the purchase loop of a production; its own contract says only that the ledger grows and a failure is `NoSeller`: `BuyMissingOutcome` and `BuyMissingEffect` state what it does |
| OrderEngine.ConsumeFronts | Rule_Based_systems/planner.py:265-267 | the consumption loop of a production; its own contract says only that the ledger is unchanged: `ConsumeFrontsEffect` states what it does |
| OrderEngine.ProcessOrder | Rule_Based_systems/planner.py:274-292 | routes by action; an unknown action fails unchanged; a completed order appends an entry recording it |
| OrderEngine.RunOrders | Rule_Based_systems/planner.py:306-310 | the ledger only grows, by at least one entry per completed order; tidy inventories stay tidy. Stopping at the first failure is stated by `PlanExecution.RunOrdersConcat` |
| OrderEngine.ExecutePlan | Rule_Based_systems/planner.py:294-312 | a plan that does not compile fails with the compiler's error before any entry is recorded |
| EngineProperties.BuyMissingOutcome | Rule_Based_systems/planner.py:252-262 | buying the missing inputs completes iff every input exists somewhere; otherwise it fails on an input held nowhere |
| EngineProperties.BuyMissingEffect | Rule_Based_systems/planner.py:252-262 | the agent ends up holding every input; a lacking input arrives as the front unit of the seller `FindSeller` picks; other agents keep their units of inputs the agent held; totals are kept; one purchase is recorded per input it lacked, in input order, naming the seller `FindSeller` picks |
| EngineProperties.ConsumeFrontsEffect | Rule_Based_systems/planner.py:265-267 | consumption completes iff the agent holds every input; each input then loses its front unit and nothing else changes |
| EngineProperties.ValidInputs | Rule_Based_systems/planner.py:248-249 | in a process built from a DAG, a good's direct inputs are distinct, exclude the good, and are exactly its edges in |
| EngineProperties.ProduceEffect | Rule_Based_systems/planner.py:230-272 | completes iff every input exists somewhere. Then: the agent's good +1; each input −1 at the agent; a lacking input leaves the seller `FindSeller` picks, by its front unit; no other agent's units of the good or of a held input change; nothing else moves; purchases for lacking inputs are recorded before the production, each naming that seller. Otherwise: `NoSeller` for an input held nowhere |
| PlanExecution.RunOrdersConcat | Rule_Based_systems/planner.py:306-310 | running two order lists back to back equals running their concatenation |
| PlanExecution.CompiledPlanBuys | Rule_Based_systems/planner.py:100-111 | a compiled plan for a DAG contains a purchase |
| PlanExecution.ExecuteRunsCompiledPlan | Rule_Based_systems/planner.py:294-312 | for a DAG, executing a plan resets the planner and runs the compiled orders exactly once, in order |
| PlanSuccess.PlanCompletes | Rule_Based_systems/planner.py:294-312 | on a process built from a topologically enumerated graph, every plan that compiles runs to completion, and then the agents together hold one unit of the final good and no unit of any other node |
| PlanSuccess.MarketStocked | Rule_Based_systems/planner.py:160-163 | the seeded market holds, for every good, at least as many units as the purchase phase buys |
| PlanSuccess.BuysComplete | Rule_Based_systems/planner.py:183-228 | while the market holds enough units for the purchases still to come, every purchase by a firm finds a seller and no good's total changes |
| PlanSuccess.BuyPhase | Rule_Based_systems/planner.py:153-173 | from the seeded market, the purchase phase of a compiled plan completes and leaves every good's total as created: the seeded quantity for a primary good, none otherwise |
| PlanSuccess.MakesComplete | Rule_Based_systems/planner.py:230-272 | from a balanced state (units held = units created − units used, per good), every remaining production finds its inputs and the state stays balanced to the end of the phase |
| PlanSuccess.BalancedStep | Rule_Based_systems/planner.py:230-272 | a completed production of a non-primary good keeps the balance with that good added to the productions done |
| PlanSuccess.InputsAvailable | Rule_Based_systems/planner.py:252-262 | before a production runs, each of its direct inputs has a unit held by some agent, so buying the missing inputs cannot fail |
| PlanSuccess.MadeInFull | Rule_Based_systems/planner.py:100-124 | an input of a good still to be produced has already been made in full (or seeded, when primary) |
| PlanSuccess.UsedBelowRequired | Rule_Based_systems/production_graph.py:233-245 | before a production of `v`, each input of `v` has been used fewer times than its requirement |
| PlanSuccess.KeysOrder | Rule_Based_systems/production_graph.py:233-245 | an edge `u → v` from a non-primary good puts `u` before `v` among the requirement keys |
| PlanSuccess.UnitsBefore | Rule_Based_systems/planner.py:100-124 | in a phase list, every unit of a good listed before `v` comes before the first unit of `v` still to be handled |
| PlanSuccess.RequirementIsUses | Rule_Based_systems/production_graph.py:233-245 | a good's requirement, unless it is the final good, is the number of units the whole production phase uses up of it |
| PlanSuccess.FinalTotals | Rule_Based_systems/production_graph.py:241-245 | after the whole production phase, a balanced state holds one unit of the final good and no unit of any other node |
| PlanWitness.ChainSorted | Rule_Based_systems/planner.py:40-62 | the process built from the chain `a → b` meets the success theorem's precondition, with `a` its primary good and `b` its final good |
| PlanWitness.AllNctCompiles | Rule_Based_systems/planner.py:79-126 | a plan of exactly the required length that names NCT everywhere always compiles |
| PlanWitness.ChainPlanCompletes | Rule_Based_systems/planner.py:294-312 | on the chain `a → b`, the all-NCT plan runs to completion and leaves one unit of `b` and none of `a` |
| Economy.UpdatePrice | economy/economy.py:29-30 | the price becomes the new value; nothing else changes |
| Economy.UpdateCost | economy/economy.py:32-33 | the last cost becomes the new value; nothing else changes |
| Economy.AddGood | economy/economy.py:43-49 | the unit goes to the end of its type's list; no other list changes |
| Economy.RemoveGood | economy/economy.py:51-61 | the list becomes the units before and after the first unit of the same identity, or stays when there is none; no other list changes; the type's entry exists afterwards |
| Economy.RemoveIdent | economy/economy.py:60-61 | `list.remove` by identity: a list without the identity is unchanged; otherwise it is one unit shorter. Which unit leaves (the first with the identity) is stated by `RemoveIdentFirst` and `RemoveIdentAtFirst` |
| Economy.RemoveIdentAtFirst | economy/economy.py:60-61 | when the identity occurs, the list becomes the units before and after its first occurrence |
| Economy.GetStock | economy/economy.py:63-72 | a type with an entry reads its list; a type without one reads as empty, the `defaultdict` default. `AddGood` and `RemoveGood` are stated through it |
| Economy.RemoveIdentFirst | economy/economy.py:60-61 | the unit removed is the first one of that identity; the rest keep their order |
| Economy.RemoveIdentCount | economy/economy.py:60-61 | removal lowers that identity's count by one when present and leaves every other count alone |
| Economy.AddRemoveRoundTrip | economy/economy.py:43-61 | removing a freshly added unit gives back every list |
| Economy.AddedIsHeld | economy/economy.py:43-49 | an added unit is held under its type, one more time than before |

## Left out

- Cyclic graphs. `nx.topological_sort` raises on a cycle. The model states acyclicity as a precondition (`IsDag`) where a proof needs it, and otherwise works on any well-formed graph.
- `get_nodes` returns one of possibly many topological orders, as chosen by networkx. The node sequence stands for whichever order it returns.
- `nx.all_simple_paths` with source equal to target. The model counts reaching the target as one path. At the top level this only matters for the final good, which the source sets to 1 without counting paths; `QuantityIsPathCount` agrees.
- Agent names outside NCT, ZF and MKT. They are excluded by the `AgentName` type. An order for an unknown agent would raise `KeyError` inside the planner.
- `print` side messages (`cortar_lista` with no match, `eliminar_inventario` of an absent good). Only their effect, no change, is modelled.
- `Agente.__getattribute__` and the class-level id counters. They only produce messages and identifiers.
- `get_insumos` and `get_grafo`, which are plain accessors.
- Floating-point prices and costs. They are modelled as `real`; no arithmetic is done on them.
- `PriceMatrix`, the abstract `Asset`/`Agent` classes, `MarketAgent`, `Firm`, `NctFirm`, `ZfFirm` and `__repr__`. They hold no logic beyond construction.
- Aliasing of mutable `Good` objects. In the source, updating a unit's price is visible through every inventory holding that object. The model's updates return a new value. Removal compares identities (`ident`), as the source's `==` on objects does.
- `Economy.GetStock`: the `defaultdict` read also creates an empty entry. Only the returned list is modelled (`RemoveGood` does model the entry its membership test creates).
- Behaviour a reader might expect but the code does not have, for which the model follows the code:
  - Ledger entries carry no step number.
  - Purchases in the purchase phase may come from any agent other than the buyer, not only the market.
  - When several final goods exist, the first is used rather than raising.
  - There are no selection policies, pricing, validation or cost-accrual layer; units are always taken from the front of a list.
