/** Names, orders, ledger entries and errors of the planner. */
module PlannerTypes {
  import opened ProductionGraph

  /** The planner's roster, in the order the planner iterates it. */
  datatype AgentName = NCT | ZF | MKT

  /** An action string other than "comprar" and "producir". */
  type OtherTag = t: string | t != "comprar" && t != "producir" witness ""

  /** The action of an order: "comprar", "producir", or any other string. */
  datatype Action = Buy | Produce | Unknown(tag: OtherTag)

  /** An order `(good, action, agent)`. */
  datatype Order = Order(good: Good, action: Action, agent: AgentName)

  /** A ledger entry: `((buyer, seller), "compra", good)` or
      `((agent,), "producción", good)`; entries carry no step number. */
  datatype Entry =
    | Purchase(buyer: AgentName, seller: AgentName, good: Good)
    | Production(agent: AgentName, good: Good)

  /** The exceptions the planner can raise. */
  datatype Error =
    | NoFinalGood                          // IndexError: no final good to index
    | PlanTooShort                         // ValueError: plan shorter than the requirement
    | UnknownAgentIndex(index: int)        // KeyError: plan entry outside the agent map
    | NotABuyOrder                         // ValueError raised by procesar_compra
    | NotAProduceOrder                     // ValueError raised by procesar_produccion
    | NoSeller(good: Good)                 // ValueError: nobody else holds the good
    | UnknownAction(tag: string)           // ValueError raised by procesar_orden
    | UnknownGood(good: Good)              // KeyError: good without a direct-input entry
    | MissingInput(good: Good)             // KeyError: input absent when it is consumed
    | UnitNotInStock(good: Good, unit: string)  // ValueError raised by list.remove
}
