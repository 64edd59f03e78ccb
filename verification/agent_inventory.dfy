/** `Agente`'s inventory: a map from good to the list of units held, in
    arrival order, where a good whose list empties loses its entry. */
module AgentInventory {
  import opened Wrappers
  import opened Seqs
  import opened KeyedStock
  import opened ProductionGraph
  import opened PlannerTypes

  /** A unit is identified by its name, such as "unidad_1". */
  type Unit = string

  type Inventory = map<Good, seq<Unit>>

  /** The units of `g` held, oldest first. */
  function Stock(inv: Inventory, g: Good): seq<Unit> {
    Get(inv, g)
  }

  /** No entry holds an empty list. */
  ghost predicate NoEmptyStock(inv: Inventory) {
    forall g :: g in inv ==> inv[g] != []
  }

  /** `agregar_inventario`: the unit goes to the end of the good's list; the
      entry is created when absent; no other good changes. */
  function AddUnit(inv: Inventory, g: Good, u: Unit): (r: Inventory)
    ensures Stock(r, g) == Stock(inv, g) + [u]
    ensures forall h :: h != g ==> Stock(r, h) == Stock(inv, h)
    ensures r.Keys == inv.Keys + {g}
    ensures NoEmptyStock(inv) ==> NoEmptyStock(r)
  {
    if g in inv then inv[g := inv[g] + [u]] else inv[g := [u]]
  }

  /** `eliminar_inventario`: removes the first occurrence of the unit and drops
      the entry once it is empty. A good without an entry is left alone (the
      source only prints); a unit missing from a present list makes
      `list.remove` raise. */
  function RemoveUnit(inv: Inventory, g: Good, u: Unit): (r: Result<Inventory, Error>)
    ensures g !in inv ==> r == Success(inv)
    ensures g in inv && u !in inv[g] ==> r == Failure(UnitNotInStock(g, u))
    ensures g in inv && u in inv[g] ==> r.Success?
    ensures g in inv && u in inv[g] ==>
      Stock(r.value, g) == inv[g][..FirstIndex(inv[g], u)] + inv[g][FirstIndex(inv[g], u) + 1..]
    ensures g in inv && u in inv[g] ==> (g in r.value <==> |inv[g]| > 1)
    ensures r.Success? ==> forall h :: h != g ==> Stock(r.value, h) == Stock(inv, h)
    ensures r.Success? && NoEmptyStock(inv) ==> NoEmptyStock(r.value)
  {
    if g !in inv then Success(inv)
    else if u !in inv[g] then Failure(UnitNotInStock(g, u))
    else
      var rest := RemoveFirst(inv[g], u);
      if rest == [] then Success(inv - {g}) else Success(inv[g := rest])
  }

  /** Removing the front unit of a non-empty list always succeeds and leaves
      the rest of that list. */
  lemma RemoveFront(inv: Inventory, g: Good)
    requires Stock(inv, g) != []
    ensures RemoveUnit(inv, g, Stock(inv, g)[0]).Success?
    ensures Stock(RemoveUnit(inv, g, Stock(inv, g)[0]).value, g) == Stock(inv, g)[1..]
    ensures forall h :: h != g ==> Stock(RemoveUnit(inv, g, Stock(inv, g)[0]).value, h) == Stock(inv, h)
  {
    assert FirstIndex(inv[g], inv[g][0]) == 0;
  }
}
