/** The economy layer's goods and inventories: units with a price and a
    last cost, kept in per-type lists. */
module Economy {
  import opened Seqs
  import KeyedStock

  /** A unit of a good. `ident` stands for the object's identity, which is
      what list membership and `list.remove` compare, since the class
      defines no equality of its own. */
  datatype Good = Good(ident: nat, price: real, lastCost: real, goodType: string)

  /** `update_price`: the price becomes `newPrice`; nothing else changes. */
  function UpdatePrice(u: Good, newPrice: real): (r: Good)
    ensures r.price == newPrice
    ensures r.ident == u.ident && r.lastCost == u.lastCost && r.goodType == u.goodType
  {
    u.(price := newPrice)
  }

  /** `update_cost`: the last cost becomes `newCost`; nothing else changes. */
  function UpdateCost(u: Good, newCost: real): (r: Good)
    ensures r.lastCost == newCost
    ensures r.ident == u.ident && r.price == u.price && r.goodType == u.goodType
  {
    u.(lastCost := newCost)
  }

  /** Units per good type; a type without an entry reads as an empty list,
      as the source's `defaultdict(list)` does. */
  type Inventory = map<string, seq<Good>>

  /** The identities of `units`, in order. */
  function Idents(units: seq<Good>): (r: seq<nat>)
    ensures |r| == |units| && forall i :: 0 <= i < |units| ==> r[i] == units[i].ident
  {
    seq(|units|, i requires 0 <= i < |units| => units[i].ident)
  }

  lemma IdentsConcat(a: seq<Good>, b: seq<Good>)
    ensures Idents(a + b) == Idents(a) + Idents(b)
  {
    assert forall i :: 0 <= i < |a| + |b| ==> Idents(a + b)[i] == (Idents(a) + Idents(b))[i];
  }

  lemma IdentsCons(units: seq<Good>)
    requires units != []
    ensures Idents(units) == [units[0].ident] + Idents(units[1..])
  {
    assert units == [units[0]] + units[1..];
    IdentsConcat([units[0]], units[1..]);
  }

  /** `list.remove` by identity: the first unit with identity `id` goes, and
      a list without it is left alone. */
  function RemoveIdent(units: seq<Good>, id: nat): (r: seq<Good>)
    ensures id !in Idents(units) ==> r == units
    ensures id in Idents(units) ==> |r| == |units| - 1
  {
    if units == [] then []
    else
      IdentsCons(units);
      if units[0].ident == id then units[1..]
      else [units[0]] + RemoveIdent(units[1..], id)
  }

  /** The unit removed is the first one with identity `id`: the units before
      it and after it stay, in order. */
  lemma {:induction false} RemoveIdentFirst(units: seq<Good>, id: nat, k: nat)
    requires k < |units| && units[k].ident == id
    requires forall i :: 0 <= i < k ==> units[i].ident != id
    ensures RemoveIdent(units, id) == units[..k] + units[k + 1..]
  {
    if k == 0 {
      assert RemoveIdent(units, id) == units[1..];
    } else {
      assert units[0].ident != id;
      assert RemoveIdent(units, id) == [units[0]] + RemoveIdent(units[1..], id);
      forall i | 0 <= i < k - 1
        ensures units[1..][i].ident != id
      {
        assert units[1..][i] == units[i + 1];
      }
      RemoveIdentFirst(units[1..], id, k - 1);
      DropAfterHead(units, k);
    }
  }

  /** `RemoveIdentFirst` at the first index of the identity. */
  lemma RemoveIdentAtFirst(units: seq<Good>, id: nat)
    ensures id in Idents(units) ==>
      RemoveIdent(units, id) == units[..FirstIndex(Idents(units), id)] + units[FirstIndex(Idents(units), id) + 1..]
  {
    if id in Idents(units) {
      var k := FirstIndex(Idents(units), id);
      forall i | 0 <= i < k
        ensures units[i].ident != id
      {
        assert Idents(units)[..k][i] == units[i].ident;
      }
      RemoveIdentFirst(units, id, k);
    }
  }

  /** Removal takes away one occurrence of the identity, when present, and
      leaves every other identity's count alone. */
  lemma {:induction false} RemoveIdentCount(units: seq<Good>, id: nat, j: nat)
    ensures Count(Idents(RemoveIdent(units, id)), j) == Count(Idents(units), j) - (if j == id && id in Idents(units) then 1 else 0)
  {
    if units != [] {
      IdentsCons(units);
      if units[0].ident != id {
        var rest := RemoveIdent(units[1..], id);
        IdentsConcat([units[0]], rest);
        RemoveIdentCount(units[1..], id, j);
        CountConcat([units[0].ident], Idents(rest), j);
        CountConcat([units[0].ident], Idents(units[1..]), j);
      } else {
        CountConcat([units[0].ident], Idents(units[1..]), j);
      }
    }
  }

  /** `get_stock`: the units of a type, in the order they were added. */
  function GetStock(inv: Inventory, goodType: string): (r: seq<Good>)
    ensures goodType in inv ==> r == inv[goodType]
    ensures goodType !in inv ==> r == []
  {
    KeyedStock.Get(inv, goodType)
  }

  /** `add_good`: the unit goes to the end of its type's list; no other list
      changes. */
  function AddGood(inv: Inventory, u: Good): (r: Inventory)
    ensures GetStock(r, u.goodType) == GetStock(inv, u.goodType) + [u]
    ensures forall t :: t != u.goodType ==> GetStock(r, t) == GetStock(inv, t)
    ensures r.Keys == inv.Keys + {u.goodType}
  {
    KeyedStock.Append(inv, u.goodType, u)
  }

  /** `remove_good`: the first unit with the same identity leaves its type's
      list, or nothing happens to the units when there is none; no other list
      changes. The membership test reads the `defaultdict`, so the type's
      entry exists afterwards even when it holds no units. */
  function RemoveGood(inv: Inventory, u: Good): (r: Inventory)
    ensures r.Keys == inv.Keys + {u.goodType}
    ensures forall t :: t != u.goodType ==> GetStock(r, t) == GetStock(inv, t)
    ensures u.ident !in Idents(GetStock(inv, u.goodType)) ==> GetStock(r, u.goodType) == GetStock(inv, u.goodType)
    ensures u.ident in Idents(GetStock(inv, u.goodType)) ==>
      var s := GetStock(inv, u.goodType);
      var i := FirstIndex(Idents(s), u.ident);
      GetStock(r, u.goodType) == s[..i] + s[i + 1..]
  {
    RemoveIdentAtFirst(GetStock(inv, u.goodType), u.ident);
    inv[u.goodType := RemoveIdent(GetStock(inv, u.goodType), u.ident)]
  }

  /** Removing a unit just added, when no unit of the same identity was held
      before, gives back every list as it was. */
  lemma AddRemoveRoundTrip(inv: Inventory, u: Good)
    requires u.ident !in Idents(GetStock(inv, u.goodType))
    ensures forall t :: GetStock(RemoveGood(AddGood(inv, u), u), t) == GetStock(inv, t)
  {
    var s := GetStock(inv, u.goodType);
    IdentsConcat(s, [u]);
    RemoveIdentFirst(s + [u], u.ident, |s|);
    assert (s + [u])[..|s|] == s;
  }

  /** A unit added under its type is found there by identity. */
  lemma AddedIsHeld(inv: Inventory, u: Good)
    ensures u.ident in Idents(GetStock(AddGood(inv, u), u.goodType))
    ensures Count(Idents(GetStock(AddGood(inv, u), u.goodType)), u.ident) == Count(Idents(GetStock(inv, u.goodType)), u.ident) + 1
  {
    var s := GetStock(inv, u.goodType);
    IdentsConcat(s, [u]);
    assert Idents([u]) == [u.ident];
    assert Idents(s + [u])[|s|] == u.ident;
    CountConcat(Idents(s), [u.ident], u.ident);
  }
}
