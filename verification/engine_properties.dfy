/** What purchases, productions and whole plans do to the planner's state. */
module EngineProperties {
  import opened Wrappers
  import opened Seqs
  import opened ProductionGraph
  import opened Quantities
  import opened PlannerTypes
  import opened AgentInventory
  import opened PlanCompiler
  import opened OrderEngine

  /** The goods of `inputs` the inventory holds no unit of, in order. */
  function MissingIn(inv: Inventory, inputs: seq<Good>): seq<Good> {
    if inputs == [] then []
    else (if Stock(inv, inputs[0]) == [] then [inputs[0]] else []) + MissingIn(inv, inputs[1..])
  }

  lemma {:induction false} MissingInSame(inv1: Inventory, inv2: Inventory, inputs: seq<Good>)
    requires forall g :: g in inputs ==> Stock(inv1, g) == Stock(inv2, g)
    ensures MissingIn(inv1, inputs) == MissingIn(inv2, inputs)
  {
    if inputs != [] {
      MissingInSame(inv1, inv2, inputs[1..]);
    }
  }

  /** `entries` are purchases of `goods`, in order, by `agent`, each from
      the seller `FindSeller` picks for that good in `s`. */
  ghost predicate PurchasesOf(s: State, entries: seq<Entry>, agent: AgentName, goods: seq<Good>) {
    && |entries| == |goods|
    && forall i :: 0 <= i < |entries| ==>
         && entries[i].Purchase? && entries[i].buyer == agent && entries[i].seller != agent && entries[i].good == goods[i]
         && FindSeller(s, goods[i], agent).Some? && entries[i].seller == FindSeller(s, goods[i], agent).value
  }

  /** `MissingIn` keeps only goods of `inputs`. */
  lemma {:induction false} MissingInSub(inv: Inventory, inputs: seq<Good>)
    ensures forall g :: g in MissingIn(inv, inputs) ==> g in inputs
  {
    if inputs != [] {
      MissingInSub(inv, inputs[1..]);
    }
  }

  /** Purchases of goods whose units are the same in `s1` as in `s` name
      the same sellers from either state. */
  lemma PurchasesSameSellers(s: State, s1: State, entries: seq<Entry>, agent: AgentName, goods: seq<Good>)
    requires PurchasesOf(s1, entries, agent, goods)
    requires forall a, g :: g in goods ==> Stock(Inv(s1, a), g) == Stock(Inv(s, a), g)
    ensures PurchasesOf(s, entries, agent, goods)
  {
    forall i | 0 <= i < |entries|
      ensures FindSeller(s, goods[i], agent) == FindSeller(s1, goods[i], agent)
    {
      assert goods[i] in goods;
      FindSellerSameStocks(s, s1, goods[i], agent);
    }
  }

  /** Units of `h` held by agents other than `a`. */
  function OthersHold(s: State, a: AgentName, h: Good): nat {
    match a
    case NCT => |Stock(Inv(s, ZF), h)| + |Stock(Inv(s, MKT), h)|
    case ZF => |Stock(Inv(s, NCT), h)| + |Stock(Inv(s, MKT), h)|
    case MKT => |Stock(Inv(s, NCT), h)| + |Stock(Inv(s, ZF), h)|
  }

  lemma TotalSplit(s: State, a: AgentName, h: Good)
    ensures Total(s, h) == |Stock(Inv(s, a), h)| + OthersHold(s, a, h)
    ensures OthersHold(s, a, h) == 0 <==> forall b :: b != a ==> Stock(Inv(s, b), h) == []
  {
  }

  /** A purchase of `g` by `buyer` took the front unit of the seller
      `FindSeller` picks in `s`; the third agent's units of `g` stayed. */
  ghost predicate SoldFront(s: State, t: State, buyer: AgentName, g: Good) {
    && FindSeller(s, g, buyer).Some?
    && var seller := FindSeller(s, g, buyer).value;
       && Stock(Inv(t, seller), g) == Stock(Inv(s, seller), g)[1..]
       && forall a :: a != buyer && a != seller ==> Stock(Inv(t, a), g) == Stock(Inv(s, a), g)
  }

  /** `FindSeller` looks only at the units of the good. */
  lemma FindSellerSameStocks(s: State, t: State, g: Good, buyer: AgentName)
    requires forall a :: Stock(Inv(t, a), g) == Stock(Inv(s, a), g)
    ensures FindSeller(t, g, buyer) == FindSeller(s, g, buyer)
  {
  }

  /** What a completed `BuyMissing` leaves: the agent holds every input, an
      input it lacked now has exactly one unit, the front unit of the seller
      `FindSeller` picks, whatever it held is untouched, no other good moved,
      totals are kept, and the ledger grew by one
      purchase per lacking input. */
  ghost predicate BoughtMissing(s: State, t: State, agent: AgentName, inputs: seq<Good>) {
    && (forall g :: g in inputs ==> Stock(Inv(t, agent), g) != [])
    && (forall g :: g in inputs && Stock(Inv(s, agent), g) == [] ==> |Stock(Inv(t, agent), g)| == 1)
    && (forall h :: Stock(Inv(s, agent), h) != [] ==> Stock(Inv(t, agent), h) == Stock(Inv(s, agent), h))
    && (forall a, h :: h !in inputs ==> Stock(Inv(t, a), h) == Stock(Inv(s, a), h))
    && (forall a, g :: a != agent && g in inputs && Stock(Inv(s, agent), g) != [] ==> Stock(Inv(t, a), g) == Stock(Inv(s, a), g))
    && (forall g :: g in inputs && Stock(Inv(s, agent), g) == [] ==>
          SoldFront(s, t, agent, g) && Stock(Inv(t, agent), g) == [Stock(Inv(s, FindSeller(s, g, agent).value), g)[0]])
    && (forall h :: Total(t, h) == Total(s, h))
    && s.ledger <= t.ledger
    && PurchasesOf(s, t.ledger[|s.ledger|..], agent, MissingIn(Inv(s, agent), inputs))
  }

  /** The purchase loop of `procesar_produccion` completes exactly when every
      (distinct) input exists somewhere; otherwise it stops on an input nobody
      holds. */
  lemma {:induction false} BuyMissingOutcome(s: State, agent: AgentName, inputs: seq<Good>)
    requires NoDuplicates(inputs)
    ensures BuyMissing(s, agent, inputs).Done? <==> forall g :: g in inputs ==> Total(s, g) > 0
    ensures BuyMissing(s, agent, inputs).Failed? ==>
      var e := BuyMissing(s, agent, inputs).error;
      e.NoSeller? && e.good in inputs && Total(s, e.good) == 0
    decreases |inputs|
  {
    if inputs != [] {
      var x := inputs[0];
      var rest := inputs[1..];
      assert NoDuplicates(rest);
      assert forall g :: g in inputs <==> g == x || g in rest;
      TotalSplit(s, agent, x);
      if Stock(Inv(s, agent), x) != [] {
        BuyMissingOutcome(s, agent, rest);
      } else if NoSellerFor(s, x, agent) {
        assert BuyMissing(s, agent, inputs) == Failed(NoSeller(x), s);
      } else {
        var b := ProcessBuy(s, Order(x, Buy, agent));
        assert b.Done? && forall h :: Total(b.state, h) == Total(s, h);
        BuyMissingOutcome(b.state, agent, rest);
        assert BuyMissing(s, agent, inputs) == BuyMissing(b.state, agent, rest);
      }
    }
  }

  /** A completed purchase loop leaves the state `BoughtMissing` describes. */
  lemma {:induction false} BuyMissingEffect(s: State, agent: AgentName, inputs: seq<Good>)
    requires NoDuplicates(inputs)
    ensures BuyMissing(s, agent, inputs).Done? ==> BoughtMissing(s, BuyMissing(s, agent, inputs).state, agent, inputs)
    decreases |inputs|
  {
    if inputs == [] {
      assert s.ledger[|s.ledger|..] == [];
    } else {
      var x := inputs[0];
      var rest := inputs[1..];
      assert NoDuplicates(rest) && x !in rest;
      if Stock(Inv(s, agent), x) != [] {
        BuyMissingEffect(s, agent, rest);
        if BuyMissing(s, agent, rest).Done? {
          BoughtAfterHeld(s, BuyMissing(s, agent, rest).state, agent, inputs);
        }
      } else if !NoSellerFor(s, x, agent) {
        var seller := FindSeller(s, x, agent).value;
        var s1 := ProcessBuy(s, Order(x, Buy, agent)).state;
        BuyMissingEffect(s1, agent, rest);
        assert BuyMissing(s, agent, inputs) == BuyMissing(s1, agent, rest);
        if BuyMissing(s1, agent, rest).Done? {
          BoughtAfterTransfer(s, s1, BuyMissing(s1, agent, rest).state, agent, inputs, seller);
        }
      }
    }
  }

  /** Inductive step of `BuyMissingEffect` when the agent holds the first input. */
  lemma BoughtAfterHeld(s: State, t: State, agent: AgentName, inputs: seq<Good>)
    requires inputs != [] && Stock(Inv(s, agent), inputs[0]) != []
    requires BoughtMissing(s, t, agent, inputs[1..])
    ensures BoughtMissing(s, t, agent, inputs)
  {
    assert forall g :: g in inputs <==> g == inputs[0] || g in inputs[1..];
    assert MissingIn(Inv(s, agent), inputs) == MissingIn(Inv(s, agent), inputs[1..]);
  }

  /** Inductive step of `BuyMissingEffect` when the first input was bought. */
  lemma BoughtAfterTransfer(s: State, s1: State, t: State, agent: AgentName, inputs: seq<Good>, seller: AgentName)
    requires inputs != [] && inputs[0] !in inputs[1..] && Stock(Inv(s, agent), inputs[0]) == []
    requires FindSeller(s, inputs[0], agent) == Some(seller)
    requires Transferred(s, s1, inputs[0], agent, seller)
    requires BoughtMissing(s1, t, agent, inputs[1..])
    ensures BoughtMissing(s, t, agent, inputs)
  {
    TransferConserves(s, s1, inputs[0], agent, seller);
    TransferredStocks(s, s1, t, agent, inputs, seller);
    TransferredSellers(s, s1, t, agent, inputs, seller);
    TransferredLedger(s, s1, t, agent, inputs, seller);
  }

  /** The seller conjuncts of `BoughtAfterTransfer`: held inputs stayed where
      they were, and each lacking input came from the seller `FindSeller`
      picks in the state before the loop. */
  lemma TransferredSellers(s: State, s1: State, t: State, agent: AgentName, inputs: seq<Good>, seller: AgentName)
    requires inputs != [] && inputs[0] !in inputs[1..] && Stock(Inv(s, agent), inputs[0]) == []
    requires FindSeller(s, inputs[0], agent) == Some(seller)
    requires Transferred(s, s1, inputs[0], agent, seller)
    requires BoughtMissing(s1, t, agent, inputs[1..])
    ensures forall a, g :: a != agent && g in inputs && Stock(Inv(s, agent), g) != [] ==> Stock(Inv(t, a), g) == Stock(Inv(s, a), g)
    ensures forall g :: g in inputs && Stock(Inv(s, agent), g) == [] ==>
      SoldFront(s, t, agent, g) && Stock(Inv(t, agent), g) == [Stock(Inv(s, FindSeller(s, g, agent).value), g)[0]]
  {
    forall g | g in inputs
      ensures Stock(Inv(s, agent), g) != [] ==> forall a :: a != agent ==> Stock(Inv(t, a), g) == Stock(Inv(s, a), g)
      ensures Stock(Inv(s, agent), g) == [] ==>
        SoldFront(s, t, agent, g) && Stock(Inv(t, agent), g) == [Stock(Inv(s, FindSeller(s, g, agent).value), g)[0]]
    {
      if g == inputs[0] {
        BoughtFirst(s, s1, t, agent, inputs, seller);
      } else {
        BoughtLater(s, s1, t, agent, inputs, seller, g);
      }
    }
  }

  /** The first input came from `seller`, and the rest of the loop left it. */
  lemma BoughtFirst(s: State, s1: State, t: State, agent: AgentName, inputs: seq<Good>, seller: AgentName)
    requires inputs != [] && inputs[0] !in inputs[1..] && Stock(Inv(s, agent), inputs[0]) == []
    requires FindSeller(s, inputs[0], agent) == Some(seller)
    requires Transferred(s, s1, inputs[0], agent, seller)
    requires forall a, h :: h !in inputs[1..] ==> Stock(Inv(t, a), h) == Stock(Inv(s1, a), h)
    ensures SoldFront(s, t, agent, inputs[0])
    ensures Stock(Inv(t, agent), inputs[0]) == [Stock(Inv(s, seller), inputs[0])[0]]
  {
    var x := inputs[0];
    forall a
      ensures Stock(Inv(t, a), x) == Stock(Inv(s1, a), x)
    {
    }
  }

  /** A later input saw the same units in `s1` as in `s`, so the loop from
      `s1` bought it from the seller `FindSeller` picks in `s`, or left it. */
  lemma BoughtLater(s: State, s1: State, t: State, agent: AgentName, inputs: seq<Good>, seller: AgentName, g: Good)
    requires inputs != [] && g in inputs && g != inputs[0]
    requires Transferred(s, s1, inputs[0], agent, seller)
    requires BoughtMissing(s1, t, agent, inputs[1..])
    ensures Stock(Inv(s, agent), g) != [] ==> forall a :: a != agent ==> Stock(Inv(t, a), g) == Stock(Inv(s, a), g)
    ensures Stock(Inv(s, agent), g) == [] ==>
      SoldFront(s, t, agent, g) && Stock(Inv(t, agent), g) == [Stock(Inv(s, FindSeller(s, g, agent).value), g)[0]]
  {
    assert g in inputs[1..];
    forall a
      ensures Stock(Inv(s1, a), g) == Stock(Inv(s, a), g)
    {
    }
    FindSellerSameStocks(s, s1, g, agent);
  }

  /** The stock conjuncts of `BoughtAfterTransfer`. */
  lemma TransferredStocks(s: State, s1: State, t: State, agent: AgentName, inputs: seq<Good>, seller: AgentName)
    requires inputs != [] && inputs[0] !in inputs[1..] && Stock(Inv(s, agent), inputs[0]) == []
    requires Transferred(s, s1, inputs[0], agent, seller)
    requires BoughtMissing(s1, t, agent, inputs[1..])
    ensures forall g :: g in inputs ==> Stock(Inv(t, agent), g) != []
    ensures forall g :: g in inputs && Stock(Inv(s, agent), g) == [] ==> |Stock(Inv(t, agent), g)| == 1
    ensures forall h :: Stock(Inv(s, agent), h) != [] ==> Stock(Inv(t, agent), h) == Stock(Inv(s, agent), h)
    ensures forall a, h :: h !in inputs ==> Stock(Inv(t, a), h) == Stock(Inv(s, a), h)
  {
    var x, rest := inputs[0], inputs[1..];
    assert |Stock(Inv(s1, agent), x)| == 1;
    assert Stock(Inv(t, agent), x) == Stock(Inv(s1, agent), x);
    forall g | g in inputs
      ensures Stock(Inv(t, agent), g) != []
      ensures Stock(Inv(s, agent), g) == [] ==> |Stock(Inv(t, agent), g)| == 1
    {
      if g != x {
        assert g in rest;
        assert Stock(Inv(s1, agent), g) == Stock(Inv(s, agent), g);
      }
    }
    forall h | Stock(Inv(s, agent), h) != []
      ensures Stock(Inv(t, agent), h) == Stock(Inv(s, agent), h)
    {
      assert h != x && Stock(Inv(s1, agent), h) == Stock(Inv(s, agent), h);
    }
    forall a, h | h !in inputs
      ensures Stock(Inv(t, a), h) == Stock(Inv(s, a), h)
    {
      assert h != x && h !in rest;
      assert Stock(Inv(s1, a), h) == Stock(Inv(s, a), h);
    }
  }

  /** The ledger conjuncts of `BoughtAfterTransfer`: the purchase of the
      first input comes before the purchases of the rest. */
  lemma TransferredLedger(s: State, s1: State, t: State, agent: AgentName, inputs: seq<Good>, seller: AgentName)
    requires inputs != [] && inputs[0] !in inputs[1..] && Stock(Inv(s, agent), inputs[0]) == []
    requires FindSeller(s, inputs[0], agent) == Some(seller)
    requires Transferred(s, s1, inputs[0], agent, seller)
    requires s1.ledger <= t.ledger
    requires PurchasesOf(s1, t.ledger[|s1.ledger|..], agent, MissingIn(Inv(s1, agent), inputs[1..]))
    ensures s.ledger <= t.ledger
    ensures PurchasesOf(s, t.ledger[|s.ledger|..], agent, MissingIn(Inv(s, agent), inputs))
  {
    var x, rest := inputs[0], inputs[1..];
    forall g | g in rest
      ensures Stock(Inv(s1, agent), g) == Stock(Inv(s, agent), g)
    {
      assert g != x;
    }
    MissingInSame(Inv(s1, agent), Inv(s, agent), rest);
    var tail := t.ledger[|s1.ledger|..];
    var later := MissingIn(Inv(s, agent), rest);
    LaterSellers(s, s1, tail, agent, inputs, seller);
    LedgerAfter(s.ledger, s1.ledger, t.ledger, Purchase(agent, seller, x));
    assert MissingIn(Inv(s, agent), inputs) == [x] + later;
    PurchasesCons(s, seller, tail, agent, x, later);
  }

  /** A ledger grown from `a + [e]` holds `e` and then the later entries. */
  lemma LedgerAfter(a: seq<Entry>, b: seq<Entry>, c: seq<Entry>, e: Entry)
    requires b == a + [e] && b <= c
    ensures a <= c && c[|a|..] == [e] + c[|b|..]
  {
  }

  /** The purchases for the inputs after the first name the same sellers
      from the state before the first purchase as from the state after it. */
  lemma LaterSellers(s: State, s1: State, tail: seq<Entry>, agent: AgentName, inputs: seq<Good>, seller: AgentName)
    requires inputs != [] && inputs[0] !in inputs[1..]
    requires Transferred(s, s1, inputs[0], agent, seller)
    requires PurchasesOf(s1, tail, agent, MissingIn(Inv(s, agent), inputs[1..]))
    ensures PurchasesOf(s, tail, agent, MissingIn(Inv(s, agent), inputs[1..]))
  {
    var later := MissingIn(Inv(s, agent), inputs[1..]);
    MissingInSub(Inv(s, agent), inputs[1..]);
    forall a, g | g in later
      ensures Stock(Inv(s1, a), g) == Stock(Inv(s, a), g)
    {
      assert g != inputs[0];
    }
    PurchasesSameSellers(s, s1, tail, agent, later);
  }

  lemma PurchasesCons(s: State, seller: AgentName, entries: seq<Entry>, agent: AgentName, g: Good, goods: seq<Good>)
    requires seller != agent && FindSeller(s, g, agent) == Some(seller)
    requires PurchasesOf(s, entries, agent, goods)
    ensures PurchasesOf(s, [Purchase(agent, seller, g)] + entries, agent, [g] + goods)
  {
    var es, gs := [Purchase(agent, seller, g)] + entries, [g] + goods;
    forall i | 0 <= i < |es|
      ensures es[i].Purchase? && es[i].buyer == agent && es[i].seller != agent && es[i].good == gs[i]
      ensures FindSeller(s, gs[i], agent).Some? && es[i].seller == FindSeller(s, gs[i], agent).value
    {
      if i > 0 {
        assert es[i] == entries[i - 1] && gs[i] == goods[i - 1];
      }
    }
  }

  /** What a completed `ConsumeFronts` leaves: each input lost its front unit,
      nothing else of the agent's changed, no other agent changed, and the
      ledger is the same. */
  ghost predicate Consumed(s: State, t: State, agent: AgentName, inputs: seq<Good>) {
    && (forall g :: g in inputs ==> Stock(Inv(s, agent), g) != [] && Stock(Inv(t, agent), g) == Stock(Inv(s, agent), g)[1..])
    && (forall h :: h !in inputs ==> Stock(Inv(t, agent), h) == Stock(Inv(s, agent), h))
    && (forall a :: a != agent ==> Inv(t, a) == Inv(s, a))
    && t.ledger == s.ledger
  }

  /** The consumption loop of `procesar_produccion` completes exactly when the
      agent holds every (distinct) input; otherwise it stops on a missing one. */
  lemma {:induction false} ConsumeFrontsEffect(s: State, agent: AgentName, inputs: seq<Good>)
    requires NoDuplicates(inputs)
    ensures ConsumeFronts(s, agent, inputs).Done? <==> forall g :: g in inputs ==> Stock(Inv(s, agent), g) != []
    ensures ConsumeFronts(s, agent, inputs).Done? ==> Consumed(s, ConsumeFronts(s, agent, inputs).state, agent, inputs)
    ensures ConsumeFronts(s, agent, inputs).Failed? ==>
      var e := ConsumeFronts(s, agent, inputs).error;
      e.MissingInput? && e.good in inputs && Stock(Inv(s, agent), e.good) == []
    decreases |inputs|
  {
    if inputs != [] {
      var x := inputs[0];
      var rest := inputs[1..];
      assert NoDuplicates(rest) && x !in rest;
      assert forall g :: g in inputs <==> g == x || g in rest;
      if Stock(Inv(s, agent), x) != [] {
        var s1 := WithInv(s, agent, TakeFront(Inv(s, agent), x));
        ConsumeFrontsEffect(s1, agent, rest);
      }
    }
  }

  /** A process built from a DAG lists each direct input once, and no good
      is its own input. */
  lemma ValidInputs(p: Process, v: Good)
    requires ValidProcess(p) && v in p.inputs
    ensures NoDuplicates(p.inputs[v]) && v !in p.inputs[v]
    ensures forall u :: u in p.inputs[v] <==> Edge(p.graph, u, v)
  {
    NoSelfLoop(p.graph, v);
  }

  /** The effect of a completed production order. */
  ghost predicate Produced(s: State, t: State, o: Order, inputs: seq<Good>) {
    && Stock(Inv(t, o.agent), o.good) == Stock(Inv(s, o.agent), o.good) + [ProducedUnit(o.good)]
    && (forall g :: g in inputs ==>
          Stock(Inv(t, o.agent), g) == if Stock(Inv(s, o.agent), g) == [] then [] else Stock(Inv(s, o.agent), g)[1..])
    && Total(t, o.good) == Total(s, o.good) + 1
    && (forall g :: g in inputs ==> Total(t, g) + 1 == Total(s, g))
    && (forall a, h :: h != o.good && h !in inputs ==> Stock(Inv(t, a), h) == Stock(Inv(s, a), h))
    && (forall a :: a != o.agent ==> Stock(Inv(t, a), o.good) == Stock(Inv(s, a), o.good))
    && (forall a, g :: a != o.agent && g in inputs && Stock(Inv(s, o.agent), g) != [] ==> Stock(Inv(t, a), g) == Stock(Inv(s, a), g))
    && (forall g :: g in inputs && Stock(Inv(s, o.agent), g) == [] ==> SoldFront(s, t, o.agent, g))
    && s.ledger <= t.ledger
    && |t.ledger| == |s.ledger| + |MissingIn(Inv(s, o.agent), inputs)| + 1
    && PurchasesOf(s, t.ledger[|s.ledger|..|t.ledger| - 1], o.agent, MissingIn(Inv(s, o.agent), inputs))
    && t.ledger[|t.ledger| - 1] == Production(o.agent, o.good)
  }

  /** `procesar_produccion` on a process built from a DAG: it completes
      exactly when every direct input exists somewhere. It then adds one unit
      of the good, uses up one unit of each input (bought first when the
      agent had none), moves nothing else, and records the purchases and
      then the production. Otherwise no seller could be found for an input
      that exists nowhere. */
  lemma ProduceEffect(p: Process, s: State, o: Order)
    requires ValidProcess(p) && o.action == Produce && o.good in p.inputs
    ensures ProcessProduce(p, s, o).Done? <==> forall g :: g in p.inputs[o.good] ==> Total(s, g) > 0
    ensures ProcessProduce(p, s, o).Done? ==> Produced(s, ProcessProduce(p, s, o).state, o, p.inputs[o.good])
    ensures ProcessProduce(p, s, o).Failed? ==>
      var e := ProcessProduce(p, s, o).error;
      e.NoSeller? && e.good in p.inputs[o.good] && Total(s, e.good) == 0
  {
    var inputs := p.inputs[o.good];
    var agent := o.agent;
    ValidInputs(p, o.good);
    BuyMissingOutcome(s, agent, inputs);
    BuyMissingEffect(s, agent, inputs);
    var b := BuyMissing(s, agent, inputs);
    if b.Done? {
      var s1 := b.state;
      var s2 := WithInv(s1, agent, AddUnit(Inv(s1, agent), o.good, ProducedUnit(o.good)));
      assert forall g :: g in inputs ==> Stock(Inv(s2, agent), g) == Stock(Inv(s1, agent), g);
      ConsumeFrontsEffect(s2, agent, inputs);
      var s3 := ConsumeFronts(s2, agent, inputs).state;
      var t := Log(s3, Production(agent, o.good));
      assert ProcessProduce(p, s, o) == Done(t);
      ProducedStocks(s, s1, s2, s3, t, o, inputs);
    }
  }

  /** The stock and ledger bookkeeping behind `ProduceEffect`. */
  lemma ProducedStocks(s: State, s1: State, s2: State, s3: State, t: State, o: Order, inputs: seq<Good>)
    requires o.good !in inputs
    requires BoughtMissing(s, s1, o.agent, inputs)
    requires s2 == WithInv(s1, o.agent, AddUnit(Inv(s1, o.agent), o.good, ProducedUnit(o.good)))
    requires Consumed(s2, s3, o.agent, inputs)
    requires t == Log(s3, Production(o.agent, o.good))
    ensures Produced(s, t, o, inputs)
  {
    ProducedInputs(s, s1, s2, s3, t, o, inputs);
    ProducedOthers(s, s1, s2, s3, t, o, inputs);
    ProducedSellers(s, s1, s2, s3, t, o, inputs);
    ProducedLedger(s, s1, s2, s3, t, o, inputs);
  }

  /** Each input lost the unit it held or was bought, so its total dropped by one. */
  lemma ProducedInputs(s: State, s1: State, s2: State, s3: State, t: State, o: Order, inputs: seq<Good>)
    requires o.good !in inputs
    requires BoughtMissing(s, s1, o.agent, inputs)
    requires s2 == WithInv(s1, o.agent, AddUnit(Inv(s1, o.agent), o.good, ProducedUnit(o.good)))
    requires Consumed(s2, s3, o.agent, inputs)
    requires t == Log(s3, Production(o.agent, o.good))
    ensures forall g :: g in inputs ==>
      Stock(Inv(t, o.agent), g) == if Stock(Inv(s, o.agent), g) == [] then [] else Stock(Inv(s, o.agent), g)[1..]
    ensures forall g :: g in inputs ==> Total(t, g) + 1 == Total(s, g)
  {
    var agent := o.agent;
    forall g | g in inputs
      ensures Stock(Inv(t, agent), g) == if Stock(Inv(s, agent), g) == [] then [] else Stock(Inv(s, agent), g)[1..]
      ensures Total(t, g) + 1 == Total(s, g)
    {
      assert g != o.good;
      assert Stock(Inv(s2, agent), g) == Stock(Inv(s1, agent), g);
      assert Stock(Inv(t, agent), g) == Stock(Inv(s1, agent), g)[1..];
      if Stock(Inv(s, agent), g) == [] {
        assert |Stock(Inv(s1, agent), g)| == 1;
      }
      TotalSplit(t, agent, g);
      TotalSplit(s1, agent, g);
      assert OthersHold(t, agent, g) == OthersHold(s1, agent, g);
    }
  }

  /** The product gained one unit; goods that are neither the product nor an
      input did not move. */
  lemma ProducedOthers(s: State, s1: State, s2: State, s3: State, t: State, o: Order, inputs: seq<Good>)
    requires o.good !in inputs
    requires BoughtMissing(s, s1, o.agent, inputs)
    requires s2 == WithInv(s1, o.agent, AddUnit(Inv(s1, o.agent), o.good, ProducedUnit(o.good)))
    requires Consumed(s2, s3, o.agent, inputs)
    requires t == Log(s3, Production(o.agent, o.good))
    ensures Stock(Inv(t, o.agent), o.good) == Stock(Inv(s, o.agent), o.good) + [ProducedUnit(o.good)]
    ensures Total(t, o.good) == Total(s, o.good) + 1
    ensures forall a, h :: h != o.good && h !in inputs ==> Stock(Inv(t, a), h) == Stock(Inv(s, a), h)
    ensures forall a :: a != o.agent ==> Stock(Inv(t, a), o.good) == Stock(Inv(s, a), o.good)
  {
    var agent := o.agent;
    assert Stock(Inv(t, agent), o.good) == Stock(Inv(s2, agent), o.good);
    TotalSplit(t, agent, o.good);
    TotalSplit(s, agent, o.good);
    forall a, h | h !in inputs
      ensures Stock(Inv(t, a), h) == Stock(Inv(s, a), h) + (if a == agent && h == o.good then [ProducedUnit(o.good)] else [])
    {
      assert Stock(Inv(s1, a), h) == Stock(Inv(s, a), h);
      assert Stock(Inv(t, a), h) == Stock(Inv(s2, a), h);
    }
    assert OthersHold(t, agent, o.good) == OthersHold(s, agent, o.good);
  }

  /** Other agents lost only the units the purchases took: a held input
      stayed with them, and a lacking one left the seller `FindSeller` picks. */
  lemma ProducedSellers(s: State, s1: State, s2: State, s3: State, t: State, o: Order, inputs: seq<Good>)
    requires BoughtMissing(s, s1, o.agent, inputs)
    requires s2 == WithInv(s1, o.agent, AddUnit(Inv(s1, o.agent), o.good, ProducedUnit(o.good)))
    requires Consumed(s2, s3, o.agent, inputs)
    requires t == Log(s3, Production(o.agent, o.good))
    ensures forall a, g :: a != o.agent && g in inputs && Stock(Inv(s, o.agent), g) != [] ==> Stock(Inv(t, a), g) == Stock(Inv(s, a), g)
    ensures forall g :: g in inputs && Stock(Inv(s, o.agent), g) == [] ==> SoldFront(s, t, o.agent, g)
  {
    forall a, g | a != o.agent
      ensures Stock(Inv(t, a), g) == Stock(Inv(s1, a), g)
    {
      assert Inv(s2, a) == Inv(s1, a);
    }
  }

  /** The ledger holds the purchases of the missing inputs, then the production. */
  lemma ProducedLedger(s: State, s1: State, s2: State, s3: State, t: State, o: Order, inputs: seq<Good>)
    requires BoughtMissing(s, s1, o.agent, inputs)
    requires s2 == WithInv(s1, o.agent, AddUnit(Inv(s1, o.agent), o.good, ProducedUnit(o.good)))
    requires Consumed(s2, s3, o.agent, inputs)
    requires t == Log(s3, Production(o.agent, o.good))
    ensures s.ledger <= t.ledger
    ensures |t.ledger| == |s.ledger| + |MissingIn(Inv(s, o.agent), inputs)| + 1
    ensures PurchasesOf(s, t.ledger[|s.ledger|..|t.ledger| - 1], o.agent, MissingIn(Inv(s, o.agent), inputs))
    ensures t.ledger[|t.ledger| - 1] == Production(o.agent, o.good)
  {
    assert t.ledger == s1.ledger + [Production(o.agent, o.good)];
    assert t.ledger[|s.ledger|..|t.ledger| - 1] == s1.ledger[|s.ledger|..];
  }
}
