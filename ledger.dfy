/** The inventory ledger, utils/updateStock.js: a per-item stock delta, floored at zero. */
module Ledger {
  import opened Models
  import opened Database

  /** A normalised line: the product id and the quantity to apply. */
  datatype StockItem = StockItem(id: Id, cantidad: int)

  datatype Operation = Increase | Decrease

  /** Only the exact text "increase" increases; any other value, the default "decrease" included, decreases. */
  function ParseOperation(operation: string := "decrease"): (op: Operation)
    ensures op == Increase <==> operation == "increase"
  {
    if operation == "increase" then Increase else Decrease
  }

  /** The stock written back: the stock moved by the quantity in the operation's direction, floored at zero. */
  function NewStock(stock: int, cantidad: int, op: Operation): (r: int)
    ensures r >= 0
    ensures var target := if op == Increase then stock + cantidad else stock - cantidad;
      (target >= 0 ==> r == target) && (target < 0 ==> r == 0)
  {
    var target := if op == Increase then stock + cantidad else stock - cantidad;
    if target >= 0 then target else 0
  }

  /** The product as one item's `save()` would write it. */
  function Updated(ps: map<Id, Product>, it: StockItem, op: Operation): Product
    requires it.id in ps
  {
    ps[it.id].(stock := NewStock(ps[it.id].stock, it.cantidad, op))
  }

  /** The catalogue after the loop: items apply in order, missing products are skipped, and the first
      save that fails validation throws, which the catch turns into the end of the loop. */
  function ApplyStock(ps: map<Id, Product>, items: seq<StockItem>, op: Operation): map<Id, Product>
    decreases |items|
  {
    if items == [] then ps
    else if items[0].id !in ps then ApplyStock(ps, items[1..], op)
    else if ProductValid(Updated(ps, items[0], op)) then ApplyStock(ps[items[0].id := Updated(ps, items[0], op)], items[1..], op)
    else ps
  }

  /** The loop reaches its end: no save along the way is rejected. */
  predicate Completes(ps: map<Id, Product>, items: seq<StockItem>, op: Operation)
    decreases |items|
  {
    if items == [] then true
    else if items[0].id !in ps then Completes(ps, items[1..], op)
    else ProductValid(Updated(ps, items[0], op)) && Completes(ps[items[0].id := Updated(ps, items[0], op)], items[1..], op)
  }

  predicate Names(items: seq<StockItem>, id: Id) {
    exists k :: 0 <= k < |items| && items[k].id == id
  }

  predicate AllValid(ps: map<Id, Product>) {
    forall id :: id in ps ==> ProductValid(ps[id])
  }

  /** Only stock changes; no product appears or disappears; a product the items do not name keeps
      its record; a product whose record changed has a non-negative stock. */
  lemma {:induction false} ApplyStockFrame(ps: map<Id, Product>, items: seq<StockItem>, op: Operation)
    ensures var r := ApplyStock(ps, items, op);
      && r.Keys == ps.Keys
      && (forall id :: id in ps ==> r[id] == ps[id].(stock := r[id].stock))
      && (forall id :: id in ps && !Names(items, id) ==> r[id] == ps[id])
      && (forall id :: id in ps && r[id] != ps[id] ==> r[id].stock >= 0)
    decreases |items|
  {
    if items != [] {
      var it := items[0];
      forall id | Names(items[1..], id) ensures Names(items, id) {
        var k :| 0 <= k < |items[1..]| && items[1..][k].id == id;
        assert items[k + 1].id == id;
      }
      assert Names(items, it.id) by { assert items[0].id == it.id; }
      if it.id !in ps {
        ApplyStockFrame(ps, items[1..], op);
      } else if ProductValid(Updated(ps, it, op)) {
        var ps' := ps[it.id := Updated(ps, it, op)];
        ApplyStockFrame(ps', items[1..], op);
      }
    }
  }

  /** Running the loop over `a + b` is running it over `a` and then over `b`, as long as `a` completes:
      a repeated id therefore accumulates its deltas. */
  lemma {:induction false} ApplyStockAppend(ps: map<Id, Product>, a: seq<StockItem>, b: seq<StockItem>, op: Operation)
    requires Completes(ps, a, op)
    ensures ApplyStock(ps, a + b, op) == ApplyStock(ApplyStock(ps, a, op), b, op)
    ensures Completes(ps, a + b, op) == Completes(ApplyStock(ps, a, op), b, op)
    decreases |a|
  {
    if a == [] {
      assert a + b == b;
    } else {
      assert (a + b)[0] == a[0];
      assert (a + b)[1..] == a[1..] + b;
      if a[0].id !in ps {
        ApplyStockAppend(ps, a[1..], b, op);
      } else {
        ApplyStockAppend(ps[a[0].id := Updated(ps, a[0], op)], a[1..], b, op);
      }
    }
  }

  /** A rejected save stops the loop: the items after it are never applied, the ones before it stay applied. */
  lemma StopKeepsEarlierItems(ps: map<Id, Product>, a: seq<StockItem>, it: StockItem, b: seq<StockItem>, op: Operation)
    requires Completes(ps, a, op)
    requires it.id in ApplyStock(ps, a, op) && !ProductValid(Updated(ApplyStock(ps, a, op), it, op))
    ensures ApplyStock(ps, a + [it] + b, op) == ApplyStock(ps, a, op)
    ensures !Completes(ps, a + [it] + b, op)
  {
    assert a + [it] + b == a + ([it] + b);
    ApplyStockAppend(ps, a, [it] + b, op);
    assert ([it] + b)[0] == it;
  }

  /** On a catalogue whose every product passes validation the loop always completes and the
      catalogue stays valid: in particular no stock is ever negative. */
  lemma {:induction false} ValidCatalogStaysValid(ps: map<Id, Product>, items: seq<StockItem>, op: Operation)
    requires AllValid(ps)
    ensures Completes(ps, items, op)
    ensures AllValid(ApplyStock(ps, items, op))
    decreases |items|
  {
    if items != [] && items[0].id in ps {
      var ps' := ps[items[0].id := Updated(ps, items[0], op)];
      assert ProductValid(Updated(ps, items[0], op));
      assert AllValid(ps');
      ValidCatalogStaysValid(ps', items[1..], op);
    } else if items != [] {
      ValidCatalogStaysValid(ps, items[1..], op);
    }
  }

  /** Two decreases of the same product in one batch subtract both quantities while the stock lasts. */
  lemma RepeatedIdAccumulates(ps: map<Id, Product>, id: Id, a: nat, b: nat)
    requires id in ps && ProductValid(ps[id]) && ps[id].stock >= a + b
    ensures var r := ApplyStock(ps, [StockItem(id, a), StockItem(id, b)], Decrease);
      id in r && r[id].stock == ps[id].stock - a - b
  {
    var ps1 := ps[id := Updated(ps, StockItem(id, a), Decrease)];
    assert ProductValid(ps1[id]);
    assert [StockItem(id, a), StockItem(id, b)][1..] == [StockItem(id, b)];
    assert ApplyStock(ps, [StockItem(id, a), StockItem(id, b)], Decrease) == ApplyStock(ps1, [StockItem(id, b)], Decrease);
    var ps2 := ps1[id := Updated(ps1, StockItem(id, b), Decrease)];
    assert ProductValid(ps2[id]);
    assert [StockItem(id, b)][1..] == [];
    assert ApplyStock(ps1, [StockItem(id, b)], Decrease) == ApplyStock(ps2, [], Decrease) == ps2;
  }

  /** updateProductStock: reads each item's product, skips a missing one, writes the clamped stock back. */
  method UpdateProductStock(st: Store, items: seq<StockItem>, operation: string := "decrease")
    requires st.Valid()
    modifies st`products
    ensures st.Valid()
    ensures st.products == ApplyStock(old(st.products), items, ParseOperation(operation))
  {
    var op := ParseOperation(operation);
    ApplyStockFrame(st.products, items, op);
    var i := 0;
    while i < |items|
      invariant 0 <= i <= |items|
      invariant ApplyStock(st.products, items[i..], op) == ApplyStock(old(st.products), items, op)
      invariant st.products.Keys == old(st.products).Keys
    {
      var item := items[i];
      if item.id in st.products {
        var product := st.products[item.id];
        var updated := product.(stock := NewStock(product.stock, item.cantidad, op));
        if !ProductValid(updated) {
          // save() rejects the document; the catch ends the loop with the earlier items written
          return;
        }
        st.products := st.products[item.id := updated];
      }
      assert items[i..][1..] == items[i + 1..];
      i := i + 1;
    }
  }
}
