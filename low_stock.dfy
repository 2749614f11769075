/** Low-stock detection, utils/detectarBajoStock.js: the products at or below a threshold that have a
    supplier, grouped by that supplier. */
module LowStock {
  import opened Models
  import opened Database

  /** What a group lists for one product. */
  datatype StockEntry = StockEntry(id: Id, nombre: string, stock: int)

  /** The populated supplier: its id, name and e-mail. */
  datatype SupplierRef = SupplierRef(id: Id, nombre: string, email: string)

  datatype Group = Group(supplier: SupplierRef, products: seq<StockEntry>)

  const DefaultLimite: int := 5

  /** The query: stock at or below the threshold and a supplier set. */
  predicate IsLow(ps: map<Id, Product>, limite: int, id: Id) {
    id in ps && ps[id].stock <= limite && ps[id].proveedor.Some?
  }

  /** A low product whose supplier no longer exists: populating gives null and reading its id throws. */
  predicate Orphan(ps: map<Id, Product>, users: map<Id, User>, limite: int, id: Id) {
    IsLow(ps, limite, id) && ps[id].proveedor.value !in users
  }

  /** An entry describes a low product of supplier `s`, with that product's name and stock. */
  predicate Belongs(ps: map<Id, Product>, limite: int, s: Id, e: StockEntry) {
    IsLow(ps, limite, e.id) && ps[e.id].proveedor == Some(s) && e == StockEntry(e.id, ps[e.id].nombre, ps[e.id].stock)
  }

  /** Every group is keyed by its supplier's id, carries that supplier's name and e-mail, is non-empty,
      and lists only that supplier's low products. */
  predicate GroupsFaithful(m: map<Id, Group>, ps: map<Id, Product>, users: map<Id, User>, limite: int) {
    forall s :: s in m ==>
      && s in users
      && m[s].supplier == SupplierRef(s, users[s].nombre, users[s].email)
      && |m[s].products| > 0
      && forall k :: 0 <= k < |m[s].products| ==> Belongs(ps, limite, s, m[s].products[k])
  }

  predicate Listed(entries: seq<StockEntry>, id: Id) {
    exists k :: 0 <= k < |entries| && entries[k].id == id
  }

  /** Entries in query (ascending id) order, so no product is listed twice. */
  predicate Ascending(entries: seq<StockEntry>) {
    forall j, k :: 0 <= j < k < |entries| ==> entries[j].id < entries[k].id
  }

  /** The state after the products below `n` are scanned: groups are faithful, hold only ids below `n`
      in ascending order, and list every low product below `n`. */
  predicate Scanned(m: map<Id, Group>, ps: map<Id, Product>, users: map<Id, User>, limite: int, n: nat) {
    && GroupsFaithful(m, ps, users, limite)
    && (forall s, k :: s in m && 0 <= k < |m[s].products| ==> m[s].products[k].id < n)
    && (forall s :: s in m ==> Ascending(m[s].products))
    && (forall j :: 0 <= j < n && IsLow(ps, limite, j) ==> ps[j].proveedor.value in m && Listed(m[ps[j].proveedor.value].products, j))
  }

  /** One `push`: the supplier's group, opened if it is the first of its products, gets the entry at its end. */
  function Push(m: map<Id, Group>, users: map<Id, User>, s: Id, e: StockEntry): map<Id, Group>
    requires s in users
  {
    var g := if s in m then m[s] else Group(SupplierRef(s, users[s].nombre, users[s].email), []);
    m[s := g.(products := g.products + [e])]
  }

  /** Scanning a low product with an existing supplier extends the scanned state by one id. */
  lemma {:induction false} PushScanned(m: map<Id, Group>, ps: map<Id, Product>, users: map<Id, User>, limite: int, n: nat)
    requires Scanned(m, ps, users, limite, n)
    requires IsLow(ps, limite, n) && ps[n].proveedor.value in users
    ensures Scanned(Push(m, users, ps[n].proveedor.value, StockEntry(n, ps[n].nombre, ps[n].stock)), ps, users, limite, n + 1)
  {
    var s := ps[n].proveedor.value;
    var e := StockEntry(n, ps[n].nombre, ps[n].stock);
    var m' := Push(m, users, s, e);
    var g := if s in m then m[s] else Group(SupplierRef(s, users[s].nombre, users[s].email), []);
    assert m'[s].products == g.products + [e];
    assert m'[s].products[|g.products|] == e;
    forall j | 0 <= j < n + 1 && IsLow(ps, limite, j)
      ensures ps[j].proveedor.value in m' && Listed(m'[ps[j].proveedor.value].products, j)
    {
      var t := ps[j].proveedor.value;
      if j < n {
        var k :| 0 <= k < |m[t].products| && m[t].products[k].id == j;
        assert m'[t].products[k] == m[t].products[k];
      } else {
        assert m'[s].products[|g.products|].id == j;
      }
    }
  }

  /** detectarBajoStock: one pass over the products in query order, opening a group the first time a
      supplier is seen and appending the product to it. It changes nothing. A low product whose supplier
      is missing makes the pass throw (500 for the caller). */
  method DetectarBajoStock(st: Store, limite: int := DefaultLimite) returns (out: Outcome<map<Id, Group>>)
    requires st.Valid()
    ensures out.Ok? || out == ServerError
    ensures out == ServerError <==> exists id :: Orphan(st.products, st.users, limite, id)
    ensures out.Ok? ==> GroupsFaithful(out.value, st.products, st.users, limite)
    ensures out.Ok? ==> forall id :: IsLow(st.products, limite, id) ==>
      st.products[id].proveedor.value in out.value && Listed(out.value[st.products[id].proveedor.value].products, id)
    ensures out.Ok? ==> forall s :: s in out.value ==> Ascending(out.value[s].products)
  {
    var agrupados: map<Id, Group> := map[];
    var id := 0;
    while id < st.nextId
      invariant 0 <= id <= st.nextId
      invariant forall j :: 0 <= j < id ==> !Orphan(st.products, st.users, limite, j)
      invariant Scanned(agrupados, st.products, st.users, limite, id)
    {
      if IsLow(st.products, limite, id) {
        var producto := st.products[id];
        var proveedorId := producto.proveedor.value;
        if proveedorId !in st.users {
          assert Orphan(st.products, st.users, limite, id);
          return ServerError;
        }
        PushScanned(agrupados, st.products, st.users, limite, id);
        if proveedorId !in agrupados {
          var supplier := SupplierRef(proveedorId, st.users[proveedorId].nombre, st.users[proveedorId].email);
          agrupados := agrupados[proveedorId := Group(supplier, [])];
        }
        var group := agrupados[proveedorId];
        agrupados := agrupados[proveedorId := group.(products := group.products + [StockEntry(id, producto.nombre, producto.stock)])];
      }
      id := id + 1;
    }
    assert forall j: Id :: Orphan(st.products, st.users, limite, j) ==> j < st.nextId;
    out := Ok(agrupados);
  }
}
