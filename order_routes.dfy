/** The inline handlers of routes/orderRoutes.js: order views, deletion and manual courier assignment. */
module OrderRoutes {
  import opened Models
  import opened Database
  import opened OrderController

  /** GET /: admins and cashiers see every order, or with an `estado` query exactly the orders in that state. */
  function ListOrders(orders: map<Id, Order>, rol: Rol, estado: Option<string>): (r: Outcome<map<Id, Order>>)
    ensures r == Forbidden <==> rol != Admin && rol != Cajero
    ensures r.Ok? ==> forall k :: k in r.value <==> k in orders && (Truthy(estado) ==> EstadoText(orders[k].estado) == estado.value)
    ensures r.Ok? ==> forall k :: k in r.value ==> r.value[k] == orders[k]
  {
    if rol != Admin && rol != Cajero then Forbidden
    else if Truthy(estado) then Ok(map k | k in orders && EstadoText(orders[k].estado) == estado.value :: orders[k])
    else Ok(orders)
  }

  /** GET /mis-ordenes: exactly the caller's own orders. */
  function MisOrdenes(orders: map<Id, Order>, caller: Id): (r: map<Id, Order>)
    ensures forall k :: k in r <==> k in orders && orders[k].usuario == caller
    ensures forall k :: k in r ==> r[k] == orders[k]
  {
    map k | k in orders && orders[k].usuario == caller :: orders[k]
  }

  /** GET /asignadas: couriers only; every order assigned to the caller, whatever its state. */
  function Asignadas(orders: map<Id, Order>, caller: Id, rol: Rol): (r: Outcome<map<Id, Order>>)
    ensures r == Forbidden <==> rol != Rapidito
    ensures r.Ok? ==> forall k :: k in r.value <==> k in orders && orders[k].asignadoA == Some(caller)
    ensures r.Ok? ==> forall k :: k in r.value ==> r.value[k] == orders[k]
  {
    if rol != Rapidito then Forbidden
    else Ok(map k | k in orders && orders[k].asignadoA == Some(caller) :: orders[k])
  }

  /** GET /ventas/cajero: cashiers only; the caller's sales not yet included in a cash-out. */
  function VentasCajero(orders: map<Id, Order>, caller: Id, rol: Rol): (r: Outcome<map<Id, Order>>)
    ensures r == Forbidden <==> rol != Cajero
    ensures r.Ok? ==> forall k :: k in r.value <==> k in orders && orders[k].cashier == Some(caller) && !orders[k].corteCaja
    ensures r.Ok? ==> forall k :: k in r.value ==> r.value[k] == orders[k]
  {
    if rol != Cajero then Forbidden
    else Ok(map k | k in orders && orders[k].cashier == Some(caller) && !orders[k].corteCaja :: orders[k])
  }

  /** After a cash-out the cashier's pending-sales view is empty, and every other cashier's view is unchanged. */
  lemma VentasEmptyAfterCut(orders: map<Id, Order>, cashier: Id, other: Id)
    requires other != cashier
    ensures VentasCajero(Cut(orders, cashier), cashier, Cajero) == Ok(map[])
    ensures VentasCajero(Cut(orders, cashier), other, Cajero) == VentasCajero(orders, other, Cajero)
  {
    var cut := Cut(orders, cashier);
    var mine := VentasCajero(cut, cashier, Cajero).value;
    assert forall k :: k !in mine;
    var theirs := VentasCajero(cut, other, Cajero).value;
    var before := VentasCajero(orders, other, Cajero).value;
    forall k | k in orders && orders[k].cashier == Some(other)
      ensures cut[k] == orders[k]
    {
    }
    assert theirs.Keys == before.Keys;
    assert forall k :: k in theirs ==> theirs[k] == before[k];
    assert theirs == before;
  }

  /** DELETE /:id (admins): 404 for a missing order; otherwise only that order is removed. */
  method DeleteOrder(st: Store, caller: Id, orderId: Id) returns (out: Outcome<()>)
    requires st.Valid() && caller in st.users && st.users[caller].rol == Admin
    modifies st`orders
    ensures st.Valid()
    ensures orderId !in old(st.orders) ==> out == NotFound && st.orders == old(st.orders)
    ensures orderId in old(st.orders) ==> out == Ok(()) && st.orders == old(st.orders) - {orderId}
  {
    if orderId !in st.orders {
      return NotFound;
    }
    st.orders := st.orders - {orderId};
    out := Ok(());
  }

  /** PUT /:id/asignar-rapidito (admins): 404 for a missing order; otherwise `asignadoA` becomes the given
      id, with no check that it names a courier or any user, and the state is left as it was. */
  method AsignarRapiditoManual(st: Store, caller: Id, orderId: Id, rapiditoId: Id) returns (out: Outcome<Order>)
    requires st.Valid() && caller in st.users && st.users[caller].rol == Admin
    modifies st`orders
    ensures st.Valid()
    ensures orderId !in old(st.orders) ==> out == NotFound && st.orders == old(st.orders)
    ensures orderId in old(st.orders) ==>
      var o := old(st.orders)[orderId].(asignadoA := Some(rapiditoId));
      out == Ok(o) && st.orders == old(st.orders)[orderId := o]
  {
    if orderId !in st.orders {
      return NotFound;
    }
    var orden := st.orders[orderId].(asignadoA := Some(rapiditoId));
    st.orders := st.orders[orderId := orden];
    // the e-mail to the courier is best-effort
    out := Ok(orden);
  }
}
