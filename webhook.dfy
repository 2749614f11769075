/** The payment-provider event reconciler, controllers/webhookController.js. The signature check is an
    oracle: the handler receives whether the event's signature was valid. */
module Webhook {
  import opened Models
  import opened Database
  import opened Courier

  /** The events the handler distinguishes. `amountTotal` is the charged amount in cents. */
  datatype Event =
    | CheckoutCompleted(orderId: Option<Id>, amountTotal: int)
    | CheckoutExpired(orderId: Option<Id>)
    | OtherEvent

  /** A completed payment applied to one order: a home delivery gets the courier and `pagado`, any other
      delivery `pendiente para recoger` with its courier untouched; the total becomes the charged amount. */
  function Reconcile(o: Order, courier: Option<Id>, amountTotal: int): (r: Order)
    ensures o.tipoEntrega == Domicilio ==> r.estado == Pagado && r.asignadoA == courier
    ensures o.tipoEntrega != Domicilio ==> r.estado == ParaRecoger && r.asignadoA == o.asignadoA
    ensures r.total == amountTotal
    ensures r.(estado := o.estado, asignadoA := o.asignadoA, total := o.total) == o
    ensures OrderValid(o) ==> OrderValid(r)
  {
    if o.tipoEntrega == Domicilio then o.(asignadoA := courier, estado := Pagado, total := amountTotal)
    else o.(estado := ParaRecoger, total := amountTotal)
  }

  /** The orders after a completed event for an existing order, the courier coming from the load balancer. */
  function Completed(orders: map<Id, Order>, users: map<Id, User>, n: nat, id: Id, amountTotal: int): (r: map<Id, Order>)
    requires id in orders
    ensures r.Keys == orders.Keys
    ensures r[id].estado == (if orders[id].tipoEntrega == Domicilio then Pagado else ParaRecoger)
    ensures r[id].total == amountTotal
    ensures orders[id].tipoEntrega == Domicilio ==> r[id].asignadoA == Choose(orders, users, n)
    ensures forall k :: k in orders && k != id ==> r[k] == orders[k]
  {
    orders[id := Reconcile(orders[id], Choose(orders, users, n), amountTotal)]
  }

  /** The orders after an expired event: an existing order is cancelled whatever its state; a missing one is a no-op. */
  function Expired(orders: map<Id, Order>, id: Id): (r: map<Id, Order>)
    ensures r.Keys == orders.Keys
    ensures id in orders ==> r[id].estado == Cancelada && r[id].(estado := orders[id].estado) == orders[id]
    ensures forall k :: k in orders && k != id ==> r[k] == orders[k]
  {
    if id in orders then orders[id := orders[id].(estado := Cancelada)] else orders
  }

  /** Changing one order that is neither before nor after in state `pendiente` leaves every courier's load as it was. */
  lemma LoadsIgnoreNonPending(orders: map<Id, Order>, id: Id, o: Order)
    requires id in orders && orders[id].estado != Pendiente && o.estado != Pendiente
    ensures forall c: Id :: Load(orders[id := o], c) == Load(orders, c)
  {
    forall c: Id ensures Load(orders[id := o], c) == Load(orders, c) {
      var after := orders[id := o];
      var a := set k: Id | k in after && after[k].asignadoA == Some(c) && after[k].estado == Pendiente;
      var b := set k: Id | k in orders && orders[k].asignadoA == Some(c) && orders[k].estado == Pendiente;
      assert id !in a && id !in b;
      forall k ensures k in a <==> k in b {
        if k != id {
          assert (k in after) == (k in orders);
        }
      }
      assert a == b;
      assert Load(after, c) == |a| && Load(orders, c) == |b|;
    }
  }

  /** Redelivering a completed event for an order that was not `pendiente` (such as a checkout order in
      `pendiente_pago`) leaves the orders as the first delivery left them: the same state, the same total
      and the same courier, because the first delivery changed no courier's load. */
  lemma {:induction false} RedeliveryIsStable(orders: map<Id, Order>, users: map<Id, User>, n: nat, id: Id, amountTotal: int)
    requires id in orders && orders[id].estado != Pendiente
    ensures var once := Completed(orders, users, n, id, amountTotal);
      id in once && Completed(once, users, n, id, amountTotal) == once
  {
    var courier := Choose(orders, users, n);
    var o' := Reconcile(orders[id], courier, amountTotal);
    var once := orders[id := o'];
    LoadsIgnoreNonPending(orders, id, o');
    ChooseDependsOnLoads(once, orders, users, n);
    assert Reconcile(o', courier, amountTotal) == o';
  }

  /** stripeWebhook: 400 on a bad signature; for a completed event 400 without an order id, 404 for a
      missing order, otherwise the order is reconciled; an expired event cancels; anything else is
      acknowledged with no change. There is no check of the order's current state. */
  method StripeWebhook(st: Store, signatureValid: bool, event: Event) returns (out: Outcome<()>)
    requires st.Valid()
    modifies st`orders
    ensures st.Valid()
    ensures !signatureValid ==> out == BadRequest && st.orders == old(st.orders)
    ensures signatureValid && event.CheckoutCompleted? ==>
      if event.orderId.None? then out == BadRequest && st.orders == old(st.orders)
      else if event.orderId.value !in old(st.orders) then out == NotFound && st.orders == old(st.orders)
      else out == Ok(()) && st.orders == Completed(old(st.orders), st.users, st.nextId, event.orderId.value, event.amountTotal)
    ensures signatureValid && event.CheckoutExpired? ==>
      out == Ok(()) && st.orders == (if event.orderId.Some? then Expired(old(st.orders), event.orderId.value) else old(st.orders))
    ensures signatureValid && event.OtherEvent? ==> out == Ok(()) && st.orders == old(st.orders)
  {
    if !signatureValid {
      return BadRequest;
    }
    match event {
    case CheckoutCompleted(orderId, amountTotal) =>
      if orderId.None? {
        return BadRequest;
      }
      if orderId.value !in st.orders {
        return NotFound;
      }
      var order := st.orders[orderId.value];
      if order.tipoEntrega == Domicilio {
        var deliveryGuy := AsignarRapidito(st);
        order := order.(asignadoA := deliveryGuy, estado := Pagado);
      } else {
        order := order.(estado := ParaRecoger);
      }
      order := order.(total := amountTotal);
      st.orders := st.orders[orderId.value := order];
    case CheckoutExpired(orderId) =>
      if orderId.Some? && orderId.value in st.orders {
        st.orders := st.orders[orderId.value := st.orders[orderId.value].(estado := Cancelada)];
      }
    case OtherEvent =>
    }
    out := Ok(());
  }
}
