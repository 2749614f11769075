/** Checkout-order construction, controllers/paymentController.js: the request is validated, the cart
    is mapped to order lines, the total is summed and an order awaiting card payment is saved before
    the payment provider is asked for a session. */
module Payment {
  import opened Models
  import opened Database
  import opened OrderController

  /** A cart entry as the client sends it; any field may be missing. Prices are in cents. */
  datatype CartItem = CartItem(productoId: Option<Id>, quantity: Option<int>, precio: Option<int>)

  /** The body of a checkout request. */
  datatype CheckoutRequest = CheckoutRequest(
    cartItems: Option<seq<CartItem>>,
    usuarioId: Option<Id>,
    tipoEntrega: Option<string>,
    direccion: Option<string>,
    referencias: Option<string>)

  /** The cart mapped to order lines, one per item in the same order. */
  function CartLines(items: seq<CartItem>): (r: seq<RawLine>)
    ensures |r| == |items|
    ensures forall i :: 0 <= i < |items| ==>
      r[i].producto == items[i].productoId && r[i].cantidad == items[i].quantity && r[i].precio == items[i].precio
  {
    seq(|items|, i requires 0 <= i < |items| => RawLine(items[i].productoId, items[i].quantity, items[i].precio))
  }

  /** The amount of one line. */
  function Amount(l: OrderLine): int {
    l.precio * l.cantidad
  }

  /** The sum of the line amounts, as a reference definition. */
  function LinesTotal(lines: seq<OrderLine>): int
    decreases |lines|
  {
    if lines == [] then 0 else Amount(lines[0]) + LinesTotal(lines[1..])
  }

  /** The `reduce` of the handler: a running sum from the left, starting at `acc`. A missing price or
      quantity makes the JavaScript sum NaN, which the schema rejects together with the incomplete line,
      so the sum is taken over complete lines only. */
  function Reduce(acc: int, lines: seq<OrderLine>): int
    decreases |lines|
  {
    if lines == [] then acc else Reduce(acc + Amount(lines[0]), lines[1..])
  }

  /** The left fold computes the reference sum. */
  lemma {:induction false} ReduceIsTotal(acc: int, lines: seq<OrderLine>)
    ensures Reduce(acc, lines) == acc + LinesTotal(lines)
    decreases |lines|
  {
    if lines != [] {
      ReduceIsTotal(acc + Amount(lines[0]), lines[1..]);
    }
  }

  /** The 400 test: no user id, no cart or an empty one, or no delivery type. */
  predicate MissingData(req: CheckoutRequest) {
    req.usuarioId.None? || req.cartItems.None? || req.cartItems.value == [] || !Truthy(req.tipoEntrega)
  }

  /** The order the handler saves, BadRequest for missing data, or ServerError when `save()` rejects it
      (an incomplete line, an unknown delivery type, or a home delivery without an address). */
  function CheckoutOrder(req: CheckoutRequest): (r: Outcome<Order>)
    ensures r == BadRequest <==> MissingData(req)
    ensures !MissingData(req) ==>
      (r == ServerError <==>
        || SavedLines(CartLines(req.cartItems.value)).None?
        || ParseTipoEntrega(req.tipoEntrega.value).None?
        || (req.tipoEntrega.value == "domicilio" && !Truthy(req.direccion)))
    ensures r.Ok? ==>
      && OrderValid(r.value)
      && r.value.usuario == req.usuarioId.value
      && Some(r.value.productos) == SavedLines(CartLines(req.cartItems.value))
      && r.value.total == LinesTotal(r.value.productos)
      && r.value.estado == PendientePago
      && r.value.metodoPago == Tarjeta
      && TipoEntregaText(r.value.tipoEntrega) == req.tipoEntrega.value
      && (r.value.tipoEntrega == Domicilio ==> r.value.direccion == req.direccion)
      && (r.value.tipoEntrega != Domicilio ==> r.value.direccion.None?)
      && r.value.referencias == req.referencias
      && r.value.asignadoA.None? && r.value.cashier.None? && !r.value.corteCaja
    ensures r.Ok? || r == BadRequest || r == ServerError
  {
    if MissingData(req) then BadRequest
    else
      var lines := SavedLines(CartLines(req.cartItems.value));
      var tipo := ParseTipoEntrega(req.tipoEntrega.value);
      if lines.None? || tipo.None? then ServerError
      else
        ReduceIsTotal(0, lines.value);
        var o := Order(
          req.usuarioId.value, lines.value, Reduce(0, lines.value), PendientePago, tipo.value,
          if req.tipoEntrega.value == "domicilio" then req.direccion else None,
          req.referencias, "", Tarjeta, None, None, false);
        if OrderValid(o) then Ok(o) else ServerError
  }

  /** createCheckoutSession: the order is saved before the provider is called, so a provider failure
      (`sessionUrl` None) answers 500 with the order left saved in `pendiente_pago`. No stock changes
      and no courier is chosen. */
  method CreateCheckoutSession(st: Store, req: CheckoutRequest, sessionUrl: Option<string>) returns (out: Outcome<string>)
    requires st.Valid()
    modifies st`orders, st`nextId
    ensures st.Valid()
    ensures CheckoutOrder(req).BadRequest? ==> out == BadRequest && st.orders == old(st.orders) && st.nextId == old(st.nextId)
    ensures CheckoutOrder(req).ServerError? ==> out == ServerError && st.orders == old(st.orders) && st.nextId == old(st.nextId)
    ensures CheckoutOrder(req).Ok? ==>
      && old(st.nextId) !in old(st.orders)
      && st.orders == old(st.orders)[old(st.nextId) := CheckoutOrder(req).value]
      && out == (if sessionUrl.Some? then Ok(sessionUrl.value) else ServerError)
  {
    if MissingData(req) {
      return BadRequest;
    }
    var nuevaOrden := CheckoutOrder(req);
    if !nuevaOrden.Ok? {
      return ServerError;
    }
    var id := st.NewId();
    st.orders := st.orders[id := nuevaOrden.value];
    if sessionUrl.None? {
      return ServerError;
    }
    out := Ok(sessionUrl.value);
  }
}
