/** The customer order state machine, controllers/orderController.js. */
module OrderController {
  import opened Models
  import opened Database
  import opened Ledger
  import opened Courier

  /** A line as the client sends it; any field may be missing. */
  datatype RawLine = RawLine(producto: Option<Id>, cantidad: Option<int>, precio: Option<int>)

  /** The body of a create-order request. */
  datatype OrderRequest = OrderRequest(
    productos: Option<seq<RawLine>>,
    total: Option<int>,
    tipoEntrega: Option<string>,
    direccion: Option<string>,
    referencias: Option<string>,
    telefono: Option<string>,
    estado: Option<string>,
    metodoPago: Option<string>)

  /** The state an order is created in: a supplied (truthy) `estado` verbatim; otherwise, for a cashier,
      `completada` when paid in cash or by transfer and `pagado` otherwise; for anyone else, `pendiente`
      for home delivery and `pendiente para recoger` otherwise. */
  function InitialEstado(rol: Rol, estado: Option<string>, metodoPago: Option<string>, tipoEntrega: Option<string>): (r: string)
    ensures Truthy(estado) ==> r == estado.value
    ensures !Truthy(estado) ==> ParseEstado(r).Some?
    ensures !Truthy(estado) && rol == Cajero ==>
      (r == EstadoText(Completada) <==> metodoPago == Some("efectivo") || metodoPago == Some("transferencia"))
      && (r == EstadoText(Completada) || r == EstadoText(Pagado))
    ensures !Truthy(estado) && rol != Cajero ==>
      (r == EstadoText(Pendiente) <==> tipoEntrega == Some("domicilio"))
      && (r == EstadoText(Pendiente) || r == EstadoText(ParaRecoger))
  {
    if Truthy(estado) then estado.value
    else if rol == Cajero then
      if metodoPago == Some("efectivo") || metodoPago == Some("transferencia") then EstadoText(Completada) else EstadoText(Pagado)
    else
      if tipoEntrega == Some("domicilio") then EstadoText(Pendiente) else EstadoText(ParaRecoger)
  }

  predicate LineComplete(l: RawLine) {
    l.producto.Some? && l.cantidad.Some? && l.precio.Some?
  }

  /** The lines as the schema stores them: every line needs `producto`, `cantidad` and `precio`. */
  function SavedLines(lines: seq<RawLine>): (r: Option<seq<OrderLine>>)
    ensures r.Some? <==> forall i :: 0 <= i < |lines| ==> LineComplete(lines[i])
    ensures r.Some? ==> |r.value| == |lines| && forall i :: 0 <= i < |lines| ==>
      r.value[i] == OrderLine(lines[i].producto.value, lines[i].cantidad.value, lines[i].precio.value)
    decreases |lines|
  {
    if lines == [] then Some([])
    else
      var rest := SavedLines(lines[1..]);
      if LineComplete(lines[0]) && rest.Some?
      then Some([OrderLine(lines[0].producto.value, lines[0].cantidad.value, lines[0].precio.value)] + rest.value)
      else None
  }

  /** A stored enum field: absent takes the schema default, present must be one of the values. */
  function TipoEntregaField(s: Option<string>): (r: Option<TipoEntrega>)
    ensures s.None? ==> r == Some(Tienda)
    ensures s.Some? ==> (r.Some? <==> s.value == "tienda" || s.value == "domicilio")
    ensures s.Some? && r.Some? ==> TipoEntregaText(r.value) == s.value
  {
    if s.None? then Some(DefaultTipoEntrega) else ParseTipoEntrega(s.value)
  }

  function MetodoPagoField(s: Option<string>): (r: Option<MetodoPago>)
    ensures s.None? ==> r == Some(Efectivo)
    ensures s.Some? ==> (r.Some? <==> s.value == "efectivo" || s.value == "tarjeta" || s.value == "transferencia")
    ensures s.Some? && r.Some? ==> MetodoPagoText(r.value) == s.value
  {
    if s.None? then Some(DefaultMetodoPago) else ParseMetodoPago(s.value)
  }

  /** The lines of the request; an absent list saves as the schema's empty array. */
  function RequestLines(req: OrderRequest): seq<RawLine> {
    if req.productos.Some? then req.productos.value else []
  }

  /** The order `crearOrden` saves for `caller`, or None when the schema validation rejects it. */
  function MakeOrder(req: OrderRequest, caller: Id, rol: Rol, courier: Option<Id>): (r: Option<Order>)
    ensures r.Some? ==>
      && OrderValid(r.value)
      && r.value.usuario == caller
      && req.total == Some(r.value.total)
      && EstadoText(r.value.estado) == InitialEstado(rol, req.estado, req.metodoPago, req.tipoEntrega)
      && r.value.asignadoA == courier
      && (r.value.cashier.Some? <==> rol == Cajero)
      && (r.value.cashier.Some? ==> r.value.cashier.value == caller)
      && !r.value.corteCaja
      && Some(r.value.productos) == SavedLines(RequestLines(req))
      && Some(r.value.tipoEntrega) == TipoEntregaField(req.tipoEntrega)
      && Some(r.value.metodoPago) == MetodoPagoField(req.metodoPago)
      && r.value.direccion == req.direccion && r.value.referencias == req.referencias
      && (req.telefono.Some? ==> r.value.telefono == req.telefono.value)
      && (req.telefono.None? ==> r.value.telefono == "")
    ensures req.total.None? || SavedLines(RequestLines(req)).None? ==> r.None?
    ensures ParseEstado(InitialEstado(rol, req.estado, req.metodoPago, req.tipoEntrega)).None? ==> r.None?
    ensures TipoEntregaField(req.tipoEntrega).None? || MetodoPagoField(req.metodoPago).None? ==> r.None?
    ensures TipoEntregaField(req.tipoEntrega) == Some(Domicilio) && !Truthy(req.direccion) ==> r.None?
    ensures
      && req.total.Some? && SavedLines(RequestLines(req)).Some?
      && ParseEstado(InitialEstado(rol, req.estado, req.metodoPago, req.tipoEntrega)).Some?
      && TipoEntregaField(req.tipoEntrega).Some? && MetodoPagoField(req.metodoPago).Some?
      && (TipoEntregaField(req.tipoEntrega) == Some(Domicilio) ==> Truthy(req.direccion))
      ==> r.Some?
  {
    var lines := SavedLines(RequestLines(req));
    var estado := ParseEstado(InitialEstado(rol, req.estado, req.metodoPago, req.tipoEntrega));
    var tipo := TipoEntregaField(req.tipoEntrega);
    var metodo := MetodoPagoField(req.metodoPago);
    if lines.None? || req.total.None? || estado.None? || tipo.None? || metodo.None? then None
    else
      var o := Order(
        caller, lines.value, req.total.value, estado.value, tipo.value, req.direccion, req.referencias,
        if req.telefono.Some? then req.telefono.value else "", metodo.value, courier,
        if rol == Cajero then Some(caller) else None, false);
      if OrderValid(o) then Some(o) else None
  }

  /** The stock lines: the product id and a quantity where a falsy one (0) becomes 1. */
  function Normalize(lines: seq<OrderLine>): (items: seq<StockItem>)
    ensures |items| == |lines|
    ensures forall i :: 0 <= i < |lines| ==>
      && items[i].id == lines[i].producto
      && (lines[i].cantidad == 0 ==> items[i].cantidad == 1)
      && (lines[i].cantidad != 0 ==> items[i].cantidad == lines[i].cantidad)
  {
    seq(|lines|, i requires 0 <= i < |lines| =>
      StockItem(lines[i].producto, if lines[i].cantidad == 0 then 1 else lines[i].cantidad))
  }

  /** crearOrden: compute the state, pick a courier for home delivery, save the order, then decrease
      the stock of every line. A rejected save answers 500 and changes nothing. Without a list of
      lines the order is saved with none and the normalisation then throws: 500, no stock change. */
  method CrearOrden(st: Store, caller: Id, req: OrderRequest) returns (out: Outcome<Id>)
    requires st.Valid() && caller in st.users
    modifies st`orders, st`products, st`nextId
    ensures st.Valid()
    ensures
      var courier := if req.tipoEntrega == Some("domicilio") then Choose(old(st.orders), st.users, old(st.nextId)) else None;
      var o := MakeOrder(req, caller, st.users[caller].rol, courier);
      if o.None? then
        out == ServerError && st.orders == old(st.orders) && st.products == old(st.products) && st.nextId == old(st.nextId)
      else
        && old(st.nextId) !in old(st.orders)
        && st.orders == old(st.orders)[old(st.nextId) := o.value]
        && (req.productos.None? ==> out == ServerError && st.products == old(st.products))
        && (req.productos.Some? ==>
              out == Ok(old(st.nextId)) && st.products == ApplyStock(old(st.products), Normalize(o.value.productos), Decrease))
  {
    var rol := st.users[caller].rol;
    var rapiditoAsignado: Option<Id> := None;
    if req.tipoEntrega == Some("domicilio") {
      rapiditoAsignado := AsignarRapidito(st);
    }
    var nuevaOrden := MakeOrder(req, caller, rol, rapiditoAsignado);
    if nuevaOrden.None? {
      return ServerError;
    }
    var id := st.NewId();
    st.orders := st.orders[id := nuevaOrden.value];
    if req.productos.None? {
      return ServerError;
    }
    UpdateProductStock(st, Normalize(nuevaOrden.value.productos), "decrease");
    // the courier's e-mail notification is best-effort and cannot fail the request
    out := Ok(id);
  }

  /** marcarOrdenComoEntregada: 404 for a missing order, then 403 unless the caller is a courier and the
      one assigned; otherwise the state becomes `completada` from any state and nothing else changes. */
  method MarcarOrdenComoEntregada(st: Store, caller: Id, orderId: Id) returns (out: Outcome<()>)
    requires st.Valid() && caller in st.users
    modifies st`orders
    ensures st.Valid()
    ensures orderId !in old(st.orders) ==> out == NotFound && st.orders == old(st.orders)
    ensures orderId in old(st.orders) && (st.users[caller].rol != Rapidito || old(st.orders)[orderId].asignadoA != Some(caller))
      ==> out == Forbidden && st.orders == old(st.orders)
    ensures orderId in old(st.orders) && st.users[caller].rol == Rapidito && old(st.orders)[orderId].asignadoA == Some(caller)
      ==> out == Ok(()) && st.orders == old(st.orders)[orderId := old(st.orders)[orderId].(estado := Completada)]
  {
    if orderId !in st.orders {
      return NotFound;
    }
    var orden := st.orders[orderId];
    if st.users[caller].rol != Rapidito || orden.asignadoA != Some(caller) {
      return Forbidden;
    }
    st.orders := st.orders[orderId := orden.(estado := Completada)];
    out := Ok(());
  }

  /** marcarOrdenComoFinalizada: 404 first, then 403 unless admin or cashier, then 400 unless the requested
      state is one of the seven; the current state is not consulted. */
  method MarcarOrdenComoFinalizada(st: Store, caller: Id, orderId: Id, estado: Option<string>) returns (out: Outcome<()>)
    requires st.Valid() && caller in st.users
    modifies st`orders
    ensures st.Valid()
    ensures orderId !in old(st.orders) ==> out == NotFound && st.orders == old(st.orders)
    ensures orderId in old(st.orders) && st.users[caller].rol != Admin && st.users[caller].rol != Cajero
      ==> out == Forbidden && st.orders == old(st.orders)
    ensures orderId in old(st.orders) && (st.users[caller].rol == Admin || st.users[caller].rol == Cajero) ==>
      if !Truthy(estado) || ParseEstado(estado.value).None? then out == BadRequest && st.orders == old(st.orders)
      else out == Ok(()) && st.orders == old(st.orders)[orderId := old(st.orders)[orderId].(estado := ParseEstado(estado.value).value)]
  {
    if orderId !in st.orders {
      return NotFound;
    }
    var rol := st.users[caller].rol;
    if rol != Admin && rol != Cajero {
      return Forbidden;
    }
    if !Truthy(estado) || ParseEstado(estado.value).None? {
      return BadRequest;
    }
    st.orders := st.orders[orderId := st.orders[orderId].(estado := ParseEstado(estado.value).value)];
    out := Ok(());
  }

  /** The bulk update of a cash-out: the cashier's orders not yet cut get `corteCaja` set. */
  function Cut(orders: map<Id, Order>, cashier: Id): (r: map<Id, Order>)
    ensures r.Keys == orders.Keys
    ensures forall k :: k in orders ==>
      && r[k].(corteCaja := orders[k].corteCaja) == orders[k]
      && r[k].corteCaja == (orders[k].corteCaja || orders[k].cashier == Some(cashier))
  {
    map k | k in orders ::
      if orders[k].cashier == Some(cashier) && !orders[k].corteCaja then orders[k].(corteCaja := true) else orders[k]
  }

  /** A second cash-out right after the first changes nothing. */
  lemma CutIdempotent(orders: map<Id, Order>, cashier: Id)
    ensures Cut(Cut(orders, cashier), cashier) == Cut(orders, cashier)
  {
    var once := Cut(orders, cashier);
    assert forall k :: k in once ==> Cut(once, cashier)[k] == once[k];
  }

  /** cortarCaja: 403 unless the caller is a cashier; otherwise the bulk flag flip. */
  method CortarCaja(st: Store, caller: Id) returns (out: Outcome<()>)
    requires st.Valid() && caller in st.users
    modifies st`orders
    ensures st.Valid()
    ensures st.users[caller].rol != Cajero ==> out == Forbidden && st.orders == old(st.orders)
    ensures st.users[caller].rol == Cajero ==> out == Ok(()) && st.orders == Cut(old(st.orders), caller)
  {
    if st.users[caller].rol != Cajero {
      return Forbidden;
    }
    st.orders := Cut(st.orders, caller);
    out := Ok(());
  }
}
