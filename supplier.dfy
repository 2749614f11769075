/** The supplier purchase-order workflow, controllers/supplierOrderController.js: an admin creates an
    order, the owning supplier quotes prices, the payment is confirmed (which adds the requested
    quantities to stock) and an admin accepts or rejects the quotation. Notification e-mails are
    best-effort and cannot fail a request, so they are not modelled. */
module SupplierOrders {
  import opened Models
  import opened Database
  import opened Ledger

  /** A requested line as the client sends it. */
  datatype RawSupplierLine = RawSupplierLine(producto: Option<Id>, cantidadSolicitada: Option<int>, precioUnitario: Option<int>)

  /** The body of a create request. */
  datatype SupplierRequest = SupplierRequest(
    proveedor: Option<Id>,
    productos: Option<seq<RawSupplierLine>>,
    metodoPago: Option<string>)

  /** A quoted price sent by the supplier; `producto` is the product id as text, matched literally. */
  datatype PriceEntry = PriceEntry(producto: Option<Id>, precioUnitario: Option<int>)

  // ---------------------------------------------------------------- creation

  /** The 400 test of creation: no supplier, no lines or an empty list, or no payment method. */
  predicate MissingData(req: SupplierRequest) {
    req.proveedor.None? || req.productos.None? || req.productos.value == [] || !Truthy(req.metodoPago)
  }

  /** A line's product lookup succeeds: a missing id finds nothing. */
  predicate Found(ps: map<Id, Product>, l: RawSupplierLine) {
    l.producto.Some? && l.producto.value in ps
  }

  predicate AllFound(ps: map<Id, Product>, lines: seq<RawSupplierLine>) {
    forall i :: 0 <= i < |lines| ==> Found(ps, lines[i])
  }

  /** The lines as the schema stores them: each needs `producto` and `cantidadSolicitada`. */
  function SupplierLines(lines: seq<RawSupplierLine>): (r: Option<seq<SupplierLine>>)
    ensures r.Some? <==> forall i :: 0 <= i < |lines| ==> lines[i].producto.Some? && lines[i].cantidadSolicitada.Some?
    ensures r.Some? ==> |r.value| == |lines| && forall i :: 0 <= i < |lines| ==>
      r.value[i] == SupplierLine(lines[i].producto.value, lines[i].cantidadSolicitada.value, lines[i].precioUnitario)
    decreases |lines|
  {
    if lines == [] then Some([])
    else
      var rest := SupplierLines(lines[1..]);
      if lines[0].producto.Some? && lines[0].cantidadSolicitada.Some? && rest.Some?
      then Some([SupplierLine(lines[0].producto.value, lines[0].cantidadSolicitada.value, lines[0].precioUnitario)] + rest.value)
      else None
  }

  /** The order `crearPedidoProveedor` saves, or None when the schema rejects it. */
  function MakeSupplierOrder(req: SupplierRequest, now: int): (r: Option<SupplierOrder>)
    requires !MissingData(req)
    ensures r.Some? <==> SupplierLines(req.productos.value).Some? && ParseMetodoPagoProveedor(req.metodoPago.value).Some?
    ensures r.Some? ==>
      && r.value.proveedor == req.proveedor.value
      && Some(r.value.productos) == SupplierLines(req.productos.value)
      && MetodoPagoProveedorText(r.value.metodoPago) == req.metodoPago.value
      && r.value.estadoPago == PagoPendiente
      && !r.value.pendienteRevisionAdmin && !r.value.confirmadoPorProveedor
      && r.value.creadoEn == now
  {
    var lines := SupplierLines(req.productos.value);
    var metodo := ParseMetodoPagoProveedor(req.metodoPago.value);
    if lines.None? || metodo.None? then None
    else Some(SupplierOrder(req.proveedor.value, lines.value, metodo.value, PagoPendiente, false, false, now))
  }

  /** crearPedidoProveedor (admins): 400 for missing data; 404 as soon as a line's product is not found,
      with nothing saved; 500 when the schema rejects the order; otherwise the new order's id. */
  method CrearPedidoProveedor(st: Store, caller: Id, req: SupplierRequest, now: int) returns (out: Outcome<Id>)
    requires st.Valid() && caller in st.users && st.users[caller].rol == Admin
    modifies st`supplierOrders, st`nextId
    ensures st.Valid()
    ensures MissingData(req) ==> out == BadRequest && st.supplierOrders == old(st.supplierOrders) && st.nextId == old(st.nextId)
    ensures !MissingData(req) && !AllFound(st.products, req.productos.value) ==>
      out == NotFound && st.supplierOrders == old(st.supplierOrders) && st.nextId == old(st.nextId)
    ensures !MissingData(req) && AllFound(st.products, req.productos.value) ==>
      var o := MakeSupplierOrder(req, now);
      if o.None? then out == ServerError && st.supplierOrders == old(st.supplierOrders) && st.nextId == old(st.nextId)
      else
        && out == Ok(old(st.nextId))
        && old(st.nextId) !in old(st.supplierOrders)
        && st.supplierOrders == old(st.supplierOrders)[old(st.nextId) := o.value]
  {
    if MissingData(req) {
      return BadRequest;
    }
    var productos := req.productos.value;
    var i := 0;
    while i < |productos|
      invariant 0 <= i <= |productos|
      invariant forall j :: 0 <= j < i ==> Found(st.products, productos[j])
    {
      if !Found(st.products, productos[i]) {
        return NotFound;
      }
      i := i + 1;
    }
    var nuevoPedido := MakeSupplierOrder(req, now);
    if nuevoPedido.None? {
      return ServerError;
    }
    var id := st.NewId();
    st.supplierOrders := st.supplierOrders[id := nuevoPedido.value];
    out := Ok(id);
  }

  // ---------------------------------------------------------------- quotation

  /** The first entry quoting product `id`, in request order. */
  function FirstEntry(entries: seq<PriceEntry>, id: Id): (r: Option<PriceEntry>)
    ensures r.None? <==> forall k :: 0 <= k < |entries| ==> entries[k].producto != Some(id)
    ensures r.Some? ==> exists k :: (0 <= k < |entries| && entries[k] == r.value && entries[k].producto == Some(id)
      && forall j :: 0 <= j < k ==> entries[j].producto != Some(id))
    decreases |entries|
  {
    if entries == [] then None
    else if entries[0].producto == Some(id) then Some(entries[0])
    else
      var r := FirstEntry(entries[1..], id);
      if r.Some? then
        var k :| 0 <= k < |entries[1..]| && entries[1..][k] == r.value && entries[1..][k].producto == Some(id)
          && forall j :: 0 <= j < k ==> entries[1..][j].producto != Some(id);
        assert entries[k + 1] == r.value;
        r
      else r
  }

  /** One line after the quotation: the first matching entry's price replaces the old one, which an
      entry without a price clears; a line no entry matches keeps its price. */
  function Quoted(l: SupplierLine, entries: seq<PriceEntry>): SupplierLine {
    var e := FirstEntry(entries, l.producto);
    if e.Some? then l.(precioUnitario := e.value.precioUnitario) else l
  }

  /** Every line quoted: the same products and quantities in the same order, only prices may differ. */
  function Requote(lines: seq<SupplierLine>, entries: seq<PriceEntry>): (r: seq<SupplierLine>)
    ensures |r| == |lines|
    ensures forall i :: 0 <= i < |lines| ==>
      && r[i].producto == lines[i].producto
      && r[i].cantidadSolicitada == lines[i].cantidadSolicitada
      && (FirstEntry(entries, lines[i].producto).None? ==> r[i] == lines[i])
      && (FirstEntry(entries, lines[i].producto).Some? ==> r[i].precioUnitario == FirstEntry(entries, lines[i].producto).value.precioUnitario)
  {
    seq(|lines|, i requires 0 <= i < |lines| => Quoted(lines[i], entries))
  }

  /** Sending the same quotation twice leaves the lines as the first one left them. */
  lemma RequoteIdempotent(lines: seq<SupplierLine>, entries: seq<PriceEntry>)
    ensures Requote(Requote(lines, entries), entries) == Requote(lines, entries)
  {
    var once := Requote(lines, entries);
    var twice := Requote(once, entries);
    forall i | 0 <= i < |lines| ensures twice[i] == once[i] {
      assert once[i].producto == lines[i].producto;
    }
  }

  /** An entry for a product the order does not contain changes nothing. */
  lemma ForeignEntryIgnored(lines: seq<SupplierLine>, entries: seq<PriceEntry>, extra: PriceEntry)
    requires forall i :: 0 <= i < |lines| ==> extra.producto != Some(lines[i].producto)
    ensures Requote(lines, entries + [extra]) == Requote(lines, entries)
  {
    forall i | 0 <= i < |lines| ensures FirstEntry(entries + [extra], lines[i].producto) == FirstEntry(entries, lines[i].producto) {
      FirstEntryAppend(entries, extra, lines[i].producto);
    }
  }

  lemma {:induction false} FirstEntryAppend(entries: seq<PriceEntry>, extra: PriceEntry, id: Id)
    requires extra.producto != Some(id)
    ensures FirstEntry(entries + [extra], id) == FirstEntry(entries, id)
    decreases |entries|
  {
    if entries == [] {
      assert FirstEntry([extra][1..], id) == None;
    } else {
      assert (entries + [extra])[0] == entries[0];
      assert (entries + [extra])[1..] == entries[1..] + [extra];
      FirstEntryAppend(entries[1..], extra, id);
    }
  }

  /** actualizarPreciosProveedor: 404 for a missing order, 403 unless the caller is its supplier; then each
      line takes its quoted price, both flags are raised, and `estadoPago` is left as it was. Without a
      list of entries the lookup throws (500) as soon as there is a line to quote. */
  method ActualizarPreciosProveedor(st: Store, caller: Id, pedidoId: Option<Id>, entries: Option<seq<PriceEntry>>)
    returns (out: Outcome<SupplierOrder>)
    requires st.Valid() && caller in st.users
    modifies st`supplierOrders
    ensures st.Valid()
    ensures pedidoId.None? || pedidoId.value !in old(st.supplierOrders) ==> out == NotFound && st.supplierOrders == old(st.supplierOrders)
    ensures pedidoId.Some? && pedidoId.value in old(st.supplierOrders) ==>
      var p := old(st.supplierOrders)[pedidoId.value];
      if p.proveedor != caller then out == Forbidden && st.supplierOrders == old(st.supplierOrders)
      else if entries.None? && p.productos != [] then out == ServerError && st.supplierOrders == old(st.supplierOrders)
      else
        var q := p.(productos := Requote(p.productos, if entries.Some? then entries.value else []),
                    pendienteRevisionAdmin := true, confirmadoPorProveedor := true);
        out == Ok(q) && st.supplierOrders == old(st.supplierOrders)[pedidoId.value := q]
  {
    if pedidoId.None? || pedidoId.value !in st.supplierOrders {
      return NotFound;
    }
    var pedido := st.supplierOrders[pedidoId.value];
    if pedido.proveedor != caller {
      return Forbidden;
    }
    if entries.None? && pedido.productos != [] {
      return ServerError;
    }
    var productos := if entries.Some? then entries.value else [];
    var lines := pedido.productos;
    var i := 0;
    while i < |lines|
      invariant 0 <= i <= |lines| && |lines| == |pedido.productos|
      invariant forall j :: 0 <= j < i ==> lines[j] == Quoted(pedido.productos[j], productos)
      invariant forall j :: i <= j < |lines| ==> lines[j] == pedido.productos[j]
    {
      var actualizado := FirstEntry(productos, lines[i].producto);
      if actualizado.Some? {
        lines := lines[i := lines[i].(precioUnitario := actualizado.value.precioUnitario)];
      }
      i := i + 1;
    }
    assert lines == Requote(pedido.productos, productos);
    pedido := pedido.(productos := lines, pendienteRevisionAdmin := true, confirmadoPorProveedor := true);
    st.supplierOrders := st.supplierOrders[pedidoId.value := pedido];
    out := Ok(pedido);
  }

  // ---------------------------------------------------------------- payment confirmation

  /** The product after one line's restock: the requested quantity added, with no clamp. */
  function Restocked(ps: map<Id, Product>, l: SupplierLine): Product
    requires l.producto in ps
  {
    ps[l.producto].(stock := ps[l.producto].stock + l.cantidadSolicitada)
  }

  /** The catalogue after the restock loop: lines apply in order, missing products are skipped, and the
      first save that fails validation throws, ending the loop with the earlier lines applied. */
  function Restock(ps: map<Id, Product>, lines: seq<SupplierLine>): map<Id, Product>
    decreases |lines|
  {
    if lines == [] then ps
    else if lines[0].producto !in ps then Restock(ps, lines[1..])
    else if ProductValid(Restocked(ps, lines[0])) then Restock(ps[lines[0].producto := Restocked(ps, lines[0])], lines[1..])
    else ps
  }

  /** The restock loop runs to its end. */
  predicate RestockCompletes(ps: map<Id, Product>, lines: seq<SupplierLine>)
    decreases |lines|
  {
    if lines == [] then true
    else if lines[0].producto !in ps then RestockCompletes(ps, lines[1..])
    else ProductValid(Restocked(ps, lines[0])) && RestockCompletes(ps[lines[0].producto := Restocked(ps, lines[0])], lines[1..])
  }

  /** The total quantity the lines request for product `id`. */
  function Requested(lines: seq<SupplierLine>, id: Id): int
    decreases |lines|
  {
    if lines == [] then 0
    else (if lines[0].producto == id then lines[0].cantidadSolicitada else 0) + Requested(lines[1..], id)
  }

  /** On a valid catalogue with non-negative quantities the loop completes, every existing product gains
      exactly the quantity the lines request for it (a repeated product accumulates), nothing else about
      a product changes, and the catalogue stays valid. */
  lemma {:induction false} RestockAdds(ps: map<Id, Product>, lines: seq<SupplierLine>)
    requires AllValid(ps)
    requires forall i :: 0 <= i < |lines| ==> lines[i].cantidadSolicitada >= 0
    ensures RestockCompletes(ps, lines)
    ensures var r := Restock(ps, lines);
      && r.Keys == ps.Keys
      && AllValid(r)
      && forall id :: id in ps ==> r[id] == ps[id].(stock := ps[id].stock + Requested(lines, id))
    decreases |lines|
  {
    if lines != [] {
      var l := lines[0];
      if l.producto in ps {
        var ps' := ps[l.producto := Restocked(ps, l)];
        assert ProductValid(Restocked(ps, l));
        assert AllValid(ps');
        RestockAdds(ps', lines[1..]);
      } else {
        RestockAdds(ps, lines[1..]);
      }
    }
  }

  /** There is no guard on `estadoPago`: confirming the same order twice adds its quantities twice. */
  lemma SecondConfirmationAddsAgain(ps: map<Id, Product>, lines: seq<SupplierLine>, id: Id)
    requires AllValid(ps) && id in ps
    requires forall i :: 0 <= i < |lines| ==> lines[i].cantidadSolicitada >= 0
    ensures var twice := Restock(Restock(ps, lines), lines);
      id in twice && twice[id].stock == ps[id].stock + 2 * Requested(lines, id)
  {
    RestockAdds(ps, lines);
    RestockAdds(Restock(ps, lines), lines);
  }

  /** confirmarPagoProveedor (any signed-in user): 404 for a missing order; for a cash order 403 unless the
      caller is its supplier; then `estadoPago` becomes `pagado` whatever it was and is saved, and the
      restock loop runs. A save rejected inside the loop answers 500, with `pagado` and the earlier lines
      already written.
      At line 107 the source compares the populated supplier document, not its id, with the caller's id;
      the model states the owner-id comparison that line evidently intends. */
  method ConfirmarPagoProveedor(st: Store, caller: Id, pedidoId: Id) returns (out: Outcome<()>)
    requires st.Valid() && caller in st.users
    modifies st`supplierOrders, st`products
    ensures st.Valid()
    ensures pedidoId !in old(st.supplierOrders) ==>
      out == NotFound && st.supplierOrders == old(st.supplierOrders) && st.products == old(st.products)
    ensures pedidoId in old(st.supplierOrders) ==>
      var p := old(st.supplierOrders)[pedidoId];
      if p.metodoPago == ProveedorEfectivo && p.proveedor != caller then
        out == Forbidden && st.supplierOrders == old(st.supplierOrders) && st.products == old(st.products)
      else
        && st.supplierOrders == old(st.supplierOrders)[pedidoId := p.(estadoPago := PagoPagado)]
        && st.products == Restock(old(st.products), p.productos)
        && out == (if RestockCompletes(old(st.products), p.productos) then Ok(()) else ServerError)
  {
    if pedidoId !in st.supplierOrders {
      return NotFound;
    }
    var pedido := st.supplierOrders[pedidoId];
    if pedido.metodoPago == ProveedorEfectivo && pedido.proveedor != caller {
      return Forbidden;
    }
    pedido := pedido.(estadoPago := PagoPagado);
    st.supplierOrders := st.supplierOrders[pedidoId := pedido];
    var items := pedido.productos;
    var i := 0;
    while i < |items|
      invariant 0 <= i <= |items|
      invariant Restock(st.products, items[i..]) == Restock(old(st.products), items)
      invariant RestockCompletes(st.products, items[i..]) == RestockCompletes(old(st.products), items)
      invariant st.products.Keys <= old(st.products).Keys
      invariant st.supplierOrders == old(st.supplierOrders)[pedidoId := pedido]
    {
      var item := items[i];
      if item.producto in st.products {
        var producto := st.products[item.producto];
        producto := producto.(stock := producto.stock + item.cantidadSolicitada);
        if !ProductValid(producto) {
          return ServerError;
        }
        st.products := st.products[item.producto := producto];
      }
      assert items[i..][1..] == items[i + 1..];
      i := i + 1;
    }
    out := Ok(());
  }

  // ---------------------------------------------------------------- admin review

  /** The review of a quotation: 400 unless one is pending; `aceptar` confirms, `rechazar` rejects, any
      other action is 400; a decision clears the pending flag. */
  function Review(o: SupplierOrder, accion: Option<string>): (r: Outcome<SupplierOrder>)
    ensures r.Ok? <==> o.pendienteRevisionAdmin && (accion == Some("aceptar") || accion == Some("rechazar"))
    ensures !r.Ok? ==> r == BadRequest
    ensures r.Ok? ==>
      && r.value == o.(estadoPago := r.value.estadoPago, pendienteRevisionAdmin := false)
      && (r.value.estadoPago == PagoConfirmado <==> accion == Some("aceptar"))
      && (r.value.estadoPago == PagoRechazado <==> accion == Some("rechazar"))
  {
    if !o.pendienteRevisionAdmin then BadRequest
    else if accion == Some("aceptar") then Ok(o.(estadoPago := PagoConfirmado, pendienteRevisionAdmin := false))
    else if accion == Some("rechazar") then Ok(o.(estadoPago := PagoRechazado, pendienteRevisionAdmin := false))
    else BadRequest
  }

  /** A decided quotation cannot be reviewed again until the supplier quotes anew. */
  lemma SecondReviewRejected(o: SupplierOrder, first: Option<string>, second: Option<string>)
    requires Review(o, first).Ok?
    ensures Review(Review(o, first).value, second) == BadRequest
  {
  }

  /** A quotation puts the order up for review, so an admin's decision then succeeds. */
  lemma QuotationEnablesReview(o: SupplierOrder, entries: seq<PriceEntry>, accion: Option<string>)
    requires accion == Some("aceptar") || accion == Some("rechazar")
    ensures Review(o.(productos := Requote(o.productos, entries), pendienteRevisionAdmin := true, confirmadoPorProveedor := true), accion).Ok?
  {
  }

  /** revisarPedidoPorAdmin (admins): 404 for a missing order, otherwise the review's answer, saved when it succeeds. */
  method RevisarPedidoPorAdmin(st: Store, caller: Id, pedidoId: Id, accion: Option<string>) returns (out: Outcome<SupplierOrder>)
    requires st.Valid() && caller in st.users && st.users[caller].rol == Admin
    modifies st`supplierOrders
    ensures st.Valid()
    ensures pedidoId !in old(st.supplierOrders) ==> out == NotFound && st.supplierOrders == old(st.supplierOrders)
    ensures pedidoId in old(st.supplierOrders) ==>
      && out == Review(old(st.supplierOrders)[pedidoId], accion)
      && st.supplierOrders == (if out.Ok? then old(st.supplierOrders)[pedidoId := out.value] else old(st.supplierOrders))
  {
    if pedidoId !in st.supplierOrders {
      return NotFound;
    }
    var pedido := st.supplierOrders[pedidoId];
    if !pedido.pendienteRevisionAdmin {
      return BadRequest;
    }
    if accion == Some("aceptar") {
      pedido := pedido.(estadoPago := PagoConfirmado);
    } else if accion == Some("rechazar") {
      pedido := pedido.(estadoPago := PagoRechazado);
    } else {
      return BadRequest;
    }
    pedido := pedido.(pendienteRevisionAdmin := false);
    st.supplierOrders := st.supplierOrders[pedidoId := pedido];
    out := Ok(pedido);
  }
}
