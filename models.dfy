/** The records and enumerations of the four Mongoose schemas (models/Order.js, models/Product.js,
    models/SupplierOrder.js, models/User.js), with the validators that `save()` runs on them. */
module Models {

  /** A document id. Ids are handed out in increasing order, so ascending id order is insertion order. */
  type Id = nat

  datatype Option<T> = None | Some(value: T)

  /** The HTTP answer of a handler: 200/201 with a payload, or one of the error statuses. */
  datatype Outcome<T> = Ok(value: T) | BadRequest | Unauthorized | Forbidden | NotFound | ServerError

  /** A request field is truthy in JavaScript when it is present and not the empty string. */
  predicate Truthy(s: Option<string>) {
    s.Some? && s.value != ""
  }

  // ---------------------------------------------------------------- Order

  /** `estado` of an order; the seven values of the enum at models/Order.js:40-48. */
  datatype Estado = Pendiente | PendientePago | ParaRecoger | Completada | Cancelada | EnCamino | Pagado

  function EstadoText(e: Estado): string {
    match e
    case Pendiente => "pendiente"
    case PendientePago => "pendiente_pago"
    case ParaRecoger => "pendiente para recoger"
    case Completada => "completada"
    case Cancelada => "cancelada"
    case EnCamino => "en camino"
    case Pagado => "pagado"
  }

  /** The enum validator: a string is accepted exactly when it is the text of one of the states. */
  function ParseEstado(s: string): (r: Option<Estado>)
    ensures r.Some? ==> EstadoText(r.value) == s
    ensures forall e :: EstadoText(e) == s ==> r == Some(e)
  {
    if s == "pendiente" then Some(Pendiente)
    else if s == "pendiente_pago" then Some(PendientePago)
    else if s == "pendiente para recoger" then Some(ParaRecoger)
    else if s == "completada" then Some(Completada)
    else if s == "cancelada" then Some(Cancelada)
    else if s == "en camino" then Some(EnCamino)
    else if s == "pagado" then Some(Pagado)
    else None
  }

  datatype TipoEntrega = Tienda | Domicilio

  function TipoEntregaText(t: TipoEntrega): string {
    match t
    case Tienda => "tienda"
    case Domicilio => "domicilio"
  }

  function ParseTipoEntrega(s: string): (r: Option<TipoEntrega>)
    ensures r.Some? ==> TipoEntregaText(r.value) == s
    ensures forall t :: TipoEntregaText(t) == s ==> r == Some(t)
  {
    if s == "tienda" then Some(Tienda)
    else if s == "domicilio" then Some(Domicilio)
    else None
  }

  datatype MetodoPago = Efectivo | Tarjeta | Transferencia

  function MetodoPagoText(m: MetodoPago): string {
    match m
    case Efectivo => "efectivo"
    case Tarjeta => "tarjeta"
    case Transferencia => "transferencia"
  }

  function ParseMetodoPago(s: string): (r: Option<MetodoPago>)
    ensures r.Some? ==> MetodoPagoText(r.value) == s
    ensures forall m :: MetodoPagoText(m) == s ==> r == Some(m)
  {
    if s == "efectivo" then Some(Efectivo)
    else if s == "tarjeta" then Some(Tarjeta)
    else if s == "transferencia" then Some(Transferencia)
    else None
  }

  const DefaultEstado: Estado := Pendiente
  const DefaultTipoEntrega: TipoEntrega := Tienda
  const DefaultMetodoPago: MetodoPago := Efectivo

  /** One purchased line; the price is a snapshot in cents. */
  datatype OrderLine = OrderLine(producto: Id, cantidad: int, precio: int)

  /** A customer order. `total` is in cents; `corteCaja` marks inclusion in a cashier's cash-out. */
  datatype Order = Order(
    usuario: Id,
    productos: seq<OrderLine>,
    total: int,
    estado: Estado,
    tipoEntrega: TipoEntrega,
    direccion: Option<string>,
    referencias: Option<string>,
    telefono: string,
    metodoPago: MetodoPago,
    asignadoA: Option<Id>,
    cashier: Option<Id>,
    corteCaja: bool)

  /** The conditional `required` on `direccion`: a home delivery needs a non-empty address
      (a String path fails `required` when absent or empty); other deliveries may carry one or not. */
  predicate OrderValid(o: Order) {
    o.tipoEntrega == Domicilio ==> Truthy(o.direccion)
  }

  // ---------------------------------------------------------------- Product

  predicate IsCodeChar(c: char) {
    ('a' <= c <= 'z') || ('A' <= c <= 'Z') || ('0' <= c <= '9') || c == '-'
  }

  /** The pattern `^[a-zA-Z0-9-]+$` every product code must match. */
  predicate CodeValid(code: string) {
    |code| > 0 && forall i :: 0 <= i < |code| ==> IsCodeChar(code[i])
  }

  /** A catalogue entry. `precio` is in cents. */
  datatype Product = Product(
    nombre: string,
    codigos: seq<string>,
    categoria: Option<Id>,
    precio: int,
    stock: int,
    proveedor: Option<Id>,
    imagen: Option<string>,
    favorito: bool,
    visible: bool)

  /** What `Product.save()` checks: a name, well-formed codes, and non-negative price and stock. */
  predicate ProductValid(p: Product) {
    && p.nombre != ""
    && (forall i :: 0 <= i < |p.codigos| ==> CodeValid(p.codigos[i]))
    && p.precio >= 0
    && p.stock >= 0
  }

  // ---------------------------------------------------------------- SupplierOrder

  datatype MetodoPagoProveedor = ProveedorEfectivo | ProveedorTransferencia

  function MetodoPagoProveedorText(m: MetodoPagoProveedor): string {
    match m
    case ProveedorEfectivo => "efectivo"
    case ProveedorTransferencia => "transferencia"
  }

  function ParseMetodoPagoProveedor(s: string): (r: Option<MetodoPagoProveedor>)
    ensures r.Some? ==> MetodoPagoProveedorText(r.value) == s
    ensures forall m :: MetodoPagoProveedorText(m) == s ==> r == Some(m)
  {
    if s == "efectivo" then Some(ProveedorEfectivo)
    else if s == "transferencia" then Some(ProveedorTransferencia)
    else None
  }

  /** `estadoPago`: pendiente (the default), pagado, confirmado, rechazado. */
  datatype EstadoPago = PagoPendiente | PagoPagado | PagoConfirmado | PagoRechazado

  /** One requested line; the unit price stays absent until the supplier quotes it. */
  datatype SupplierLine = SupplierLine(producto: Id, cantidadSolicitada: int, precioUnitario: Option<int>)

  datatype SupplierOrder = SupplierOrder(
    proveedor: Id,
    productos: seq<SupplierLine>,
    metodoPago: MetodoPagoProveedor,
    estadoPago: EstadoPago,
    pendienteRevisionAdmin: bool,
    confirmadoPorProveedor: bool,
    creadoEn: int)

  // ---------------------------------------------------------------- User

  datatype Rol = Admin | Cajero | Cliente | Rapidito | Proveedor

  function RolText(r: Rol): string {
    match r
    case Admin => "admin"
    case Cajero => "cajero"
    case Cliente => "cliente"
    case Rapidito => "rapidito"
    case Proveedor => "proveedor"
  }

  function ParseRol(s: string): (r: Option<Rol>)
    ensures r.Some? ==> RolText(r.value) == s
    ensures forall x :: RolText(x) == s ==> r == Some(x)
  {
    if s == "admin" then Some(Admin)
    else if s == "cajero" then Some(Cajero)
    else if s == "cliente" then Some(Cliente)
    else if s == "rapidito" then Some(Rapidito)
    else if s == "proveedor" then Some(Proveedor)
    else None
  }

  const DefaultRol: Rol := Cliente

  /** A user account. `codeExpires` is a time in milliseconds; the password is stored hashed. */
  datatype User = User(
    nombre: string,
    email: string,
    password: string,
    rol: Rol,
    verified: bool,
    verificationCode: Option<string>,
    codeExpires: Option<int>)

  /** `email` carries a unique index: no two stored users share one. */
  ghost predicate EmailsUnique(users: map<Id, User>) {
    forall a, b :: a in users && b in users && users[a].email == users[b].email ==> a == b
  }

  /** The `pre("save")` hook: the password is replaced by its hash exactly when it was modified.
      The hash is an uninterpreted function of the clear text (salting is not modelled). */
  function PreSave(u: User, passwordModified: bool, hash: string -> string): (r: User)
    ensures r.(password := u.password) == u
    ensures passwordModified ==> r.password == hash(u.password) && VerificarPassword(r, u.password, hash)
    ensures !passwordModified ==> r == u
  {
    if passwordModified then u.(password := hash(u.password)) else u
  }

  /** `verificarPassword`: the input, hashed, is compared with the stored hash. */
  predicate VerificarPassword(u: User, input: string, hash: string -> string) {
    hash(input) == u.password
  }
}
