# Grocery-store backend: a verified model of its business rules

This project models the request handlers of a grocery-store backend (an Express/Mongoose
service) in Dafny and proves properties of them. The database is a `Store` class holding four
maps from document id to record: orders, products, supplier orders and users. A counter
`nextId` hands out fresh ids, so ascending id order is insertion order. Every handler is a
method on the store. It returns an `Outcome` (`Ok`, `BadRequest`, `Unauthorized`, `Forbidden`,
`NotFound`, `ServerError`) and changes only the maps its `modifies` clause names.

The modelled parts are:

- the schemas, their enums, defaults and validators, and the password hook (`models.dfy`);
- the inventory ledger (`ledger.dfy`) and the courier load balancer (`courier.dfy`);
- the customer order state machine and the cash-out (`orders.dfy`);
- the order views, deletion and manual courier assignment (`order_routes.dfy`);
- the payment-provider event reconciler (`webhook.dfy`) and checkout-order construction (`payment.dfy`);
- the supplier purchase-order workflow (`supplier.dfy`) and low-stock grouping (`low_stock.dfy`);
- the product catalogue rules (`products.dfy`);
- the verification-code and password-reset state machine and the admin user operations (`users.dfy`);
- Bearer-header parsing and the role gates (`auth.dfy`).

Conventions:

- Money is integer cents.
- Time is an integer number of milliseconds passed in as `now`.
- A request field is an `Option`. "Truthy" means present and not the empty string.
- Saving a record runs the schema validation. A record the schema rejects answers 500 and is not stored.
- Role gates applied by the routers (`verificarAdmin`, `verificarUsuario`) are preconditions of the
  handler methods.
- The random verification code is a parameter in [100000, 999999).
- The password hash and the token verifier are uninterpreted functions.
- Mail delivery and the payment provider's answers are parameters.

## Model

| member | source | states |
|---|---|---|
| Models.ParseEstado | models/Order.js:38-50 | a text is accepted exactly when it is one of the seven states, and parsing inverts the state's text |
| Models.ParseTipoEntrega | models/Order.js:53-57 | only `tienda` and `domicilio` are accepted, each round-tripping with its text |
| Models.ParseMetodoPago | models/Order.js:79-83 | only `efectivo`, `tarjeta` and `transferencia` are accepted, each round-tripping with its text |
| Models.ParseMetodoPagoProveedor | models/SupplierOrder.js:20-24 | a supplier order's payment method is `efectivo` or `transferencia` and nothing else |
| Models.ParseRol | models/User.js:17-21 | the five roles are the only accepted role texts |
| Models.OrderValid | models/Order.js:60-65 | the conditional `required`: a home delivery needs a non-empty address; other deliveries may carry one or not |
| Models.CodeValid | models/Product.js:11-14 | a product code is a non-empty string of letters, digits and hyphens |
| Models.ProductValid | models/Product.js:8-37 | what `save()` checks of a product: a non-empty name, well-formed codes, and non-negative price and stock |
| Models.VerificarPassword | models/User.js:43-45 | a password is accepted exactly when its hash equals the stored hash |
| Models.PreSave | models/User.js:35-45 | saving rewrites only the password; when it was modified it becomes the hash of the clear text, which `verificarPassword` then accepts; otherwise the user is unchanged |
| Database.Store.constructor | models/User.js:11 | the database starts empty and satisfies the store invariant: ids below the counter, every order passing its schema, and e-mails unique as the unique index demands |
| Database.Store.NewId | models/Order.js:60-65 | the database hands out an id that is in none of the four collections, and the invariant (stored orders valid, e-mails unique) is kept |
| Ledger.ParseOperation | utils/updateStock.js:3-11 | only the exact text `increase` increases; any other value, the default included, decreases |
| Ledger.NewStock | utils/updateStock.js:9-13 | the written stock is the moved stock when that is non-negative and 0 otherwise, so never negative |
| Ledger.ApplyStock | utils/updateStock.js:5-19 | the catalogue after the loop: items apply in order, a missing product is skipped, and the first rejected save ends the loop with the earlier items applied |
| Ledger.ApplyStockFrame | utils/updateStock.js:5-15 | no product appears or disappears, only stock changes, products the items do not name are untouched, and a changed product's stock is non-negative |
| Ledger.ApplyStockAppend | utils/updateStock.js:5-16 | items apply in order: a batch is its first part followed by its second part, as long as the first part completes |
| Ledger.StopKeepsEarlierItems | utils/updateStock.js:15-19 | a rejected save ends the loop without an error: the items before it stay applied and the ones after it are never applied |
| Ledger.ValidCatalogStaysValid | utils/updateStock.js:5-16 | on a catalogue that passes validation the loop always completes and the catalogue stays valid |
| Ledger.RepeatedIdAccumulates | utils/updateStock.js:5-15 | two decreases of the same product in one batch subtract both quantities |
| Ledger.UpdateProductStock | utils/updateStock.js:3-20 | the loop leaves exactly the catalogue the item-by-item specification gives, skipping missing products |
| Courier.Load | utils/asignarRapidito.js:12-15 | a courier's load is the number of orders assigned to it whose state is exactly `pendiente` |
| Courier.Choose | utils/asignarRapidito.js:11-20 | the scan in ascending id order that replaces the running choice only on a strictly smaller load; a choice is always a courier already scanned |
| Courier.ChooseNoneIff | utils/asignarRapidito.js:6-23 | no courier is chosen exactly when no user is a courier |
| Courier.ChooseLeastLoaded | utils/asignarRapidito.js:11-20 | the choice is a courier whose load (its orders in `pendiente`) is at most every courier's, and every courier before it has a strictly larger load |
| Courier.ChooseDependsOnLoads | utils/asignarRapidito.js:12-20 | the choice depends on the orders only through the couriers' loads |
| Courier.AsignarRapidito | utils/asignarRapidito.js:5-24 | the loop returns the specified choice: null exactly when there is no courier, otherwise a least-loaded courier; it changes nothing |
| OrderController.InitialEstado | controllers/orderController.js:22-36 | a truthy `estado` is used verbatim; otherwise a cashier gets `completada` exactly for cash or transfer, else `pagado`, and anyone else gets `pendiente` exactly for home delivery, else `pendiente para recoger` |
| OrderController.SavedLines | models/Order.js:13-29 | the lines are stored exactly when every line has product, quantity and price, element by element |
| OrderController.MakeOrder | controllers/orderController.js:38-55 | the saved order is valid, belongs to the caller, keeps the supplied total, address, references and lines, has the computed state, the delivery type and payment method given or their defaults `tienda` and `efectivo`, the phone given or `""`, the given courier, a cashier exactly for cashiers and no cash-out; it is rejected exactly when the total is missing, a line is incomplete, the state, delivery type or payment method is not in its enum, or a home delivery has no address |
| OrderController.TipoEntregaField | models/Order.js:53-57 | an absent delivery type takes the default `tienda`; a present one is stored exactly when it is `tienda` or `domicilio` |
| OrderController.MetodoPagoField | models/Order.js:79-83 | an absent payment method takes the default `efectivo`; a present one is stored exactly when it is one of the three methods |
| OrderController.Normalize | controllers/orderController.js:61-67 | one stock item per line with the line's product; a zero quantity becomes 1 and any other is kept |
| OrderController.CrearOrden | controllers/orderController.js:9-105 | a rejected save answers 500 and changes nothing; otherwise the order is stored under a fresh id with the load balancer's courier for home delivery, then the stock of the normalised lines is decreased |
| OrderController.MarcarOrdenComoEntregada | controllers/orderController.js:108-131 | 404 for a missing order, then 403 unless the caller is the assigned courier; otherwise only the state changes, to `completada`, from any state |
| OrderController.MarcarOrdenComoFinalizada | controllers/orderController.js:134-160 | 404 before 403 unless admin or cashier, then 400 unless the state is one of the seven; otherwise that state is set whatever the current one |
| OrderController.Cut | controllers/orderController.js:171-174 | the same orders, only `corteCaja` changes, and it is set exactly on the cashier's orders |
| OrderController.CutIdempotent | controllers/orderController.js:171-174 | a second cash-out right after the first changes nothing |
| OrderController.CortarCaja | controllers/orderController.js:163-181 | 403 unless the caller is a cashier; otherwise the orders become the cut |
| OrderRoutes.ListOrders | routes/orderRoutes.js:21-41 | 403 exactly for callers who are neither admin nor cashier; otherwise the orders in the requested state, or all of them without a filter |
| OrderRoutes.MisOrdenes | routes/orderRoutes.js:58-65 | exactly the caller's own orders |
| OrderRoutes.Asignadas | routes/orderRoutes.js:68-84 | 403 exactly for non-couriers; otherwise every order assigned to the caller, in any state |
| OrderRoutes.VentasCajero | routes/orderRoutes.js:93-111 | 403 exactly for non-cashiers; otherwise the caller's sales not yet cut |
| OrderRoutes.VentasEmptyAfterCut | routes/orderRoutes.js:99-102 | after a cash-out the cashier's pending sales are empty and every other cashier's are unchanged |
| OrderRoutes.DeleteOrder | routes/orderRoutes.js:44-55 | 404 for a missing order; otherwise only that order is removed |
| OrderRoutes.AsignarRapiditoManual | routes/orderRoutes.js:117-155 | 404 for a missing order; otherwise only `asignadoA` changes, to the given id, with no role check and the state kept |
| Webhook.Reconcile | controllers/webhookController.js:47-58 | a home delivery gets the chosen courier and `pagado`; any other delivery gets `pendiente para recoger` and keeps its courier; the total becomes the charged amount; nothing else changes and validity is kept |
| Webhook.Completed | controllers/webhookController.js:28-59 | a completed payment for an existing order: the order gets `pagado` and the load balancer's courier for home delivery, else `pendiente para recoger`; its total becomes the charged amount; every other order is untouched |
| Webhook.Expired | controllers/webhookController.js:69-78 | an existing order becomes `cancelada` whatever its state, with nothing else changed; a missing one is a no-op |
| Webhook.LoadsIgnoreNonPending | utils/asignarRapidito.js:12-15 | changing an order that is not `pendiente` before or after leaves every courier's load unchanged |
| Webhook.RedeliveryIsStable | controllers/webhookController.js:28-66 | redelivering a completed event for an order that was not `pendiente` (such as a checkout order) leaves the orders as the first delivery left them: same state, total and courier |
| Webhook.StripeWebhook | controllers/webhookController.js:10-82 | bad signature 400; a completed event without an id 400, with a missing order 404, else reconciled; an expired event cancels; other events are acknowledged; stock never changes |
| Payment.CartLines | controllers/paymentController.js:28-32 | one line per cart item, in order, with product, quantity and price carried over |
| Payment.ReduceIsTotal | controllers/paymentController.js:38 | the left-to-right `reduce` equals the sum of price times quantity over the lines |
| Payment.CheckoutOrder | controllers/paymentController.js:23-46 | 400 exactly for a missing user, a missing or empty cart, or a missing delivery type; 500 exactly when the schema rejects the order; otherwise a valid `pendiente_pago` card order whose total is the cart's sum, with the address kept only for home delivery and no courier or cashier |
| Payment.CreateCheckoutSession | controllers/paymentController.js:12-81 | the order is stored before the provider call, so a provider failure answers 500 with the order kept; stock is never touched |
| SupplierOrders.SupplierLines | models/SupplierOrder.js:9-19 | the lines are stored exactly when each has a product and a quantity; the price may be absent |
| SupplierOrders.MakeSupplierOrder | controllers/supplierOrderController.js:22-31 | a new supplier order has the requested supplier, lines and method, `estadoPago` `pendiente`, both flags false, and the creation time |
| SupplierOrders.CrearPedidoProveedor | controllers/supplierOrderController.js:7-59 | 400 for missing data, 404 with nothing saved as soon as a product is not found, 500 for a rejected save, otherwise the stored order |
| SupplierOrders.FirstEntry | controllers/supplierOrderController.js:84 | the first request entry for a product, or none exactly when no entry names it |
| SupplierOrders.Requote | controllers/supplierOrderController.js:83-88 | the same products and quantities in the same order; a line takes the first matching entry's price and a line no entry matches is unchanged |
| SupplierOrders.RequoteIdempotent | controllers/supplierOrderController.js:83-88 | sending the same quotation twice gives the same lines as sending it once |
| SupplierOrders.ForeignEntryIgnored | controllers/supplierOrderController.js:83-88 | an entry for a product the order does not contain changes nothing |
| SupplierOrders.FirstEntryAppend | controllers/supplierOrderController.js:84 | an entry appended for another product does not change the first match |
| SupplierOrders.ActualizarPreciosProveedor | controllers/supplierOrderController.js:73-98 | 404, then 403 unless the caller owns the order; otherwise the lines are requoted, both flags are raised and `estadoPago` is kept |
| SupplierOrders.Restock | controllers/supplierOrderController.js:115-121 | the catalogue after the restock loop: each line's quantity is added to its product in order, missing products are skipped, and the first rejected save ends the loop |
| SupplierOrders.RestockAdds | controllers/supplierOrderController.js:115-121 | on a valid catalogue every existing product gains exactly the quantity the lines request for it, with no clamp, and the catalogue stays valid |
| SupplierOrders.SecondConfirmationAddsAgain | controllers/supplierOrderController.js:112-121 | there is no guard on `estadoPago`: a second confirmation adds the quantities again |
| SupplierOrders.ConfirmarPagoProveedor | controllers/supplierOrderController.js:101-145 | 404; 403 for a cash order whose supplier is not the caller; otherwise `pagado` from any state, then the restock loop, 500 if a save inside it is rejected |
| SupplierOrders.Review | controllers/supplierOrderController.js:169-181 | success exactly when a review is pending and the action is `aceptar` or `rechazar`; these set `confirmado` or `rechazado` and clear the flag; anything else is 400 |
| SupplierOrders.SecondReviewRejected | controllers/supplierOrderController.js:169-181 | after a decision a second review is rejected |
| SupplierOrders.QuotationEnablesReview | controllers/supplierOrderController.js:90-91 | after a quotation an admin's decision succeeds |
| SupplierOrders.RevisarPedidoPorAdmin | controllers/supplierOrderController.js:161-207 | 404 for a missing order; otherwise the review's answer, stored when it succeeds |
| LowStock.PushScanned | utils/detectarBajoStock.js:14-29 | one `push` extends the scan by one product and keeps the groups faithful, ascending and complete |
| LowStock.DetectarBajoStock | utils/detectarBajoStock.js:4-37 | 500 exactly when a low product's supplier is missing; otherwise every group sits under its supplier's id, is non-empty and lists only that supplier's low products with their name and stock, in query order; every low product with a supplier is listed; nothing changes |
| ProductRoutes.VisibleProducts | routes/productRoutes.js:7-14 | exactly the visible products |
| ProductRoutes.GetProduct | routes/productRoutes.js:27-36 | 404 exactly for a missing product; otherwise the product, visible or not |
| ProductRoutes.MakeProduct | models/Product.js:8-53 | the product is saved exactly when it has a name, a non-negative price and stock, and well-formed codes; the defaults give no supplier, not a favourite, visible |
| ProductRoutes.CreateKeepsCodesDisjoint | routes/productRoutes.js:49-55 | adding a product none of whose codes is in use keeps codes unique across products |
| ProductRoutes.CreateProduct | routes/productRoutes.js:39-62 | 400 without codes, 400 when a code is in use, 500 for a rejected save, otherwise the new product; codes stay unique across products |
| ProductRoutes.Patched | routes/productRoutes.js:65-71 | each of the nine fields the body carries overwrites the stored one, each field it leaves out is kept, and an empty body changes nothing |
| ProductRoutes.UpdateSkipsChecks | routes/productRoutes.js:65-71 | an update can give a product a code already in use and can store a negative stock |
| ProductRoutes.UpdateProduct | routes/productRoutes.js:65-79 | 404 for a missing product; otherwise the patched product is stored without validation |
| ProductRoutes.DeleteProduct | routes/productRoutes.js:82-92 | 404 for a missing product; otherwise only that product is removed |
| ProductRoutes.Toggle | routes/productRoutes.js:100-104 | only the product's `favorito` flips |
| ProductRoutes.ToggleTwice | routes/productRoutes.js:100-104 | toggling twice restores the catalogue |
| ProductRoutes.ToggleFavorito | routes/productRoutes.js:95-113 | 404 for a missing product; otherwise the flag flips and its new value is returned |
| UserController.DecimalText | controllers/userController.js:34 | the code text is a non-empty string of decimal digits |
| UserController.DecimalRoundTrip | controllers/userController.js:34 | the code text reads back as the drawn number |
| UserController.CodesDiffer | controllers/userController.js:34 | different draws give different codes |
| UserController.WithCode | controllers/userController.js:96-100 | only the code and expiry change, and the new code is accepted exactly until ten minutes after `now` |
| UserController.Cleared | controllers/userController.js:77-79 | only the code and expiry change, and both become absent |
| UserController.CodeSingleUse | controllers/userController.js:77-79 | once cleared, no code is accepted |
| UserController.AbsentCodeMatchesAbsent | controllers/userController.js:123-127 | the literal comparison accepts an absent code for a user with no stored code and no expiry |
| UserController.UserWithEmail | controllers/userController.js:29 | the first user with the e-mail, or none exactly when no user has it |
| UserController.AddKeepsEmailsUnique | models/User.js:11 | adding a user with an unused e-mail keeps e-mails unique |
| UserController.UpdateKeepsEmailsUnique | models/User.js:11 | rewriting a user without touching its e-mail keeps e-mails unique |
| UserController.RegisterUser | controllers/userController.js:21-64 | 400 for a missing field or a registered e-mail; 500 with nothing saved if the mail fails; otherwise a fresh unverified `cliente` with the hashed password, the code and a ten-minute expiry |
| UserController.VerifyEmail | controllers/userController.js:67-87 | 404, then 400 if verified, for a different code, or if expired; otherwise verified with the code cleared |
| UserController.SendResetCode | controllers/userController.js:90-115 | 404; otherwise the code and expiry are overwritten and kept even when the mail then fails with 500 |
| UserController.ResetPassword | controllers/userController.js:118-140 | the same 400 for an unknown e-mail or a different code, 400 if expired, 500 with no change for a missing password, otherwise the new password hashed and the code cleared |
| UserController.CreateUser | controllers/userController.js:175-195 | 400 for a missing field or a registered e-mail, 500 for an unknown role, otherwise the user with that role and the hashed password |
| UserController.DeleteUser | controllers/userController.js:211-223 | 404 for a missing user; otherwise only that user is removed |
| UserController.GetUsersByRol | controllers/userController.js:226-238 | 400 exactly without a role; otherwise exactly the users with that role, without passwords |
| UserController.UnknownRolMatchesNobody | controllers/userController.js:233 | a role text outside the enum lists nobody |
| Auth.FirstField | middleware/authMiddleware.js:16 | the text up to the first space: a space-free prefix followed by a space or the end |
| Auth.FirstFieldOf | middleware/authMiddleware.js:16 | a space-free word followed by a space or by nothing is read back exactly |
| Auth.ParseBearer | middleware/authMiddleware.js:13-16 | a token exactly for headers starting with `Bearer `, namely field 1 of the header split on spaces |
| Auth.BearerRoundTrip | middleware/authMiddleware.js:13-16 | `Bearer ` followed by a token yields that token |
| Auth.DoubleSpaceGivesEmptyToken | middleware/authMiddleware.js:16 | `Bearer  x` yields the empty token |
| Auth.VerificarUsuario | middleware/authMiddleware.js:8-42 | 401 exactly for a missing or malformed header, a token that does not verify, or an unknown user; otherwise the user the token names |
| Auth.VerificarAdmin | middleware/authMiddleware.js:45-61 | the same 401s, 403 exactly for signed-in non-admins, and otherwise the admin |

## Left out

- Wiring: the Express server, CORS, the keep-alive ping and the database connection are not modelled.
- Carts, categories and restock requests are not modelled, and neither is the stock controller, which only calls the low-stock detector.
- The admin's unfiltered product list, login, profile, the unfiltered user list and the supplier's own order lists are not modelled.
- E-mail notifications from the shared mail helper catch their own errors, so they are not modelled.
- Registration and password recovery use the mail transport directly. Its outcome is the `mailOk` parameter.
- JWT signing and verification, bcrypt salting and hashing, and `crypto.randomInt` become parameters or uninterpreted functions.
- The hash is a plain function of the clear text, with no salt.
- Payment provider: the signature check is the `signatureValid` parameter, and the session call's result is the `sessionUrl` parameter.
- The line items sent to the provider, and the rounding of their unit amounts, are not modelled.
- Floating point is not modelled. All money is integer cents, and the webhook's division by 100 is the cents-to-units conversion, so the stored total equals the charged amount in cents.
- Concurrency is not modelled: every handler runs atomically, so lost updates between concurrent stock changes do not arise in the model.
- Logging is not modelled.
- `populate` is not modelled: results are maps of stored records.
- The views and lists return maps keyed by id. The newest-first sort of the cashier's sales view is not modelled.
- A save failing in the completed-payment branch of the webhook cannot happen in the model: the stored order stays valid.
- `utils/estadosOrden.js` is not part of this model. Its constants are taken to be the seven states of the order schema.
- OrderController.CrearOrden: the line id is taken from `producto`. The fallbacks to `producto._id`, `_id` and `id` for other line shapes are not modelled.
- OrderRoutes.AsignarRapiditoManual: the courier id is always supplied. A request without one is not modelled.
- SupplierOrders.ConfirmarPagoProveedor: at line 107 the source compares the populated supplier document, not its id, with the caller's id. As written, every cash confirmation would be refused, or would throw when the supplier no longer exists. The model states the owner-id comparison the line evidently intends.
- SupplierOrders.ActualizarPreciosProveedor: entries are matched by product id. The source compares the entry's text with the id's text.
- ProductRoutes.UpdateProduct: a patch can set a field but cannot clear it to null. Type casting of the body is not modelled.
- Models.ProductValid: the code check follows the regular expression, so an empty code is rejected. The library's `match` validator would let an empty string through.
- UserController.UserWithEmail: a request without an e-mail finds nobody.
- Webhook.StripeWebhook: there is no idempotency guard, and the model follows the code. Webhook.RedeliveryIsStable proves what a redelivery preserves. For an order that was in `pendiente` before the first delivery, a redelivery may choose a different courier.
