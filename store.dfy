/** The database: the four collections as maps from id to document, and the id generator. */
module Database {
  import opened Models

  class Store {
    var orders: map<Id, Order>
    var products: map<Id, Product>
    var supplierOrders: map<Id, SupplierOrder>
    var users: map<Id, User>
    /** The next id to hand out; every stored id is below it. */
    var nextId: Id

    /** Ids are fresh below `nextId`, every stored order passed its schema validation,
        and the unique index on `email` holds. */
    ghost predicate Valid()
      reads this
    {
      && (forall k :: k in orders ==> k < nextId)
      && (forall k :: k in products ==> k < nextId)
      && (forall k :: k in supplierOrders ==> k < nextId)
      && (forall k :: k in users ==> k < nextId)
      && (forall k :: k in orders ==> OrderValid(orders[k]))
      && EmailsUnique(users)
    }

    constructor ()
      ensures Valid()
      ensures orders == map[] && products == map[] && supplierOrders == map[] && users == map[]
      ensures nextId == 0
    {
      orders, products, supplierOrders, users := map[], map[], map[], map[];
      nextId := 0;
    }

    /** A fresh document id, as the database assigns on insert. */
    method NewId() returns (id: Id)
      requires Valid()
      modifies this`nextId
      ensures Valid()
      ensures id == old(nextId) && nextId == id + 1
      ensures id !in orders && id !in products && id !in supplierOrders && id !in users
    {
      id := nextId;
      nextId := nextId + 1;
    }
  }
}
