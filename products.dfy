/** The catalogue handlers of routes/productRoutes.js: the public list, lookup, creation with the
    product-code uniqueness check, unvalidated update, deletion and the favourite toggle. */
module ProductRoutes {
  import opened Models
  import opened Database

  /** GET /: exactly the products shown in the catalogue. */
  function VisibleProducts(ps: map<Id, Product>): (r: map<Id, Product>)
    ensures forall id :: id in r <==> id in ps && ps[id].visible
    ensures forall id :: id in r ==> r[id] == ps[id]
  {
    map id | id in ps && ps[id].visible :: ps[id]
  }

  /** GET /:id: 404 for a missing product; a hidden product is returned like any other. */
  function GetProduct(ps: map<Id, Product>, id: Id): (r: Outcome<Product>)
    ensures r == NotFound <==> id !in ps
    ensures r.Ok? <==> id in ps
    ensures r.Ok? ==> r.value == ps[id]
  {
    if id in ps then Ok(ps[id]) else NotFound
  }

  /** Some stored product already carries one of `codes`. */
  predicate CodesInUse(ps: map<Id, Product>, codes: seq<string>) {
    exists id, i, j :: id in ps && 0 <= i < |ps[id].codigos| && 0 <= j < |codes| && ps[id].codigos[i] == codes[j]
  }

  /** No code is shared by two different products. */
  predicate CodesDisjoint(ps: map<Id, Product>) {
    forall a, b, i, j :: a in ps && b in ps && a != b && 0 <= i < |ps[a].codigos| && 0 <= j < |ps[b].codigos|
      ==> ps[a].codigos[i] != ps[b].codigos[j]
  }

  /** The body of a create request. */
  datatype ProductRequest = ProductRequest(
    nombre: Option<string>,
    codigos: Option<seq<string>>,
    categoria: Option<Id>,
    precio: Option<int>,
    stock: Option<int>,
    imagen: Option<string>,
    favorito: Option<bool>,
    visible: Option<bool>)

  /** The product POST saves: the schema defaults fill what the body leaves out (no category, not a
      favourite, visible); the supplier is not taken from the body. None when `save()` rejects it. */
  function MakeProduct(req: ProductRequest): (r: Option<Product>)
    requires req.codigos.Some?
    ensures r.Some? <==>
      && req.nombre.Some? && req.nombre.value != ""
      && req.precio.Some? && req.precio.value >= 0
      && req.stock.Some? && req.stock.value >= 0
      && forall i :: 0 <= i < |req.codigos.value| ==> CodeValid(req.codigos.value[i])
    ensures r.Some? ==>
      && ProductValid(r.value)
      && Some(r.value.nombre) == req.nombre && r.value.codigos == req.codigos.value
      && Some(r.value.precio) == req.precio && Some(r.value.stock) == req.stock
      && r.value.categoria == req.categoria && r.value.imagen == req.imagen && r.value.proveedor.None?
      && (r.value.favorito <==> req.favorito == Some(true))
      && (!r.value.visible <==> req.visible == Some(false))
  {
    if req.nombre.None? || req.precio.None? || req.stock.None? then None
    else
      var p := Product(req.nombre.value, req.codigos.value, req.categoria, req.precio.value, req.stock.value,
        None, req.imagen, req.favorito == Some(true), req.visible != Some(false));
      if ProductValid(p) then Some(p) else None
  }

  /** Adding a product none of whose codes is in use keeps codes unique across products. */
  lemma CreateKeepsCodesDisjoint(ps: map<Id, Product>, id: Id, p: Product)
    requires CodesDisjoint(ps) && id !in ps && !CodesInUse(ps, p.codigos)
    ensures CodesDisjoint(ps[id := p])
  {
    var ps' := ps[id := p];
    forall a, b, i, j | a in ps' && b in ps' && a != b && 0 <= i < |ps'[a].codigos| && 0 <= j < |ps'[b].codigos|
      ensures ps'[a].codigos[i] != ps'[b].codigos[j]
    {
      if a == id {
        assert ps'[b] == ps[b];
        if ps[b].codigos[j] == p.codigos[i] {
          assert CodesInUse(ps, p.codigos);
        }
      } else if b == id {
        assert ps'[a] == ps[a];
        if ps[a].codigos[i] == p.codigos[j] {
          assert CodesInUse(ps, p.codigos);
        }
      }
    }
  }

  /** POST / (admins): 400 unless `codigos` is a non-empty list, 400 when a code is already in use,
      500 when `save()` rejects the product, otherwise the new product's id. */
  method CreateProduct(st: Store, caller: Id, req: ProductRequest) returns (out: Outcome<Id>)
    requires st.Valid() && caller in st.users && st.users[caller].rol == Admin
    modifies st`products, st`nextId
    ensures st.Valid()
    ensures req.codigos.None? || req.codigos.value == [] ==>
      out == BadRequest && st.products == old(st.products) && st.nextId == old(st.nextId)
    ensures req.codigos.Some? && req.codigos.value != [] && CodesInUse(old(st.products), req.codigos.value) ==>
      out == BadRequest && st.products == old(st.products) && st.nextId == old(st.nextId)
    ensures req.codigos.Some? && req.codigos.value != [] && !CodesInUse(old(st.products), req.codigos.value) ==>
      if MakeProduct(req).None? then out == ServerError && st.products == old(st.products) && st.nextId == old(st.nextId)
      else
        && out == Ok(old(st.nextId))
        && old(st.nextId) !in old(st.products)
        && st.products == old(st.products)[old(st.nextId) := MakeProduct(req).value]
    ensures CodesDisjoint(old(st.products)) ==> CodesDisjoint(st.products)
  {
    if req.codigos.None? || req.codigos.value == [] {
      return BadRequest;
    }
    if CodesInUse(st.products, req.codigos.value) {
      return BadRequest;
    }
    var producto := MakeProduct(req);
    if producto.None? {
      return ServerError;
    }
    var id := st.NewId();
    if CodesDisjoint(st.products) {
      CreateKeepsCodesDisjoint(st.products, id, producto.value);
    }
    st.products := st.products[id := producto.value];
    out := Ok(id);
  }

  /** A PUT body: every field it carries overwrites the stored one. */
  datatype ProductPatch = ProductPatch(
    nombre: Option<string>,
    codigos: Option<seq<string>>,
    categoria: Option<Id>,
    precio: Option<int>,
    stock: Option<int>,
    proveedor: Option<Id>,
    imagen: Option<string>,
    favorito: Option<bool>,
    visible: Option<bool>)

  /** The product after the patch, with no validation. */
  function Patched(p: Product, patch: ProductPatch): (r: Product)
    ensures patch.nombre.Some? ==> r.nombre == patch.nombre.value
    ensures patch.nombre.None? ==> r.nombre == p.nombre
    ensures patch.codigos.Some? ==> r.codigos == patch.codigos.value
    ensures patch.codigos.None? ==> r.codigos == p.codigos
    ensures patch.precio.Some? ==> r.precio == patch.precio.value
    ensures patch.precio.None? ==> r.precio == p.precio
    ensures patch.stock.Some? ==> r.stock == patch.stock.value
    ensures patch.stock.None? ==> r.stock == p.stock
    ensures patch.categoria.Some? ==> r.categoria == patch.categoria
    ensures patch.categoria.None? ==> r.categoria == p.categoria
    ensures patch.proveedor.Some? ==> r.proveedor == patch.proveedor
    ensures patch.proveedor.None? ==> r.proveedor == p.proveedor
    ensures patch.imagen.Some? ==> r.imagen == patch.imagen
    ensures patch.imagen.None? ==> r.imagen == p.imagen
    ensures patch.favorito.Some? ==> r.favorito == patch.favorito.value
    ensures patch.favorito.None? ==> r.favorito == p.favorito
    ensures patch.visible.Some? ==> r.visible == patch.visible.value
    ensures patch.visible.None? ==> r.visible == p.visible
    ensures patch == ProductPatch(None, None, None, None, None, None, None, None, None) ==> r == p
  {
    Product(
      if patch.nombre.Some? then patch.nombre.value else p.nombre,
      if patch.codigos.Some? then patch.codigos.value else p.codigos,
      if patch.categoria.Some? then patch.categoria else p.categoria,
      if patch.precio.Some? then patch.precio.value else p.precio,
      if patch.stock.Some? then patch.stock.value else p.stock,
      if patch.proveedor.Some? then patch.proveedor else p.proveedor,
      if patch.imagen.Some? then patch.imagen else p.imagen,
      if patch.favorito.Some? then patch.favorito.value else p.favorito,
      if patch.visible.Some? then patch.visible.value else p.visible)
  }

  /** Without the uniqueness check an update can give a product a code another product already has,
      and without validators it can store a negative stock. */
  lemma UpdateSkipsChecks()
    ensures var ps := map[0 := Product("a", ["X1"], None, 0, 0, None, None, false, true),
                          1 := Product("b", ["Y1"], None, 0, 0, None, None, false, true)];
      && CodesDisjoint(ps)
      && !CodesDisjoint(ps[1 := Patched(ps[1], ProductPatch(None, Some(["X1"]), None, None, None, None, None, None, None))])
      && !ProductValid(Patched(ps[1], ProductPatch(None, None, None, None, Some(-1), None, None, None, None)))
  {
    var ps := map[0 := Product("a", ["X1"], None, 0, 0, None, None, false, true),
                  1 := Product("b", ["Y1"], None, 0, 0, None, None, false, true)];
    var ps' := ps[1 := Patched(ps[1], ProductPatch(None, Some(["X1"]), None, None, None, None, None, None, None))];
    assert ps'[0].codigos[0] == ps'[1].codigos[0];
    forall a, b, i, j | a in ps && b in ps && a != b && 0 <= i < |ps[a].codigos| && 0 <= j < |ps[b].codigos|
      ensures ps[a].codigos[i] != ps[b].codigos[j]
    {
      assert i == 0 && j == 0;
      assert ps[a].codigos[0][0] != ps[b].codigos[0][0];
    }
  }

  /** PUT /:id (admins): 404 for a missing product; otherwise the patch is stored as is. */
  method UpdateProduct(st: Store, caller: Id, id: Id, patch: ProductPatch) returns (out: Outcome<Product>)
    requires st.Valid() && caller in st.users && st.users[caller].rol == Admin
    modifies st`products
    ensures st.Valid()
    ensures id !in old(st.products) ==> out == NotFound && st.products == old(st.products)
    ensures id in old(st.products) ==>
      var p := Patched(old(st.products)[id], patch);
      out == Ok(p) && st.products == old(st.products)[id := p]
  {
    if id !in st.products {
      return NotFound;
    }
    var producto := Patched(st.products[id], patch);
    st.products := st.products[id := producto];
    out := Ok(producto);
  }

  /** DELETE /:id (admins): 404 for a missing product; otherwise only that product is removed. */
  method DeleteProduct(st: Store, caller: Id, id: Id) returns (out: Outcome<()>)
    requires st.Valid() && caller in st.users && st.users[caller].rol == Admin
    modifies st`products
    ensures st.Valid()
    ensures id !in old(st.products) ==> out == NotFound && st.products == old(st.products)
    ensures id in old(st.products) ==> out == Ok(()) && st.products == old(st.products) - {id}
  {
    if id !in st.products {
      return NotFound;
    }
    st.products := st.products - {id};
    out := Ok(());
  }

  /** The catalogue after a favourite toggle: only that product's flag flips. */
  function Toggle(ps: map<Id, Product>, id: Id): (r: map<Id, Product>)
    requires id in ps
    ensures r.Keys == ps.Keys
    ensures r[id].favorito == !ps[id].favorito && r[id].(favorito := ps[id].favorito) == ps[id]
    ensures forall k :: k in ps && k != id ==> r[k] == ps[k]
  {
    ps[id := ps[id].(favorito := !ps[id].favorito)]
  }

  /** Toggling twice restores the catalogue. */
  lemma ToggleTwice(ps: map<Id, Product>, id: Id)
    requires id in ps
    ensures Toggle(Toggle(ps, id), id) == ps
  {
    var once := Toggle(ps, id);
    assert once[id].favorito == !ps[id].favorito;
    assert Toggle(once, id)[id] == ps[id];
  }

  /** PUT /:id/favorito (any signed-in user): 404 for a missing product; otherwise the flag flips and
      the new value is returned. */
  method ToggleFavorito(st: Store, caller: Id, id: Id) returns (out: Outcome<bool>)
    requires st.Valid() && caller in st.users
    modifies st`products
    ensures st.Valid()
    ensures id !in old(st.products) ==> out == NotFound && st.products == old(st.products)
    ensures id in old(st.products) ==> out == Ok(!old(st.products)[id].favorito) && st.products == Toggle(old(st.products), id)
  {
    if id !in st.products {
      return NotFound;
    }
    var producto := st.products[id];
    st.products := st.products[id := producto.(favorito := !producto.favorito)];
    out := Ok(st.products[id].favorito);
  }
}
