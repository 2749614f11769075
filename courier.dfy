/** The courier load balancer, utils/asignarRapidito.js: the first courier with the fewest pending orders. */
module Courier {
  import opened Models
  import opened Database

  predicate IsCourier(users: map<Id, User>, c: Id) {
    c in users && users[c].rol == Rapidito
  }

  /** A courier's load: the orders assigned to it whose state is exactly `pendiente`. */
  function Load(orders: map<Id, Order>, c: Id): nat {
    |set k: Id | k in orders && orders[k].asignadoA == Some(c) && orders[k].estado == Pendiente|
  }

  /** The courier selected after scanning the ids below `n` in ascending (insertion) order,
      replacing the running choice only on a strictly smaller load. */
  function Choose(orders: map<Id, Order>, users: map<Id, User>, n: nat): (r: Option<Id>)
    ensures r.Some? ==> r.value < n && IsCourier(users, r.value)
    decreases n
  {
    if n == 0 then None
    else
      var best := Choose(orders, users, n - 1);
      if IsCourier(users, n - 1) && (best.None? || Load(orders, n - 1) < Load(orders, best.value))
      then Some(n - 1)
      else best
  }

  /** No selection exactly when no user below `n` is a courier. */
  lemma {:induction false} ChooseNoneIff(orders: map<Id, Order>, users: map<Id, User>, n: nat)
    ensures Choose(orders, users, n).None? <==> forall c: Id :: c < n ==> !IsCourier(users, c)
    decreases n
  {
    if n > 0 {
      ChooseNoneIff(orders, users, n - 1);
    }
  }

  /** A selection is a courier, its load is at most every courier's load, and every courier
      scanned before it has a strictly larger load (ties go to the earliest). */
  lemma {:induction false} ChooseLeastLoaded(orders: map<Id, Order>, users: map<Id, User>, n: nat)
    ensures var r := Choose(orders, users, n);
      r.Some? ==>
        && r.value < n
        && IsCourier(users, r.value)
        && (forall c: Id :: c < n && IsCourier(users, c) ==> Load(orders, r.value) <= Load(orders, c))
        && (forall c: Id :: c < r.value && IsCourier(users, c) ==> Load(orders, r.value) < Load(orders, c))
    decreases n
  {
    if n > 0 {
      ChooseLeastLoaded(orders, users, n - 1);
      ChooseNoneIff(orders, users, n - 1);
    }
  }

  /** The selection depends on the orders only through the couriers' loads. */
  lemma {:induction false} ChooseDependsOnLoads(o1: map<Id, Order>, o2: map<Id, Order>, users: map<Id, User>, n: nat)
    requires forall c :: Load(o1, c) == Load(o2, c)
    ensures Choose(o1, users, n) == Choose(o2, users, n)
    decreases n
  {
    if n > 0 {
      ChooseDependsOnLoads(o1, o2, users, n - 1);
    }
  }

  /** asignarRapidito: one pass over the couriers keeping the least load seen (`menorCarga`, None
      standing for Infinity) and the courier that has it (`seleccionado`). It changes nothing. */
  method AsignarRapidito(st: Store) returns (seleccionado: Option<Id>)
    requires st.Valid()
    ensures seleccionado == Choose(st.orders, st.users, st.nextId)
    ensures seleccionado.None? <==> forall c :: c in st.users ==> st.users[c].rol != Rapidito
    ensures seleccionado.Some? ==> IsCourier(st.users, seleccionado.value)
    ensures seleccionado.Some? ==> forall c :: IsCourier(st.users, c) ==> Load(st.orders, seleccionado.value) <= Load(st.orders, c)
  {
    var menorCarga: Option<nat> := None;
    seleccionado := None;
    var id := 0;
    while id < st.nextId
      invariant id <= st.nextId
      invariant seleccionado == Choose(st.orders, st.users, id)
      invariant menorCarga == if seleccionado.None? then None else Some(Load(st.orders, seleccionado.value))
    {
      if id in st.users && st.users[id].rol == Rapidito {
        var carga := Load(st.orders, id);
        if menorCarga.None? || carga < menorCarga.value {
          menorCarga := Some(carga);
          seleccionado := Some(id);
        }
      }
      id := id + 1;
    }
    ChooseNoneIff(st.orders, st.users, st.nextId);
    ChooseLeastLoaded(st.orders, st.users, st.nextId);
    forall c | c in st.users && st.users[c].rol == Rapidito
      ensures seleccionado.Some?
    {
      assert c < st.nextId && IsCourier(st.users, c);
    }
  }
}
