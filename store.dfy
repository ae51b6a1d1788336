/**
 * The request handlers of the backend as atomic steps on one store that
 * holds the six collections. Each handler looks a document up, rejects with
 * 403, 404 or 400 when a role or status check fails (changing nothing), and
 * otherwise writes new status values into one or two collections.
 */
module Server {
  import opened Records
  import opened DueOrder
  import opened Layout
  import opened Espulas

  /** The most documents one listing query returns. */
  const ListLimit := 1000

  predicate MayCreateOrders(role: string) {
    role == Admin || role == OperadorInterno
  }

  predicate MayUpdateOrders(role: string) {
    role == Admin || role == OperadorExterno
  }

  /**
   * The colour update_order writes to the order's machine. It is chosen from
   * the requested status alone: red for "em_producao", green for
   * "finalizado" and yellow for any other string.
   */
  function TargetColor(requested: string): (c: string)
    ensures c in MachineStatuses && c != Azul && c != Desativada
    ensures c == Vermelho <==> requested == EmProducao
    ensures c == Verde <==> requested == Finalizado
    ensures c == Amarelo <==> requested !in {EmProducao, Finalizado}
  {
    if requested == EmProducao then Vermelho
    else if requested == Finalizado then Verde
    else Amarelo
  }

  /**
   * A new work order on machine `m`, with the record's defaults: pending,
   * created at `now`, not started or finished, with empty release note and
   * final report; it copies the machine's code and layout and the request.
   */
  function NewOrder(id: string, req: OrderCreate, m: Machine, createdBy: string, now: Time): (o: Order)
    ensures o.id == id && o.createdBy == createdBy && o.createdAt == now
    ensures o.status == Pendente && o.status in OrderStatuses
    ensures o.startedAt.None? && o.finishedAt.None? && o.observacaoLiberacao == "" && o.laudoFinal == ""
    ensures o.machineId == req.machineId && o.machineCode == m.code && o.layoutType == m.layoutType
    ensures o.cliente == req.cliente && o.artigo == req.artigo && o.cor == req.cor
    ensures o.quantidade == req.quantidade && o.observacao == req.observacao
  {
    Order(id, req.machineId, m.code, m.layoutType, req.cliente, req.artigo, req.cor,
          req.quantidade, req.observacao, Pendente, createdBy, now, None, None, "", "")
  }

  /**
   * A new maintenance window on machine `m`, with the record's defaults:
   * open ("em_manutencao"), created at `now`, with no finish stamp or
   * finisher.
   */
  function NewMaintenance(id: string, req: MaintenanceCreate, m: Machine, createdBy: string, now: Time): (w: Maintenance)
    ensures w.id == id && w.createdBy == createdBy && w.createdAt == now
    ensures w.status == EmManutencao && w.status in MaintenanceStatuses
    ensures w.finishedAt.None? && w.finishedBy.None?
    ensures w.machineId == req.machineId && w.machineCode == m.code && w.motivo == req.motivo
  {
    Maintenance(id, req.machineId, m.code, req.motivo, EmManutencao, createdBy, now, None, None)
  }

  /**
   * A new bobbin lot, with the record's defaults: pending, launched,
   * created and updated at `now`, with neither history stamp.
   */
  function NewEspula(id: string, req: EspulaCreate, createdBy: string, now: Time): (e: Espula)
    ensures e.id == id && e.createdBy == createdBy && e.status == Pendente
    ensures e.dataLancamento == now && e.createdAt == now && e.updatedAt == now
    ensures e.iniciadoEm.None? && e.finalizadoEm.None?
    ensures e.cliente == req.cliente && e.artigo == req.artigo && e.cor == req.cor
    ensures e.quantidadeMetros == req.quantidadeMetros && e.carga == req.carga
    ensures e.observacoes == req.observacoes && e.dataPrevistaEntrega == req.dataPrevistaEntrega
  {
    Espula(id, req.cliente, req.artigo, req.cor, req.quantidadeMetros, req.carga, req.observacoes,
           Pendente, now, req.dataPrevistaEntrega, createdBy, now, now, None, None)
  }

  /** A new user: active by default, created at `now`, holding the hash of its password. */
  function NewUser(id: string, username: string, email: string, role: string, passwordHash: string, now: Time): (u: User)
    ensures u.id == id && u.username == username && u.email == email && u.role == role
    ensures u.active && u.createdAt == now && u.password == passwordHash
  {
    User(id, username, email, role, true, now, passwordHash)
  }

  /**
   * What update_order's `$set` makes of an order: the two notes are always
   * overwritten; "em_producao" also sets the status and the start stamp,
   * "finalizado" the status and the finish stamp, and any other status
   * leaves both alone. Nothing else in the order changes.
   */
  function OrderAfterUpdate(o: Order, u: OrderUpdate, now: Time): (o': Order)
    ensures o'.observacaoLiberacao == u.observacaoLiberacao && o'.laudoFinal == u.laudoFinal
    ensures u.status == EmProducao ==> o'.status == EmProducao && o'.startedAt == Some(now) && o'.finishedAt == o.finishedAt
    ensures u.status == Finalizado ==> o'.status == Finalizado && o'.finishedAt == Some(now) && o'.startedAt == o.startedAt
    ensures u.status !in {EmProducao, Finalizado} ==>
      o'.status == o.status && o'.startedAt == o.startedAt && o'.finishedAt == o.finishedAt
    ensures o.status in OrderStatuses ==> o'.status in OrderStatuses
    ensures o'.(observacaoLiberacao := o.observacaoLiberacao, laudoFinal := o.laudoFinal, status := o.status,
                startedAt := o.startedAt, finishedAt := o.finishedAt) == o
  {
    var notes := o.(observacaoLiberacao := u.observacaoLiberacao, laudoFinal := u.laudoFinal);
    if u.status == EmProducao then notes.(status := EmProducao, startedAt := Some(now))
    else if u.status == Finalizado then notes.(status := Finalizado, finishedAt := Some(now))
    else notes
  }

  predicate HasUsername(users: map<string, User>, username: string) {
    exists id :: id in users && users[id].username == username
  }

  ghost predicate UniqueUsernames(users: map<string, User>) {
    forall a, b :: a in users && b in users && users[a].username == users[b].username ==> a == b
  }

  /**
   * One of the three accounts the reset routine guarantees. `password` is
   * the fixed plain password; the model stores only the salted hash supplied
   * with the account, so the plain text is kept for the record and never read.
   */
  datatype DefaultUser = DefaultUser(username: string, email: string, role: string, password: string)

  const DefaultAdmin := DefaultUser("admin", "admin@mercotextil.com", Admin, "admin123")
  const DefaultInterno := DefaultUser("interno", "interno@mercotextil.com", OperadorInterno, "interno123")
  const DefaultExterno := DefaultUser("externo", "externo@mercotextil.com", OperadorExterno, "externo123")

  /**
   * What the reset routine draws for one default account: a fresh id and a
   * (salted, hence not functional) hash of the account's password.
   */
  datatype Account = Account(id: string, passwordHash: string)

  /** The users after making sure one default account exists (matched by username). */
  function WithDefaultUser(users: map<string, User>, d: DefaultUser, a: Account, now: Time): map<string, User> {
    if HasUsername(users, d.username) then users
    else users[a.id := NewUser(a.id, d.username, d.email, d.role, a.passwordHash, now)]
  }

  /** The users after the reset routine's three default-account steps. */
  function WithDefaultUsers(users: map<string, User>, admin: Account, interno: Account, externo: Account, now: Time): map<string, User> {
    WithDefaultUser(WithDefaultUser(WithDefaultUser(users, DefaultAdmin, admin, now), DefaultInterno, interno, now),
                    DefaultExterno, externo, now)
  }

  /** Fresh, pairwise different ids for the three default accounts. */
  predicate FreshAccounts(users: map<string, User>, admin: Account, interno: Account, externo: Account) {
    && admin.id !in users && interno.id !in users && externo.id !in users
    && admin.id != interno.id && admin.id != externo.id && interno.id != externo.id
  }

  /** What toggle_machine_active answers. */
  datatype ToggleReply = ToggleReply(machineId: string, active: bool, status: string)

  class Store {
    var machines: map<string, Machine>
    var orders: map<string, Order>
    var maintenance: map<string, Maintenance>
    var espulas: map<string, Espula>
    var users: map<string, User>
    var statusHistory: map<string, StatusHistory>

    /**
     * Every document sits under its own id; machines only ever hold one of
     * the five colours, orders one of the three order statuses and windows
     * one of the two window statuses; orders and windows name an existing
     * machine; no two users share a username.
     */
    ghost predicate Valid()
      reads this
    {
      && (forall id :: id in machines ==> machines[id].id == id && machines[id].status in MachineStatuses)
      && (forall id :: id in orders ==>
            orders[id].id == id && orders[id].status in OrderStatuses && orders[id].machineId in machines)
      && (forall id :: id in maintenance ==>
            maintenance[id].id == id && maintenance[id].status in MaintenanceStatuses &&
            maintenance[id].machineId in machines)
      && (forall id :: id in espulas ==> espulas[id].id == id)
      && (forall id :: id in users ==> users[id].id == id)
      && UniqueUsernames(users)
    }

    /** The ids of the lots that are not "finalizado". */
    ghost function LiveEspulaIds(): set<string>
      reads this
    {
      set id | id in espulas && espulas[id].status != Finalizado
    }

    constructor ()
      ensures Valid()
      ensures machines == map[] && orders == map[] && maintenance == map[]
      ensures espulas == map[] && users == map[] && statusHistory == map[]
    {
      machines, orders, maintenance := map[], map[], map[];
      espulas, users, statusHistory := map[], map[], map[];
    }

    /**
     * POST /orders. Only "admin" and "operador_interno" may create orders;
     * the machine must exist and be green. On success the new order is
     * pending, copies the machine's code and layout, and the machine turns
     * yellow.
     */
    method CreateOrder(caller: Caller, req: OrderCreate, newId: string, now: Time) returns (r: Result<Order>)
      requires Valid()
      requires newId !in orders
      modifies this
      ensures Valid()
      ensures maintenance == old(maintenance) && espulas == old(espulas)
      ensures users == old(users) && statusHistory == old(statusHistory)
      ensures r.Ok? <==>
        MayCreateOrders(caller.role) && req.machineId in old(machines) && old(machines)[req.machineId].status == Verde
      ensures !MayCreateOrders(caller.role) ==> r == Err(Forbidden)
      ensures MayCreateOrders(caller.role) && req.machineId !in old(machines) ==> r == Err(NotFound)
      ensures (MayCreateOrders(caller.role) && req.machineId in old(machines) &&
               old(machines)[req.machineId].status != Verde) ==> r == Err(BadRequest)
      ensures r.Err? ==> orders == old(orders) && machines == old(machines)
      ensures r.Ok? ==>
        var m := old(machines)[req.machineId];
        && r.value == NewOrder(newId, req, m, caller.username, now)
        && r.value.status == Pendente && r.value.machineCode == m.code && r.value.layoutType == m.layoutType
        && orders == old(orders)[newId := r.value]
        && machines == old(machines)[req.machineId := m.(status := Amarelo, updatedAt := now)]
    {
      if !MayCreateOrders(caller.role) {
        return Err(Forbidden);
      }
      if req.machineId !in machines {
        return Err(NotFound);
      }
      var m := machines[req.machineId];
      if m.status != Verde {
        return Err(BadRequest);
      }
      var order := NewOrder(newId, req, m, caller.username, now);
      orders := orders[newId := order];
      machines := machines[req.machineId := m.(status := Amarelo, updatedAt := now)];
      r := Ok(order);
    }

    /**
     * PUT /orders/{id}. Only "admin" and "operador_externo" may update; the
     * order must exist. The order's current status is not consulted: the
     * notes are always overwritten, "em_producao" and "finalizado" set the
     * status and stamp, any other string keeps the status, and the order's
     * machine gets the colour fixed by the requested status alone.
     */
    method UpdateOrder(caller: Caller, orderId: string, upd: OrderUpdate, now: Time) returns (r: Result<()>)
      requires Valid()
      modifies this
      ensures Valid()
      ensures maintenance == old(maintenance) && espulas == old(espulas)
      ensures users == old(users) && statusHistory == old(statusHistory)
      ensures r.Ok? <==> MayUpdateOrders(caller.role) && orderId in old(orders)
      ensures !MayUpdateOrders(caller.role) ==> r == Err(Forbidden)
      ensures MayUpdateOrders(caller.role) && orderId !in old(orders) ==> r == Err(NotFound)
      ensures r.Err? ==> orders == old(orders) && machines == old(machines)
      ensures r.Ok? ==>
        var o := old(orders)[orderId];
        && orders == old(orders)[orderId := OrderAfterUpdate(o, upd, now)]
        && o.machineId in old(machines)
        && machines == old(machines)[o.machineId := old(machines)[o.machineId].(status := TargetColor(upd.status), updatedAt := now)]
    {
      if !MayUpdateOrders(caller.role) {
        return Err(Forbidden);
      }
      if orderId !in orders {
        return Err(NotFound);
      }
      var o := orders[orderId];
      var updated := o.(observacaoLiberacao := upd.observacaoLiberacao, laudoFinal := upd.laudoFinal);
      var color := Amarelo;
      if upd.status == EmProducao {
        updated := updated.(status := EmProducao, startedAt := Some(now));
        color := Vermelho;
      } else if upd.status == Finalizado {
        updated := updated.(status := Finalizado, finishedAt := Some(now));
        color := Verde;
      }
      orders := orders[orderId := updated];
      var m := machines[o.machineId];
      machines := machines[o.machineId := m.(status := color, updatedAt := now)];
      r := Ok(());
    }

    /**
     * POST /maintenance. Any authenticated user; the machine must exist and
     * be green. On success a window "em_manutencao" is inserted and the
     * machine turns blue.
     */
    method CreateMaintenance(caller: Caller, req: MaintenanceCreate, newId: string, now: Time)
      returns (r: Result<Maintenance>)
      requires Valid()
      requires newId !in maintenance
      modifies this
      ensures Valid()
      ensures orders == old(orders) && espulas == old(espulas)
      ensures users == old(users) && statusHistory == old(statusHistory)
      ensures r.Ok? <==> req.machineId in old(machines) && old(machines)[req.machineId].status == Verde
      ensures req.machineId !in old(machines) ==> r == Err(NotFound)
      ensures req.machineId in old(machines) && old(machines)[req.machineId].status != Verde ==> r == Err(BadRequest)
      ensures r.Err? ==> maintenance == old(maintenance) && machines == old(machines)
      ensures r.Ok? ==>
        var m := old(machines)[req.machineId];
        && r.value == NewMaintenance(newId, req, m, caller.username, now)
        && r.value.status == EmManutencao
        && maintenance == old(maintenance)[newId := r.value]
        && machines == old(machines)[req.machineId := m.(status := Azul, updatedAt := now)]
    {
      if req.machineId !in machines {
        return Err(NotFound);
      }
      var m := machines[req.machineId];
      if m.status != Verde {
        return Err(BadRequest);
      }
      var w := NewMaintenance(newId, req, m, caller.username, now);
      maintenance := maintenance[newId := w];
      machines := machines[req.machineId := m.(status := Azul, updatedAt := now)];
      r := Ok(w);
    }

    /**
     * PUT /maintenance/{id}/finish. Any authenticated user; the window must
     * exist and not be "finalizada". On success it is closed by the caller
     * and its machine is set green, whatever else is pending on it.
     */
    method FinishMaintenance(caller: Caller, maintenanceId: string, now: Time) returns (r: Result<()>)
      requires Valid()
      modifies this
      ensures Valid()
      ensures orders == old(orders) && espulas == old(espulas)
      ensures users == old(users) && statusHistory == old(statusHistory)
      ensures r.Ok? <==> maintenanceId in old(maintenance) && old(maintenance)[maintenanceId].status != Finalizada
      ensures maintenanceId !in old(maintenance) ==> r == Err(NotFound)
      ensures maintenanceId in old(maintenance) && old(maintenance)[maintenanceId].status == Finalizada ==>
              r == Err(BadRequest)
      ensures r.Err? ==> maintenance == old(maintenance) && machines == old(machines)
      ensures r.Ok? ==>
        var w := old(maintenance)[maintenanceId];
        && maintenance == old(maintenance)[maintenanceId :=
             w.(status := Finalizada, finishedAt := Some(now), finishedBy := Some(caller.username))]
        && w.machineId in old(machines)
        && machines == old(machines)[w.machineId := old(machines)[w.machineId].(status := Verde, updatedAt := now)]
    {
      if maintenanceId !in maintenance {
        return Err(NotFound);
      }
      var w := maintenance[maintenanceId];
      if w.status == Finalizada {
        return Err(BadRequest);
      }
      maintenance := maintenance[maintenanceId :=
        w.(status := Finalizada, finishedAt := Some(now), finishedBy := Some(caller.username))];
      var m := machines[w.machineId];
      machines := machines[w.machineId := m.(status := Verde, updatedAt := now)];
      r := Ok(());
    }

    /**
     * PUT /machines/{id}/toggle-active. Admin only; the machine must exist.
     * Flips `active` (a missing field reads as active) and sets the colour to
     * "desativada" when deactivating and "verde" when reactivating, whatever
     * the colour was.
     */
    method ToggleMachineActive(caller: Caller, machineId: string, now: Time) returns (r: Result<ToggleReply>)
      requires Valid()
      modifies this
      ensures Valid()
      ensures orders == old(orders) && maintenance == old(maintenance) && espulas == old(espulas)
      ensures users == old(users) && statusHistory == old(statusHistory)
      ensures r.Ok? <==> caller.role == Admin && machineId in old(machines)
      ensures caller.role != Admin ==> r == Err(Forbidden)
      ensures caller.role == Admin && machineId !in old(machines) ==> r == Err(NotFound)
      ensures r.Err? ==> machines == old(machines)
      ensures r.Ok? ==>
        var m := old(machines)[machineId];
        var active := !IsActive(m);
        var status := if active then Verde else Desativada;
        && r.value == ToggleReply(machineId, active, status)
        && machines == old(machines)[machineId := m.(active := Some(active), status := status, updatedAt := now)]
    {
      if caller.role != Admin {
        return Err(Forbidden);
      }
      if machineId !in machines {
        return Err(NotFound);
      }
      var m := machines[machineId];
      var active := !IsActive(m);
      var status := if !active then Desativada else Verde;
      machines := machines[machineId := m.(active := Some(active), status := status, updatedAt := now)];
      r := Ok(ToggleReply(machineId, active, status));
    }

    /** POST /espulas. Any authenticated user; the new lot is "pendente". */
    method CreateEspula(caller: Caller, req: EspulaCreate, newId: string, now: Time) returns (e: Espula)
      requires Valid()
      requires newId !in espulas
      modifies this
      ensures Valid()
      ensures machines == old(machines) && orders == old(orders) && maintenance == old(maintenance)
      ensures users == old(users) && statusHistory == old(statusHistory)
      ensures e == NewEspula(newId, req, caller.username, now)
      ensures e.status == Pendente && e.iniciadoEm.None? && e.finalizadoEm.None?
      ensures espulas == old(espulas)[newId := e]
    {
      e := NewEspula(newId, req, caller.username, now);
      espulas := espulas[newId := e];
    }

    /**
     * PUT /espulas/{id}. Any authenticated user; the lot must exist. The
     * requested status is stored verbatim with the patch BuildPatch makes.
     */
    method UpdateEspula(espulaId: string, status: string, now: Time) returns (r: Result<()>)
      requires Valid()
      modifies this
      ensures Valid()
      ensures machines == old(machines) && orders == old(orders) && maintenance == old(maintenance)
      ensures users == old(users) && statusHistory == old(statusHistory)
      ensures r.Ok? <==> espulaId in old(espulas)
      ensures espulaId !in old(espulas) ==> r == Err(NotFound) && espulas == old(espulas)
      ensures r.Ok? ==> espulas == old(espulas)[espulaId := EspulaAfterUpdate(old(espulas)[espulaId], status, now)]
      ensures r.Ok? ==>
        var e, e' := old(espulas)[espulaId], espulas[espulaId];
        && e'.status == status && e'.updatedAt == now
        && e'.iniciadoEm == (if status == EmProducaoAguardando && e.iniciadoEm.None? then Some(now) else e.iniciadoEm)
        && e'.finalizadoEm == (if status == Finalizado then Some(now) else e.finalizadoEm)
    {
      if espulaId !in espulas {
        return Err(NotFound);
      }
      var e := espulas[espulaId];
      var patch := BuildPatch(e, status, now);
      espulas := espulas[espulaId := ApplyPatch(e, patch)];
      r := Ok(());
    }

    /**
     * GET /espulas. The lots that are not "finalizado", each once, ascending
     * by due date, at most ListLimit of them; any live lot left out of a full
     * page is due no earlier than every lot on it.
     */
    method GetEspulas() returns (r: seq<Espula>)
      requires Valid()
      ensures SortedByDue(r) && DistinctIds(r)
      ensures forall i :: 0 <= i < |r| ==> r[i].id in LiveEspulaIds() && espulas[r[i].id] == r[i]
      ensures |r| == if |LiveEspulaIds()| <= ListLimit then |LiveEspulaIds()| else ListLimit
      ensures forall id :: id in LiveEspulaIds() && id !in IdSet(r) ==>
        forall i :: 0 <= i < |r| ==> DueLe(r[i], espulas[id])
    {
      ghost var live := LiveEspulaIds();
      var pending := espulas.Keys;
      var all: seq<Espula> := [];
      while pending != {}
        invariant pending <= espulas.Keys
        invariant SortedByDue(all) && DistinctIds(all)
        invariant forall i :: 0 <= i < |all| ==>
          all[i].id in live && all[i].id !in pending && espulas[all[i].id] == all[i]
        invariant forall id :: id in live && id !in pending ==> id in IdSet(all)
        decreases pending
      {
        var id :| id in pending;
        var e := espulas[id];
        if e.status != Finalizado {
          assert e.id == id && id in live;
          assert e.id !in IdSet(all);
          var k := InsertionPoint(all, e);
          InsertKeepsSorted(all, e, k);
          InsertKeepsIds(all, e, k);
          all := all[..k] + [e] + all[k..];
        }
        pending := pending - {id};
      }
      assert IdSet(all) == live;
      DistinctIdsCard(all);
      if |all| <= ListLimit {
        r := all;
      } else {
        r := all[..ListLimit];
        FirstPage(all, ListLimit);
      }
    }

    /**
     * POST /users. Admin only; the username must be free. The new user is
     * active and stores the hash the hashing routine gave for its password.
     */
    method CreateUser(caller: Caller, req: UserCreate, newId: string, passwordHash: string, now: Time)
      returns (r: Result<User>)
      requires Valid()
      requires newId !in users
      modifies this
      ensures Valid()
      ensures machines == old(machines) && orders == old(orders) && maintenance == old(maintenance)
      ensures espulas == old(espulas) && statusHistory == old(statusHistory)
      ensures r.Ok? <==> caller.role == Admin && !HasUsername(old(users), req.username)
      ensures caller.role != Admin ==> r == Err(Forbidden)
      ensures caller.role == Admin && HasUsername(old(users), req.username) ==> r == Err(BadRequest)
      ensures r.Err? ==> users == old(users)
      ensures r.Ok? ==>
        && r.value == NewUser(newId, req.username, req.email, req.role, passwordHash, now)
        && users == old(users)[newId := r.value]
    {
      if caller.role != Admin {
        return Err(Forbidden);
      }
      if HasUsername(users, req.username) {
        return Err(BadRequest);
      }
      var u := NewUser(newId, req.username, req.email, req.role, passwordHash, now);
      users := users[newId := u];
      r := Ok(u);
    }

    /**
     * DELETE /users/{id}. Admin only; an admin may not delete their own
     * account (checked before existence); the user must exist.
     */
    method DeleteUser(caller: Caller, userId: string) returns (r: Result<()>)
      requires Valid()
      modifies this
      ensures Valid()
      ensures machines == old(machines) && orders == old(orders) && maintenance == old(maintenance)
      ensures espulas == old(espulas) && statusHistory == old(statusHistory)
      ensures r.Ok? <==> caller.role == Admin && userId != caller.id && userId in old(users)
      ensures caller.role != Admin ==> r == Err(Forbidden)
      ensures caller.role == Admin && userId == caller.id ==> r == Err(BadRequest)
      ensures caller.role == Admin && userId != caller.id && userId !in old(users) ==> r == Err(NotFound)
      ensures r.Err? ==> users == old(users)
      ensures r.Ok? ==> users == old(users) - {userId}
    {
      if caller.role != Admin {
        return Err(Forbidden);
      }
      if userId == caller.id {
        return Err(BadRequest);
      }
      if userId !in users {
        return Err(NotFound);
      }
      users := users - {userId};
      r := Ok(());
    }

    /** Inserts one default account unless its username is taken. */
    method EnsureDefaultUser(d: DefaultUser, a: Account, now: Time)
      requires UniqueUsernames(users) && forall u :: u in users ==> users[u].id == u
      requires a.id !in users
      modifies this`users
      ensures UniqueUsernames(users) && forall u :: u in users ==> users[u].id == u
      ensures users == WithDefaultUser(old(users), d, a, now)
    {
      if !HasUsername(users, d.username) {
        users := users[a.id := NewUser(a.id, d.username, d.email, d.role, a.passwordHash, now)];
      }
    }

    /** Inserts one machine per slot of a layout, in table order. */
    method AddLayout(layoutType: string, layout: seq<Slot>, suffixes: seq<string>, now: Time)
      requires |suffixes| == |layout|
      modifies this`machines
      ensures machines == old(machines) + LayoutMachines(layoutType, layout, suffixes, now)
    {
      for i := 0 to |layout|
        invariant machines == old(machines) + LayoutMachines(layoutType, layout[..i], suffixes[..i], now)
      {
        assert layout[..i + 1][..i] == layout[..i] && suffixes[..i + 1][..i] == suffixes[..i];
        var id := MachineId(layoutType, layout[i].code, suffixes[i]);
        machines := machines[id := NewMachine(id, layout[i], layoutType, now)];
      }
      assert layout[..|layout|] == layout && suffixes[..|suffixes|] == suffixes;
    }

    /**
     * The reset routine, run on the two machine tables `l16` and `l32`
     * (`Layout16` and `Layout32` wherever it is called): empties every
     * collection but users, makes sure the three default accounts exist
     * (keeping every existing user), and recreates the floor from the two
     * tables, every machine green and active.
     */
    method InitData(
      admin: Account, interno: Account, externo: Account,
      l16: seq<Slot>, l32: seq<Slot>, suffixes16: seq<string>, suffixes32: seq<string>, now: Time)
      requires Valid()
      requires FreshAccounts(users, admin, interno, externo)
      requires |suffixes16| == |l16| && |suffixes32| == |l32|
      modifies this
      ensures Valid()
      ensures orders == map[] && espulas == map[] && maintenance == map[] && statusHistory == map[]
      ensures users == WithDefaultUsers(old(users), admin, interno, externo, now)
      ensures forall id :: id in old(users) ==> id in users && users[id] == old(users)[id]
      ensures HasUsername(users, "admin") && HasUsername(users, "interno") && HasUsername(users, "externo")
      ensures machines == LayoutMachines(Fusos16, l16, suffixes16, now) + LayoutMachines(Fusos32, l32, suffixes32, now)
      ensures forall id :: id in machines ==> machines[id].status == Verde && machines[id].active == Some(true)
    {
      orders, espulas, maintenance, statusHistory, machines := map[], map[], map[], map[], map[];
      ResetUsers(admin, interno, externo, now);
      assert orders == map[] && espulas == map[] && maintenance == map[] && statusHistory == map[];
      RecreateFloor(l16, l32, suffixes16, suffixes32, now);
      FloorFresh(l16, l32, suffixes16, suffixes32, now);
    }

    /** The three "create the default account unless its username exists" steps of the reset routine. */
    method ResetUsers(admin: Account, interno: Account, externo: Account, now: Time)
      requires UniqueUsernames(users) && forall u :: u in users ==> users[u].id == u
      requires FreshAccounts(users, admin, interno, externo)
      modifies this`users
      ensures UniqueUsernames(users) && forall u :: u in users ==> users[u].id == u
      ensures users == WithDefaultUsers(old(users), admin, interno, externo, now)
      ensures forall id :: id in old(users) ==> id in users && users[id] == old(users)[id]
      ensures HasUsername(users, "admin") && HasUsername(users, "interno") && HasUsername(users, "externo")
    {
      EnsureDefaultUser(DefaultAdmin, admin, now);
      EnsureDefaultUser(DefaultInterno, interno, now);
      EnsureDefaultUser(DefaultExterno, externo, now);
      DefaultUsersPresent(old(users), admin, interno, externo, now);
    }

    /** The two layout loops of the reset routine, on a machine collection just emptied. */
    method RecreateFloor(l16: seq<Slot>, l32: seq<Slot>, s16: seq<string>, s32: seq<string>, now: Time)
      requires machines == map[]
      requires |s16| == |l16| && |s32| == |l32|
      modifies this`machines
      ensures machines == LayoutMachines(Fusos16, l16, s16, now) + LayoutMachines(Fusos32, l32, s32, now)
    {
      AddLayout(Fusos16, l16, s16, now);
      AddLayout(Fusos32, l32, s32, now);
      ghost var m16 := LayoutMachines(Fusos16, l16, s16, now);
      ghost var m32 := LayoutMachines(Fusos32, l32, s32, now);
      assert machines == m16 + m32 by {
        assert map[] + m16 == m16;
      }
    }

    /**
     * POST /reset-database. Admin only; then the reset routine on the two
     * floor tables, which leaves 119 machines: 52 "16_fusos" and 67
     * "32_fusos".
     */
    method ResetDatabase(
      caller: Caller, admin: Account, interno: Account, externo: Account,
      suffixes16: seq<string>, suffixes32: seq<string>, now: Time) returns (r: Result<()>)
      requires Valid()
      requires FreshAccounts(users, admin, interno, externo)
      requires |suffixes16| == |Layout16| && |suffixes32| == |Layout32|
      requires DistinctMachineIds(Fusos16, Layout16, suffixes16)
      requires DistinctMachineIds(Fusos32, Layout32, suffixes32)
      modifies this
      ensures Valid()
      ensures r.Ok? <==> caller.role == Admin
      ensures r.Err? ==> r.error == Forbidden && unchanged(this)
      ensures r.Ok? ==> orders == map[] && espulas == map[] && maintenance == map[] && statusHistory == map[]
      ensures r.Ok? ==> users == WithDefaultUsers(old(users), admin, interno, externo, now)
      ensures r.Ok? ==> machines == LayoutMachines(Fusos16, Layout16, suffixes16, now) + LayoutMachines(Fusos32, Layout32, suffixes32, now)
      ensures r.Ok? ==> |machines| == 119
      ensures r.Ok? ==> |InLayout(machines, Fusos16)| == 52 && |InLayout(machines, Fusos32)| == 67
      ensures r.Ok? ==> forall id :: id in machines ==> machines[id].status == Verde && machines[id].active == Some(true)
    {
      if caller.role != Admin {
        return Err(Forbidden);
      }
      InitData(admin, interno, externo, Layout16, Layout32, suffixes16, suffixes32, now);
      FloorShape(Layout16, Layout32, suffixes16, suffixes32, now);
      r := Ok(());
    }
  }

  /**
   * Making sure of one default account with a fresh id keeps every existing
   * user and every username already present, and leaves the account's
   * username present.
   */
  lemma WithDefaultUserKeeps(users: map<string, User>, d: DefaultUser, a: Account, now: Time)
    requires a.id !in users
    ensures var after := WithDefaultUser(users, d, a, now);
      && (forall u :: u in users ==> u in after && after[u] == users[u])
      && (forall name :: HasUsername(users, name) ==> HasUsername(after, name))
      && HasUsername(after, d.username)
  {
    var after := WithDefaultUser(users, d, a, now);
    forall name | HasUsername(users, name) ensures HasUsername(after, name) {
      var u :| u in users && users[u].username == name;
      assert u in after && after[u].username == name;
    }
    if !HasUsername(users, d.username) {
      assert a.id in after && after[a.id].username == d.username;
    }
  }

  /**
   * Making sure of the three default accounts keeps every existing user and
   * leaves each default username present.
   */
  lemma DefaultUsersPresent(users: map<string, User>, admin: Account, interno: Account, externo: Account, now: Time)
    requires FreshAccounts(users, admin, interno, externo)
    ensures var after := WithDefaultUsers(users, admin, interno, externo, now);
      && (forall id :: id in users ==> id in after && after[id] == users[id])
      && HasUsername(after, "admin") && HasUsername(after, "interno") && HasUsername(after, "externo")
  {
    var u1 := WithDefaultUser(users, DefaultAdmin, admin, now);
    WithDefaultUserKeeps(users, DefaultAdmin, admin, now);
    var u2 := WithDefaultUser(u1, DefaultInterno, interno, now);
    WithDefaultUserKeeps(u1, DefaultInterno, interno, now);
    WithDefaultUserKeeps(u2, DefaultExterno, externo, now);
  }

  /**
   * The first `n` lots of a sorted list with distinct ids are sorted with
   * distinct ids, and every lot cut off is due no earlier than every lot kept.
   */
  lemma FirstPage(all: seq<Espula>, n: nat)
    requires SortedByDue(all) && DistinctIds(all) && n <= |all|
    ensures SortedByDue(all[..n]) && DistinctIds(all[..n])
    ensures forall x :: x in IdSet(all) && x !in IdSet(all[..n]) ==>
      exists j :: n <= j < |all| && all[j].id == x && forall i :: 0 <= i < n ==> DueLe(all[..n][i], all[j])
  {
    var page := all[..n];
    forall x | x in IdSet(all) && x !in IdSet(page)
      ensures exists j :: n <= j < |all| && all[j].id == x && forall i :: 0 <= i < n ==> DueLe(page[i], all[j])
    {
      var j :| 0 <= j < |all| && all[j].id == x;
    }
  }

  /**
   * Two layouts' machines never share an id, because every id starts with
   * its own layout group's name.
   */
  lemma LayoutsDisjoint(l16: seq<Slot>, l32: seq<Slot>, s16: seq<string>, s32: seq<string>, now: Time)
    requires |s16| == |l16| && |s32| == |l32|
    ensures LayoutMachines(Fusos16, l16, s16, now).Keys !! LayoutMachines(Fusos32, l32, s32, now).Keys
  {
    var m16 := LayoutMachines(Fusos16, l16, s16, now);
    var m32 := LayoutMachines(Fusos32, l32, s32, now);
    LayoutMachinesFresh(Fusos16, l16, s16, now);
    LayoutMachinesFresh(Fusos32, l32, s32, now);
    forall id | id in m16 ensures id !in m32 {
      assert id[..8] == Fusos16;
      assert Fusos16[0] != Fusos32[0];
    }
  }

  /**
   * The recreated floor holds only green, active machines, each stored
   * under its own id, whatever the tables and suffixes.
   */
  lemma FloorFresh(l16: seq<Slot>, l32: seq<Slot>, s16: seq<string>, s32: seq<string>, now: Time)
    requires |s16| == |l16| && |s32| == |l32|
    ensures var ms := LayoutMachines(Fusos16, l16, s16, now) + LayoutMachines(Fusos32, l32, s32, now);
      forall id :: id in ms ==> ms[id].id == id && ms[id].status == Verde && ms[id].active == Some(true)
  {
    var m16 := LayoutMachines(Fusos16, l16, s16, now);
    var m32 := LayoutMachines(Fusos32, l32, s32, now);
    LayoutMachinesFresh(Fusos16, l16, s16, now);
    LayoutMachinesFresh(Fusos32, l32, s32, now);
    var ms := m16 + m32;
    forall id | id in ms ensures ms[id].id == id && ms[id].status == Verde && ms[id].active == Some(true) {
      if id in m32 {
        assert ms[id] == m32[id];
      } else {
        assert ms[id] == m16[id];
      }
    }
  }

  /** The machines of a map that belong to one layout group. */
  ghost function InLayout(ms: map<string, Machine>, layoutType: string): set<string> {
    set id | id in ms && ms[id].layoutType == layoutType
  }

  /**
   * Joining the machines of two different layout groups with no id in
   * common: the sizes add up and each group's machines are exactly the
   * ones that came from it.
   */
  lemma GroupsOfUnion(a: map<string, Machine>, b: map<string, Machine>, ta: string, tb: string)
    requires ta != tb && a.Keys !! b.Keys
    requires forall id :: id in a ==> a[id].layoutType == ta
    requires forall id :: id in b ==> b[id].layoutType == tb
    ensures |a + b| == |a| + |b|
    ensures InLayout(a + b, ta) == a.Keys && InLayout(a + b, tb) == b.Keys
  {
    assert (a + b).Keys == a.Keys + b.Keys;
  }

  /**
   * The size of the recreated floor: with distinct ids within each table,
   * the two loops leave one machine per slot of either table, the first
   * table's in "16_fusos" and the second's in "32_fusos".
   */
  lemma FloorShape(l16: seq<Slot>, l32: seq<Slot>, s16: seq<string>, s32: seq<string>, now: Time)
    requires |s16| == |l16| && |s32| == |l32|
    requires DistinctMachineIds(Fusos16, l16, s16)
    requires DistinctMachineIds(Fusos32, l32, s32)
    ensures var ms := LayoutMachines(Fusos16, l16, s16, now) + LayoutMachines(Fusos32, l32, s32, now);
      && |ms| == |l16| + |l32|
      && |InLayout(ms, Fusos16)| == |l16|
      && |InLayout(ms, Fusos32)| == |l32|
  {
    var m16 := LayoutMachines(Fusos16, l16, s16, now);
    var m32 := LayoutMachines(Fusos32, l32, s32, now);
    LayoutMachinesCard(Fusos16, l16, s16, now);
    LayoutMachinesCard(Fusos32, l32, s32, now);
    LayoutMachinesFresh(Fusos16, l16, s16, now);
    LayoutMachinesFresh(Fusos32, l32, s32, now);
    LayoutsDisjoint(l16, l32, s16, s32, now);
    GroupsOfUnion(m16, m32, Fusos16, Fusos32);
  }
}
