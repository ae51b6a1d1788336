/**
 * Request sequences that show what the handlers' colour rules lead to. The
 * fixed sequences start from a store holding a single green machine and run
 * the handlers exactly as a client would call them; FinishIgnoresOtherOrders
 * and ToggleTwiceRestoresActive hold in any valid store.
 */
module Scenarios {
  import opened Records
  import opened Server

  const Boss := Caller("u-admin", "admin", Admin)
  const Loom := Machine("m1", "A1", "1", Verde, Fusos16, Some(true), 0)

  /** A store whose only document is the green machine `Loom`. */
  method OneMachineStore() returns (s: Store)
    ensures fresh(s) && s.Valid()
    ensures s.machines == map[Loom.id := Loom]
    ensures s.orders == map[] && s.maintenance == map[] && s.espulas == map[] && s.users == map[]
  {
    s := new Store();
    s.machines := map[Loom.id := Loom];
  }

  /**
   * Finishing an order sets its machine green even when another order on
   * that machine is still pending: order `a` is finished, order `b` is
   * created, `a` is reopened to "em_producao" (the order's current status is
   * never consulted) and finished again. The machine ends green while `b` is
   * pending, so a third order is accepted beside it.
   */
  method ReopenedFinishGreensBusyMachine() returns (color: string, pendingStatus: string, thirdAccepted: bool)
    ensures color == Verde && pendingStatus == Pendente && thirdAccepted
  {
    var s := OneMachineStore();
    var req := OrderCreate(Loom.id, "cliente", "artigo", "cor", "10", "");
    var a := s.CreateOrder(Boss, req, "a", 1);
    var r1 := s.UpdateOrder(Boss, "a", OrderUpdate(Finalizado, "", ""), 2);
    var b := s.CreateOrder(Boss, req, "b", 3);
    var r2 := s.UpdateOrder(Boss, "a", OrderUpdate(EmProducao, "", ""), 4);
    var r3 := s.UpdateOrder(Boss, "a", OrderUpdate(Finalizado, "", ""), 5);
    color := s.machines[Loom.id].status;
    pendingStatus := s.orders["b"].status;
    var c := s.CreateOrder(Boss, req, "c", 6);
    thirdAccepted := c.Ok?;
  }

  /**
   * In any store, finishing one order turns its machine green and leaves
   * every other order as it was, including a pending order on the same
   * machine.
   */
  method FinishIgnoresOtherOrders(s: Store, caller: Caller, a: string, b: string, now: Time)
    requires s.Valid()
    requires MayUpdateOrders(caller.role)
    requires a in s.orders && b in s.orders && a != b
    requires s.orders[b].machineId == s.orders[a].machineId && s.orders[b].status == Pendente
    modifies s
    ensures a in s.orders && s.orders[a].machineId in s.machines && s.machines[s.orders[a].machineId].status == Verde
    ensures b in s.orders && s.orders[b] == old(s.orders[b]) && s.orders[b].status == Pendente
  {
    var r := s.UpdateOrder(caller, a, OrderUpdate(Finalizado, "", ""), now);
  }

  /**
   * In any store, toggling a machine twice restores its `active` flag
   * (a missing flag comes back as true) and leaves it "verde" if it started
   * active and "desativada" otherwise, whatever colour it had before; its
   * code, position and layout are untouched.
   */
  method ToggleTwiceRestoresActive(s: Store, caller: Caller, machineId: string, now: Time)
    requires s.Valid()
    requires caller.role == Admin && machineId in s.machines
    modifies s
    ensures machineId in s.machines
    ensures s.machines[machineId].active == Some(IsActive(old(s.machines[machineId])))
    ensures s.machines[machineId].status == if IsActive(old(s.machines[machineId])) then Verde else Desativada
    ensures s.machines[machineId].(active := old(s.machines[machineId]).active, status := old(s.machines[machineId]).status,
                                   updatedAt := old(s.machines[machineId]).updatedAt) == old(s.machines[machineId])
  {
    var t1 := s.ToggleMachineActive(caller, machineId, now);
    var t2 := s.ToggleMachineActive(caller, machineId, now);
  }

  /**
   * Any status other than "em_producao" and "finalizado" turns the machine
   * yellow and leaves the order as it was: an order in production keeps
   * "em_producao" while its machine stops being red.
   */
  method UnknownStatusYellowsRunningMachine() returns (color: string, orderStatus: string)
    ensures color == Amarelo && orderStatus == EmProducao
  {
    var s := OneMachineStore();
    var req := OrderCreate(Loom.id, "cliente", "artigo", "cor", "10", "");
    var a := s.CreateOrder(Boss, req, "a", 1);
    var r1 := s.UpdateOrder(Boss, "a", OrderUpdate(EmProducao, "", ""), 2);
    var r2 := s.UpdateOrder(Boss, "a", OrderUpdate("pausado", "", ""), 3);
    color := s.machines[Loom.id].status;
    orderStatus := s.orders["a"].status;
  }

  /**
   * Closing a maintenance window sets the machine green even after the
   * machine was deactivated during the window: it ends green and inactive.
   */
  method FinishGreensDeactivatedMachine() returns (color: string, active: Option<bool>)
    ensures color == Verde && active == Some(false)
  {
    var s := OneMachineStore();
    var w := s.CreateMaintenance(Boss, MaintenanceCreate(Loom.id, "troca de fuso"), "w", 1);
    var t := s.ToggleMachineActive(Boss, Loom.id, 2);
    var f := s.FinishMaintenance(Boss, "w", 3);
    color := s.machines[Loom.id].status;
    active := s.machines[Loom.id].active;
  }

  /**
   * Deactivating and reactivating a machine forgets its colour: a machine
   * that was yellow with a pending order comes back green and active, while
   * the order is still pending.
   */
  method ToggleTwiceForgetsPendingOrder() returns (color: string, active: Option<bool>, orderStatus: string)
    ensures color == Verde && active == Some(true) && orderStatus == Pendente
  {
    var s := OneMachineStore();
    var req := OrderCreate(Loom.id, "cliente", "artigo", "cor", "10", "");
    var a := s.CreateOrder(Boss, req, "a", 1);
    var t1 := s.ToggleMachineActive(Boss, Loom.id, 2);
    var t2 := s.ToggleMachineActive(Boss, Loom.id, 3);
    color := s.machines[Loom.id].status;
    active := s.machines[Loom.id].active;
    orderStatus := s.orders["a"].status;
  }
}
