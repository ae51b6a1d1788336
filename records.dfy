/**
 * The documents of the factory-floor backend: machines ("máquinas"), work
 * orders, maintenance windows, bobbin lots ("espulas"), users and status
 * history rows, with the status literals the handlers write into them.
 * Every collection is keyed by the document's own `id` field.
 */
module Records {

  datatype Option<T> = None | Some(value: T) {
    function GetOr(default: T): T {
      match this
      case Some(v) => v
      case None => default
    }
  }

  /** The HTTP rejections the handlers raise: 403, 404 and 400. */
  datatype Error = Forbidden | NotFound | BadRequest

  datatype Result<T> = Ok(value: T) | Err(error: Error)

  /** An instant of the injected clock (the backend's UTC `datetime`). */
  type Time = nat

  // Machine colours.
  const Verde := "verde"
  const Amarelo := "amarelo"
  const Vermelho := "vermelho"
  const Azul := "azul"
  const Desativada := "desativada"
  const MachineStatuses: set<string> := {Verde, Amarelo, Vermelho, Azul, Desativada}

  // Work-order statuses; "finalizado" is also the terminal bobbin-lot status.
  const Pendente := "pendente"
  const EmProducao := "em_producao"
  const Finalizado := "finalizado"
  const OrderStatuses: set<string> := {Pendente, EmProducao, Finalizado}

  // Maintenance-window statuses.
  const EmManutencao := "em_manutencao"
  const Finalizada := "finalizada"
  const MaintenanceStatuses: set<string> := {EmManutencao, Finalizada}

  // The bobbin-lot status whose first occurrence stamps `iniciadoEm`.
  const EmProducaoAguardando := "em_producao_aguardando"

  // Roles.
  const Admin := "admin"
  const OperadorInterno := "operador_interno"
  const OperadorExterno := "operador_externo"

  // Layout groups.
  const Fusos16 := "16_fusos"
  const Fusos32 := "32_fusos"

  /** `active` is optional: a document without the field reads as active. */
  datatype Machine = Machine(
    id: string, code: string, position: string, status: string,
    layoutType: string, active: Option<bool>, updatedAt: Time)

  datatype Order = Order(
    id: string, machineId: string, machineCode: string, layoutType: string,
    cliente: string, artigo: string, cor: string, quantidade: string,
    observacao: string, status: string, createdBy: string, createdAt: Time,
    startedAt: Option<Time>, finishedAt: Option<Time>,
    observacaoLiberacao: string, laudoFinal: string)

  datatype Maintenance = Maintenance(
    id: string, machineId: string, machineCode: string, motivo: string,
    status: string, createdBy: string, createdAt: Time,
    finishedAt: Option<Time>, finishedBy: Option<string>)

  /** A bobbin lot; `dataPrevistaEntrega` is the ISO date string the client sent. */
  datatype Espula = Espula(
    id: string, cliente: string, artigo: string, cor: string,
    quantidadeMetros: string, carga: string, observacoes: string,
    status: string, dataLancamento: Time, dataPrevistaEntrega: string,
    createdBy: string, createdAt: Time, updatedAt: Time,
    iniciadoEm: Option<Time>, finalizadoEm: Option<Time>)

  /** A stored user; `password` holds the password hash, never the password. */
  datatype User = User(
    id: string, username: string, email: string, role: string,
    active: bool, createdAt: Time, password: string)

  datatype StatusHistory = StatusHistory(
    id: string, machineId: string, machineCode: string, layoutType: string,
    oldStatus: string, newStatus: string, changedBy: string, changedAt: Time,
    orderId: Option<string>, maintenanceId: Option<string>)

  /** The authenticated user a request runs as. */
  datatype Caller = Caller(id: string, username: string, role: string)

  // Request bodies.
  datatype OrderCreate = OrderCreate(
    machineId: string, cliente: string, artigo: string, cor: string,
    quantidade: string, observacao: string)
  datatype OrderUpdate = OrderUpdate(status: string, observacaoLiberacao: string, laudoFinal: string)
  datatype MaintenanceCreate = MaintenanceCreate(machineId: string, motivo: string)
  datatype EspulaCreate = EspulaCreate(
    cliente: string, artigo: string, cor: string, quantidadeMetros: string,
    carga: string, observacoes: string, dataPrevistaEntrega: string)
  /** `password` is the plain password; create_user stores its salted hash, which the model receives as an input. */
  datatype UserCreate = UserCreate(username: string, email: string, password: string, role: string)

  /** A machine document that lacks `active` counts as active. */
  predicate IsActive(m: Machine) {
    m.active.GetOr(true)
  }
}
