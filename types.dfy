/** Entities of the inventory manager (types.ts). */
module Types {

  datatype Option<+T> = None | Some(value: T)

  /** Calendar day number (days since the epoch); stands for the `YYYY-MM-DD` strings of the source. */
  type Day = int

  /** Milliseconds since the epoch, as returned by `Date.getTime()`. */
  type TimeMs = int

  const MS_PER_DAY: int := 86400000

  datatype Role = Operador | Gerente | Diretor

  /** The text of a role, as the string enum `UserRole` spells it. */
  function RoleName(r: Role): string
  {
    match r
    case Operador => "Operador"
    case Gerente => "Gerente"
    case Diretor => "Diretor"
  }

  datatype User = User(name: string, role: Role)

  datatype MovementType = Entrada | Saida | Consumo

  /** The text of a movement type, as the string union `MovimentacaoTipo` spells it. */
  function MovementTypeName(t: MovementType): string
  {
    match t
    case Entrada => "entrada"
    case Saida => "saida"
    case Consumo => "consumo"
  }

  /** `entradas` is optional in the source; `valorUnitario` is a JS number, kept exact here. */
  datatype Material = Material(
    id: string,
    nome: string,
    codigoFabricante: string,
    quantidade: int,
    armazenamento: string,
    entradas: Option<int>,
    valorUnitario: real)

  datatype Movement = Movement(
    id: string,
    material: string,
    quantidade: int,
    colaborador: string,
    tipo: MovementType,
    data: Day,
    notaFiscal: Option<string>)

  /** Latitude and longitude are left out: nothing in the modelled core reads them. */
  datatype Collaborator = Collaborator(id: string, nome: string, role: Role)

  datatype NotificationType = LowStock | ZeroStock | StaleStock

  datatype Notification = Notification(
    id: string,
    kind: NotificationType,
    message: string,
    date: TimeMs,
    materialId: string)

  /** The arguments of a `registerStockMovement` call; an absent `invoiceNumber` is the empty string. */
  datatype ActionArgs = ActionArgs(
    materialName: string,
    quantity: int,
    collaboratorName: string,
    kind: MovementType,
    invoiceNumber: string)

  datatype FunctionCall = FunctionCall(name: string, args: ActionArgs)

  /** `AIActionConfirmation`. */
  datatype PendingAction = PendingAction(functionCall: FunctionCall, userPrompt: string)
}
