/** The entities of the system. Money is an integer number of centavos; quantities and the
    progress percentage are integers. The TypeScript field `type` is called `kind` here,
    since `type` is a Dafny keyword; optional fields (`projectId?`) are `Option`s. */
module Types {
  import opened Wrappers

  datatype Role = ADMIN | ENGINEER | FINANCE

  datatype User = User(id: string, name: string, role: Role, avatar: string, email: string)

  datatype ClientType = PF | PJ

  datatype Client = Client(
    id: string, name: string, kind: ClientType, document: string,
    email: string, phone: string, address: string, city: string, state: string)

  datatype ProjectStatus = PLANNING | IN_PROGRESS | COMPLETED | PAUSED

  /** `progress` is documented as a percentage from 0 to 100; nothing enforces it. */
  datatype Project = Project(
    id: string, clientId: string, name: string, address: string, status: ProjectStatus,
    budget: int, spent: int, startDate: string, completionDate: string,
    progress: int, image: string)

  datatype TxType = INCOME | EXPENSE

  datatype TxStatus = PENDING | PAID | OVERDUE

  datatype Transaction = Transaction(
    id: string, projectId: Option<string>, description: string, amount: int,
    kind: TxType, category: string, date: string, status: TxStatus)

  datatype StockItem = StockItem(
    id: string, projectId: string, name: string, quantity: int, minQuantity: int,
    unit: string, lastUpdated: string)

  datatype OrderStatus = PENDING | APPROVED | REJECTED | PURCHASED

  datatype PurchaseOrder = PurchaseOrder(
    id: string, projectId: string, requesterId: string, itemName: string,
    quantity: int, unitPriceEstimate: int, totalEstimate: int,
    status: OrderStatus, date: string)

  datatype Weather = SUNNY | RAINY | CLOUDY

  datatype DailyLog = DailyLog(
    id: string, projectId: string, authorId: string, content: string, date: string,
    weather: Weather, images: seq<string>)

  /** The predicate `t => t.type === kind` shared by the finance filter and the dashboard. */
  function OfKind(kind: TxType): Transaction -> bool {
    (t: Transaction) => t.kind == kind
  }
}
