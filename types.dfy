/** The entities of the cafe ordering system (lib/types.ts), with money as integers in the smallest unit. */
module Types {
  import opened Wrappers

  datatype OrderStatus = Pending | Preparing | Ready | Served | Cancelled

  /** The status as the backend and the UI spell it. */
  function StatusName(s: OrderStatus): string {
    match s
    case Pending => "pending"
    case Preparing => "preparing"
    case Ready => "ready"
    case Served => "served"
    case Cancelled => "cancelled"
  }

  /** Served and cancelled orders have left the lifecycle. */
  predicate IsTerminal(s: OrderStatus) {
    s == Served || s == Cancelled
  }

  /**
   * A reference lifecycle over the five statuses, defined by this model (the
   * program declares only the status names): pending -> preparing -> ready ->
   * served, and pending or preparing -> cancelled. Nothing leaves a terminal
   * status. The owner's screens are compared against it.
   */
  predicate CanTransition(from: OrderStatus, to: OrderStatus) {
    match from
    case Pending => to == Preparing || to == Cancelled
    case Preparing => to == Ready || to == Cancelled
    case Ready => to == Served
    case Served => false
    case Cancelled => false
  }

  /** Terminal statuses are absorbing, and only they are. */
  lemma TerminalIffNoTransition(s: OrderStatus)
    ensures IsTerminal(s) <==> forall t :: !CanTransition(s, t)
  {
    if !IsTerminal(s) {
      var t := match s case Pending => Preparing case Preparing => Ready case _ => Served;
      assert CanTransition(s, t);
    }
  }

  datatype OrderItem = OrderItem(menuItemId: string, name: string, price: int, quantity: int, category: string)

  datatype Order = Order(
    id: string,
    tableId: string,
    items: seq<OrderItem>,
    totalAmount: int,
    status: OrderStatus,
    createdAt: string,
    customerNote: Option<string>)

  datatype MenuCategory = Tea | Coffee | Cigarette | Snacks

  function CategoryName(c: MenuCategory): string {
    match c
    case Tea => "Tea"
    case Coffee => "Coffee"
    case Cigarette => "Cigarette"
    case Snacks => "Snacks"
  }

  datatype MenuItem = MenuItem(id: string, name: string, price: int, category: MenuCategory, image: Option<string>)

  datatype UserRole = Customer | Owner

  function RoleName(r: UserRole): string {
    match r
    case Customer => "customer"
    case Owner => "owner"
  }

  datatype User = User(
    id: string,
    fullName: string,
    username: string,
    email: string,
    phoneNumber: string,
    profilePicture: Option<string>,
    role: UserRole,
    token: Option<string>)
}
