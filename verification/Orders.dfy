/** Order statuses and their table: internal/domain/order.go. */
module Orders {
  datatype OrderStatus =
    | Created | Searching | DriverAssigned | DriverArriving | DriverWaiting
    | InProgress | Completed | Cancelled | Failed

  function AllowedTransitions(from: OrderStatus): set<OrderStatus> {
    match from
    case Created => {Searching}
    case Searching => {DriverAssigned, Cancelled, Failed}
    case DriverAssigned => {DriverArriving, Cancelled}
    case DriverArriving => {DriverWaiting, Cancelled}
    case DriverWaiting => {InProgress, Cancelled}
    case InProgress => {Completed}
    case _ => {}
  }

  /** Staying in a status is allowed, even in a terminal one. */
  predicate CanTransition(from: OrderStatus, to: OrderStatus) {
    from == to || to in AllowedTransitions(from)
  }

  predicate Terminal(s: OrderStatus) {
    s == Completed || s == Cancelled || s == Failed
  }

  /** The statuses in which an order occupies its driver. */
  predicate Active(s: OrderStatus) {
    s == DriverAssigned || s == DriverArriving || s == DriverWaiting || s == InProgress
  }
}
