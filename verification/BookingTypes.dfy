/** The nine states of a booking, the legal moves between them, and the cancellation windows. */
module BookingTypes {
  import opened Wrappers

  datatype BookingStatus =
    | Created | AwaitingPayment | Assigning | Assigned | EnRoute | Arrived | Started | Completed | Cancelled

  datatype PaymentMode = Online | Cash

  datatype PaymentStatus = Unpaid | Authorized | Paid | Refunded

  datatype Actor = Customer | Pro | Ops | System

  datatype Window = A | B | C | D | E | F

  function AllowedNext(from: BookingStatus): set<BookingStatus> {
    match from
    case Created => {AwaitingPayment, Assigning, Cancelled}
    case AwaitingPayment => {Assigning, Cancelled}
    case Assigning => {Assigned, Cancelled}
    case Assigned => {EnRoute, Assigning, Cancelled}
    case EnRoute => {Arrived, Cancelled}
    case Arrived => {EnRoute, Started, Cancelled}
    case Started => {Completed, Cancelled}
    case Completed => {}
    case Cancelled => {}
  }

  predicate IsTransitionAllowed(from: BookingStatus, to: BookingStatus, mode: PaymentMode) {
    to in AllowedNext(from)
    && (from == Created && to == AwaitingPayment ==> mode == Online)
    && (from == Created && to == Assigning ==> mode == Cash)
  }

  const LIVE_STATUSES: set<BookingStatus> :=
    {Created, AwaitingPayment, Assigning, Assigned, EnRoute, Arrived, Started}

  function WindowFor(s: BookingStatus): Option<Window> {
    match s
    case Created => Some(A)
    case AwaitingPayment => Some(A)
    case Assigning => Some(B)
    case Assigned => Some(C)
    case EnRoute => Some(D)
    case Arrived => Some(D)
    case Started => Some(E)
    case Completed => Some(F)
    case Cancelled => None
  }
}
