/** A booking column by column: which operations may write it, when they go through, and with what. */
module ColumnLaws {
  import opened Wrappers
  import opened BookingTypes
  import opened CancellationPolicy
  import opened Bookings

  /** The operation goes through: the booking is where it must be, and the caller may. */
  predicate Passes(f: File, e: Event) {
    var row := f.row;
    match e
    case Advance => row.status == Created
    case Authorize => row.mode == Online && row.captured == None && row.paymentStatus == Unpaid
    case Capture(_) => row.mode == Online && row.captured == None
    case CollectCash(pro) => row.mode == Cash && row.pro == Some(pro) && row.status in {Started, Completed}
    case Refund(asked, accepted) =>
      accepted && row.captured.Some?
      && if asked.Some? then 0 < asked.value && row.sentBack + asked.value <= row.captured.value
         else row.sentBack < row.captured.value
    case SettleRefund => row.captured.Some? && 0 < row.captured.value <= row.sentBack
    case Assign(_, _, _) => row.status == Assigning
    case AssignByOps(_, eligible) => row.status == Assigning && eligible
    case Reassign(to, eligible, reasonLength) =>
      row.status in {Assigned, EnRoute} && reasonLength >= 10 && (to == None || eligible)
    case Suspend(pro) => row.pro == Some(pro) && row.status in {Assigned, EnRoute, Arrived, Started}
    case ExpireAck(now) =>
      row.status == Assigned && row.outcome == Some(PendingAck) && row.ackDeadline.Some? && row.ackDeadline.value < now
    case CloseUnassignable(_, _) => true
    case Acknowledge(pro, now) =>
      row.pro == Some(pro) && row.outcome == Some(PendingAck)
      && (row.ackDeadline.Some? ==> now <= row.ackDeadline.value)
      && (forall i :: 0 <= i < |f.trail| ==> f.trail[i] != Entry(Noted(ReceivedBy(pro)), Pro))
    case GoEnRoute(pro) => row.pro == Some(pro) && row.status in {Assigned, Arrived}
    case Arrive(pro, _, _) => row.pro == Some(pro) && row.status == EnRoute
    case ResendCode(_) => row.status == Arrived
    case VerifyCode(pro, code, max, _) =>
      row.pro == Some(pro) && row.status == Arrived && row.codeAttempts < max && row.startCode == Some(code)
    case ForceStart(_) => row.status == Arrived
    case Complete(pro, photos, _) =>
      row.pro == Some(pro) && row.status == Started && row.startedAt.Some? && photos > 0
    case Cancel(who, _, _, _, _) =>
      (who == Ops || who == System || (who == Customer && row.status != Started))
      && row.status !in {Completed, Cancelled}
    case MoveSlot(newSlot, _, byOps, allowance, freeHours, now) =>
      row.status in {Created, AwaitingPayment, Assigning, Assigned} && row.slotStart.Some?
      && row.slotStart != Some(newSlot) && newSlot > now
      && row.reschedules < (if byOps then 9_007_199_254_740_991 else allowance)
      && (row.slotStart.value - now) as real >= freeHours * 3_600_000.0
      && (newSlot - now) as real >= freeHours * 3_600_000.0
  }

  /** A code that does not match, given by the right Pro at the door with tries left. */
  predicate WrongCode(f: File, e: Event) {
    e.VerifyCode? && f.row.pro == Some(e.pro) && f.row.status == Arrived && f.row.codeAttempts < e.max
    && f.row.startCode.Some? && f.row.startCode != Some(e.code)
  }

  lemma MovesInMilliseconds(row: Columns, e: Event)
    requires e.MoveSlot?
    ensures DecideReschedule(MoveRequest(row, e)) == None <==> Passes(File(row, [], []), e)
  {
    RefusalsAreSo(MoveRequest(row, e));
    LateStatuses(row.status);
    hide DecideReschedule;
  }

  lemma LiveStatuses(s: BookingStatus)
    ensures s in LIVE_STATUSES <==> s !in {Completed, Cancelled}
    ensures s in LIVE_STATUSES ==> Cancelled in AllowedNext(s)
  {
    assert s.Created? || s.AwaitingPayment? || s.Assigning? || s.Assigned? || s.EnRoute? || s.Arrived? || s.Started?
           || s.Completed? || s.Cancelled?;
  }

  lemma CancelsWhen(row: Columns, e: Event)
    requires e.Cancel?
    ensures CancelCharges(row, e).Some? <==> Passes(File(row, [], []), e)
    ensures Passes(File(row, [], []), e) ==> CanMove(row, Cancelled, LIVE_STATUSES)
  {
    LiveStatuses(row.status);
    hide DecideCancellation;
  }

  /** The moves the operations make are all in the table, so only where the booking is decides them. */
  lemma WhereItIsDecides()
    ensures forall row: Columns :: CanMove(row, BookingStatus.Assigned, {Assigning}) <==> row.status == Assigning
    ensures forall row: Columns :: CanMove(row, Assigning, {AwaitingPayment}) <==> row.status == AwaitingPayment
    ensures forall row: Columns ::
              CanMove(row, Assigning, {BookingStatus.Assigned}) <==> row.status == BookingStatus.Assigned
    ensures forall row: Columns ::
              CanMove(row, EnRoute, {BookingStatus.Assigned, Arrived})
              <==> row.status in {BookingStatus.Assigned, Arrived}
    ensures forall row: Columns :: CanMove(row, Arrived, {EnRoute, BookingStatus.Assigned}) <==> row.status == EnRoute
    ensures forall row: Columns :: CanMove(row, Started, {Arrived}) <==> row.status == Arrived
    ensures forall row: Columns :: CanMove(row, Completed, {Started}) <==> row.status == Started
    ensures forall row: Columns ::
              CanMove(row, if row.mode == Cash then Assigning else AwaitingPayment, {Created})
              <==> row.status == Created
  {
  }

  /** Refused, an operation writes nothing: but a wrong code is counted, and a start forced in vain is
      noted. */
  lemma RefusedWritesNothing(f: File, e: Event)
    requires !Passes(f, e)
    ensures var n := Step(f, e);
            n.moves == f.moves
            && if WrongCode(f, e) then
                 n.row == f.row.(codeAttempts := f.row.codeAttempts + 1)
                 && n.trail == f.trail + [Entry(Noted(CodeFailed), Pro)]
               else if e.ForceStart? then n.row == f.row && n.trail == f.trail + [Entry(Noted(CodeBypassed), Ops)]
               else n.row == f.row && n.trail == f.trail
  {
    if e.MoveSlot? { MovesInMilliseconds(f.row, e); }
    if e.Cancel? { CancelsWhen(f.row, e); }
    WhereItIsDecides();
    hide DecideReschedule, CancelCharges, CanMove;
  }

  // ---- where the booking is, and with whom ----

  function StatusAfter(row: Columns, e: Event): BookingStatus {
    match e
    case Advance => if row.mode == Cash then Assigning else AwaitingPayment
    case Capture(_) => if row.status == AwaitingPayment then Assigning else row.status
    case Assign(_, _, _) => BookingStatus.Assigned
    case AssignByOps(_, _) => BookingStatus.Assigned
    case Reassign(to, _, _) => if to == None then Assigning else BookingStatus.Assigned
    case Suspend(_) => if row.status in {BookingStatus.Assigned, EnRoute} then Assigning else row.status
    case ExpireAck(_) => Assigning
    case GoEnRoute(_) => EnRoute
    case Arrive(_, _, _) => Arrived
    case VerifyCode(_, _, _, _) => Started
    case ForceStart(_) => Started
    case Complete(_, _, _) => Completed
    case Cancel(_, _, _, _, _) => Cancelled
    case MoveSlot(_, _, _, _, _, _) => if row.pro.Some? then Assigning else row.status
    case _ => row.status
  }

  function ProAfter(row: Columns, e: Event): Option<ProId> {
    match e
    case Assign(pro, _, _) => Some(pro)
    case AssignByOps(pro, _) => Some(pro)
    case Reassign(to, _, _) => to
    case Suspend(_) => if row.status in {BookingStatus.Assigned, EnRoute} then None else row.pro
    case ExpireAck(_) => None
    case MoveSlot(_, _, _, _, _, _) => None
    case _ => row.pro
  }

  predicate PlacedSo(was: Columns, e: Event, now: Columns) {
    now.status == StatusAfter(was, e) && now.pro == ProAfter(was, e)
  }

  // ---- the columns dispatch works by ----

  function OutcomeAfter(row: Columns, e: Event): Option<Outcome> {
    match e
    case Assign(_, _, _) => Some(PendingAck)
    case AssignByOps(_, _) => Some(OpsAssigned)
    case Reassign(_, _, _) => Some(OpsReassigned)
    case Suspend(_) => if row.status in {BookingStatus.Assigned, EnRoute} then Some(OpsReassigned) else row.outcome
    case ExpireAck(_) => Some(NoAckTimeout)
    case CloseUnassignable(_, outcome) => Some(outcome)
    case Acknowledge(_, _) => Some(Outcome.Acknowledged)
    case Cancel(_, _, _, _, _) => if row.pro.Some? then Some(Withdrawn) else row.outcome
    case MoveSlot(_, _, _, _, _, _) => if row.pro.Some? then Some(Rescheduled) else row.outcome
    case _ => row.outcome
  }

  function AttemptAfter(row: Columns, e: Event): nat {
    match e
    case Assign(_, attempt, _) => attempt
    case CloseUnassignable(attempt, _) => attempt
    case AssignByOps(_, _) => row.attempt + 1
    case Reassign(to, _, _) => if to.Some? then row.attempt + 1 else row.attempt
    case _ => row.attempt
  }

  function DeadlineAfter(row: Columns, e: Event): Option<int> {
    match e
    case Assign(_, _, deadline) => Some(deadline)
    case Reassign(_, _, _) => None
    case MoveSlot(_, _, _, _, _, _) => if row.pro.Some? then None else row.ackDeadline
    case _ => row.ackDeadline
  }

  predicate SoughtSo(was: Columns, e: Event, now: Columns) {
    now.outcome == OutcomeAfter(was, e) && now.attempt == AttemptAfter(was, e)
    && now.ackDeadline == DeadlineAfter(was, e)
  }

  // ---- at the door and after ----

  /** Arriving is timed once; a start and a finish when they happen. A code is issued on arrival and
      when resent, with its tries, and spent by the start it lets through, not by a forced one. */
  predicate TimedSo(was: Columns, e: Event, now: Columns) {
    now.arrivedAt == (if e.Arrive? && was.arrivedAt == None then Some(e.now) else was.arrivedAt)
    && now.startedAt == (if e.VerifyCode? then Some(e.now) else if e.ForceStart? then Some(e.now) else was.startedAt)
    && now.completedAt == (if e.Complete? then Some(e.now) else was.completedAt)
    && now.startCode == (if e.Arrive? || e.ResendCode? then Some(e.code) else if e.VerifyCode? then None
                         else was.startCode)
    && now.codeAttempts == (if e.Arrive? || e.ResendCode? then 0 else was.codeAttempts)
  }

  // ---- the slot ----

  /** Only a move writes the slot: the new one and its end, one more move, the first slot of all kept
      once, and a line of history from the slot there was. */
  predicate SlottedSo(f: File, e: Event, n: File)
    requires Passes(f, e)
  {
    var was, now := f.row, n.row;
    if e.MoveSlot? then
      now.slotStart == Some(e.newSlot) && now.slotEnd == Some(e.newSlot + 60_000 * e.durationMinutes)
      && now.reschedules == was.reschedules + 1
      && now.originalSlot == (if was.originalSlot == None then was.slotStart else was.originalSlot)
      && n.moves
         == f.moves + [SlotMove(was.slotStart.value, e.newSlot, e.newSlot + 60_000 * e.durationMinutes, e.byOps)]
    else
      now.slotStart == was.slotStart && now.slotEnd == was.slotEnd && now.reschedules == was.reschedules
      && now.originalSlot == was.originalSlot && n.moves == f.moves
  }

  // ---- money ----

  /** What ops set by hand stands; nobody else can set anything, and the system charges nothing. */
  function FeeSet(e: Event): Option<int>
    requires e.Cancel?
  {
    if e.who == Ops then e.override.fee else if e.who == System then Some(0) else None
  }

  function FeeWritten(row: Columns, e: Event): int
    requires e.Cancel?
  {
    if FeeSet(e).Some? then FeeSet(e).value else if row.status == Started then 0
    else DecideCancellation(PolicyInput(row.status, row.slotStart, row.payable, e.config, e.who, e.now)).fee
  }

  /** What a cancellation owes: all but the fee of a paid booking somebody was sought for, or what ops
      set once the job had started. */
  function RefundOwed(row: Columns, e: Event): int
    requires e.Cancel?
  {
    if row.status in {Created, AwaitingPayment} || row.paymentStatus != PaymentStatus.Paid then 0
    else if row.status == Started then (if e.who == Ops && e.override.refund.Some? then e.override.refund.value else 0)
    else if row.payable > FeeWritten(row, e) then row.payable - FeeWritten(row, e) else 0
  }

  lemma CancellingCharges(row: Columns, e: Event)
    requires e.Cancel? && Passes(File(row, [], []), e)
    ensures CancelCharges(row, e) == Some((FeeWritten(row, e), RefundOwed(row, e)))
  {
    CancelsWhen(row, e);
    ChargesAreSo(BillOf(row), e.config, e.who, OverrideFor(e), e.now);
    hide DecideCancellation;
  }

  /** How much an operation sends back: what a refund asks for, or a cancellation owes and the gateway
      takes, where the order has that much left. */
  function SentBackBy(row: Columns, e: Event): int {
    match e
    case Refund(asked, _) =>
      if asked.Some? then asked.value else if row.captured.Some? then row.captured.value - row.sentBack else 0
    case Cancel(_, _, _, _, accepted) =>
      if accepted && row.captured.Some? && 0 < RefundOwed(row, e) <= row.captured.value - row.sentBack
      then RefundOwed(row, e) else 0
    case _ => 0
  }

  /** What was captured, and how much of it has gone back; the fee and the refund shown; and whether
      the booking reads as paid. */
  predicate PaidSo(was: Columns, e: Event, now: Columns) {
    now.captured == (if e.Capture? then Some(e.amount) else was.captured)
    && now.sentBack == was.sentBack + SentBackBy(was, e)
    && now.fee == (if e.Cancel? then Some(FeeWritten(was, e)) else was.fee)
    && now.refund == (if SentBackBy(was, e) != 0 then Some(was.sentBack + SentBackBy(was, e))
                      else if e.Cancel? then Some(RefundOwed(was, e)) else was.refund)
    && now.paymentStatus == (if e.Authorize? then Authorized
                             else if e.Capture? || e.CollectCash? then PaymentStatus.Paid
                             else if e.SettleRefund? then Refunded else was.paymentStatus)
    && now.mode == was.mode && now.payable == was.payable && now.createdAt == was.createdAt
  }

  lemma OwedOnlyIfPaid(row: Columns, e: Event)
    requires e.Cancel?
    ensures RefundOwed(row, e) > 0 ==> row.paymentStatus == PaymentStatus.Paid
  {
    hide FeeWritten;
  }

  // ---- the timeline ----

  /** Who is on record for an operation. */
  function ActorOf(e: Event): Actor {
    match e
    case AssignByOps(_, _) => Ops
    case Reassign(_, _, _) => Ops
    case Suspend(_) => Ops
    case ForceStart(_) => Ops
    case Acknowledge(_, _) => Pro
    case GoEnRoute(_) => Pro
    case Arrive(_, _, _) => Pro
    case VerifyCode(_, _, _, _) => Pro
    case Complete(_, _, _) => Pro
    case Cancel(who, _, _, _, _) => who
    case MoveSlot(_, _, byOps, _, _, _) => if byOps then Ops else Customer
    case _ => System
  }

  /** Payments, codes resent and refunds are not on the timeline; a capture is, where it moves the
      booking on. */
  predicate Recorded(row: Columns, e: Event) {
    !(e.Authorize? || e.CollectCash? || e.Refund? || e.SettleRefund? || e.ResendCode?)
    && (e.Capture? ==> row.status == AwaitingPayment)
  }

  /** Each operation on record leaves the status it led to, or what it was; a forced start, both. */
  predicate LoggedSo(f: File, e: Event, n: File) {
    n.trail == if !Recorded(f.row, e) then f.trail
               else if e.CloseUnassignable? then f.trail + [Entry(Noted(Unassignable), System)]
               else if e.Acknowledge? then f.trail + [Entry(Noted(ReceivedBy(e.pro)), Pro)]
               else f.trail + (if e.ForceStart? then [Entry(Noted(CodeBypassed), Ops)] else [])
                    + [Entry(At(StatusAfter(f.row, e)), ActorOf(e))]
  }

  // ---- every column, after every operation ----

  predicate Told(f: File, e: Event, n: File)
    requires Passes(f, e)
  {
    PlacedSo(f.row, e, n.row) && SoughtSo(f.row, e, n.row) && TimedSo(f.row, e, n.row) && SlottedSo(f, e, n)
    && PaidSo(f.row, e, n.row) && LoggedSo(f, e, n)
  }

  predicate Pays(e: Event) { e.Authorize? || e.Capture? || e.CollectCash? }

  predicate Refunds(e: Event) { e.Refund? || e.SettleRefund? }

  predicate Seeks(e: Event) { e.Advance? || e.ExpireAck? }

  predicate Notes(e: Event) { e.CloseUnassignable? || e.Acknowledge? }

  predicate Assigns(e: Event) { e.Assign? || e.AssignByOps? }

  predicate Reassigns(e: Event) { e.Reassign? || e.Suspend? }

  lemma PaymentsTold(f: File, e: Event)
    requires Passes(f, e) && Pays(e)
    ensures Told(f, e, Step(f, e))
  {
    hide CanMove, FeeWritten, RefundOwed;
    WhereItIsDecides();
  }

  lemma RefundsTold(f: File, e: Event)
    requires Passes(f, e) && Refunds(e)
    ensures Told(f, e, Step(f, e))
  {
    hide FeeWritten, RefundOwed;
  }

  lemma SearchesTold(f: File, e: Event)
    requires Passes(f, e) && Seeks(e)
    ensures Told(f, e, Step(f, e))
  {
    hide CanMove, FeeWritten, RefundOwed;
    WhereItIsDecides();
  }

  lemma AssignmentsTold(f: File, e: Event)
    requires Passes(f, e) && Assigns(e)
    ensures Told(f, e, Step(f, e))
  {
    hide CanMove, FeeWritten, RefundOwed;
    WhereItIsDecides();
  }

  lemma NotesTold(f: File, e: Event)
    requires Passes(f, e) && Notes(e)
    ensures Told(f, e, Step(f, e))
  {
    hide FeeWritten, RefundOwed;
  }

  lemma ReassignmentsTold(f: File, e: Event)
    requires Passes(f, e) && Reassigns(e)
    ensures Told(f, e, Step(f, e))
  {
    hide FeeWritten, RefundOwed;
  }

  lemma VisitsTold(f: File, e: Event)
    requires Passes(f, e) && !Pays(e) && !Refunds(e) && !Seeks(e) && !Notes(e) && !Assigns(e) && !Reassigns(e)
    requires !e.Cancel? && !e.MoveSlot?
    ensures Told(f, e, Step(f, e))
  {
    hide CanMove, FeeWritten, RefundOwed;
    WhereItIsDecides();
  }

  lemma CancellationsTold(f: File, e: Event)
    requires Passes(f, e) && e.Cancel?
    ensures Told(f, e, Step(f, e))
  {
    hide CancelCharges, FeeWritten, RefundOwed, CanMove;
    CancelsWhen(f.row, e);
    CancellingCharges(f.row, e);
    OwedOnlyIfPaid(f.row, e);
  }

  lemma MovesTold(f: File, e: Event)
    requires Passes(f, e) && e.MoveSlot?
    ensures Told(f, e, Step(f, e))
  {
    hide DecideReschedule, FeeWritten, RefundOwed;
    MovesInMilliseconds(f.row, e);
  }

  /** An operation that goes through leaves every column, the slot's history and the timeline as told. */
  lemma EveryColumnIsTold(f: File, e: Event)
    requires Passes(f, e)
    ensures Told(f, e, Step(f, e))
  {
    hide Passes, Step, Told;
    if Pays(e) {
      PaymentsTold(f, e);
    } else if Refunds(e) {
      RefundsTold(f, e);
    } else if Seeks(e) {
      SearchesTold(f, e);
    } else if Notes(e) {
      NotesTold(f, e);
    } else if Assigns(e) {
      AssignmentsTold(f, e);
    } else if Reassigns(e) {
      ReassignmentsTold(f, e);
    } else if e.Cancel? {
      CancellationsTold(f, e);
    } else if e.MoveSlot? {
      MovesTold(f, e);
    } else {
      VisitsTold(f, e);
    }
  }
}
