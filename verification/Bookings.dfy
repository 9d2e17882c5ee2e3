/**
 One booking: its columns, its append-only timeline and its history of moved slots, with every
 writer of its status. `File` is the value of all three at one moment; `Booking` is the record
 the services update in place.
 */
module Bookings {
  import opened Wrappers
  import opened BookingTypes
  import opened CancellationPolicy

  type ProId = nat

  datatype Outcome =
    | PendingAck | Acknowledged | NoAckTimeout | OpsAssigned | OpsReassigned | Rescheduled | Withdrawn
    | NoSupply | Exhausted

  datatype Columns = Columns(
    mode: PaymentMode,
    status: BookingStatus,
    paymentStatus: PaymentStatus,
    payable: nat,
    pro: Option<ProId>,
    attempt: nat,
    outcome: Option<Outcome>,
    ackDeadline: Option<int>,
    arrivedAt: Option<int>,
    startedAt: Option<int>,
    completedAt: Option<int>,
    startCode: Option<nat>,
    codeAttempts: nat,
    createdAt: int,
    slotStart: Option<int>,
    slotEnd: Option<int>,
    originalSlot: Option<int>,
    reschedules: nat,
    fee: Option<int>,
    refund: Option<int>,
    /** Of the booking's gateway order: what was captured, and how much of it has been sent back. */
    captured: Option<nat>,
    sentBack: nat)

  datatype Note = CodeFailed | CodeBypassed | Unassignable | ReceivedBy(pro: ProId)

  /** A timeline entry: the status it records, or something that moved nothing. */
  datatype Label = At(status: BookingStatus) | Noted(note: Note)

  datatype Entry = Entry(what: Label, actor: Actor)

  datatype SlotMove = SlotMove(from: int, to: int, toEnd: int, byOps: bool)

  datatype File = File(row: Columns, trail: seq<Entry>, moves: seq<SlotMove>)

  datatype Refused = NotFound | StateMoved | IllegalTransition | NotAllowed

  // ---- the guarded door ----

  predicate CanMove(row: Columns, to: BookingStatus, expected: set<BookingStatus>) {
    row.status in expected && IsTransitionAllowed(row.status, to, row.mode)
  }

  function MoveTo(f: File, to: BookingStatus, actor: Actor, expected: set<BookingStatus>,
                  data: Columns -> Columns): File {
    if CanMove(f.row, to, expected)
    then f.(row := data(f.row).(status := to), trail := f.trail + [Entry(At(to), actor)])
    else f
  }

  function Noting(f: File, n: Note, actor: Actor): File { f.(trail := f.trail + [Entry(Noted(n), actor)]) }

  function Same(row: Columns): Columns { row }

  function WithoutPro(row: Columns): Columns { row.(pro := None) }

  // ---- every operation that writes a booking ----

  datatype Event =
    | Advance
    | Authorize
    | Capture(amount: nat)
    | CollectCash(pro: ProId)
    | Refund(asked: Option<int>, accepted: bool)
    | SettleRefund
    | Assign(pro: ProId, attempt: nat, deadline: int)
    | AssignByOps(pro: ProId, eligible: bool)
    | Reassign(to: Option<ProId>, eligible: bool, reasonLength: nat)
    | Suspend(pro: ProId)
    | ExpireAck(now: int)
    | CloseUnassignable(attempt: nat, outcome: Outcome)
    | Acknowledge(pro: ProId, now: int)
    | GoEnRoute(pro: ProId)
    | Arrive(pro: ProId, now: int, code: nat)
    | ResendCode(code: nat)
    | VerifyCode(pro: ProId, code: nat, max: nat, now: int)
    | ForceStart(now: int)
    | Complete(pro: ProId, photos: nat, now: int)
    | Cancel(who: Actor, config: Config, override: Override, now: int, accepted: bool)
    | MoveSlot(newSlot: int, durationMinutes: nat, byOps: bool, allowance: nat, freeHours: real, now: int)

  const MAX_SAFE_INTEGER: nat := 9_007_199_254_740_991

  function AssignedData(pro: ProId, attempt: nat, deadline: int): Columns -> Columns {
    (c: Columns) => c.(pro := Some(pro), attempt := attempt, ackDeadline := Some(deadline), outcome := Some(PendingAck))
  }

  function OpsAssignedData(pro: ProId): Columns -> Columns {
    (c: Columns) => c.(pro := Some(pro), attempt := c.attempt + 1, outcome := Some(OpsAssigned))
  }

  function ArrivedData(now: int): Columns -> Columns {
    (c: Columns) => if c.arrivedAt.Some? then c else c.(arrivedAt := Some(now))
  }

  function StartedData(now: int, spendCode: bool): Columns -> Columns {
    (c: Columns) => c.(startedAt := Some(now), startCode := if spendCode then None else c.startCode)
  }

  function CompletedData(now: int): Columns -> Columns {
    (c: Columns) => c.(completedAt := Some(now))
  }

  function CancelledData(fee: int, refund: int): Columns -> Columns {
    (c: Columns) => c.(fee := Some(fee), refund := Some(refund),
                       outcome := if c.pro.Some? then Some(Withdrawn) else c.outcome)
  }

  function IssueCode(row: Columns, code: nat): Columns { row.(startCode := Some(code), codeAttempts := 0) }

  function BillOf(row: Columns): Bill { Bill(row.status, row.paymentStatus, row.payable, row.slotStart) }

  /** What cancelling would write, or none when this actor may not cancel now. */
  function CancelCharges(row: Columns, e: Event): Option<(int, int)>
    requires e.Cancel?
  {
    if e.who == Pro || (e.who == Customer && !CustomerMayCancel(row.status)) then None
    else Charges(BillOf(row), e.config, e.who, OverrideFor(e), e.now)
  }

  /** Only ops may set amounts; the system never charges. */
  function OverrideFor(e: Event): Override
    requires e.Cancel?
  {
    match e.who
    case Ops => e.override
    case System => Override(Some(0), None)
    case _ => NO_OVERRIDE
  }

  /** What a refund call asks for: all that is left, unless told otherwise. */
  function AskedFor(row: Columns, amount: Option<int>): int
    requires row.captured.Some?
  {
    if amount.Some? then amount.value else row.captured.value - row.sentBack
  }

  predicate Refundable(row: Columns, amount: Option<int>) {
    row.captured.Some? && 0 < AskedFor(row, amount) <= row.captured.value - row.sentBack
  }

  /** The order and the booking both carry the total over all refunds. */
  function WithRefund(row: Columns, amount: Option<int>, accepted: bool): Columns {
    if accepted && Refundable(row, amount) then
      var total := row.sentBack + AskedFor(row, amount);
      row.(sentBack := total, refund := Some(total))
    else row
  }

  /** A cancellation that moved a paid booking asks for the refund it has just written. */
  function CancelledFile(f: File, e: Event): File
    requires e.Cancel?
  {
    var charges := CancelCharges(f.row, e);
    if charges.None? then f
    else
      var (fee, refund) := charges.value;
      var moved := MoveTo(f, Cancelled, e.who, LIVE_STATUSES, CancelledData(fee, refund));
      if CanMove(f.row, Cancelled, LIVE_STATUSES) && refund > 0 && f.row.paymentStatus == PaymentStatus.Paid
      then moved.(row := WithRefund(moved.row, Some(refund), e.accepted))
      else moved
  }

  function MoveRequest(row: Columns, e: Event): MoveInput
    requires e.MoveSlot?
  {
    MoveInput(row.status, row.slotStart, e.newSlot, row.reschedules,
              if e.byOps then MAX_SAFE_INTEGER else e.allowance, e.freeHours, e.now)
  }

  function Moved(f: File, e: Event): File
    requires e.MoveSlot?
  {
    if DecideReschedule(MoveRequest(f.row, e)).Some? then f
    else
      var previous := if f.row.slotStart.Some? then f.row.slotStart.value else f.row.createdAt;
      var end := e.newSlot + e.durationMinutes * 60_000;
      var moved := f.row.(slotStart := Some(e.newSlot), slotEnd := Some(end), reschedules := f.row.reschedules + 1,
                          originalSlot := if f.row.originalSlot.Some? then f.row.originalSlot else Some(previous));
      var row := if f.row.pro.Some?
                 then moved.(status := Assigning, pro := None, ackDeadline := None, outcome := Some(Rescheduled))
                 else moved;
      File(row, f.trail + [Entry(At(row.status), if e.byOps then Ops else Customer)],
           f.moves + [SlotMove(previous, e.newSlot, end, e.byOps)])
  }

  predicate Reassignable(row: Columns, e: Event)
    requires e.Reassign?
  {
    e.reasonLength >= 10 && row.status in {Assigned, EnRoute} && (e.to.Some? ==> e.eligible)
  }

  function Reassigned(f: File, e: Event): File
    requires e.Reassign?
  {
    if !Reassignable(f.row, e) then f
    else
      var cleared := f.row.(ackDeadline := None, outcome := Some(OpsReassigned), pro := e.to);
      var row := if e.to.None? then cleared.(status := Assigning)
                 else cleared.(status := Assigned, attempt := f.row.attempt + 1);
      f.(row := row, trail := f.trail + [Entry(At(row.status), Ops)])
  }

  function Suspended(f: File, pro: ProId): File {
    if f.row.pro != Some(pro) || f.row.status !in {Assigned, EnRoute, Arrived, Started} then f
    else
      var row := if f.row.status in {Assigned, EnRoute}
                 then f.row.(status := Assigning, pro := None, outcome := Some(OpsReassigned)) else f.row;
      f.(row := row, trail := f.trail + [Entry(At(row.status), Ops)])
  }

  predicate AckExpired(row: Columns, now: int) {
    row.status == Assigned && row.outcome == Some(PendingAck) && row.ackDeadline.Some? && row.ackDeadline.value < now
  }

  /** A Pro acknowledges a booking once: the timeline entry of the first time ends the matter. */
  predicate Acknowledgeable(f: File, pro: ProId, now: int) {
    f.row.pro == Some(pro) && Entry(Noted(ReceivedBy(pro)), Pro) !in f.trail
    && f.row.outcome == Some(PendingAck) && (f.row.ackDeadline.Some? ==> f.row.ackDeadline.value >= now)
  }

  function Verified(f: File, e: Event): File
    requires e.VerifyCode?
  {
    if f.row.pro != Some(e.pro) || f.row.status != Arrived then f
    else if f.row.startCode.None? || f.row.codeAttempts >= e.max then f
    else if f.row.startCode.value != e.code then
      Noting(f.(row := f.row.(codeAttempts := f.row.codeAttempts + 1)), CodeFailed, Pro)
    else MoveTo(f, Started, Pro, {Arrived}, StartedData(e.now, true))
  }

  predicate Collectable(row: Columns, pro: ProId) {
    row.pro == Some(pro) && row.mode == Cash && row.status in {Started, Completed}
  }

  predicate WhollyRefunded(row: Columns) {
    row.captured.Some? && 0 < row.captured.value <= row.sentBack
  }

  function Step(f: File, e: Event): File {
    match e
    case Advance =>
      MoveTo(f, if f.row.mode == Cash then Assigning else AwaitingPayment, System, {Created}, Same)
    case Authorize =>
      if f.row.mode == Online && f.row.captured.None? && f.row.paymentStatus == Unpaid
      then f.(row := f.row.(paymentStatus := Authorized)) else f
    case Capture(amount) =>
      if f.row.mode == Online && f.row.captured.None? then
        MoveTo(f.(row := f.row.(paymentStatus := PaymentStatus.Paid, captured := Some(amount))),
               Assigning, System, {AwaitingPayment}, Same)
      else f
    case CollectCash(pro) =>
      if Collectable(f.row, pro) then f.(row := f.row.(paymentStatus := PaymentStatus.Paid)) else f
    case Refund(amount, accepted) => f.(row := WithRefund(f.row, amount, accepted))
    case SettleRefund =>
      if WhollyRefunded(f.row) then f.(row := f.row.(paymentStatus := PaymentStatus.Refunded)) else f
    case Assign(pro, attempt, deadline) =>
      MoveTo(f, Assigned, System, {Assigning}, AssignedData(pro, attempt, deadline))
    case AssignByOps(pro, eligible) =>
      if eligible then MoveTo(f, Assigned, Ops, {Assigning}, OpsAssignedData(pro)) else f
    case Reassign(_, _, _) => Reassigned(f, e)
    case Suspend(pro) => Suspended(f, pro)
    case ExpireAck(now) =>
      if AckExpired(f.row, now)
      then MoveTo(f.(row := f.row.(outcome := Some(NoAckTimeout))), Assigning, System, {Assigned}, WithoutPro)
      else f
    case CloseUnassignable(attempt, outcome) =>
      Noting(f.(row := f.row.(attempt := attempt, outcome := Some(outcome))), Unassignable, System)
    case Acknowledge(pro, now) =>
      if Acknowledgeable(f, pro, now)
      then Noting(f.(row := f.row.(outcome := Some(Acknowledged))), ReceivedBy(pro), Pro)
      else f
    case GoEnRoute(pro) =>
      if f.row.pro == Some(pro) then MoveTo(f, EnRoute, Pro, {Assigned, Arrived}, Same) else f
    case Arrive(pro, now, code) =>
      if f.row.pro == Some(pro) && CanMove(f.row, Arrived, {EnRoute, Assigned}) then
        var there := MoveTo(f, Arrived, Pro, {EnRoute, Assigned}, ArrivedData(now));
        there.(row := IssueCode(there.row, code))
      else f
    case ResendCode(code) =>
      if f.row.status == Arrived then f.(row := IssueCode(f.row, code)) else f
    case VerifyCode(_, _, _, _) => Verified(f, e)
    case ForceStart(now) =>
      MoveTo(Noting(f, CodeBypassed, Ops), Started, Ops, {Arrived}, StartedData(now, false))
    case Complete(pro, photos, now) =>
      if f.row.pro == Some(pro) && f.row.startedAt.Some? && photos > 0
      then MoveTo(f, Completed, Pro, {Started}, CompletedData(now)) else f
    case Cancel(_, _, _, _, _) => CancelledFile(f, e)
    case MoveSlot(_, _, _, _, _, _) => Moved(f, e)
  }

  function Opened(mode: PaymentMode, payable: nat, now: int, slotStart: int, slotEnd: int): File {
    File(Columns(mode, Created, Unpaid, payable, None, 0, None, None, None, None, None, None, 0, now,
                 Some(slotStart), Some(slotEnd), None, 0, None, None, None, 0),
         [Entry(At(Created), Customer)], [])
  }

  class Booking {
    var row: Columns
    var trail: seq<Entry>
    var moves: seq<SlotMove>

    /** `create`, up to the point where dispatch or payment takes over. */
    constructor (mode: PaymentMode, payable: nat, now: int, slotStart: int, slotEnd: int)
      ensures View() == Opened(mode, payable, now, slotStart, slotEnd)
    {
      row := Opened(mode, payable, now, slotStart, slotEnd).row;
      trail := [Entry(At(Created), Customer)];
      moves := [];
    }

    function View(): File
      reads this
    {
      File(row, trail, moves)
    }

    /** The single guarded door: the status, the columns given with it and the timeline entry
        are written together, or nothing is. */
    method Transition(to: BookingStatus, actor: Actor, expected: set<BookingStatus>, data: Columns -> Columns)
      returns (r: Result<(), Refused>)
      modifies this`row, this`trail
      ensures View() == MoveTo(old(View()), to, actor, expected, data)
      ensures r.Ok? <==> CanMove(old(row), to, expected)
    {
      if row.status !in expected { return Err(StateMoved); }
      if !IsTransitionAllowed(row.status, to, row.mode) { return Err(IllegalTransition); }
      row := data(row).(status := to);
      trail := trail + [Entry(At(to), actor)];
      r := Ok(());
    }

    method RecordEvent(n: Note, actor: Actor)
      modifies this`trail
      ensures View() == Noting(old(View()), n, actor)
    {
      trail := trail + [Entry(Noted(n), actor)];
    }

    method AdvanceAfterCreation() returns (r: Result<(), Refused>)
      modifies this
      ensures View() == Step(old(View()), Advance)
    {
      if row.mode == Cash {
        r := Transition(Assigning, System, {Created}, Same);
      } else {
        r := Transition(AwaitingPayment, System, {Created}, Same);
      }
    }

    method OnAuthorized()
      modifies this`row
      ensures View() == Step(old(View()), Authorize)
    {
      if row.mode == Online && row.captured.None? && row.paymentStatus == Unpaid {
        row := row.(paymentStatus := Authorized);
      }
    }

    /** The first capture of the order; a delivery that tells it again moves nothing. */
    method OnCapture(amount: nat)
      modifies this
      ensures View() == Step(old(View()), Capture(amount))
    {
      if row.mode != Online || row.captured.Some? { return; }
      row := row.(paymentStatus := PaymentStatus.Paid, captured := Some(amount));
      if row.status == AwaitingPayment {
        var _ := Transition(Assigning, System, {AwaitingPayment}, Same);
      }
    }

    method Collect(pro: ProId) returns (r: Result<(), Refused>)
      modifies this`row
      ensures View() == Step(old(View()), CollectCash(pro))
      ensures r.Ok? <==> Collectable(old(row), pro)
    {
      if row.pro != Some(pro) { return Err(NotFound); }
      if row.mode != Cash { return Err(NotAllowed); }
      if row.status != Started && row.status != Completed { return Err(StateMoved); }
      row := row.(paymentStatus := PaymentStatus.Paid);
      r := Ok(());
    }

    /** `initiate`: refused when there is nothing captured, nothing asked for, or more asked for
        than is left, and again when the gateway refuses. The booking's status is never read. */
    method InitiateRefund(amount: Option<int>, accepted: bool) returns (r: Result<nat, Refused>)
      modifies this`row
      ensures View() == Step(old(View()), Refund(amount, accepted))
      ensures r.Ok? <==> accepted && Refundable(old(row), amount)
      ensures r.Ok? ==> r.value == row.sentBack && row.refund == Some(row.sentBack)
    {
      if row.captured.None? { return Err(NotFound); }
      var remaining := row.captured.value - row.sentBack;
      if remaining <= 0 { return Err(NotAllowed); }
      var requested := if amount.Some? then amount.value else remaining;
      if requested <= 0 || requested > remaining { return Err(NotAllowed); }
      if !accepted { return Err(NotAllowed); }
      var total := row.sentBack + requested;
      row := row.(sentBack := total);
      row := row.(refund := Some(total));
      r := Ok(total);
    }

    method OnRefundSettled()
      modifies this`row
      ensures View() == Step(old(View()), SettleRefund)
    {
      if row.captured.Some? && row.sentBack >= row.captured.value && row.captured.value > 0 {
        row := row.(paymentStatus := PaymentStatus.Refunded);
      }
    }

    method AssignWinner(pro: ProId, attempt: nat, deadline: int) returns (r: Result<(), Refused>)
      modifies this
      ensures View() == Step(old(View()), Assign(pro, attempt, deadline))
    {
      r := Transition(Assigned, System, {Assigning}, AssignedData(pro, attempt, deadline));
    }

    /** No winner. Nothing checks that the booking is still waiting for one. */
    method MarkUnassignable(attempt: nat, outcome: Outcome)
      modifies this`row, this`trail
      ensures View() == Step(old(View()), Event.CloseUnassignable(attempt, outcome))
    {
      row := row.(attempt := attempt, outcome := Some(outcome));
      RecordEvent(Unassignable, System);
    }

    method AssignPro(pro: ProId, eligible: bool) returns (r: Result<(), Refused>)
      modifies this
      ensures View() == Step(old(View()), AssignByOps(pro, eligible))
    {
      if !eligible { return Err(NotAllowed); }
      r := Transition(Assigned, Ops, {Assigning}, OpsAssignedData(pro));
    }

    /** A writer of status that does not go through the door. */
    method ReassignByAdmin(to: Option<ProId>, eligible: bool, reasonLength: nat) returns (r: Result<(), Refused>)
      modifies this
      ensures View() == Step(old(View()), Reassign(to, eligible, reasonLength))
      ensures r.Ok? <==> Reassignable(old(row), Reassign(to, eligible, reasonLength))
    {
      if reasonLength < 10 { return Err(NotAllowed); }
      if row.status != Assigned && row.status != EnRoute { return Err(StateMoved); }
      if to.Some? && !eligible { return Err(NotAllowed); }
      if to.None? {
        row := row.(status := Assigning, pro := None, ackDeadline := None, outcome := Some(OpsReassigned));
      } else {
        row := row.(status := Assigned, pro := to, ackDeadline := None, attempt := row.attempt + 1,
                    outcome := Some(OpsReassigned));
      }
      trail := trail + [Entry(At(row.status), Ops)];
      r := Ok(());
    }

    /** Suspending a Pro sends their travelling and assigned work back to dispatch. */
    method ReleaseSuspended(pro: ProId)
      modifies this
      ensures View() == Step(old(View()), Suspend(pro))
    {
      if row.pro != Some(pro) || row.status !in {Assigned, EnRoute, Arrived, Started} { return; }
      if row.status == Assigned || row.status == EnRoute {
        row := row.(status := Assigning, pro := None, outcome := Some(OpsReassigned));
      }
      trail := trail + [Entry(At(row.status), Ops)];
    }

    method ExpireAcknowledgement(now: int)
      modifies this
      ensures View() == Step(old(View()), ExpireAck(now))
    {
      if !AckExpired(row, now) { return; }
      row := row.(outcome := Some(NoAckTimeout));
      var _ := Transition(Assigning, System, {Assigned}, WithoutPro);
    }

    method RecordAcknowledgement(pro: ProId, now: int) returns (r: Result<(), Refused>)
      modifies this`row, this`trail
      ensures View() == Step(old(View()), Acknowledge(pro, now))
      ensures r.Ok? <==> Acknowledgeable(old(View()), pro, now)
                         || (old(row).pro == Some(pro) && Entry(Noted(ReceivedBy(pro)), Pro) in old(trail))
    {
      if row.pro != Some(pro) { return Err(NotFound); }
      if Entry(Noted(ReceivedBy(pro)), Pro) in trail { return Ok(()); }
      if row.outcome != Some(PendingAck) { return Err(NotAllowed); }
      if row.ackDeadline.Some? && row.ackDeadline.value < now { return Err(NotAllowed); }
      row := row.(outcome := Some(Acknowledged));
      RecordEvent(ReceivedBy(pro), Pro);
      r := Ok(());
    }

    method MarkEnRoute(pro: ProId) returns (r: Result<(), Refused>)
      modifies this
      ensures View() == Step(old(View()), GoEnRoute(pro))
    {
      if row.pro != Some(pro) { return Err(NotFound); }
      r := Transition(EnRoute, Pro, {Assigned, Arrived}, Same);
    }

    method MarkArrived(pro: ProId, now: int, code: nat) returns (r: Result<(), Refused>)
      modifies this
      ensures View() == Step(old(View()), Arrive(pro, now, code))
    {
      if row.pro != Some(pro) { return Err(NotFound); }
      r := Transition(Arrived, Pro, {EnRoute, Assigned}, ArrivedData(now));
      if r.Ok? { row := IssueCode(row, code); }
    }

    method ResendStartCode(code: nat) returns (r: Result<(), Refused>)
      modifies this
      ensures View() == Step(old(View()), Event.ResendCode(code))
    {
      if row.status != Arrived { return Err(StateMoved); }
      row := IssueCode(row, code);
      r := Ok(());
    }

    method VerifyStartCode(pro: ProId, code: nat, max: nat, now: int) returns (r: Result<(), Refused>)
      modifies this
      ensures View() == Step(old(View()), Event.VerifyCode(pro, code, max, now))
    {
      if row.pro != Some(pro) { return Err(NotFound); }
      if row.status != Arrived { return Err(StateMoved); }
      if row.startCode.None? { return Err(NotAllowed); }
      if row.codeAttempts >= max { return Err(NotAllowed); }
      if row.startCode.value != code {
        row := row.(codeAttempts := row.codeAttempts + 1);
        RecordEvent(CodeFailed, Pro);
        return Err(NotAllowed);
      }
      r := Transition(Started, Pro, {Arrived}, StartedData(now, true));
    }

    /** The bypass is noted before the door is tried. */
    method ForceStartByOps(now: int) returns (r: Result<(), Refused>)
      modifies this
      ensures View() == Step(old(View()), ForceStart(now))
    {
      RecordEvent(CodeBypassed, Ops);
      r := Transition(Started, Ops, {Arrived}, StartedData(now, false));
    }

    method CompleteJob(pro: ProId, photos: nat, now: int) returns (r: Result<(), Refused>)
      modifies this
      ensures View() == Step(old(View()), Complete(pro, photos, now))
    {
      if row.pro != Some(pro) { return Err(NotFound); }
      if row.startedAt.None? { return Err(NotAllowed); }
      if photos == 0 { return Err(NotAllowed); }
      r := Transition(Completed, Pro, {Started}, CompletedData(now));
    }

    method CancelBooking(who: Actor, config: Config, override: Override, now: int, accepted: bool)
      returns (r: Result<(), Refused>)
      modifies this
      ensures View() == Step(old(View()), Cancel(who, config, override, now, accepted))
    {
      var charges := CancelCharges(row, Cancel(who, config, override, now, accepted));
      if charges.None? { return Err(NotAllowed); }
      var (fee, refund) := charges.value;
      var paid := row.paymentStatus == PaymentStatus.Paid;
      r := Transition(Cancelled, who, LIVE_STATUSES, CancelledData(fee, refund));
      if r.Ok? && refund > 0 && paid {
        var sent := InitiateRefund(Some(refund), accepted);
        if sent.Err? { r := Err(sent.error); }
      }
    }

    /** `move`: the other writer of status outside the door. */
    method Reschedule(newSlot: int, durationMinutes: nat, byOps: bool, allowance: nat, freeHours: real, now: int)
      returns (refusal: Option<Refusal>)
      modifies this
      ensures View() == Step(old(View()), MoveSlot(newSlot, durationMinutes, byOps, allowance, freeHours, now))
      ensures var e := MoveSlot(newSlot, durationMinutes, byOps, allowance, freeHours, now);
              refusal == DecideReschedule(MoveRequest(old(row), e))
    {
      var request := MoveRequest(row, MoveSlot(newSlot, durationMinutes, byOps, allowance, freeHours, now));
      refusal := DecideReschedule(request);
      if refusal.Some? { return; }
      var end := newSlot + durationMinutes * 60_000;
      var previous := if row.slotStart.Some? then row.slotStart.value else row.createdAt;
      row := row.(slotStart := Some(newSlot), slotEnd := Some(end), reschedules := row.reschedules + 1,
                  originalSlot := if row.originalSlot.Some? then row.originalSlot else Some(previous));
      if row.pro.Some? {
        row := row.(status := Assigning, pro := None, ackDeadline := None, outcome := Some(Rescheduled));
      }
      moves := moves + [SlotMove(previous, newSlot, end, byOps)];
      trail := trail + [Entry(At(row.status), if byOps then Ops else Customer)];
    }
  }
}
