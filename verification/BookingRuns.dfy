/** What holds of a booking after any run of its writers, the side doors included. */
module BookingRuns {
  import opened Wrappers
  import opened BookingTypes
  import opened CancellationPolicy
  import opened Bookings
  import C = ColumnLaws

  // ---- columns ----

  predicate Unplaced(s: BookingStatus) { s in {Created, AwaitingPayment, Assigning} }

  predicate Placed(s: BookingStatus) { s in {Assigned, EnRoute, Arrived, Started, Completed} }

  predicate ColumnsOk(row: Columns) {
    (Unplaced(row.status) ==> row.pro == None)
    && (Placed(row.status) ==> row.pro.Some?)
    && (row.status == Started || row.status == Completed ==> row.startedAt.Some?)
    && (row.startedAt.Some? ==> row.status in {Started, Completed, Cancelled})
    && (row.completedAt.Some? <==> row.status == Completed)
    && (row.mode == Cash ==> row.status != AwaitingPayment)
  }

  // ---- timeline ----

  /** The statuses a timeline records, in order. */
  function Visits(trail: seq<Entry>): seq<BookingStatus> {
    if trail == [] then []
    else
      var last := trail[|trail| - 1];
      Visits(trail[..|trail| - 1]) + if last.what.At? then [last.what.status] else []
  }

  /** The moves the table does not have, made by reassignment and suspension. */
  predicate SideDoor(a: BookingStatus, b: BookingStatus) { a == EnRoute && (b == Assigning || b == Assigned) }

  /** A status written again beside a change that moved nothing. */
  predicate Restated(a: BookingStatus, b: BookingStatus) { a == b && a != Completed && a != Cancelled }

  predicate EdgeOk(a: BookingStatus, b: BookingStatus, mode: PaymentMode) {
    IsTransitionAllowed(a, b, mode) || SideDoor(a, b) || Restated(a, b)
  }

  /** Past the payment fork: dispatch has the booking, or has had it. */
  predicate Dispatched(s: BookingStatus) { s != Created && s != AwaitingPayment && s != Cancelled }

  predicate PathOk(v: seq<BookingStatus>, mode: PaymentMode) {
    |v| > 0 && v[0] == Created
    && (forall i :: 0 <= i < |v| - 1 ==> EdgeOk(v[i], v[i + 1], mode))
    && (mode == Cash ==> AwaitingPayment !in v)
    && (mode == Online ==> forall i :: 0 <= i < |v| && Dispatched(v[i]) ==> AwaitingPayment in v[..i])
  }

  predicate TrailOk(f: File) {
    var v := Visits(f.trail);
    PathOk(v, f.row.mode) && v[|v| - 1] == f.row.status
  }

  // ---- moved slots ----

  /** Each move starts where the one before ended; the first kept the slot first sold. */
  predicate ChainOk(row: Columns, moves: seq<SlotMove>) {
    row.reschedules == |moves|
    && (forall i :: 0 <= i < |moves| ==> moves[i].from != moves[i].to)
    && (forall i :: 0 <= i < |moves| - 1 ==> moves[i + 1].from == moves[i].to)
    && (if moves == [] then row.originalSlot == None
        else row.originalSlot == Some(moves[0].from) && row.slotStart == Some(moves[|moves| - 1].to)
             && row.slotEnd == Some(moves[|moves| - 1].toEnd))
  }

  // ---- money sent back ----

  /** No more is sent back than was captured, and nothing where nothing was. */
  predicate RefundOk(row: Columns) { row.sentBack <= if row.captured.Some? then row.captured.value else 0 }

  /** Cash is paid or not; online is paid once captured, and refunded once all of that is sent back. */
  predicate PaymentOk(row: Columns) {
    match row.paymentStatus
    case Unpaid => row.captured == None
    case Authorized => row.mode == Online && row.captured == None
    case Paid => row.mode == Online <==> row.captured.Some?
    case Refunded => row.mode == Online && row.captured.Some? && 0 < row.captured.value <= row.sentBack
  }

  predicate FileOk(f: File) {
    ColumnsOk(f.row) && TrailOk(f) && ChainOk(f.row, f.moves) && RefundOk(f.row) && PaymentOk(f.row)
  }

  // ---- who writes ----

  /** Money for the booking, in or out. */
  predicate ByPayment(e: Event) {
    e.Authorize? || e.Capture? || e.CollectCash? || e.Refund? || e.SettleRefund? || e.Cancel?
  }

  /** Work at the customer's door. */
  predicate OnSite(e: Event) {
    e.GoEnRoute? || e.Arrive? || e.ResendCode? || e.VerifyCode? || e.ForceStart? || e.Complete?
  }

  lemma VisitsAppend(trail: seq<Entry>, e: Entry)
    ensures Visits(trail + [e]) == Visits(trail) + if e.what.At? then [e.what.status] else []
  {
    assert (trail + [e])[..|trail|] == trail;
  }

  lemma PathExtends(v: seq<BookingStatus>, s: BookingStatus, mode: PaymentMode)
    requires PathOk(v, mode) && EdgeOk(v[|v| - 1], s, mode)
    requires mode == Cash ==> s != AwaitingPayment
    ensures PathOk(v + [s], mode)
  {
    hide EdgeOk, IsTransitionAllowed;
    var w := v + [s];
    forall i | 0 <= i < |w| - 1 ensures EdgeOk(w[i], w[i + 1], mode) {
      if i < |v| - 1 { assert EdgeOk(v[i], v[i + 1], mode); }
    }
    if mode == Online {
      forall i | 0 <= i < |w| && Dispatched(w[i]) ensures AwaitingPayment in w[..i] {
        if i < |v| {
          assert w[..i] == v[..i];
        } else {
          assert w[..i] == v;
          OnlinePaysFirst(v, s);
        }
      }
    }
  }

  lemma OnlinePaysFirst(v: seq<BookingStatus>, s: BookingStatus)
    requires PathOk(v, Online) && EdgeOk(v[|v| - 1], s, Online) && Dispatched(s)
    ensures AwaitingPayment in v
  {
    var last := v[|v| - 1];
    if Dispatched(last) {
      assert AwaitingPayment in v[..|v| - 1];
    } else {
      assert last == AwaitingPayment;
    }
  }

  /** Writing a status with its timeline entry keeps the timeline truthful. */
  lemma WritingKeepsTrail(f: File, row: Columns, actor: Actor)
    requires TrailOk(f) && row.mode == f.row.mode && EdgeOk(f.row.status, row.status, row.mode)
    requires row.mode == Cash ==> row.status != AwaitingPayment
    ensures TrailOk(f.(row := row, trail := f.trail + [Entry(At(row.status), actor)]))
  {
    hide EdgeOk;
    VisitsAppend(f.trail, Entry(At(row.status), actor));
    PathExtends(Visits(f.trail), row.status, row.mode);
  }

  lemma NotingKeepsTrail(f: File, row: Columns, n: Note, actor: Actor)
    requires TrailOk(f) && row.mode == f.row.mode && row.status == f.row.status
    ensures TrailOk(Noting(f.(row := row), n, actor))
  {
    VisitsAppend(f.trail, Entry(Noted(n), actor));
    assert Visits(f.trail) + [] == Visits(f.trail);
  }

  lemma DoorKeepsTrail(f: File, to: BookingStatus, actor: Actor, expected: set<BookingStatus>, data: Columns -> Columns)
    requires TrailOk(f) && ColumnsOk(f.row) && data(f.row).mode == f.row.mode
    ensures TrailOk(MoveTo(f, to, actor, expected, data))
  {
    if CanMove(f.row, to, expected) {
      assert f.row.mode == Cash ==> to != AwaitingPayment;
      WritingKeepsTrail(f, data(f.row).(status := to), actor);
    }
  }

  /** A change of columns that writes no timeline entry. */
  lemma ColumnsKeepTrail(f: File, row: Columns)
    requires TrailOk(f) && row.mode == f.row.mode && row.status == f.row.status
    ensures TrailOk(f.(row := row))
  {
    hide Visits, PathOk;
  }

  lemma CaptureKeepsTrail(f: File, amount: nat)
    requires TrailOk(f) && ColumnsOk(f.row)
    ensures TrailOk(Step(f, Capture(amount)))
  {
    hide Visits, PathOk;
    var paid := f.row.(paymentStatus := PaymentStatus.Paid, captured := Some(amount));
    ColumnsKeepTrail(f, paid);
    hide TrailOk, MoveTo;
    DoorKeepsTrail(f.(row := paid), Assigning, System, {AwaitingPayment}, Same);
  }

  lemma ReassignKeepsTrail(f: File, e: Event)
    requires TrailOk(f) && ColumnsOk(f.row) && e.Reassign?
    ensures TrailOk(Reassigned(f, e))
  {
    hide TrailOk;
    if Reassignable(f.row, e) { WritingKeepsTrail(f, Reassigned(f, e).row, Ops); }
  }

  lemma SuspendKeepsTrail(f: File, pro: ProId)
    requires TrailOk(f) && ColumnsOk(f.row)
    ensures TrailOk(Suspended(f, pro))
  {
    hide TrailOk;
    if f.row.pro == Some(pro) && f.row.status in {Assigned, EnRoute, Arrived, Started} {
      WritingKeepsTrail(f, Suspended(f, pro).row, Ops);
    }
  }

  lemma ExpiryKeepsTrail(f: File, now: int)
    requires TrailOk(f) && ColumnsOk(f.row)
    ensures TrailOk(Step(f, ExpireAck(now)))
  {
    var timedOut := f.row.(outcome := Some(NoAckTimeout));
    hide TrailOk, MoveTo;
    ColumnsKeepTrail(f, timedOut);
    DoorKeepsTrail(f.(row := timedOut), Assigning, System, {Assigned}, WithoutPro);
  }

  lemma ArrivalKeepsTrail(f: File, pro: ProId, now: int, code: nat)
    requires TrailOk(f) && ColumnsOk(f.row)
    ensures TrailOk(Step(f, Arrive(pro, now, code)))
  {
    hide TrailOk, MoveTo;
    DoorKeepsTrail(f, Arrived, Pro, {EnRoute, Assigned}, ArrivedData(now));
    var there := MoveTo(f, Arrived, Pro, {EnRoute, Assigned}, ArrivedData(now));
    ColumnsKeepTrail(there, IssueCode(there.row, code));
  }

  lemma VerifyKeepsTrail(f: File, e: Event)
    requires TrailOk(f) && ColumnsOk(f.row) && e.VerifyCode?
    ensures TrailOk(Verified(f, e))
  {
    hide TrailOk, MoveTo;
    NotingKeepsTrail(f, f.row.(codeAttempts := f.row.codeAttempts + 1), CodeFailed, Pro);
    DoorKeepsTrail(f, Started, Pro, {Arrived}, StartedData(e.now, true));
  }

  lemma ForceStartKeepsTrail(f: File, now: int)
    requires TrailOk(f) && ColumnsOk(f.row)
    ensures TrailOk(Step(f, ForceStart(now)))
  {
    hide TrailOk, MoveTo;
    NotingKeepsTrail(f, f.row, CodeBypassed, Ops);
    DoorKeepsTrail(Noting(f, CodeBypassed, Ops), Started, Ops, {Arrived}, StartedData(now, false));
  }

  lemma CancelKeepsTrail(f: File, e: Event)
    requires TrailOk(f) && ColumnsOk(f.row) && e.Cancel?
    ensures TrailOk(CancelledFile(f, e))
  {
    hide TrailOk, MoveTo, CancelCharges;
    var charges := CancelCharges(f.row, e);
    if charges.Some? {
      var (fee, refund) := charges.value;
      var data := CancelledData(fee, refund);
      DoorKeepsTrail(f, Cancelled, e.who, LIVE_STATUSES, data);
      var moved := MoveTo(f, Cancelled, e.who, LIVE_STATUSES, data);
      ColumnsKeepTrail(moved, WithRefund(moved.row, Some(refund), e.accepted));
    }
  }

  lemma MovingKeepsTrail(f: File, e: Event)
    requires TrailOk(f) && ColumnsOk(f.row) && e.MoveSlot?
    ensures TrailOk(Moved(f, e))
  {
    hide Visits, PathOk, DecideReschedule;
    if DecideReschedule(MoveRequest(f.row, e)) == None {
      MovableStatus(MoveRequest(f.row, e));
      WritingKeepsTrail(f, Moved(f, e).row, if e.byOps then Ops else Customer);
    }
  }

  lemma StepKeepsTrail(f: File, e: Event)
    requires TrailOk(f) && ColumnsOk(f.row)
    ensures TrailOk(Step(f, e))
  {
    hide TrailOk, MoveTo, Reassigned, Suspended, Verified, CancelledFile, Moved;
    match e
    case Advance =>
      DoorKeepsTrail(f, if f.row.mode == Cash then Assigning else AwaitingPayment, System, {Created}, Same);
    case Authorize => ColumnsKeepTrail(f, f.row.(paymentStatus := Authorized));
    case Capture(amount) => CaptureKeepsTrail(f, amount);
    case CollectCash(_) => ColumnsKeepTrail(f, f.row.(paymentStatus := PaymentStatus.Paid));
    case Refund(asked, accepted) => ColumnsKeepTrail(f, WithRefund(f.row, asked, accepted));
    case SettleRefund => ColumnsKeepTrail(f, f.row.(paymentStatus := PaymentStatus.Refunded));
    case Assign(pro, attempt, deadline) =>
      DoorKeepsTrail(f, Assigned, System, {Assigning}, AssignedData(pro, attempt, deadline));
    case AssignByOps(pro, _) => DoorKeepsTrail(f, Assigned, Ops, {Assigning}, OpsAssignedData(pro));
    case Reassign(_, _, _) => ReassignKeepsTrail(f, e);
    case Suspend(pro) => SuspendKeepsTrail(f, pro);
    case ExpireAck(now) => ExpiryKeepsTrail(f, now);
    case CloseUnassignable(attempt, outcome) =>
      NotingKeepsTrail(f, f.row.(attempt := attempt, outcome := Some(outcome)), Unassignable, System);
    case Acknowledge(pro, _) =>
      NotingKeepsTrail(f, f.row.(outcome := Some(Outcome.Acknowledged)), ReceivedBy(pro), Pro);
    case GoEnRoute(_) => DoorKeepsTrail(f, EnRoute, Pro, {Assigned, Arrived}, Same);
    case Arrive(pro, now, code) => ArrivalKeepsTrail(f, pro, now, code);
    case ResendCode(code) => ColumnsKeepTrail(f, IssueCode(f.row, code));
    case VerifyCode(_, _, _, _) => VerifyKeepsTrail(f, e);
    case ForceStart(now) => ForceStartKeepsTrail(f, now);
    case Complete(_, _, now) => DoorKeepsTrail(f, Completed, Pro, {Started}, CompletedData(now));
    case Cancel(_, _, _, _, _) => CancelKeepsTrail(f, e);
    case MoveSlot(_, _, _, _, _, _) => MovingKeepsTrail(f, e);
  }

  lemma MovableStatus(i: MoveInput)
    requires DecideReschedule(i) == None
    ensures i.status in RESCHEDULABLE && i.slot.Some? && i.newSlot != i.slot.value && i.moves < i.allowance
  {
  }

  lemma PaymentKeepsColumns(f: File, e: Event)
    requires ColumnsOk(f.row) && ByPayment(e)
    ensures ColumnsOk(Step(f, e).row) && Step(f, e).row.mode == f.row.mode
  {
    hide CancelCharges, Refundable;
  }

  lemma DoorKeepsColumns(f: File, to: BookingStatus, actor: Actor, expected: set<BookingStatus>,
                         data: Columns -> Columns)
    requires ColumnsOk(f.row)
    requires CanMove(f.row, to, expected) ==>
               ColumnsOk(data(f.row).(status := to)) && data(f.row).mode == f.row.mode
    ensures ColumnsOk(MoveTo(f, to, actor, expected, data).row)
    ensures MoveTo(f, to, actor, expected, data).row.mode == f.row.mode
  {
    hide ColumnsOk;
  }

  lemma TravelKeepsColumns(f: File, e: Event)
    requires ColumnsOk(f.row) && (e.GoEnRoute? || e.Arrive? || e.ResendCode?)
    ensures ColumnsOk(Step(f, e).row) && Step(f, e).row.mode == f.row.mode
  {
    hide MoveTo, IsTransitionAllowed;
    match e
    case GoEnRoute(_) => DoorKeepsColumns(f, EnRoute, Pro, {Assigned, Arrived}, Same);
    case Arrive(_, now, _) => DoorKeepsColumns(f, Arrived, Pro, {EnRoute, Assigned}, ArrivedData(now));
    case ResendCode(_) =>
  }

  lemma WorkKeepsColumns(f: File, e: Event)
    requires ColumnsOk(f.row) && (e.VerifyCode? || e.ForceStart? || e.Complete?)
    ensures ColumnsOk(Step(f, e).row) && Step(f, e).row.mode == f.row.mode
  {
    hide MoveTo, IsTransitionAllowed;
    match e
    case VerifyCode(_, _, _, now) => DoorKeepsColumns(f, Started, Pro, {Arrived}, StartedData(now, true));
    case ForceStart(now) =>
      DoorKeepsColumns(Noting(f, CodeBypassed, Ops), Started, Ops, {Arrived}, StartedData(now, false));
    case Complete(_, _, now) => DoorKeepsColumns(f, Completed, Pro, {Started}, CompletedData(now));
  }

  lemma SiteKeepsColumns(f: File, e: Event)
    requires ColumnsOk(f.row) && OnSite(e)
    ensures ColumnsOk(Step(f, e).row) && Step(f, e).row.mode == f.row.mode
  {
    hide ColumnsOk, Step;
    if e.GoEnRoute? || e.Arrive? || e.ResendCode? {
      TravelKeepsColumns(f, e);
    } else {
      WorkKeepsColumns(f, e);
    }
  }

  lemma PlacingKeepsColumns(f: File, e: Event)
    requires ColumnsOk(f.row) && !ByPayment(e) && !OnSite(e)
    ensures ColumnsOk(Step(f, e).row) && Step(f, e).row.mode == f.row.mode
  {
    hide DecideReschedule;
    if e.MoveSlot? && DecideReschedule(MoveRequest(f.row, e)) == None { MovableStatus(MoveRequest(f.row, e)); }
  }

  lemma StepKeepsColumns(f: File, e: Event)
    requires ColumnsOk(f.row)
    ensures ColumnsOk(Step(f, e).row) && Step(f, e).row.mode == f.row.mode
  {
    hide ColumnsOk, Step;
    if ByPayment(e) {
      PaymentKeepsColumns(f, e);
    } else if OnSite(e) {
      SiteKeepsColumns(f, e);
    } else {
      PlacingKeepsColumns(f, e);
    }
  }

  lemma StepKeepsChain(f: File, e: Event)
    requires ChainOk(f.row, f.moves)
    ensures ChainOk(Step(f, e).row, Step(f, e).moves)
  {
    if e.MoveSlot? {
      hide DecideReschedule;
      if DecideReschedule(MoveRequest(f.row, e)) == None { MovableStatus(MoveRequest(f.row, e)); }
    } else {
      OnlyMovesMoveSlots(f, e);
      hide Step;
    }
  }

  /** Neither row knows of a move the other does not. */
  predicate SameSlots(was: File, now: File) {
    now.moves == was.moves && now.row.reschedules == was.row.reschedules && now.row.originalSlot == was.row.originalSlot
    && now.row.slotStart == was.row.slotStart && now.row.slotEnd == was.row.slotEnd
  }

  lemma PaymentMovesNoSlot(f: File, e: Event)
    requires ByPayment(e)
    ensures SameSlots(f, Step(f, e))
  {
    hide CancelCharges, IsTransitionAllowed, Refundable;
  }

  lemma OnlyMovesMoveSlots(f: File, e: Event)
    requires !e.MoveSlot?
    ensures SameSlots(f, Step(f, e))
  {
    hide IsTransitionAllowed, CancelledFile;
    if ByPayment(e) { PaymentMovesNoSlot(f, e); }
  }

  function Run(f: File, es: seq<Event>): File
    decreases |es|
  {
    if es == [] then f else Run(Step(f, es[0]), es[1..])
  }

  lemma StepKeepsPayment(f: File, e: Event)
    requires PaymentOk(f.row)
    ensures PaymentOk(Step(f, e).row)
  {
    hide Step;
    if C.Passes(f, e) {
      C.EveryColumnIsTold(f, e);
      hide C.Passes, C.PlacedSo, C.SoughtSo, C.TimedSo, C.SlottedSo, C.LoggedSo, C.RefundOwed, C.FeeWritten;
      PaymentFollows(f, e, Step(f, e).row);
    } else {
      C.RefusedWritesNothing(f, e);
      hide C.Passes;
    }
  }

  lemma PaymentFollows(f: File, e: Event, now: Columns)
    requires C.Passes(f, e) && C.PaidSo(f.row, e, now) && PaymentOk(f.row)
    ensures PaymentOk(now)
  {
    hide C.RefundOwed, C.FeeWritten;
  }

  lemma {:induction false} RunKeeps(f: File, es: seq<Event>)
    requires FileOk(f)
    ensures FileOk(Run(f, es)) && Run(f, es).row.mode == f.row.mode
    decreases |es|
  {
    if es != [] {
      StepKeepsTrail(f, es[0]);
      StepKeepsColumns(f, es[0]);
      StepKeepsChain(f, es[0]);
      StepKeepsRefunds(f, es[0]);
      StepKeepsPayment(f, es[0]);
      hide Step, ColumnsOk, TrailOk, ChainOk, RefundOk, PaymentOk;
      RunKeeps(Step(f, es[0]), es[1..]);
    }
  }

  /** From creation on, whatever its writers do: the Pro column follows the status, a started or
      completed job has a start time, the timeline is a legal path ending at the current status
      (cash never awaits payment, online is dispatched only after awaiting it), the moves of its
      slot form a chain from the slot first sold to the current one, no more is refunded than was
      captured, and the payment status says what was captured and sent back. */
  lemma BookingsStayConsistent(mode: PaymentMode, payable: nat, now: int, slotStart: int, slotEnd: int, es: seq<Event>)
    ensures FileOk(Run(Opened(mode, payable, now, slotStart, slotEnd), es))
    ensures Run(Opened(mode, payable, now, slotStart, slotEnd), es).row.mode == mode
  {
    var f := Opened(mode, payable, now, slotStart, slotEnd);
    VisitsAppend([], Entry(At(Created), Customer));
    assert [] + [Entry(At(Created), Customer)] == f.trail;
    assert Visits(f.trail) == [Created];
    RunKeeps(f, es);
  }

  // ---- refunds ----

  /** A refund this step has the gateway send: asked for directly, or by a cancellation that goes
      through and owes one on a paid booking. */
  predicate Sends(f: File, e: Event) {
    (e.Refund? && e.accepted && Refundable(f.row, e.asked))
    || (e.Cancel? && Owes(f, e) && e.accepted && Refundable(f.row, Some(CancelCharges(f.row, e).value.1)))
  }

  predicate Owes(f: File, e: Event)
    requires e.Cancel?
  {
    CancelCharges(f.row, e).Some? && CancelCharges(f.row, e).value.1 > 0
    && f.row.paymentStatus == PaymentStatus.Paid && CanMove(f.row, Cancelled, LIVE_STATUSES)
  }

  lemma OnlyPaymentsRefund(f: File, e: Event)
    requires !ByPayment(e)
    ensures var n := Step(f, e).row;
            n.sentBack == f.row.sentBack && n.captured == f.row.captured && n.refund == f.row.refund
  {
    hide DecideReschedule, IsTransitionAllowed;
  }

  lemma CancellingTotals(f: File, e: Event)
    requires RefundOk(f.row) && e.Cancel?
    ensures var n := Step(f, e).row;
            RefundOk(n) && n.sentBack >= f.row.sentBack && (n.sentBack > f.row.sentBack <==> Sends(f, e))
            && (Sends(f, e) ==> n.refund == Some(n.sentBack))
  {
    hide CancelCharges, IsTransitionAllowed;
  }

  /** The total sent back grows in exactly those steps, never past what was captured, and what
      they leave on the booking is that total. */
  lemma RefundsAreTotalled(f: File, e: Event)
    requires RefundOk(f.row)
    ensures var n := Step(f, e).row;
            RefundOk(n) && n.sentBack >= f.row.sentBack && (n.sentBack > f.row.sentBack <==> Sends(f, e))
            && (Sends(f, e) ==> n.refund == Some(n.sentBack))
  {
    if e.Cancel? {
      hide Step, Sends, RefundOk;
      CancellingTotals(f, e);
    } else if ByPayment(e) {
      hide IsTransitionAllowed;
    } else {
      OnlyPaymentsRefund(f, e);
      hide Step;
    }
  }

  lemma StepKeepsRefunds(f: File, e: Event)
    requires RefundOk(f.row)
    ensures RefundOk(Step(f, e).row)
  {
    hide RefundOk, Step;
    RefundsAreTotalled(f, e);
  }

  /** A cancellation of a paid booking writes the refund it owes before it asks for it. What is
      written is what has been sent back exactly when the gateway takes the request and it fits
      in what earlier refunds left, or those had come to just that amount. */
  lemma CancellationRefundIsTrue(f: File, e: Event)
    requires RefundOk(f.row) && e.Cancel? && Owes(f, e)
    ensures var n := Step(f, e).row; var owed := CancelCharges(f.row, e).value.1;
            n.refund == Some(n.sentBack)
            <==> (e.accepted && f.row.captured.Some? && f.row.sentBack + owed <= f.row.captured.value)
                 || owed == f.row.sentBack
  {
    hide CancelCharges;
  }

  /** A booking paid in full, part of it refunded, and then called off by the system, which charges
      nothing: the second request no longer fits, and the booking says all was sent back. */
  lemma PartRefundMakesItFalse(f: File, now: int, start: int, end: int, price: nat, part: int, e: Event)
    requires 0 < part < price && f == Opened(Online, price, now, start, end)
    requires e.Cancel? && e.who == System
    ensures var n := Run(f, [Advance, Capture(price), Refund(Some(part), true), e]).row;
            n.status == Cancelled && n.refund == Some(price) && n.sentBack == part
  {
    RunsInTurn(f, Advance, Capture(price), Refund(Some(part), true), e);
    PartlyRefunded(f, now, start, end, price, part);
    hide Run, Opened, CancelCharges;
    var refunded := Step(Step(Step(f, Advance), Capture(price)), Refund(Some(part), true));
    SystemChargesNothing(refunded.row, e);
    CalledOff(refunded, e, price);
  }

  lemma PartlyRefunded(f: File, now: int, start: int, end: int, price: nat, part: int)
    requires 0 < part < price && f == Opened(Online, price, now, start, end)
    ensures var n := Step(Step(Step(f, Advance), Capture(price)), Refund(Some(part), true)).row;
            n.status == Assigning && n.paymentStatus == PaymentStatus.Paid && n.mode == Online
            && n.captured == Some(price) && n.payable == price && n.sentBack == part
  {
  }

  lemma SystemChargesNothing(row: Columns, e: Event)
    requires row.status == Assigning && row.paymentStatus == PaymentStatus.Paid && e.Cancel? && e.who == System
    ensures CancelCharges(row, e) == Some((0, row.payable as int))
  {
    hide DecideCancellation;
  }

  lemma CalledOff(f: File, e: Event, owed: int)
    requires f.row.status == Assigning && f.row.paymentStatus == PaymentStatus.Paid && e.Cancel? && e.who == System
    requires CancelCharges(f.row, e) == Some((0, owed)) && owed > 0
    requires f.row.captured.Some? && f.row.sentBack + owed > f.row.captured.value
    ensures var n := Step(f, e).row; n.status == Cancelled && n.refund == Some(owed) && n.sentBack == f.row.sentBack
  {
    hide CancelCharges;
  }

  lemma RunsInTurn(f: File, a: Event, b: Event, c: Event, d: Event)
    ensures Run(f, [a, b, c, d]) == Step(Step(Step(Step(f, a), b), c), d)
  {
    hide Step;
    assert [a, b, c, d][1..] == [b, c, d] && [b, c, d][1..] == [c, d] && [c, d][1..] == [d] && [d][1..] == [];
    assert Run(f, [a, b, c, d]) == Run(Step(f, a), [b, c, d]);
    assert Run(Step(f, a), [b, c, d]) == Run(Step(Step(f, a), b), [c, d]);
    assert Run(Step(Step(f, a), b), [c, d]) == Run(Step(Step(Step(f, a), b), c), [d]);
  }

  // ---- terminal states ----

  predicate IsOver(s: BookingStatus) { s == Completed || s == Cancelled }

  /** All that can still happen to a booking that is over: money back. */
  predicate Closed(was: Columns, now: Columns) {
    now.status == was.status && now.pro == was.pro && now.fee == was.fee
    && now.slotStart == was.slotStart && now.sentBack >= was.sentBack
    && now.refund == if now.sentBack == was.sentBack then was.refund else Some(now.sentBack)
  }

  lemma PaymentAfterTheEnd(f: File, e: Event)
    requires IsOver(f.row.status) && ByPayment(e)
    ensures Closed(f.row, Step(f, e).row) && Step(f, e).moves == f.moves
  {
    hide CancelCharges;
  }

  lemma OverStep(f: File, e: Event)
    requires IsOver(f.row.status)
    ensures Closed(f.row, Step(f, e).row) && Step(f, e).moves == f.moves
  {
    hide DecideReschedule, CancelledFile;
    if ByPayment(e) {
      PaymentAfterTheEnd(f, e);
    } else if e.MoveSlot? && DecideReschedule(MoveRequest(f.row, e)) == None {
      MovableStatus(MoveRequest(f.row, e));
    }
  }

  /** Completed and cancelled are for good: no later operation changes the status, the Pro, the
      slot and its history, or the fee; and the refund changes only with the total sent back,
      to which it is then equal. */
  lemma {:induction false} OverIsForGood(f: File, es: seq<Event>)
    requires IsOver(f.row.status)
    ensures Closed(f.row, Run(f, es).row) && Run(f, es).moves == f.moves
    decreases |es|
  {
    if es != [] {
      OverStep(f, es[0]);
      hide Step;
      OverIsForGood(Step(f, es[0]), es[1..]);
    }
  }

  // ---- one writer or several ----

  lemma PaymentsUseTheDoor(f: File, e: Event)
    requires ByPayment(e) && Step(f, e).row.status != f.row.status
    ensures IsTransitionAllowed(f.row.status, Step(f, e).row.status, f.row.mode)
  {
    hide CancelCharges, Refundable;
  }

  /** A change of status follows the table of legal moves unless, and only unless, it takes a
      travelling Pro off the job by reassignment or suspension. */
  lemma OnlySideDoorsLeaveTheTable(f: File, e: Event)
    requires FileOk(f) && Step(f, e).row.status != f.row.status
    ensures IsTransitionAllowed(f.row.status, Step(f, e).row.status, f.row.mode)
            <==> !(f.row.status == EnRoute && (e.Reassign? || e.Suspend?))
  {
    hide TrailOk, ChainOk, RefundOk, PaymentOk;
    if ByPayment(e) {
      PaymentsUseTheDoor(f, e);
      hide Step;
    } else {
      hide DecideReschedule, CancelledFile;
      if e.MoveSlot? && DecideReschedule(MoveRequest(f.row, e)) == None { MovableStatus(MoveRequest(f.row, e)); }
    }
  }

  /** The side doors do open: every travelling booking can be taken back to dispatch, a move
      the table refuses. */
  lemma SideDoorsOpen(f: File, reasonLength: nat)
    requires f.row.status == EnRoute && reasonLength >= 10
    ensures Step(f, Reassign(None, false, reasonLength)).row.status == Assigning
    ensures !IsTransitionAllowed(EnRoute, Assigning, f.row.mode)
  {
  }

  // ---- the trust anchor ----

  /** A job starts only on the customer's current code, entered by the Pro it is assigned to
      with tries left and then spent, or on a bypass by ops that the timeline shows. */
  lemma StartsOnlyWithConsent(f: File, e: Event)
    requires FileOk(f) && f.row.status != Started && Step(f, e).row.status == Started
    ensures var n := Step(f, e);
            f.row.status == Arrived && n.row.startedAt.Some?
            && ((e.VerifyCode? && f.row.startCode == Some(e.code) && f.row.codeAttempts < e.max
                 && f.row.pro == Some(e.pro) && n.row.startCode == None)
                || (e.ForceStart? && |n.trail| >= 2 && n.trail[|n.trail| - 2] == Entry(Noted(CodeBypassed), Ops)))
  {
    hide CancelCharges, DecideReschedule, Visits, TrailOk, ChainOk;
  }

  /** Wrong codes are counted against the code they were tried on, and never past the limit. */
  lemma WrongCodesAreBounded(f: File, e: Event, max: nat)
    requires e.VerifyCode? ==> e.max == max
    requires f.row.codeAttempts <= max
    ensures Step(f, e).row.codeAttempts <= max
    ensures Step(f, e).row.codeAttempts < f.row.codeAttempts ==>
            (e.Arrive? || e.ResendCode?) && Step(f, e).row.startCode == Some(e.code)
  {
    hide CancelCharges, DecideReschedule;
  }

  // ---- the allowance ----

  /** A slot moves only through a reschedule, which a customer may make only while the moves
      already recorded leave some of the allowance. */
  lemma SlotsMoveWithinTheAllowance(f: File, e: Event)
    requires FileOk(f) && Step(f, e).row.slotStart != f.row.slotStart
    ensures e.MoveSlot? && Step(f, e).row.slotStart == Some(e.newSlot) && |Step(f, e).moves| == |f.moves| + 1
    ensures !e.byOps ==> |f.moves| < e.allowance
  {
    hide TrailOk, ColumnsOk, RefundOk, PaymentOk;
    if !e.MoveSlot? {
      OnlyMovesMoveSlots(f, e);
      hide Step;
    } else {
      hide DecideReschedule;
      if DecideReschedule(MoveRequest(f.row, e)) == None { MovableStatus(MoveRequest(f.row, e)); }
    }
  }
}
