/** What a cancellation costs, and whether a slot may still move. Instants are milliseconds. */
module CancellationPolicy {
  import opened Wrappers
  import opened BookingTypes

  const MS_PER_HOUR: real := 3_600_000.0

  datatype Timing = Early | Late | Unscheduled

  /** A numeric setting as it arrives: `NaN` and the infinities are possible. */
  datatype Setting = Finite(value: real) | NotFinite

  datatype Config = Config(freeHours: real, latePercent: Setting, flatFee: nat, waivesFee: bool)

  datatype PolicyInput = PolicyInput(
    status: BookingStatus,
    slot: Option<int>,
    payable: nat,
    config: Config,
    who: Actor,
    now: int)

  datatype Decision = Decision(window: Window, timing: Timing, fee: int, refund: int, waived: bool)

  function HoursUntil(slot: Option<int>, now: int): Option<real> {
    match slot
    case None => None
    case Some(t) => Some((t - now) as real / MS_PER_HOUR)
  }

  function TimingFor(slot: Option<int>, now: int, freeHours: real): Timing {
    match HoursUntil(slot, now)
    case None => Unscheduled
    case Some(h) => if h >= freeHours then Early else Late
  }

  function ClampPercent(s: Setting): (p: real)
    ensures 0.0 <= p <= 100.0
  {
    match s
    case NotFinite => 0.0
    case Finite(v) => if v < 0.0 then 0.0 else if v > 100.0 then 100.0 else v
  }

  function PercentOf(payable: nat, percent: real): int { (payable as real * percent / 100.0).Floor }

  /** What is kept when a fee is due at all. */
  function Retained(payable: nat, config: Config, window: Window): int {
    var share := PercentOf(payable, ClampPercent(config.latePercent));
    var fee := if window == D && config.flatFee > share then config.flatFee else share;
    Min(Max(fee, 0), payable)
  }

  function DecideCancellation(i: PolicyInput): Decision {
    var window := match WindowFor(i.status) case None => A case Some(w) => w;
    var timing := TimingFor(i.slot, i.now, i.config.freeHours);
    if i.who != Customer then Decision(window, timing, 0, i.payable, false)
    else if window == A then Decision(window, timing, 0, i.payable, false)
    else if i.config.waivesFee then Decision(window, timing, 0, i.payable, true)
    else if timing == Early then Decision(window, timing, 0, i.payable, false)
    else if timing == Unscheduled && window != D then Decision(window, timing, 0, i.payable, false)
    else
      var fee := Retained(i.payable, i.config, window);
      Decision(window, timing, fee, i.payable - fee, false)
  }

  /** Fee and refund always rebuild what the customer owes, and neither is negative. */
  lemma FeeAndRefundRebuildThePrice(i: PolicyInput)
    ensures var d := DecideCancellation(i); 0 <= d.fee <= i.payable && d.refund == i.payable - d.fee
  {
  }

  lemma PassingTimeOnlyMakesLate(slot: Option<int>, now: int, later: int, freeHours: real)
    requires now <= later
    ensures TimingFor(slot, now, freeHours) == Late ==> TimingFor(slot, later, freeHours) == Late
    ensures TimingFor(slot, now, freeHours) == Unscheduled <==> TimingFor(slot, later, freeHours) == Unscheduled
  {
    if slot.Some? {
      assert (slot.value - later) as real <= (slot.value - now) as real;
    }
  }

  /** Waiting never makes a cancellation cheaper. */
  lemma FeeNeverFallsWithTime(i: PolicyInput, later: int)
    requires i.now <= later
    ensures DecideCancellation(i).fee <= DecideCancellation(i.(now := later)).fee
  {
    hide TimingFor, Retained;
    PassingTimeOnlyMakesLate(i.slot, i.now, later, i.config.freeHours);
    FeeAndRefundRebuildThePrice(i.(now := later));
  }

  lemma PercentGrowsSlowly(payable: nat, more: nat, percent: real)
    requires payable <= more && 0.0 <= percent <= 100.0
    ensures 0 <= PercentOf(payable, percent) <= PercentOf(more, percent)
    ensures PercentOf(more, percent) <= PercentOf(payable, percent) + (more - payable)
  {
    var x, y := payable as real, more as real;
    ShareGrowsSlowly(x, y, percent);
    FloorsFollow(x * percent / 100.0, y * percent / 100.0, more - payable);
  }

  lemma ShareGrowsSlowly(x: real, y: real, percent: real)
    requires 0.0 <= x <= y && 0.0 <= percent <= 100.0
    ensures 0.0 <= x * percent / 100.0 <= y * percent / 100.0 <= x * percent / 100.0 + (y - x)
  {
    var p, q, d := x * percent, y * percent, (y - x) * percent;
    Spread(x, y, percent);
    assert p >= 0.0;
    Scaled(y - x, percent);
    Hundredth(p, q, y - x);
  }

  lemma Hundredth(p: real, q: real, d: real)
    requires p <= q <= p + d * 100.0
    ensures p / 100.0 <= q / 100.0 <= p / 100.0 + d
  {
  }

  lemma Spread(x: real, y: real, k: real)
    ensures y * k == x * k + (y - x) * k
  {
  }

  lemma FloorsFollow(a: real, b: real, n: nat)
    requires 0.0 <= a <= b <= a + n as real
    ensures 0 <= a.Floor <= b.Floor <= a.Floor + n
  {
  }

  lemma Scaled(x: real, percent: real)
    requires x >= 0.0 && 0.0 <= percent <= 100.0
    ensures 0.0 <= x * percent <= x * 100.0
  {
  }

  /** A dearer booking never gets a smaller refund, nor pays a smaller fee. */
  lemma RefundGrowsWithThePrice(i: PolicyInput, more: nat)
    requires i.payable <= more
    ensures DecideCancellation(i).refund <= DecideCancellation(i.(payable := more)).refund
    ensures DecideCancellation(i).fee <= DecideCancellation(i.(payable := more)).fee
  {
    hide TimingFor, PercentOf;
    PercentGrowsSlowly(i.payable, more, ClampPercent(i.config.latePercent));
  }

  /** A fee is charged only to a customer, past window A, without a plan that waives it, and
      inside the cutoff of a slot or with somebody already on the way. */
  lemma WhoeverPaysIsLate(i: PolicyInput)
    requires DecideCancellation(i).fee > 0
    ensures i.who == Customer && !i.config.waivesFee && DecideCancellation(i).window != A
    ensures (i.slot.Some? && (i.slot.value - i.now) as real / MS_PER_HOUR < i.config.freeHours)
            || (i.slot == None && (i.status == EnRoute || i.status == Arrived))
  {
  }

  // ---- what is charged, to the paisa ----

  /** The share asked of a late cancellation: none unless it is a number, and from 0 to 100. */
  ghost predicate IsPercent(s: Setting, p: real) {
    match s
    case NotFinite => p == 0.0
    case Finite(v) => (v <= 0.0 && p == 0.0) || (0.0 < v <= 100.0 && p == v) || (v > 100.0 && p == 100.0)
  }

  /** That share of the price, cut to whole paise. */
  ghost predicate IsLateShare(payable: nat, s: Setting, share: int) {
    exists p: real :: IsPercent(s, p) && share as real * 100.0 <= payable as real * p < (share + 1) as real * 100.0
  }

  /** A customer without a plan that waives it pays once somebody is being sought, and either the slot
      is nearer than the free hours, or there is no slot and somebody is on the way or there. */
  predicate IsCharged(i: PolicyInput) {
    i.who == Customer && !i.config.waivesFee
    && i.status in {Assigning, Assigned, EnRoute, Arrived, Started, Completed}
    && if i.slot.Some? then (i.slot.value - i.now) as real < i.config.freeHours * 3_600_000.0
       else i.status in {EnRoute, Arrived}
  }

  lemma HoursAndMilliseconds(gap: int, hours: real)
    ensures gap as real / MS_PER_HOUR >= hours <==> gap as real >= hours * 3_600_000.0
  {
    var x := gap as real / MS_PER_HOUR;
    assert x * 3_600_000.0 == gap as real;
  }

  lemma LateShare(payable: nat, s: Setting)
    ensures IsLateShare(payable, s, PercentOf(payable, ClampPercent(s)))
    ensures 0 <= PercentOf(payable, ClampPercent(s)) <= payable
  {
    var p := ClampPercent(s);
    assert IsPercent(s, p);
    var x := payable as real * p / 100.0;
    assert x * 100.0 == payable as real * p;
    PercentGrowsSlowly(0, payable, p);
  }

  /** The fee is nothing unless charged, and then the late share; but with somebody on the way or
      there, the flat fee where that is more, up to the price. */
  lemma FeeIsTheLateShare(i: PolicyInput)
    ensures var d := DecideCancellation(i);
            if !IsCharged(i) then d.fee == 0
            else exists share: int :: IsLateShare(i.payable, i.config.latePercent, share)
                   && d.fee == if i.status in {EnRoute, Arrived} && i.config.flatFee > share
                               then Min(i.config.flatFee, i.payable) else share
  {
    hide PercentOf, ClampPercent, IsLateShare;
    LateShare(i.payable, i.config.latePercent);
    if i.slot.Some? { HoursAndMilliseconds(i.slot.value - i.now, i.config.freeHours); }
    hide MS_PER_HOUR;
  }

  /** The waiver is on record where it is what spared a customer a fee to ask about. */
  lemma WaiverIsNoted(i: PolicyInput)
    ensures DecideCancellation(i).waived
            <==> i.who == Customer && i.config.waivesFee && i.status !in {Created, AwaitingPayment, Cancelled}
    ensures DecideCancellation(i).timing
            == if i.slot == None then Unscheduled
               else if (i.slot.value - i.now) as real < i.config.freeHours * 3_600_000.0 then Late else Early
  {
    hide Retained;
    if i.slot.Some? { HoursAndMilliseconds(i.slot.value - i.now, i.config.freeHours); }
  }

  // ---- the preview and the act ----

  /** The columns of a booking that a cancellation reads. */
  datatype Bill = Bill(status: BookingStatus, paymentStatus: PaymentStatus, payable: nat, slot: Option<int>)

  datatype Preview = Preview(window: Option<Window>, fee: int, refund: int, requiresOps: bool)

  function InputFor(b: Bill, config: Config, who: Actor, now: int): PolicyInput {
    PolicyInput(b.status, b.slot, b.payable, config, who, now)
  }

  /** `describeWindow`: the screen before the confirmation. */
  function Describe(b: Bill, config: Config, now: int): Preview {
    var window := WindowFor(b.status);
    if window == None || window == Some(F) then Preview(window, 0, 0, false)
    else
      var d := DecideCancellation(InputFor(b, config, Customer, now));
      Preview(window, d.fee, if b.paymentStatus == Paid then d.refund else 0, window == Some(E))
  }

  /** What a caller may set by hand. */
  datatype Override = Override(fee: Option<int>, refund: Option<int>)

  function ResolveFee(window: Window, o: Override, d: Decision): int {
    if o.fee.Some? then o.fee.value else if window == E then 0 else d.fee
  }

  function ResolveRefund(b: Bill, window: Window, o: Override, fee: int): int {
    if window == A || b.paymentStatus != Paid then 0
    else if window == E then (if o.refund.Some? then o.refund.value else 0)
    else Max(0, b.payable - fee)
  }

  /** The fee and refund `cancel` writes, or none where there is nothing left to cancel. */
  function Charges(b: Bill, config: Config, who: Actor, o: Override, now: int): Option<(int, int)> {
    var window := WindowFor(b.status);
    if window == None || window == Some(F) then None
    else
      var fee := ResolveFee(window.value, o, DecideCancellation(InputFor(b, config, who, now)));
      Some((fee, ResolveRefund(b, window.value, o, fee)))
  }

  const NO_OVERRIDE: Override := Override(None, None)

  /** A customer may cancel anything that has not started. */
  predicate CustomerMayCancel(s: BookingStatus) {
    WindowFor(s) != None && WindowFor(s) != Some(E) && WindowFor(s) != Some(F)
  }

  /** The customer is charged and refunded exactly what the preview showed at that instant,
      but for one case: a booking already paid that has not left window A, where the preview
      promises the money back and the cancellation writes no refund. */
  lemma PreviewIsWhatHappens(b: Bill, config: Config, now: int)
    requires CustomerMayCancel(b.status)
    ensures var shown := Describe(b, config, now);
            Charges(b, config, Customer, NO_OVERRIDE, now) == Some((shown.fee, shown.refund))
            <==> !(WindowFor(b.status) == Some(A) && b.paymentStatus == Paid && b.payable > 0)
  {
    hide TimingFor, Retained;
    FeeAndRefundRebuildThePrice(InputFor(b, config, Customer, now));
  }

  /** A paid cancellation without overrides splits the price between fee and refund, past
      window A and short of window E. */
  lemma PaidCancellationSplitsThePrice(b: Bill, config: Config, who: Actor, now: int)
    requires b.paymentStatus == Paid
    requires WindowFor(b.status) == Some(B) || WindowFor(b.status) == Some(C) || WindowFor(b.status) == Some(D)
    ensures var c := Charges(b, config, who, NO_OVERRIDE, now); c.Some? && c.value.0 + c.value.1 == b.payable
  {
    FeeAndRefundRebuildThePrice(InputFor(b, config, who, now));
  }

  /** A cancellation writes nothing once the job is over. Otherwise the fee is what was set by hand, or
      nothing once the job has started, or what the policy says. Money goes back only on a paid booking
      somebody has been sought for: all but the fee, or, once started, what was set by hand. */
  lemma ChargesAreSo(b: Bill, config: Config, who: Actor, o: Override, now: int)
    ensures var c := Charges(b, config, who, o, now);
            (c == None <==> b.status == Completed || b.status == Cancelled)
            && (c.Some? ==>
                  c.value.0 == (if o.fee.Some? then o.fee.value else if b.status == Started then 0
                                else DecideCancellation(PolicyInput(b.status, b.slot, b.payable, config, who, now)).fee)
                  && c.value.1 == (if b.status in {Created, AwaitingPayment} || b.paymentStatus != Paid then 0
                                   else if b.status == Started then (if o.refund.Some? then o.refund.value else 0)
                                   else if b.payable > c.value.0 then b.payable - c.value.0 else 0))
  {
    hide DecideCancellation;
  }

  /** The preview asks for ops once the job has started, promises nothing back on a booking not paid
      for, and says nothing of one that is over. */
  lemma PreviewIsSo(b: Bill, config: Config, now: int)
    ensures var p := Describe(b, config, now);
            var d := DecideCancellation(PolicyInput(b.status, b.slot, b.payable, config, Customer, now));
            (p.requiresOps <==> b.status == Started)
            && (if b.status in {Completed, Cancelled} then p.fee == 0 && p.refund == 0
                else p.fee == d.fee && p.refund == if b.paymentStatus == Paid then b.payable - d.fee else 0)
  {
    FeeAndRefundRebuildThePrice(PolicyInput(b.status, b.slot, b.payable, config, Customer, now));
    hide DecideCancellation;
  }

  // ---- rescheduling ----

  const RESCHEDULABLE: set<BookingStatus> := {Created, AwaitingPayment, Assigning, Assigned}

  datatype Refusal =
    | StatusTooLate | NotScheduled | AllowanceExhausted | InsideCutoff
    | NewSlotInThePast | NewSlotInsideCutoff | SameSlot

  datatype MoveInput = MoveInput(
    status: BookingStatus,
    slot: Option<int>,
    newSlot: int,
    moves: nat,
    allowance: nat,
    freeHours: real,
    now: int)

  /** None when the move is allowed. */
  function DecideReschedule(i: MoveInput): Option<Refusal> {
    if i.status !in RESCHEDULABLE then Some(StatusTooLate)
    else if i.slot == None then Some(NotScheduled)
    else if i.allowance <= i.moves then Some(AllowanceExhausted)
    else if HoursUntil(i.slot, i.now).value < i.freeHours then Some(InsideCutoff)
    else if i.newSlot <= i.now then Some(NewSlotInThePast)
    else if (i.newSlot - i.now) as real / MS_PER_HOUR < i.freeHours then Some(NewSlotInsideCutoff)
    else if i.newSlot == i.slot.value then Some(SameSlot)
    else None
  }

  /** A slot is near when the free hours before it have begun. */
  predicate Near(slot: int, i: MoveInput) { (slot - i.now) as real < i.freeHours * 3_600_000.0 }

  /** Why a move is refused: the first thing wrong with it, in this order. */
  lemma RefusalsAreSo(i: MoveInput)
    ensures var late := i.status in {EnRoute, Arrived, Started, Completed, Cancelled};
            var r := DecideReschedule(i);
            (r == Some(StatusTooLate) <==> late)
            && (r == Some(NotScheduled) <==> !late && i.slot == None)
            && (!late && i.slot.Some? ==>
                  (r == Some(AllowanceExhausted) <==> i.moves >= i.allowance)
                  && (r == Some(InsideCutoff) <==> i.moves < i.allowance && Near(i.slot.value, i))
                  && (i.moves < i.allowance && !Near(i.slot.value, i) ==>
                        (r == Some(NewSlotInThePast) <==> i.newSlot <= i.now)
                        && (r == Some(NewSlotInsideCutoff) <==> i.newSlot > i.now && Near(i.newSlot, i))
                        && (r == Some(SameSlot) <==>
                            i.newSlot > i.now && !Near(i.newSlot, i) && i.slot == Some(i.newSlot))
                        && (r == None <==> i.newSlot > i.now && !Near(i.newSlot, i) && i.slot != Some(i.newSlot))))
  {
    if i.slot.Some? {
      HoursAndMilliseconds(i.slot.value - i.now, i.freeHours);
      assert HoursUntil(i.slot, i.now).value < i.freeHours <==> Near(i.slot.value, i);
    }
    HoursAndMilliseconds(i.newSlot - i.now, i.freeHours);
    assert (i.newSlot - i.now) as real / MS_PER_HOUR < i.freeHours <==> Near(i.newSlot, i);
    LateStatuses(i.status);
    hide Near, HoursUntil, MS_PER_HOUR;
  }

  lemma LateStatuses(s: BookingStatus)
    ensures s in RESCHEDULABLE <==> s !in {EnRoute, Arrived, Started, Completed, Cancelled}
  {
    assert s.Created? || s.AwaitingPayment? || s.Assigning? || s.Assigned? || s.EnRoute? || s.Arrived? || s.Started?
           || s.Completed? || s.Cancelled?;
  }

  /** A `Date` keeps whole milliseconds, cutting towards zero. */
  function TimeClip(t: real): int { if t >= 0.0 then t.Floor else -((-t).Floor) }

  function Probe(i: MoveInput): int { TimeClip(i.now as real + (i.freeHours + 1.0) * MS_PER_HOUR) }

  function EarliestNewSlot(i: MoveInput): int { TimeClip(i.now as real + i.freeHours * MS_PER_HOUR) }

  /** `preview`: the policy asked about a slot an hour past the cutoff. */
  function PreviewMove(i: MoveInput): Option<Refusal> { DecideReschedule(i.(newSlot := Probe(i))) }

  /** The cutoff falls on a whole millisecond. */
  predicate WholeCutoff(freeHours: real) { freeHours * MS_PER_HOUR == (freeHours * MS_PER_HOUR).Floor as real }

  lemma ProbeClears(i: MoveInput)
    requires i.freeHours >= 0.0 && i.now >= 0
    ensures Probe(i) > i.now && (Probe(i) - i.now) as real / MS_PER_HOUR >= i.freeHours
  {
    var t := i.now as real + (i.freeHours + 1.0) * MS_PER_HOUR;
    assert (i.freeHours + 1.0) * MS_PER_HOUR == i.freeHours * MS_PER_HOUR + MS_PER_HOUR;
    assert (Probe(i) as real) > t - 1.0;
    assert (Probe(i) - i.now) as real >= i.freeHours * MS_PER_HOUR;
  }

  /** A preview that refuses for any reason but the slot probed means no slot would do; and
      while the preview allows, or refuses only that slot, every other slot past the cutoff
      and past now would. */
  lemma PreviewSpeaksForEverySlot(i: MoveInput, slot: int)
    requires i.freeHours >= 0.0 && i.now >= 0
    ensures PreviewMove(i) != None && PreviewMove(i) != Some(SameSlot) ==> DecideReschedule(i.(newSlot := slot)) != None
    ensures (PreviewMove(i) == None || PreviewMove(i) == Some(SameSlot))
            && slot > i.now && (slot - i.now) as real / MS_PER_HOUR >= i.freeHours && Some(slot) != i.slot ==>
              DecideReschedule(i.(newSlot := slot)) == None
  {
    ProbeClears(i);
  }

  lemma EarliestClears(i: MoveInput)
    requires i.freeHours >= 0.0 && i.now >= 0
    ensures (EarliestNewSlot(i) - i.now) as real / MS_PER_HOUR >= i.freeHours <==> WholeCutoff(i.freeHours)
    ensures EarliestNewSlot(i) >= i.now
  {
    var f := i.freeHours * MS_PER_HOUR;
    assert f >= 0.0;
    var t := i.now as real + f;
    assert t.Floor == i.now + f.Floor;
    assert EarliestNewSlot(i) - i.now == f.Floor;
    assert f.Floor as real / MS_PER_HOUR >= i.freeHours <==> f.Floor as real >= f;
  }

  /** The date picker may start at the slot the preview names: with the preview allowing, every
      different slot from there on and after now is accepted, exactly when the cutoff is a
      whole number of milliseconds (or falls on the slot already held, or on now itself). */
  lemma EarliestSlotIsHonest(i: MoveInput)
    requires i.freeHours >= 0.0 && i.now >= 0 && PreviewMove(i) == None
    ensures (forall slot :: slot >= EarliestNewSlot(i) && slot > i.now && Some(slot) != i.slot ==>
               DecideReschedule(i.(newSlot := slot)) == None)
            <==> WholeCutoff(i.freeHours) || Some(EarliestNewSlot(i)) == i.slot || EarliestNewSlot(i) == i.now
  {
    EarliestClears(i);
    var first := EarliestNewSlot(i);
    forall slot: int | slot > first && slot > i.now && Some(slot) != i.slot
      ensures DecideReschedule(i.(newSlot := slot)) == None
    {
      LaterClears(i, slot);
      PreviewSpeaksForEverySlot(i, slot);
    }
    PreviewSpeaksForEverySlot(i, first);
    if first > i.now && Some(first) != i.slot && !WholeCutoff(i.freeHours) {
      assert DecideReschedule(i.(newSlot := first)) != None;
    }
  }

  /** What the preview asks about is the slot an hour after the one it names. */
  lemma ProbeIsAnHourLater(i: MoveInput)
    requires i.freeHours >= 0.0 && i.now >= 0
    ensures Probe(i) == EarliestNewSlot(i) + 3_600_000
  {
    var cutoff := i.freeHours * MS_PER_HOUR;
    assert (i.freeHours + 1.0) * MS_PER_HOUR == cutoff + 3_600_000.0;
    assert cutoff >= 0.0;
    assert (i.now as real + cutoff + 3_600_000.0).Floor == (i.now as real + cutoff).Floor + 3_600_000;
  }

  lemma LaterClears(i: MoveInput, slot: int)
    requires i.freeHours >= 0.0 && i.now >= 0 && slot > EarliestNewSlot(i)
    ensures (slot - i.now) as real / MS_PER_HOUR >= i.freeHours
  {
    var f := i.freeHours * MS_PER_HOUR;
    var t := i.now as real + f;
    assert t.Floor == i.now + f.Floor;
    assert (slot - i.now) as real >= f.Floor as real + 1.0 > f;
  }
}
