/**
 The tables of the commission module. A row's id is its position in its table, rows are
 appended in creation order, and amounts are whole paise. `Books` is the value of the
 whole database at one moment; `Tables` is the database itself, whose fields the services
 update in place.
 */
module Books {
  import opened Wrappers

  type ProId = nat
  type CommissionId = nat
  type PayoutId = nat
  type DeductionId = nat
  type ProgressId = nat
  type SubmissionId = nat

  datatype CommissionStatus = Pending | Approved | Paid | Reversed

  datatype Commission = Commission(
    booking: nat,
    pro: ProId,
    price: nat,
    amount: nat,
    platform: nat,
    incentive: nat,
    status: CommissionStatus,
    computedAt: int,
    payout: Option<PayoutId>,
    /** `reversedAt` is set. */
    reversed: bool)

  datatype PayoutStatus = Draft | Approved | Processing | Paid | Failed | Rejected

  /** What a payout's `payoutReference` holds: the gateway's own id, then the bank's UTR. */
  datatype Reference = Entity(submission: SubmissionId) | Utr(number: nat)

  datatype Payout = Payout(
    pro: ProId,
    commission: nat,
    incentive: nat,
    deduction: int,
    net: int,
    status: PayoutStatus,
    attempts: nat,
    reference: Option<Reference>)

  datatype DeductionKind = CommissionReversal | IncentiveUnwind | Manual

  datatype DedupeKey = ReversalOf(commission: CommissionId) | UnwindOf(progress: ProgressId)

  datatype Deduction = Deduction(
    pro: ProId,
    amount: int,
    consumed: int,
    kind: DeductionKind,
    source: Option<CommissionId>,
    key: Option<DedupeKey>,
    owner: Option<PayoutId>,
    /** `fullyConsumedAt` is set. */
    settled: bool,
    /** `waivedAt` is set. */
    waived: bool)

  /** The reward columns of a progress row, which the database allows only together. */
  datatype Credit = Credit(reward: nat, commission: CommissionId, achievedAt: int)

  datatype Progress = Progress(
    pro: ProId,
    scheme: nat,
    periodKey: string,
    value: nat,
    target: int,
    credit: Option<Credit>)

  datatype Contribution = Contribution(progress: ProgressId, commission: CommissionId, value: nat)

  /** What the gateway has finally decided about one transfer request. */
  datatype Verdict = InFlight | Processed | Refused

  datatype Submission = Submission(payout: PayoutId, verdict: Verdict)

  datatype Books = Books(
    commissions: seq<Commission>,
    payouts: seq<Payout>,
    deductions: seq<Deduction>,
    progress: seq<Progress>,
    contributions: seq<Contribution>,
    submissions: seq<Submission>)

  class Tables {
    var commissions: seq<Commission>
    var payouts: seq<Payout>
    var deductions: seq<Deduction>
    var progress: seq<Progress>
    var contributions: seq<Contribution>
    var submissions: seq<Submission>

    constructor ()
      ensures View() == EMPTY
    {
      commissions, payouts, deductions := [], [], [];
      progress, contributions, submissions := [], [], [];
    }

    function View(): Books
      reads this
    {
      Books(commissions, payouts, deductions, progress, contributions, submissions)
    }
  }

  const EMPTY: Books := Books([], [], [], [], [], [])

  /** A payout that still holds what it claimed: everything but a rejected one. */
  predicate Live(p: Payout) { p.status != PayoutStatus.Rejected }

  /** Every row rewritten by `f`, as one bulk update does. */
  function Rewritten<T>(rows: seq<T>, f: T -> T): seq<T> {
    seq(|rows|, i requires 0 <= i < |rows| => f(rows[i]))
  }
}
