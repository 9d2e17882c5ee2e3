/**
 Whole runs of the commission module: any interleaving of its operations, with the gateway
 deciding transfers on its own. An evaluation appears as its separate writes, each with whatever
 facts were read before it, so that evaluations interleave with everything, each other included.
 */
module MoneyRuns {
  import opened Wrappers
  import opened Totals
  import opened Books
  import opened Deductions
  import opened PayoutBatch
  import opened Disbursement
  import opened Incentives
  import opened IncentivePeriods
  import opened Reversal
  import opened Commissions
  import opened BatchLaws
  import opened MoneyInvariants
  import opened MoneySteps

  datatype Event =
    | Completion(job: Job, pro: ProId, now: int)
    | Maturing(cutoff: int, held: set<nat>)
    | Opening(pro: ProId, scheme: nat, periodKey: string)
    | Syncing(progress: ProgressId, derived: seq<Derived>)
    | Scoring(progress: ProgressId, value: nat, target: int)
    | Crediting(award: Award)
    | Raising(pro: ProId, amount: int, source: Option<CommissionId>)
    | Waiving(id: DeductionId)
    | Drafting(request: Request)
    | Approving(payout: PayoutId)
    | Rejecting(payout: PayoutId)
    | Disbursing(payout: PayoutId, answer: Answer)
    | Retrying(payout: PayoutId, answer: Answer)
    | Resolving(submission: SubmissionId, verdict: Verdict)
    | Webhook(submission: SubmissionId, utr: Option<nat>)
    | Reversing(commission: CommissionId)

  /** Steps that send payouts, or hear of them. */
  predicate Transfers(e: Event) { e.Disbursing? || e.Retrying? || e.Resolving? || e.Webhook? }

  function ManualClaim(pro: ProId, amount: int, source: Option<CommissionId>): Claim {
    Claim(pro, amount, Manual, source, None)
  }

  function Step(b: Books, e: Event): Books {
    match e
    case Completion(job, pro, now) => b.(commissions := Record(b.commissions, job, pro, now))
    case Maturing(cutoff, held) => b.(commissions := Rewritten(b.commissions, Mature(cutoff, held)))
    case Opening(pro, scheme, periodKey) => b.(progress := Upsert(b.progress, pro, scheme, periodKey))
    case Syncing(p, derived) => b.(contributions := Sync(b.contributions, p, derived))
    case Scoring(p, value, target) => Scored(b, p, value, target)
    case Crediting(award) => Credited(b, award)
    case Raising(pro, amount, source) => b.(deductions := RaiseOne(b.deductions, ManualClaim(pro, amount, source)))
    case Waiving(id) => b.(deductions := WaiveOne(b.deductions, id))
    case Drafting(r) => Build(b, r)
    case Approving(p) => Approve(b, p)
    case Rejecting(p) => Reject(b, p)
    case Disbursing(p, a) => Disburse(b, p, a)
    case Retrying(p, a) => Retry(b, p, a)
    case Resolving(s, v) => Resolve(b, s, v)
    case Webhook(s, utr) => Deliver(b, s, utr)
    case Reversing(c) => Reverse(b, c)
  }

  function Run(b: Books, es: seq<Event>): Books
    decreases |es|
  {
    if es == [] then b else Run(Step(b, es[0]), es[1..])
  }

  /** What a failure recorded out of turn can break about a payout. */
  datatype Fact = ItsDeduction | ItsRejection | ItsRequests

  /** The payout holds what it says it deducted; or it is rejected; or at most its latest request is
      open, and none while it neither waits nor is paid. */
  predicate FactHolds(b: Books, p: PayoutId, k: Fact) {
    match k
    case ItsDeduction => Holds(b, p)
    case ItsRejection => StatusIs(b, p, PayoutStatus.Rejected)
    case ItsRequests =>
      OneOpen(b.submissions, p)
      && (p < |b.payouts| && Idle(b.payouts[p].status) ==> AllRefused(b.submissions, p))
  }

  /** When a refusal that reaches the payout leaves that fact alone: it must not revive a rejected
      payout that had deducted something, for the first, or any rejected one, for the second, nor
      come while another request of the payout is open or went through, for the third. */
  predicate MayFail(b: Books, s: SubmissionId, p: PayoutId, k: Fact) {
    FindReference(b.payouts, Entity(s)) == Some(p) && b.payouts[p].status != PayoutStatus.Paid ==>
      match k
      case ItsDeduction => Live(b.payouts[p]) || b.payouts[p].deduction == 0
      case ItsRejection => Live(b.payouts[p])
      case ItsRequests => AllRefused(b.submissions, p)
  }

  /** A failure webhook is fair to a payout, as to one fact about it, unless it breaks that. */
  predicate Fair(b: Books, e: Event, p: PayoutId, k: Fact) {
    e.Webhook? && e.submission < |b.submissions| && b.submissions[e.submission].verdict == Refused ==>
      MayFail(b, e.submission, p, k)
  }

  predicate FairRun(b: Books, es: seq<Event>, p: PayoutId, k: Fact)
    decreases |es|
  {
    es == [] || (Fair(b, es[0], p, k) && FairRun(Step(b, es[0]), es[1..], p, k))
  }

  /** Steps of an evaluation: they touch progress, contributions and incentive amounts alone. */
  predicate Evaluates(e: Event) { e.Opening? || e.Syncing? || e.Scoring? || e.Crediting? }

  lemma EvaluatingKeepsSound(b: Books, e: Event)
    requires Sound(b) && Evaluates(e)
    ensures Sound(Step(b, e))
  {
    hide Sound, Upsert, Sync, Scored, Credited;
    match e
    case Opening(pro, scheme, periodKey) => OpenKeepsSound(b, pro, scheme, periodKey);
    case Syncing(p, derived) => SyncKeepsSound(b, Sync(b.contributions, p, derived));
    case Scoring(p, value, target) => ScoreKeepsSound(b, p, value, target);
    case Crediting(award) => CreditKeepsSound(b, award);
  }

  lemma HearingKeepsSound(b: Books, s: SubmissionId, utr: Option<nat>)
    requires Sound(b)
    ensures Sound(Deliver(b, s, utr))
  {
    hide Sound, Settle, MarkFailed;
    if s < |b.submissions| {
      match b.submissions[s].verdict
      case Processed => SettleKeepsSound(b, s, utr);
      case Refused => MarkFailedKeepsSound(b, s);
      case InFlight =>
    }
  }

  /** Every step keeps the tables sound, a failure out of turn included. */
  lemma StepKeepsSound(b: Books, e: Event)
    requires Sound(b)
    ensures Sound(Step(b, e))
  {
    hide Sound, Build, Approve, Reject, Disburse, Retry, Resolve, Deliver, Reverse, Record, WaiveOne, RaiseOne;
    if Evaluates(e) { EvaluatingKeepsSound(b, e); }
    match e
    case Completion(job, pro, now) => RecordKeepsSound(b, job, pro, now);
    case Maturing(cutoff, held) => MatureKeepsSound(b, cutoff, held);
    case Raising(pro, amount, source) => ManualKeepsSound(b, ManualClaim(pro, amount, source));
    case Waiving(id) => WaiveKeepsSound(b, id);
    case Drafting(r) => BuildKeepsSound(b, r);
    case Approving(p) => ApproveKeepsSound(b, p);
    case Rejecting(p) => RejectKeepsSound(b, p);
    case Disbursing(p, a) => DisburseKeepsSound(b, p, a);
    case Retrying(p, a) => RetryKeepsSound(b, p, a);
    case Resolving(s, v) => ResolveKeepsSound(b, s, v);
    case Webhook(s, utr) => HearingKeepsSound(b, s, utr);
    case Reversing(c) => ReverseKeepsSound(b, c);
    case _ =>
  }

  /** The tables are sound after every run. */
  lemma {:induction false} RunKeepsSound(b: Books, es: seq<Event>)
    requires Sound(b)
    ensures Sound(Run(b, es))
    decreases |es|
  {
    hide Sound, Step;
    if es != [] {
      StepKeepsSound(b, es[0]);
      RunKeepsSound(Step(b, es[0]), es[1..]);
    }
  }

  lemma ReachedIsSound(es: seq<Event>)
    ensures Sound(Run(EMPTY, es))
  {
    EmptyIsOk();
    hide Run;
    RunKeepsSound(EMPTY, es);
  }

  lemma NextReferenceIsNew(b: Books)
    requires RecordsOk(b.payouts, b.submissions)
    ensures forall q :: 0 <= q < |b.payouts| ==> b.payouts[q].reference != Some(Entity(|b.submissions|))
  {
    hide Total;
    forall q | 0 <= q < |b.payouts| ensures b.payouts[q].reference != Some(Entity(|b.submissions|)) {
      assert Recorded(b.payouts[q], q, b.submissions);
    }
  }

  /** Sending one payout touches no other, whatever the gateway answers. */
  lemma SendingTouchesOne(b: Books, p: PayoutId, a: Answer)
    requires RecordsOk(b.payouts, b.submissions)
    ensures var n := Disburse(b, p, a);
            |n.payouts| == |b.payouts|
            && (forall q :: 0 <= q < |b.payouts| && (q != p || !Sendable(b, p, a)) ==> n.payouts[q] == b.payouts[q])
            && n.submissions == b.submissions + if Sendable(b, p, a) then [Submission(p, VerdictOf(a))] else []
  {
    NextReferenceIsNew(b);
    hide FindReference, Total, RecordsOk;
    if Sendable(b, p, a) && a.Accepted? && a.verdict == Processed {
      var s := |b.submissions|;
      var captured := WithReference(Submit(b, p, VerdictOf(a)), p, Entity(s));
      var found := FindReference(captured.payouts, Entity(s));
      assert found.Some? ==> found.value == p;
    }
  }

  // ---- what soundness says ----

  /** In every state any run reaches: a commission is paid exactly when it sits in a paid payout;
      one sitting in any other is approved; none sits in a rejected payout; a reversed one that
      was not paid sits nowhere. */
  lemma PaidMeansInAPaidPayout(es: seq<Event>, c: CommissionId)
    requires c < |Run(EMPTY, es).commissions|
    ensures var b := Run(EMPTY, es); var row := b.commissions[c];
            (row.payout.Some? ==> row.payout.value < |b.payouts|)
            && (row.status == CommissionStatus.Paid
                <==> row.payout.Some? && b.payouts[row.payout.value].status == PayoutStatus.Paid)
            && (row.payout.Some? && row.status != CommissionStatus.Paid ==> row.status == CommissionStatus.Approved)
            && (row.payout.Some? ==> b.payouts[row.payout.value].status != PayoutStatus.Rejected
                                     && b.payouts[row.payout.value].pro == row.pro)
            && (row.status == CommissionStatus.Reversed ==> row.payout == None)
  {
    ReachedIsSound(es);
    var b := Run(EMPTY, es);
    SoundGives(b);
    hide Run, Sound;
    assert AttachRow(b.commissions[c], b.payouts);
  }

  /** In every state any run reaches, a payout has been sent exactly as often as it was moved to
      processing, carries no reference but one of its own requests, and is paid only if one of
      them went through. */
  lemma TransfersAreOnRecord(es: seq<Event>, p: PayoutId)
    requires p < |Run(EMPTY, es).payouts|
    ensures Recorded(Run(EMPTY, es).payouts[p], p, Run(EMPTY, es).submissions)
  {
    ReachedIsSound(es);
    hide Run, Recorded;
    RecordedIn(Run(EMPTY, es), p);
  }

  // ---- what a transfer touches ----

  /** The payout a step sends: an approved one, or a failed one by way of approved. */
  function Sent(b: Books, e: Event): Option<PayoutId> {
    if e.Disbursing? && Sendable(b, e.payout, e.answer) then Some(e.payout)
    else if e.Retrying? && StatusIs(b, e.payout, PayoutStatus.Failed)
            && e.answer != Unavailable && b.payouts[e.payout].net != 0 then Some(e.payout)
    else None
  }

  /** Paid, or in processing with no reference that would lead back to it. */
  predicate OutOfReach(p: Payout) {
    p.status == PayoutStatus.Paid || (p.status == PayoutStatus.Processing && p.reference == None)
  }

  /** Sending payouts, or hearing of them, leaves the debts and bonuses alone, keeps every payout's
      terms, and all of one out of reach, ends no payout's life, counts one request for the payout
      sent, and does nothing to a pay row but pay an approved one. */
  ghost predicate Transferred(b: Books, n: Books, sent: Option<PayoutId>) {
    n.deductions == b.deductions && n.progress == b.progress && n.contributions == b.contributions
    && |n.submissions| == |b.submissions| + (if sent.Some? then 1 else 0)
    && |n.payouts| == |b.payouts| && |n.commissions| == |b.commissions|
    && (forall q :: 0 <= q < |b.payouts| ==>
          SameTerms(b.payouts[q], n.payouts[q]) && (Live(b.payouts[q]) ==> Live(n.payouts[q]))
          && n.payouts[q].attempts == b.payouts[q].attempts + if sent == Some(q) then 1 else 0)
    && (forall q :: 0 <= q < |b.payouts| && OutOfReach(b.payouts[q]) ==> n.payouts[q] == b.payouts[q])
    && (forall c :: 0 <= c < |b.commissions| ==> PaidAtMost(b.commissions[c], n.commissions[c]))
  }

  predicate PaidAtMost(was: Commission, now: Commission) {
    now == was || (was.status == CommissionStatus.Approved && now == was.(status := CommissionStatus.Paid))
  }

  lemma SettlingTouches(b: Books, s: SubmissionId, utr: Option<nat>)
    ensures Transferred(b, Settle(b, s, utr), None)
  {
    hide FindReference;
  }

  lemma AnsweredTouches(b: Books, p: PayoutId, a: Answer)
    requires Sendable(b, p, a)
    ensures var sent := Submit(b, p, VerdictOf(a));
            Transferred(b, sent, Some(p)) && Transferred(b, WithStatus(sent, p, PayoutStatus.Failed), Some(p))
            && Transferred(b, WithReference(sent, p, Entity(|b.submissions|)), Some(p))
  {
  }

  lemma ThenHearing(b: Books, m: Books, n: Books, sent: Option<PayoutId>)
    requires Transferred(b, m, sent) && Transferred(m, n, None)
    ensures Transferred(b, n, sent)
  {
  }

  lemma SendingTouches(b: Books, p: PayoutId, a: Answer)
    ensures Transferred(b, Disburse(b, p, a), if Sendable(b, p, a) then Some(p) else None)
  {
    if Sendable(b, p, a) {
      AnsweredTouches(b, p, a);
      hide Transferred, Settle, Sendable;
      if a.Accepted? {
        var s := |b.submissions|;
        var captured := WithReference(Submit(b, p, VerdictOf(a)), p, Entity(s));
        SettlingTouches(captured, s, a.utr);
        hide WithReference, Submit;
        ThenHearing(b, captured, Settle(captured, s, a.utr), Some(p));
      }
    }
  }

  lemma RetryingTouches(b: Books, p: PayoutId, a: Answer)
    ensures Transferred(b, Retry(b, p, a), Sent(b, Retrying(p, a)))
  {
    if StatusIs(b, p, PayoutStatus.Failed) {
      var ready := WithStatus(b, p, PayoutStatus.Approved);
      SendingTouches(ready, p, a);
      assert Sendable(ready, p, a) <==> a != Unavailable && b.payouts[p].net != 0;
      hide Disburse, Sendable;
      forall q | 0 <= q < |b.payouts| ensures SameTerms(ready.payouts[q], b.payouts[q]) {}
    }
  }

  lemma HearingTouches(b: Books, s: SubmissionId, utr: Option<nat>)
    ensures Transferred(b, Deliver(b, s, utr), None)
  {
    hide FindReference, Settle;
    SettlingTouches(b, s, utr);
  }

  lemma TransfersTouch(b: Books, e: Event)
    requires Transfers(e)
    ensures Transferred(b, Step(b, e), Sent(b, e))
  {
    hide Disburse, Retry, Deliver, Transferred;
    match e
    case Disbursing(p, a) => SendingTouches(b, p, a);
    case Retrying(p, a) => RetryingTouches(b, p, a);
    case Webhook(s, utr) => HearingTouches(b, s, utr);
    case Resolving(s, v) => ResolvingTouches(b, s, v);
  }

  lemma ResolvingTouches(b: Books, s: SubmissionId, v: Verdict)
    ensures Transferred(b, Resolve(b, s, v), None)
  {
  }

  /** A request goes to the gateway in exactly the steps that take one approved payout (or a
      failed one, by way of approved) to processing, one request a step. */
  lemma EachRequestIsOneMove(b: Books, e: Event)
    ensures var n := Step(b, e); var sent := Sent(b, e);
            |n.submissions| == |b.submissions| + (if sent.Some? then 1 else 0)
            && forall q :: 0 <= q < |b.payouts| ==>
                 q < |n.payouts|
                 && n.payouts[q].attempts == b.payouts[q].attempts + if sent == Some(q) then 1 else 0
  {
    hide Decide, ClaimLines, Reverse, RaiseOne, Record, WaiveOne, Scored, Credited, Upsert, Sync;
    if Transfers(e) {
      TransfersTouch(b, e);
      hide Step;
    } else if Evaluates(e) {
      EvaluatingMovesOnlyIncentives(b, e);
      hide Step;
    } else if e.Reversing? {
      ReversalLeavesPayouts(b, e.commission);
    }
  }

  /** No step of an evaluation touches payouts, transfers or debts, or anything of a pay row but
      its incentive amount. */
  ghost predicate OnlyIncentives(b: Books, n: Books) {
    n.payouts == b.payouts && n.submissions == b.submissions && n.deductions == b.deductions
    && |n.commissions| == |b.commissions|
    && forall c :: 0 <= c < |b.commissions| ==>
         n.commissions[c] == b.commissions[c].(incentive := n.commissions[c].incentive)
  }

  lemma EvaluatingMovesOnlyIncentives(b: Books, e: Event)
    requires Evaluates(e)
    ensures OnlyIncentives(b, Step(b, e))
  {
    hide Upsert, Sync;
  }

  lemma ReversalLeavesPayouts(b: Books, c: CommissionId)
    ensures Reverse(b, c).payouts == b.payouts && Reverse(b, c).submissions == b.submissions
  {
  }

  /** A confirmation delivered again, whatever else has or has not happened, changes nothing: it
      is enough that payouts carry no reference but their own. */
  lemma RedeliveredSettlementChangesNothing(b: Books, s: SubmissionId, utr: Option<nat>, again: Option<nat>)
    requires RecordsOk(b.payouts, b.submissions) && s < |b.submissions| && b.submissions[s].verdict == Processed
    ensures Deliver(Deliver(b, s, utr), s, again) == Deliver(b, s, utr)
  {
    hide FindReference, Total;
    var n := Deliver(b, s, utr);
    var first := FindReference(b.payouts, Entity(s));
    var found := FindReference(n.payouts, Entity(s));
    if first.Some? { assert Recorded(b.payouts[first.value], first.value, b.submissions); }
    if found.Some? { assert Recorded(b.payouts[found.value], found.value, b.submissions); }
  }

  // ---- what a fair run keeps ----

  /** Away from transfers, a payout changes only by its own approval or rejection. */
  lemma OthersLeavePayouts(b: Books, e: Event, p: PayoutId)
    requires !Transfers(e) && p < |b.payouts|
    ensures var n := Step(b, e);
            n.submissions == b.submissions && p < |n.payouts|
            && n.payouts[p] == if e == Approving(p) && StatusIs(b, p, PayoutStatus.Draft)
                               then b.payouts[p].(status := PayoutStatus.Approved)
                               else if e == Rejecting(p) && Rejectable(b, p)
                               then b.payouts[p].(status := PayoutStatus.Rejected)
                               else b.payouts[p]
  {
    hide Decide, ClaimLines, Reverse, RaiseOne, Record, WaiveOne;
    if Evaluates(e) {
      EvaluatingMovesOnlyIncentives(b, e);
      hide Step;
    } else if e.Reversing? {
      ReversalLeavesPayouts(b, e.commission);
    }
  }

  lemma RetryIsReadyFirst(b: Books, q: PayoutId, a: Answer)
    requires Sound(b) && StatusIs(b, q, PayoutStatus.Failed)
    ensures var ready := WithStatus(b, q, PayoutStatus.Approved);
            Sound(ready) && RecordsOk(ready.payouts, ready.submissions) && Retry(b, q, a) == Disburse(ready, q, a)
  {
    assert Retry(b, q, Unavailable) == WithStatus(b, q, PayoutStatus.Approved);
    RetryKeepsSound(b, q, Unavailable);
    hide Disburse, Sound;
    SoundGives(WithStatus(b, q, PayoutStatus.Approved));
  }

  /** What a delivery does to one payout. */
  lemma HearingReaches(b: Books, s: SubmissionId, utr: Option<nat>, p: PayoutId)
    requires Sound(b) && s < |b.submissions| && p < |b.payouts|
    ensures var n := Deliver(b, s, utr); var verdict := b.submissions[s].verdict;
            n.submissions == b.submissions && p < |n.payouts|
            && if FindReference(b.payouts, Entity(s)) != Some(p) || OutOfReach(b.payouts[p]) || verdict == InFlight
               then n.payouts[p] == b.payouts[p]
               else if verdict == Refused then n.payouts[p] == b.payouts[p].(status := PayoutStatus.Failed)
               else b.payouts[p].status == PayoutStatus.Processing && n.payouts[p].status == PayoutStatus.Paid
  {
    RecordedIn(b, p);
    hide FindReference, Sound, Total;
  }

  // ---- a rejected payout ----

  lemma RetryingSparesRejected(b: Books, q: PayoutId, a: Answer, p: PayoutId)
    requires Sound(b) && StatusIs(b, p, PayoutStatus.Rejected)
    ensures StatusIs(Retry(b, q, a), p, PayoutStatus.Rejected)
  {
    hide Sound, RecordsOk, Disburse, Retry;
    if StatusIs(b, q, PayoutStatus.Failed) {
      RetryIsReadyFirst(b, q, a);
      SendingTouchesOne(WithStatus(b, q, PayoutStatus.Approved), q, a);
    } else {
      RetryNeedsFailed(b, q, a);
    }
  }

  lemma StepKeepsRejected(b: Books, e: Event, p: PayoutId)
    requires Sound(b) && StatusIs(b, p, PayoutStatus.Rejected) && Fair(b, e, p, ItsRejection)
    ensures StatusIs(Step(b, e), p, PayoutStatus.Rejected)
  {
    hide Sound, RowsOk, AttachOk, RecordsOk, KeyOk, Disburse, Retry, Deliver, Fair;
    SoundGives(b);
    if !Transfers(e) {
      hide Step;
      OthersLeavePayouts(b, e, p);
    } else {
      match e
      case Disbursing(q, a) => SendingTouchesOne(b, q, a);
      case Retrying(q, a) => RetryingSparesRejected(b, q, a, p);
      case Webhook(s, utr) => HearingSparesRejected(b, s, utr, p);
      case Resolving(_, _) =>
    }
  }

  lemma RetryNeedsFailed(b: Books, q: PayoutId, a: Answer)
    requires !StatusIs(b, q, PayoutStatus.Failed)
    ensures Retry(b, q, a) == b
  {
  }

  lemma HearingSparesRejected(b: Books, s: SubmissionId, utr: Option<nat>, p: PayoutId)
    requires Sound(b) && StatusIs(b, p, PayoutStatus.Rejected) && Fair(b, Webhook(s, utr), p, ItsRejection)
    ensures StatusIs(Deliver(b, s, utr), p, PayoutStatus.Rejected)
  {
    if s < |b.submissions| {
      HearingReaches(b, s, utr, p);
      hide FindReference, Sound, Deliver;
    }
  }

  // ---- what a payout holds ----

  lemma DebtsUntouched(b: Books, e: Event)
    requires !e.Raising? && !e.Waiving? && !e.Rejecting? && !e.Drafting? && !e.Reversing?
    ensures Step(b, e).deductions == b.deductions
  {
    hide Sync, Upsert, Transferred, Record;
    if Transfers(e) {
      TransfersTouch(b, e);
      assert Transferred(b, Step(b, e), Sent(b, e));
    }
  }

  lemma RejectingKeepsHolding(b: Books, q: PayoutId, p: PayoutId)
    requires Holds(b, p)
    ensures Holds(Reject(b, q), p)
  {
    if Rejectable(b, q) {
      hide Total;
      var ds := Rewritten(b.deductions, Release(q));
      if p == q { TotalZero(ds, ClaimedBy(p)); } else { TotalPointwise(ds, b.deductions, ClaimedBy(p), ClaimedBy(p)); }
    }
  }

  lemma WaivingKeepsHolding(b: Books, id: DeductionId, p: PayoutId)
    ensures Total(WaiveOne(b.deductions, id), ClaimedBy(p)) == Total(b.deductions, ClaimedBy(p))
  {
    if Waivable(b.deductions, id) {
      TotalUpdate(b.deductions, id, b.deductions[id].(waived := true), ClaimedBy(p));
    }
  }

  lemma ReversingClaimsNothing(b: Books, c: CommissionId, p: PayoutId)
    ensures Total(Reverse(b, c).deductions, ClaimedBy(p)) == Total(b.deductions, ClaimedBy(p))
  {
    hide Total, Unwind, RaiseBonuses, RaiseOne;
    if Reversible(b, c) { OthersReversal(b, c, ClaimedBy(p)); }
  }

  lemma DebtStepKeepsHolding(b: Books, e: Event, p: PayoutId)
    requires Sound(b) && Holds(b, p) && (e.Raising? || e.Waiving? || e.Rejecting? || e.Drafting? || e.Reversing?)
    ensures Holds(Step(b, e), p)
  {
    hide Sound, RowsOk, AttachOk, RecordsOk, KeyOk, Total, Build, Reject, WaiveOne, Reverse;
    SoundGives(b);
    match e
    case Raising(pro, amount, source) =>
      TotalAppend(b.deductions, NewRow(ManualClaim(pro, amount, source)), ClaimedBy(p));
    case Waiving(id) => WaivingKeepsHolding(b, id, p);
    case Rejecting(q) => RejectingKeepsHolding(b, q, p);
    case Drafting(r) => BuildKeepsHolding(b, r, p);
    case Reversing(c) =>
      ReversalLeavesPayouts(b, c);
      ReversingClaimsNothing(b, c, p);
  }

  lemma StepKeepsHolding(b: Books, e: Event, p: PayoutId)
    requires Sound(b) && Holds(b, p) && Fair(b, e, p, ItsDeduction)
    ensures Holds(Step(b, e), p)
  {
    if e.Raising? || e.Waiving? || e.Rejecting? || e.Drafting? || e.Reversing? {
      DebtStepKeepsHolding(b, e, p);
    } else {
      DebtsUntouched(b, e);
      if Transfers(e) {
        TransfersTouch(b, e);
        StillDead(b, e, p);
        hide Step, Fair, Sound;
      } else if p < |b.payouts| {
        OthersLeavePayouts(b, e, p);
        NoNewPayouts(b, e);
        hide Step, Fair, Sound;
      } else {
        NoNewPayouts(b, e);
        hide Step, Fair, Sound;
      }
    }
  }

  lemma NoNewPayouts(b: Books, e: Event)
    requires !e.Drafting? && !Transfers(e)
    ensures |Step(b, e).payouts| == |b.payouts|
  {
    hide Reverse, Upsert, Sync, Record, RaiseOne, WaiveOne;
    if e.Reversing? { ReversalLeavesPayouts(b, e.commission); }
  }

  /** A payout with something deducted that is rejected stays so. */
  lemma StillDead(b: Books, e: Event, p: PayoutId)
    requires Sound(b) && Fair(b, e, p, ItsDeduction)
    ensures StatusIs(b, p, PayoutStatus.Rejected) && b.payouts[p].deduction != 0 ==>
              StatusIs(Step(b, e), p, PayoutStatus.Rejected)
  {
    if StatusIs(b, p, PayoutStatus.Rejected) && b.payouts[p].deduction != 0 {
      hide Step, Sound, FindReference;
      assert Fair(b, e, p, ItsRejection);
      StepKeepsRejected(b, e, p);
    }
  }

  // ---- the requests of a payout ----

  lemma NobodyAskedYet(b: Books, p: PayoutId)
    requires Sound(b) && p >= |b.payouts|
    ensures AllRefused(b.submissions, p) && OneOpen(b.submissions, p)
  {
    forall s | 0 <= s < |b.submissions| ensures b.submissions[s].payout < |b.payouts| {}
  }

  lemma OneMoreRequest(subs: seq<Submission>, q: PayoutId, v: Verdict, p: PayoutId)
    requires OneOpen(subs, p) && (q == p ==> AllRefused(subs, p))
    ensures OneOpen(subs + [Submission(q, v)], p)
    ensures AllRefused(subs, p) && (q == p ==> v == Refused) ==> AllRefused(subs + [Submission(q, v)], p)
  {
  }

  lemma SentIsNotIdle(b: Books, p: PayoutId, a: Answer)
    requires RecordsOk(b.payouts, b.submissions) && Sendable(b, p, a)
    ensures var n := Disburse(b, p, a);
            p < |n.payouts| && (Idle(n.payouts[p].status) ==> a == Declined)
  {
    NextReferenceIsNew(b);
    hide FindReference, Total, RecordsOk;
    if a.Accepted? && a.verdict == Processed {
      var s := |b.submissions|;
      var captured := WithReference(Submit(b, p, VerdictOf(a)), p, Entity(s));
      assert captured.payouts[p].reference == Some(Entity(s));
      var found := FindReference(captured.payouts, Entity(s));
      assert found.Some? ==> found.value == p;
    }
  }

  lemma SendingKeepsRequests(b: Books, q: PayoutId, a: Answer, p: PayoutId)
    requires RecordsOk(b.payouts, b.submissions) && FactHolds(b, p, ItsRequests)
    ensures FactHolds(Disburse(b, q, a), p, ItsRequests)
  {
    SendingTouchesOne(b, q, a);
    if Sendable(b, q, a) {
      SentIsNotIdle(b, q, a);
      hide Disburse, RecordsOk, OneOpen, AllRefused;
      OneMoreRequest(b.submissions, q, VerdictOf(a), p);
    }
  }

  lemma RetryingKeepsRequests(b: Books, q: PayoutId, a: Answer, p: PayoutId)
    requires Sound(b) && FactHolds(b, p, ItsRequests)
    ensures FactHolds(Retry(b, q, a), p, ItsRequests)
  {
    if StatusIs(b, q, PayoutStatus.Failed) {
      hide Sound, Disburse, Retry, RecordsOk, OneOpen, AllRefused;
      RetryIsReadyFirst(b, q, a);
      SendingKeepsRequests(WithStatus(b, q, PayoutStatus.Approved), q, a, p);
    } else {
      RetryNeedsFailed(b, q, a);
    }
  }

  lemma ResolvingKeepsRequests(b: Books, s: SubmissionId, v: Verdict, p: PayoutId)
    requires FactHolds(b, p, ItsRequests)
    ensures FactHolds(Resolve(b, s, v), p, ItsRequests)
  {
  }

  lemma HearingKeepsRequests(b: Books, s: SubmissionId, utr: Option<nat>, p: PayoutId)
    requires Sound(b) && FactHolds(b, p, ItsRequests) && Fair(b, Webhook(s, utr), p, ItsRequests)
    ensures FactHolds(Deliver(b, s, utr), p, ItsRequests)
  {
    if s < |b.submissions| {
      if p < |b.payouts| { HearingReaches(b, s, utr, p); } else { NobodyAskedYet(b, p); }
      HearingTouches(b, s, utr);
      SubmissionsStand(b, s, utr);
      hide FindReference, Sound, Deliver, OneOpen, AllRefused;
    }
  }

  lemma SubmissionsStand(b: Books, s: SubmissionId, utr: Option<nat>)
    ensures Deliver(b, s, utr).submissions == b.submissions
  {
    hide FindReference;
  }

  lemma TransfersKeepRequests(b: Books, e: Event, p: PayoutId)
    requires Sound(b) && FactHolds(b, p, ItsRequests) && Fair(b, e, p, ItsRequests) && Transfers(e)
    ensures FactHolds(Step(b, e), p, ItsRequests)
  {
    hide Sound, RowsOk, AttachOk, RecordsOk, KeyOk, Disburse, Retry, Deliver, Resolve, FactHolds, Fair;
    SoundGives(b);
    match e
    case Disbursing(q, a) => SendingKeepsRequests(b, q, a, p);
    case Retrying(q, a) => RetryingKeepsRequests(b, q, a, p);
    case Webhook(s, utr) => HearingKeepsRequests(b, s, utr, p);
    case Resolving(s, v) => ResolvingKeepsRequests(b, s, v, p);
  }

  lemma StepKeepsRequests(b: Books, e: Event, p: PayoutId)
    requires Sound(b) && FactHolds(b, p, ItsRequests) && Fair(b, e, p, ItsRequests)
    ensures FactHolds(Step(b, e), p, ItsRequests)
  {
    if Transfers(e) {
      TransfersKeepRequests(b, e, p);
    } else {
      hide Step, Sound, OneOpen, AllRefused, Fair;
      RequestsStand(b, e);
      if p < |b.payouts| { OthersLeavePayouts(b, e, p); } else { NobodyAskedYet(b, p); }
    }
  }

  lemma RequestsStand(b: Books, e: Event)
    requires !Transfers(e)
    ensures Step(b, e).submissions == b.submissions
  {
    hide Decide, ClaimLines, Reverse, RaiseOne, Record, WaiveOne, Upsert, Sync;
    if e.Reversing? { ReversalLeavesPayouts(b, e.commission); }
  }

  // ---- all three ----

  /** A step fair to a payout, as to a fact about it, keeps that fact. */
  lemma StepKeeps(b: Books, e: Event, p: PayoutId, k: Fact)
    requires Sound(b) && FactHolds(b, p, k) && Fair(b, e, p, k)
    ensures FactHolds(Step(b, e), p, k)
  {
    hide Sound, Step, Fair, Holds, StatusIs, OneOpen, AllRefused;
    match k
    case ItsDeduction => StepKeepsHolding(b, e, p);
    case ItsRejection => StepKeepsRejected(b, e, p);
    case ItsRequests => StepKeepsRequests(b, e, p);
  }

  lemma {:induction false} RunKeeps(b: Books, es: seq<Event>, p: PayoutId, k: Fact)
    requires Sound(b) && FactHolds(b, p, k) && FairRun(b, es, p, k)
    ensures FactHolds(Run(b, es), p, k)
    decreases |es|
  {
    hide Sound, Step, Fair, FactHolds;
    if es != [] {
      StepKeepsSound(b, es[0]);
      StepKeeps(b, es[0], p, k);
      RunKeeps(Step(b, es[0]), es[1..], p, k);
    }
  }

  /** Fairness is exactly what each fact needs: recording a failure keeps it if and only if the
      failure is fair to the payout as to that fact. */
  lemma FailureIsSafeExactlyWhenFair(b: Books, s: SubmissionId, utr: Option<nat>, p: PayoutId, k: Fact)
    requires Sound(b) && FactHolds(b, p, k) && s < |b.submissions| && b.submissions[s].verdict == Refused
    ensures FactHolds(Deliver(b, s, utr), p, k) <==> Fair(b, Webhook(s, utr), p, k)
  {
    if Fair(b, Webhook(s, utr), p, k) {
      assert Step(b, Webhook(s, utr)) == Deliver(b, s, utr);
      hide Sound, Deliver, Step, FactHolds, Fair;
      StepKeeps(b, Webhook(s, utr), p, k);
    } else {
      hide FindReference, Recorded, Sound, Total, AllRefused, OneOpen;
      assert Deliver(b, s, utr) == WithStatus(b, p, PayoutStatus.Failed);
    }
  }

  /** Once rejected, a payout stays so through every run that delivers it no refusal meanwhile. */
  lemma RejectedIsForGood(b: Books, es: seq<Event>, p: PayoutId)
    requires Sound(b) && StatusIs(b, p, PayoutStatus.Rejected) && FairRun(b, es, p, ItsRejection)
    ensures StatusIs(Run(b, es), p, PayoutStatus.Rejected)
  {
    hide Sound, Run, FairRun, StatusIs;
    assert FactHolds(b, p, ItsRejection);
    RunKeeps(b, es, p, ItsRejection);
    assert FactHolds(Run(b, es), p, ItsRejection);
  }

  /** While its failures come only after all its requests were refused, at most one transfer of a
      payout is ever processed, whatever befalls the others. */
  lemma NoPayoutIsSentTwice(es: seq<Event>, p: PayoutId)
    requires FairRun(EMPTY, es, p, ItsRequests)
    ensures var subs := Run(EMPTY, es).submissions;
            forall s, t :: 0 <= s < |subs| && 0 <= t < |subs| && subs[s] == subs[t] == Submission(p, Processed) ==>
              s == t
  {
    EmptyIsOk();
    RunKeeps(EMPTY, es, p, ItsRequests);
    hide Run, FairRun;
    var subs := Run(EMPTY, es).submissions;
    assert OneOpen(subs, p);
    forall s, t | 0 <= s < |subs| && 0 <= t < |subs| && subs[s] == subs[t] == Submission(p, Processed) ensures s == t {
      assert !(s < t) && !(t < s);
    }
  }

  // ---- the hold ----

  /** A pay row leaves the hold in exactly two ways: the maturing pass finds it past the cutoff
      and not held back, which approves it, or it is reversed. */
  lemma HoldEndsExactly(b: Books, e: Event, c: CommissionId)
    requires c < |b.commissions| && b.commissions[c].status == CommissionStatus.Pending
    ensures c < |Step(b, e).commissions|
    ensures var row := b.commissions[c]; var status := Step(b, e).commissions[c].status;
            (status == CommissionStatus.Approved <==>
               e.Maturing? && row.computedAt <= e.cutoff && row.booking !in e.held)
            && (status == CommissionStatus.Reversed <==> e == Reversing(c) && !row.reversed)
            && status != CommissionStatus.Paid
  {
    hide Decide, ClaimLines, Unwind, RaiseBonuses, RaiseOne, Credited, WaiveOne, NewCommission, HasRow;
    if Transfers(e) {
      TransfersTouch(b, e);
      hide Step;
    } else if Evaluates(e) {
      EvaluatingMovesOnlyIncentives(b, e);
      hide Step;
    }
  }

  // ---- bonuses ----

  /** In every state any run reaches, for every unreversed commission the incentive amount is the
      sum of the rewards, as they were when won, of the progress rows credited to it. */
  lemma IncentiveIsTheCreditedRewards(es: seq<Event>, c: CommissionId)
    requires c < |Run(EMPTY, es).commissions| && !Run(EMPTY, es).commissions[c].reversed
    ensures Run(EMPTY, es).commissions[c].incentive == Total(Run(EMPTY, es).progress, RewardFor(c))
  {
    ReachedIsSound(es);
    hide Run, Total;
  }

  /** A won bonus stays exactly as it was, other evaluations' late writes included, until the job
      it hangs off is reversed. */
  lemma CreditStaysUntilUnwound(b: Books, e: Event, p: ProgressId)
    requires p < |b.progress| && b.progress[p].credit.Some?
    ensures p < |Step(b, e).progress|
    ensures Step(b, e).progress[p].credit == b.progress[p].credit
            || (e == Reversing(b.progress[p].credit.value.commission) && Reversible(b, e.commission)
                && Step(b, e).progress[p].credit == None)
  {
    hide Decide, ClaimLines, RaiseBonuses, RaiseOne, Record, WaiveOne, Recount, Without, Stored, Sync;
    if Transfers(e) {
      TransfersTouch(b, e);
      hide Step;
    }
  }

  /** A bonus is given when an evaluation's credit lands on the row, and taken back when the job it
      hangs off is reversed. */
  predicate Gives(b: Books, e: Event, p: ProgressId) {
    e.Crediting? && e.award.progress == p && Creditable(b, e.award)
  }

  predicate TakesBack(b: Books, e: Event, p: ProgressId) {
    e.Reversing? && Reversible(b, e.commission) && p < |b.progress| && CreditedTo(b.progress[p], e.commission)
  }

  function GivenLess(b: Books, es: seq<Event>, p: ProgressId): int
    decreases |es|
  {
    if es == [] then 0
    else (if Gives(b, es[0], p) then 1 else 0) - (if TakesBack(b, es[0], p) then 1 else 0)
         + GivenLess(Step(b, es[0]), es[1..], p)
  }

  function HasBonus(b: Books, p: ProgressId): int {
    if p < |b.progress| && b.progress[p].credit.Some? then 1 else 0
  }

  lemma GivingAndTaking(b: Books, e: Event, p: ProgressId)
    ensures HasBonus(Step(b, e), p)
            == HasBonus(b, p) + (if Gives(b, e, p) then 1 else 0) - (if TakesBack(b, e, p) then 1 else 0)
  {
    hide Decide, ClaimLines, RaiseBonuses, RaiseOne, Record, WaiveOne, Recount, Without, Stored, Sync;
    if Transfers(e) {
      TransfersTouch(b, e);
      hide Step;
    }
  }

  /** However evaluations of one row interleave, late and repeated credits included: it has been
      given its bonus as often as it was taken back, and once more if it holds one now. */
  lemma {:induction false} CreditedOnceAtATime(b: Books, es: seq<Event>, p: ProgressId)
    ensures HasBonus(Run(b, es), p) == HasBonus(b, p) + GivenLess(b, es, p)
    decreases |es|
  {
    hide Step, HasBonus, Gives, TakesBack;
    if es != [] {
      GivingAndTaking(b, es[0], p);
      CreditedOnceAtATime(Step(b, es[0]), es[1..], p);
    }
  }

  // ---- an evaluation, write by write ----

  /** The writes an evaluation makes, with the facts it reads in this state. */
  function WritesOf(b: Books, e: Evaluation): seq<Event> {
    if !Evaluable(e) then []
    else
      var key := PeriodFor(e.scheme.recurrence, e.at).key;
      var p := UpsertId(b.progress, e.pro, e.scheme.id, key);
      [Opening(e.pro, e.scheme.id, key)]
      + if Upsert(b.progress, e.pro, e.scheme.id, key)[p].credit.Some? then []
        else [Syncing(p, DerivedFor(b.commissions, e))] + Verdict(p, e, DerivedFor(b.commissions, e))
  }

  function Verdict(p: ProgressId, e: Evaluation, derived: seq<Derived>): seq<Event> {
    var value := DerivedTotal(derived);
    match Evaluate(e.scheme.criteria, |derived|, value)
    case None => []
    case Some(verdict) =>
      if !verdict.achieved then [Scoring(p, value, verdict.target)]
      else match CreditAgainst(derived, e.trigger)
        case None => []
        case Some(c) => [Crediting(Award(p, c, value, verdict.target, e.scheme.reward, e.at))]
  }

  lemma JudgingIsItsWrite(b: Books, p: ProgressId, e: Evaluation, derived: seq<Derived>)
    ensures Run(b, Verdict(p, e, derived)) == Judged(b, p, e, derived)
  {
    hide Scored, Credited, DerivedTotal, Evaluate, CreditAgainst;
    var writes := Verdict(p, e, derived);
    if writes != [] {
      assert writes[1..] == [];
      assert Run(b, writes) == Run(Step(b, writes[0]), []);
    }
  }

  /** Made without interruption, the separate writes come to the evaluation. */
  lemma EvaluationIsItsWrites(b: Books, e: Evaluation)
    ensures Run(b, WritesOf(b, e)) == EvaluateOne(b, e)
  {
    hide Judged, Verdict, Sync, Upsert, UpsertId, DerivedFor, PeriodFor;
    var writes := WritesOf(b, e);
    if Evaluable(e) {
      var key := PeriodFor(e.scheme.recurrence, e.at).key;
      var p := UpsertId(b.progress, e.pro, e.scheme.id, key);
      var begun := b.(progress := Upsert(b.progress, e.pro, e.scheme.id, key));
      assert Step(b, writes[0]) == begun;
      if begun.progress[p].credit.Some? {
        assert writes[1..] == [];
      } else {
        var derived := DerivedFor(b.commissions, e);
        var synced := begun.(contributions := Sync(b.contributions, p, derived));
        assert writes[1..] == [Syncing(p, derived)] + Verdict(p, e, derived);
        assert writes[1..][1..] == Verdict(p, e, derived);
        assert Run(begun, writes[1..]) == Run(Step(begun, writes[1..][0]), writes[1..][1..]);
        assert Step(begun, writes[1..][0]) == synced;
        JudgingIsItsWrite(synced, p, e, derived);
      }
    }
  }

  /** So an evaluation keeps the tables sound. */
  lemma EvaluationKeeps(b: Books, e: Evaluation)
    requires Sound(b)
    ensures Sound(EvaluateOne(b, e))
  {
    EvaluationIsItsWrites(b, e);
    hide Sound, Run, WritesOf, EvaluateOne;
    RunKeepsSound(b, WritesOf(b, e));
  }
}
