/** Payouts, pay rows and requests column by column: which steps may write them, when, with what. */
module MoneyColumns {
  import opened Wrappers
  import opened Totals
  import opened Books
  import opened Deductions
  import opened PayoutBatch
  import opened Disbursement
  import opened Commissions
  import opened Incentives
  import opened Reversal
  import opened MoneyInvariants
  import opened MoneySteps
  import opened MoneyRuns
  import opened DraftLaws

  // ---- payouts ----

  /** The step sends the payout: an approved one, or a failed one tried again, with something to pay
      and a gateway to ask. */
  predicate IsSent(row: Payout, p: PayoutId, e: Event) {
    (e.Disbursing? || e.Retrying?) && e.payout == p && e.answer != Unavailable && row.net != 0
    && row.status == if e.Disbursing? then PayoutStatus.Approved else PayoutStatus.Failed
  }

  /** The step tells the payout, not yet paid, what became of the request whose reference it carries. */
  predicate Hears(b: Books, p: PayoutId, e: Event)
    requires p < |b.payouts|
  {
    e.Webhook? && e.submission < |b.submissions| && b.submissions[e.submission].verdict != InFlight
    && b.payouts[p].reference == Some(Entity(e.submission)) && b.payouts[p].status != PayoutStatus.Paid
  }

  function StatusAfter(b: Books, p: PayoutId, e: Event): PayoutStatus
    requires p < |b.payouts|
  {
    var was := b.payouts[p].status;
    if IsSent(b.payouts[p], p, e) then
      match e.answer
      case Declined => PayoutStatus.Failed
      case Accepted(Processed, _) => PayoutStatus.Paid
      case _ => PayoutStatus.Processing
    else if Hears(b, p, e) then
      if b.submissions[e.submission].verdict == Processed then PayoutStatus.Paid else PayoutStatus.Failed
    else if e == Retrying(p, Unavailable) || (e.Retrying? && e.payout == p && b.payouts[p].net == 0) then
      if was == PayoutStatus.Failed then PayoutStatus.Approved else was
    else if e == Approving(p) && was == PayoutStatus.Draft then PayoutStatus.Approved
    else if e == Rejecting(p) && was in {PayoutStatus.Draft, PayoutStatus.Approved} then PayoutStatus.Rejected
    else was
  }

  /** The bank's own number once it is known, and until then the gateway's. */
  function BankOrGateway(utr: Option<nat>, s: SubmissionId): Option<Reference> {
    if utr.Some? then Some(Utr(utr.value)) else Some(Entity(s))
  }

  function ReferenceAfter(b: Books, p: PayoutId, e: Event): Option<Reference>
    requires p < |b.payouts|
  {
    if IsSent(b.payouts[p], p, e) && e.answer.Accepted? then
      BankOrGateway(if e.answer.verdict == Processed then e.answer.utr else None, |b.submissions|)
    else if Hears(b, p, e) && b.submissions[e.submission].verdict == Processed then BankOrGateway(e.utr, e.submission)
    else b.payouts[p].reference
  }

  /** The one payout that carries a request's reference is the one found by it. */
  lemma FoundByItsReference(b: Books, s: SubmissionId, p: PayoutId)
    requires RecordsOk(b.payouts, b.submissions) && p < |b.payouts|
    ensures FindReference(b.payouts, Entity(s)) == Some(p) <==> b.payouts[p].reference == Some(Entity(s))
  {
    hide FindReference, Total;
    var found := FindReference(b.payouts, Entity(s));
    assert Recorded(b.payouts[p], p, b.submissions);
    if found.Some? { assert Recorded(b.payouts[found.value], found.value, b.submissions); }
  }

  lemma SendingWrites(b: Books, p: PayoutId, a: Answer)
    requires RecordsOk(b.payouts, b.submissions) && Sendable(b, p, a)
    ensures var row := b.payouts[p]; var e := Disbursing(p, a); var n := Disburse(b, p, a);
            p < |n.payouts|
            && n.payouts[p] == row.(status := StatusAfter(b, p, e), reference := ReferenceAfter(b, p, e),
                                    attempts := row.attempts + 1)
  {
    NextReferenceIsNew(b);
    hide FindReference, Total, RecordsOk;
    if a.Accepted? && a.verdict == Processed {
      var s := |b.submissions|;
      var captured := WithReference(Submit(b, p, VerdictOf(a)), p, Entity(s));
      assert captured.payouts[p].reference == Some(Entity(s));
      var found := FindReference(captured.payouts, Entity(s));
      assert found.Some? ==> found.value == p;
    }
  }

  lemma RetryingWrites(b: Books, p: PayoutId, a: Answer)
    requires Sound(b) && StatusIs(b, p, PayoutStatus.Failed)
    ensures var row := b.payouts[p]; var e := Retrying(p, a); var n := Retry(b, p, a);
            p < |n.payouts|
            && n.payouts[p] == row.(status := StatusAfter(b, p, e), reference := ReferenceAfter(b, p, e),
                                    attempts := row.attempts + if IsSent(row, p, e) then 1 else 0)
  {
    hide Sound, RecordsOk, Disburse, Retry;
    var ready := WithStatus(b, p, PayoutStatus.Approved);
    RetryIsReadyFirst(b, p, a);
    if Sendable(ready, p, a) {
      SendingWrites(ready, p, a);
    } else {
      SendingTouchesOne(ready, p, a);
    }
  }

  lemma HearingWrites(b: Books, s: SubmissionId, utr: Option<nat>, p: PayoutId)
    requires Sound(b) && p < |b.payouts|
    ensures var row := b.payouts[p]; var e := Webhook(s, utr); var n := Deliver(b, s, utr);
            p < |n.payouts|
            && n.payouts[p] == row.(status := StatusAfter(b, p, e), reference := ReferenceAfter(b, p, e))
  {
    hide FindReference, Sound, RowsOk, AttachOk, RecordsOk, KeyOk;
    SoundGives(b);
    FoundByItsReference(b, s, p);
  }

  lemma TransfersWrite(b: Books, e: Event, p: PayoutId)
    requires Sound(b) && p < |b.payouts| && Transfers(e)
    ensures var row := b.payouts[p]; var n := Step(b, e);
            p < |n.payouts|
            && n.payouts[p] == row.(status := StatusAfter(b, p, e), reference := ReferenceAfter(b, p, e),
                                    attempts := row.attempts + if IsSent(row, p, e) then 1 else 0)
  {
    hide Sound, RowsOk, AttachOk, RecordsOk, KeyOk, Disburse, Retry, Deliver;
    SoundGives(b);
    match e
    case Disbursing(q, a) =>
      if q == p && Sendable(b, p, a) { SendingWrites(b, p, a); } else { SendingTouchesOne(b, q, a); }
    case Retrying(q, a) =>
      if !StatusIs(b, q, PayoutStatus.Failed) {
        RetryNeedsFailed(b, q, a);
      } else if q == p {
        RetryingWrites(b, p, a);
      } else {
        RetryIsReadyFirst(b, q, a);
        SendingTouchesOne(WithStatus(b, q, PayoutStatus.Approved), q, a);
      }
    case Webhook(s, utr) => HearingWrites(b, s, utr, p);
    case Resolving(_, _) =>
  }

  /** A payout's status, reference and number of attempts change so, and nothing else of it ever does. */
  lemma PayoutColumns(b: Books, e: Event, p: PayoutId)
    requires Sound(b) && p < |b.payouts|
    ensures var row := b.payouts[p]; var n := Step(b, e);
            p < |n.payouts|
            && n.payouts[p] == row.(status := StatusAfter(b, p, e), reference := ReferenceAfter(b, p, e),
                                    attempts := row.attempts + if IsSent(row, p, e) then 1 else 0)
  {
    if Transfers(e) {
      hide Sound, Step, StatusAfter, ReferenceAfter, IsSent;
      TransfersWrite(b, e, p);
    } else {
      hide Sound, Step;
      OthersLeavePayouts(b, e, p);
    }
  }

  // ---- requests ----

  /** The gateway's record of requests grows by one when a payout is sent, open if it did not answer,
      and changes only by its deciding on an open one. */
  lemma RequestsAreLogged(b: Books, e: Event)
    requires Sound(b)
    ensures var n := Step(b, e);
            if (e.Disbursing? || e.Retrying?) && e.payout < |b.payouts| && IsSent(b.payouts[e.payout], e.payout, e)
            then n.submissions
                 == b.submissions + [Submission(e.payout, if e.answer.Accepted? then e.answer.verdict
                                                          else if e.answer == Declined then Refused else InFlight)]
            else if e.Resolving? && e.submission < |b.submissions| && b.submissions[e.submission].verdict == InFlight
            then
              n.submissions == b.submissions[e.submission := Submission(b.submissions[e.submission].payout, e.verdict)]
            else n.submissions == b.submissions
  {
    hide Sound, RowsOk, AttachOk, RecordsOk, KeyOk, Disburse, Retry, Deliver;
    SoundGives(b);
    match e
    case Disbursing(q, a) => SendingTouchesOne(b, q, a);
    case Retrying(q, a) =>
      if StatusIs(b, q, PayoutStatus.Failed) {
        RetryIsReadyFirst(b, q, a);
        SendingTouchesOne(WithStatus(b, q, PayoutStatus.Approved), q, a);
      } else {
        RetryNeedsFailed(b, q, a);
      }
    case Webhook(s, utr) => SubmissionsStand(b, s, utr);
    case Resolving(_, _) =>
    case _ =>
      RequestsStand(b, e);
      hide Step;
  }

  // ---- pay rows ----

  /** The step pays the payout the row sits in. */
  predicate IsPaidBy(b: Books, c: Commission, e: Event) {
    c.status == CommissionStatus.Approved && c.payout.Some? && c.payout.value < |b.payouts|
    && b.payouts[c.payout.value].status != PayoutStatus.Paid && StatusAfter(b, c.payout.value, e) == PayoutStatus.Paid
  }

  /** A row after a step: let out of the hold, paid, taken into a draft or given back by a rejection,
      credited, or reversed; a reversed row that was not paid leaves its payout and its bonuses. */
  function RowAfter(b: Books, c: CommissionId, e: Event): Commission
    requires c < |b.commissions|
  {
    var row := b.commissions[c];
    match e
    case Maturing(cutoff, held) =>
      if row.status == CommissionStatus.Pending && row.computedAt <= cutoff && row.booking !in held
      then row.(status := CommissionStatus.Approved) else row
    case Drafting(r) =>
      if Decide(b, r).Drafted? && IsDue(row, r.pro, r.cutoff) then row.(payout := Some(|b.payouts|)) else row
    case Rejecting(q) =>
      if row.payout == Some(q) && q < |b.payouts| && b.payouts[q].status in {PayoutStatus.Draft, PayoutStatus.Approved}
      then row.(payout := None) else row
    case Crediting(a) =>
      if a.commission == c && a.progress < |b.progress| && b.progress[a.progress].credit == None
      then row.(incentive := row.incentive + a.reward) else row
    case Reversing(d) =>
      if d != c || row.reversed then row
      else if row.status == CommissionStatus.Paid then row.(reversed := true)
      else row.(reversed := true, status := CommissionStatus.Reversed, payout := None, incentive := 0)
    case _ => if IsPaidBy(b, row, e) then row.(status := CommissionStatus.Paid) else row
  }

  lemma SettlingPaysRows(b: Books, s: SubmissionId, utr: Option<nat>, c: CommissionId)
    requires c < |b.commissions|
    ensures var n := Settle(b, s, utr); var row := b.commissions[c]; var found := FindReference(b.payouts, Entity(s));
            c < |n.commissions|
            && n.commissions[c]
               == if found.Some? && b.payouts[found.value].status != PayoutStatus.Paid && row.payout == found
                     && row.status == CommissionStatus.Approved
                  then row.(status := CommissionStatus.Paid) else row
  {
    hide FindReference;
  }

  lemma SendingPaysRows(b: Books, p: PayoutId, a: Answer, c: CommissionId)
    requires RecordsOk(b.payouts, b.submissions) && c < |b.commissions|
    ensures var n := Disburse(b, p, a); var row := b.commissions[c];
            c < |n.commissions|
            && n.commissions[c]
               == if Sendable(b, p, a) && a.Accepted? && a.verdict == Processed && row.payout == Some(p)
                     && row.status == CommissionStatus.Approved
                  then row.(status := CommissionStatus.Paid) else row
  {
    NextReferenceIsNew(b);
    hide FindReference, Total, RecordsOk;
    if Sendable(b, p, a) && a.Accepted? && a.verdict == Processed {
      var s := |b.submissions|;
      var captured := WithReference(Submit(b, p, VerdictOf(a)), p, Entity(s));
      SettlingPaysRows(captured, s, a.utr, c);
      assert captured.payouts[p].reference == Some(Entity(s));
      var found := FindReference(captured.payouts, Entity(s));
      assert found.Some? ==> found.value == p;
      hide Settle;
    }
  }

  lemma FailingPaysNothing(b: Books, s: SubmissionId)
    ensures MarkFailed(b, s).commissions == b.commissions
  {
    hide FindReference;
  }

  lemma SentPaysRows(b: Books, e: Event, c: CommissionId)
    requires Sound(b) && c < |b.commissions| && (e.Disbursing? || e.Retrying?)
    ensures c < |Step(b, e).commissions| && Step(b, e).commissions[c] == RowAfter(b, c, e)
  {
    hide Sound, RowsOk, AttachOk, RecordsOk, KeyOk, Disburse, Retry, FindReference;
    SoundGives(b);
    if e.Disbursing? {
      SendingPaysRows(b, e.payout, e.answer, c);
    } else if StatusIs(b, e.payout, PayoutStatus.Failed) {
      RetryIsReadyFirst(b, e.payout, e.answer);
      SendingPaysRows(WithStatus(b, e.payout, PayoutStatus.Approved), e.payout, e.answer, c);
    } else {
      RetryNeedsFailed(b, e.payout, e.answer);
    }
  }

  lemma HeardPaysRows(b: Books, s: SubmissionId, utr: Option<nat>, c: CommissionId)
    requires Sound(b) && c < |b.commissions|
    ensures var e := Webhook(s, utr);
            c < |Step(b, e).commissions| && Step(b, e).commissions[c] == RowAfter(b, c, e)
  {
    hide Sound, RowsOk, AttachOk, RecordsOk, KeyOk, Settle, MarkFailed, FindReference;
    SoundGives(b);
    SettlingPaysRows(b, s, utr, c);
    var p := b.commissions[c].payout;
    if p.Some? && p.value < |b.payouts| { FoundByItsReference(b, s, p.value); }
    FailingPaysNothing(b, s);
  }

  lemma OthersPayNothing(b: Books, e: Event, c: CommissionId)
    requires c < |b.commissions| && !Transfers(e) && !e.Drafting?
    ensures c < |Step(b, e).commissions| && Step(b, e).commissions[c] == RowAfter(b, c, e)
  {
    hide RaiseBonuses, RaiseOne, WaiveOne, NewCommission, Unwind, Upsert, Sync;
  }

  /** Every column of a pay row, over every kind of step. */
  lemma PayRowColumns(b: Books, e: Event, c: CommissionId)
    requires Sound(b) && c < |b.commissions|
    ensures c < |Step(b, e).commissions| && Step(b, e).commissions[c] == RowAfter(b, c, e)
  {
    match e
    case Disbursing(_, _) =>
      hide Sound, Step, RowAfter;
      SentPaysRows(b, e, c);
    case Retrying(_, _) =>
      hide Sound, Step, RowAfter;
      SentPaysRows(b, e, c);
    case Webhook(s, utr) =>
      hide Sound, Step, RowAfter;
      HeardPaysRows(b, s, utr, c);
    case Resolving(_, _) =>
      hide Sound;
    case Drafting(r) =>
      hide Sound, Decide, Build, IsDue;
      DraftTakesTheRowsDue(b, r);
    case _ =>
      hide Sound, Step, RowAfter;
      OthersPayNothing(b, e, c);
  }

  lemma OthersRecordNothing(b: Books, e: Event)
    requires !e.Completion?
    ensures |Step(b, e).commissions| == |b.commissions|
  {
    if Transfers(e) {
      TransfersTouch(b, e);
      hide Step;
    } else if Evaluates(e) {
      EvaluatingMovesOnlyIncentives(b, e);
      hide Step;
    } else {
      hide Decide, ClaimLines, Unwind, RaiseBonuses, RaiseOne, WaiveOne;
    }
  }

  /** Rows are added by completions alone: one, pending, for a booking that has none, when the job is
      done, was started, was this Pro's and has a rate. */
  lemma PayRowsAreAdded(b: Books, e: Event)
    ensures var was, now := b.commissions, Step(b, e).commissions;
            if e.Completion? && e.job.completed && e.job.started && e.job.pro == Some(e.pro) && e.job.rate.Some?
               && (forall i :: 0 <= i < |was| ==> was[i].booking != e.job.booking)
            then |now| == |was| + 1 && now[..|was|] == was
                 && now[|was|].booking == e.job.booking && now[|was|].pro == e.pro && now[|was|].price == e.job.price
                 && now[|was|].status == CommissionStatus.Pending && now[|was|].computedAt == e.now
            else |now| == |was|
  {
    if e.Completion? {
      CompletionWrites(b.commissions, e.job, e.pro, e.now);
      hide Record;
    } else {
      OthersRecordNothing(b, e);
      hide Step;
    }
  }

  // ---- debts ----

  /** Rejecting gives back what the payout held: each such row is untouched again, whole as it stands,
      and every other row is as it was. */
  lemma RejectingGivesRowsBack(b: Books, p: PayoutId, i: DeductionId)
    requires Sound(b) && i < |b.deductions|
    ensures var d := b.deductions[i]; var n := Reject(b, p);
            i < |n.deductions| == |b.deductions|
            && n.deductions[i]
               == if d.owner == Some(p) && p < |b.payouts|
                     && b.payouts[p].status in {PayoutStatus.Draft, PayoutStatus.Approved}
                  then d.(consumed := 0, owner := None, settled := false) else d
  {
    SoundGives(b);
    assert RowOk(b.deductions[i], b.payouts);
    hide Sound, RowsOk;
  }

  /** The debt of a commission, and of a bonus that hung off it. */
  predicate IsCommissionDebt(d: Deduction, b: Books, c: CommissionId)
    requires c < |b.commissions|
  {
    d == Deduction(b.commissions[c].pro, b.commissions[c].amount, 0, CommissionReversal, Some(c), Some(ReversalOf(c)),
                   None, false, false)
  }

  predicate IsBonusDebt(d: Deduction, b: Books, c: CommissionId)
    requires c < |b.commissions|
  {
    d.key.Some? && d.key.value.UnwindOf?
    && var p := d.key.value.progress;
       p < |b.progress| && b.progress[p].credit.Some? && b.progress[p].credit.value.commission == c
       && d == Deduction(b.commissions[c].pro, b.progress[p].credit.value.reward, 0, IncentiveUnwind, Some(c),
                         Some(UnwindOf(p)), None, false, false)
  }

  lemma {:induction false} BonusDebtsAdded(b: Books, c: CommissionId, ds: seq<Deduction>, bonuses: seq<Bonus>)
    requires c < |b.commissions|
    requires forall k :: 0 <= k < |bonuses| ==>
               bonuses[k].progress < |b.progress| && CreditedTo(b.progress[bonuses[k].progress], c)
               && bonuses[k].reward == b.progress[bonuses[k].progress].credit.value.reward
    ensures var n := RaiseBonuses(ds, b.commissions[c].pro, c, bonuses);
            |ds| <= |n| && n[..|ds|] == ds && forall i :: |ds| <= i < |n| ==> IsBonusDebt(n[i], b, c)
    decreases |bonuses|
  {
    if bonuses != [] {
      hide HasKey;
      var next := RaiseOne(ds, BonusClaim(b.commissions[c].pro, c, bonuses[0]));
      forall k | 0 <= k < |bonuses[1..]| ensures bonuses[1..][k] == bonuses[k + 1] {}
      BonusDebtsAdded(b, c, next, bonuses[1..]);
      var n := RaiseBonuses(ds, b.commissions[c].pro, c, bonuses);
      forall i | |ds| <= i < |n| ensures IsBonusDebt(n[i], b, c) {
        if i < |next| { assert n[i] == next[i]; }
      }
    }
  }

  /** A paid job's reversal adds debts of two kinds and touches none there was: the commission's, and
      one a bonus. An unpaid one's adds none. */
  lemma ReversalAddsDebts(b: Books, c: CommissionId)
    requires Reversible(b, c)
    ensures var was, now := b.deductions, Reverse(b, c).deductions;
            |was| <= |now| && now[..|was|] == was
            && (b.commissions[c].status != CommissionStatus.Paid ==> now == was)
            && (forall i :: |was| <= i < |now| ==> IsCommissionDebt(now[i], b, c) || IsBonusDebt(now[i], b, c))
  {
    UnwindTouchesOnlyProgress(b, c);
    hide HasKey, Unwind, RaiseBonuses, IsBonusDebt;
    if WasPaid(b, c) {
      var raised := RaiseOne(b.deductions, CommissionClaim(b.commissions[c], c));
      BonusDebtsAdded(b, c, raised, BonusesOf(b.progress, c));
      var now := Reverse(b, c).deductions;
      forall i | |b.deductions| <= i < |now| ensures IsCommissionDebt(now[i], b, c) || IsBonusDebt(now[i], b, c) {
        if i < |raised| { assert now[i] == raised[i]; }
      }
    }
  }

  /** A debt row changes only when a draft takes it, when it is waived, or when its payout is rejected. */
  lemma DebtColumns(b: Books, e: Event, i: DeductionId)
    requires Sound(b) && i < |b.deductions|
    ensures var was, now := b.deductions, Step(b, e).deductions; var d := was[i];
            |was| <= |now|
            && if e.Drafting? then
                 now[i] == d || TakenWhole(d, now[i], e.request.pro, |b.payouts|)
                 || (|now| == |was| + 1 && TakenInPart(d, now[i], now[|was|], e.request.pro, |b.payouts|))
               else if e == Waiving(i) && !d.waived && !d.settled then now[i] == d.(waived := true)
               else if e.Rejecting? && d.owner == Some(e.payout) && e.payout < |b.payouts|
                       && b.payouts[e.payout].status in {PayoutStatus.Draft, PayoutStatus.Approved}
               then now[i] == d.(consumed := 0, owner := None, settled := false)
               else now[i] == d
  {
    match e
    case Drafting(r) =>
      DraftTakesTheRowsDue(b, r);
      if Decide(b, r).Drafted? { OldestDebtsFirst(b, r); }
      hide Sound, Decide, Build, TakenWhole, TakenInPart;
    case Rejecting(p) =>
      RejectingGivesRowsBack(b, p, i);
      hide Sound, Reject;
    case Reversing(c) =>
      if Reversible(b, c) { ReversalAddsDebts(b, c); }
      hide Sound, Reversible, IsCommissionDebt, IsBonusDebt, Unwind, RaiseBonuses;
    case Raising(pro, amount, source) =>
      RaisingAddsARow(b.deductions, ManualClaim(pro, amount, source));
      hide Sound, RaiseOne;
    case _ =>
      OthersLeaveDebts(b, e);
      hide Sound, Step;
  }

  lemma OthersLeaveDebts(b: Books, e: Event)
    requires !(e.Drafting? || e.Rejecting? || e.Reversing? || e.Raising?)
    ensures Step(b, e).deductions == if e.Waiving? then WaiveOne(b.deductions, e.id) else b.deductions
  {
    hide FindReference, Upsert, Sync, Record, WaiveOne;
  }

  /** Debt rows are added by hand for any positive amount, by a draft that takes part of one, and by a
      reversal. */
  lemma DebtsAreAdded(b: Books, e: Event)
    requires Sound(b)
    ensures var was, now := b.deductions, Step(b, e).deductions;
            if e.Raising? && e.amount > 0
            then now == was + [Deduction(e.pro, e.amount, 0, Manual, e.source, None, None, false, false)]
            else if e.Reversing? then
              |was| <= |now|
              && forall i :: |was| <= i < |now| ==>
                   Reversible(b, e.commission)
                   && (IsCommissionDebt(now[i], b, e.commission) || IsBonusDebt(now[i], b, e.commission))
            else |now| == |was| || (e.Drafting? && |now| == |was| + 1)
  {
    match e
    case Drafting(r) =>
      DraftTakesTheRowsDue(b, r);
      if Decide(b, r).Drafted? { OldestDebtsFirst(b, r); }
      hide Sound, Decide, Build;
    case Rejecting(_) =>
    case Reversing(c) =>
      if Reversible(b, c) { ReversalAddsDebts(b, c); }
      hide Sound, IsCommissionDebt, IsBonusDebt, Unwind, RaiseBonuses;
    case Raising(pro, amount, source) =>
      RaisingAddsARow(b.deductions, ManualClaim(pro, amount, source));
      hide Sound, RaiseOne;
    case _ =>
      OthersLeaveDebts(b, e);
      hide Sound, Step;
  }

  /** The bonuses hung off a job, as its progress rows show them. */
  function HungOff(c: CommissionId): Progress -> int {
    (r: Progress) => if r.credit.Some? && r.credit.value.commission == c then r.credit.value.reward else 0
  }

  lemma OneMoreBonus(ps: seq<Progress>, c: CommissionId, from: nat)
    requires from < |ps|
    ensures Total(BonusesOf(ps, c, from), Reward) == HungOff(c)(ps[from]) + Total(BonusesOf(ps, c, from + 1), Reward)
  {
    BonusesUnfold(ps, c, from);
    hide BonusesOf;
    var head := if CreditedTo(ps[from], c) then [Bonus(from, ps[from].credit.value.reward)] else [];
    TotalConcat(head, BonusesOf(ps, c, from + 1), Reward);
  }

  lemma {:induction false} BonusesAddUp(ps: seq<Progress>, c: CommissionId, from: nat)
    requires from <= |ps|
    ensures Total(BonusesOf(ps, c, from), Reward) == Total(ps[from..], HungOff(c))
    decreases |ps| - from
  {
    if from < |ps| {
      OneMoreBonus(ps, c, from);
      BonusesAddUp(ps, c, from + 1);
      hide BonusesOf, Total;
      assert ps[from..][0] == ps[from] && ps[from..][1..] == ps[from + 1..];
      TotalOfTheRest(ps[from..], HungOff(c));
    }
  }

  /** The answer a reversal gives the first time: nothing owed for a job not paid, and for a paid one
      its commission and every bonus hung off it. */
  lemma FirstAnswerIs(b: Books, c: CommissionId)
    requires Reversible(b, c)
    ensures Report(b, c)
            == Some(if b.commissions[c].status == CommissionStatus.Paid
                    then Outcome(Deducted, b.commissions[c].amount + Total(b.progress, HungOff(c)))
                    else Outcome(Dropped, 0))
  {
    BonusesAddUp(b.progress, c, 0);
    assert b.progress[0..] == b.progress;
    hide BonusesOf, Total;
  }
}
