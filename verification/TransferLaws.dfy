/** Transfers nobody hears of again: when a confirmation finds its payout, and when it never can. */
module TransferLaws {
  import opened Wrappers
  import opened Totals
  import opened Books
  import opened PayoutBatch
  import opened Disbursement
  import opened MoneyInvariants
  import opened MoneyRuns
  import opened Deductions
  import opened Commissions
  import opened Reversal

  /** A processed transfer reaches its payout exactly when the payout still carries that
      transfer's reference, which only an answered request leaves on it. */
  lemma SettlementLandsExactlyWhenReferenced(b: Books, s: SubmissionId, utr: Option<nat>)
    requires RecordsOk(b.payouts, b.submissions) && s < |b.submissions| && b.submissions[s].verdict == Processed
    requires b.payouts[b.submissions[s].payout].status != PayoutStatus.Paid
    ensures var p := b.submissions[s].payout;
            StatusIs(Deliver(b, s, utr), p, PayoutStatus.Paid) <==> b.payouts[p].reference == Some(Entity(s))
  {
    hide FindReference, Total;
    var found := FindReference(b.payouts, Entity(s));
    if found.Some? { assert Recorded(b.payouts[found.value], found.value, b.submissions); }
  }

  predicate Stranded(b: Books, p: PayoutId) {
    StatusIs(b, p, PayoutStatus.Processing) && b.payouts[p].reference == None
  }

  lemma StrandedStep(b: Books, e: Event, p: PayoutId)
    requires Stranded(b, p)
    ensures Stranded(Step(b, e), p)
  {
    hide Decide, ClaimLines, Reverse, RaiseOne, Record, WaiveOne;
    if Transfers(e) {
      TransfersTouch(b, e);
      hide Step;
    } else if Evaluates(e) {
      EvaluatingMovesOnlyIncentives(b, e);
      hide Step;
    } else if e.Reversing? {
      ReversalLeavesPayouts(b, e.commission);
    }
  }

  /** A first transfer the gateway never answered stays in processing for good: no later step
      of any run finds it, since nothing but its reference leads back to it. */
  lemma {:induction false} UnansweredStaysProcessing(b: Books, es: seq<Event>, p: PayoutId)
    requires Stranded(b, p)
    ensures Stranded(Run(b, es), p)
    decreases |es|
  {
    hide Stranded, Step;
    if es != [] {
      StrandedStep(b, es[0], p);
      UnansweredStaysProcessing(Step(b, es[0]), es[1..], p);
    }
  }

  /** A payout in processing whose transfer went through, and which carries no reference to it. */
  predicate Unconfirmable(b: Books, p: PayoutId) {
    StatusIs(b, p, PayoutStatus.Processing) && Confirmed(b.submissions, p)
    && forall s :: 0 <= s < |b.submissions| && b.submissions[s].payout == p && b.submissions[s].verdict == Processed ==>
         b.payouts[p].reference != Some(Entity(s))
  }

  lemma UnconfirmableThroughTransfers(b: Books, e: Event, p: PayoutId)
    requires Sound(b) && FactHolds(b, p, ItsRequests) && Fair(b, e, p, ItsRequests)
    requires Unconfirmable(b, p) && Transfers(e)
    ensures Unconfirmable(Step(b, e), p)
  {
    hide Sound, RowsOk, AttachOk, RecordsOk, KeyOk, Unconfirmable, Deliver, Disburse, Resolve, Retry, MayFail, OneOpen;
    SoundGives(b);
    match e
    case Webhook(s, utr) => UnconfirmableHearsNothing(b, s, utr, p);
    case Resolving(s, v) => UnconfirmableIsResolved(b, s, v, p);
    case Disbursing(q, a) => UnconfirmableWhileSending(b, q, a, p);
    case Retrying(q, a) => UnconfirmableWhileRetrying(b, q, a, p);
  }

  lemma UnconfirmableStep(b: Books, e: Event, p: PayoutId)
    requires Sound(b) && FactHolds(b, p, ItsRequests) && Fair(b, e, p, ItsRequests) && Unconfirmable(b, p)
    ensures Unconfirmable(Step(b, e), p)
  {
    if Transfers(e) {
      UnconfirmableThroughTransfers(b, e, p);
    } else {
      OthersLeavePayouts(b, e, p);
      hide Sound, Step, Fair;
      SamePayouts(b, Step(b, e), p);
    }
  }

  /** A step that leaves this payout and the transfers as they were. */
  lemma SamePayouts(b: Books, n: Books, p: PayoutId)
    requires Unconfirmable(b, p) && n.submissions == b.submissions
    requires p < |n.payouts| && n.payouts[p] == b.payouts[p]
    ensures Unconfirmable(n, p)
  {
  }

  lemma UnconfirmableHearsNothing(b: Books, s: SubmissionId, utr: Option<nat>, p: PayoutId)
    requires RecordsOk(b.payouts, b.submissions) && Fair(b, Webhook(s, utr), p, ItsRequests) && Unconfirmable(b, p)
    ensures Unconfirmable(Deliver(b, s, utr), p)
  {
    hide FindReference, Total;
    var found := FindReference(b.payouts, Entity(s));
    if found.Some? { assert Recorded(b.payouts[found.value], found.value, b.submissions); }
  }

  lemma UnconfirmableIsResolved(b: Books, s: SubmissionId, v: Verdict, p: PayoutId)
    requires OneOpen(b.submissions, p) && Unconfirmable(b, p)
    ensures Unconfirmable(Resolve(b, s, v), p)
  {
    var n := Resolve(b, s, v);
    var t :| 0 <= t < |b.submissions| && b.submissions[t].payout == p && b.submissions[t].verdict == Processed;
    assert n.submissions[t] == b.submissions[t];
    if s < |b.submissions| && b.submissions[s].payout == p && s != t {
      // Every request of a payout but its latest is refused for good.
      assert !(t < s);
      assert b.submissions[s].verdict == Refused;
    }
  }

  lemma UnconfirmableWhileSending(b: Books, q: PayoutId, a: Answer, p: PayoutId)
    requires RecordsOk(b.payouts, b.submissions) && Unconfirmable(b, p)
    ensures Unconfirmable(Disburse(b, q, a), p)
  {
    SendingTouchesOne(b, q, a);
    OneMoreSubmission(b, Disburse(b, q, a), q, VerdictOf(a), Sendable(b, q, a), p);
  }

  lemma OneMoreSubmission(b: Books, n: Books, q: PayoutId, v: Verdict, sent: bool, p: PayoutId)
    requires Unconfirmable(b, p) && p < |n.payouts| && n.payouts[p] == b.payouts[p]
    requires n.submissions == b.submissions + if sent then [Submission(q, v)] else []
    requires sent ==> q != p
    ensures Unconfirmable(n, p)
  {
    var t :| 0 <= t < |b.submissions| && b.submissions[t].payout == p && b.submissions[t].verdict == Processed;
    assert n.submissions[t] == b.submissions[t];
  }

  lemma UnconfirmableWhileRetrying(b: Books, q: PayoutId, a: Answer, p: PayoutId)
    requires Sound(b) && Unconfirmable(b, p)
    ensures Unconfirmable(Retry(b, q, a), p)
  {
    if StatusIs(b, q, PayoutStatus.Failed) {
      var ready := WithStatus(b, q, PayoutStatus.Approved);
      SamePayouts(b, ready, p);
      RetryIsReadyFirst(b, q, a);
      hide Sound, RecordsOk, Retry, Disburse;
      UnconfirmableWhileSending(ready, q, a, p);
    } else {
      RetryNeedsFailed(b, q, a);
    }
  }

  /** Nor does a retry that went unanswered and went through ever come to be paid: its payout
      keeps the reference of an earlier request, or none, and stays in processing for good. */
  lemma {:induction false} UnansweredRetryStaysProcessing(b: Books, es: seq<Event>, p: PayoutId)
    requires Sound(b) && FactHolds(b, p, ItsRequests) && FairRun(b, es, p, ItsRequests) && Unconfirmable(b, p)
    ensures Unconfirmable(Run(b, es), p)
    decreases |es|
  {
    if es != [] {
      hide Step, Fair, Sound, Unconfirmable, FactHolds;
      StepKeepsSound(b, es[0]);
      StepKeeps(b, es[0], p, ItsRequests);
      UnconfirmableStep(b, es[0], p);
      UnansweredRetryStaysProcessing(Step(b, es[0]), es[1..], p);
    }
  }
}
