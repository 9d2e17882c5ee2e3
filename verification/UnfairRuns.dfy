/** What goes wrong when a failure is recorded unfairly: from any sound state, not just a chosen one. */
module UnfairRuns {
  import opened Wrappers
  import opened Totals
  import opened Books
  import opened PayoutBatch
  import opened Disbursement
  import opened BatchLaws
  import opened MoneyInvariants
  import opened MoneySteps
  import opened MoneyRuns
  import opened TransferLaws

  lemma OnlyReference(ps: seq<Payout>, r: Reference, p: PayoutId, from: nat)
    requires from <= p < |ps| && ps[p].reference == Some(r)
    requires forall q :: 0 <= q < |ps| && q != p ==> ps[q].reference != Some(r)
    ensures FindReference(ps, r, from) == Some(p)
    decreases |ps| - from
  {
    if from < p { OnlyReference(ps, r, p, from + 1); }
  }

  /** An approved payout of a positive amount is sent, refused, and the refusal recorded. */
  function SentAndRefused(b: Books, p: PayoutId): Books {
    var s := |b.submissions|;
    Step(Step(Step(b, Disbursing(p, Accepted(InFlight, None))), Resolving(s, Refused)), Webhook(s, None))
  }

  function RefusedOnce(b: Books, p: PayoutId): Books
    requires p < |b.payouts|
  {
    var s := |b.submissions|;
    var row := b.payouts[p];
    var failed := row.(status := PayoutStatus.Failed, reference := Some(Entity(s)), attempts := row.attempts + 1);
    b.(payouts := b.payouts[p := failed],
       submissions := b.submissions + [Submission(p, Refused)])
  }

  lemma RefusalShape(b: Books, p: PayoutId)
    requires StatusIs(b, p, PayoutStatus.Approved) && b.payouts[p].net != 0
    requires forall q :: 0 <= q < |b.payouts| ==> b.payouts[q].reference != Some(Entity(|b.submissions|))
    ensures SentAndRefused(b, p) == RefusedOnce(b, p)
  {
    hide FindReference;
    var s := |b.submissions|;
    var sent := Step(b, Disbursing(p, Accepted(InFlight, None)));
    assert sent == WithReference(Submit(b, p, InFlight), p, Entity(s));
    var refused := Step(sent, Resolving(s, Refused));
    OnlyReference(refused.payouts, Entity(s), p, 0);
  }

  lemma AfterRefusal(b: Books, p: PayoutId)
    requires Sound(b) && StatusIs(b, p, PayoutStatus.Approved) && b.payouts[p].net != 0
    ensures SentAndRefused(b, p) == RefusedOnce(b, p) && Sound(RefusedOnce(b, p))
    ensures FactHolds(b, p, ItsRequests) ==> FactHolds(RefusedOnce(b, p), p, ItsRequests)
    ensures forall q :: 0 <= q < |b.payouts| && q != p ==> b.payouts[q].reference != Some(Entity(|b.submissions|))
  {
    SoundGives(b);
    hide Sound;
    NextReferenceIsNew(b);
    RefusalShape(b, p);
    RefusalKeepsSound(b, p);
    if FactHolds(b, p, ItsRequests) { OneMoreRequest(b.submissions, p, Refused, p); }
  }

  lemma RefusalKeepsSound(b: Books, p: PayoutId)
    requires Sound(b)
    ensures Sound(SentAndRefused(b, p))
  {
    hide Sound, Step;
    var s := |b.submissions|;
    var sent := Step(b, Disbursing(p, Accepted(InFlight, None)));
    StepKeepsSound(b, Disbursing(p, Accepted(InFlight, None)));
    StepKeepsSound(sent, Resolving(s, Refused));
    StepKeepsSound(Step(sent, Resolving(s, Refused)), Webhook(s, None));
  }

  predicate ReferencesInRange(b: Books) {
    forall q :: 0 <= q < |b.payouts| && b.payouts[q].reference.Some? && b.payouts[q].reference.value.Entity? ==>
      b.payouts[q].reference.value.submission < |b.submissions|
  }

  /** Then it is retried, and the gateway does not answer. */
  function Silenced(b: Books, p: PayoutId): Books {
    Step(SentAndRefused(b, p), Retrying(p, Unreachable))
  }

  function SilentRetry(b: Books, p: PayoutId): Books
    requires p < |b.payouts|
  {
    var s := |b.submissions|;
    var row := b.payouts[p];
    var open := row.(status := PayoutStatus.Processing, reference := Some(Entity(s)), attempts := row.attempts + 2);
    b.(payouts := b.payouts[p := open],
       submissions := b.submissions + [Submission(p, Refused), Submission(p, InFlight)])
  }

  lemma SilenceShape(b: Books, p: PayoutId)
    requires StatusIs(b, p, PayoutStatus.Approved) && b.payouts[p].net != 0
    ensures Retry(RefusedOnce(b, p), p, Unreachable) == SilentRetry(b, p)
  {
    var n := Retry(RefusedOnce(b, p), p, Unreachable);
    assert n.submissions == SilentRetry(b, p).submissions;
    assert n.payouts == SilentRetry(b, p).payouts;
  }

  lemma SoundBoundsReferences(b: Books)
    requires Sound(b)
    ensures ReferencesInRange(b)
  {
    forall q | 0 <= q < |b.payouts| ensures Recorded(b.payouts[q], q, b.submissions) {}
  }

  lemma AfterSilence(b: Books, p: PayoutId)
    requires Sound(b) && StatusIs(b, p, PayoutStatus.Approved) && b.payouts[p].net != 0
    ensures Silenced(b, p) == SilentRetry(b, p) && Sound(SilentRetry(b, p)) && ReferencesInRange(SilentRetry(b, p))
    ensures FactHolds(b, p, ItsRequests) ==> FactHolds(SilentRetry(b, p), p, ItsRequests)
    ensures FindReference(SilentRetry(b, p).payouts, Entity(|b.submissions|)) == Some(p)
  {
    hide SentAndRefused, RefusedOnce, Retry, Sound, FindReference, FactHolds;
    AfterRefusal(b, p);
    SilenceShape(b, p);
    RetryKeepsSound(RefusedOnce(b, p), p, Unreachable);
    if FactHolds(b, p, ItsRequests) { RetryingKeepsRequests(RefusedOnce(b, p), p, Unreachable, p); }
    var n := SilentRetry(b, p);
    SoundBoundsReferences(n);
    OnlyReference(n.payouts, Entity(|b.submissions|), p, 0);
  }

  /** A retry the gateway does not answer, then the first refusal delivered a second time: the
      payout reads as failed while its second transfer may go through, and a third follows. Of the
      three facts about the payout only the one about its requests is broken. */
  lemma StaleFailureSendsTwice(b: Books, p: PayoutId)
    requires Sound(b) && StatusIs(b, p, PayoutStatus.Approved) && b.payouts[p].net != 0
    ensures var s := |b.submissions|;
            var again := Webhook(s, None);
            var went := Step(Step(Silenced(b, p), again), Resolving(s + 1, Processed));
            var resent := Step(went, Retrying(p, Accepted(Processed, None)));
            (forall k :: Fair(Silenced(b, p), again, p, k) <==> k != ItsRequests)
            && resent.submissions
               == b.submissions + [Submission(p, Refused), Submission(p, Processed), Submission(p, Processed)]
            && StatusIs(resent, p, PayoutStatus.Paid)
  {
    AfterSilence(b, p);
    hide Silenced, Sound, FindReference, Disburse, Settle;
    var s, n := |b.submissions|, SilentRetry(b, p);
    StaleDelivery(n, p, s);
    var stale := WithStatus(n, p, PayoutStatus.Failed);
    var moved := Step(stale, Resolving(s + 1, Processed));
    assert moved == stale.(submissions := n.submissions[s + 1 := Submission(p, Processed)]);
    FinalSend(moved, p);
    hide Step;
  }

  /** The first refusal, delivered while the second request is still open. */
  lemma StaleDelivery(b: Books, p: PayoutId, s: SubmissionId)
    requires s + 1 < |b.submissions|
    requires b.submissions[s] == Submission(p, Refused) && b.submissions[s + 1] == Submission(p, InFlight)
    requires FindReference(b.payouts, Entity(s)) == Some(p) && StatusIs(b, p, PayoutStatus.Processing)
    ensures Step(b, Webhook(s, None)) == WithStatus(b, p, PayoutStatus.Failed)
    ensures forall k :: Fair(b, Webhook(s, None), p, k) <==> k != ItsRequests
  {
    hide FindReference;
  }

  lemma FinalSend(b: Books, p: PayoutId)
    requires StatusIs(b, p, PayoutStatus.Failed) && b.payouts[p].net != 0
    requires ReferencesInRange(b)
    ensures var n := Step(b, Retrying(p, Accepted(Processed, None)));
            n.submissions == b.submissions + [Submission(p, Processed)] && StatusIs(n, p, PayoutStatus.Paid)
  {
    var s := |b.submissions|;
    var sent := WithReference(Submit(WithStatus(b, p, PayoutStatus.Approved), p, Processed), p, Entity(s));
    OnlyReference(sent.payouts, Entity(s), p, 0);
  }

  lemma RevivalShape(b: Books, p: PayoutId)
    requires StatusIs(b, p, PayoutStatus.Approved) && b.payouts[p].net != 0
    requires forall q :: 0 <= q < |b.payouts| && q != p ==> b.payouts[q].reference != Some(Entity(|b.submissions|))
    ensures var s := |b.submissions|; var failed := RefusedOnce(b, p);
            var ready := Step(failed, Retrying(p, Unavailable));
            var rejected := Step(ready, Rejecting(p));
            ready == Retry(failed, p, Unavailable) && rejected == Reject(ready, p)
            && Rejectable(ready, p) && StatusIs(rejected, p, PayoutStatus.Rejected)
            && rejected.payouts[p].deduction == b.payouts[p].deduction
            && s < |rejected.submissions| && rejected.submissions[s] == Submission(p, Refused)
            && FindReference(rejected.payouts, Entity(s)) == Some(p)
  {
    hide FindReference;
    var s := |b.submissions|;
    var rejected := Step(Step(RefusedOnce(b, p), Retrying(p, Unavailable)), Rejecting(p));
    OnlyReference(rejected.payouts, Entity(s), p, 0);
  }

  lemma RejectedHoldsNothing(b: Books, p: PayoutId)
    requires Rejectable(b, p)
    ensures Total(Reject(b, p).deductions, ClaimedBy(p)) == 0
  {
    TotalZero(Reject(b, p).deductions, ClaimedBy(p));
  }

  /** A refusal recorded on a rejected payout makes it a failed one, still without its deductions. */
  lemma Revives(b: Books, p: PayoutId, s: SubmissionId)
    requires StatusIs(b, p, PayoutStatus.Rejected) && b.payouts[p].deduction > 0
    requires s < |b.submissions| && b.submissions[s].verdict == Refused
             && FindReference(b.payouts, Entity(s)) == Some(p)
    ensures !Fair(b, Webhook(s, None), p, ItsDeduction) && !Fair(b, Webhook(s, None), p, ItsRejection)
    ensures Step(b, Webhook(s, None)) == WithStatus(b, p, PayoutStatus.Failed)
  {
    hide FindReference;
  }

  /** A payout refused, taken back to approved by a retry that could not be sent, and rejected
      gives back its debts; the same refusal delivered again makes it a failed payout, ready to
      be retried for an amount whose deductions it no longer holds. */
  lemma StaleFailureRevivesARejectedPayout(b: Books, p: PayoutId)
    requires Sound(b) && StatusIs(b, p, PayoutStatus.Approved) && b.payouts[p].net != 0 && b.payouts[p].deduction > 0
    ensures var s := |b.submissions|;
            var rejected := Step(Step(SentAndRefused(b, p), Retrying(p, Unavailable)), Rejecting(p));
            var revived := Step(rejected, Webhook(s, None));
            StatusIs(rejected, p, PayoutStatus.Rejected)
            && !Fair(rejected, Webhook(s, None), p, ItsDeduction) && !Fair(rejected, Webhook(s, None), p, ItsRejection)
            && StatusIs(revived, p, PayoutStatus.Failed)
            && Total(revived.deductions, ClaimedBy(p)) == 0 < revived.payouts[p].deduction
  {
    hide SentAndRefused, RefusedOnce, Step, Sound, Total, FindReference, Reject, Retry, Fair;
    AfterRefusal(b, p);
    RevivalShape(b, p);
    var ready := Retry(RefusedOnce(b, p), p, Unavailable);
    RejectedHoldsNothing(ready, p);
    Revives(Reject(ready, p), p, |b.submissions|);
  }

  /** Whatever it had deducted, a rejected payout revived so and retried is paid its amount while
      no commission row sits in it: those it was made for are free to be paid again. */
  lemma RevivedPayoutPaysForNothing(b: Books, p: PayoutId, s: SubmissionId)
    requires Sound(b) && StatusIs(b, p, PayoutStatus.Rejected) && b.payouts[p].net != 0
    requires s < |b.submissions| && b.submissions[s].verdict == Refused
             && FindReference(b.payouts, Entity(s)) == Some(p)
    ensures var n := Step(Step(b, Webhook(s, None)), Retrying(p, Accepted(Processed, None)));
            StatusIs(n, p, PayoutStatus.Paid) && n.payouts[p].net != 0
            && n.commissions == b.commissions
            && forall c :: 0 <= c < |n.commissions| ==> n.commissions[c].payout != Some(p)
  {
    hide Total, RowsOk, KeyOk, CreditOk, FindReference;
    var failed := Step(b, Webhook(s, None));
    assert failed == WithStatus(b, p, PayoutStatus.Failed);
    SoundBoundsReferences(b);
    forall c | 0 <= c < |b.commissions| ensures b.commissions[c].payout != Some(p) {
      assert AttachRow(b.commissions[c], b.payouts);
    }
    FinalSend(failed, p);
    NobodyToPay(failed, p);
  }

  lemma NobodyToPay(b: Books, p: PayoutId)
    requires StatusIs(b, p, PayoutStatus.Failed) && b.payouts[p].net != 0 && ReferencesInRange(b)
    requires forall c :: 0 <= c < |b.commissions| ==> b.commissions[c].payout != Some(p)
    ensures var n := Step(b, Retrying(p, Accepted(Processed, None)));
            n.commissions == b.commissions && n.payouts[p].net == b.payouts[p].net
  {
    var s := |b.submissions|;
    var sent := WithReference(Submit(WithStatus(b, p, PayoutStatus.Approved), p, Processed), p, Entity(s));
    OnlyReference(sent.payouts, Entity(s), p, 0);
    hide FindReference;
    assert Rewritten(b.commissions, PayRow(p)) == b.commissions;
  }

  /** A retry the gateway does not answer, which then goes through: the money has gone, and no
      confirmation will ever find its payout. */
  lemma UnansweredRetryIsLost(b: Books, p: PayoutId)
    requires Sound(b) && StatusIs(b, p, PayoutStatus.Approved) && b.payouts[p].net != 0
    ensures var n := Step(Silenced(b, p), Resolving(|b.submissions| + 1, Processed));
            Sound(n) && Unconfirmable(n, p) && (FactHolds(b, p, ItsRequests) ==> FactHolds(n, p, ItsRequests))
  {
    hide Silenced, SilentRetry, Sound, Resolve, Unconfirmable, ReferencesInRange, FactHolds;
    AfterSilence(b, p);
    var s, n := |b.submissions|, SilentRetry(b, p);
    ResolveKeepsSound(n, s + 1, Processed);
    if FactHolds(b, p, ItsRequests) { ResolvingKeepsRequests(n, s + 1, Processed, p); }
    GoesThrough(b, p);
  }

  lemma GoesThrough(b: Books, p: PayoutId)
    requires StatusIs(b, p, PayoutStatus.Approved)
    ensures Unconfirmable(Resolve(SilentRetry(b, p), |b.submissions| + 1, Processed), p)
  {
    hide Unconfirmable;
    var s, n := |b.submissions|, SilentRetry(b, p);
    var gone := Resolve(n, s + 1, Processed);
    assert gone == n.(submissions := n.submissions[s + 1 := Submission(p, Processed)]);
    WrongReference(gone, p, s, s + 1);
  }

  lemma WrongReference(b: Books, p: PayoutId, s: SubmissionId, t: SubmissionId)
    requires StatusIs(b, p, PayoutStatus.Processing) && b.payouts[p].reference == Some(Entity(s))
    requires s < |b.submissions| && b.submissions[s].verdict == Refused
    requires t < |b.submissions| && b.submissions[t] == Submission(p, Processed)
    ensures Unconfirmable(b, p)
  {
  }
}
