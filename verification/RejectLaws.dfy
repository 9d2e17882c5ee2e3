/** Sending a batch back, whatever has happened since it was drafted. */
module RejectLaws {
  import opened Wrappers
  import opened Totals
  import opened Books
  import opened Deductions
  import opened PayoutBatch
  import opened Incentives
  import opened Reversal
  import opened Commissions
  import opened BatchLaws
  import opened MoneyInvariants
  import opened MoneySteps
  import opened MoneyRuns
  import opened DebtLaws

  // ---- what a draft takes and a rejection gives back ----

  /** What the Pros have taken from them grows by the draft's deduction, for its own Pro alone. */
  lemma DraftHoldsItsDeduction(b: Books, r: Request, pro: ProId)
    requires RowsOk(b.payouts, b.deductions) && Decide(b, r).Drafted?
    ensures RowsOk(Build(b, r).payouts, Build(b, r).deductions)
    ensures Total(Build(b, r).deductions, HeldOf(pro))
            == Total(b.deductions, HeldOf(pro)) + if r.pro == pro then Decide(b, r).draft.deduction else 0
  {
    BuildFacts(b, r);
    BuildWrites(b, r);
    var p, ds, lines, n := |b.payouts|, b.deductions, Decide(b, r).lines, Build(b, r);
    ClaimingMovesNoDebt(b, r, HeldBelow(pro, p));
    hide Decide, Build, ClaimLines, Total, RowOk, Claimable, Grown, Balanced;
    ClaimKeepsRows(b.payouts, ds, Decide(b, r).draft, lines);
    NobodyOwnsYet(b.payouts, ds);
    ClaimTakes(ds, lines, r.pro, p, p);
    HeldSplits(b.payouts, ds, pro, p);
    HeldSplits(n.payouts, n.deductions, pro, p);
    HeldByOne(b.payouts, ds, pro, p);
    HeldByOne(n.payouts, n.deductions, pro, p);
  }

  lemma HeldSplits(ps: seq<Payout>, ds: seq<Deduction>, pro: ProId, p: PayoutId)
    requires RowsOk(ps, ds) && |ps| <= p + 1
    ensures Total(ds, HeldOf(pro)) == Total(ds, HeldBelow(pro, p)) + Total(ds, HeldAt(pro, p))
  {
    forall i | 0 <= i < |ds| ensures HeldOf(pro)(ds[i]) == HeldBelow(pro, p)(ds[i]) + HeldAt(pro, p)(ds[i]) {
      assert RowOk(ds[i], ps);
    }
    TotalSplit(ds, HeldOf(pro), HeldBelow(pro, p), HeldAt(pro, p));
  }

  /** In every sound state: a draft takes from its Pro's outstanding debts exactly what it deducts,
      from nobody else's anything, and changes no job's total. */
  lemma DraftTakesItsDeduction(b: Books, r: Request, pro: ProId, c: CommissionId)
    requires Sound(b) && Decide(b, r).Drafted?
    ensures var n := Build(b, r);
            Total(n.deductions, OutstandingOf(pro))
            == Total(b.deductions, OutstandingOf(pro)) - (if r.pro == pro then Decide(b, r).draft.deduction else 0)
            && Total(n.deductions, AgainstJob(c)) == Total(b.deductions, AgainstJob(c))
  {
    hide Decide, Build, Total, Sound, RowsOk;
    SoundGives(b);
    ClaimingMovesNoDebt(b, r, AmountOf(pro));
    ClaimingMovesNoDebt(b, r, WaivedOf(pro));
    ClaimingMovesNoDebt(b, r, AgainstJob(c));
    DraftHoldsItsDeduction(b, r, pro);
    RowsAddUp(b.payouts, b.deductions, pro);
    RowsAddUp(Build(b, r).payouts, Build(b, r).deductions, pro);
  }

  /** In every sound state: a rejection gives the payout's Pro back exactly what the payout holds,
      and nobody else anything; every job's total stands, every key stays on its row, and exactly
      the rows attached to the payout are detached. */
  lemma RejectGivesBackWhatItHolds(b: Books, p: PayoutId, pro: ProId, c: CommissionId)
    requires Sound(b) && Rejectable(b, p)
    ensures var n := Reject(b, p);
            Total(n.deductions, OutstandingOf(pro))
            == Total(b.deductions, OutstandingOf(pro))
               + (if b.payouts[p].pro == pro then Total(b.deductions, ClaimedBy(p)) else 0)
            && Total(n.deductions, AgainstJob(c)) == Total(b.deductions, AgainstJob(c))
            && |n.deductions| == |b.deductions|
            && (forall i :: 0 <= i < |b.deductions| ==> n.deductions[i].key == b.deductions[i].key)
            && |n.commissions| == |b.commissions|
            && (forall i :: 0 <= i < |b.commissions| ==>
                  n.commissions[i] == if b.commissions[i].payout == Some(p) then b.commissions[i].(payout := None)
                                      else b.commissions[i])
  {
    SoundGives(b);
    ReleasingMoves(b, p, pro, c);
    HeldByOne(b.payouts, b.deductions, pro, p);
    RejectKeepsSound(b, p);
    SoundGives(Reject(b, p));
    hide Total, Sound, RowsOk;
    RowsAddUp(b.payouts, b.deductions, pro);
    RowsAddUp(Reject(b, p).payouts, Reject(b, p).deductions, pro);
  }

  /** Which is what it deducted, where it holds what it says. */
  lemma RejectGivesBackTheDeduction(b: Books, p: PayoutId, pro: ProId, c: CommissionId)
    requires Sound(b) && Holds(b, p) && Rejectable(b, p)
    ensures var n := Reject(b, p);
            Total(n.deductions, OutstandingOf(pro))
            == Total(b.deductions, OutstandingOf(pro)) + (if b.payouts[p].pro == pro then b.payouts[p].deduction else 0)
            && Total(n.deductions, AgainstJob(c)) == Total(b.deductions, AgainstJob(c))
            && |n.deductions| == |b.deductions|
            && (forall i :: 0 <= i < |b.deductions| ==> n.deductions[i].key == b.deductions[i].key)
            && |n.commissions| == |b.commissions|
            && (forall i :: 0 <= i < |b.commissions| ==>
                  n.commissions[i] == if b.commissions[i].payout == Some(p) then b.commissions[i].(payout := None)
                                      else b.commissions[i])
  {
    hide Sound, Reject, Total;
    RejectGivesBackWhatItHolds(b, p, pro, c);
  }

  lemma ReleasingMoves(b: Books, p: PayoutId, pro: ProId, c: CommissionId)
    requires RowsOk(b.payouts, b.deductions)
    ensures var ds := Rewritten(b.deductions, Release(p));
            Total(ds, AmountOf(pro)) == Total(b.deductions, AmountOf(pro))
            && Total(ds, WaivedOf(pro)) == Total(b.deductions, WaivedOf(pro))
            && Total(ds, AgainstJob(c)) == Total(b.deductions, AgainstJob(c))
            && Total(b.deductions, HeldOf(pro)) == Total(ds, HeldOf(pro)) + Total(b.deductions, HeldAt(pro, p))
  {
    hide Total;
    var was, ds := b.deductions, Rewritten(b.deductions, Release(p));
    var left := (d: Deduction) => HeldOf(pro)(Release(p)(d));
    forall i | 0 <= i < |ds|
      ensures WaivedOf(pro)(ds[i]) == WaivedOf(pro)(was[i])
      ensures HeldOf(pro)(was[i]) == left(was[i]) + HeldAt(pro, p)(was[i])
    {
      assert RowOk(was[i], b.payouts);
    }
    TotalPointwise(ds, was, AmountOf(pro), AmountOf(pro));
    TotalPointwise(ds, was, WaivedOf(pro), WaivedOf(pro));
    TotalPointwise(ds, was, AgainstJob(c), AgainstJob(c));
    TotalPointwise(ds, was, HeldOf(pro), left);
    TotalSplit(was, HeldOf(pro), left, HeldAt(pro, p));
  }

  // ---- between the two ----

  /** What a payout is for, and for how much, is settled when it is drafted. */
  lemma StepKeepsTerms(b: Books, e: Event, p: PayoutId)
    requires p < |b.payouts|
    ensures p < |Step(b, e).payouts| && SameTerms(b.payouts[p], Step(b, e).payouts[p])
  {
    hide Decide, ClaimLines, Reverse, RaiseOne, Record, WaiveOne;
    if Transfers(e) {
      TransfersTouch(b, e);
      hide Step;
    } else if Evaluates(e) {
      EvaluatingMovesOnlyIncentives(b, e);
      hide Step;
    } else if e.Reversing? {
      ReversalLeavesPayouts(b, e.commission);
    }
  }

  /** A row a draft took: still in it, or reversed out of it. */
  predicate TakenBy(b: Books, p: PayoutId, i: CommissionId) {
    i < |b.commissions|
    && (b.commissions[i].payout == Some(p) || b.commissions[i].status == CommissionStatus.Reversed)
  }

  lemma StepKeepsTaken(b: Books, e: Event, p: PayoutId, i: CommissionId)
    requires TakenBy(b, p, i) && p < |b.payouts|
    requires !StatusIs(Step(b, e), p, PayoutStatus.Rejected)
    ensures TakenBy(Step(b, e), p, i)
    ensures var was, now := b.commissions[i], Step(b, e).commissions[i];
            now.pro == was.pro && now.computedAt == was.computedAt
  {
    hide Decide, ClaimLines, Unwind, RaiseBonuses, RaiseOne, WaiveOne, NewCommission, HasRow;
    if Transfers(e) {
      TransfersTouch(b, e);
      hide Step;
    } else if Evaluates(e) {
      EvaluatingMovesOnlyIncentives(b, e);
      hide Step;
    }
  }

  lemma {:induction false} RunKeepsTaken(b: Books, es: seq<Event>, p: PayoutId, i: CommissionId)
    requires Sound(b) && FairRun(b, es, p, ItsRejection) && p < |b.payouts|
    requires TakenBy(b, p, i) && !StatusIs(Run(b, es), p, PayoutStatus.Rejected)
    ensures var n := Run(b, es);
            p < |n.payouts| && SameTerms(b.payouts[p], n.payouts[p]) && TakenBy(n, p, i)
            && n.commissions[i].pro == b.commissions[i].pro
            && n.commissions[i].computedAt == b.commissions[i].computedAt
    decreases |es|
  {
    if es != [] {
      var next := Step(b, es[0]);
      StepKeepsSound(b, es[0]);
      StepKeepsTerms(b, es[0], p);
      if StatusIs(next, p, PayoutStatus.Rejected) { RejectedIsForGood(next, es[1..], p); }
      hide Step, Fair, Sound, TakenBy;
      StepKeepsTaken(b, es[0], p, i);
      RunKeepsTaken(next, es[1..], p, i);
    }
  }

  lemma {:induction false} RunKeepsTerms(b: Books, es: seq<Event>, p: PayoutId)
    requires p < |b.payouts|
    ensures p < |Run(b, es).payouts| && SameTerms(b.payouts[p], Run(b, es).payouts[p])
    decreases |es|
  {
    if es != [] {
      StepKeepsTerms(b, es[0], p);
      hide Step;
      RunKeepsTerms(Step(b, es[0]), es[1..], p);
    }
  }

  lemma DraftTakes(b: Books, r: Request, i: CommissionId)
    requires Decide(b, r).Drafted? && i < |b.commissions| && Batchable(b.commissions[i], r.pro, r.cutoff)
    ensures TakenBy(Build(b, r), |b.payouts|, i)
    ensures Build(b, r).commissions[i].pro == r.pro && Build(b, r).commissions[i].computedAt < r.cutoff
  {
    hide Decide, ClaimLines;
  }

  lemma DraftHolds(b: Books, r: Request)
    requires Sound(b) && Decide(b, r).Drafted?
    ensures Holds(Build(b, r), |b.payouts|)
  {
    SoundGives(b);
    NobodyOwnsYet(b.payouts, b.deductions);
    hide Sound, Build, Total;
    BuildKeepsHolding(b, r, |b.payouts|);
  }

  /** Drafted, carried through any run that delivers no refusal to this payout while it is rejected
      with something deducted, approved on the way or not, and then rejected: the rejection moves
      every Pro's outstanding total by exactly what the draft moved it by, the other way. */
  lemma RejectionRestoresTheDebts(b: Books, r: Request, es: seq<Event>, pro: ProId)
    requires Sound(b) && Decide(b, r).Drafted? && FairRun(Build(b, r), es, |b.payouts|, ItsDeduction)
    requires Rejectable(Run(Build(b, r), es), |b.payouts|)
    ensures var before := Run(Build(b, r), es); var after := Reject(before, |b.payouts|);
            Total(after.deductions, OutstandingOf(pro)) - Total(before.deductions, OutstandingOf(pro))
            == Total(b.deductions, OutstandingOf(pro)) - Total(Build(b, r).deductions, OutstandingOf(pro))
  {
    hide Decide, Build, Run, FairRun, Total, Sound, Reject, Outstanding, Holds;
    var p, before := |b.payouts|, Run(Build(b, r), es);
    BuildKeepsSound(b, r);
    DraftHolds(b, r);
    RunKeepsSound(Build(b, r), es);
    assert FactHolds(Build(b, r), p, ItsDeduction);
    RunKeeps(Build(b, r), es, p, ItsDeduction);
    assert FactHolds(before, p, ItsDeduction);
    DraftedTerms(b, r);
    RunKeepsTerms(Build(b, r), es, p);
    DraftTakesItsDeduction(b, r, pro, 0);
    RejectGivesBackTheDeduction(before, p, pro, 0);
  }

  /** And, if no refusal reaches it while rejected, every commission row the draft took can be
      batched again, unless it was reversed. */
  lemma RejectionRestoresTheRows(b: Books, r: Request, es: seq<Event>, i: CommissionId)
    requires Sound(b) && Decide(b, r).Drafted? && FairRun(Build(b, r), es, |b.payouts|, ItsRejection)
    requires Rejectable(Run(Build(b, r), es), |b.payouts|)
    requires i < |b.commissions| && Batchable(b.commissions[i], r.pro, r.cutoff)
    ensures var after := Reject(Run(Build(b, r), es), |b.payouts|).commissions;
            i < |after|
            && (Batchable(after[i], r.pro, r.cutoff) <==> after[i].status != CommissionStatus.Reversed)
  {
    var p := |b.payouts|;
    DraftedTerms(b, r);
    DraftTakes(b, r, i);
    hide Decide, Build, Run, FairRun, Sound;
    BuildKeepsSound(b, r);
    RunKeepsSound(Build(b, r), es);
    RunKeepsTaken(Build(b, r), es, p, i);
    var before := Run(Build(b, r), es);
    if before.commissions[i].payout == Some(p) { AttachedToRejectable(before, p, i); }
  }

  lemma DraftedTerms(b: Books, r: Request)
    requires Decide(b, r).Drafted?
    ensures Build(b, r).payouts == b.payouts + [Decide(b, r).draft] && Decide(b, r).draft.pro == r.pro
  {
    hide Plan, Queue, CommissionTotal, IncentiveTotal, AnyBatchable;
  }

  /** A row in a payout that can still be rejected is approved and unreversed. */
  lemma AttachedToRejectable(b: Books, p: PayoutId, i: CommissionId)
    requires Sound(b) && Rejectable(b, p) && i < |b.commissions| && b.commissions[i].payout == Some(p)
    ensures b.commissions[i].status == CommissionStatus.Approved && !b.commissions[i].reversed
  {
    assert AttachRow(b.commissions[i], b.payouts);
  }
}
