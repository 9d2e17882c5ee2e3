/** A reversal recovers exactly once, however often it is asked for and whatever happens between. */
module ReversalLaws {
  import opened Wrappers
  import opened Totals
  import opened Books
  import opened Deductions
  import opened PayoutBatch
  import opened Incentives
  import opened Reversal
  import opened Commissions
  import opened MoneyInvariants
  import opened MoneySteps
  import opened MoneyRuns
  import opened DebtLaws

  /** A bonus about to be unwound whose progress row already was once: its key is taken. */
  predicate AlreadyUnwound(b: Books, c: CommissionId) {
    var bonuses := BonusesOf(b.progress, c);
    exists k :: 0 <= k < |bonuses| && bonuses[k].reward > 0 && HasKey(b.deductions, UnwindOf(bonuses[k].progress))
  }

  lemma {:induction false} LessIsNewlyOwed(bonuses: seq<Bonus>, ds: seq<Deduction>)
    ensures Total(bonuses, NewDebt(ds)) <= Total(bonuses, Reward)
    ensures Total(bonuses, NewDebt(ds)) == Total(bonuses, Reward) <==>
              forall k :: 0 <= k < |bonuses| && bonuses[k].reward > 0 ==> !HasKey(ds, UnwindOf(bonuses[k].progress))
  {
    hide HasKey;
    if bonuses != [] {
      LessIsNewlyOwed(bonuses[1..], ds);
      forall k | 0 <= k < |bonuses[1..]| ensures bonuses[1..][k] == bonuses[k + 1] {}
    }
  }

  /** An unpaid commission is dropped without a debt. A paid one raises its commission and
      every bonus won on it, in full exactly when no progress row involved was unwound before. */
  lemma ReversalRecovers(b: Books, c: CommissionId, pro: ProId)
    requires Sound(b) && Reversible(b, c)
    ensures !WasPaid(b, c) ==> Reverse(b, c).deductions == b.deductions
    ensures WasPaid(b, c) && b.commissions[c].pro == pro ==>
              Total(Reverse(b, c).deductions, AmountOf(pro)) - Total(b.deductions, AmountOf(pro)) == Recovered(b, c)
    ensures Recovered(b, c) == b.commissions[c].amount + Total(BonusesOf(b.progress, c), Reward)
            <==> !AlreadyUnwound(b, c)
  {
    LessIsNewlyOwed(BonusesOf(b.progress, c), b.deductions);
    UnwindTouchesOnlyProgress(b, c);
    if WasPaid(b, c) && b.commissions[c].pro == pro { ReversalRaises(b, c, AmountOf(pro)); }
  }

  // ---- dropped rows ----

  predicate IsDropped(b: Books, c: CommissionId) {
    c < |b.commissions| && b.commissions[c].status == CommissionStatus.Reversed
    && b.commissions[c].reversed && b.commissions[c].payout == None
  }

  lemma DroppedStep(b: Books, e: Event, c: CommissionId)
    requires IsDropped(b, c)
    ensures IsDropped(Step(b, e), c)
  {
    hide Decide, ClaimLines, RaiseBonuses, RaiseOne, WaiveOne, Unwind, NewCommission, HasRow;
    if Transfers(e) {
      TransfersTouch(b, e);
      hide Step;
    } else if Evaluates(e) {
      EvaluatingMovesOnlyIncentives(b, e);
      hide Step;
    }
  }

  /** Once dropped, a commission is in no payout and stays out of every later one. */
  lemma {:induction false} DroppedIsNeverPaid(b: Books, es: seq<Event>, c: CommissionId)
    requires IsDropped(b, c)
    ensures IsDropped(Run(b, es), c)
    decreases |es|
  {
    hide IsDropped, Step;
    if es != [] {
      DroppedStep(b, es[0], c);
      DroppedIsNeverPaid(Step(b, es[0]), es[1..], c);
    }
  }

  lemma ReversingDrops(b: Books, c: CommissionId)
    requires Reversible(b, c) && !WasPaid(b, c)
    ensures IsDropped(Reverse(b, c), c)
  {
  }

  /** A commission reversed before it was paid sits in no payout in any later run, so is never
      paid. */
  lemma ReversedUnpaidIsNeverPaid(b: Books, c: CommissionId, es: seq<Event>)
    requires Reversible(b, c) && !WasPaid(b, c)
    ensures var n := Run(Reverse(b, c), es);
            c < |n.commissions| && n.commissions[c].status == CommissionStatus.Reversed
            && n.commissions[c].payout == None
  {
    ReversingDrops(b, c);
    DroppedIsNeverPaid(Reverse(b, c), es, c);
    hide Run, Reverse;
  }

  // ---- repeat calls ----

  predicate IsReversed(b: Books, c: CommissionId) { c < |b.commissions| && b.commissions[c].reversed }

  lemma ReversedStep(b: Books, e: Event, c: CommissionId)
    requires IsReversed(b, c)
    ensures IsReversed(Step(b, e), c)
  {
    hide Decide, ClaimLines, RaiseBonuses, RaiseOne, WaiveOne, Unwind, NewCommission, HasRow;
    if Transfers(e) {
      TransfersTouch(b, e);
      hide Step;
    } else if Evaluates(e) {
      EvaluatingMovesOnlyIncentives(b, e);
      hide Step;
    }
  }

  /** No step changes what stands recorded against a commission already reversed: batches that
      split or release those debts, waivers, and other reversals included. */
  lemma RecordStands(b: Books, e: Event, c: CommissionId)
    requires Sound(b) && IsReversed(b, c)
    ensures Total(Step(b, e).deductions, RaisedFor(c)) == Total(b.deductions, RaisedFor(c))
  {
    SoundGives(b);
    hide Sound, RowsOk, KeyOk, Total, RaiseBonuses, Unwind, HasKey;
    var w := RaisedFor(c);
    if e.Raising? {
      TotalAppend(b.deductions, NewRow(ManualClaim(e.pro, e.amount, e.source)), w);
    } else if e.Reversing? {
      if Reversible(b, e.commission) {
        hide Reverse;
        OthersReversal(b, e.commission, w);
      }
    } else {
      MovingIsNotRaising(b, e, w);
      hide Step;
    }
  }

  /** Nor does any run, however its failures are delivered. */
  lemma {:induction false} RecordStandsThroughout(b: Books, es: seq<Event>, c: CommissionId)
    requires Sound(b) && IsReversed(b, c)
    ensures Sound(Run(b, es)) && IsReversed(Run(b, es), c)
    ensures Total(Run(b, es).deductions, RaisedFor(c)) == Total(b.deductions, RaisedFor(c))
    decreases |es|
  {
    hide Sound, Step, Total, IsReversed;
    if es != [] {
      StepKeepsSound(b, es[0]);
      ReversedStep(b, es[0], c);
      RecordStands(b, es[0], c);
      RecordStandsThroughout(Step(b, es[0]), es[1..], c);
    }
  }

  lemma AnyMeansSome(ps: seq<Payout>, ds: seq<Deduction>, c: CommissionId)
    requires RowsOk(ps, ds)
    ensures AnyRaisedFor(ds, c) <==> Total(ds, RaisedFor(c)) > 0
    ensures Total(ds, RaisedFor(c)) >= 0
  {
    hide Total;
    forall i | 0 <= i < |ds| ensures RaisedFor(c)(ds[i]) >= 0 && ds[i].amount > 0 { assert RowOk(ds[i], ps); }
    TotalNonNegative(ds, RaisedFor(c));
    if AnyRaisedFor(ds, c) {
      var i :| 0 <= i < |ds| && ds[i].source == Some(c) && Automatic(ds[i].kind);
      assert RaisedFor(c)(ds[i]) > 0;
    } else {
      TotalZero(ds, RaisedFor(c));
    }
  }

  /** The first answer can be told again word for word: nothing was paid, or something positive
      was charged and no bonus involved had been unwound before. */
  predicate Repeatable(b: Books, c: CommissionId)
    requires c < |b.commissions|
  {
    !WasPaid(b, c)
    || (!AlreadyUnwound(b, c) && b.commissions[c].amount + Total(BonusesOf(b.progress, c), Reward) > 0)
  }

  lemma ReversalRecords(b: Books, c: CommissionId)
    requires Sound(b) && Reversible(b, c)
    ensures Total(Reverse(b, c).deductions, RaisedFor(c)) == if WasPaid(b, c) then Recovered(b, c) else 0
    ensures IsReversed(Reverse(b, c), c)
  {
    UnreversedHasNoDebts(b, c);
    UnwindTouchesOnlyProgress(b, c);
    hide Sound, Total, Unwind, RaiseBonuses;
    if WasPaid(b, c) { ReversalRaises(b, c, RaisedFor(c)); }
  }

  /** Asked again after any run, a reversal changes nothing; and it reports the same
      effect and total exactly when the first answer was repeatable. */
  lemma RepeatedReversalAgrees(b: Books, c: CommissionId, es: seq<Event>)
    requires Sound(b) && Reversible(b, c)
    ensures var later := Run(Reverse(b, c), es);
            Reverse(later, c) == later
            && (Report(later, c) == Report(b, c) <==> Repeatable(b, c))
  {
    ReverseKeepsSound(b, c);
    ReversalRecords(b, c);
    RecordStandsThroughout(Reverse(b, c), es, c);
    var later := Run(Reverse(b, c), es);
    ReversalRecovers(b, c, b.commissions[c].pro);
    hide Reverse, Run, Recovered, AlreadyUnwound, AnyRaisedFor, Total;
    SoundGives(later);
    hide Sound;
    AnyMeansSome(later.payouts, later.deductions, c);
    LessIsNewlyOwed(BonusesOf(b.progress, c), b.deductions);
    assert Reverse(later, c) == later by { ReversedIsDone(later, c); }
  }

  lemma ReversedIsDone(b: Books, c: CommissionId)
    requires IsReversed(b, c)
    ensures Reverse(b, c) == b
  {
  }
}
