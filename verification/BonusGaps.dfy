/** Bonuses that slip through: won again and not recovered, won late and never paid. */
module BonusGaps {
  import opened Wrappers
  import opened Totals
  import opened Books
  import opened Deductions
  import opened PayoutBatch
  import opened Incentives
  import opened IncentivePeriods
  import opened Reversal
  import opened Commissions
  import opened MoneyInvariants
  import opened MoneySteps
  import opened MoneyRuns
  import opened DebtLaws
  import opened ReversalLaws

  // ---- won again ----

  lemma {:induction false} RaisingTakesTheKeys(ds: seq<Deduction>, pro: ProId, c: CommissionId, bonuses: seq<Bonus>,
                                               key: DedupeKey)
    requires HasKey(ds, key) || exists k :: 0 <= k < |bonuses| && bonuses[k].reward > 0
                                            && key == UnwindOf(bonuses[k].progress)
    ensures HasKey(RaiseBonuses(ds, pro, c, bonuses), key)
    decreases |bonuses|
  {
    if bonuses != [] {
      var claim, rest := BonusClaim(pro, c, bonuses[0]), bonuses[1..];
      RaisingKeepsKey(ds, claim, key);
      hide HasKey, RaiseOne;
      if !HasKey(RaiseOne(ds, claim), key) {
        var k :| 0 <= k < |bonuses| && bonuses[k].reward > 0 && key == UnwindOf(bonuses[k].progress);
        assert rest[k - 1] == bonuses[k];
      }
      RaisingTakesTheKeys(RaiseOne(ds, claim), pro, c, rest, key);
    }
  }

  lemma RaisingKeepsKey(ds: seq<Deduction>, c: Claim, key: DedupeKey)
    ensures HasKey(ds, key) || (c.key == Some(key) && c.amount > 0) ==> HasKey(RaiseOne(ds, c), key)
  {
    hide HasKey;
    HasKeyIs(ds, key);
    HasKeyIs(RaiseOne(ds, c), key);
    if HasKey(ds, key) {
      var i :| 0 <= i < |ds| && ds[i].key == Some(key);
      assert RaiseOne(ds, c)[i] == ds[i];
    } else if c.key == Some(key) && c.amount > 0 {
      assert RaiseOne(ds, c)[|ds|].key == Some(key);
    }
  }

  /** The evaluation finds the bonus of its row won, and hangs it off `c`. */
  predicate Wins(b: Books, e: Evaluation, p: ProgressId, c: CommissionId) {
    Evaluable(e) && p < |b.progress| && RowOf(b, e) == p && b.progress[p].credit.None?
    && e.trigger == Some(c) && Names(DerivedFor(b.commissions, e), c)
    && var derived := DerivedFor(b.commissions, e);
       Evaluate(e.scheme.criteria, |derived|, DerivedTotal(derived)).Some?
       && Evaluate(e.scheme.criteria, |derived|, DerivedTotal(derived)).value.achieved
  }

  lemma WinningCredits(b: Books, e: Evaluation, p: ProgressId, c: CommissionId)
    requires Wins(b, e, p, c)
    ensures var n := EvaluateOne(b, e);
            n.deductions == b.deductions && p < |n.progress| && CreditedTo(n.progress[p], c)
            && n.progress[p].credit.value.reward == e.scheme.reward
            && |n.commissions| == |b.commissions| && c < |b.commissions|
            && n.commissions[c].status == b.commissions[c].status
            && n.commissions[c].reversed == b.commissions[c].reversed
  {
    hide PeriodFor, Sync, DerivedFor, DerivedTotal, Evaluate;
    UpsertFinds(b.progress, e.pro, e.scheme.id, PeriodFor(e.scheme.recurrence, e.at).key);
  }

  lemma ReversingTakesTheKey(b: Books, c: CommissionId, p: ProgressId)
    requires Reversible(b, c) && WasPaid(b, c)
    requires p < |b.progress| && CreditedTo(b.progress[p], c) && b.progress[p].credit.value.reward > 0
    ensures HasKey(Reverse(b, c).deductions, UnwindOf(p))
  {
    hide HasKey, RaiseOne, RaiseBonuses, Unwind;
    BonusesAreComplete(b.progress, c, 0, p);
    var raised := RaiseOne(b.deductions, CommissionClaim(b.commissions[c], c));
    RaisingTakesTheKeys(raised, b.commissions[c].pro, c, BonusesOf(b.progress, c), UnwindOf(p));
  }

  /** A bonus that rode on a paid job `first` is charged back with it, and its row is free again.
      Won once more on another paid job `second` (one that was paid before), it is charged back no
      second time: reversing `second` raises less than it reports, and asked again reports less. */
  lemma BonusWonAgainIsNotRecovered(b: Books, first: CommissionId, second: CommissionId, p: ProgressId, e: Evaluation)
    requires Sound(b) && first != second
    requires Reversible(b, first) && WasPaid(b, first) && Reversible(b, second) && WasPaid(b, second)
    requires p < |b.progress| && CreditedTo(b.progress[p], first) && b.progress[p].credit.value.reward > 0
    requires Wins(Reverse(b, first), e, p, second) && e.scheme.reward > 0
    ensures var n := EvaluateOne(Reverse(b, first), e);
            Sound(n) && Reversible(n, second) && WasPaid(n, second) && AlreadyUnwound(n, second)
            && Recovered(n, second) < n.commissions[second].amount + Total(BonusesOf(n.progress, second), Reward)
            && Report(Reverse(n, second), second) != Report(n, second)
  {
    var r := Reverse(b, first);
    var n := EvaluateOne(r, e);
    ReversingTakesTheKey(b, first, p);
    WinningCredits(r, e, p, second);
    ReverseKeepsSound(b, first);
    EvaluationKeeps(r, e);
    ReversingSpares(b, first, second);
    hide Reverse, EvaluateOne, Wins, Sound, HasKey;
    BonusesAreComplete(n.progress, second, 0, p);
    assert AlreadyUnwound(n, second);
    ReversalRecovers(n, second, 0);
    LessIsNewlyOwed(BonusesOf(n.progress, second), n.deductions);
    RepeatedReversalAgrees(n, second, []);
  }

  lemma ReversingSpares(b: Books, c: CommissionId, other: CommissionId)
    requires c != other && other < |b.commissions|
    ensures other < |Reverse(b, c).commissions| && Reverse(b, c).commissions[other] == b.commissions[other]
  {
    hide RaiseOne, RaiseBonuses;
  }

  // ---- won late ----

  /** A paid row in a paid payout. */
  predicate IsPaidIn(b: Books, c: CommissionId, p: PayoutId) {
    c < |b.commissions| && b.commissions[c].payout == Some(p) && b.commissions[c].status == CommissionStatus.Paid
    && StatusIs(b, p, PayoutStatus.Paid)
  }

  lemma PaidStep(b: Books, e: Event, c: CommissionId, p: PayoutId)
    requires IsPaidIn(b, c, p)
    ensures IsPaidIn(Step(b, e), c, p) && Step(b, e).payouts[p] == b.payouts[p]
  {
    hide Decide, ClaimLines, RaiseBonuses, RaiseOne, WaiveOne, Unwind, NewCommission, HasRow;
    if Transfers(e) {
      TransfersTouch(b, e);
      hide Step;
    } else if Evaluates(e) {
      EvaluatingMovesOnlyIncentives(b, e);
      hide Step;
    } else if e.Reversing? {
      ReversalLeavesPayouts(b, e.commission);
    }
  }

  /** Paid is for good: in every later run the row stays in its payout, and the payout as it was. */
  lemma {:induction false} PaidIsForGood(b: Books, es: seq<Event>, c: CommissionId, p: PayoutId)
    requires IsPaidIn(b, c, p)
    ensures IsPaidIn(Run(b, es), c, p) && Run(b, es).payouts[p] == b.payouts[p]
    decreases |es|
  {
    hide Step, IsPaidIn;
    if es != [] {
      PaidStep(b, es[0], c, p);
      PaidIsForGood(Step(b, es[0]), es[1..], c, p);
    }
  }

  lemma {:induction false} WinningAddsABonus(ps: seq<Progress>, p: ProgressId, won: Progress, c: CommissionId,
                                             w: Bonus -> int, from: nat)
    requires from <= |ps| && p < |ps| && ps[p].credit.None? && CreditedTo(won, c)
    ensures Total(BonusesOf(ps[p := won], c, from), w)
            == Total(BonusesOf(ps, c, from), w) + if from <= p then w(Bonus(p, won.credit.value.reward)) else 0
    decreases |ps| - from
  {
    if from < |ps| {
      WinningAddsABonus(ps, p, won, c, w, from + 1);
    }
  }

  /** A bonus won on a job already paid is charged back in full when the job is reversed... */
  lemma LateBonusIsOwedBack(b: Books, a: Award, pro: ProId)
    requires Sound(b) && Creditable(b, a) && Reversible(b, a.commission) && WasPaid(b, a.commission)
    requires b.commissions[a.commission].pro == pro && !HasKey(b.deductions, UnwindOf(a.progress))
    ensures var won := Credited(b, a);
            Total(Reverse(won, a.commission).deductions, AmountOf(pro))
            == Total(Reverse(b, a.commission).deductions, AmountOf(pro)) + a.reward
  {
    var won := Credited(b, a);
    CreditKeepsSound(b, a);
    WinningAddsABonus(b.progress, a.progress, won.progress[a.progress], a.commission, NewDebt(b.deductions), 0);
    hide Sound, HasKey, Total, BonusesOf, Reverse;
    ReversalRecovers(b, a.commission, pro);
    ReversalRecovers(won, a.commission, pro);
  }

  /** ...though no payout ever pays it: the row stays where it is in every run, in a payout whose
      amounts were settled before the bonus was won. */
  lemma LateBonusIsNeverPaid(b: Books, a: Award, p: PayoutId, es: seq<Event>)
    requires Creditable(b, a) && IsPaidIn(b, a.commission, p)
    ensures var n := Run(Step(b, Crediting(a)), es);
            p < |n.payouts| && n.payouts[p] == b.payouts[p] && IsPaidIn(n, a.commission, p)
  {
    PaidStep(b, Crediting(a), a.commission, p);
    hide Step;
    PaidIsForGood(Step(b, Crediting(a)), es, a.commission, p);
  }

  // ---- won on a job already dropped ----

  predicate IsCredited(b: Books, p: ProgressId, credit: Credit) {
    p < |b.progress| && b.progress[p].credit == Some(credit)
  }

  lemma {:induction false} CreditToADroppedJobStays(b: Books, es: seq<Event>, p: ProgressId, credit: Credit)
    requires IsDropped(b, credit.commission) && IsCredited(b, p, credit)
    ensures IsDropped(Run(b, es), credit.commission) && IsCredited(Run(b, es), p, credit)
    decreases |es|
  {
    if es != [] {
      DroppedStep(b, es[0], credit.commission);
      CreditStaysUntilUnwound(b, es[0], p);
      hide Step, IsDropped;
      CreditToADroppedJobStays(Step(b, es[0]), es[1..], p, credit);
    }
  }

  /** An evaluation that read a job before it was reversed, and credits it after: the bonus counts
      as won in every later run, on a row no payout ever pays and no reversal ever clears. */
  lemma CreditAfterReversalIsLost(b: Books, a: Award, es: seq<Event>)
    requires Creditable(b, a) && IsDropped(b, a.commission)
    ensures var n := Run(Step(b, Crediting(a)), es);
            IsDropped(n, a.commission) && IsCredited(n, a.progress, Credit(a.reward, a.commission, a.at))
  {
    var credit := Credit(a.reward, a.commission, a.at);
    DroppedStep(b, Crediting(a), a.commission);
    assert IsCredited(Step(b, Crediting(a)), a.progress, credit);
    hide Step, IsDropped;
    CreditToADroppedJobStays(Step(b, Crediting(a)), es, a.progress, credit);
  }
}
