/** Debts over whole runs: nothing is forgiven, taken twice, or lost when a batch is sent back. */
module DebtLaws {
  import opened Wrappers
  import opened Totals
  import opened Books
  import opened Deductions
  import opened PayoutBatch
  import opened Incentives
  import opened Reversal
  import opened BatchLaws
  import opened MoneyInvariants
  import opened MoneySteps
  import opened MoneyRuns

  // ---- the weights a debt can have ----

  function AmountOf(pro: ProId): Deduction -> int {
    (d: Deduction) => if d.pro == pro then d.amount else 0
  }

  function OutstandingOf(pro: ProId): Deduction -> int {
    (d: Deduction) => if Outstanding(d, pro) then StillOwed(d) else 0
  }

  function WaivedOf(pro: ProId): Deduction -> int {
    (d: Deduction) => if d.pro == pro && d.waived then StillOwed(d) else 0
  }

  function HeldOf(pro: ProId): Deduction -> int {
    (d: Deduction) => if d.pro == pro && d.owner.Some? then d.consumed else 0
  }

  /** What a live payout of the Pro says it deducted. */
  function DeductedFor(pro: ProId): Payout -> int {
    (p: Payout) => if p.pro == pro then Claims(p) else 0
  }

  /** The unwaived debts raised against one job, as the job's own row shows them. */
  function AgainstJob(c: CommissionId): Deduction -> int {
    (d: Deduction) => if d.source == Some(c) && !d.waived then d.amount else 0
  }

  // ---- who holds what ----

  function HeldBelow(pro: ProId, k: nat): Deduction -> int {
    (d: Deduction) => if d.pro == pro && d.owner.Some? && d.owner.value < k then d.consumed else 0
  }

  function HeldAt(pro: ProId, k: nat): Deduction -> int {
    (d: Deduction) => if d.pro == pro && d.owner == Some(k) then d.consumed else 0
  }

  lemma HeldByOne(ps: seq<Payout>, ds: seq<Deduction>, pro: ProId, p: PayoutId)
    requires RowsOk(ps, ds)
    ensures Total(ds, HeldAt(pro, p)) == if p < |ps| && ps[p].pro == pro then Total(ds, ClaimedBy(p)) else 0
  {
    if p < |ps| && ps[p].pro == pro {
      forall i | 0 <= i < |ds| ensures HeldAt(pro, p)(ds[i]) == ClaimedBy(p)(ds[i]) { assert RowOk(ds[i], ps); }
      TotalPointwise(ds, ds, HeldAt(pro, p), ClaimedBy(p));
    } else {
      forall i | 0 <= i < |ds| ensures HeldAt(pro, p)(ds[i]) == 0 { assert RowOk(ds[i], ps); }
      TotalZero(ds, HeldAt(pro, p));
    }
  }

  /** Counting the held debts by payout or by row gives the same total. */
  lemma {:induction false} HeldIsDeducted(ps: seq<Payout>, ds: seq<Deduction>, pro: ProId, k: nat)
    requires DebtOk(ps, ds) && k <= |ps|
    ensures Total(ps[..k], DeductedFor(pro)) == Total(ds, HeldBelow(pro, k))
  {
    hide Total;
    if k == 0 {
      TotalZero(ds, HeldBelow(pro, 0));
      TotalZero(ps[..0], DeductedFor(pro));
    } else {
      HeldIsDeducted(ps, ds, pro, k - 1);
      assert ps[..k] == ps[..k - 1] + [ps[k - 1]];
      TotalAppend(ps[..k - 1], ps[k - 1], DeductedFor(pro));
      TotalSplit(ds, HeldBelow(pro, k), HeldBelow(pro, k - 1), HeldAt(pro, k - 1));
      HeldByOne(ps, ds, pro, k - 1);
    }
  }

  function OwedOrWaived(pro: ProId): Deduction -> int {
    (d: Deduction) => if d.pro == pro && (d.waived || !d.settled) then StillOwed(d) else 0
  }

  /** Every rupee of debt is outstanding, waived, or taken by the one live payout that owns its row. */
  lemma RowsAddUp(ps: seq<Payout>, ds: seq<Deduction>, pro: ProId)
    requires RowsOk(ps, ds)
    ensures Total(ds, AmountOf(pro))
            == Total(ds, OutstandingOf(pro)) + Total(ds, WaivedOf(pro)) + Total(ds, HeldOf(pro))
  {
    hide Total;
    forall i | 0 <= i < |ds| ensures AmountOf(pro)(ds[i]) == OwedOrWaived(pro)(ds[i]) + HeldOf(pro)(ds[i]) {
      assert RowOk(ds[i], ps);
    }
    TotalSplit(ds, AmountOf(pro), OwedOrWaived(pro), HeldOf(pro));
    TotalSplit(ds, OwedOrWaived(pro), OutstandingOf(pro), WaivedOf(pro));
  }

  /** And what is taken is what the live payouts say they deducted. */
  lemma DebtsAddUp(ps: seq<Payout>, ds: seq<Deduction>, pro: ProId)
    requires DebtOk(ps, ds)
    ensures Total(ds, HeldOf(pro)) == Total(ps, DeductedFor(pro))
    ensures Total(ds, AmountOf(pro))
            == Total(ds, OutstandingOf(pro)) + Total(ds, WaivedOf(pro)) + Total(ps, DeductedFor(pro))
  {
    hide Total;
    forall i | 0 <= i < |ds| ensures HeldOf(pro)(ds[i]) == HeldBelow(pro, |ps|)(ds[i]) { assert RowOk(ds[i], ps); }
    RowsAddUp(ps, ds, pro);
    TotalPointwise(ds, ds, HeldOf(pro), HeldBelow(pro, |ps|));
    HeldIsDeducted(ps, ds, pro, |ps|);
    assert ps[..|ps|] == ps;
  }

  // ---- what a reversal raises ----

  /** What a bonus still adds: nothing once its progress row has been unwound before. */
  function NewDebt(ds: seq<Deduction>): Bonus -> int {
    (x: Bonus) => if HasKey(ds, UnwindOf(x.progress)) then 0 else x.reward
  }

  lemma HasKeyIs(ds: seq<Deduction>, key: DedupeKey)
    ensures HasKey(ds, key) <==> exists i :: 0 <= i < |ds| && ds[i].key == Some(key)
  {
  }

  lemma RaiseKeepsOtherKeys(ds: seq<Deduction>, c: Claim, key: DedupeKey)
    requires c.key != Some(key)
    ensures HasKey(RaiseOne(ds, c), key) <==> HasKey(ds, key)
  {
    hide HasKey, Fresh;
    HasKeyIs(ds, key);
    HasKeyIs(RaiseOne(ds, c), key);
    if Fresh(ds, c) {
      var grown := ds + [NewRow(c)];
      forall i | 0 <= i < |ds| ensures grown[i] == ds[i] {}
    }
  }

  lemma {:induction false} BonusesRaise(ds: seq<Deduction>, pro: ProId, c: CommissionId, bonuses: seq<Bonus>,
                                        w: Deduction -> int)
    requires forall j, k :: 0 <= j < k < |bonuses| ==> bonuses[j].progress != bonuses[k].progress
    requires forall x: Bonus :: w(NewRow(BonusClaim(pro, c, x))) == x.reward
    ensures Total(RaiseBonuses(ds, pro, c, bonuses), w) == Total(ds, w) + Total(bonuses, NewDebt(ds))
    decreases |bonuses|
  {
    if bonuses != [] {
      hide HasKey;
      var first, rest := bonuses[0], bonuses[1..];
      var claim := BonusClaim(pro, c, first);
      var next := RaiseOne(ds, claim);
      if Fresh(ds, claim) { TotalAppend(ds, NewRow(claim), w); }
      BonusesRaise(next, pro, c, rest, w);
      forall k | 0 <= k < |rest| ensures NewDebt(next)(rest[k]) == NewDebt(ds)(rest[k]) {
        assert bonuses[0].progress != bonuses[k + 1].progress;
        RaiseKeepsOtherKeys(ds, claim, UnwindOf(rest[k].progress));
      }
      TotalPointwise(rest, rest, NewDebt(next), NewDebt(ds));
    }
  }

  /** What reversing an already paid commission adds to the Pro's debts. */
  function Recovered(b: Books, c: CommissionId): int
    requires c < |b.commissions|
  {
    b.commissions[c].amount + Total(BonusesOf(b.progress, c), NewDebt(b.deductions))
  }

  lemma UnreversedHasNoDebts(b: Books, c: CommissionId)
    requires KeyOk(b.deductions, b.commissions) && Reversible(b, c)
    ensures !HasKey(b.deductions, ReversalOf(c))
    ensures Total(b.deductions, RaisedFor(c)) == 0 && !AnyRaisedFor(b.deductions, c)
  {
    HasKeyIs(b.deductions, ReversalOf(c));
    forall i | 0 <= i < |b.deductions|
      ensures b.deductions[i].key != Some(ReversalOf(c)) && RaisedFor(c)(b.deductions[i]) == 0
    {
      assert KeyFits(b.deductions[i]);
    }
    TotalZero(b.deductions, RaisedFor(c));
  }

  /** A paid reversal raises its commission and the new bonuses, under any weight that counts
      the rows it writes in full. */
  lemma ReversalRaises(b: Books, c: CommissionId, w: Deduction -> int)
    requires KeyOk(b.deductions, b.commissions) && Reversible(b, c) && WasPaid(b, c)
    requires w(NewRow(CommissionClaim(b.commissions[c], c))) == b.commissions[c].amount
    requires forall x: Bonus :: w(NewRow(BonusClaim(b.commissions[c].pro, c, x))) == x.reward
    ensures Total(Reverse(b, c).deductions, w) == Total(b.deductions, w) + Recovered(b, c)
  {
    UnreversedHasNoDebts(b, c);
    hide KeyOk, HasKey, Unwind, Total;
    var row := b.commissions[c];
    var claim := CommissionClaim(row, c);
    var bonuses := BonusesOf(b.progress, c);
    var next := RaiseOne(b.deductions, claim);
    if row.amount > 0 { TotalAppend(b.deductions, NewRow(claim), w); }
    BonusesRaise(next, row.pro, c, bonuses, w);
    forall k | 0 <= k < |bonuses| ensures NewDebt(next)(bonuses[k]) == NewDebt(b.deductions)(bonuses[k]) {
      RaiseKeepsOtherKeys(b.deductions, claim, UnwindOf(bonuses[k].progress));
    }
    TotalPointwise(bonuses, bonuses, NewDebt(next), NewDebt(b.deductions));
  }

  // ---- conservation ----

  /** The debt a step raises, told from the step and the state it starts in. */
  function RaisedBy(b: Books, e: Event, pro: ProId): int {
    match e
    case Raising(q, amount, _) => if q == pro && amount > 0 then amount else 0
    case Reversing(c) =>
      if Reversible(b, c) && WasPaid(b, c) && b.commissions[c].pro == pro then Recovered(b, c) else 0
    case _ => 0
  }

  function RaisedOver(b: Books, es: seq<Event>, pro: ProId): int
    decreases |es|
  {
    if es == [] then 0 else RaisedBy(b, es[0], pro) + RaisedOver(Step(b, es[0]), es[1..], pro)
  }

  lemma ClaimingMovesNoDebt(b: Books, r: Request, w: Deduction -> int)
    requires RowsOk(b.payouts, b.deductions) && Splits(w, |b.payouts|)
    ensures Total(Build(b, r).deductions, w) == Total(b.deductions, w)
  {
    if Decide(b, r).Drafted? {
      BuildFacts(b, r);
      hide Decide, ClaimLines, RowsOk, Total;
      ClaimKeepsTotal(b.deductions, Decide(b, r).lines, r.pro, |b.payouts|, w);
    }
  }

  /** A weight that sees neither who holds a row nor whether it is waived. */
  ghost predicate Steady(w: Deduction -> int) {
    (forall d: Deduction, p: PayoutId {:trigger Release(p)(d)} :: w(Release(p)(d)) == w(d))
    && (forall d: Deduction {:trigger d.(waived := true)} :: w(d.(waived := true)) == w(d))
  }

  /** Batching, sending back and waiving move debts about, and no total of such a weight. */
  lemma MovingIsNotRaising(b: Books, e: Event, w: Deduction -> int)
    requires RowsOk(b.payouts, b.deductions) && !e.Raising? && !e.Reversing?
    requires Steady(w) && Splits(w, |b.payouts|)
    ensures Total(Step(b, e).deductions, w) == Total(b.deductions, w)
  {
    hide Total, RowsOk, Build, Splits;
    match e
    case Waiving(id) =>
      if Waivable(b.deductions, id) {
        assert w(b.deductions[id].(waived := true)) == w(b.deductions[id]);
        TotalUpdate(b.deductions, id, b.deductions[id].(waived := true), w);
      }
    case Rejecting(p) => TotalPointwise(Rewritten(b.deductions, Release(p)), b.deductions, w, w);
    case Drafting(r) => ClaimingMovesNoDebt(b, r, w);
    case _ =>
      DebtsUntouched(b, e);
      hide Step;
  }

  lemma StepRaises(b: Books, e: Event, pro: ProId)
    requires Sound(b)
    ensures Total(Step(b, e).deductions, AmountOf(pro)) == Total(b.deductions, AmountOf(pro)) + RaisedBy(b, e, pro)
  {
    SoundGives(b);
    hide Sound, RowsOk, KeyOk, Total, RaiseBonuses, Unwind, Recovered, HasKey;
    var w := AmountOf(pro);
    if e.Raising? {
      TotalAppend(b.deductions, NewRow(ManualClaim(e.pro, e.amount, e.source)), w);
    } else if e.Reversing? {
      ReversingRaises(b, e.commission, pro);
    } else {
      MovingIsNotRaising(b, e, w);
      hide Step;
    }
  }

  lemma ReversingRaises(b: Books, c: CommissionId, pro: ProId)
    requires KeyOk(b.deductions, b.commissions)
    ensures Total(Reverse(b, c).deductions, AmountOf(pro))
            == Total(b.deductions, AmountOf(pro)) + RaisedBy(b, Reversing(c), pro)
  {
    UnwindTouchesOnlyProgress(b, c);
    hide KeyOk, Total, RaiseBonuses, RaiseOne, Unwind, Recovered;
    if Reversible(b, c) && WasPaid(b, c) {
      hide Reverse;
      if b.commissions[c].pro == pro {
        ReversalRaises(b, c, AmountOf(pro));
      } else {
        OthersReversal(b, c, AmountOf(pro));
      }
    }
  }

  lemma {:induction false} RunRaises(b: Books, es: seq<Event>, pro: ProId)
    requires Sound(b)
    ensures Total(Run(b, es).deductions, AmountOf(pro)) == Total(b.deductions, AmountOf(pro)) + RaisedOver(b, es, pro)
    decreases |es|
  {
    hide Sound, Total, Step, RaisedBy;
    if es != [] {
      StepKeepsSound(b, es[0]);
      StepRaises(b, es[0], pro);
      RunRaises(Step(b, es[0]), es[1..], pro);
    }
  }

  /** Over every run, for every Pro: all the debt ever raised is outstanding, waived, or taken by
      a live payout; and every row is untouched or wholly taken by one live payout of its Pro. */
  lemma DebtIsConserved(es: seq<Event>, pro: ProId)
    ensures var b := Run(EMPTY, es);
            RaisedOver(EMPTY, es, pro)
            == Total(b.deductions, OutstandingOf(pro)) + Total(b.deductions, WaivedOf(pro))
               + Total(b.deductions, HeldOf(pro))
            && RowsOk(b.payouts, b.deductions)
  {
    EmptyIsOk();
    ReachedIsSound(es);
    RunRaises(EMPTY, es, pro);
    hide Step, Run, RaisedOver, Total;
    RowsAddUp(Run(EMPTY, es).payouts, Run(EMPTY, es).deductions, pro);
  }

  /** A payout's stored deduction is the sum of the rows it holds, in every state reached without a
      refusal delivered to it while it is rejected with something deducted. */
  lemma StoredDeductionIsItsRows(es: seq<Event>, p: PayoutId)
    requires FairRun(EMPTY, es, p, ItsDeduction)
    ensures var b := Run(EMPTY, es);
            p < |b.payouts| ==> Claims(b.payouts[p]) == Total(b.deductions, ClaimedBy(p))
  {
    EmptyIsOk();
    RunKeeps(EMPTY, es, p, ItsDeduction);
    hide Run, FairRun, Total;
    assert Holds(Run(EMPTY, es), p);
  }

  /** With no such refusal for any payout, what is taken from a Pro is what the payouts say. */
  lemma StoredDeductionsAreTheRows(es: seq<Event>, pro: ProId)
    requires forall p: PayoutId :: FairRun(EMPTY, es, p, ItsDeduction)
    ensures var b := Run(EMPTY, es);
            DebtOk(b.payouts, b.deductions)
            && Total(b.deductions, HeldOf(pro)) == Total(b.payouts, DeductedFor(pro))
  {
    var b := Run(EMPTY, es);
    ReachedIsSound(es);
    SoundGives(b);
    forall p | 0 <= p < |b.payouts| ensures Total(b.deductions, ClaimedBy(p)) == Claims(b.payouts[p]) {
      StoredDeductionIsItsRows(es, p);
    }
    hide Run, FairRun, Total, Sound, RowsOk;
    DebtsAddUp(b.payouts, b.deductions, pro);
  }

  // ---- rejecting undoes drafting ----

  function Undone(ds: seq<Deduction>, p: PayoutId): seq<Deduction> { Rewritten(ds, Release(p)) }

  /** One row in two: what a payout could take of it, and the rest at the end of the queue. */
  function SplitAt(ds: seq<Deduction>, i: DeductionId, taken: int): seq<Deduction>
    requires i < |ds|
  {
    ds[i := ds[i].(amount := taken)] + [Remainder(ds[i], taken)]
  }

  lemma UndoWholeLine(ds: seq<Deduction>, line: Line, pro: ProId, p: PayoutId)
    requires LineFits(ds, line, pro) && line.whole
    ensures Undone(ClaimLine(ds, line, p), p) == Undone(ds, p)
  {
  }

  lemma UndoPartialLine(ds: seq<Deduction>, line: Line, pro: ProId, p: PayoutId)
    requires LineFits(ds, line, pro) && !line.whole
    ensures line.id < |Undone(ds, p)|
    ensures Undone(ClaimLine(ds, line, p), p) == SplitAt(Undone(ds, p), line.id, line.taken)
  {
  }

  lemma {:induction false} UndoClaims(ds: seq<Deduction>, lines: seq<Line>, pro: ProId, p: PayoutId)
    requires Claimable(ds, lines, pro)
    requires forall k :: 0 <= k < |lines| - 1 ==> lines[k].whole
    ensures var after := Undone(ClaimLines(ds, lines, p), p);
            if lines == [] || lines[|lines| - 1].whole then after == Undone(ds, p)
            else var last := lines[|lines| - 1];
                 last.id < |Undone(ds, p)| && after == SplitAt(Undone(ds, p), last.id, last.taken)
    decreases |lines|
  {
    hide Rewritten, LineFits, SplitAt;
    if lines != [] {
      assert LineFits(ds, lines[0], pro);
      ClaimableRest(ds, lines, pro, p);
      UndoClaims(ClaimLine(ds, lines[0], p), lines[1..], pro, p);
      if lines[0].whole {
        UndoWholeLine(ds, lines[0], pro, p);
      } else {
        UndoPartialLine(ds, lines[0], pro, p);
      }
    }
  }

  /** The row a draft could only half afford, in two. */
  ghost predicate SplitOnce(before: seq<Deduction>, after: seq<Deduction>, pro: ProId) {
    exists i: DeductionId, taken: int ::
      i < |before| && Outstanding(before[i], pro) && 0 < taken < before[i].amount && after == SplitAt(before, i, taken)
  }

  lemma UndoneDebts(b: Books, r: Request)
    requires RowsOk(b.payouts, b.deductions) && Decide(b, r).Drafted?
    ensures var after := Undone(ClaimLines(b.deductions, Decide(b, r).lines, |b.payouts|), |b.payouts|);
            after == b.deductions || SplitOnce(b.deductions, after, r.pro)
  {
    var p, lines := |b.payouts|, Decide(b, r).lines;
    BuildFacts(b, r);
    LastLineMayBePartial(b, r);
    NobodyHasClaimed(b);
    hide Decide, ClaimLines, Undone, SplitAt, Total, RowsOk;
    UndoClaims(b.deductions, lines, r.pro, p);
    if lines != [] && !lines[|lines| - 1].whole {
      assert LineFits(b.deductions, lines[|lines| - 1], r.pro);
    }
  }

  /** Drafting a payout and rejecting it puts every commission row back, and every debt row
      too, except that the one row it could only half afford stays split in two. */
  lemma RejectUndoesDraft(b: Books, r: Request)
    requires Sound(b) && Decide(b, r).Drafted?
    ensures var u := Reject(Build(b, r), |b.payouts|);
            u.commissions == b.commissions
            && u.payouts == b.payouts + [Decide(b, r).draft.(status := PayoutStatus.Rejected)]
            && (u.deductions == b.deductions || SplitOnce(b.deductions, u.deductions, r.pro))
  {
    SoundGives(b);
    hide Decide, ClaimLines, SplitOnce, Sound, RowsOk, AttachOk, Build, Reject, Undone, Rewritten;
    UndoneDebts(b, r);
    DraftIsUnsent(b, r);
    RejectedDraft(b, r);
    DetachUndoesAttach(b, r);
  }

  lemma RejectedDraft(b: Books, r: Request)
    requires Decide(b, r).Drafted? && Decide(b, r).draft.status == PayoutStatus.Draft
    ensures var p := |b.payouts|; var u := Reject(Build(b, r), p);
            u.commissions == Rewritten(Rewritten(b.commissions, Attach(p, r.pro, r.cutoff)), Detach(p))
            && u.payouts == b.payouts + [Decide(b, r).draft.(status := PayoutStatus.Rejected)]
            && u.deductions == Undone(ClaimLines(b.deductions, Decide(b, r).lines, p), p)
  {
    hide Decide, ClaimLines, Rewritten, Attach, Detach, Release;
    assert Build(b, r).payouts == b.payouts + [Decide(b, r).draft];
  }

  lemma DetachUndoesAttach(b: Books, r: Request)
    requires AttachOk(b.commissions, b.payouts)
    ensures var p := |b.payouts|;
            Rewritten(Rewritten(b.commissions, Attach(p, r.pro, r.cutoff)), Detach(p)) == b.commissions
  {
    var p := |b.payouts|;
    forall i | 0 <= i < |b.commissions|
      ensures Detach(p)(Attach(p, r.pro, r.cutoff)(b.commissions[i])) == b.commissions[i]
    {
      assert AttachRow(b.commissions[i], b.payouts);
    }
  }

  lemma NobodyHasClaimed(b: Books)
    requires RowsOk(b.payouts, b.deductions)
    ensures Undone(b.deductions, |b.payouts|) == b.deductions
  {
    forall i | 0 <= i < |b.deductions| ensures Release(|b.payouts|)(b.deductions[i]) == b.deductions[i] {
      assert RowOk(b.deductions[i], b.payouts);
    }
  }

  lemma LastLineMayBePartial(b: Books, r: Request)
    requires RowsOk(b.payouts, b.deductions) && Decide(b, r).Drafted?
    ensures var lines := Decide(b, r).lines; forall k :: 0 <= k < |lines| - 1 ==> lines[k].whole
  {
    hide Plan, CommissionTotal, IncentiveTotal, Queue, AnyBatchable, Total;
    var queue := Queue(b.deductions, r.pro);
    forall k | 0 <= k < |queue| ensures queue[k].owed >= 0 {
      assert RowOk(b.deductions[queue[k].id], b.payouts);
    }
    var gross := CommissionTotal(b.commissions, r.pro, r.cutoff) + IncentiveTotal(b.commissions, r.pro, r.cutoff);
    PlanIsExact(queue, gross);
  }

  /** Splitting an untouched row moves no total: not what any Pro owes, nor what stands
      against any job, nor what a reversal charged; and no key moves or is copied. */
  lemma SplittingMovesNothing(ds: seq<Deduction>, i: DeductionId, taken: int, pro: ProId, c: CommissionId)
    requires i < |ds| && Free(ds[i]) && !ds[i].waived
    ensures var s := SplitAt(ds, i, taken);
            Total(s, OutstandingOf(pro)) == Total(ds, OutstandingOf(pro))
            && Total(s, AgainstJob(c)) == Total(ds, AgainstJob(c))
            && Total(s, RaisedFor(c)) == Total(ds, RaisedFor(c))
            && (forall k :: 0 <= k < |ds| ==> s[k].key == ds[k].key) && s[|ds|].key == None
  {
    SplitTotal(ds, i, taken, OutstandingOf(pro));
    SplitTotal(ds, i, taken, AgainstJob(c));
    SplitTotal(ds, i, taken, RaisedFor(c));
  }

  lemma SplitTotal(ds: seq<Deduction>, i: DeductionId, taken: int, w: Deduction -> int)
    requires i < |ds| && w(ds[i].(amount := taken)) + w(Remainder(ds[i], taken)) == w(ds[i])
    ensures Total(SplitAt(ds, i, taken), w) == Total(ds, w)
  {
    TotalUpdate(ds, i, ds[i].(amount := taken), w);
    TotalAppend(ds[i := ds[i].(amount := taken)], Remainder(ds[i], taken), w);
  }

  /** Sent back, a batch forgives nothing: every Pro owes what they owed, every job shows the
      deductions it showed, and each key still sits on the row it sat on. */
  lemma RejectForgivesNothing(b: Books, r: Request, pro: ProId, c: CommissionId)
    requires Sound(b) && Decide(b, r).Drafted?
    ensures var u := Reject(Build(b, r), |b.payouts|);
            Total(u.deductions, OutstandingOf(pro)) == Total(b.deductions, OutstandingOf(pro))
            && Total(u.deductions, AgainstJob(c)) == Total(b.deductions, AgainstJob(c))
            && |b.deductions| <= |u.deductions| <= |b.deductions| + 1
            && (forall k :: 0 <= k < |b.deductions| ==> u.deductions[k].key == b.deductions[k].key)
            && (forall k :: |b.deductions| <= k < |u.deductions| ==> u.deductions[k].key == None)
  {
    RejectUndoesDraft(b, r);
    var u := Reject(Build(b, r), |b.payouts|);
    if u.deductions != b.deductions {
      hide Decide, Build, Reject, SplitAt, Total;
      var i: DeductionId, taken: int :| i < |b.deductions| && Outstanding(b.deductions[i], r.pro)
        && 0 < taken < b.deductions[i].amount && u.deductions == SplitAt(b.deductions, i, taken);
      assert RowOk(b.deductions[i], b.payouts);
      SplittingMovesNothing(b.deductions, i, taken, pro, c);
      SplitLength(b.deductions, i, taken);
    }
  }

  lemma SplitLength(ds: seq<Deduction>, i: DeductionId, taken: int)
    requires i < |ds|
    ensures |SplitAt(ds, i, taken)| == |ds| + 1
  {
  }
}
