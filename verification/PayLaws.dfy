/** What a payout pays for: the rows attached to it, and what has come and gone since it was drafted. */
module PayLaws {
  import opened Wrappers
  import opened Totals
  import opened Books
  import opened Deductions
  import opened PayoutBatch
  import opened Incentives
  import opened Reversal
  import opened Commissions
  import opened MoneyInvariants
  import opened MoneySteps
  import opened MoneyRuns

  /** The two amounts a payout adds up. */
  datatype Column = Pay | Bonuses

  function Worth(k: Column, c: Commission): int {
    match k case Pay => c.amount case Bonuses => c.incentive
  }

  function Stated(k: Column, p: Payout): int {
    match k case Pay => p.commission case Bonuses => p.incentive
  }

  function AmountIn(k: Column, p: PayoutId): Commission -> int {
    (c: Commission) => if c.payout == Some(p) then Worth(k, c) else 0
  }

  /** How the rows of a payout change after it was drafted: an unpaid one is reversed out of it,
      all are sent back when it is rejected, and a bonus is won late on one of them. */
  datatype Move = ReversedOut | SentBack | WonLate

  function MovedBy(b: Books, e: Event, p: PayoutId, k: Column, m: Move): int {
    match m
    case ReversedOut =>
      if e.Reversing? && Reversible(b, e.commission) && !WasPaid(b, e.commission)
         && b.commissions[e.commission].payout == Some(p)
      then Worth(k, b.commissions[e.commission]) else 0
    case SentBack =>
      if e == Rejecting(p) && Rejectable(b, p) then Total(b.commissions, AmountIn(k, p)) else 0
    case WonLate =>
      if k.Bonuses? && e.Crediting? && Creditable(b, e.award) && b.commissions[e.award.commission].payout == Some(p)
      then e.award.reward else 0
  }

  function MovedOver(b: Books, es: seq<Event>, p: PayoutId, k: Column, m: Move): int
    decreases |es|
  {
    if es == [] then 0 else MovedBy(b, es[0], p, k, m) + MovedOver(Step(b, es[0]), es[1..], p, k, m)
  }

  /** What has left a payout, less what came to it. */
  function Left(b: Books, e: Event, p: PayoutId, k: Column): int {
    MovedBy(b, e, p, k, ReversedOut) + MovedBy(b, e, p, k, SentBack) - MovedBy(b, e, p, k, WonLate)
  }

  /** What the payout says it pays, beyond what is attached to it. */
  function Surplus(b: Books, p: PayoutId, k: Column): int {
    (if p < |b.payouts| then Stated(k, b.payouts[p]) else 0) - Total(b.commissions, AmountIn(k, p))
  }

  /** Same rows as far as payouts go: attached where they were, worth what they were. */
  ghost predicate SamePay(a: seq<Commission>, b: seq<Commission>, p: PayoutId, k: Column) {
    |a| == |b| && forall i :: 0 <= i < |a| ==> AmountIn(k, p)(a[i]) == AmountIn(k, p)(b[i])
  }

  lemma SamePaySameSurplus(b: Books, n: Books, p: PayoutId, k: Column)
    requires SamePay(b.commissions, n.commissions, p, k)
    requires p < |b.payouts| <==> p < |n.payouts|
    requires p < |b.payouts| ==> Stated(k, n.payouts[p]) == Stated(k, b.payouts[p])
    ensures Surplus(n, p, k) == Surplus(b, p, k)
  {
    TotalPointwise(b.commissions, n.commissions, AmountIn(k, p), AmountIn(k, p));
  }

  // ---- drafting ----

  function WorthIn(k: Column, pro: ProId, cutoff: int): Commission -> int {
    (c: Commission) => if Batchable(c, pro, cutoff) then Worth(k, c) else 0
  }

  lemma DraftedTotal(b: Books, r: Request, k: Column)
    requires Decide(b, r).Drafted?
    ensures Stated(k, Decide(b, r).draft) == Total(b.commissions, WorthIn(k, r.pro, r.cutoff))
  {
    hide Plan, Queue, AnyBatchable, Total;
    TotalPointwise(b.commissions, b.commissions, CommissionIn(r.pro, r.cutoff), WorthIn(Pay, r.pro, r.cutoff));
    TotalPointwise(b.commissions, b.commissions, IncentiveIn(r.pro, r.cutoff), WorthIn(Bonuses, r.pro, r.cutoff));
  }

  /** A draft pays exactly the rows it attaches, and takes none from another payout. */
  lemma DraftPaysForItsRows(b: Books, r: Request, p: PayoutId, k: Column)
    requires AttachOk(b.commissions, b.payouts)
    ensures Surplus(Build(b, r), p, k) == Surplus(b, p, k)
  {
    if Decide(b, r).Drafted? {
      DraftedTotal(b, r, k);
      hide Decide, ClaimLines, Total, Stated, Worth;
      var cs, n := b.commissions, Build(b, r);
      if p == |b.payouts| {
        forall i | 0 <= i < |cs|
          ensures AmountIn(k, p)(cs[i]) == 0
          ensures AmountIn(k, p)(n.commissions[i]) == WorthIn(k, r.pro, r.cutoff)(cs[i])
        {
          assert AttachRow(cs[i], b.payouts);
          AttachingMovesNoWorth(k, cs[i], p, r);
        }
        TotalZero(cs, AmountIn(k, p));
        TotalPointwise(n.commissions, cs, AmountIn(k, p), WorthIn(k, r.pro, r.cutoff));
      } else {
        forall i | 0 <= i < |cs| ensures AmountIn(k, p)(n.commissions[i]) == AmountIn(k, p)(cs[i]) {
          AttachingMovesNoWorth(k, cs[i], |b.payouts|, r);
        }
        SamePaySameSurplus(b, n, p, k);
      }
    }
  }

  lemma AttachingMovesNoWorth(k: Column, c: Commission, p: PayoutId, r: Request)
    ensures Worth(k, Attach(p, r.pro, r.cutoff)(c)) == Worth(k, c)
  {
  }

  // ---- every other step ----

  lemma ReversalDrops(b: Books, c: CommissionId, p: PayoutId, k: Column)
    ensures Surplus(Reverse(b, c), p, k) == Surplus(b, p, k) + Left(b, Reversing(c), p, k)
  {
    hide Total, Unwind, RaiseBonuses, RaiseOne;
    ReversalLeavesPayouts(b, c);
    if Reversible(b, c) {
      assert Reverse(b, c).commissions == b.commissions[c := Marked(b.commissions[c])];
      TotalUpdate(b.commissions, c, Marked(b.commissions[c]), AmountIn(k, p));
    }
  }

  lemma RejectionSendsBack(b: Books, q: PayoutId, p: PayoutId, k: Column)
    ensures Surplus(Reject(b, q), p, k) == Surplus(b, p, k) + Left(b, Rejecting(q), p, k)
  {
    hide Total;
    if Rejectable(b, q) {
      var n := Reject(b, q);
      if q == p {
        TotalZero(n.commissions, AmountIn(k, p));
      } else {
        SamePaySameSurplus(b, n, p, k);
      }
    }
  }

  lemma CreditingWinsLate(b: Books, a: Award, p: PayoutId, k: Column)
    ensures Surplus(Credited(b, a), p, k) == Surplus(b, p, k) + Left(b, Crediting(a), p, k)
  {
    hide Total;
    if Creditable(b, a) {
      TotalUpdate(b.commissions, a.commission, Credited(b, a).commissions[a.commission], AmountIn(k, p));
    }
  }

  lemma CompletionAttachesNothing(b: Books, e: Event, p: PayoutId, k: Column)
    requires e.Completion?
    ensures Surplus(Step(b, e), p, k) == Surplus(b, p, k)
  {
    hide Total, NewCommission, HasRow;
    if Record(b.commissions, e.job, e.pro, e.now) != b.commissions {
      NewRowIsPlain(e.job, e.pro, e.now);
      TotalAppend(b.commissions, NewCommission(e.job, e.pro, e.now), AmountIn(k, p));
    }
  }

  lemma MaturingMovesNothing(b: Books, e: Event, p: PayoutId, k: Column)
    requires e.Maturing?
    ensures Surplus(Step(b, e), p, k) == Surplus(b, p, k)
  {
    hide Surplus;
    SamePaySameSurplus(b, Step(b, e), p, k);
  }

  /** Payouts sent, settled or failed keep their rows. */
  lemma TransfersMoveNoPay(b: Books, e: Event, p: PayoutId, k: Column)
    requires Transfers(e)
    ensures Surplus(Step(b, e), p, k) == Surplus(b, p, k)
  {
    TransfersTouch(b, e);
    hide Step, Surplus;
    SamePaySameSurplus(b, Step(b, e), p, k);
  }

  predicate Moves(e: Event) { e.Reversing? || e.Rejecting? || e.Crediting? }

  lemma OthersMoveNothing(b: Books, e: Event, p: PayoutId, k: Column)
    requires Sound(b) && !Moves(e)
    ensures Surplus(Step(b, e), p, k) == Surplus(b, p, k)
  {
    SoundGives(b);
    hide Sound, RowsOk, AttachOk, RecordsOk, KeyOk, Surplus, Build, RaiseOne, WaiveOne, Sync, Upsert, Mature, Record;
    if Transfers(e) {
      TransfersMoveNoPay(b, e, p, k);
      hide Step;
    } else if e.Completion? {
      CompletionAttachesNothing(b, e, p, k);
    } else if e.Maturing? {
      MaturingMovesNothing(b, e, p, k);
    } else if e.Drafting? {
      DraftPaysForItsRows(b, e.request, p, k);
    } else {
      SamePaySameSurplus(b, Step(b, e), p, k);
    }
  }

  lemma StepPays(b: Books, e: Event, p: PayoutId, k: Column)
    requires Sound(b)
    ensures Surplus(Step(b, e), p, k) == Surplus(b, p, k) + Left(b, e, p, k)
  {
    if Moves(e) {
      hide Sound, Surplus, Left, Reverse, Reject, Credited;
      match e
      case Reversing(c) => ReversalDrops(b, c, p, k);
      case Rejecting(q) => RejectionSendsBack(b, q, p, k);
      case Crediting(award) => CreditingWinsLate(b, award, p, k);
    } else {
      OthersMoveNothing(b, e, p, k);
      hide Sound, Surplus, Step;
    }
  }

  lemma {:induction false} RunPays(b: Books, es: seq<Event>, p: PayoutId, k: Column)
    requires Sound(b)
    ensures Surplus(Run(b, es), p, k) + MovedOver(b, es, p, k, WonLate)
            == Surplus(b, p, k) + MovedOver(b, es, p, k, ReversedOut) + MovedOver(b, es, p, k, SentBack)
    decreases |es|
  {
    hide Step, Sound, Surplus, MovedBy;
    if es != [] {
      StepKeepsSound(b, es[0]);
      StepPays(b, es[0], p, k);
      RunPays(Step(b, es[0]), es[1..], p, k);
    }
  }

  // ---- the laws ----

  /** In every state any run reaches, what a payout says it pays in commissions is the sum of the
      rows attached to it, of those reversed out of it before it was paid, and of those sent back
      by its rejection; and what it says it pays in bonuses is that sum of theirs, less what was
      won on its rows after it was drafted. */
  lemma PayoutsPayForTheirRows(es: seq<Event>, p: PayoutId)
    requires p < |Run(EMPTY, es).payouts|
    ensures var b := Run(EMPTY, es);
            b.payouts[p].commission
            == Total(b.commissions, AmountIn(Pay, p)) + MovedOver(EMPTY, es, p, Pay, ReversedOut)
               + MovedOver(EMPTY, es, p, Pay, SentBack)
            && b.payouts[p].incentive + MovedOver(EMPTY, es, p, Bonuses, WonLate)
               == Total(b.commissions, AmountIn(Bonuses, p)) + MovedOver(EMPTY, es, p, Bonuses, ReversedOut)
                  + MovedOver(EMPTY, es, p, Bonuses, SentBack)
  {
    EmptyIsOk();
    RunPays(EMPTY, es, p, Pay);
    RunPays(EMPTY, es, p, Bonuses);
    CommissionsComeOnlyAtTheStart(EMPTY, es, p);
  }

  lemma {:induction false} CommissionsComeOnlyAtTheStart(b: Books, es: seq<Event>, p: PayoutId)
    ensures MovedOver(b, es, p, Pay, WonLate) == 0
    decreases |es|
  {
    hide Step;
    if es != [] { CommissionsComeOnlyAtTheStart(Step(b, es[0]), es[1..], p); }
  }

  lemma RejectingRejects(b: Books, e: Event, p: PayoutId)
    ensures e == Rejecting(p) && Rejectable(b, p) ==> StatusIs(Step(b, e), p, PayoutStatus.Rejected)
  {
  }

  /** Nothing is ever sent back out of a payout that is live at the end of a run in which no refusal
      was delivered to it while rejected, so there its own rows and those reversed out of it account
      for everything. */
  lemma {:induction false} LivePayoutsSendNothingBack(b: Books, es: seq<Event>, p: PayoutId, k: Column)
    requires Sound(b) && FairRun(b, es, p, ItsRejection) && p < |Run(b, es).payouts| && Live(Run(b, es).payouts[p])
    ensures MovedOver(b, es, p, k, SentBack) == 0
    decreases |es|
  {
    if es != [] {
      StepKeepsSound(b, es[0]);
      if StatusIs(Step(b, es[0]), p, PayoutStatus.Rejected) { RejectedIsForGood(Step(b, es[0]), es[1..], p); }
      RejectingRejects(b, es[0], p);
      hide Step, Sound, Fair;
      LivePayoutsSendNothingBack(Step(b, es[0]), es[1..], p, k);
    }
  }
}
