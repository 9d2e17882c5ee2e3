/** What a draft pays and what it takes, told in the columns of the tables alone. */
module DraftLaws {
  import opened Wrappers
  import opened Totals
  import opened Books
  import opened Deductions
  import opened PayoutBatch
  import opened BatchLaws
  import opened MoneyInvariants

  predicate IsDue(c: Commission, pro: ProId, cutoff: int) {
    c.pro == pro && c.status == CommissionStatus.Approved && c.payout == None && !c.reversed && c.computedAt < cutoff
  }

  predicate AnyDue(cs: seq<Commission>, pro: ProId, cutoff: int) {
    exists i :: 0 <= i < |cs| && IsDue(cs[i], pro, cutoff)
  }

  function PayDue(pro: ProId, cutoff: int): Commission -> int {
    (c: Commission) => if IsDue(c, pro, cutoff) then c.amount else 0
  }

  function BonusDue(pro: ProId, cutoff: int): Commission -> int {
    (c: Commission) => if IsDue(c, pro, cutoff) then c.incentive else 0
  }

  predicate IsOpen(d: Deduction, pro: ProId) { d.pro == pro && !d.waived && !d.settled }

  function OpenDebt(pro: ProId): Deduction -> int {
    (d: Deduction) => if IsOpen(d, pro) then d.amount else 0
  }

  // ---- how much ----

  lemma QueueUnfolds(ds: seq<Deduction>, pro: ProId, from: nat)
    requires from < |ds| && (IsOpen(ds[from], pro) ==> ds[from].consumed == 0)
    ensures Total(Queue(ds, pro, from), Owed) == OpenDebt(pro)(ds[from]) + Total(Queue(ds, pro, from + 1), Owed)
  {
    var head := if Outstanding(ds[from], pro) then [Debt(from, StillOwed(ds[from]))] else [];
    var rest := Queue(ds, pro, from + 1);
    assert Queue(ds, pro, from) == head + rest;
    hide Queue;
    TotalConcat(head, rest, Owed);
  }

  lemma {:induction false} QueueOwesWhatIsOpen(ds: seq<Deduction>, pro: ProId, from: nat)
    requires from <= |ds| && forall i :: 0 <= i < |ds| && IsOpen(ds[i], pro) ==> ds[i].consumed == 0
    ensures Total(Queue(ds, pro, from), Owed) == Total(ds[from..], OpenDebt(pro))
    decreases |ds| - from
  {
    hide Queue, OpenDebt, IsOpen;
    if from < |ds| {
      QueueUnfolds(ds, pro, from);
      QueueOwesWhatIsOpen(ds, pro, from + 1);
      assert ds[from..][1..] == ds[from + 1..];
    } else {
      NothingQueued(ds, pro);
    }
  }

  lemma NothingQueued(ds: seq<Deduction>, pro: ProId)
    ensures Queue(ds, pro, |ds|) == []
  {
  }

  lemma OpenRowsAreWhole(ps: seq<Payout>, ds: seq<Deduction>, pro: ProId)
    requires RowsOk(ps, ds)
    ensures forall i :: 0 <= i < |ds| && IsOpen(ds[i], pro) ==> Free(ds[i]) && ds[i].amount > 0
  {
    forall i | 0 <= i < |ds| && IsOpen(ds[i], pro) ensures Free(ds[i]) && ds[i].amount > 0 { assert RowOk(ds[i], ps); }
  }

  /** A plan over a Pro's debts takes the smaller of what there is and what is owed. */
  lemma PlanTakesTheLesser(ps: seq<Payout>, ds: seq<Deduction>, pro: ProId, available: nat)
    requires RowsOk(ps, ds)
    ensures Total(Plan(Queue(ds, pro), available), Taken) == Min(available, Total(ds, OpenDebt(pro)))
  {
    OpenRowsAreWhole(ps, ds, pro);
    QueueOwesWhatIsOpen(ds, pro, 0);
    assert ds[0..] == ds;
    PlanIsExact(Queue(ds, pro), available);
  }

  /** How an attempt ends, in the sums it is decided by. */
  ghost predicate EndsSo(a: Attempt, r: Request, due: bool, pay: int, bonus: int, deduction: int) {
    var gross := pay + bonus;
    match a
    case NothingToPay => r.account == None || !due
    case Skipped(s) =>
      r.account.Some? && due && s.pro == r.pro
      && (match r.account.value
          case NoneVerified => s.code == NoVerifiedBankAccount && s.withheld == gross
          case Unpayable => s.code == NoPayableDestination && s.withheld == gross
          case Payable => s.code == BelowMinimumNet && s.withheld == gross - deduction < r.minimumNet)
    case Drafted(draft, _) =>
      r.account == Some(Payable) && due && gross - deduction >= r.minimumNet
      && draft.pro == r.pro && draft.commission == pay && draft.incentive == bonus
      && draft.deduction == deduction && draft.net == gross - deduction
      && draft.status == PayoutStatus.Draft && draft.attempts == 0 && draft.reference == None
  }

  lemma DecidedByItsSums(b: Books, r: Request)
    ensures var pay := CommissionTotal(b.commissions, r.pro, r.cutoff);
            var bonus := IncentiveTotal(b.commissions, r.pro, r.cutoff);
            EndsSo(Decide(b, r), r, AnyBatchable(b.commissions, r.pro, r.cutoff), pay, bonus,
                   Total(Plan(Queue(b.deductions, r.pro), pay + bonus), Taken))
  {
    hide Plan, Queue, Total, AnyBatchable, CommissionTotal, IncentiveTotal;
  }

  /** Nothing comes of an attempt where there is no such Pro or nothing is due; otherwise the whole
      gross is withheld for want of an account, the net for being too small, or a draft is made of
      both sums, less the smaller of their total and what the Pro owes. */
  lemma AttemptIsDecidedSo(b: Books, r: Request)
    requires Sound(b)
    ensures var pay := Total(b.commissions, PayDue(r.pro, r.cutoff));
            var bonus := Total(b.commissions, BonusDue(r.pro, r.cutoff));
            EndsSo(Decide(b, r), r, AnyDue(b.commissions, r.pro, r.cutoff), pay, bonus,
                   Min(pay + bonus, Total(b.deductions, OpenDebt(r.pro))))
  {
    hide Sound, RowsOk, Plan, Queue, Total, AnyBatchable, AnyDue, Decide, EndsSo, CommissionTotal, IncentiveTotal;
    hide PayDue, BonusDue, OpenDebt, Min;
    SoundGives(b);
    var pay, bonus := CommissionTotal(b.commissions, r.pro, r.cutoff), IncentiveTotal(b.commissions, r.pro, r.cutoff);
    DueIsBatchable(b.commissions, r.pro, r.cutoff);
    PlanTakesTheLesser(b.payouts, b.deductions, r.pro, pay + bonus);
    DecidedByItsSums(b, r);
  }

  lemma DueIsBatchable(cs: seq<Commission>, pro: ProId, cutoff: int)
    ensures CommissionTotal(cs, pro, cutoff) == Total(cs, PayDue(pro, cutoff))
    ensures IncentiveTotal(cs, pro, cutoff) == Total(cs, BonusDue(pro, cutoff))
    ensures AnyBatchable(cs, pro, cutoff) <==> AnyDue(cs, pro, cutoff)
  {
    TotalPointwise(cs, cs, CommissionIn(pro, cutoff), PayDue(pro, cutoff));
    TotalPointwise(cs, cs, IncentiveIn(pro, cutoff), BonusDue(pro, cutoff));
    forall i | 0 <= i < |cs| ensures Batchable(cs[i], pro, cutoff) <==> IsDue(cs[i], pro, cutoff) {}
    if AnyBatchable(cs, pro, cutoff) {
      var i :| 0 <= i < |cs| && Batchable(cs[i], pro, cutoff);
      assert IsDue(cs[i], pro, cutoff);
    }
  }

  /** A draft takes the next number and every row due, and no other; without one nothing changes. */
  lemma DraftTakesTheRowsDue(b: Books, r: Request)
    ensures var n := Build(b, r);
            if Decide(b, r).Drafted?
            then n.payouts == b.payouts + [Decide(b, r).draft]
                 && |n.commissions| == |b.commissions|
                 && (forall i :: 0 <= i < |b.commissions| ==>
                       n.commissions[i] == if IsDue(b.commissions[i], r.pro, r.cutoff)
                                           then b.commissions[i].(payout := Some(|b.payouts|))
                                           else b.commissions[i])
                 && n.progress == b.progress && n.contributions == b.contributions && n.submissions == b.submissions
            else n == b
  {
    hide Decide, ClaimLines;
  }

  // ---- from which debts ----

  /** The row now belongs to the payout, whole. */
  predicate TakenWhole(d: Deduction, e: Deduction, pro: ProId, p: PayoutId) {
    IsOpen(d, pro) && e == d.(consumed := d.amount, owner := Some(p), settled := true)
  }

  /** Part of the row belongs to the payout, and the rest is a new row at the end of the queue. */
  predicate TakenInPart(d: Deduction, e: Deduction, rest: Deduction, pro: ProId, p: PayoutId) {
    IsOpen(d, pro) && 0 < e.amount < d.amount
    && e == d.(amount := e.amount, consumed := e.amount, owner := Some(p), settled := true)
    && rest == d.(amount := d.amount - e.amount, key := None)
  }

  lemma {:induction false} QueueIsComplete(ds: seq<Deduction>, pro: ProId, from: nat, i: DeductionId)
    requires from <= i < |ds| && IsOpen(ds[i], pro)
    ensures exists k :: 0 <= k < |Queue(ds, pro, from)| && Queue(ds, pro, from)[k].id == i
    decreases |ds| - from
  {
    var q := Queue(ds, pro, from);
    if from == i {
      assert q[0].id == i;
    } else {
      QueueIsComplete(ds, pro, from + 1, i);
      var rest := Queue(ds, pro, from + 1);
      var k :| 0 <= k < |rest| && rest[k].id == i;
      assert q[|q| - |rest| + k] == rest[k];
    }
  }

  predicate NamedIn(lines: seq<Line>, i: DeductionId) { exists k :: 0 <= k < |lines| && lines[k].id == i }

  /** What claiming does, line by line: each row named is owned, the rest stand. */
  ghost predicate Claimed(ds: seq<Deduction>, after: seq<Deduction>, lines: seq<Line>, p: PayoutId) {
    var last := |lines| - 1;
    (forall k :: 0 <= k < |lines| ==> lines[k].id < |ds|)
    && (if lines != [] && !lines[last].whole
        then |after| == |ds| + 1 && after[|ds|] == Remainder(ds[lines[last].id], lines[last].taken)
        else |after| == |ds|)
    && (forall k :: 0 <= k < |lines| ==> after[lines[k].id] == Owned(ds[lines[k].id], lines[k].taken, p))
    && (forall i :: 0 <= i < |ds| && !NamedIn(lines, i) ==> after[i] == ds[i])
  }

  lemma NamedInTheRest(lines: seq<Line>, i: DeductionId)
    requires lines != []
    ensures NamedIn(lines[1..], i) ==> NamedIn(lines, i)
  {
    if NamedIn(lines[1..], i) {
      var k :| 0 <= k < |lines[1..]| && lines[1..][k].id == i;
      assert lines[k + 1].id == i;
    }
  }

  lemma ClaimedOneMore(ds: seq<Deduction>, after: seq<Deduction>, lines: seq<Line>, p: PayoutId)
    requires |lines| > 1 && lines[0].whole && lines[0].id < |ds|
    requires forall k :: 0 < k < |lines| ==> lines[k].id != lines[0].id
    requires Claimed(ClaimLine(ds, lines[0], p), after, lines[1..], p)
    ensures Claimed(ds, after, lines, p)
  {
    hide Owned, Remainder;
    var rest, next := lines[1..], ClaimLine(ds, lines[0], p);
    assert next == ds[lines[0].id := Owned(ds[lines[0].id], lines[0].taken, p)];
    forall k | 0 <= k < |rest| ensures rest[k] == lines[k + 1] {}
    assert !NamedIn(rest, lines[0].id);
    forall k | 0 <= k < |lines|
      ensures lines[k].id < |ds| && after[lines[k].id] == Owned(ds[lines[k].id], lines[k].taken, p)
    {
      if k > 0 { assert lines[k] == rest[k - 1]; }
    }
    forall i | 0 <= i < |ds| && !NamedIn(lines, i) ensures after[i] == ds[i] {
      assert lines[0].id != i;
      NamedInTheRest(lines, i);
    }
  }

  lemma {:induction false} ClaimedRows(ds: seq<Deduction>, lines: seq<Line>, pro: ProId, p: PayoutId)
    requires Claimable(ds, lines, pro) && forall k :: 0 <= k < |lines| - 1 ==> lines[k].whole
    ensures Claimed(ds, ClaimLines(ds, lines, p), lines, p)
    decreases |lines|
  {
    if lines != [] {
      assert LineFits(ds, lines[0], pro);
      var rest, next := lines[1..], ClaimLine(ds, lines[0], p);
      if |lines| == 1 {
        assert ClaimLines(ds, lines, p) == ClaimLines(next, [], p) == next;
        assert forall i :: !NamedIn(lines, i) ==> i != lines[0].id;
      } else {
        ClaimableRest(ds, lines, pro, p);
        forall k | 0 <= k < |rest| ensures rest[k] == lines[k + 1] {}
        hide Claimed, LineFits;
        ClaimedRows(next, rest, pro, p);
        ClaimedOneMore(ds, ClaimLines(ds, lines, p), lines, p);
      }
    }
  }

  /** A plan's lines are a prefix of the debts that are open. */
  lemma PlannedLines(ps: seq<Payout>, ds: seq<Deduction>, pro: ProId, available: nat)
    requires RowsOk(ps, ds)
    ensures var lines, queue := Plan(Queue(ds, pro), available), Queue(ds, pro);
            Claimable(ds, lines, pro) && |lines| <= |queue|
            && (forall k :: 0 <= k < |lines| ==> lines[k].id == queue[k].id)
            && (forall k :: 0 <= k < |lines| - 1 ==> lines[k].whole)
  {
    hide RowsOk, Plan, Claimable, Queue, Total;
    OpenRowsAreWhole(ps, ds, pro);
    PlanIsClaimable(ds, pro, available);
    var queue := Queue(ds, pro);
    forall k | 0 <= k < |queue| ensures queue[k].owed > 0 { assert IsOpen(ds[queue[k].id], pro); }
    PositiveIsAll(queue);
    PlanIsExact(queue, available);
  }

  lemma LinesArePlanned(b: Books, r: Request)
    requires Decide(b, r).Drafted?
    ensures exists available: nat :: Decide(b, r).lines == Plan(Queue(b.deductions, r.pro), available)
  {
    hide Plan, Queue, Total, AnyBatchable, CommissionTotal, IncentiveTotal;
    var gross := CommissionTotal(b.commissions, r.pro, r.cutoff) + IncentiveTotal(b.commissions, r.pro, r.cutoff);
    assert Decide(b, r).lines == Plan(Queue(b.deductions, r.pro), gross);
  }

  /** A draft takes debts oldest first: each row of the table stands, is taken whole, or, once at
      most, in part; and where it takes from a row, every older open row of that Pro is taken whole. */
  lemma OldestDebtsFirst(b: Books, r: Request)
    requires Sound(b) && Decide(b, r).Drafted?
    ensures var was, now, p := b.deductions, Build(b, r).deductions, |b.payouts|;
            |was| <= |now| <= |was| + 1
            && (forall i :: 0 <= i < |was| ==>
                  now[i] == was[i] || TakenWhole(was[i], now[i], r.pro, p)
                  || (|now| > |was| && TakenInPart(was[i], now[i], now[|was|], r.pro, p)))
            && (forall i, j :: 0 <= j < i < |was| && now[i] != was[i] && IsOpen(was[j], r.pro) ==>
                  TakenWhole(was[j], now[j], r.pro, p))
            && (|now| > |was| ==>
                  exists i :: 0 <= i < |was| && TakenInPart(was[i], now[i], now[|was|], r.pro, p))
  {
    SoundGives(b);
    LinesArePlanned(b, r);
    BuildWrites(b, r);
    hide Sound, RowsOk, Decide, Build, Plan, Queue, ClaimLines, Claimed, Claimable;
    var available: nat :| Decide(b, r).lines == Plan(Queue(b.deductions, r.pro), available);
    PlannedLines(b.payouts, b.deductions, r.pro, available);
    ClaimedRows(b.deductions, Decide(b, r).lines, r.pro, |b.payouts|);
    InQueueOrder(b.deductions, Build(b, r).deductions, Decide(b, r).lines, r.pro, |b.payouts|);
  }

  lemma LineTakes(was: seq<Deduction>, now: seq<Deduction>, lines: seq<Line>, pro: ProId, p: PayoutId, k: nat)
    requires Claimable(was, lines, pro) && k < |lines| && (k < |lines| - 1 ==> lines[k].whole)
    requires |was| <= |now| && now[lines[k].id] == Owned(was[lines[k].id], lines[k].taken, p)
    requires !lines[k].whole ==> |now| > |was| && now[|was|] == Remainder(was[lines[k].id], lines[k].taken)
    ensures var i := lines[k].id;
            if lines[k].whole then TakenWhole(was[i], now[i], pro, p)
            else TakenInPart(was[i], now[i], now[|was|], pro, p)
  {
    assert LineFits(was, lines[k], pro);
  }

  /** The plan comes to an older open row before a younger one. */
  lemma OlderIsNamed(was: seq<Deduction>, lines: seq<Line>, pro: ProId, i: DeductionId, j: DeductionId)
    returns (q: nat)
    requires |lines| <= |Queue(was, pro)| && forall k :: 0 <= k < |lines| ==> lines[k].id == Queue(was, pro)[k].id
    requires j < i && j < |was| && NamedIn(lines, i) && IsOpen(was[j], pro)
    ensures q < |lines| - 1 && lines[q].id == j
  {
    hide Queue, IsOpen;
    var k :| 0 <= k < |lines| && lines[k].id == i;
    QueueIsComplete(was, pro, 0, j);
    q :| 0 <= q < |Queue(was, pro)| && Queue(was, pro)[q].id == j;
    assert q < k;
  }

  lemma InQueueOrder(was: seq<Deduction>, now: seq<Deduction>, lines: seq<Line>, pro: ProId, p: PayoutId)
    requires Claimable(was, lines, pro) && |lines| <= |Queue(was, pro)|
    requires forall k :: 0 <= k < |lines| ==> lines[k].id == Queue(was, pro)[k].id
    requires forall k :: 0 <= k < |lines| - 1 ==> lines[k].whole
    requires Claimed(was, now, lines, p)
    ensures forall i :: 0 <= i < |was| ==>
              now[i] == was[i] || TakenWhole(was[i], now[i], pro, p)
              || (|now| > |was| && TakenInPart(was[i], now[i], now[|was|], pro, p))
    ensures forall i, j :: 0 <= j < i < |was| && now[i] != was[i] && IsOpen(was[j], pro) ==>
              TakenWhole(was[j], now[j], pro, p)
    ensures |now| > |was| ==> exists i :: 0 <= i < |was| && TakenInPart(was[i], now[i], now[|was|], pro, p)
  {
    hide Queue, TakenWhole, TakenInPart, Owned, Remainder, IsOpen;
    forall k | 0 <= k < |lines|
      ensures var i := lines[k].id;
              if lines[k].whole then TakenWhole(was[i], now[i], pro, p)
              else |now| > |was| && TakenInPart(was[i], now[i], now[|was|], pro, p)
    {
      LineTakes(was, now, lines, pro, p, k);
    }
    forall i, j | 0 <= j < i < |was| && now[i] != was[i] && IsOpen(was[j], pro)
      ensures TakenWhole(was[j], now[j], pro, p)
    {
      assert NamedIn(lines, i);
      hide Claimable;
      var k := OlderIsNamed(was, lines, pro, i, j);
      assert lines[k].whole;
    }
  }
}
