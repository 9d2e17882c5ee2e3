/** What the tables of the commission module agree on, and why each operation keeps it so. */
module MoneyInvariants {
  import opened Wrappers
  import opened Totals
  import opened Books
  import opened Deductions
  import opened PayoutBatch
  import opened Incentives
  import opened Reversal
  import opened Commissions
  import opened BatchLaws

  // ---- debts and the payouts that hold them ----

  /** A row is whole and untouched, or whole and taken by one live payout of the same Pro. */
  predicate RowOk(d: Deduction, ps: seq<Payout>) {
    d.amount > 0
    && (Free(d)
        || (d.owner.Some? && Held(d, d.owner.value) && d.owner.value < |ps|
            && Live(ps[d.owner.value]) && ps[d.owner.value].pro == d.pro))
  }

  function Claims(p: Payout): int { if Live(p) then p.deduction else 0 }

  predicate Balanced(p: Payout) { p.deduction >= 0 && p.net == p.commission + p.incentive - p.deduction && p.net >= 0 }

  ghost predicate RowsOk(ps: seq<Payout>, ds: seq<Deduction>) {
    forall i :: 0 <= i < |ds| ==> RowOk(ds[i], ps)
  }

  ghost predicate BalancedOk(ps: seq<Payout>) {
    forall p :: 0 <= p < |ps| ==> Balanced(ps[p])
  }

  /** The rows are as above, and each live payout's stored deduction is what it holds. */
  ghost predicate DebtOk(ps: seq<Payout>, ds: seq<Deduction>) {
    RowsOk(ps, ds) && (forall p :: 0 <= p < |ps| ==> Total(ds, ClaimedBy(p)) == Claims(ps[p]))
  }

  // ---- commissions and the payouts they sit in ----

  predicate InPaidPayout(c: Commission, ps: seq<Payout>) {
    c.payout.Some? && c.payout.value < |ps| && ps[c.payout.value].status == PayoutStatus.Paid
  }

  predicate AttachRow(c: Commission, ps: seq<Payout>) {
    (c.payout.Some? ==>
       c.payout.value < |ps| && Live(ps[c.payout.value]) && ps[c.payout.value].pro == c.pro
       && (c.status == CommissionStatus.Approved || c.status == CommissionStatus.Paid))
    && (c.status == CommissionStatus.Paid <==> InPaidPayout(c, ps))
    && (c.status == CommissionStatus.Reversed ==> c.reversed && c.payout == None)
    && (c.reversed ==> c.status == CommissionStatus.Reversed || c.status == CommissionStatus.Paid)
  }

  ghost predicate AttachOk(cs: seq<Commission>, ps: seq<Payout>) {
    forall i :: 0 <= i < |cs| ==> AttachRow(cs[i], ps)
  }

  // ---- payouts and the gateway ----

  predicate Idle(s: PayoutStatus) { s != PayoutStatus.Processing && s != PayoutStatus.Paid }

  function SentFor(p: PayoutId): Submission -> int {
    (s: Submission) => if s.payout == p then 1 else 0
  }

  predicate AllRefused(subs: seq<Submission>, p: PayoutId) {
    forall s :: 0 <= s < |subs| && subs[s].payout == p ==> subs[s].verdict == Refused
  }

  predicate Confirmed(subs: seq<Submission>, p: PayoutId) {
    exists s :: 0 <= s < |subs| && subs[s].payout == p && subs[s].verdict == Processed
  }

  /** What a payout says of its transfers is so: their number, whose reference it carries, that
      this one was refused if it neither waits nor is paid, and, once paid, that one went through. */
  predicate Recorded(row: Payout, p: PayoutId, subs: seq<Submission>) {
    row.attempts == Total(subs, SentFor(p))
    && (row.reference.Some? && row.reference.value.Entity? ==>
          row.reference.value.submission < |subs| && subs[row.reference.value.submission].payout == p
          && (Idle(row.status) ==> subs[row.reference.value.submission].verdict == Refused))
    && (row.status == PayoutStatus.Draft ==> row.attempts == 0 && row.reference == None)
    && (row.status == PayoutStatus.Paid ==> Confirmed(subs, p))
  }

  ghost predicate RecordsOk(ps: seq<Payout>, subs: seq<Submission>) {
    (forall s :: 0 <= s < |subs| ==> subs[s].payout < |ps|)
    && (forall p :: 0 <= p < |ps| ==> Recorded(ps[p], p, subs))
  }

  /** Every transfer request of the payout but its latest was refused for good. */
  predicate OneOpen(subs: seq<Submission>, p: PayoutId) {
    forall s, t :: 0 <= s < t < |subs| && subs[s].payout == subs[t].payout == p ==> subs[s].verdict == Refused
  }

  // ---- bonuses ----

  function RewardFor(c: CommissionId): Progress -> int {
    (r: Progress) => if CreditedTo(r, c) then r.credit.value.reward else 0
  }

  ghost predicate CreditOk(cs: seq<Commission>, ps: seq<Progress>) {
    (forall c :: 0 <= c < |cs| && !cs[c].reversed ==> cs[c].incentive == Total(ps, RewardFor(c)))
    && (forall p :: 0 <= p < |ps| && ps[p].credit.Some? ==> ps[p].credit.value.commission < |cs|)
    && (forall p, q :: 0 <= p < q < |ps| ==> !IsRow(ps[q], ps[p].pro, ps[p].scheme, ps[p].periodKey))
  }

  // ---- reversal debts ----

  predicate FromReversal(d: Deduction, cs: seq<Commission>) {
    d.source.Some? && d.source.value < |cs| && cs[d.source.value].reversed
    && cs[d.source.value].status == CommissionStatus.Paid && cs[d.source.value].pro == d.pro
  }

  predicate KeyFits(d: Deduction) {
    match d.key
    case None => true
    case Some(ReversalOf(c)) => d.kind == CommissionReversal && d.source == Some(c)
    case Some(UnwindOf(_)) => d.kind == IncentiveUnwind
  }

  ghost predicate UniqueKeys(ds: seq<Deduction>) {
    forall i, j :: 0 <= i < j < |ds| && ds[i].key.Some? ==> ds[i].key != ds[j].key
  }

  ghost predicate KeyOk(ds: seq<Deduction>, cs: seq<Commission>) {
    UniqueKeys(ds)
    && (forall i :: 0 <= i < |ds| ==> KeyFits(ds[i]))
    && (forall i :: 0 <= i < |ds| && Automatic(ds[i].kind) ==> FromReversal(ds[i], cs))
  }

  /** What every step of every run keeps. */
  ghost predicate Sound(b: Books) {
    RowsOk(b.payouts, b.deductions)
    && BalancedOk(b.payouts)
    && AttachOk(b.commissions, b.payouts)
    && RecordsOk(b.payouts, b.submissions)
    && CreditOk(b.commissions, b.progress)
    && KeyOk(b.deductions, b.commissions)
    && OneRowEach(b.commissions)
  }

  lemma EmptyIsOk()
    ensures Sound(EMPTY)
  {
  }

  lemma SoundGives(b: Books)
    requires Sound(b)
    ensures RowsOk(b.payouts, b.deductions) && AttachOk(b.commissions, b.payouts)
    ensures RecordsOk(b.payouts, b.submissions) && KeyOk(b.deductions, b.commissions)
  {
  }

  // ---- building a batch ----

  lemma BuildFacts(b: Books, r: Request)
    requires RowsOk(b.payouts, b.deductions) && Decide(b, r).Drafted?
    ensures var d := Decide(b, r); var p := |b.payouts|;
            Claimable(b.deductions, d.lines, r.pro)
            && Grown(b.deductions, ClaimLines(b.deductions, d.lines, p), r.pro, p)
            && Balanced(d.draft) && d.draft.pro == r.pro && d.draft.deduction == Total(d.lines, Taken)
            && d.draft.status == PayoutStatus.Draft
  {
    hide Plan, ClaimLines, CommissionTotal, IncentiveTotal, Queue, AnyBatchable;
    assert CleanQueue(b.deductions, r.pro) by {
      forall i | 0 <= i < |b.deductions| && Outstanding(b.deductions[i], r.pro)
        ensures Free(b.deductions[i]) && b.deductions[i].amount > 0
      {
        assert RowOk(b.deductions[i], b.payouts);
      }
    }
    var gross := CommissionTotal(b.commissions, r.pro, r.cutoff) + IncentiveTotal(b.commissions, r.pro, r.cutoff);
    PlanIsClaimable(b.deductions, r.pro, gross);
    ClaimGrows(b.deductions, Decide(b, r).lines, r.pro, |b.payouts|);
  }

  lemma ClaimKeepsRows(ps: seq<Payout>, ds: seq<Deduction>, draft: Payout, lines: seq<Line>)
    requires RowsOk(ps, ds) && Claimable(ds, lines, draft.pro) && Live(draft)
    ensures RowsOk(ps + [draft], ClaimLines(ds, lines, |ps|))
  {
    hide ClaimLines;
    var after, p := ClaimLines(ds, lines, |ps|), |ps|;
    ClaimGrows(ds, lines, draft.pro, p);
    forall i | 0 <= i < |after| ensures RowOk(after[i], ps + [draft]) {
      if i < |ds| {
        assert RowOk(ds[i], ps) && Kept(ds[i], after[i], draft.pro, p);
      } else {
        assert Added(after[i], draft.pro, p);
      }
    }
  }

  lemma NobodyOwnsYet(ps: seq<Payout>, ds: seq<Deduction>)
    requires RowsOk(ps, ds)
    ensures Total(ds, ClaimedBy(|ps|)) == 0
  {
    forall i | 0 <= i < |ds| ensures ClaimedBy(|ps|)(ds[i]) == 0 { assert RowOk(ds[i], ps); }
    TotalZero(ds, ClaimedBy(|ps|));
  }

  /** What payout `p` holds is what it says it deducted; a payout not yet made holds nothing. */
  predicate Holds(b: Books, p: PayoutId) {
    Total(b.deductions, ClaimedBy(p)) == if p < |b.payouts| then Claims(b.payouts[p]) else 0
  }

  /** A draft holds exactly what it deducts, splits included, and no other payout holds more or less. */
  lemma BuildKeepsHolding(b: Books, r: Request, p: PayoutId)
    requires RowsOk(b.payouts, b.deductions) && Holds(b, p)
    ensures Holds(Build(b, r), p)
  {
    if Decide(b, r).Drafted? {
      hide Decide, ClaimLines, RowOk, ClaimedBy, Total;
      BuildFacts(b, r);
      ClaimTakes(b.deductions, Decide(b, r).lines, r.pro, |b.payouts|, p);
    }
  }

  lemma AttachingKeeps(cs: seq<Commission>, ps: seq<Payout>, draft: Payout, cutoff: int)
    requires AttachOk(cs, ps) && draft.status == PayoutStatus.Draft
    ensures AttachOk(Rewritten(cs, Attach(|ps|, draft.pro, cutoff)), ps + [draft])
  {
    var cs' := Rewritten(cs, Attach(|ps|, draft.pro, cutoff));
    forall i | 0 <= i < |cs'| ensures AttachRow(cs'[i], ps + [draft]) {
      assert AttachRow(cs[i], ps);
    }
  }

  predicate Unsent(draft: Payout) {
    draft.status == PayoutStatus.Draft && draft.attempts == 0 && draft.reference == None
  }

  lemma DraftingKeepsRecords(ps: seq<Payout>, subs: seq<Submission>, draft: Payout)
    requires RecordsOk(ps, subs) && Unsent(draft)
    ensures RecordsOk(ps + [draft], subs)
  {
    hide Total;
    TotalZero(subs, SentFor(|ps|));
    forall q | 0 <= q < |ps| + 1 ensures Recorded((ps + [draft])[q], q, subs) {
      if q < |ps| { assert Recorded(ps[q], q, subs); }
    }
  }

  lemma BuildWrites(b: Books, r: Request)
    requires Decide(b, r).Drafted?
    ensures var d := Decide(b, r); var p := |b.payouts|;
            Build(b, r) == b.(payouts := b.payouts + [d.draft],
                              commissions := Rewritten(b.commissions, Attach(p, r.pro, r.cutoff)),
                              deductions := ClaimLines(b.deductions, d.lines, p))
  {
    hide Decide, ClaimLines, Rewritten;
  }

  lemma OneMoreBalanced(ps: seq<Payout>, draft: Payout)
    requires BalancedOk(ps) && Balanced(draft)
    ensures BalancedOk(ps + [draft])
  {
  }

  lemma BuildKeepsSound(b: Books, r: Request)
    requires Sound(b)
    ensures Sound(Build(b, r))
  {
    if Decide(b, r).Drafted? {
      hide AttachOk, RowsOk, KeyOk, RecordsOk, CreditOk, OneRowEach, BalancedOk, Balanced, Total;
      hide Decide, Build, ClaimLines, Claimable, Grown, Rewritten;
      BuildFacts(b, r);
      DraftIsUnsent(b, r);
      BuildWrites(b, r);
      BuildKeepsKeys(b, r);
      var draft := Decide(b, r).draft;
      ClaimKeepsRows(b.payouts, b.deductions, draft, Decide(b, r).lines);
      OneMoreBalanced(b.payouts, draft);
      AttachingKeeps(b.commissions, b.payouts, draft, r.cutoff);
      DraftingKeepsRecords(b.payouts, b.submissions, draft);
      AttachingKeepsCredits(b.commissions, b.progress, |b.payouts|, r);
    }
  }

  lemma AttachingKeepsCredits(cs: seq<Commission>, ps: seq<Progress>, p: PayoutId, r: Request)
    requires CreditOk(cs, ps) && OneRowEach(cs)
    ensures var now := Rewritten(cs, Attach(p, r.pro, r.cutoff)); CreditOk(now, ps) && OneRowEach(now)
  {
    hide Total;
  }

  lemma DraftIsUnsent(b: Books, r: Request)
    requires Decide(b, r).Drafted?
    ensures Unsent(Decide(b, r).draft)
  {
    hide Plan, Queue, CommissionTotal, IncentiveTotal, AnyBatchable;
  }

  lemma BuildKeepsKeys(b: Books, r: Request)
    requires RowsOk(b.payouts, b.deductions) && KeyOk(b.deductions, b.commissions)
    ensures KeyOk(Build(b, r).deductions, Build(b, r).commissions)
  {
    if Decide(b, r).Drafted? {
      BuildFacts(b, r);
      var n, p := Build(b, r), |b.payouts|;
      var sourced := (d: Deduction) => Automatic(d.kind) ==> FromReversal(d, b.commissions);
      hide Decide, ClaimLines, RowsOk, Total;
      ClaimKeepsIdentity(b.deductions, Decide(b, r).lines, r.pro, p, sourced);
      hide Claimable;
      GrownKeepsKeys(b.deductions, n.deductions, r.pro, p);
      forall i | 0 <= i < |n.deductions| && Automatic(n.deductions[i].kind)
        ensures FromReversal(n.deductions[i], n.commissions)
      {
        assert sourced(n.deductions[i]);
      }
    }
  }

  lemma GrownKeepsKeys(ds: seq<Deduction>, all: seq<Deduction>, pro: ProId, p: PayoutId)
    requires Grown(ds, all, pro, p) && UniqueKeys(ds) && forall i :: 0 <= i < |ds| ==> KeyFits(ds[i])
    ensures UniqueKeys(all) && forall i :: 0 <= i < |all| ==> KeyFits(all[i])
  {
    forall k | |ds| <= k < |all| ensures all[k].key == None { assert Added(all[k], pro, p); }
    forall k | 0 <= k < |ds| ensures all[k].key == ds[k].key { assert Kept(ds[k], all[k], pro, p); }
    forall i | 0 <= i < |all| ensures KeyFits(all[i]) {
      if i < |ds| { assert Kept(ds[i], all[i], pro, p); } else { assert Added(all[i], pro, p); }
    }
  }
}
