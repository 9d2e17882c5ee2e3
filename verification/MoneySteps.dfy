/** Every operation keeps the tables sound. */
module MoneySteps {
  import opened Wrappers
  import opened Totals
  import opened Books
  import opened Deductions
  import opened PayoutBatch
  import opened Disbursement
  import opened Incentives
  import opened Reversal
  import opened Commissions
  import opened MoneyInvariants

  // ---- one payout row changes ----

  /** What a payout is for, and for how much. */
  predicate SameTerms(a: Payout, b: Payout) {
    a.pro == b.pro && a.commission == b.commission && a.incentive == b.incentive && a.deduction == b.deduction
    && a.net == b.net
  }

  lemma PayoutRowKeepsRows(ps: seq<Payout>, ds: seq<Deduction>, p: PayoutId, row: Payout)
    requires RowsOk(ps, ds) && p < |ps| && SameTerms(ps[p], row) && (Live(ps[p]) ==> Live(row))
    ensures RowsOk(ps[p := row], ds)
  {
    forall i | 0 <= i < |ds| ensures RowOk(ds[i], ps[p := row]) { assert RowOk(ds[i], ps); }
  }

  lemma PayoutRowKeepsAttach(cs: seq<Commission>, ps: seq<Payout>, p: PayoutId, row: Payout)
    requires AttachOk(cs, ps) && p < |ps| && ps[p].pro == row.pro && (Live(ps[p]) ==> Live(row))
    requires ps[p].status == PayoutStatus.Paid <==> row.status == PayoutStatus.Paid
    ensures AttachOk(cs, ps[p := row])
  {
    forall i | 0 <= i < |cs| ensures AttachRow(cs[i], ps[p := row]) { assert AttachRow(cs[i], ps); }
  }

  lemma PayoutRowKeepsSound(b: Books, p: PayoutId, row: Payout)
    requires Sound(b) && p < |b.payouts| && SameTerms(b.payouts[p], row)
    requires Live(b.payouts[p]) ==> Live(row)
    requires b.payouts[p].status == PayoutStatus.Paid <==> row.status == PayoutStatus.Paid
    requires Recorded(row, p, b.submissions)
    ensures Sound(b.(payouts := b.payouts[p := row]))
  {
    hide RowsOk, AttachOk, CreditOk, KeyOk, OneRowEach, Recorded;
    PayoutRowKeepsRows(b.payouts, b.deductions, p, row);
    PayoutRowKeepsAttach(b.commissions, b.payouts, p, row);
  }

  lemma RecordedIn(b: Books, p: PayoutId)
    requires Sound(b) && p < |b.payouts|
    ensures Recorded(b.payouts[p], p, b.submissions)
  {
  }

  lemma ApproveKeepsSound(b: Books, p: PayoutId)
    requires Sound(b)
    ensures Sound(Approve(b, p))
  {
    if StatusIs(b, p, PayoutStatus.Draft) {
      RecordedIn(b, p);
      hide Sound;
      PayoutRowKeepsSound(b, p, b.payouts[p].(status := PayoutStatus.Approved));
    }
  }

  // ---- rejecting ----

  lemma ReleaseKeepsRows(ps: seq<Payout>, ds: seq<Deduction>, p: PayoutId)
    requires RowsOk(ps, ds) && p < |ps|
    ensures RowsOk(ps[p := ps[p].(status := PayoutStatus.Rejected)], Rewritten(ds, Release(p)))
  {
    var ps', ds' := ps[p := ps[p].(status := PayoutStatus.Rejected)], Rewritten(ds, Release(p));
    forall i | 0 <= i < |ds'| ensures RowOk(ds'[i], ps') { assert RowOk(ds[i], ps); }
  }

  lemma ReleaseKeepsKeys(ds: seq<Deduction>, cs: seq<Commission>, p: PayoutId)
    requires KeyOk(ds, cs)
    ensures KeyOk(Rewritten(ds, Release(p)), Rewritten(cs, Detach(p)))
  {
    var ds', cs' := Rewritten(ds, Release(p)), Rewritten(cs, Detach(p));
    forall i, j | 0 <= i < j < |ds'| && ds'[i].key.Some? ensures ds'[i].key != ds'[j].key {
      assert ds'[i].key == ds[i].key && ds'[j].key == ds[j].key;
    }
    forall i | 0 <= i < |ds'| ensures KeyFits(ds'[i]) && (Automatic(ds'[i].kind) ==> FromReversal(ds'[i], cs')) {
      assert KeyFits(ds[i]);
    }
  }

  /** Attachment and status are all that settling and rejecting move in the pay rows. */
  lemma SamePlainly(cs: seq<Commission>, now: seq<Commission>, ps: seq<Progress>)
    requires CreditOk(cs, ps) && OneRowEach(cs) && |now| == |cs|
    requires forall i :: 0 <= i < |cs| ==>
               now[i].booking == cs[i].booking && now[i].incentive == cs[i].incentive
               && now[i].reversed == cs[i].reversed
    ensures CreditOk(now, ps) && OneRowEach(now)
  {
    hide Total;
  }

  lemma DetachingKeepsAttach(cs: seq<Commission>, ps: seq<Payout>, p: PayoutId, row: Payout)
    requires AttachOk(cs, ps) && p < |ps| && ps[p].status != PayoutStatus.Paid && row.status == PayoutStatus.Rejected
    ensures AttachOk(Rewritten(cs, Detach(p)), ps[p := row])
  {
    var now := Rewritten(cs, Detach(p));
    forall i | 0 <= i < |now| ensures AttachRow(now[i], ps[p := row]) { assert AttachRow(cs[i], ps); }
  }

  lemma RejectKeepsSound(b: Books, p: PayoutId)
    requires Sound(b)
    ensures Sound(Reject(b, p))
  {
    if Rejectable(b, p) {
      hide Total, RowsOk, KeyOk, AttachOk, CreditOk, OneRowEach;
      var n := Reject(b, p);
      ReleaseKeepsRows(b.payouts, b.deductions, p);
      ReleaseKeepsKeys(b.deductions, b.commissions, p);
      DetachingKeepsAttach(b.commissions, b.payouts, p, n.payouts[p]);
      SamePlainly(b.commissions, n.commissions, b.progress);
      RecordedIn(b, p);
    }
  }

  // ---- sending and hearing back ----

  lemma OneMoreSent(subs: seq<Submission>, p: PayoutId, v: Verdict, row: Payout, q: PayoutId)
    requires Recorded(row, q, subs) && (q == p ==> row.status != PayoutStatus.Draft)
    ensures var n := subs + [Submission(p, v)];
            Recorded(if q == p then row.(attempts := row.attempts + 1) else row, q, n)
            && Total(n, SentFor(q)) == Total(subs, SentFor(q)) + if q == p then 1 else 0
  {
    hide Total;
    var n := subs + [Submission(p, v)];
    TotalAppend(subs, Submission(p, v), SentFor(q));
    if Confirmed(subs, q) {
      var s :| 0 <= s < |subs| && subs[s].payout == q && subs[s].verdict == Processed;
      assert n[s] == subs[s];
    }
  }

  lemma SubmitKeepsSound(b: Books, p: PayoutId, v: Verdict)
    requires Sound(b) && StatusIs(b, p, PayoutStatus.Approved)
    ensures Sound(Submit(b, p, v))
  {
    hide RowsOk, AttachOk, CreditOk, KeyOk, OneRowEach, Recorded;
    var n := Submit(b, p, v);
    var row := n.payouts[p];
    PayoutRowKeepsRows(b.payouts, b.deductions, p, row);
    PayoutRowKeepsAttach(b.commissions, b.payouts, p, row);
    forall q | 0 <= q < |n.payouts| ensures Recorded(n.payouts[q], q, n.submissions) {
      OneMoreSent(b.submissions, p, v, b.payouts[q], q);
      if q == p { InProcessing(b.payouts[p].(attempts := row.attempts), p, n.submissions); }
    }
  }

  lemma InProcessing(row: Payout, p: PayoutId, subs: seq<Submission>)
    requires Recorded(row, p, subs)
    ensures Recorded(row.(status := PayoutStatus.Processing), p, subs)
  {
  }

  lemma PayingKeepsAttach(cs: seq<Commission>, ps: seq<Payout>, p: PayoutId, row: Payout)
    requires AttachOk(cs, ps) && p < |ps| && ps[p].status != PayoutStatus.Paid
    requires row.status == PayoutStatus.Paid && row.pro == ps[p].pro
    ensures AttachOk(Rewritten(cs, PayRow(p)), ps[p := row])
  {
    var now := Rewritten(cs, PayRow(p));
    forall i | 0 <= i < |now| ensures AttachRow(now[i], ps[p := row]) { assert AttachRow(cs[i], ps); }
  }

  lemma SettledSourcesStand(ds: seq<Deduction>, cs: seq<Commission>, p: PayoutId)
    requires KeyOk(ds, cs)
    ensures KeyOk(ds, Rewritten(cs, PayRow(p)))
  {
    forall i | 0 <= i < |ds| && Automatic(ds[i].kind) ensures FromReversal(ds[i], Rewritten(cs, PayRow(p))) {
      assert FromReversal(ds[i], cs);
    }
  }

  lemma PaidIsRecorded(row: Payout, p: PayoutId, subs: seq<Submission>, s: SubmissionId, utr: Option<nat>)
    requires Recorded(row, p, subs) && row.reference == Some(Entity(s)) && subs[s].verdict == Processed
    ensures Recorded(row.(status := PayoutStatus.Paid, reference := Some(FinalReference(s, utr))), p, subs)
  {
    hide Total;
  }

  lemma SettleKeepsSound(b: Books, s: SubmissionId, utr: Option<nat>)
    requires Sound(b) && s < |b.submissions| && b.submissions[s].verdict == Processed
    ensures Sound(Settle(b, s, utr))
  {
    var found := FindReference(b.payouts, Entity(s));
    if found.Some? && b.payouts[found.value].status != PayoutStatus.Paid {
      hide FindReference, RowsOk, KeyOk, AttachOk, CreditOk, OneRowEach, Recorded;
      var p, n := found.value, Settle(b, s, utr);
      PaidIsRecorded(b.payouts[p], p, b.submissions, s, utr);
      PayoutRowKeepsRows(b.payouts, b.deductions, p, n.payouts[p]);
      PayingKeepsAttach(b.commissions, b.payouts, p, n.payouts[p]);
      SamePlainly(b.commissions, n.commissions, b.progress);
      SettledSourcesStand(b.deductions, b.commissions, p);
    }
  }

  lemma MarkFailedKeepsSound(b: Books, s: SubmissionId)
    requires Sound(b) && s < |b.submissions| && b.submissions[s].verdict == Refused
    ensures Sound(MarkFailed(b, s))
  {
    var found := FindReference(b.payouts, Entity(s));
    if found.Some? && b.payouts[found.value].status != PayoutStatus.Paid {
      RecordedIn(b, found.value);
      hide FindReference, Sound;
      PayoutRowKeepsSound(b, found.value, b.payouts[found.value].(status := PayoutStatus.Failed));
    }
  }

  lemma LastIsOwn(b: Books, p: PayoutId, v: Verdict)
    requires Sound(b) && StatusIs(b, p, PayoutStatus.Approved)
    ensures var sent := Submit(b, p, v); var s := |b.submissions|;
            Recorded(sent.payouts[p].(reference := Some(Entity(s))), p, sent.submissions)
            && Recorded(sent.payouts[p].(status := PayoutStatus.Failed), p, sent.submissions)
  {
    SubmitKeepsSound(b, p, v);
    RecordedIn(Submit(b, p, v), p);
    hide Total;
  }

  lemma DisburseKeepsSound(b: Books, p: PayoutId, a: Answer)
    requires Sound(b)
    ensures Sound(Disburse(b, p, a))
  {
    if Sendable(b, p, a) {
      hide Sound, Settle, Recorded;
      var s := |b.submissions|;
      var sent := Submit(b, p, VerdictOf(a));
      SubmitKeepsSound(b, p, VerdictOf(a));
      LastIsOwn(b, p, VerdictOf(a));
      match a
      case Accepted(v, utr) =>
        PayoutRowKeepsSound(sent, p, sent.payouts[p].(reference := Some(Entity(s))));
        if v == Processed { SettleKeepsSound(WithReference(sent, p, Entity(s)), s, utr); }
      case Declined => PayoutRowKeepsSound(sent, p, sent.payouts[p].(status := PayoutStatus.Failed));
      case Unreachable =>
    }
  }

  lemma RetryKeepsSound(b: Books, p: PayoutId, a: Answer)
    requires Sound(b)
    ensures Sound(Retry(b, p, a))
  {
    if StatusIs(b, p, PayoutStatus.Failed) {
      RecordedIn(b, p);
      hide Sound, Disburse;
      PayoutRowKeepsSound(b, p, b.payouts[p].(status := PayoutStatus.Approved));
      DisburseKeepsSound(WithStatus(b, p, PayoutStatus.Approved), p, a);
    }
  }

  lemma ResolvingKeepsRecord(row: Payout, p: PayoutId, subs: seq<Submission>, s: SubmissionId, v: Verdict)
    requires Recorded(row, p, subs) && s < |subs| && subs[s].verdict == InFlight
    ensures Recorded(row, p, subs[s := subs[s].(verdict := v)])
  {
    hide Total;
    var now := subs[s := subs[s].(verdict := v)];
    TotalPointwise(now, subs, SentFor(p), SentFor(p));
    if Confirmed(subs, p) {
      var t :| 0 <= t < |subs| && subs[t].payout == p && subs[t].verdict == Processed;
      assert now[t] == subs[t];
    }
  }

  lemma ResolveKeepsSound(b: Books, s: SubmissionId, v: Verdict)
    requires Sound(b)
    ensures Sound(Resolve(b, s, v))
  {
    if s < |b.submissions| && b.submissions[s].verdict == InFlight {
      hide RowsOk, BalancedOk, AttachOk, CreditOk, KeyOk, OneRowEach, Recorded;
      forall q | 0 <= q < |b.payouts| ensures Recorded(b.payouts[q], q, Resolve(b, s, v).submissions) {
        ResolvingKeepsRecord(b.payouts[q], q, b.submissions, s, v);
      }
    }
  }

  // ---- raising and waiving ----

  lemma RaiseKeepsRows(ps: seq<Payout>, ds: seq<Deduction>, c: Claim)
    requires RowsOk(ps, ds)
    ensures RowsOk(ps, RaiseOne(ds, c))
  {
    hide HasKey;
  }

  lemma RaiseKeepsKeys(ds: seq<Deduction>, cs: seq<Commission>, c: Claim)
    requires KeyOk(ds, cs) && KeyFits(NewRow(c)) && (Automatic(c.kind) ==> FromReversal(NewRow(c), cs))
    ensures KeyOk(RaiseOne(ds, c), cs)
  {
    hide KeyFits, FromReversal;
  }

  lemma ManualKeepsSound(b: Books, c: Claim)
    requires Sound(b) && c.kind == Manual && c.key == None
    ensures Sound(b.(deductions := RaiseOne(b.deductions, c)))
  {
    RaiseKeepsKeys(b.deductions, b.commissions, c);
    hide RowsOk, BalancedOk, AttachOk, CreditOk, KeyOk, OneRowEach, RecordsOk, RaiseOne;
    RaiseKeepsRows(b.payouts, b.deductions, c);
  }

  lemma WaiveKeepsRows(b: Books, id: DeductionId)
    requires RowsOk(b.payouts, b.deductions) && Waivable(b.deductions, id)
    ensures RowsOk(b.payouts, WaiveOne(b.deductions, id))
  {
    var ds := WaiveOne(b.deductions, id);
    forall i | 0 <= i < |ds| ensures RowOk(ds[i], b.payouts) { assert RowOk(b.deductions[i], b.payouts); }
  }

  lemma WaiveKeepsKeys(b: Books, id: DeductionId)
    requires KeyOk(b.deductions, b.commissions)
    ensures KeyOk(WaiveOne(b.deductions, id), b.commissions)
  {
    var ds := WaiveOne(b.deductions, id);
    forall i | 0 <= i < |ds|
      ensures KeyFits(ds[i]) && (Automatic(ds[i].kind) ==> FromReversal(ds[i], b.commissions))
    {
      assert KeyFits(b.deductions[i]);
    }
  }

  lemma WaiveKeepsSound(b: Books, id: DeductionId)
    requires Sound(b)
    ensures Sound(b.(deductions := WaiveOne(b.deductions, id)))
  {
    if Waivable(b.deductions, id) {
      WaiveKeepsRows(b, id);
      WaiveKeepsKeys(b, id);
      hide RowsOk, BalancedOk, AttachOk, CreditOk, KeyOk, OneRowEach, RecordsOk;
    }
  }

  // ---- completing and maturing ----

  lemma RecordKeepsSound(b: Books, job: Job, pro: ProId, now: int)
    requires Sound(b)
    ensures Sound(b.(commissions := Record(b.commissions, job, pro, now)))
  {
    if !HasRow(b.commissions, job.booking) && EarnsPay(job, pro) {
      hide Total, RowsOk, RecordsOk, NewCommission;
      var row := NewCommission(job, pro, now);
      NewRowIsPlain(job, pro, now);
      var cs := b.commissions + [row];
      forall i | 0 <= i < |cs| ensures AttachRow(cs[i], b.payouts) {
        if i < |b.commissions| { assert AttachRow(b.commissions[i], b.payouts); }
      }
      TotalZero(b.progress, RewardFor(|b.commissions|));
      forall i | 0 <= i < |b.deductions| && Automatic(b.deductions[i].kind) ensures FromReversal(b.deductions[i], cs) {
        assert FromReversal(b.deductions[i], b.commissions);
      }
    }
  }

  lemma NewRowIsPlain(job: Job, pro: ProId, now: int)
    requires job.rate.Some?
    ensures var row := NewCommission(job, pro, now);
            row.incentive == 0 && row.payout == None && !row.reversed && row.status == CommissionStatus.Pending
            && row.booking == job.booking
  {
  }

  lemma MatureKeepsSound(b: Books, cutoff: int, held: set<nat>)
    requires Sound(b)
    ensures Sound(b.(commissions := Rewritten(b.commissions, Mature(cutoff, held))))
  {
    hide Total, RowsOk, RecordsOk;
    var cs := Rewritten(b.commissions, Mature(cutoff, held));
    forall i | 0 <= i < |cs| ensures AttachRow(cs[i], b.payouts) { assert AttachRow(b.commissions[i], b.payouts); }
    forall i | 0 <= i < |b.deductions| && Automatic(b.deductions[i].kind) ensures FromReversal(b.deductions[i], cs) {
      assert FromReversal(b.deductions[i], b.commissions);
    }
  }

  // ---- bonuses ----

  lemma UpsertKeepsCredit(cs: seq<Commission>, ps: seq<Progress>, pro: ProId, scheme: nat, key: string)
    requires CreditOk(cs, ps)
    ensures CreditOk(cs, Upsert(ps, pro, scheme, key))
  {
    hide Total, FindProgress;
    if FindProgress(ps, pro, scheme, key).None? {
      forall c | 0 <= c < |cs| && !cs[c].reversed
        ensures cs[c].incentive == Total(Upsert(ps, pro, scheme, key), RewardFor(c))
      {
        TotalAppend(ps, Progress(pro, scheme, key, 0, 0, None), RewardFor(c));
      }
      NoneMeansAbsent(ps, pro, scheme, key);
    }
  }

  lemma NoneMeansAbsent(ps: seq<Progress>, pro: ProId, scheme: nat, key: string)
    requires FindProgress(ps, pro, scheme, key).None?
    ensures forall i :: 0 <= i < |ps| ==> !IsRow(ps[i], pro, scheme, key)
  {
  }

  lemma CreditKeepsCredit(b: Books, a: Award)
    requires CreditOk(b.commissions, b.progress)
    ensures CreditOk(Credited(b, a).commissions, Credited(b, a).progress)
  {
    hide Total;
    var n := Credited(b, a);
    if n != b {
      forall d | 0 <= d < |n.commissions| && !n.commissions[d].reversed
        ensures n.commissions[d].incentive == Total(n.progress, RewardFor(d))
      {
        TotalUpdate(b.progress, a.progress, n.progress[a.progress], RewardFor(d));
      }
    }
  }

  lemma CreditKeepsSound(b: Books, a: Award)
    requires Sound(b)
    ensures Sound(Credited(b, a))
  {
    var n := Credited(b, a);
    CreditKeepsCredit(b, a);
    hide CreditOk, RowsOk, BalancedOk, RecordsOk, UniqueKeys;
    forall i | 0 <= i < |n.commissions| ensures AttachRow(n.commissions[i], n.payouts) {
      assert AttachRow(b.commissions[i], b.payouts);
    }
    forall i | 0 <= i < |b.deductions| && Automatic(b.deductions[i].kind)
      ensures FromReversal(b.deductions[i], n.commissions)
    {
      assert FromReversal(b.deductions[i], b.commissions);
    }
  }

  lemma ScoreKeepsSound(b: Books, p: ProgressId, value: nat, target: int)
    requires Sound(b)
    ensures Sound(Scored(b, p, value, target))
  {
    hide Total, RowsOk, BalancedOk, AttachOk, RecordsOk, KeyOk, OneRowEach;
    var n := Scored(b, p, value, target);
    forall c | 0 <= c < |n.commissions| && !n.commissions[c].reversed
      ensures n.commissions[c].incentive == Total(n.progress, RewardFor(c))
    {
      TotalPointwise(n.progress, b.progress, RewardFor(c), RewardFor(c));
    }
  }

  lemma OpenKeepsSound(b: Books, pro: ProId, scheme: nat, key: string)
    requires Sound(b)
    ensures Sound(b.(progress := Upsert(b.progress, pro, scheme, key)))
  {
    hide CreditOk, RowsOk, BalancedOk, AttachOk, RecordsOk, KeyOk, OneRowEach, Upsert;
    UpsertKeepsCredit(b.commissions, b.progress, pro, scheme, key);
  }

  lemma SyncKeepsSound(b: Books, contributions: seq<Contribution>)
    requires Sound(b)
    ensures Sound(b.(contributions := contributions))
  {
    hide CreditOk, RowsOk, BalancedOk, AttachOk, RecordsOk, KeyOk, OneRowEach;
  }

  // ---- reversing ----

  lemma UnwindKeepsCredit(b: Books, c: CommissionId)
    requires CreditOk(b.commissions, b.progress) && c < |b.commissions|
    ensures CreditOk(b.commissions[c := Marked(b.commissions[c])], Unwind(b, c).progress)
  {
    hide Total, Recount, Without, Stored;
    var cs, ps := b.commissions[c := Marked(b.commissions[c])], Unwind(b, c).progress;
    forall d | 0 <= d < |cs| && !cs[d].reversed ensures cs[d].incentive == Total(ps, RewardFor(d)) {
      TotalPointwise(ps, b.progress, RewardFor(d), RewardFor(d));
    }
  }

  lemma {:induction false} BonusesKeepRows(ps: seq<Payout>, ds: seq<Deduction>, cs: seq<Commission>, pro: ProId,
                                           c: CommissionId, bonuses: seq<Bonus>)
    requires RowsOk(ps, ds) && KeyOk(ds, cs)
    requires c < |cs| && cs[c].reversed && cs[c].status == CommissionStatus.Paid && cs[c].pro == pro
    ensures RowsOk(ps, RaiseBonuses(ds, pro, c, bonuses)) && KeyOk(RaiseBonuses(ds, pro, c, bonuses), cs)
    decreases |bonuses|
  {
    hide RowsOk, KeyOk, RaiseOne;
    if bonuses != [] {
      RaiseKeepsRows(ps, ds, BonusClaim(pro, c, bonuses[0]));
      RaiseKeepsKeys(ds, cs, BonusClaim(pro, c, bonuses[0]));
      BonusesKeepRows(ps, RaiseOne(ds, BonusClaim(pro, c, bonuses[0])), cs, pro, c, bonuses[1..]);
    }
  }

  lemma MarkKeepsSources(b: Books, c: CommissionId)
    requires KeyOk(b.deductions, b.commissions) && c < |b.commissions|
    ensures KeyOk(b.deductions, b.commissions[c := Marked(b.commissions[c])])
  {
    var cs := b.commissions[c := Marked(b.commissions[c])];
    forall i | 0 <= i < |b.deductions| && Automatic(b.deductions[i].kind) ensures FromReversal(b.deductions[i], cs) {
      assert FromReversal(b.deductions[i], b.commissions);
    }
  }

  lemma MarkKeepsAttach(cs: seq<Commission>, ps: seq<Payout>, c: CommissionId)
    requires AttachOk(cs, ps) && OneRowEach(cs) && c < |cs| && !cs[c].reversed
    ensures AttachOk(cs[c := Marked(cs[c])], ps) && OneRowEach(cs[c := Marked(cs[c])])
  {
    var now := cs[c := Marked(cs[c])];
    forall i | 0 <= i < |now| ensures AttachRow(now[i], ps) { assert AttachRow(cs[i], ps); }
  }

  lemma ReverseKeepsSound(b: Books, c: CommissionId)
    requires Sound(b)
    ensures Sound(Reverse(b, c))
  {
    if Reversible(b, c) {
      hide RowsOk, BalancedOk, AttachOk, RecordsOk, CreditOk, KeyOk, OneRowEach;
      hide RaiseOne, RaiseBonuses, BonusesOf, Unwind;
      var row := b.commissions[c];
      var cs := b.commissions[c := Marked(row)];
      UnwindKeepsCredit(b, c);
      MarkKeepsSources(b, c);
      MarkKeepsAttach(b.commissions, b.payouts, c);
      UnwindTouchesOnlyProgress(b, c);
      if WasPaid(b, c) {
        RaiseKeepsRows(b.payouts, b.deductions, CommissionClaim(row, c));
        RaiseKeepsKeys(b.deductions, cs, CommissionClaim(row, c));
        var raised := RaiseOne(b.deductions, CommissionClaim(row, c));
        BonusesKeepRows(b.payouts, raised, cs, row.pro, c, BonusesOf(b.progress, c));
      }
    }
  }

  lemma UnwindTouchesOnlyProgress(b: Books, c: CommissionId)
    ensures var n := Unwind(b, c);
            n.payouts == b.payouts && n.deductions == b.deductions && n.submissions == b.submissions
  {
  }

  lemma {:induction false} OthersBonuses(ds: seq<Deduction>, pro: ProId, c: CommissionId, bonuses: seq<Bonus>,
                                         w: Deduction -> int)
    requires forall x: Bonus :: w(NewRow(BonusClaim(pro, c, x))) == 0
    ensures Total(RaiseBonuses(ds, pro, c, bonuses), w) == Total(ds, w)
    decreases |bonuses|
  {
    hide HasKey, Total;
    if bonuses != [] {
      TotalAppend(ds, NewRow(BonusClaim(pro, c, bonuses[0])), w);
      OthersBonuses(RaiseOne(ds, BonusClaim(pro, c, bonuses[0])), pro, c, bonuses[1..], w);
    }
  }

  /** A weight blind to the rows a reversal writes does not see it. */
  lemma OthersReversal(b: Books, c: CommissionId, w: Deduction -> int)
    requires c < |b.commissions|
    requires w(NewRow(CommissionClaim(b.commissions[c], c))) == 0
    requires forall x: Bonus :: w(NewRow(BonusClaim(b.commissions[c].pro, c, x))) == 0
    ensures Total(Reverse(b, c).deductions, w) == Total(b.deductions, w)
  {
    UnwindTouchesOnlyProgress(b, c);
    hide HasKey, Total, Unwind, RaiseBonuses;
    var claim := CommissionClaim(b.commissions[c], c);
    TotalAppend(b.deductions, NewRow(claim), w);
    OthersBonuses(RaiseOne(b.deductions, claim), b.commissions[c].pro, c, BonusesOf(b.progress, c), w);
  }
}
