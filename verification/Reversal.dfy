/** Reversing a commission: dropping it before payment, or carrying it as a debt after. */
module Reversal {
  import opened Wrappers
  import opened Totals
  import opened Books
  import opened Deductions
  import opened Incentives

  datatype Effect = Dropped | Deducted

  datatype Outcome = Outcome(effect: Effect, amount: int)

  function Reward(bonus: Bonus): int { bonus.reward }

  /** The debts a paid reversal asks for: the commission, then every bonus riding on it. */
  function CommissionClaim(row: Commission, c: CommissionId): Claim {
    Claim(row.pro, row.amount, CommissionReversal, Some(c), Some(ReversalOf(c)))
  }

  function BonusClaim(pro: ProId, c: CommissionId, bonus: Bonus): Claim {
    Claim(pro, bonus.reward, IncentiveUnwind, Some(c), Some(UnwindOf(bonus.progress)))
  }

  function RaiseBonuses(ds: seq<Deduction>, pro: ProId, c: CommissionId, bonuses: seq<Bonus>): seq<Deduction>
    decreases |bonuses|
  {
    if bonuses == [] then ds
    else RaiseBonuses(RaiseOne(ds, BonusClaim(pro, c, bonuses[0])), pro, c, bonuses[1..])
  }

  predicate WasPaid(b: Books, c: CommissionId)
    requires c < |b.commissions|
  {
    b.commissions[c].status == CommissionStatus.Paid
  }

  function Marked(row: Commission): Commission {
    if row.status == CommissionStatus.Paid then row.(reversed := true)
    else row.(status := CommissionStatus.Reversed, reversed := true, payout := None, incentive := 0)
  }

  /** The two kinds a reversal raises. */
  predicate Automatic(k: DeductionKind) { k != Manual }

  function RaisedFor(c: CommissionId): Deduction -> int {
    (d: Deduction) => if d.source == Some(c) && Automatic(d.kind) then d.amount else 0
  }

  predicate AnyRaisedFor(ds: seq<Deduction>, c: CommissionId) {
    exists i :: 0 <= i < |ds| && ds[i].source == Some(c) && Automatic(ds[i].kind)
  }

  /** `describeExisting`: read back off the rows the first call wrote. */
  function Describe(b: Books, c: CommissionId): Outcome {
    Outcome(if AnyRaisedFor(b.deductions, c) then Deducted else Dropped, Total(b.deductions, RaisedFor(c)))
  }

  predicate Reversible(b: Books, c: CommissionId) { c < |b.commissions| && !b.commissions[c].reversed }

  function Reverse(b: Books, c: CommissionId): Books {
    if !Reversible(b, c) then b
    else
      var unwound := Unwind(b, c);
      var marked := unwound.(commissions := b.commissions[c := Marked(b.commissions[c])]);
      if !WasPaid(b, c) then marked
      else
        var raised := RaiseOne(b.deductions, CommissionClaim(b.commissions[c], c));
        marked.(deductions := RaiseBonuses(raised, b.commissions[c].pro, c, BonusesOf(b.progress, c)))
  }

  function Report(b: Books, c: CommissionId): Option<Outcome> {
    if c >= |b.commissions| then None
    else if b.commissions[c].reversed then Some(Describe(b, c))
    else if WasPaid(b, c) then
      Some(Outcome(Deducted, b.commissions[c].amount + Total(BonusesOf(b.progress, c), Reward)))
    else Some(Outcome(Dropped, 0))
  }

  /** The loop over the unwound bonuses; `amount` is what the answer reports for them. */
  method RaiseEachBonus(db: Tables, pro: ProId, c: CommissionId, bonuses: seq<Bonus>) returns (amount: int)
    modifies db`deductions
    ensures db.deductions == RaiseBonuses(old(db.deductions), pro, c, bonuses)
    ensures amount == Total(bonuses, Reward)
  {
    amount := 0;
    assert bonuses[0..] == bonuses;
    for i := 0 to |bonuses|
      invariant RaiseBonuses(db.deductions, pro, c, bonuses[i..]) == RaiseBonuses(old(db.deductions), pro, c, bonuses)
      invariant amount + Total(bonuses[i..], Reward) == Total(bonuses, Reward)
    {
      assert bonuses[i..][0] == bonuses[i] && bonuses[i..][1..] == bonuses[i + 1..];
      var raised := Raise(db, BonusClaim(pro, c, bonuses[i]));
      if raised.Some? { amount := amount + bonuses[i].reward; }
    }
  }

  method ReverseCommission(db: Tables, c: CommissionId) returns (r: Option<Outcome>)
    modifies db
    ensures db.View() == Reverse(old(db.View()), c)
    ensures r == Report(old(db.View()), c)
  {
    hide BonusesOf, Unwind, RaiseOne, RaiseBonuses, Without;
    if c >= |db.commissions| { return None; }
    if db.commissions[c].reversed { return Some(Describe(db.View(), c)); }
    var row := db.commissions[c];
    var wasPaid := row.status == CommissionStatus.Paid;
    var unwound := UnwindForCommission(db, c);
    db.commissions := db.commissions[c := Marked(row)];
    if !wasPaid { return Some(Outcome(Dropped, 0)); }
    var first := Raise(db, CommissionClaim(row, c));
    var bonuses := RaiseEachBonus(db, row.pro, c, unwound);
    r := Some(Outcome(Deducted, (if first.Some? then row.amount else 0) + bonuses));
  }

  /** `onRefund`: only a full refund reverses by itself. */
  method OnRefund(db: Tables, commission: Option<CommissionId>, full: bool)
    modifies db
    ensures db.View() == if commission.Some? && full then Reverse(old(db.View()), commission.value) else old(db.View())
  {
    if commission.None? || !full { return; }
    var _ := ReverseCommission(db, commission.value);
  }
}
