/** Writing a finished job's pay row, and letting it out of the hold window. */
module Commissions {
  import opened Wrappers
  import opened Books
  import opened CommissionCalculator

  /** A booking as this module reads it; `rate` is the service's rate at this moment. */
  datatype Job = Job(booking: nat, completed: bool, pro: Option<ProId>, started: bool, price: nat, rate: Option<Rate>)

  predicate HasRow(cs: seq<Commission>, booking: nat) {
    exists i :: 0 <= i < |cs| && cs[i].booking == booking
  }

  function NewCommission(job: Job, pro: ProId, now: int): Commission
    requires job.rate.Some?
  {
    var shares := ComputeShares(job.price, job.rate.value);
    Commission(job.booking, pro, job.price, shares.commission, shares.platform, 0,
               CommissionStatus.Pending, now, None, false)
  }

  predicate EarnsPay(job: Job, pro: ProId) {
    job.completed && job.pro == Some(pro) && job.started && job.rate.Some?
  }

  function Record(cs: seq<Commission>, job: Job, pro: ProId, now: int): seq<Commission> {
    if HasRow(cs, job.booking) || !EarnsPay(job, pro) then cs else cs + [NewCommission(job, pro, now)]
  }

  method RecordCompletion(db: Tables, job: Job, pro: ProId, now: int)
    modifies db`commissions
    ensures db.commissions == Record(old(db.commissions), job, pro, now)
  {
    if HasRow(db.commissions, job.booking) { return; }
    if !job.completed { return; }
    if job.pro != Some(pro) { return; }
    if !job.started { return; }
    if job.rate.None? { return; }
    db.commissions := db.commissions + [NewCommission(job, pro, now)];
  }

  /** What a rate makes of a price: of a percentage, to the nearest paisa with halves going up, the
      whole price at most; of a flat rate, just that, the whole price at most. */
  predicate IsShareOf(amount: nat, price: nat, rate: Rate) {
    match rate
    case Percent(h) =>
      if 2 * (price * h - 10_000 * price) >= 10_000 then amount == price
      else -10_000 <= 2 * (price * h - 10_000 * amount) < 10_000 && amount <= price
    case Flat(paise) => amount == if paise < price then paise else price
  }

  /** A completion writes a row only for a booking that has none, when the job is done, was started,
      was this Pro's and has a rate; the row is pending, splits the job's own price between the two,
      and carries no bonus and no payout. */
  lemma CompletionWrites(cs: seq<Commission>, job: Job, pro: ProId, now: int)
    ensures var n := Record(cs, job, pro, now);
            if (forall i :: 0 <= i < |cs| ==> cs[i].booking != job.booking)
               && job.completed && job.started && job.pro == Some(pro) && job.rate.Some?
            then |n| == |cs| + 1 && n[..|cs|] == cs
                 && var row := n[|cs|];
                    row.booking == job.booking && row.pro == pro && row.price == job.price
                    && row.amount + row.platform == job.price && IsShareOf(row.amount, job.price, job.rate.value)
                    && row.status == CommissionStatus.Pending && row.incentive == 0 && row.payout == None
                    && !row.reversed && row.computedAt == now
            else n == cs
  {
    if job.rate.Some? {
      ShareIs(job.price, job.rate.value);
      hide ComputeShares, IsShareOf;
    }
  }

  lemma ShareIs(price: nat, rate: Rate)
    ensures var s := ComputeShares(price, rate);
            IsShareOf(s.commission, price, rate) && s.commission + s.platform == price
  {
    SharesRebuildThePrice(price, rate);
    if rate.Percent? {
      var q := DivideRoundHalfUp(price * rate.hundredths, 10_000);
    }
  }

  function Sweep(cs: seq<Commission>, orphans: seq<Job>, now: int): seq<Commission> {
    if orphans == [] then cs
    else
      var last := orphans[|orphans| - 1];
      var done := Sweep(cs, orphans[..|orphans| - 1], now);
      if last.pro.None? then done else Record(done, last, last.pro.value, now)
  }

  function WithPro(orphans: seq<Job>): nat {
    if orphans == [] then 0
    else WithPro(orphans[..|orphans| - 1]) + if orphans[|orphans| - 1].pro.Some? then 1 else 0
  }

  lemma {:induction false} WithProCounts(orphans: seq<Job>)
    ensures WithPro(orphans) == |set i | 0 <= i < |orphans| && orphans[i].pro.Some?|
  {
    if orphans != [] {
      var n := |orphans| - 1;
      WithProCounts(orphans[..n]);
      assert (set i | 0 <= i < |orphans| && orphans[i].pro.Some?)
             == (set i | 0 <= i < n && orphans[..n][i].pro.Some?) + if orphans[n].pro.Some? then {n} else {};
    }
  }

  /** `sweepMissing`, over the orphans it has found. `written` counts every job tried, whether or
      not a row came of it. */
  method SweepMissing(db: Tables, orphans: seq<Job>, now: int) returns (written: nat)
    modifies db`commissions
    ensures db.commissions == Sweep(old(db.commissions), orphans, now)
    ensures written == |set i | 0 <= i < |orphans| && orphans[i].pro.Some?|
  {
    written := 0;
    for i := 0 to |orphans|
      invariant written == WithPro(orphans[..i])
      invariant db.commissions == Sweep(old(db.commissions), orphans[..i], now)
    {
      assert orphans[..i + 1][..i] == orphans[..i];
      if orphans[i].pro.Some? {
        RecordCompletion(db, orphans[i], orphans[i].pro.value, now);
        written := written + 1;
      }
    }
    assert orphans[..|orphans|] == orphans;
    WithProCounts(orphans);
  }

  ghost predicate OneRowEach(cs: seq<Commission>) {
    forall i, j :: 0 <= i < j < |cs| ==> cs[i].booking != cs[j].booking
  }

  /** A sweep pays every payable orphan, keeps one row a booking however often jobs repeat,
      and leaves the rows already there as they were. */
  lemma {:induction false} SweepPaysOnce(cs: seq<Commission>, orphans: seq<Job>, now: int)
    requires OneRowEach(cs)
    ensures var after := Sweep(cs, orphans, now);
            OneRowEach(after) && |cs| <= |after| && after[..|cs|] == cs
            && forall k :: 0 <= k < |orphans| && orphans[k].pro.Some? && EarnsPay(orphans[k], orphans[k].pro.value) ==>
                 HasRow(after, orphans[k].booking)
  {
    if orphans != [] {
      var n := |orphans| - 1;
      var done := Sweep(cs, orphans[..n], now);
      SweepPaysOnce(cs, orphans[..n], now);
      var after := Sweep(cs, orphans, now);
      assert done <= after;
      forall k | 0 <= k < |orphans| && orphans[k].pro.Some? && EarnsPay(orphans[k], orphans[k].pro.value)
        ensures HasRow(after, orphans[k].booking)
      {
        if k < n {
          assert orphans[..n][k] == orphans[k];
          var i :| 0 <= i < |done| && done[i].booking == orphans[k].booking;
          assert after[i] == done[i];
        } else if !HasRow(done, orphans[k].booking) {
          assert after[|done|].booking == orphans[k].booking;
        }
      }
    }
  }

  // ---- approveMatured ----

  /** `held` are the bookings with a refund in flight or a cancellation after the fact. */
  predicate Matured(c: Commission, cutoff: int, held: set<nat>) {
    c.status == CommissionStatus.Pending && c.computedAt <= cutoff && c.booking !in held
  }

  function Mature(cutoff: int, held: set<nat>): Commission -> Commission {
    (c: Commission) => if Matured(c, cutoff, held) then c.(status := CommissionStatus.Approved) else c
  }

  /** Exactly the matured rows become approved: no other row, and no other column, moves. */
  ghost predicate Released(was: seq<Commission>, now: seq<Commission>, cutoff: int, held: set<nat>) {
    |now| == |was|
    && (forall i :: 0 <= i < |was| ==> now[i] == was[i].(status := now[i].status))
    && (forall i :: 0 <= i < |was| ==>
          (now[i].status == CommissionStatus.Approved
           <==> was[i].status == CommissionStatus.Approved || Matured(was[i], cutoff, held)))
    && (forall i :: 0 <= i < |was| && now[i].status != was[i].status ==> Matured(was[i], cutoff, held))
  }

  method ApproveMatured(db: Tables, cutoff: int, held: set<nat>) returns (count: nat)
    modifies db`commissions
    ensures Released(old(db.commissions), db.commissions, cutoff, held)
    ensures count == |set i | 0 <= i < |db.commissions| && db.commissions[i].status != old(db.commissions)[i].status|
  {
    var due := set i | 0 <= i < |db.commissions| && Matured(db.commissions[i], cutoff, held);
    count := |due|;
    db.commissions := Rewritten(db.commissions, Mature(cutoff, held));
    assert due == set i | 0 <= i < |db.commissions| && db.commissions[i].status != old(db.commissions)[i].status;
  }

  /** That leaves nothing open: there is one such table, the bulk update's. */
  lemma ReleasedIsTheUpdate(was: seq<Commission>, now: seq<Commission>, cutoff: int, held: set<nat>)
    ensures Released(was, now, cutoff, held) <==> now == Rewritten(was, Mature(cutoff, held))
  {
    if Released(was, now, cutoff, held) {
      forall i | 0 <= i < |was| ensures now[i] == Mature(cutoff, held)(was[i]) {
        assert now[i] == was[i].(status := now[i].status);
      }
    }
  }
}
