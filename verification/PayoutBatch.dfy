/** Drafting, approving and rejecting payouts. */
module PayoutBatch {
  import opened Wrappers
  import opened Totals
  import opened Books
  import opened Deductions

  /** The Pro's verified primary bank account, as far as it can be paid to. */
  datatype BankAccount = NoneVerified | Unpayable | Payable

  datatype SkipCode = NoVerifiedBankAccount | NoPayableDestination | BelowMinimumNet

  datatype SkippedPro = SkippedPro(pro: ProId, code: SkipCode, withheld: int)

  datatype Attempt =
    | NothingToPay
    | Skipped(skip: SkippedPro)
    | Drafted(draft: Payout, lines: seq<Line>)

  /** Who is asked to be paid, and on what terms. `account` is None when there is no such Pro. */
  datatype Request = Request(pro: ProId, account: Option<BankAccount>, cutoff: int, minimumNet: int)

  // ---- buildOne ----

  predicate Batchable(c: Commission, pro: ProId, cutoff: int) {
    c.pro == pro && c.status == CommissionStatus.Approved && c.payout == None && !c.reversed && c.computedAt < cutoff
  }

  function CommissionIn(pro: ProId, cutoff: int): Commission -> int {
    (c: Commission) => if Batchable(c, pro, cutoff) then c.amount else 0
  }

  function IncentiveIn(pro: ProId, cutoff: int): Commission -> int {
    (c: Commission) => if Batchable(c, pro, cutoff) then c.incentive else 0
  }

  predicate AnyBatchable(cs: seq<Commission>, pro: ProId, cutoff: int) {
    exists i :: 0 <= i < |cs| && Batchable(cs[i], pro, cutoff)
  }

  function CommissionTotal(cs: seq<Commission>, pro: ProId, cutoff: int): nat {
    TotalNonNegative(cs, CommissionIn(pro, cutoff));
    Total(cs, CommissionIn(pro, cutoff))
  }

  function IncentiveTotal(cs: seq<Commission>, pro: ProId, cutoff: int): nat {
    TotalNonNegative(cs, IncentiveIn(pro, cutoff));
    Total(cs, IncentiveIn(pro, cutoff))
  }

  /** Everything `buildOne` decides before it writes anything. */
  function Decide(b: Books, r: Request): Attempt {
    if r.account.None? || !AnyBatchable(b.commissions, r.pro, r.cutoff) then NothingToPay
    else
      var commission := CommissionTotal(b.commissions, r.pro, r.cutoff);
      var incentive := IncentiveTotal(b.commissions, r.pro, r.cutoff);
      var gross := commission + incentive;
      var lines := Plan(Queue(b.deductions, r.pro), gross);
      var taken := Total(lines, Taken);
      var net := gross - taken;
      match r.account.value
      case NoneVerified => Skipped(SkippedPro(r.pro, NoVerifiedBankAccount, gross))
      case Unpayable => Skipped(SkippedPro(r.pro, NoPayableDestination, gross))
      case Payable =>
        if net < r.minimumNet then Skipped(SkippedPro(r.pro, BelowMinimumNet, net))
        else Drafted(Payout(r.pro, commission, incentive, taken, net, PayoutStatus.Draft, 0, None), lines)
  }

  function Attach(p: PayoutId, pro: ProId, cutoff: int): Commission -> Commission {
    (c: Commission) => if Batchable(c, pro, cutoff) then c.(payout := Some(p)) else c
  }

  /** What a payout could not afford of a row, carried forward as a row of its own. */
  function Remainder(d: Deduction, taken: int): Deduction {
    Deduction(d.pro, d.amount - taken, 0, d.kind, d.source, None, None, false, false)
  }

  function Owned(d: Deduction, taken: int, p: PayoutId): Deduction {
    d.(amount := taken, consumed := taken, owner := Some(p), settled := true)
  }

  function ClaimLine(ds: seq<Deduction>, line: Line, p: PayoutId): seq<Deduction> {
    if line.id >= |ds| then ds
    else
      var d := ds[line.id];
      ds[line.id := Owned(d, line.taken, p)] + if line.whole then [] else [Remainder(d, line.taken)]
  }

  function ClaimLines(ds: seq<Deduction>, lines: seq<Line>, p: PayoutId): seq<Deduction>
    decreases |lines|
  {
    if lines == [] then ds else ClaimLines(ClaimLine(ds, lines[0], p), lines[1..], p)
  }

  function Build(b: Books, r: Request): Books {
    match Decide(b, r)
    case Drafted(draft, lines) =>
      var p := |b.payouts|;
      b.(payouts := b.payouts + [draft],
         commissions := Rewritten(b.commissions, Attach(p, r.pro, r.cutoff)),
         deductions := ClaimLines(b.deductions, lines, p))
    case _ => b
  }

  method ClaimDeductions(db: Tables, lines: seq<Line>, p: PayoutId)
    modifies db`deductions
    ensures db.deductions == ClaimLines(old(db.deductions), lines, p)
  {
    var i := 0;
    assert lines[0..] == lines;
    while i < |lines|
      invariant 0 <= i <= |lines|
      invariant ClaimLines(db.deductions, lines[i..], p) == ClaimLines(old(db.deductions), lines, p)
    {
      var line := lines[i];
      assert lines[i..][1..] == lines[i + 1..];
      ghost var before := db.deductions;
      if line.id < |db.deductions| {
        var current := db.deductions[line.id];
        if !line.whole {
          db.deductions := db.deductions + [Remainder(current, line.taken)];
        }
        db.deductions := db.deductions[line.id := Owned(current, line.taken, p)];
      }
      assert db.deductions == ClaimLine(before, line, p);
      i := i + 1;
    }
  }

  method BuildOne(db: Tables, r: Request) returns (attempt: Attempt)
    modifies db
    ensures attempt == Decide(old(db.View()), r)
    ensures db.View() == Build(old(db.View()), r)
  {
    hide Plan, Queue, ClaimLines, CommissionTotal, IncentiveTotal, AnyBatchable, Total;
    if r.account.None? || !AnyBatchable(db.commissions, r.pro, r.cutoff) {
      return NothingToPay;
    }
    var commission := CommissionTotal(db.commissions, r.pro, r.cutoff);
    var incentive := IncentiveTotal(db.commissions, r.pro, r.cutoff);
    var gross := commission + incentive;
    var taken, lines := PlanConsumption(db, r.pro, gross);
    var net := gross - taken;
    if r.account.value == NoneVerified {
      return Skipped(SkippedPro(r.pro, NoVerifiedBankAccount, gross));
    }
    if r.account.value == Unpayable {
      return Skipped(SkippedPro(r.pro, NoPayableDestination, gross));
    }
    if net < r.minimumNet {
      return Skipped(SkippedPro(r.pro, BelowMinimumNet, net));
    }
    var payout := |db.payouts|;
    var draft := Payout(r.pro, commission, incentive, taken, net, PayoutStatus.Draft, 0, None);
    db.payouts := db.payouts + [draft];
    db.commissions := Rewritten(db.commissions, Attach(payout, r.pro, r.cutoff));
    ClaimDeductions(db, lines, payout);
    attempt := Drafted(draft, lines);
  }

  // ---- generate ----

  /** What one generation did: the payouts it drafted and the Pros it could not pay. */
  datatype Batch = Batch(books: Books, created: seq<PayoutId>, skipped: seq<SkippedPro>)

  datatype Terms = Terms(accounts: map<ProId, BankAccount>, cutoff: int, minimumNet: int)

  function RequestFor(pro: ProId, t: Terms): Request {
    Request(pro, if pro in t.accounts then Some(t.accounts[pro]) else None, t.cutoff, t.minimumNet)
  }

  /** One more Pro asked. */
  function Extended(done: Batch, r: Request): Batch {
    match Decide(done.books, r)
    case NothingToPay => done
    case Skipped(s) => done.(skipped := done.skipped + [s])
    case Drafted(_, _) => Batch(Build(done.books, r), done.created + [|done.books.payouts|], done.skipped)
  }

  function Generate(b: Books, order: seq<ProId>, t: Terms): Batch {
    if order == [] then Batch(b, [], [])
    else Extended(Generate(b, order[..|order| - 1], t), RequestFor(order[|order| - 1], t))
  }

  /** The Pros with anything to pay before the cutoff, restricted to one city when asked. */
  ghost predicate IsCandidate(b: Books, pro: ProId, cutoff: int, scope: Option<set<ProId>>) {
    AnyBatchable(b.commissions, pro, cutoff) && (scope.Some? ==> pro in scope.value)
  }

  /** The grouped query: every candidate once, in whatever order the database answers. */
  ghost predicate Groups(order: seq<ProId>, b: Books, cutoff: int, scope: Option<set<ProId>>) {
    (forall j, k :: 0 <= j < k < |order| ==> order[j] != order[k])
    && (forall pro :: pro in order <==> IsCandidate(b, pro, cutoff, scope))
  }

  method GenerateBatch(db: Tables, order: seq<ProId>, t: Terms)
    returns (created: seq<PayoutId>, skipped: seq<SkippedPro>)
    modifies db
    ensures Generate(old(db.View()), order, t) == Batch(db.View(), created, skipped)
  {
    created, skipped := [], [];
    for i := 0 to |order|
      invariant Generate(old(db.View()), order[..i], t) == Batch(db.View(), created, skipped)
    {
      assert order[..i + 1][..i] == order[..i];
      var payout := |db.payouts|;
      var outcome := BuildOne(db, RequestFor(order[i], t));
      match outcome
      case NothingToPay =>
      case Skipped(s) => skipped := skipped + [s];
      case Drafted(_, _) => created := created + [payout];
    }
    assert order[..|order|] == order;
  }

  // ---- approve and reject ----

  datatype BatchError = PayoutNotFound | PayoutNotDraft | PayoutNotReversible

  function StatusIs(b: Books, p: PayoutId, s: PayoutStatus): bool { p < |b.payouts| && b.payouts[p].status == s }

  function WithStatus(b: Books, p: PayoutId, s: PayoutStatus): Books
    requires p < |b.payouts|
  {
    b.(payouts := b.payouts[p := b.payouts[p].(status := s)])
  }

  function Approve(b: Books, p: PayoutId): Books {
    if StatusIs(b, p, PayoutStatus.Draft) then WithStatus(b, p, PayoutStatus.Approved) else b
  }

  method ApprovePayout(db: Tables, p: PayoutId) returns (r: Result<(), BatchError>)
    modifies db`payouts
    ensures db.View() == Approve(old(db.View()), p)
    ensures r.Ok? <==> StatusIs(old(db.View()), p, PayoutStatus.Draft)
    ensures r == Err(PayoutNotFound) <==> p >= |old(db.payouts)|
  {
    if p >= |db.payouts| { return Err(PayoutNotFound); }
    if db.payouts[p].status != PayoutStatus.Draft { return Err(PayoutNotDraft); }
    db.payouts := db.payouts[p := db.payouts[p].(status := PayoutStatus.Approved)];
    r := Ok(());
  }

  function Detach(p: PayoutId): Commission -> Commission {
    (c: Commission) => if c.payout == Some(p) then c.(payout := None) else c
  }

  /** Giving a row back. A row that took nothing is left alone. */
  function Release(p: PayoutId): Deduction -> Deduction {
    (d: Deduction) =>
      if d.owner == Some(p) && d.consumed != 0 then d.(consumed := 0, owner := None, settled := false) else d
  }

  predicate Rejectable(b: Books, p: PayoutId) {
    StatusIs(b, p, PayoutStatus.Draft) || StatusIs(b, p, PayoutStatus.Approved)
  }

  function Reject(b: Books, p: PayoutId): Books {
    if !Rejectable(b, p) then b
    else WithStatus(b, p, PayoutStatus.Rejected).(
           commissions := Rewritten(b.commissions, Detach(p)),
           deductions := Rewritten(b.deductions, Release(p)))
  }

  method RejectPayout(db: Tables, p: PayoutId) returns (r: Result<(), BatchError>)
    modifies db
    ensures db.View() == Reject(old(db.View()), p)
    ensures r.Ok? <==> Rejectable(old(db.View()), p)
    ensures r == Err(PayoutNotFound) <==> p >= |old(db.payouts)|
  {
    if p >= |db.payouts| { return Err(PayoutNotFound); }
    if db.payouts[p].status != PayoutStatus.Draft && db.payouts[p].status != PayoutStatus.Approved {
      return Err(PayoutNotReversible);
    }
    db.commissions := Rewritten(db.commissions, Detach(p));
    for i := 0 to |db.deductions|
      invariant |db.deductions| == |old(db.deductions)|
      invariant forall k :: 0 <= k < i ==> db.deductions[k] == Release(p)(old(db.deductions)[k])
      invariant forall k :: i <= k < |db.deductions| ==> db.deductions[k] == old(db.deductions)[k]
      invariant db.commissions == Rewritten(old(db.commissions), Detach(p))
      invariant db.payouts == old(db.payouts) && db.progress == old(db.progress)
      invariant db.contributions == old(db.contributions) && db.submissions == old(db.submissions)
    {
      var d := db.deductions[i];
      if d.owner == Some(p) && d.consumed != 0 {
        db.deductions := db.deductions[i := d.(consumed := 0, owner := None, settled := false)];
      }
    }
    assert db.deductions == Rewritten(old(db.deductions), Release(p));
    db.payouts := db.payouts[p := db.payouts[p].(status := PayoutStatus.Rejected)];
    r := Ok(());
  }
}
