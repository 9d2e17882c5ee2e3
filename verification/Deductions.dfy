/** Debts of a Pro to the platform: raising, waiving, and planning what a payout takes. */
module Deductions {
  import opened Wrappers
  import opened Totals
  import opened Books

  datatype Debt = Debt(id: DeductionId, owed: int)

  /** What a payout takes from one row, and whether that is all of it. */
  datatype Line = Line(id: DeductionId, taken: int, whole: bool)

  datatype WaiveError = NotFound | AlreadyWaived | AlreadyConsumed

  function StillOwed(d: Deduction): int { d.amount - d.consumed }

  predicate Outstanding(d: Deduction, pro: ProId) { d.pro == pro && !d.waived && !d.settled }

  /** The Pro's outstanding rows, oldest first. */
  function Queue(ds: seq<Deduction>, pro: ProId, from: nat := 0): (q: seq<Debt>)
    requires from <= |ds|
    ensures forall k :: 0 <= k < |q| ==>
              from <= q[k].id < |ds| && Outstanding(ds[q[k].id], pro)
              && q[k].owed == ds[q[k].id].amount - ds[q[k].id].consumed
    ensures forall j, k :: 0 <= j < k < |q| ==> q[j].id < q[k].id
    decreases |ds| - from
  {
    if from == |ds| then []
    else (if Outstanding(ds[from], pro) then [Debt(from, StillOwed(ds[from]))] else []) + Queue(ds, pro, from + 1)
  }

  function Owed(d: Debt): int { d.owed }

  function Taken(l: Line): int { l.taken }

  // ---- planConsumption ----

  /** Oldest first: each debt gives what is still needed, until nothing is. */
  function Plan(queue: seq<Debt>, available: int): seq<Line> {
    if queue == [] || available == 0 then []
    else
      var taken := Min(available, queue[0].owed);
      if taken == 0 then Plan(queue[1..], available)
      else [Line(queue[0].id, taken, queue[0].owed - taken == 0)] + Plan(queue[1..], available - taken)
  }

  function Positive(queue: seq<Debt>): seq<Debt> {
    if queue == [] then []
    else (if queue[0].owed > 0 then [queue[0]] else []) + Positive(queue[1..])
  }

  /** The lines are a prefix of the debts, and only the last may be partial. */
  predicate OldestFirst(lines: seq<Line>, debts: seq<Debt>) {
    |lines| <= |debts|
    && (forall k :: 0 <= k < |lines| ==>
          lines[k].id == debts[k].id
          && 0 < lines[k].taken <= debts[k].owed
          && (lines[k].whole <==> lines[k].taken == debts[k].owed))
    && (forall k :: 0 <= k < |lines| - 1 ==> lines[k].whole)
  }

  predicate NonNegative(queue: seq<Debt>) { forall k :: 0 <= k < |queue| ==> queue[k].owed >= 0 }

  lemma {:induction false} PlanTakes(queue: seq<Debt>, available: int)
    requires available >= 0 && NonNegative(queue)
    ensures Total(queue, Owed) >= 0
    ensures Total(Plan(queue, available), Taken) == Min(available, Total(queue, Owed))
  {
    if queue != [] {
      var taken := Min(available, queue[0].owed);
      PlanTakes(queue[1..], available - taken);
      if available != 0 && taken != 0 {
        var tail := Plan(queue[1..], available - taken);
        assert Plan(queue, available)[1..] == tail;
      }
    }
  }

  lemma {:induction false} PositiveOwesTheSame(queue: seq<Debt>)
    requires NonNegative(queue)
    ensures Total(Positive(queue), Owed) == Total(queue, Owed)
    ensures forall k :: 0 <= k < |Positive(queue)| ==> Positive(queue)[k].owed > 0
  {
    if queue != [] {
      PositiveOwesTheSame(queue[1..]);
      if queue[0].owed > 0 {
        assert Positive(queue)[1..] == Positive(queue[1..]);
      } else {
        assert Positive(queue) == Positive(queue[1..]);
      }
    }
  }

  lemma Prepended(line: Line, tail: seq<Line>, debt: Debt, debts: seq<Debt>)
    requires OldestFirst(tail, debts)
    requires line.id == debt.id && 0 < line.taken <= debt.owed && (line.whole <==> line.taken == debt.owed)
    requires tail != [] ==> line.whole
    ensures OldestFirst([line] + tail, [debt] + debts)
  {
  }

  lemma {:induction false} PlanIsOldestFirst(queue: seq<Debt>, available: int)
    requires available >= 0 && NonNegative(queue)
    ensures OldestFirst(Plan(queue, available), Positive(queue))
  {
    if queue != [] && available != 0 {
      var debt, rest := queue[0], queue[1..];
      var taken := Min(available, debt.owed);
      PlanIsOldestFirst(rest, available - taken);
      if taken != 0 {
        Prepended(Line(debt.id, taken, debt.owed - taken == 0), Plan(rest, available - taken), debt, Positive(rest));
      }
    }
  }

  /** The plan takes exactly the smaller of what is available and what is owed, from the
      front of the queue of positive debts, leaving at most its last debt half paid. */
  lemma PlanIsExact(queue: seq<Debt>, available: int)
    requires available >= 0 && NonNegative(queue)
    ensures OldestFirst(Plan(queue, available), Positive(queue))
    ensures Total(Plan(queue, available), Taken) == Min(available, Total(queue, Owed))
    ensures Total(Positive(queue), Owed) == Total(queue, Owed) >= 0
  {
    PlanTakes(queue, available);
    PlanIsOldestFirst(queue, available);
    PositiveOwesTheSame(queue);
  }

  /** Nothing else satisfies those two requirements: they determine the lines. */
  lemma {:induction false} OldestFirstIsUnique(debts: seq<Debt>, a: seq<Line>, b: seq<Line>)
    requires forall k :: 0 <= k < |debts| ==> debts[k].owed > 0
    requires OldestFirst(a, debts) && OldestFirst(b, debts)
    requires Total(a, Taken) == Total(b, Taken)
    ensures a == b
  {
    if a == [] {
      TakenIsPositive(b);
    } else if b == [] {
      TakenIsPositive(a);
    } else {
      if a[0].taken != b[0].taken {
        // One of the two is partial, hence alone, and takes less than the other's first line.
        if !a[0].whole { assert |a| == 1; TakenIsPositive(b[1..]); }
        if !b[0].whole { assert |b| == 1; TakenIsPositive(a[1..]); }
        assert false;
      }
      assert OldestFirst(a[1..], debts[1..]) by { Shifted(a, debts); }
      assert OldestFirst(b[1..], debts[1..]) by { Shifted(b, debts); }
      OldestFirstIsUnique(debts[1..], a[1..], b[1..]);
      assert a == [a[0]] + a[1..] && b == [b[0]] + b[1..];
    }
  }

  lemma Shifted(lines: seq<Line>, debts: seq<Debt>)
    requires lines != [] && OldestFirst(lines, debts)
    ensures OldestFirst(lines[1..], debts[1..])
  {
    forall k | 0 <= k < |lines[1..]|
      ensures lines[1..][k] == lines[k + 1] && debts[1..][k] == debts[k + 1]
    {
    }
  }

  lemma {:induction false} TakenIsPositive(lines: seq<Line>)
    requires forall k :: 0 <= k < |lines| ==> lines[k].taken > 0
    ensures Total(lines, Taken) >= |lines|
  {
    if lines != [] {
      forall k | 0 <= k < |lines[1..]| ensures lines[1..][k].taken > 0 { assert lines[1..][k] == lines[k + 1]; }
      TakenIsPositive(lines[1..]);
    }
  }

  /** One turn of the loop: what was planned from row `i` on, with its first row dealt with. */
  lemma PlanTurn(lines: seq<Line>, rows: seq<Debt>, i: nat, remaining: int)
    requires i < |rows| && remaining != 0
    ensures var taken := Min(remaining, rows[i].owed);
            var line := Line(rows[i].id, taken, rows[i].owed - taken == 0);
            lines + Plan(rows[i..], remaining) ==
            if taken == 0 then lines + Plan(rows[i + 1..], remaining)
            else (lines + [line]) + Plan(rows[i + 1..], remaining - taken)
  {
    assert rows[i..][1..] == rows[i + 1..];
  }

  /** The loop of `planConsumption`, over the rows it has read. */
  method TakeInOrder(rows: seq<Debt>, available: int) returns (lines: seq<Line>)
    ensures lines == Plan(rows, available)
  {
    ghost var plan := Plan(rows, available);
    var remaining := available;
    lines := [];
    var i := 0;
    assert rows[0..] == rows;
    while i < |rows| && remaining != 0
      invariant 0 <= i <= |rows|
      invariant lines + Plan(rows[i..], remaining) == plan
    {
      PlanTurn(lines, rows, i, remaining);
      var taken := Min(remaining, rows[i].owed);
      if taken != 0 {
        var line := Line(rows[i].id, taken, rows[i].owed - taken == 0);
        lines := lines + [line];
        remaining := remaining - taken;
      }
      i := i + 1;
    }
    assert Plan(rows[i..], remaining) == [];
  }

  method PlanConsumption(db: Tables, pro: ProId, available: int) returns (total: int, lines: seq<Line>)
    ensures lines == Plan(Queue(db.deductions, pro), available)
    ensures total == Total(lines, Taken)
  {
    var rows := Queue(db.deductions, pro);
    lines := TakeInOrder(rows, available);
    total := Total(lines, Taken);
  }

  // ---- raise ----

  function FindKey(ds: seq<Deduction>, key: DedupeKey, from: nat := 0): (r: Option<DeductionId>)
    requires from <= |ds|
    ensures r.Some? ==> from <= r.value < |ds| && ds[r.value].key == Some(key)
    ensures r.None? ==> forall i :: from <= i < |ds| ==> ds[i].key != Some(key)
    decreases |ds| - from
  {
    if from == |ds| then None
    else if ds[from].key == Some(key) then Some(from)
    else FindKey(ds, key, from + 1)
  }

  predicate HasKey(ds: seq<Deduction>, key: DedupeKey) { FindKey(ds, key).Some? }

  /** A request to raise a debt. */
  datatype Claim = Claim(
    pro: ProId,
    amount: int,
    kind: DeductionKind,
    source: Option<CommissionId>,
    key: Option<DedupeKey>)

  function NewRow(c: Claim): Deduction {
    Deduction(c.pro, c.amount, 0, c.kind, c.source, c.key, None, false, false)
  }

  /** True when raising `c` will add a row rather than find one, or refuse a non-amount. */
  predicate Fresh(ds: seq<Deduction>, c: Claim) {
    c.amount > 0 && (c.key.Some? ==> !HasKey(ds, c.key.value))
  }

  function RaiseOne(ds: seq<Deduction>, c: Claim): seq<Deduction> {
    if Fresh(ds, c) then ds + [NewRow(c)] else ds
  }

  /** `raise`: the row the caller gets back, new or already there; none for a zero amount. */
  method Raise(db: Tables, c: Claim) returns (row: Option<DeductionId>)
    modifies db`deductions
    ensures db.deductions == RaiseOne(old(db.deductions), c)
    ensures row.Some? <==> c.amount > 0
    ensures row.Some? ==> row.value < |db.deductions|
    ensures row.Some? && c.key.Some? ==> db.deductions[row.value].key == c.key
  {
    if c.amount <= 0 {
      return None;
    }
    if c.key.Some? {
      var existing := FindKey(db.deductions, c.key.value);
      if existing.Some? {
        return existing;
      }
    }
    db.deductions := db.deductions + [NewRow(c)];
    row := Some(|db.deductions| - 1);
  }

  // ---- waive ----

  predicate Waivable(ds: seq<Deduction>, id: DeductionId) {
    id < |ds| && !ds[id].waived && !ds[id].settled
  }

  function WaiveOne(ds: seq<Deduction>, id: DeductionId): seq<Deduction> {
    if Waivable(ds, id) then ds[id := ds[id].(waived := true)] else ds
  }

  method Waive(db: Tables, id: DeductionId) returns (r: Result<(), WaiveError>)
    modifies db`deductions
    ensures db.deductions == WaiveOne(old(db.deductions), id)
    ensures r.Ok? <==> Waivable(old(db.deductions), id)
    ensures r == Err(NotFound) <==> id >= |db.deductions|
    ensures r == Err(AlreadyWaived) <==> id < |db.deductions| && old(db.deductions[id].waived)
  {
    if id >= |db.deductions| { return Err(NotFound); }
    if db.deductions[id].waived { return Err(AlreadyWaived); }
    if db.deductions[id].settled { return Err(AlreadyConsumed); }
    db.deductions := db.deductions[id := db.deductions[id].(waived := true)];
    r := Ok(());
  }

  /** A waived row asks nothing of its Pro any more, and is otherwise what it was; a row already waived
      or settled, and every other row, stands. */
  lemma WaivedIsNoLongerOwed(ds: seq<Deduction>, id: DeductionId, pro: ProId)
    requires id < |ds|
    ensures |WaiveOne(ds, id)| == |ds| && !Outstanding(WaiveOne(ds, id)[id], pro)
    ensures WaiveOne(ds, id)[id] == ds[id].(waived := WaiveOne(ds, id)[id].waived)
    ensures ds[id].settled ==> WaiveOne(ds, id)[id] == ds[id]
    ensures forall i :: 0 <= i < |ds| && i != id ==> WaiveOne(ds, id)[i] == ds[i]
  {
  }

  /** A claim adds a row of its own when it asks for something and no row carries its key yet: for the
      whole amount, untouched and owed by that Pro. Otherwise nothing changes. */
  lemma RaisingAddsARow(ds: seq<Deduction>, c: Claim)
    ensures var n := RaiseOne(ds, c);
            if c.amount > 0 && (c.key.Some? ==> forall i :: 0 <= i < |ds| ==> ds[i].key != c.key)
            then |n| == |ds| + 1 && n[..|ds|] == ds
                 && var row := n[|ds|];
                    row.pro == c.pro && row.amount == c.amount && row.consumed == 0 && row.kind == c.kind
                    && row.source == c.source && row.key == c.key && row.owner == None && !row.settled && !row.waived
            else n == ds
  {
    if c.key.Some? { var found := FindKey(ds, c.key.value); }
  }
}
