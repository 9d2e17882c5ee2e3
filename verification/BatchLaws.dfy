/** What claiming rows for a payout does to the table of debts, and what rejecting undoes. */
module BatchLaws {
  import opened Wrappers
  import opened Totals
  import opened Books
  import opened Deductions
  import opened PayoutBatch

  function ClaimedBy(p: PayoutId): Deduction -> int {
    (d: Deduction) => if d.owner == Some(p) then d.consumed else 0
  }

  /** A row no payout has touched. */
  predicate Free(d: Deduction) { d.consumed == 0 && d.owner == None && !d.settled }

  /** A row one payout has taken whole. */
  predicate Held(d: Deduction, p: PayoutId) {
    d.owner == Some(p) && d.consumed == d.amount > 0 && d.settled && !d.waived
  }

  /** Lines that a plan over free rows of one Pro can contain. */
  ghost predicate Claimable(ds: seq<Deduction>, lines: seq<Line>, pro: ProId) {
    (forall k :: 0 <= k < |lines| ==> LineFits(ds, lines[k], pro))
    && (forall j, k :: 0 <= j < k < |lines| ==> lines[j].id != lines[k].id)
  }

  predicate LineFits(ds: seq<Deduction>, line: Line, pro: ProId) {
    line.id < |ds|
    && var d := ds[line.id];
       d.pro == pro && Free(d) && !d.waived
       && 0 < line.taken <= d.amount
       && (line.whole <==> line.taken == d.amount)
  }

  lemma ClaimableRest(ds: seq<Deduction>, lines: seq<Line>, pro: ProId, p: PayoutId)
    requires lines != [] && Claimable(ds, lines, pro)
    ensures Claimable(ClaimLine(ds, lines[0], p), lines[1..], pro)
  {
    var rest := lines[1..];
    var next := ClaimLine(ds, lines[0], p);
    forall k | 0 <= k < |rest| ensures LineFits(next, rest[k], pro) {
      assert rest[k] == lines[k + 1] && LineFits(ds, lines[k + 1], pro);
      assert lines[0].id != lines[k + 1].id;
    }
    forall j, k | 0 <= j < k < |rest| ensures rest[j].id != rest[k].id {
      assert rest[j] == lines[j + 1] && rest[k] == lines[k + 1];
    }
  }

  lemma ClaimLineTotal(ds: seq<Deduction>, line: Line, p: PayoutId, w: Deduction -> int)
    requires line.id < |ds|
    ensures var d := ds[line.id];
            Total(ClaimLine(ds, line, p), w)
            == Total(ds, w) - w(d) + w(Owned(d, line.taken, p)) + if line.whole then 0 else w(Remainder(d, line.taken))
  {
    var d := ds[line.id];
    var updated := ds[line.id := Owned(d, line.taken, p)];
    TotalUpdate(ds, line.id, Owned(d, line.taken, p), w);
    if line.whole {
      assert updated + [] == updated;
    } else {
      TotalAppend(updated, Remainder(d, line.taken), w);
    }
  }

  /** A weight that the split of an untouched row divides between the two, and a claim leaves alone. */
  ghost predicate Splits(w: Deduction -> int, p: PayoutId) {
    (forall d: Deduction, t: int {:trigger Remainder(d, t)} ::
       Free(d) && !d.waived ==> w(Owned(d, t, p)) + w(Remainder(d, t)) == w(d))
    && (forall d: Deduction {:trigger Owned(d, d.amount, p)} ::
          Free(d) && !d.waived ==> w(Owned(d, d.amount, p)) == w(d))
  }

  lemma {:induction false} ClaimKeepsTotal(ds: seq<Deduction>, lines: seq<Line>, pro: ProId, p: PayoutId,
                                            w: Deduction -> int)
    requires Claimable(ds, lines, pro) && Splits(w, p)
    ensures Total(ClaimLines(ds, lines, p), w) == Total(ds, w)
    decreases |lines|
  {
    if lines != [] {
      assert LineFits(ds, lines[0], pro);
      ClaimLineTotal(ds, lines[0], p, w);
      ClaimableRest(ds, lines, pro, p);
      ClaimKeepsTotal(ClaimLine(ds, lines[0], p), lines[1..], pro, p, w);
      var d := ds[lines[0].id];
      assert w(Owned(d, lines[0].taken, p)) + w(Remainder(d, lines[0].taken)) == w(d);
      assert w(Owned(d, d.amount, p)) == w(d);
    }
  }

  lemma {:induction false} ClaimTakes(ds: seq<Deduction>, lines: seq<Line>, pro: ProId, p: PayoutId, q: PayoutId)
    requires Claimable(ds, lines, pro)
    ensures Total(ClaimLines(ds, lines, p), ClaimedBy(q))
            == Total(ds, ClaimedBy(q)) + if q == p then Total(lines, Taken) else 0
    decreases |lines|
  {
    if lines != [] {
      assert LineFits(ds, lines[0], pro);
      ClaimLineTotal(ds, lines[0], p, ClaimedBy(q));
      ClaimableRest(ds, lines, pro, p);
      ClaimTakes(ClaimLine(ds, lines[0], p), lines[1..], pro, p, q);
    }
  }

  /** The table after a claim, row by row: old rows keep their identity and are untouched or
      newly held; rows added are keyless remainders of the same Pro. */
  ghost predicate Grown(before: seq<Deduction>, after: seq<Deduction>, pro: ProId, p: PayoutId) {
    |before| <= |after|
    && (forall i :: 0 <= i < |before| ==> Kept(before[i], after[i], pro, p))
    && (forall i :: |before| <= i < |after| ==> Added(after[i], pro, p))
  }

  predicate Kept(d: Deduction, e: Deduction, pro: ProId, p: PayoutId) {
    e == d
    || (Free(d) && !d.waived && d.pro == pro && Held(e, p)
        && e.pro == d.pro && e.kind == d.kind && e.source == d.source && e.key == d.key)
  }

  predicate Added(e: Deduction, pro: ProId, p: PayoutId) {
    e.pro == pro && e.key == None && !e.waived && e.amount > 0 && (Free(e) || Held(e, p))
  }

  lemma {:induction false} ClaimGrows(ds: seq<Deduction>, lines: seq<Line>, pro: ProId, p: PayoutId)
    requires Claimable(ds, lines, pro)
    ensures Grown(ds, ClaimLines(ds, lines, p), pro, p)
    decreases |lines|
  {
    if lines != [] {
      assert LineFits(ds, lines[0], pro);
      var next := ClaimLine(ds, lines[0], p);
      ClaimableRest(ds, lines, pro, p);
      ClaimGrows(next, lines[1..], pro, p);
      var final := ClaimLines(ds, lines, p);
      forall i | 0 <= i < |final|
        ensures if i < |ds| then Kept(ds[i], final[i], pro, p) else Added(final[i], pro, p)
      {
        if i < |next| { assert Kept(next[i], final[i], pro, p); } else { assert Added(final[i], pro, p); }
      }
    }
  }

  /** What holds of every row because of its Pro, kind and source still does after a claim. */
  lemma {:induction false} ClaimKeepsIdentity(ds: seq<Deduction>, lines: seq<Line>, pro: ProId, p: PayoutId,
                                               good: Deduction -> bool)
    requires Claimable(ds, lines, pro)
    requires forall d, e: Deduction :: good(d) && e.pro == d.pro && e.kind == d.kind && e.source == d.source ==> good(e)
    requires forall i :: 0 <= i < |ds| ==> good(ds[i])
    ensures forall i :: 0 <= i < |ClaimLines(ds, lines, p)| ==> good(ClaimLines(ds, lines, p)[i])
    decreases |lines|
  {
    if lines != [] {
      assert LineFits(ds, lines[0], pro);
      var next := ClaimLine(ds, lines[0], p);
      var d := ds[lines[0].id];
      assert good(d) && good(Owned(d, lines[0].taken, p)) && good(Remainder(d, lines[0].taken));
      assert forall i :: 0 <= i < |next| ==> good(next[i]);
      ClaimableRest(ds, lines, pro, p);
      ClaimKeepsIdentity(next, lines[1..], pro, p, good);
    }
  }

  // ---- plans are claimable ----

  /** The table rows a plan may rely on: positive amounts, and whatever is free is whole. */
  ghost predicate CleanQueue(ds: seq<Deduction>, pro: ProId) {
    forall i :: 0 <= i < |ds| && Outstanding(ds[i], pro) ==> Free(ds[i]) && ds[i].amount > 0
  }

  lemma {:induction false} PositiveIsAll(queue: seq<Debt>)
    requires forall k :: 0 <= k < |queue| ==> queue[k].owed > 0
    ensures Positive(queue) == queue
  {
    if queue != [] { PositiveIsAll(queue[1..]); }
  }

  lemma PlanIsClaimable(ds: seq<Deduction>, pro: ProId, available: int)
    requires available >= 0 && CleanQueue(ds, pro)
    ensures Claimable(ds, Plan(Queue(ds, pro), available), pro)
    ensures 0 <= Total(Plan(Queue(ds, pro), available), Taken) <= available
  {
    hide Plan;
    var queue := Queue(ds, pro);
    var lines := Plan(queue, available);
    forall k | 0 <= k < |queue| ensures queue[k].owed > 0 {
      assert Outstanding(ds[queue[k].id], pro);
    }
    PositiveIsAll(queue);
    PlanIsExact(queue, available);
    forall k | 0 <= k < |lines| ensures LineFits(ds, lines[k], pro) {
      assert Outstanding(ds[queue[k].id], pro);
    }
  }
}
