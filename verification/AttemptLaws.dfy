/** How one dispatch attempt ends, told from the booking, the rows and what was seen alone. */
module AttemptLaws {
  import opened Wrappers
  import opened BookingTypes
  import opened Bookings
  import opened Dispatch
  import opened DispatchService
  import L = DispatchLadder
  import R = DispatchRanking
  import DispatchRuns

  // ---- who can be reached ----

  /** The ceiling bars from cash work, and from that alone. */
  function OutOfReach(row: Columns, seen: Sighting): set<ProId> {
    if row.mode == Online then {} else seen.overCeiling
  }

  /** Those who work where somebody is posted, the area before its neighbours; or, with no staffed
      area or nobody there, the whole city less those out of reach. */
  function Reachable(row: Columns, seen: Sighting, widen: bool): set<ProId> {
    var city := seen.pool - OutOfReach(row, seen);
    if seen.area == None || seen.area.value.inArea == None then city
    else
      var here := seen.pool * seen.area.value.inArea.value;
      if here != {} || !widen then here
      else if seen.area.value.hasNeighbours && seen.area.value.nearby.Some?
              && seen.pool * seen.area.value.nearby.value != {}
      then seen.pool * seen.area.value.nearby.value
      else city
  }

  lemma EligibleIsReachable(row: Columns, seen: Sighting, s: Settings)
    ensures Eligible(row, seen, s) == Reachable(row, seen, s.allowWiden)
  {
    if seen.area.Some? && seen.area.value.inArea.Some? {
      var p := seen.area.value;
      if seen.pool * p.inArea.value != {} { assert p.inArea.value != {}; }
      if p.nearby.Some? && seen.pool * p.nearby.value != {} { assert p.nearby.value != {}; }
    }
  }

  /** Who is over the ceiling makes no difference to an online booking. */
  lemma OnlineIgnoresTheCeiling(d: Desk, seen: Sighting, over: set<ProId>, s: Settings)
    requires d.booking.row.mode == Online
    ensures Attempted(d, seen.(overCeiling := over), s) == Attempted(d, seen, s)
  {
    hide L.PoolFor, RankedFor, Recorded, AddRows, Bookings.Step;
  }

  // ---- who is chosen ----

  /** Scored, not struck out, and not on record as having won this booking before. */
  predicate Askable(d: Desk, scored: seq<R.Candidate>, c: R.Candidate) {
    c in scored && !c.excluded && forall k :: k in d.rows && k.1 == c.pro ==> !d.rows[k]
  }

  lemma TriedIsOnRecord(rows: map<(nat, ProId), bool>, pro: ProId)
    ensures pro in Winners(rows) <==> exists k :: k in rows && k.1 == pro && rows[k]
  {
    if k :| k in rows && k.1 == pro && rows[k] { assert k.1 in Winners(rows); }
  }

  lemma AskableIsRanked(d: Desk, scored: seq<R.Candidate>, c: R.Candidate)
    ensures c in RankedFor(scored, Winners(d.rows)) <==> Askable(d, scored, c)
  {
    hide R.Sort, R.Kept;
    var marked := Marked(scored, Winners(d.rows));
    R.SortKeeps(R.Kept(marked));
    R.KeptOf(marked);
    TriedIsOnRecord(d.rows, c.pro);
    var ranked := RankedFor(scored, Winners(d.rows));
    assert c in ranked <==> multiset(ranked)[c] > 0;
    assert c in marked <==> multiset(marked)[c] > 0;
    hide Winners;
    if c in scored && c.pro !in Winners(d.rows) {
      var i :| 0 <= i < |scored| && scored[i] == c;
      assert marked[i] == c;
    }
    if c in marked && !c.excluded {
      var i :| 0 <= i < |marked| && marked[i] == c;
      assert scored[i] == c;
    }
  }

  /** One score a Pro, and measures equal or clearly apart. */
  ghost predicate ToldApart(scored: seq<R.Candidate>) {
    (forall a, b :: a in scored && b in scored ==> R.Distinguishable(a, b))
    && (forall i, j :: 0 <= i < j < |scored| ==> scored[i].pro != scored[j].pro)
  }

  /** A Pro that can be asked; and, where measures are told apart, before every other that can. */
  ghost predicate IsBest(d: Desk, scored: seq<R.Candidate>, w: ProId) {
    exists c :: Askable(d, scored, c) && c.pro == w
      && (ToldApart(scored) ==> forall o :: Askable(d, scored, o) && o != c ==> R.Precedes(c, o))
  }

  lemma RankedInOrder(d: Desk, scored: seq<R.Candidate>)
    requires ToldApart(scored)
    ensures R.InOrder(RankedFor(scored, Winners(d.rows)))
  {
    hide R.Sort, R.Distinguishable, R.InOrder, Winners;
    var marked := Marked(scored, Winners(d.rows));
    var kept := R.Kept(marked);
    forall i, j | 0 <= i < j < |marked| ensures marked[i].pro != marked[j].pro {
      assert scored[i].pro != scored[j].pro;
    }
    R.RepeatsCount(marked);
    R.KeptOf(marked);
    hide R.Kept;
    forall x | x in multiset(kept) ensures x in scored {
      assert multiset(marked)[x] > 0 && !x.excluded;
      assert x in marked;
      var i :| 0 <= i < |marked| && marked[i] == x;
      assert scored[i] == x;
    }
    R.NoRepeats(kept);
    R.SortOrders(kept);
  }

  lemma FirstIsBest(d: Desk, scored: seq<R.Candidate>)
    requires RankedFor(scored, Winners(d.rows)) != []
    ensures IsBest(d, scored, RankedFor(scored, Winners(d.rows))[0].pro)
  {
    var ranked := RankedFor(scored, Winners(d.rows));
    if ToldApart(scored) { RankedInOrder(d, scored); }
    hide RankedFor, Winners, Askable, ToldApart, R.Precedes;
    AskableIsRanked(d, scored, ranked[0]);
    assert ranked[0] in ranked;
    forall o | Askable(d, scored, o) && o != ranked[0] ensures ToldApart(scored) ==> R.Precedes(ranked[0], o) {
      AskableIsRanked(d, scored, o);
    }
  }

  lemma NobodyIsRanked(d: Desk, scored: seq<R.Candidate>)
    ensures RankedFor(scored, Winners(d.rows)) == [] <==> forall c :: !Askable(d, scored, c)
  {
    var ranked := RankedFor(scored, Winners(d.rows));
    hide RankedFor, Winners, Askable;
    forall c ensures c in ranked <==> Askable(d, scored, c) { AskableIsRanked(d, scored, c); }
    if ranked != [] { assert ranked[0] in ranked; }
  }

  // ---- what is left behind ----

  /** Rows once written stand. New ones carry this attempt's number and say who won it, and there is
      one for everybody struck out or asked before. */
  ghost predicate RowsAdded(d: Desk, now: map<(nat, ProId), bool>, n: nat, scored: seq<R.Candidate>,
                            winner: Option<ProId>) {
    (forall k :: k in d.rows ==> k in now && now[k] == d.rows[k])
    && (forall k :: k in now && k !in d.rows ==> k.0 == n && (now[k] <==> winner == Some(k.1)))
    && (forall c :: c in scored && !Askable(d, scored, c) ==> (n, c.pro) in now)
    && (forall k :: k in now && k !in d.rows ==> exists c :: c in scored && c.pro == k.1)
  }

  lemma RowsAreAdded(rows: map<(nat, ProId), bool>, n: nat, pros: set<ProId>, winner: Option<ProId>)
    ensures var now := AddRows(rows, n, pros, winner);
            (forall k :: k in rows ==> k in now && now[k] == rows[k])
            && (forall k :: k in now && k !in rows ==> k.0 == n && k.1 in pros && (now[k] <==> winner == Some(k.1)))
            && (forall p :: p in pros ==> (n, p) in now)
  {
    var added := map p | p in pros :: (n, p) := winner == Some(p);
    assert AddRows(rows, n, pros, winner) == added + rows;
    forall p | p in pros ensures (n, p) in added {}
  }

  lemma AddRowsAdds(d: Desk, n: nat, scored: seq<R.Candidate>, s: Settings, winner: Option<ProId>)
    ensures RowsAdded(d, AddRows(d.rows, n, Recorded(scored, Winners(d.rows), s.poolSize), winner), n, scored, winner)
  {
    hide Recorded, Winners, Askable, AddRows;
    StruckOutAreRecorded(d, scored, s);
    RowsAreAdded(d.rows, n, Recorded(scored, Winners(d.rows), s.poolSize), winner);
  }

  lemma StruckOutAreRecorded(d: Desk, scored: seq<R.Candidate>, s: Settings)
    ensures var recorded := Recorded(scored, Winners(d.rows), s.poolSize);
            (forall c :: c in scored && !Askable(d, scored, c) ==> c.pro in recorded)
            && (forall p :: p in recorded ==> exists c :: c in scored && c.pro == p)
  {
    var tried := Winners(d.rows);
    var marked, ranked := Marked(scored, tried), RankedFor(scored, tried);
    hide R.Sort, R.Kept;
    forall c | c in scored && !Askable(d, scored, c)
      ensures c.pro in Recorded(scored, tried, s.poolSize)
    {
      TriedIsOnRecord(d.rows, c.pro);
      var i :| 0 <= i < |scored| && scored[i] == c;
      assert marked[i].excluded && marked[i] in marked;
    }
    forall p | p in Recorded(scored, tried, s.poolSize) ensures exists c :: c in scored && c.pro == p {
      if p in Pros(ranked[..Min(s.poolSize, |ranked|)]) {
        var c :| c in ranked[..Min(s.poolSize, |ranked|)] && c.pro == p;
        AskableIsRanked(d, scored, c);
      } else {
        var c :| c in marked && c.excluded && c.pro == p;
        var i :| 0 <= i < |marked| && marked[i] == c;
        assert scored[i] in scored;
      }
    }
  }

  // ---- how it ends ----

  /** Nobody is sent: the attempt is counted and the reason noted. */
  predicate GivesUp(d: Desk, n: Desk, outcome: Outcome) {
    n.booking.row == d.booking.row.(attempt := d.booking.row.attempt + 1, outcome := Some(outcome))
    && n.offers == d.offers
  }

  /** The Pro is sent, and has until the deadline to acknowledge. */
  predicate Sends(d: Desk, n: Desk, w: ProId, deadline: int) {
    n.booking.row == d.booking.row.(status := BookingStatus.Assigned, pro := Some(w),
                                    attempt := d.booking.row.attempt + 1, ackDeadline := Some(deadline),
                                    outcome := Some(PendingAck))
    && n.offers == d.offers + [Offer(d.booking.row.attempt + 1, w, d.visits)]
  }

  lemma ClosingGivesUp(d: Desk, outcome: Outcome)
    ensures GivesUp(d, Closed(d, d.booking.row.attempt + 1, outcome), outcome)
  {
  }

  /** A booking held or not waiting is left alone. Past the allowance, or with nobody in reach or
      nobody to ask, the attempt gives up for that reason; otherwise the best of those to ask is
      sent. Only an attempt that got as far as scoring leaves rows. */
  lemma AttemptEndsSo(d: Desk, seen: Sighting, s: Settings)
    ensures var a := Attempted(d, seen, s); var n := d.booking.row.attempt + 1;
            if d.locked || d.booking.row.status != BookingStatus.Assigning then a == d
            else if n > s.maxAttempts then GivesUp(d, a, Exhausted) && a.rows == d.rows
            else if Reachable(d.booking.row, seen, s.allowWiden) == {} then GivesUp(d, a, NoSupply) && a.rows == d.rows
            else if forall c :: !Askable(d, seen.scored, c) then
              GivesUp(d, a, Exhausted) && RowsAdded(d, a.rows, n, seen.scored, None)
            else exists w :: IsBest(d, seen.scored, w) && Sends(d, a, w, seen.deadline)
                   && RowsAdded(d, a.rows, n, seen.scored, Some(w))
  {
    hide Eligible, Reachable, RankedFor, Recorded, AddRows, Bookings.Step, Askable, IsBest, Sends, GivesUp, RowsAdded;
    hide Winners, Closed;
    EligibleIsReachable(d.booking.row, seen, s);
    var ranked := RankedFor(seen.scored, Winners(d.rows));
    var winner := WinnerOf(ranked);
    var n := d.booking.row.attempt + 1;
    NobodyIsRanked(d, seen.scored);
    AddRowsAdds(d, n, seen.scored, s, winner);
    ClosingGivesUp(d, Exhausted);
    ClosingGivesUp(d, NoSupply);
    var told := d.(rows := AddRows(d.rows, n, Recorded(seen.scored, Winners(d.rows), s.poolSize), winner));
    ToldGivesUp(d, told.rows);
    if ranked != [] && d.booking.row.status == BookingStatus.Assigning {
      FirstIsBest(d, seen.scored);
      ToldSends(d, told.rows, ranked[0].pro, seen.deadline);
    }
    ClosedKeepsRows(d, n, Exhausted);
    ClosedKeepsRows(d, n, NoSupply);
    ClosedKeepsRows(told, n, Exhausted);
  }

  lemma ClosedKeepsRows(d: Desk, n: nat, outcome: Outcome)
    ensures Closed(d, n, outcome).rows == d.rows
  {
  }

  lemma ToldGivesUp(d: Desk, rows: map<(nat, ProId), bool>)
    ensures GivesUp(d, Closed(d.(rows := rows), d.booking.row.attempt + 1, Exhausted), Exhausted)
  {
  }

  lemma ToldSends(d: Desk, rows: map<(nat, ProId), bool>, w: ProId, deadline: int)
    requires d.booking.row.status == BookingStatus.Assigning
    ensures var n := d.booking.row.attempt + 1;
            Sends(d, d.(rows := rows, booking := Bookings.Step(d.booking, Event.Assign(w, n, deadline)),
                        offers := d.offers + [Offer(n, w, d.visits)]), w, deadline)
  {
  }

  /** Nobody over the ceiling is sent to a cash booking without a staffed area. */
  lemma CashKeepsToTheCeiling(d: Desk, seen: Sighting, s: Settings)
    requires d.booking.row.mode == Cash && (seen.area == None || seen.area.value.inArea == None)
    requires ScoresThePool(d.booking.row, seen, s)
    ensures forall i :: |d.offers| <= i < |Attempted(d, seen, s).offers| ==>
              Attempted(d, seen, s).offers[i].pro !in seen.overCeiling
  {
    AttemptEndsSo(d, seen, s);
    EligibleIsReachable(d.booking.row, seen, s);
    hide Attempted, Eligible, RowsAdded, ToldApart, R.Precedes;
    forall c | Askable(d, seen.scored, c) ensures c.pro !in seen.overCeiling { assert c.pro in Pros(seen.scored); }
  }
}
