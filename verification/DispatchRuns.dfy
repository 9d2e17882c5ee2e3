/** What dispatch keeps while runs interleave, with a lock that may lapse and one that holds. */
module DispatchRuns {
  import opened Wrappers
  import opened BookingTypes
  import opened Bookings
  import BookingRuns
  import opened CancellationPolicy
  import R = DispatchRanking
  import D = Dispatch
  import opened Dispatch

  // ---- whatever happens to the lock: one assignment a visit ----

  predicate VisitsOk(d: Desk) {
    (forall i :: 0 <= i < |d.offers| ==> d.offers[i].visit <= d.visits)
    && (forall i, j :: 0 <= i < j < |d.offers| ==> d.offers[i].visit < d.offers[j].visit)
    && (d.booking.row.status == BookingStatus.Assigning ==>
          forall i :: 0 <= i < |d.offers| ==> d.offers[i].visit < d.visits)
  }

  lemma WinnerTakesTheVisit(f: File, pro: ProId, n: nat, deadline: int)
    ensures var g := Bookings.Step(f, Event.Assign(pro, n, deadline));
            if f.row.status == BookingStatus.Assigning
            then g.row.status == BookingStatus.Assigned && g.row.pro == Some(pro) && g.row.attempt == n
            else g == f
  {
  }

  lemma StepKeepsVisits(d: Desk, m: Move, s: Settings)
    requires VisitsOk(d)
    ensures VisitsOk(D.Step(d, m, s))
  {
    hide Bookings.Step, R.Sort, R.Kept, Recorded;
    match m
    case Assign(run, deadline) =>
      if run in d.runs && d.runs[run].Chosen? {
        WinnerTakesTheVisit(d.booking, d.runs[run].winner, d.runs[run].n, deadline);
      }
    case _ =>
  }

  lemma {:induction false} RunKeepsVisits(d: Desk, ms: seq<Move>, s: Settings)
    requires VisitsOk(d)
    ensures VisitsOk(D.Run(d, ms, s))
    decreases |ms|
  {
    if ms != [] {
      hide D.Step, VisitsOk;
      StepKeepsVisits(d, ms[0], s);
      RunKeepsVisits(D.Step(d, ms[0], s), ms[1..], s);
    }
  }

  /** However the runs interleave, and whether or not the lock outlives them, a booking is
      assigned at most once each time it comes to wait for a Pro. */
  lemma OneAssignmentAVisit(f: File, ms: seq<Move>, s: Settings)
    ensures var offers := D.Run(Opening(f), ms, s).offers;
            forall i, j :: 0 <= i < j < |offers| ==> offers[i].visit < offers[j].visit
  {
    RunKeepsVisits(Opening(f), ms, s);
  }

  // ---- while the lock holds ----

  /** The lock outlives the run that took it. */
  predicate Patient(d: Desk, m: Move) { m.Lapse? ==> d.runs == map[] }

  predicate PatientRun(d: Desk, ms: seq<Move>, s: Settings)
    decreases |ms|
  {
    ms == [] || (Patient(d, ms[0]) && PatientRun(D.Step(d, ms[0], s), ms[1..], s))
  }

  predicate OneRun(d: Desk) {
    (!d.locked ==> d.runs == map[]) && (forall a, b :: a in d.runs && b in d.runs ==> a == b)
  }

  predicate Rising(offers: seq<Offer>, max: nat) {
    (forall i :: 0 <= i < |offers| ==> 1 <= offers[i].attempt <= max)
    && (forall i, j :: 0 <= i < j < |offers| ==> offers[i].attempt < offers[j].attempt)
  }

  predicate OffersBefore(d: Desk, n: nat) { forall i :: 0 <= i < |d.offers| ==> d.offers[i].attempt < n }

  /** The attempt a run is making is the next one, or the booking has moved past it. */
  predicate Current(row: Columns, n: nat) {
    BookingRuns.IsOver(row.status) || row.attempt >= n
    || (row.status == BookingStatus.Assigning && row.attempt == n - 1)
  }

  predicate NumberOk(d: Desk, p: Phase, s: Settings) {
    p == Ready || p == Finished
    || (p.n >= 1 && (p.Closing? || p.n <= s.maxAttempts) && Current(d.booking.row, p.n) && OffersBefore(d, p.n))
  }

  predicate CycleOk(d: Desk, s: Settings) {
    OneRun(d) && Rising(d.offers, s.maxAttempts)
    && (BookingRuns.IsOver(d.booking.row.status) || OffersBefore(d, d.booking.row.attempt + 1))
    && (forall r :: r in d.runs ==> NumberOk(d, d.runs[r], s))
  }

  /** What any other writer may do to a booking that dispatch is working on. */
  predicate MovesOn(was: Columns, now: Columns) {
    BookingRuns.IsOver(now.status)
    || (!BookingRuns.IsOver(was.status)
        && (now.attempt > was.attempt
            || (now.attempt == was.attempt
                && (was.status == BookingStatus.Assigning ==> now.status == BookingStatus.Assigning))))
  }

  lemma ElsewhereMovesOn(f: File, e: Event)
    requires !Dispatching(e)
    ensures MovesOn(f.row, Bookings.Step(f, e).row)
  {
    hide CancelCharges;
    if BookingRuns.IsOver(f.row.status) { BookingRuns.OverStep(f, e); }
    if e.MoveSlot? && DecideReschedule(MoveRequest(f.row, e)) == None {
      BookingRuns.MovableStatus(MoveRequest(f.row, e));
    }
  }

  lemma ElsewhereKeepsCycle(d: Desk, e: Event, s: Settings)
    requires CycleOk(d, s) && !Dispatching(e)
    ensures CycleOk(Rebooked(d, Bookings.Step(d.booking, e)), s)
  {
    hide Bookings.Step;
    ElsewhereMovesOn(d.booking, e);
    var n := Rebooked(d, Bookings.Step(d.booking, e));
    forall r | r in n.runs ensures NumberOk(n, n.runs[r], s) { assert NumberOk(d, d.runs[r], s); }
  }

  /** A move of the only run there is, whatever rows it leaves. */
  lemma GoingKeepsCycle(d: Desk, run: RunId, p: Phase, rows: map<(nat, ProId), bool>, s: Settings)
    requires CycleOk(d, s) && run in d.runs && NumberOk(d, p, s)
    ensures CycleOk(Goes(d, run, p).(rows := rows), s)
  {
    var n := Goes(d, run, p).(rows := rows);
    assert run in d.runs && run in n.runs;
    forall r | r in n.runs ensures r == run && NumberOk(n, n.runs[r], s) { assert r == run; }
  }

  lemma AttemptKeepsCycle(d: Desk, m: Move, s: Settings)
    requires CycleOk(d, s) && (m.Load? || m.ReadTried? || m.Persist?)
    ensures CycleOk(D.Step(d, m, s), s)
  {
    hide CycleOk, RankedFor, Recorded, AddRows, WinnerOf, NumberOk;
    var run := m.run;
    if run in d.runs {
      PhaseIsOk(d, run, s);
      match m
      case Load(_) =>
        LoadedIsOk(d, s);
        GoingKeepsCycle(d, run, LoadNext(d.booking.row, s), d.rows, s);
      case ReadTried(_, supply) =>
        if d.runs[run].Loaded? {
          var n := d.runs[run].n;
          SameNumber(d, d.runs[run], if supply then Tried(n, Winners(d.rows)) else Closing(n, NoSupply), s);
          GoingKeepsCycle(d, run, if supply then Tried(n, Winners(d.rows)) else Closing(n, NoSupply), d.rows, s);
        }
      case Persist(_, scored) =>
        if d.runs[run].Tried? {
          var n := Persisted(d, run, scored, s);
          SameNumber(d, d.runs[run], n.runs[run], s);
          GoingKeepsCycle(d, run, n.runs[run], n.rows, s);
        }
    }
  }

  lemma PhaseIsOk(d: Desk, run: RunId, s: Settings)
    requires CycleOk(d, s) && run in d.runs
    ensures NumberOk(d, d.runs[run], s)
  {
  }

  lemma LoadedIsOk(d: Desk, s: Settings)
    requires CycleOk(d, s)
    ensures NumberOk(d, LoadNext(d.booking.row, s), s)
  {
  }

  lemma SameNumber(d: Desk, p: Phase, q: Phase, s: Settings)
    requires NumberOk(d, p, s) && (p.Loaded? || p.Tried?) && q != Ready && q != Finished && q.n == p.n
    ensures NumberOk(d, q, s)
  {
  }

  lemma AssignKeepsCycle(d: Desk, run: RunId, deadline: int, s: Settings)
    requires CycleOk(d, s) && run in d.runs && d.runs[run].Chosen?
    ensures CycleOk(D.Step(d, Move.Assign(run, deadline), s), s)
  {
    var Chosen(n, winner) := d.runs[run];
    assert NumberOk(d, d.runs[run], s);
    WinnerTakesTheVisit(d.booking, winner, n, deadline);
    hide Bookings.Step;
    var next := D.Step(d, Move.Assign(run, deadline), s);
    forall r | r in next.runs ensures r == run {}
  }

  lemma CloseKeepsCycle(d: Desk, run: RunId, s: Settings)
    requires CycleOk(d, s) && run in d.runs && d.runs[run].Closing?
    ensures CycleOk(D.Step(d, Close(run), s), s)
  {
    var next := D.Step(d, Close(run), s);
    assert NumberOk(d, d.runs[run], s);
    forall r | r in next.runs ensures r == run {}
  }

  lemma LeavingKeepsCycle(d: Desk, run: RunId, s: Settings)
    requires CycleOk(d, s) && run in d.runs
    ensures CycleOk(d.(runs := Without(d.runs, run)), s)
    ensures CycleOk(d.(locked := false, runs := Without(d.runs, run)), s)
  {
    assert Without(d.runs, run) == map[];
  }

  lemma StepKeepsCycle(d: Desk, m: Move, s: Settings)
    requires CycleOk(d, s) && Patient(d, m)
    ensures CycleOk(D.Step(d, m, s), s)
  {
    if m.Load? || m.ReadTried? || m.Persist? {
      AttemptKeepsCycle(d, m, s);
    } else if m.Acquire? || m.Lapse? {
      TakingKeepsCycle(d, m, s);
    } else {
      hide CycleOk;
      match m
      case Assign(run, deadline) => if run in d.runs && d.runs[run].Chosen? { AssignKeepsCycle(d, run, deadline, s); }
      case Close(run) => if run in d.runs && d.runs[run].Closing? { CloseKeepsCycle(d, run, s); }
      case Release(run) => if run in d.runs { LeavingKeepsCycle(d, run, s); }
      case Fail(run, crash) =>
        if run in d.runs {
          LeavingKeepsCycle(d, run, s);
          GoingKeepsCycle(d, run, Finished, d.rows, s);
        }
      case Elsewhere(e) => if !Dispatching(e) { ElsewhereKeepsCycle(d, e, s); }
    }
  }

  lemma TakingKeepsCycle(d: Desk, m: Move, s: Settings)
    requires CycleOk(d, s) && Patient(d, m) && (m.Acquire? || m.Lapse?)
    ensures CycleOk(D.Step(d, m, s), s)
  {
  }

  lemma {:induction false} RunKeepsCycle(d: Desk, ms: seq<Move>, s: Settings)
    requires CycleOk(d, s) && PatientRun(d, ms, s)
    ensures CycleOk(D.Run(d, ms, s), s)
    decreases |ms|
  {
    if ms != [] {
      hide CycleOk, D.Step, Patient;
      StepKeepsCycle(d, ms[0], s);
      RunKeepsCycle(D.Step(d, ms[0], s), ms[1..], s);
    }
  }

  lemma {:induction false} RisingIsBounded(offers: seq<Offer>, max: nat)
    requires Rising(offers, max)
    ensures |offers| <= max
    decreases |offers|
  {
    if offers != [] {
      var last := |offers| - 1;
      forall i | 0 <= i < last ensures offers[i].attempt <= offers[last].attempt - 1 {}
      RisingIsBounded(offers[..last], offers[last].attempt - 1);
    }
  }

  /** While the lock outlives its runs, however they end, there is one run at a time and each
      assignment carries a higher attempt number than the last; so assigning, timing out and trying
      again comes to an end within the configured attempts. */
  lemma TheCycleEnds(f: File, ms: seq<Move>, s: Settings)
    requires PatientRun(Opening(f), ms, s)
    ensures var d := D.Run(Opening(f), ms, s);
            OneRun(d) && |d.offers| <= s.maxAttempts
            && (forall i, j :: 0 <= i < j < |d.offers| ==> d.offers[i].attempt < d.offers[j].attempt)
  {
    RunKeepsCycle(Opening(f), ms, s);
    hide D.Run, PatientRun;
    RisingIsBounded(D.Run(Opening(f), ms, s).offers, s.maxAttempts);
  }

  // ---- and no run breaks off between its rows and its last write ----

  predicate Recording(p: Phase) { p.Chosen? || p.Closing? }

  predicate Steady(d: Desk, m: Move) {
    Patient(d, m) && (m.Fail? && m.run in d.runs ==> !Recording(d.runs[m.run]))
  }

  predicate SteadyRun(d: Desk, ms: seq<Move>, s: Settings)
    decreases |ms|
  {
    ms == [] || (Steady(d, ms[0]) && SteadyRun(D.Step(d, ms[0], s), ms[1..], s))
  }

  predicate RowsUpTo(d: Desk, n: int) { forall k :: k in d.rows ==> k.0 <= n }

  /** No row is for an attempt still to come, or there is no attempt to come. */
  predicate Settled(d: Desk) { BookingRuns.IsOver(d.booking.row.status) || RowsUpTo(d, d.booking.row.attempt) }

  predicate Offered(d: Desk, pro: ProId) { exists i :: 0 <= i < |d.offers| && d.offers[i].pro == pro }

  predicate RowsFit(d: Desk, p: Phase) {
    match p
    case Ready => Settled(d)
    case Finished => Settled(d)
    case Loaded(n) => RowsUpTo(d, n - 1)
    case Tried(n, tried) => RowsUpTo(d, n - 1) && forall i :: 0 <= i < |d.offers| ==> d.offers[i].pro in tried
    case Chosen(n, winner) =>
      RowsUpTo(d, n) && (n, winner) in d.rows && d.rows[(n, winner)] && !Offered(d, winner)
    case Closing(n, _) => RowsUpTo(d, n)
  }

  /** Every assignment is on record as a win, and no two went to one Pro. */
  predicate OffersOk(d: Desk) {
    (forall i :: 0 <= i < |d.offers| ==>
       (d.offers[i].attempt, d.offers[i].pro) in d.rows && d.rows[(d.offers[i].attempt, d.offers[i].pro)])
    && (forall i, j :: 0 <= i < j < |d.offers| ==> d.offers[i].pro != d.offers[j].pro)
  }

  predicate RecordOk(d: Desk) {
    OffersOk(d) && (d.runs == map[] ==> Settled(d)) && (forall r :: r in d.runs ==> RowsFit(d, d.runs[r]))
  }

  predicate LockOk(d: Desk, s: Settings) { CycleOk(d, s) && RecordOk(d) }

  lemma ElsewhereKeepsRecord(d: Desk, e: Event)
    requires RecordOk(d) && !Dispatching(e)
    ensures RecordOk(Rebooked(d, Bookings.Step(d.booking, e)))
  {
    hide Bookings.Step;
    ElsewhereMovesOn(d.booking, e);
    var n := Rebooked(d, Bookings.Step(d.booking, e));
    assert Settled(d) ==> Settled(n);
    forall r | r in n.runs ensures RowsFit(n, n.runs[r]) { assert RowsFit(d, d.runs[r]); }
  }

  lemma GoingKeepsRecord(d: Desk, run: RunId, p: Phase)
    requires OneRun(d) && RecordOk(d) && run in d.runs && RowsFit(d, p)
    ensures RecordOk(Goes(d, run, p))
  {
    var n := Goes(d, run, p);
    assert run in d.runs && run in n.runs;
    forall r | r in n.runs ensures r == run && RowsFit(n, n.runs[r]) { assert r == run; }
  }

  lemma LoadKeepsRecord(d: Desk, run: RunId, s: Settings)
    requires OneRun(d) && RecordOk(d) && run in d.runs && d.runs[run] == Ready
    ensures RecordOk(D.Step(d, Load(run), s))
  {
    assert RowsFit(d, Ready);
    GoingKeepsRecord(d, run, LoadNext(d.booking.row, s));
  }

  lemma ReadTriedKeepsRecord(d: Desk, run: RunId, supply: bool, s: Settings)
    requires OneRun(d) && RecordOk(d) && run in d.runs && d.runs[run].Loaded?
    ensures RecordOk(D.Step(d, ReadTried(run, supply), s))
  {
    var n := d.runs[run].n;
    assert RowsFit(d, d.runs[run]);
    if supply {
      forall i | 0 <= i < |d.offers| ensures d.offers[i].pro in Winners(d.rows) {
        var o := d.offers[i];
        assert (o.attempt, o.pro) in d.rows && d.rows[(o.attempt, o.pro)];
      }
      GoingKeepsRecord(d, run, Tried(n, Winners(d.rows)));
    } else {
      GoingKeepsRecord(d, run, Closing(n, NoSupply));
    }
  }

  /** The best of a ranking is somebody not tried before, and is kept on record. */
  lemma BestIsNew(scored: seq<R.Candidate>, tried: set<ProId>, poolSize: nat)
    requires poolSize >= 1 && RankedFor(scored, tried) != []
    ensures var w := RankedFor(scored, tried)[0].pro; w !in tried && w in Recorded(scored, tried, poolSize)
  {
    hide R.Sort, R.Kept;
    var marked := Marked(scored, tried);
    var ranked := RankedFor(scored, tried);
    R.SortKeeps(R.Kept(marked));
    R.KeptOf(marked);
    assert ranked[0] in multiset(ranked);
    assert multiset(R.Kept(marked))[ranked[0]] > 0;
    assert multiset(marked)[ranked[0]] > 0 && !ranked[0].excluded;
    assert ranked[0] in marked;
    assert ranked[0] in ranked[..Min(poolSize, |ranked|)];
  }

  /** A run can choose a Pro already assigned this booking exactly when an earlier win was not
      among the rows the run has read. */
  lemma RepeatNeedsAMissedWin(d: Desk, run: RunId, s: Settings)
    requires run in d.runs && d.runs[run].Tried?
    ensures (exists scored :: var n := D.Step(d, Persist(run, scored), s);
                              n.runs[run].Chosen? && Offered(d, n.runs[run].winner))
            <==> exists i :: 0 <= i < |d.offers| && d.offers[i].pro !in d.runs[run].tried
  {
    hide R.Sort, R.Kept, Recorded, AddRows, RankedFor;
    var tried := d.runs[run].tried;
    if i :| 0 <= i < |d.offers| && d.offers[i].pro !in tried {
      var scored := [Scored(d.offers[i].pro, 1.0)];
      SoloRanking(scored[0], tried);
      assert D.Step(d, Persist(run, scored), s).runs[run] == Chosen(d.runs[run].n, d.offers[i].pro);
    }
    forall scored | D.Step(d, Persist(run, scored), s).runs[run].Chosen?
      ensures D.Step(d, Persist(run, scored), s).runs[run].winner !in tried
    {
      BestIsNew(scored, tried, 1);
    }
  }

  lemma NewRows(rows: map<(nat, ProId), bool>, n: nat, pros: set<ProId>, winner: Option<ProId>)
    requires forall k :: k in rows ==> k.0 <= n - 1
    ensures var all := AddRows(rows, n, pros, winner);
            (forall k :: k in all ==> k.0 <= n)
            && (forall k :: k in rows ==> k in all && all[k] == rows[k])
            && (winner.Some? && winner.value in pros ==> (n, winner.value) in all && all[(n, winner.value)])
  {
    var added := map p | p in pros :: (n, p) := winner == Some(p);
    assert AddRows(rows, n, pros, winner) == added + rows;
    if winner.Some? && winner.value in pros { assert (n, winner.value) in added && (n, winner.value) !in rows; }
  }

  lemma PersistKeepsRecord(d: Desk, run: RunId, scored: seq<R.Candidate>, s: Settings)
    requires OneRun(d) && RecordOk(d) && run in d.runs && d.runs[run].Tried? && s.poolSize >= 1
    ensures RecordOk(D.Step(d, Persist(run, scored), s))
  {
    hide R.Sort, R.Kept, RankedFor, Recorded, AddRows;
    var Tried(n, tried) := d.runs[run];
    assert RowsFit(d, d.runs[run]);
    var ranked := RankedFor(scored, tried);
    var winner := WinnerOf(ranked);
    if ranked != [] { BestIsNew(scored, tried, s.poolSize); }
    NewRows(d.rows, n, Recorded(scored, tried, s.poolSize), winner);
    var rows := AddRows(d.rows, n, Recorded(scored, tried, s.poolSize), winner);
    PersistedOk(d, run, rows, if winner.Some? then Chosen(n, winner.value) else Closing(n, Exhausted));
  }

  lemma PersistedOk(d: Desk, run: RunId, rows: map<(nat, ProId), bool>, p: Phase)
    requires OneRun(d) && RecordOk(d) && run in d.runs && d.runs[run].Tried?
    requires forall k :: k in d.rows ==> k in rows && rows[k] == d.rows[k]
    requires RowsFit(d.(rows := rows), p)
    ensures RecordOk(Goes(d, run, p).(rows := rows))
  {
    var n := Goes(d, run, p).(rows := rows);
    assert run in d.runs && run in n.runs;
    forall r | r in n.runs ensures r == run && RowsFit(n, n.runs[r]) {}
    assert OffersOk(n);
  }

  lemma AssignKeepsRecord(d: Desk, run: RunId, deadline: int, s: Settings)
    requires LockOk(d, s) && run in d.runs && d.runs[run].Chosen?
    ensures RecordOk(D.Step(d, Move.Assign(run, deadline), s))
  {
    var Chosen(n, winner) := d.runs[run];
    assert RowsFit(d, d.runs[run]) && NumberOk(d, d.runs[run], s);
    WinnerTakesTheVisit(d.booking, winner, n, deadline);
    hide Bookings.Step;
    var next := D.Step(d, Move.Assign(run, deadline), s);
    assert Settled(next);
    assert OffersOk(next);
    forall r | r in next.runs ensures r == run {}
  }

  lemma CloseKeepsRecord(d: Desk, run: RunId, s: Settings)
    requires LockOk(d, s) && run in d.runs && d.runs[run].Closing?
    ensures RecordOk(D.Step(d, Close(run), s))
  {
    var next := D.Step(d, Close(run), s);
    assert RowsFit(d, d.runs[run]) && NumberOk(d, d.runs[run], s);
    assert Settled(next);
    forall r | r in next.runs ensures r == run {}
  }

  lemma LeavingKeepsRecord(d: Desk, run: RunId, s: Settings)
    requires LockOk(d, s) && run in d.runs && !Recording(d.runs[run])
    ensures RecordOk(d.(runs := Without(d.runs, run))) && RecordOk(d.(locked := false, runs := Without(d.runs, run)))
    ensures RowsFit(d, Finished)
  {
    assert RowsFit(d, d.runs[run]) && NumberOk(d, d.runs[run], s);
    assert Settled(d);
    assert Without(d.runs, run) == map[];
  }

  lemma TakingKeepsRecord(d: Desk, m: Move, s: Settings)
    requires OneRun(d) && RecordOk(d) && Patient(d, m) && (m.Acquire? || m.Lapse?)
    ensures RecordOk(D.Step(d, m, s))
  {
  }

  lemma StepKeepsLock(d: Desk, m: Move, s: Settings)
    requires LockOk(d, s) && Steady(d, m) && s.poolSize >= 1
    ensures LockOk(D.Step(d, m, s), s)
  {
    StepKeepsCycle(d, m, s);
    assert OneRun(d);
    if m.Acquire? || m.Lapse? {
      hide CycleOk, RecordOk;
      TakingKeepsRecord(d, m, s);
    } else {
      hide CycleOk, RecordOk, OneRun;
      match m
      case Load(run) => if run in d.runs && d.runs[run] == Ready { LoadKeepsRecord(d, run, s); }
      case ReadTried(run, supply) =>
        if run in d.runs && d.runs[run].Loaded? { ReadTriedKeepsRecord(d, run, supply, s); }
      case Persist(run, scored) => if run in d.runs && d.runs[run].Tried? { PersistKeepsRecord(d, run, scored, s); }
      case Assign(run, deadline) => if run in d.runs && d.runs[run].Chosen? { AssignKeepsRecord(d, run, deadline, s); }
      case Close(run) => if run in d.runs && d.runs[run].Closing? { CloseKeepsRecord(d, run, s); }
      case Release(run) => if run in d.runs && d.runs[run] == Finished { LeavingKeepsRecord(d, run, s); }
      case Fail(run, crash) =>
        if run in d.runs {
          LeavingKeepsRecord(d, run, s);
          if !crash { GoingKeepsRecord(d, run, Finished); }
        }
      case Elsewhere(e) => if !Dispatching(e) { ElsewhereKeepsRecord(d, e); }
    }
  }

  lemma {:induction false} RunKeepsLock(d: Desk, ms: seq<Move>, s: Settings)
    requires LockOk(d, s) && SteadyRun(d, ms, s) && s.poolSize >= 1
    ensures LockOk(D.Run(d, ms, s), s)
    decreases |ms|
  {
    if ms != [] {
      hide LockOk, D.Step, Steady;
      StepKeepsLock(d, ms[0], s);
      RunKeepsLock(D.Step(d, ms[0], s), ms[1..], s);
    }
  }

  /** While besides no run breaks off once its rows are written, and winners are kept on record,
      no Pro is assigned the booking twice. */
  lemma NobodyIsAssignedTwice(f: File, ms: seq<Move>, s: Settings)
    requires s.poolSize >= 1 && SteadyRun(Opening(f), ms, s)
    ensures var d := D.Run(Opening(f), ms, s);
            forall i, j :: 0 <= i < j < |d.offers| ==> d.offers[i].pro != d.offers[j].pro
  {
    RunKeepsLock(Opening(f), ms, s);
  }

  // ---- what a lock that lapses, or a run that breaks off, allows ----

  function Scored(pro: ProId, score: real): R.Candidate { R.Candidate(pro, score, 0.0, 0.0, 0, false) }

  lemma SoloRanking(c: R.Candidate, tried: set<ProId>)
    ensures RankedFor([c], tried) == if c.excluded || c.pro in tried then [] else [c]
  {
    var marked := Marked([c], tried);
    assert marked == [c.(excluded := c.excluded || c.pro in tried)];
    assert R.Kept(marked[1..]) == [];
    assert R.Kept(marked) == if marked[0].excluded then [] else marked;
    assert R.Sort([c]) == R.Insert(c, R.Sort([])) == [c];
  }

  lemma PairRanking(p: ProId, q: ProId)
    requires p != q
    ensures RankedFor([Scored(p, 2.0), Scored(q, 1.0)], {}) == [Scored(p, 2.0), Scored(q, 1.0)]
    ensures RankedFor([Scored(p, 2.0), Scored(q, 1.0)], {p}) == [Scored(q, 1.0)]
  {
    var a, b := Scored(p, 2.0), Scored(q, 1.0);
    assert Marked([a, b], {}) == [a, b];
    assert Marked([a, b], {p}) == [a.(excluded := true), b];
    assert [a, b][1..] == [b] && [a.(excluded := true), b][1..] == [b] && [b][1..] == [];
    assert R.Kept([b]) == [b] && R.Kept([a, b]) == [a, b] && R.Kept([a.(excluded := true), b]) == [b];
    assert R.Sort([b]) == [b];
    assert R.Sort([a, b]) == R.Insert(a, [b]) == [a, b];
  }

  lemma {:induction false} RunInTwo(d: Desk, a: seq<Move>, b: seq<Move>, s: Settings)
    ensures D.Run(d, a + b, s) == D.Run(D.Run(d, a, s), b, s)
    decreases |a|
  {
    hide D.Step;
    if a == [] {
      assert a + b == b;
    } else {
      assert (a + b)[0] == a[0] && (a + b)[1..] == a[1..] + b;
      RunInTwo(D.Step(d, a[0], s), a[1..], b, s);
    }
  }

  lemma OneMove(d: Desk, a: Move, s: Settings)
    ensures D.Run(d, [a], s) == D.Step(d, a, s)
  {
    hide D.Step;
    assert [a][1..] == [];
  }

  lemma TwoMoves(d: Desk, a: Move, b: Move, s: Settings)
    ensures D.Run(d, [a, b], s) == D.Step(D.Step(d, a, s), b, s)
  {
    hide D.Step;
    assert [a, b][1..] == [b];
    OneMove(D.Step(d, a, s), b, s);
  }

  lemma ThreeMoves(d: Desk, a: Move, b: Move, c: Move, s: Settings)
    ensures D.Run(d, [a, b, c], s) == D.Step(D.Step(D.Step(d, a, s), b, s), c, s)
  {
    hide D.Step;
    assert [a, b, c][1..] == [b, c];
    TwoMoves(D.Step(d, a, s), b, c, s);
  }

  function Begins(run: RunId): seq<Move> { [Acquire(run), Load(run), ReadTried(run, true)] }

  predicate WaitsFor(d: Desk, s: Settings) {
    d.booking.row.status == BookingStatus.Assigning && d.booking.row.attempt < s.maxAttempts
  }

  lemma BeginsAs(d: Desk, run: RunId, s: Settings)
    requires WaitsFor(d, s) && !d.locked && run !in d.runs
    ensures D.Run(d, Begins(run), s)
            == Goes(d, run, Tried(d.booking.row.attempt + 1, Winners(d.rows))).(locked := true)
  {
    ThreeMoves(d, Acquire(run), Load(run), ReadTried(run, true), s);
    var d1 := D.Step(d, Acquire(run), s);
    var d2 := D.Step(d1, Load(run), s);
    assert d2.runs[run] == Loaded(d.booking.row.attempt + 1);
    assert D.Step(d2, ReadTried(run, true), s).runs == d.runs[run := Tried(d.booking.row.attempt + 1, Winners(d.rows))];
  }

  /** One run writes its rows, assigns the winner, and nobody acknowledges in time. */
  function WinsAndTimesOut(run: RunId, scored: seq<R.Candidate>, deadline: int): seq<Move> {
    [Persist(run, scored), Move.Assign(run, deadline), Elsewhere(ExpireAck(deadline + 1))]
  }

  lemma WinsAs(d: Desk, run: RunId, scored: seq<R.Candidate>, deadline: int, n: nat, tried: set<ProId>, pro: ProId,
               s: Settings)
    requires d.booking.row.status == BookingStatus.Assigning && run in d.runs && d.runs[run] == Tried(n, tried)
    requires WinnerOf(RankedFor(scored, tried)) == Some(pro)
    ensures var e := D.Run(d, WinsAndTimesOut(run, scored, deadline), s);
            e.offers == d.offers + [Offer(n, pro, d.visits)] && e.visits == d.visits + 1
            && e.rows == AddRows(d.rows, n, Recorded(scored, tried, s.poolSize), Some(pro))
            && e.runs == d.runs[run := Finished] && e.locked == d.locked
            && e.booking.row.status == BookingStatus.Assigning && e.booking.row.attempt == n
  {
    hide RankedFor, Recorded, AddRows, D.Run;
    UnacknowledgedReturns(d.booking, pro, n, deadline);
    hide Bookings.Step;
    ThreeMoves(d, Persist(run, scored), Move.Assign(run, deadline), Elsewhere(ExpireAck(deadline + 1)), s);
    var d1 := D.Step(d, Persist(run, scored), s);
    assert d1.runs[run] == Chosen(n, pro) && d1.booking == d.booking && d1.visits == d.visits;
    var d2 := D.Step(d1, Move.Assign(run, deadline), s);
    assert d2.runs == d.runs[run := Finished] && d2.visits == d.visits;
  }

  lemma UnacknowledgedReturns(f: File, pro: ProId, n: nat, deadline: int)
    requires f.row.status == BookingStatus.Assigning
    ensures var g := Bookings.Step(f, Event.Assign(pro, n, deadline));
            var h := Bookings.Step(g, ExpireAck(deadline + 1));
            g.row.status == BookingStatus.Assigned
            && h.row.status == BookingStatus.Assigning && h.row.attempt == n
  {
  }

  /** Two runs with the lock lapsing between them: the second has read who was tried, and what
      number comes next, before the first one assigns. */
  function LapsedLock(a: RunId, b: RunId, pro: ProId, deadline: int): seq<Move> {
    ((Begins(a) + [Lapse]) + Begins(b))
    + (WinsAndTimesOut(a, [Scored(pro, 1.0)], deadline) + WinsAndTimesOut(b, [Scored(pro, 1.0)], deadline))
  }

  /** From any booking waiting with the lock free, a lapse can have the same Pro assigned
      twice, under one attempt number. */
  lemma LapsedLockOffersTwice(d: Desk, a: RunId, b: RunId, pro: ProId, deadline: int, s: Settings)
    requires WaitsFor(d, s) && !d.locked && a != b && a !in d.runs && b !in d.runs && pro !in Winners(d.rows)
    ensures var n := d.booking.row.attempt + 1;
            D.Run(d, LapsedLock(a, b, pro, deadline), s).offers
            == d.offers + [Offer(n, pro, d.visits), Offer(n, pro, d.visits + 1)]
  {
    hide D.Step, RankedFor, AddRows, Recorded;
    var n, tried, scored := d.booking.row.attempt + 1, Winners(d.rows), [Scored(pro, 1.0)];
    SoloRanking(Scored(pro, 1.0), tried);
    BeginsAs(d, a, s);
    var d1 := D.Run(d, Begins(a), s);
    LapseFrees(d1, s);
    var d2 := D.Run(d1, [Lapse], s);
    BeginsAs(d2, b, s);
    var d3 := D.Run(d2, Begins(b), s);
    WinsAs(d3, a, scored, deadline, n, tried, pro, s);
    var d4 := D.Run(d3, WinsAndTimesOut(a, scored, deadline), s);
    WinsAs(d4, b, scored, deadline, n, tried, pro, s);
    RunInTwo(d, Begins(a), [Lapse], s);
    RunInTwo(d, Begins(a) + [Lapse], Begins(b), s);
    RunInTwo(d3, WinsAndTimesOut(a, scored, deadline), WinsAndTimesOut(b, scored, deadline), s);
    RunInTwo(d, (Begins(a) + [Lapse]) + Begins(b),
             WinsAndTimesOut(a, scored, deadline) + WinsAndTimesOut(b, scored, deadline), s);
  }

  lemma LapseFrees(d: Desk, s: Settings)
    ensures D.Run(d, [Lapse], s) == d.(locked := false)
  {
    OneMove(d, Lapse, s);
  }

  /** A run that breaks off after writing its rows, and two more after it. */
  function BrokenRun(a: RunId, b: RunId, c: RunId, p: ProId, q: ProId, deadline: int): seq<Move> {
    var scored := [Scored(p, 2.0), Scored(q, 1.0)];
    (Begins(a) + [Persist(a, scored), Fail(a, false), Release(a)])
    + ((Begins(b) + (WinsAndTimesOut(b, scored, deadline) + [Release(b)]))
       + (Begins(c) + WinsAndTimesOut(c, scored, deadline)))
  }

  lemma BreaksOff(d: Desk, run: RunId, scored: seq<R.Candidate>, n: nat, tried: set<ProId>, s: Settings)
    requires d.runs == map[run := Tried(n, tried)] && RankedFor(scored, tried) != []
    ensures D.Run(d, [Persist(run, scored), Fail(run, false), Release(run)], s)
            == d.(runs := map[], locked := false,
                  rows := AddRows(d.rows, n, Recorded(scored, tried, s.poolSize), WinnerOf(RankedFor(scored, tried))))
  {
    hide RankedFor, Recorded, AddRows;
    ThreeMoves(d, Persist(run, scored), Fail(run, false), Release(run), s);
    assert Without(map[run := Finished], run) == map[];
  }

  lemma Releases(d: Desk, run: RunId, s: Settings)
    requires d.runs == map[run := Finished]
    ensures D.Run(d, [Release(run)], s) == d.(runs := map[], locked := false)
  {
    OneMove(d, Release(run), s);
    assert Without(d.runs, run) == map[];
  }

  /** The rows of a broken attempt stay, its number is used again, and the row that should say
      the next Pro won is skipped as a duplicate: that Pro is assigned, and assigned again. */
  lemma BrokenRunOffersTwice(d: Desk, a: RunId, b: RunId, c: RunId, p: ProId, q: ProId, deadline: int, s: Settings)
    requires WaitsFor(d, s) && d.booking.row.attempt + 1 < s.maxAttempts && s.poolSize >= 2
    requires d.runs == map[] && !d.locked && d.rows == map[] && p != q
    ensures var n := d.booking.row.attempt + 1;
            D.Run(d, BrokenRun(a, b, c, p, q, deadline), s).offers
            == d.offers + [Offer(n, q, d.visits), Offer(n + 1, q, d.visits + 1)]
  {
    hide D.Step, RankedFor, AddRows, Recorded;
    var n, scored := d.booking.row.attempt + 1, [Scored(p, 2.0), Scored(q, 1.0)];
    PairRanking(p, q);
    BrokenRows(n, p, q, s.poolSize);
    assert Winners(d.rows) == {};
    BeginsAs(d, a, s);
    var d1 := D.Run(d, Begins(a), s);
    var broken := [Persist(a, scored), Fail(a, false), Release(a)];
    BreaksOff(d1, a, scored, n, {}, s);
    var d2 := D.Run(d1, broken, s);
    BeginsAs(d2, b, s);
    var d3 := D.Run(d2, Begins(b), s);
    WinsAs(d3, b, scored, deadline, n, {p}, q, s);
    var d4 := D.Run(d3, WinsAndTimesOut(b, scored, deadline), s);
    assert d4.runs == map[b := Finished];
    Releases(d4, b, s);
    var d5 := D.Run(d4, [Release(b)], s);
    BeginsAs(d5, c, s);
    var d6 := D.Run(d5, Begins(c), s);
    WinsAs(d6, c, scored, deadline, n + 1, {p}, q, s);
    RunInTwo(d, Begins(a), broken, s);
    RunInTwo(d3, WinsAndTimesOut(b, scored, deadline), [Release(b)], s);
    RunInTwo(d2, Begins(b), WinsAndTimesOut(b, scored, deadline) + [Release(b)], s);
    RunInTwo(d5, Begins(c), WinsAndTimesOut(c, scored, deadline), s);
    var second := Begins(b) + (WinsAndTimesOut(b, scored, deadline) + [Release(b)]);
    var third := Begins(c) + WinsAndTimesOut(c, scored, deadline);
    RunInTwo(d2, second, third, s);
    RunInTwo(d, Begins(a) + broken, second + third, s);
  }

  lemma BrokenRows(n: nat, p: ProId, q: ProId, poolSize: nat)
    requires p != q && poolSize >= 2
    ensures var scored := [Scored(p, 2.0), Scored(q, 1.0)];
            var first := AddRows(map[], n, Recorded(scored, {}, poolSize), Some(p));
            Winners(first) == {p} && Winners(AddRows(first, n, Recorded(scored, {p}, poolSize), Some(q))) == {p}
  {
    hide Recorded, AddRows;
    PairRecorded(p, q, poolSize);
    PairRows(n, p, q);
  }

  lemma PairRows(n: nat, p: ProId, q: ProId)
    requires p != q
    ensures var first := AddRows(map[], n, {p, q}, Some(p));
            Winners(first) == {p} && AddRows(first, n, {p, q}, Some(q)) == first
  {
    var first := AddRows(map[], n, {p, q}, Some(p));
    assert first == map[(n, p) := true, (n, q) := false];
    assert (n, p) in first && Winners(first) == {p};
  }

  lemma PairRecorded(p: ProId, q: ProId, poolSize: nat)
    requires p != q && poolSize >= 2
    ensures var scored := [Scored(p, 2.0), Scored(q, 1.0)];
            Recorded(scored, {}, poolSize) == {p, q} && Recorded(scored, {p}, poolSize) == {p, q}
  {
    var a, b := Scored(p, 2.0), Scored(q, 1.0);
    PairRanking(p, q);
    PairMarked(p, q);
    hide RankedFor, Marked;
    assert [a, b][..2] == [a, b] && [b][..1] == [b];
    assert a in [a, b] && b in [a, b] && b in [b];
    assert Pros([a, b]) == {p, q};
    assert Pros([b]) == {q};
    var out := a.(excluded := true);
    assert out in [out, b];
    assert (set c | c in [out, b] && c.excluded :: c.pro) == {p};
    assert (set c | c in [a, b] && c.excluded :: c.pro) == {};
  }

  lemma PairMarked(p: ProId, q: ProId)
    requires p != q
    ensures Marked([Scored(p, 2.0), Scored(q, 1.0)], {}) == [Scored(p, 2.0), Scored(q, 1.0)]
    ensures Marked([Scored(p, 2.0), Scored(q, 1.0)], {p}) == [Scored(p, 2.0).(excluded := true), Scored(q, 1.0)]
  {
  }

  // ---- the attempt counter ----

  /** Elsewhere the counter only grows. */
  lemma ElsewhereKeepsCounting(f: File, e: Event)
    requires !Dispatching(e)
    ensures Bookings.Step(f, e).row.attempt >= f.row.attempt
  {
    hide CancelCharges, DecideReschedule, IsTransitionAllowed;
  }

  /** The two writes that end an attempt: onto a booking still waiting, or with nobody to send. */
  predicate Writes(d: Desk, m: Move) {
    (m.Close? && m.run in d.runs && d.runs[m.run].Closing?)
    || (m.Assign? && m.run in d.runs && d.runs[m.run].Chosen? && d.booking.row.status == BookingStatus.Assigning)
  }

  function NumberOf(d: Desk, m: Move): nat
    requires Writes(d, m)
  {
    d.runs[m.run].n
  }

  /** Both put the number worked out when the attempt began over whatever stands there, and
      nothing else lowers the counter: it falls exactly when one of them finds that others have
      counted past that number, and rises with it exactly when nobody has counted since. */
  lemma CounterFallsExactlyWhenOvertaken(d: Desk, m: Move, s: Settings)
    ensures D.Step(d, m, s).booking.row.attempt < d.booking.row.attempt
            <==> Writes(d, m) && NumberOf(d, m) < d.booking.row.attempt
    ensures Writes(d, m) ==> D.Step(d, m, s).booking.row.attempt == NumberOf(d, m)
  {
    hide R.Sort, R.Kept, Recorded, RankedFor, AddRows;
    match m
    case Elsewhere(e) =>
      if !Dispatching(e) { ElsewhereKeepsCounting(d.booking, e); }
      hide Bookings.Step;
    case Assign(run, deadline) =>
      if run in d.runs && d.runs[run].Chosen? {
        WinnerTakesTheVisit(d.booking, d.runs[run].winner, d.runs[run].n, deadline);
      }
      hide Bookings.Step;
    case Close(run) =>
      if run in d.runs && d.runs[run].Closing? {
        NumberWritten(d.booking, d.runs[run].n, d.runs[run].outcome);
      }
      hide Bookings.Step;
    case _ => hide Bookings.Step;
  }

  lemma NumberWritten(f: File, n: nat, outcome: Outcome)
    ensures Bookings.Step(f, CloseUnassignable(n, outcome)).row.attempt == n
  {
  }

  /** While the lock holds, and the booking is not over, an attempt's write raises the counter
      exactly when the counter still stands where the attempt found it, and then by one. */
  lemma HeldLockRaisesByOne(d: Desk, m: Move, s: Settings)
    requires CycleOk(d, s) && Writes(d, m) && !BookingRuns.IsOver(d.booking.row.status)
    ensures var before, after := d.booking.row.attempt, D.Step(d, m, s).booking.row.attempt;
            (after > before <==> before == NumberOf(d, m) - 1) && after <= before + 1
  {
    PhaseIsOk(d, m.run, s);
    CounterFallsExactlyWhenOvertaken(d, m, s);
    hide D.Step;
  }

  /** Ops give a waiting booking to one Pro and then to another, between two reads of a run. */
  function OpsMeanwhile(run: RunId, p: ProId, q: ProId): seq<Move> {
    [Load(run), Elsewhere(AssignByOps(p, true)), Elsewhere(Reassign(Some(q), true, 10))]
  }

  lemma OpsMeanwhileAs(d: Desk, run: RunId, p: ProId, q: ProId, s: Settings)
    requires WaitsFor(d, s) && run in d.runs && d.runs[run] == Ready
    ensures var ops := D.Run(d, OpsMeanwhile(run, p, q), s); var n := d.booking.row.attempt + 1;
            ops.runs == d.runs[run := Loaded(n)] && ops.rows == d.rows
            && ops.booking.row.status == BookingStatus.Assigned && ops.booking.row.attempt == n + 1
  {
    OpsTwice(d.booking, p, q);
    var f1 := Bookings.Step(d.booking, AssignByOps(p, true));
    hide Bookings.Step;
    ThreeMoves(d, Load(run), Elsewhere(AssignByOps(p, true)), Elsewhere(Reassign(Some(q), true, 10)), s);
    var d1 := D.Step(d, Load(run), s);
    var d2 := D.Step(d1, Elsewhere(AssignByOps(p, true)), s);
    assert d1.runs[run] == Loaded(d.booking.row.attempt + 1) && d2.booking == f1;
  }

  /** An attempt that finds nobody writes its number over whatever ops did meanwhile: the lock
      held throughout, the counter goes down and an assigned booking reads as unassignable. */
  lemma ClosingOverwritesOps(d: Desk, run: RunId, p: ProId, q: ProId, s: Settings)
    requires WaitsFor(d, s) && run in d.runs && d.runs[run] == Ready
    ensures var ops := D.Run(d, OpsMeanwhile(run, p, q), s);
            var closed := D.Run(ops, [ReadTried(run, false), Close(run)], s);
            ops.booking.row.status == BookingStatus.Assigned && ops.booking.row.attempt == d.booking.row.attempt + 2
            && closed.booking.row == ops.booking.row.(attempt := d.booking.row.attempt + 1, outcome := Some(NoSupply))
  {
    OpsMeanwhileAs(d, run, p, q, s);
    var n := d.booking.row.attempt + 1;
    var ops := D.Run(d, OpsMeanwhile(run, p, q), s);
    OverwrittenBy(ops.booking, n);
    hide Bookings.Step, D.Run;
    TwoMoves(ops, ReadTried(run, false), Close(run), s);
    assert D.Step(ops, ReadTried(run, false), s) == Goes(ops, run, Closing(n, NoSupply));
  }

  /** So does one that finds somebody, once ops have sent the booking back to wait: the lock held
      throughout, assigning lowers the counter too. */
  lemma AssigningOverwritesOps(d: Desk, run: RunId, p: ProId, q: ProId, scored: seq<R.Candidate>, w: ProId,
                               deadline: int, s: Settings)
    requires WaitsFor(d, s) && run in d.runs && d.runs[run] == Ready
    requires WinnerOf(RankedFor(scored, Winners(d.rows))) == Some(w)
    ensures var ops := D.Run(D.Run(d, OpsMeanwhile(run, p, q), s), [Elsewhere(Reassign(None, true, 10))], s);
            var given := D.Run(ops, [ReadTried(run, true), Persist(run, scored), Move.Assign(run, deadline)], s);
            WaitsAgain(d, ops)
            && given.booking.row.attempt == d.booking.row.attempt + 1 && given.booking.row.pro == Some(w)
  {
    hide RankedFor, Recorded, AddRows;
    OpsMeanwhileAs(d, run, p, q, s);
    var twice := D.Run(d, OpsMeanwhile(run, p, q), s);
    SentBack(twice.booking);
    OneMove(twice, Elsewhere(Reassign(None, true, 10)), s);
    var ops := D.Run(twice, [Elsewhere(Reassign(None, true, 10))], s);
    hide D.Run;
    assert ops.runs == twice.runs && ops.rows == twice.rows;
    hide Bookings.Step, D.Step;
    ChoosesAndAssigns(ops, run, scored, w, d.booking.row.attempt + 1, deadline, s);
  }

  lemma ChoosesAndAssigns(d: Desk, run: RunId, scored: seq<R.Candidate>, w: ProId, n: nat, deadline: int, s: Settings)
    requires run in d.runs && d.runs[run] == Loaded(n) && d.booking.row.status == BookingStatus.Assigning
    requires WinnerOf(RankedFor(scored, Winners(d.rows))) == Some(w)
    ensures var given := D.Run(d, [ReadTried(run, true), Persist(run, scored), Move.Assign(run, deadline)], s);
            given.booking.row.attempt == n && given.booking.row.pro == Some(w)
  {
    hide RankedFor, Recorded, AddRows, D.Run;
    WinnerTakesTheVisit(d.booking, w, n, deadline);
    hide Bookings.Step;
    ThreeMoves(d, ReadTried(run, true), Persist(run, scored), Move.Assign(run, deadline), s);
    var d1 := D.Step(d, ReadTried(run, true), s);
    assert d1 == Goes(d, run, Tried(n, Winners(d.rows)));
    var d2 := D.Step(d1, Persist(run, scored), s);
    assert d2.runs[run] == Chosen(n, w) && d2.booking == d.booking;
  }

  predicate WaitsAgain(d: Desk, ops: Desk) {
    ops.booking.row.status == BookingStatus.Assigning && ops.booking.row.attempt == d.booking.row.attempt + 2
  }

  lemma SentBack(f: File)
    requires f.row.status == BookingStatus.Assigned
    ensures var g := Bookings.Step(f, Reassign(None, true, 10));
            g.row.status == BookingStatus.Assigning && g.row.attempt == f.row.attempt
  {
  }

  lemma OpsTwice(f: File, p: ProId, q: ProId)
    requires f.row.status == BookingStatus.Assigning
    ensures var g := Bookings.Step(Bookings.Step(f, AssignByOps(p, true)), Reassign(Some(q), true, 10));
            g.row.status == BookingStatus.Assigned && g.row.attempt == f.row.attempt + 2
  {
  }

  lemma OverwrittenBy(f: File, n: nat)
    ensures Bookings.Step(f, CloseUnassignable(n, NoSupply)).row == f.row.(attempt := n, outcome := Some(NoSupply))
  {
  }
}
