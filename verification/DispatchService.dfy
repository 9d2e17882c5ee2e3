/** The dispatch service as it runs: `Run` takes the lock, makes one attempt and lets go. */
module DispatchService {
  import opened Wrappers
  import opened BookingTypes
  import opened Bookings
  import opened Dispatch
  import L = DispatchLadder
  import R = DispatchRanking
  import DispatchRuns

  datatype Report =
    | Assigned(pro: ProId, attempt: nat, evaluated: nat)
    | Unassignable(outcome: Outcome, attempt: nat, evaluated: nat)

  datatype RunError = Locked | NotDispatchable

  /** What one attempt finds when it looks: who is posted where, who in the city works and holds
      the service, who of them is over the cash ceiling, and what scoring makes of those it asks. */
  datatype Sighting = Sighting(
    area: Option<L.Postings>,
    pool: set<ProId>,
    overCeiling: set<ProId>,
    scored: seq<R.Candidate>,
    deadline: int)

  /** The ceiling bars from cash work only. */
  function Barred(row: Columns, seen: Sighting): set<ProId> {
    if row.mode == Cash then seen.overCeiling else {}
  }

  function Eligible(row: Columns, seen: Sighting, s: Settings): set<ProId> {
    L.PoolFor(seen.area, seen.pool, Barred(row, seen), s.allowWiden)
  }

  /** A score for each Pro the widening search came to, and for nobody else. */
  predicate ScoresThePool(row: Columns, seen: Sighting, s: Settings) {
    Pros(seen.scored) == Eligible(row, seen, s)
  }

  /** The moves of a run that nothing interrupts. Those its path does not reach change nothing. */
  function Solo(run: RunId, supply: bool, seen: Sighting): seq<Move> {
    [Acquire(run), Load(run), ReadTried(run, supply)]
    + ([Persist(run, seen.scored), Move.Assign(run, seen.deadline), Close(run)] + [Release(run)])
  }

  /** One attempt, all at once. */
  function Attempted(d: Desk, seen: Sighting, s: Settings): Desk {
    var n := d.booking.row.attempt + 1;
    if d.locked || d.booking.row.status != BookingStatus.Assigning then d
    else if n > s.maxAttempts then Closed(d, n, Exhausted)
    else if Eligible(d.booking.row, seen, s) == {} then Closed(d, n, NoSupply)
    else
      var tried := Winners(d.rows);
      var winner := WinnerOf(RankedFor(seen.scored, tried));
      var told := d.(rows := AddRows(d.rows, n, Recorded(seen.scored, tried, s.poolSize), winner));
      if winner.None? then Closed(told, n, Exhausted)
      else told.(booking := Bookings.Step(d.booking, Event.Assign(winner.value, n, seen.deadline)),
                 offers := d.offers + [Offer(n, winner.value, d.visits)])
  }

  function Closed(d: Desk, n: nat, outcome: Outcome): Desk {
    d.(booking := Bookings.Step(d.booking, CloseUnassignable(n, outcome)))
  }

  class DispatchService {
    const booking: Booking
    var locked: bool
    var rows: map<(nat, ProId), bool>
    ghost var offers: seq<Offer>
    ghost var visits: nat

    constructor (b: Booking)
      ensures booking == b && !locked && rows == map[] && offers == [] && visits == 0
    {
      booking := b;
      locked := false;
      rows := map[];
      offers := [];
      visits := 0;
    }

    /** The shared state; `others` are the runs under way elsewhere. */
    ghost function View(others: map<RunId, Phase>): Desk
      reads this, booking
    {
      Desk(booking.View(), locked, others, rows, offers, visits)
    }

    /** Only marks those tried before; what else scoring finds is given. */
    method ScoreAll(eligible: seq<R.Candidate>, tried: set<ProId>) returns (scored: seq<R.Candidate>)
      ensures scored == Marked(eligible, tried)
    {
      scored := [];
      for i := 0 to |eligible|
        invariant |scored| == i
        invariant forall k :: 0 <= k < i ==>
                    scored[k] == eligible[k].(excluded := eligible[k].excluded || eligible[k].pro in tried)
      {
        scored := scored + [eligible[i].(excluded := eligible[i].excluded || eligible[i].pro in tried)];
      }
    }

    method Run(seen: Sighting, s: Settings, ghost others: map<RunId, Phase>) returns (r: Result<Report, RunError>)
      requires ScoresThePool(booking.row, seen, s)
      modifies this, booking
      ensures View(others) == Attempted(old(View(others)), seen, s)
      ensures r.Ok? <==> !old(locked) && old(booking.row).status == BookingStatus.Assigning
      ensures r.Ok? && r.value.Assigned? ==>
              booking.row.pro == Some(r.value.pro) && booking.row.attempt == r.value.attempt
      ensures r.Ok? && old(booking.row).attempt < s.maxAttempts ==>
                (r.value.Unassignable? && r.value.outcome == NoSupply <==> Eligible(old(booking.row), seen, s) == {})
    {
      if locked { return Err(Locked); }
      locked := true;
      r := Attempt(seen, s, others);
      locked := false;
    }

    method Attempt(seen: Sighting, s: Settings, ghost others: map<RunId, Phase>) returns (r: Result<Report, RunError>)
      requires ScoresThePool(booking.row, seen, s)
      modifies this, booking
      ensures View(others).(locked := false) == Attempted(old(View(others)).(locked := false), seen, s)
              && locked == old(locked)
      ensures r.Ok? <==> old(booking.row).status == BookingStatus.Assigning
      ensures r.Ok? && r.value.Assigned? ==>
              booking.row.pro == Some(r.value.pro) && booking.row.attempt == r.value.attempt
      ensures r.Ok? && old(booking.row).attempt < s.maxAttempts ==>
                (r.value.Unassignable? && r.value.outcome == NoSupply <==> Eligible(old(booking.row), seen, s) == {})
    {
      hide R.Sort, R.Kept, Recorded, AddRows, L.PoolFor, ScoresThePool, Bookings.Step;
      if booking.row.status != BookingStatus.Assigning { return Err(NotDispatchable); }
      var n := booking.row.attempt + 1;
      if n > s.maxAttempts {
        booking.MarkUnassignable(n, Exhausted);
        return Ok(Report.Unassignable(Exhausted, n, 0));
      }
      if Eligible(booking.row, seen, s) == {} {
        booking.MarkUnassignable(n, NoSupply);
        return Ok(Report.Unassignable(NoSupply, n, 0));
      }
      var tried := Winners(rows);
      var scored := ScoreAll(seen.scored, tried);
      var ranked := R.Rank(scored);
      var winner := if ranked == [] then None else Some(ranked[0].candidate.pro);
      assert winner == WinnerOf(RankedFor(seen.scored, tried));
      rows := AddRows(rows, n, Recorded(seen.scored, tried, s.poolSize), winner);
      if winner.None? {
        booking.MarkUnassignable(n, Exhausted);
        return Ok(Report.Unassignable(Exhausted, n, |scored|));
      }
      offers := offers + [Offer(n, winner.value, visits)];
      DispatchRuns.WinnerTakesTheVisit(booking.View(), winner.value, n, seen.deadline);
      var _ := booking.AssignWinner(winner.value, n, seen.deadline);
      r := Ok(Report.Assigned(winner.value, n, |scored|));
    }
  }

  /** Where the first three moves leave a run that got the lock. */
  function Started(d: Desk, supply: bool, s: Settings): Phase {
    match LoadNext(d.booking.row, s)
    case Loaded(n) => if supply then Tried(n, Winners(d.rows)) else Closing(n, NoSupply)
    case p => p
  }

  lemma SoloStarts(d: Desk, run: RunId, supply: bool, s: Settings)
    requires run !in d.runs
    ensures Dispatch.Run(d, [Acquire(run), Load(run), ReadTried(run, supply)], s)
            == if d.locked then d else Goes(d, run, Started(d, supply, s)).(locked := true)
  {
    DispatchRuns.ThreeMoves(d, Acquire(run), Load(run), ReadTried(run, supply), s);
    if !d.locked {
      var d1 := Dispatch.Step(d, Acquire(run), s);
      var d2 := Dispatch.Step(d1, Load(run), s);
      assert d2 == Goes(d, run, LoadNext(d.booking.row, s)).(locked := true);
    }
  }

  lemma SoloWrites(d: Desk, run: RunId, seen: Sighting, s: Settings)
    requires run in d.runs ==> d.runs[run].Finished? || d.runs[run].Closing?
    ensures Dispatch.Run(d, [Persist(run, seen.scored), Move.Assign(run, seen.deadline), Close(run)], s)
            == if run in d.runs && d.runs[run].Closing?
               then Goes(Closed(d, d.runs[run].n, d.runs[run].outcome), run, Finished)
               else d
  {
    DispatchRuns.ThreeMoves(d, Persist(run, seen.scored), Move.Assign(run, seen.deadline), Close(run), s);
    if run in d.runs && d.runs[run].Closing? {
      Closes(d.booking, d.runs[run].n, d.runs[run].outcome);
      hide Bookings.Step;
    }
  }

  lemma SoloChooses(d: Desk, run: RunId, seen: Sighting, n: nat, tried: set<ProId>, s: Settings)
    requires run in d.runs && d.runs[run] == Tried(n, tried) && d.booking.row.status == BookingStatus.Assigning
    ensures var winner := WinnerOf(RankedFor(seen.scored, tried));
            var rows := AddRows(d.rows, n, Recorded(seen.scored, tried, s.poolSize), winner);
            var told := Goes(d, run, Finished).(rows := rows);
            Dispatch.Run(d, [Persist(run, seen.scored), Move.Assign(run, seen.deadline), Close(run)], s)
            == if winner.None? then Closed(told, n, Exhausted)
               else told.(booking := Bookings.Step(d.booking, Event.Assign(winner.value, n, seen.deadline)),
                          offers := d.offers + [Offer(n, winner.value, d.visits)])
  {
    hide RankedFor, Recorded, AddRows;
    DispatchRuns.ThreeMoves(d, Persist(run, seen.scored), Move.Assign(run, seen.deadline), Close(run), s);
    var winner := WinnerOf(RankedFor(seen.scored, tried));
    Closes(d.booking, n, Exhausted);
    if winner.Some? { DispatchRuns.WinnerTakesTheVisit(d.booking, winner.value, n, seen.deadline); }
    hide Bookings.Step;
    var d1 := Dispatch.Step(d, Persist(run, seen.scored), s);
    assert d1.runs[run] == if winner.Some? then Chosen(n, winner.value) else Closing(n, Exhausted);
  }

  lemma SoloReleases(d: Desk, run: RunId, others: map<RunId, Phase>, s: Settings)
    requires run !in others && d.runs == others[run := Finished]
    ensures Dispatch.Run(d, [Release(run)], s) == d.(locked := false, runs := others)
  {
    DispatchRuns.OneMove(d, Release(run), s);
    assert Without(d.runs, run) == others;
  }

  lemma SoloInParts(d: Desk, run: RunId, supply: bool, seen: Sighting, s: Settings)
    ensures Dispatch.Run(d, Solo(run, supply, seen), s)
            == Dispatch.Run(
                 Dispatch.Run(
                   Dispatch.Run(d, [Acquire(run), Load(run), ReadTried(run, supply)], s),
                   [Persist(run, seen.scored), Move.Assign(run, seen.deadline), Close(run)], s),
                 [Release(run)], s)
  {
    hide Dispatch.Run;
    var a := [Acquire(run), Load(run), ReadTried(run, supply)];
    var b := [Persist(run, seen.scored), Move.Assign(run, seen.deadline), Close(run)];
    DispatchRuns.RunInTwo(Dispatch.Run(d, a, s), b, [Release(run)], s);
    DispatchRuns.RunInTwo(d, a, b + [Release(run)], s);
  }

  lemma SoloTurnedAway(d: Desk, run: RunId, supply: bool, seen: Sighting, s: Settings)
    requires run !in d.runs && d.locked
    ensures Dispatch.Run(d, Solo(run, supply, seen), s) == d
  {
    SoloInParts(d, run, supply, seen, s);
    SoloStarts(d, run, supply, s);
    SoloWrites(d, run, seen, s);
    DispatchRuns.OneMove(d, Release(run), s);
  }

  lemma SoloFindsNobody(d: Desk, run: RunId, supply: bool, seen: Sighting, s: Settings)
    requires supply == (Eligible(d.booking.row, seen, s) != {})
    requires run !in d.runs && !d.locked && !Started(d, supply, s).Tried?
    ensures Dispatch.Run(d, Solo(run, supply, seen), s) == Attempted(d, seen, s)
  {
    hide Dispatch.Run, Dispatch.Step, Bookings.Step, RankedFor, Recorded, AddRows;
    SoloInParts(d, run, supply, seen, s);
    SoloStarts(d, run, supply, s);
    var phase := Started(d, supply, s);
    var d3 := Goes(d, run, phase).(locked := true);
    SoloWrites(d3, run, seen, s);
    var d6 := if phase.Closing? then Goes(Closed(d3, phase.n, phase.outcome), run, Finished) else d3;
    assert d6.runs == d.runs[run := Finished];
    SoloReleases(d6, run, d.runs, s);
  }

  lemma SoloFindsSomebody(d: Desk, run: RunId, supply: bool, seen: Sighting, s: Settings)
    requires supply == (Eligible(d.booking.row, seen, s) != {})
    requires run !in d.runs && !d.locked && Started(d, supply, s).Tried?
    ensures Dispatch.Run(d, Solo(run, supply, seen), s) == Attempted(d, seen, s)
  {
    hide Dispatch.Run, Dispatch.Step, Bookings.Step, RankedFor, Recorded, AddRows;
    SoloInParts(d, run, supply, seen, s);
    SoloStarts(d, run, supply, s);
    var phase := Started(d, supply, s);
    var d3 := Goes(d, run, phase).(locked := true);
    SoloChooses(d3, run, seen, phase.n, phase.tried, s);
    var d6 := Dispatch.Run(d3, [Persist(run, seen.scored), Move.Assign(run, seen.deadline), Close(run)], s);
    assert d6.runs == d.runs[run := Finished];
    SoloReleases(d6, run, d.runs, s);
  }

  /** Read by read and write by write, an uninterrupted run comes to the one attempt: the
      interleaved moves are the service's own. */
  lemma SoloIsOneAttempt(d: Desk, run: RunId, seen: Sighting, s: Settings)
    requires run !in d.runs
    ensures var supply := Eligible(d.booking.row, seen, s) != {};
            Dispatch.Run(d, Solo(run, supply, seen), s) == Attempted(d, seen, s)
  {
    var supply := Eligible(d.booking.row, seen, s) != {};
    if d.locked {
      SoloTurnedAway(d, run, supply, seen, s);
    } else if Started(d, supply, s).Tried? {
      SoloFindsSomebody(d, run, supply, seen, s);
    } else {
      SoloFindsNobody(d, run, supply, seen, s);
    }
  }

  /** What an attempt with tries left reports, told from who works and who is posted: with
      widening allowed it is `no_supply` exactly when the whole city, less those barred, is empty,
      but where everyone in the city is barred and somebody posted on the ladder works. */
  lemma AttemptReportsNoSupply(d: Desk, seen: Sighting, s: Settings)
    requires !d.locked && d.booking.row.status == BookingStatus.Assigning
    requires d.booking.row.attempt < s.maxAttempts && s.allowWiden
    ensures var barred := if d.booking.row.mode == Online then {} else seen.overCeiling;
            (Attempted(d, seen, s).booking.row.outcome == Some(NoSupply) <==> seen.pool - barred == {})
            <==> !(seen.pool <= barred && L.PostedAndWorking(seen.area, seen.pool))
  {
    hide RankedFor, Recorded, AddRows, L.PoolFor, L.PostedAndWorking;
    L.NoSupplyMeansAnEmptyCity(seen.area, seen.pool, Barred(d.booking.row, seen));
  }

  lemma Closes(f: File, n: nat, outcome: Outcome)
    ensures Bookings.Step(f, CloseUnassignable(n, outcome)).row.status == f.row.status
  {
  }
}
