/**
 Dispatching one booking: the lock, the attempts, the candidate rows. `Desk` is the value of
 everything the runs share together with where each run has got to; one `Move` is one read or
 write, so runs interleave with each other and with every other writer of the booking.
 */
module Dispatch {
  import opened Wrappers
  import opened BookingTypes
  import opened Bookings
  import R = DispatchRanking

  type RunId = nat

  datatype Settings = Settings(maxAttempts: nat, poolSize: nat, allowWiden: bool)

  datatype Phase =
    | Ready
    | Loaded(n: nat)
    | Tried(n: nat, tried: set<ProId>)
    | Chosen(n: nat, winner: ProId)
    | Closing(n: nat, outcome: Outcome)
    | Finished

  /** An assignment dispatch made; `visit` counts the times the booking has come to wait for a Pro. */
  datatype Offer = Offer(attempt: nat, pro: ProId, visit: nat)

  /** Candidate rows are keyed by attempt and Pro, and say whether the Pro won. */
  datatype Desk = Desk(
    booking: File,
    locked: bool,
    runs: map<RunId, Phase>,
    rows: map<(nat, ProId), bool>,
    offers: seq<Offer>,
    visits: nat)

  datatype Move =
    | Acquire(run: RunId)
    | Load(run: RunId)
    | ReadTried(run: RunId, supply: bool)
    | Persist(run: RunId, scored: seq<R.Candidate>)
    | Assign(run: RunId, deadline: int)
    | Close(run: RunId)
    | Release(run: RunId)
    | Fail(run: RunId, crash: bool)
    | Lapse
    | Elsewhere(event: Event)

  function Opening(f: File): Desk {
    Desk(f, false, map[], map[], [], if f.row.status == Assigning then 1 else 0)
  }

  /** Replaces the booking, noticing when it comes back to wait for a Pro. */
  function Rebooked(d: Desk, f: File): Desk {
    var comesBack := d.booking.row.status != Assigning && f.row.status == Assigning;
    d.(booking := f, visits := d.visits + if comesBack then 1 else 0)
  }

  function Goes(d: Desk, run: RunId, p: Phase): Desk { d.(runs := d.runs[run := p]) }

  function Without(runs: map<RunId, Phase>, run: RunId): map<RunId, Phase> {
    map r | r in runs && r != run :: runs[r]
  }

  function Winners(rows: map<(nat, ProId), bool>): set<ProId> {
    set k | k in rows && rows[k] :: k.1
  }

  // ---- one attempt, read by read and write by write ----

  function LoadNext(row: Columns, s: Settings): Phase {
    if row.status != BookingStatus.Assigning then Finished
    else if row.attempt + 1 > s.maxAttempts then Closing(row.attempt + 1, Exhausted)
    else Loaded(row.attempt + 1)
  }

  /** Scoring marks whoever has already won this booking before. */
  function Marked(scored: seq<R.Candidate>, tried: set<ProId>): seq<R.Candidate> {
    seq(|scored|, i requires 0 <= i < |scored| => scored[i].(excluded := scored[i].excluded || scored[i].pro in tried))
  }

  function RankedFor(scored: seq<R.Candidate>, tried: set<ProId>): seq<R.Candidate> {
    R.Sort(R.Kept(Marked(scored, tried)))
  }

  function Pros(cs: seq<R.Candidate>): set<ProId> { set c | c in cs :: c.pro }

  /** Everybody excluded, and the best `poolSize` of those ranked. */
  function Recorded(scored: seq<R.Candidate>, tried: set<ProId>, poolSize: nat): set<ProId> {
    var ranked := RankedFor(scored, tried);
    Pros(ranked[..Min(poolSize, |ranked|)]) + set c | c in Marked(scored, tried) && c.excluded :: c.pro
  }

  /** `createMany` with `skipDuplicates`: a row already there stays as it was. */
  function AddRows(rows: map<(nat, ProId), bool>, n: nat, pros: set<ProId>, winner: Option<ProId>)
    : map<(nat, ProId), bool>
  {
    (map p | p in pros :: (n, p) := winner == Some(p)) + rows
  }

  function WinnerOf(ranked: seq<R.Candidate>): Option<ProId> {
    if ranked == [] then None else Some(ranked[0].pro)
  }

  function Persisted(d: Desk, run: RunId, scored: seq<R.Candidate>, s: Settings): Desk
    requires run in d.runs && d.runs[run].Tried?
  {
    var Tried(n, tried) := d.runs[run];
    var winner := WinnerOf(RankedFor(scored, tried));
    var next := if winner.Some? then Chosen(n, winner.value) else Closing(n, Exhausted);
    Goes(d, run, next).(rows := AddRows(d.rows, n, Recorded(scored, tried, s.poolSize), winner))
  }

  function Assigned(d: Desk, run: RunId, deadline: int): Desk
    requires run in d.runs && d.runs[run].Chosen?
  {
    var Chosen(n, winner) := d.runs[run];
    var done := Goes(Rebooked(d, Bookings.Step(d.booking, Event.Assign(winner, n, deadline))), run, Finished);
    if d.booking.row.status != BookingStatus.Assigning then done
    else done.(offers := d.offers + [Offer(n, winner, d.visits)])
  }

  predicate Dispatching(e: Event) { e.Assign? || e.CloseUnassignable? }

  function Step(d: Desk, m: Move, s: Settings): Desk {
    match m
    case Acquire(run) =>
      if d.locked || run in d.runs then d else Goes(d, run, Ready).(locked := true)
    case Load(run) =>
      if run in d.runs && d.runs[run] == Ready then Goes(d, run, LoadNext(d.booking.row, s)) else d
    case ReadTried(run, supply) =>
      if run in d.runs && d.runs[run].Loaded? then
        Goes(d, run, if supply then Tried(d.runs[run].n, Winners(d.rows)) else Closing(d.runs[run].n, NoSupply))
      else d
    case Persist(run, scored) =>
      if run in d.runs && d.runs[run].Tried? then Persisted(d, run, scored, s) else d
    case Assign(run, deadline) =>
      if run in d.runs && d.runs[run].Chosen? then Assigned(d, run, deadline) else d
    case Close(run) =>
      if run in d.runs && d.runs[run].Closing? then
        var Closing(n, outcome) := d.runs[run];
        Goes(Rebooked(d, Bookings.Step(d.booking, CloseUnassignable(n, outcome))), run, Finished)
      else d
    case Release(run) =>
      if run in d.runs && d.runs[run] == Finished then d.(locked := false, runs := Without(d.runs, run)) else d
    case Fail(run, crash) =>
      if run !in d.runs then d
      else if crash then d.(runs := Without(d.runs, run))
      else Goes(d, run, Finished)
    case Lapse => d.(locked := false)
    case Elsewhere(e) =>
      if Dispatching(e) then d else Rebooked(d, Bookings.Step(d.booking, e))
  }

  function Run(d: Desk, ms: seq<Move>, s: Settings): Desk
    decreases |ms|
  {
    if ms == [] then d else Run(Step(d, ms[0], s), ms[1..], s)
  }
}
