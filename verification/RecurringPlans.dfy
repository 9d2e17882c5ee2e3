/** Standing orders: when the next occurrence is due, and what generating one writes. */
module RecurringPlans {
  import opened Wrappers
  import opened Calendar

  datatype Frequency = Daily | Weekly | Biweekly | Monthly | Unknown

  // ---- advance ----

  /** The last day number of a month, as `Date.UTC(y, m + 1, 0)` finds it. */
  function MonthLength(y: int, m: int): int
    requires 0 <= m < 12
  {
    DaysInMonth(FullYear(y), m)
  }

  /** Months counted from year 0, so that the next month is one more. */
  function MonthIndex(t: int): int {
    var c := CivilOf(Day(t));
    12 * c.year + c.month - 1
  }

  function LengthAt(index: int): int { MonthLength(index / 12, index % 12) }

  function DayOfMonth(t: int): int { CivilOf(Day(t)).day }

  function AdvanceMonth(from: int): int {
    var c := CivilOf(Day(from));
    var next := CivilOf(MakeDay(c.year, c.month, 1));
    var day := Min(c.day, MonthLength(next.year, next.month - 1));
    MakeDay(next.year, next.month - 1, day) * MS_PER_DAY + TimeInDay(from)
  }

  function Advance(f: Frequency, from: int): int {
    match f
    case Daily => from + MS_PER_DAY
    case Weekly => from + 7 * MS_PER_DAY
    case Biweekly => from + 14 * MS_PER_DAY
    case Monthly => AdvanceMonth(from)
    case Unknown => from + 7 * MS_PER_DAY
  }

  /** The next occurrence is at the same time of day, one, seven or fourteen days on, and seven where
      the frequency is not known; only a monthly plan asks the calendar. */
  lemma NextIsDaysLater(f: Frequency, from: int)
    requires f != Monthly
    ensures var days := match f case Daily => 1 case Biweekly => 14 case _ => 7;
            Day(Advance(f, from)) == Day(from) + days && TimeInDay(Advance(f, from)) == TimeInDay(from)
  {
  }

  lemma LastDayOf(y: int, m: int)
    requires 0 <= m < 12
    ensures CivilOf(MakeDay(y, m + 1, 0)).day == DaysInMonth(y, m)
  {
    hide DayFromYear, IsLeap, MakeDay, MonthOffset, DaysInMonth;
    NextMonthStart(y, m);
    DaysShift(y, m + 1, 1, 0);
    DaysShift(y, m, 1, DaysInMonth(y, m));
    CivilRoundTrip(Civil(y, m + 1, DaysInMonth(y, m)));
  }

  /** The monthly case: to the first of the next month, then as far in as the day allows. */
  method StepMonth(next: JsDate)
    modifies next
    ensures next.time == AdvanceMonth(old(next.time))
  {
    hide DayFromYear, IsLeap, MakeDay, MonthOffset, DaysInMonth, Day, TimeInDay;
    ghost var from := next.time;
    var targetDay := CivilOf(Day(next.time)).day;
    next.SetUtcMonth(CivilOf(Day(next.time)).month, 1);
    var c := CivilOf(Day(next.time));
    LastDayOf(FullYear(c.year), c.month - 1);
    UtcDay(c.year, c.month, 0);
    var daysInMonth := CivilOf(Day(Utc(c.year, c.month, 0))).day;
    DaysShift(c.year, c.month - 1, c.day, Min(targetDay, daysInMonth));
    next.SetUtcDate(Min(targetDay, daysInMonth));
    Recomposed(next.time);
  }

  lemma UtcDay(y: int, m: int, d: int)
    ensures Day(Utc(y, m, d)) == MakeDay(FullYear(y), m, d)
  {
    hide DayFromYear, IsLeap, MakeDay;
    Composed(MakeDay(FullYear(y), m, d), 0);
  }

  lemma Recomposed(t: int)
    ensures t == Day(t) * MS_PER_DAY + TimeInDay(t)
  {
  }

  method ComputeAdvance(f: Frequency, from: int) returns (r: int)
    ensures r == Advance(f, from)
  {
    hide AdvanceMonth;
    match f
    case Daily => r := from + MS_PER_DAY;
    case Weekly => r := from + 7 * MS_PER_DAY;
    case Biweekly => r := from + 14 * MS_PER_DAY;
    case Monthly =>
      var next := new JsDate(from);
      StepMonth(next);
      r := next.time;
    case Unknown => r := from + 7 * MS_PER_DAY;
  }

  lemma LegacyLengths(y: int, m: int)
    requires 0 <= m < 12
    ensures 28 <= MonthLength(y, m) <= DaysInMonth(y, m)
  {
  }

  lemma NextMonthOf(y: int, m: int)
    requires 0 <= m < 12
    ensures CivilOf(MakeDay(y, m + 1, 1)) == if m == 11 then Civil(y + 1, 1, 1) else Civil(y, m + 2, 1)
  {
    hide DayFromYear, IsLeap, MonthOffset, DaysInMonth;
    if m == 11 {
      CivilRoundTrip(Civil(y + 1, 1, 1));
    } else {
      CivilRoundTrip(Civil(y, m + 2, 1));
    }
  }

  /** One monthly step: strictly later, in exactly the next calendar month, at the same time
      of day, on the same day or the month's last when it is too short. */
  lemma MonthlyStepLands(from: int)
    ensures var next := AdvanceMonth(from);
            next > from
            && MonthIndex(next) == MonthIndex(from) + 1
            && TimeInDay(next) == TimeInDay(from)
            && DayOfMonth(next) == Min(DayOfMonth(from), LengthAt(MonthIndex(from) + 1))
  {
    hide DayFromYear, IsLeap, MakeDay, MonthOffset, DaysInMonth, MonthLength;
    var c := CivilOf(Day(from));
    NextMonthOf(c.year, c.month - 1);
    var first := MakeDay(c.year, c.month, 1);
    var next := CivilOf(first);
    LegacyLengths(next.year, next.month - 1);
    var day := Min(c.day, MonthLength(next.year, next.month - 1));
    var landed := MakeDay(next.year, next.month - 1, day);
    CivilRoundTrip(Civil(next.year, next.month, day));
    Composed(landed, TimeInDay(from));
    DaysShift(next.year, next.month - 1, 1, day);
    NextMonthStart(c.year, c.month - 1);
    DaysShift(c.year, c.month - 1, 1, c.day);
    assert landed > Day(from);
    var index := 12 * next.year + next.month - 1;
    assert index / 12 == next.year && index % 12 == next.month - 1;
  }

  function Iterate(f: Frequency, from: int, n: nat): int {
    if n == 0 then from else Advance(f, Iterate(f, from, n - 1))
  }

  /** The shortest of the `n` months after the one at `index`. */
  function Shortest(index: int, n: nat): int {
    if n == 0 then 31 else Min(Shortest(index, n - 1), LengthAt(index + n))
  }

  /** A monthly plan after `n` steps: the day is the smaller of the starting day and the
      shortest month visited, so a day once lost to a short month never comes back. */
  lemma {:induction false} MonthlyRun(from: int, n: nat)
    ensures var t := Iterate(Monthly, from, n);
            MonthIndex(t) == MonthIndex(from) + n
            && TimeInDay(t) == TimeInDay(from)
            && DayOfMonth(t) == Min(DayOfMonth(from), Shortest(MonthIndex(from), n))
  {
    hide MonthIndex, TimeInDay, LengthAt, AdvanceMonth;
    hide DayFromYear, IsLeap, MonthOffset, DaysInMonth;
    if n > 0 {
      MonthlyRun(from, n - 1);
      MonthlyStepLands(Iterate(Monthly, from, n - 1));
    }
  }

  lemma AdvanceIsLater(f: Frequency, from: int)
    ensures Advance(f, from) > from
  {
    hide AdvanceMonth;
    if f == Monthly { MonthlyStepLands(from); }
  }

  lemma {:induction false} IteratesIncrease(f: Frequency, from: int, m: nat, n: nat)
    requires m < n
    ensures Iterate(f, from, m) < Iterate(f, from, n)
  {
    hide Advance;
    AdvanceIsLater(f, Iterate(f, from, n - 1));
    if m < n - 1 { IteratesIncrease(f, from, m, n - 1); }
  }

  // ---- plans ----

  datatype PlanState = PlanState(frequency: Frequency, next: Option<int>, end: Option<int>, active: bool)

  /** One pass of the scheduled job: its clock, its horizon, and whether the booking service
      would take this plan's occurrence (a retired service or a deleted address would not). */
  datatype Pass = Pass(now: int, horizon: int, accepted: bool)

  predicate Due(p: PlanState, pass: Pass) {
    p.active && p.next.Some? && p.next.value <= pass.horizon && (p.end.Some? ==> p.end.value >= pass.now)
  }

  /** Booking creation refuses a slot that is not in the future. */
  predicate Generates(p: PlanState, pass: Pass) { Due(p, pass) && p.next.value > pass.now && pass.accepted }

  function Generated(p: PlanState): PlanState
    requires p.next.Some?
  {
    var next := Advance(p.frequency, p.next.value);
    var exhausted := p.end.Some? && next > p.end.value;
    p.(next := if exhausted then None else Some(next), active := !exhausted)
  }

  function AfterPass(p: PlanState, pass: Pass): PlanState {
    if Generates(p, pass) then Generated(p) else p
  }

  /** A pass books the slot that is next when the plan is active and not over, and the slot is within
      the horizon, still ahead, and taken. The next one follows it, or ends the plan where that would
      be past its end; otherwise the plan is as it was. */
  lemma PassesSo(p: PlanState, pass: Pass)
    ensures var after := AfterPass(p, pass);
            (Generates(p, pass)
             <==> p.active && pass.accepted && p.next.Some? && pass.now < p.next.value <= pass.horizon
                  && !(p.end.Some? && p.end.value < pass.now))
            && after.frequency == p.frequency && after.end == p.end
            && if Generates(p, pass)
               then (after.active <==> after.next.Some?)
                    && (after.active <==> !(p.end.Some? && p.end.value < Advance(p.frequency, p.next.value)))
                    && (after.active ==> after.next.value == Advance(p.frequency, p.next.value))
               else after == p
  {
    hide Advance;
  }

  class RecurringPlan {
    const frequency: Frequency
    var nextRunAt: Option<int>
    var endDate: Option<int>
    var isActive: bool

    constructor (f: Frequency, startDate: int, end: Option<int>)
      ensures State() == PlanState(f, Some(startDate), end, true)
    {
      frequency, nextRunAt, endDate, isActive := f, Some(startDate), end, true;
    }

    function State(): PlanState
      reads this
    {
      PlanState(frequency, nextRunAt, endDate, isActive)
    }

    /** `generateOne`: the slot booked, or none when the booking was refused. */
    method GenerateOne(pass: Pass) returns (slot: Option<int>)
      requires Due(State(), pass)
      modifies this
      ensures State() == AfterPass(old(State()), pass)
      ensures slot == if Generates(old(State()), pass) then old(nextRunAt) else None
    {
      if nextRunAt.value <= pass.now || !pass.accepted { return None; }
      slot := nextRunAt;
      var next := ComputeAdvance(frequency, nextRunAt.value);
      var exhausted := endDate.Some? && next > endDate.value;
      nextRunAt := if exhausted then None else Some(next);
      isActive := !exhausted;
    }
  }

  function States(plans: seq<RecurringPlan>): seq<PlanState>
    reads plans
  {
    seq(|plans|, i requires 0 <= i < |plans| reads plans => plans[i].State())
  }

  /** How many plans booked an occurrence, and how many were due and could not. */
  function Tally(states: seq<PlanState>, now: int, horizon: int, accepted: seq<bool>): (nat, nat)
    requires |states| == |accepted|
  {
    if states == [] then (0, 0)
    else
      var n := |states| - 1;
      var (generated, skipped) := Tally(states[..n], now, horizon, accepted[..n]);
      var pass := Pass(now, horizon, accepted[n]);
      if Generates(states[n], pass) then (generated + 1, skipped)
      else if Due(states[n], pass) then (generated, skipped + 1)
      else (generated, skipped)
  }

  lemma OnlyDuePlansGenerate(p: PlanState, pass: Pass)
    ensures Generates(p, pass) ==> Due(p, pass)
  {
  }

  /** The plans for which something holds of the pass they are given. */
  function Chosen(states: seq<PlanState>, now: int, horizon: int, accepted: seq<bool>,
                  holds: (PlanState, Pass) -> bool): set<nat>
    requires |states| == |accepted|
  {
    set i: nat | i < |states| && holds(states[i], Pass(now, horizon, accepted[i]))
  }

  lemma OneMoreChosen(states: seq<PlanState>, now: int, horizon: int, accepted: seq<bool>,
                      holds: (PlanState, Pass) -> bool)
    requires |states| == |accepted| > 0
    ensures var n := |states| - 1;
            |Chosen(states, now, horizon, accepted, holds)|
            == |Chosen(states[..n], now, horizon, accepted[..n], holds)|
               + if holds(states[n], Pass(now, horizon, accepted[n])) then 1 else 0
  {
    var n := |states| - 1;
    var before := Chosen(states[..n], now, horizon, accepted[..n], holds);
    assert Chosen(states, now, horizon, accepted, holds)
           == before + if holds(states[n], Pass(now, horizon, accepted[n])) then {n} else {};
  }

  /** Each plan that was due is counted once, as booked or as skipped. */
  lemma {:induction false} EachDuePlanIsCounted(states: seq<PlanState>, now: int, horizon: int, accepted: seq<bool>)
    requires |states| == |accepted|
    ensures var (generated, skipped) := Tally(states, now, horizon, accepted);
            generated == |Chosen(states, now, horizon, accepted, Generates)|
            && generated + skipped == |Chosen(states, now, horizon, accepted, Due)|
    decreases |states|
  {
    if states == [] {
      assert Chosen(states, now, horizon, accepted, Generates) == Chosen(states, now, horizon, accepted, Due) == {};
    } else {
      var n := |states| - 1;
      OnlyDuePlansGenerate(states[n], Pass(now, horizon, accepted[n]));
      hide Generates, Due, Chosen;
      EachDuePlanIsCounted(states[..n], now, horizon, accepted[..n]);
      OneMoreChosen(states, now, horizon, accepted, Generates);
      OneMoreChosen(states, now, horizon, accepted, Due);
    }
  }

  lemma TallyNext(states: seq<PlanState>, i: nat, now: int, horizon: int, accepted: seq<bool>)
    requires i < |states| == |accepted|
    ensures var (generated, skipped) := Tally(states[..i], now, horizon, accepted[..i]);
            var pass := Pass(now, horizon, accepted[i]);
            Tally(states[..i + 1], now, horizon, accepted[..i + 1])
            == if Generates(states[i], pass) then (generated + 1, skipped)
               else if Due(states[i], pass) then (generated, skipped + 1)
               else (generated, skipped)
  {
    assert states[..i + 1][..i] == states[..i] && accepted[..i + 1][..i] == accepted[..i];
  }

  /** `generateDueBookings`: one failing plan never stops, or changes, another. */
  method GenerateDueBookings(plans: seq<RecurringPlan>, now: int, horizon: int, accepted: seq<bool>)
    returns (generated: nat, skipped: nat)
    requires forall j, k :: 0 <= j < k < |plans| ==> plans[j] != plans[k]
    requires |accepted| == |plans|
    modifies plans
    ensures forall k :: 0 <= k < |plans| ==>
              plans[k].State() == AfterPass(old(plans[k].State()), Pass(now, horizon, accepted[k]))
    ensures (generated, skipped) == Tally(old(States(plans)), now, horizon, accepted)
  {
    generated, skipped := 0, 0;
    ghost var before := States(plans);
    for i := 0 to |plans|
      invariant (generated, skipped) == Tally(before[..i], now, horizon, accepted[..i])
      invariant forall k :: 0 <= k < i ==> plans[k].State() == AfterPass(before[k], Pass(now, horizon, accepted[k]))
      invariant forall k :: i <= k < |plans| ==> plans[k].State() == before[k]
    {
      hide Advance;
      TallyNext(before, i, now, horizon, accepted);
      var pass := Pass(now, horizon, accepted[i]);
      if Due(plans[i].State(), pass) {
        var slot := plans[i].GenerateOne(pass);
        if slot.Some? { generated := generated + 1; } else { skipped := skipped + 1; }
      }
    }
    assert before[..|plans|] == before && accepted[..|plans|] == accepted;
  }

  // ---- whole runs ----

  /** The slots a plan books over a run of passes. */
  function Occurrences(p: PlanState, passes: seq<Pass>): seq<int>
    decreases |passes|
  {
    if passes == [] then []
    else
      var rest := Occurrences(AfterPass(p, passes[0]), passes[1..]);
      if Generates(p, passes[0]) then [p.next.value] + rest else rest
  }

  predicate WithinEnd(p: PlanState) { p.next.Some? && p.end.Some? ==> p.next.value <= p.end.value }

  /** An unedited plan books exactly the successive iterates of its first slot, so its
      occurrences strictly increase, and none lies past the plan's end date. */
  lemma {:induction false} OccurrencesFollowThePlan(p: PlanState, passes: seq<Pass>)
    requires WithinEnd(p)
    ensures var os := Occurrences(p, passes);
            (os != [] ==> p.next.Some?)
            && (forall k :: 0 <= k < |os| ==> os[k] == Iterate(p.frequency, p.next.value, k))
            && (p.end.Some? ==> forall k :: 0 <= k < |os| ==> os[k] <= p.end.value)
            && (forall j, k :: 0 <= j < k < |os| ==> os[j] < os[k])
    decreases |passes|
  {
    hide Advance;
    if passes != [] {
      var after := AfterPass(p, passes[0]);
      var rest := Occurrences(after, passes[1..]);
      OccurrencesFollowThePlan(after, passes[1..]);
      if Generates(p, passes[0]) {
        var os := Occurrences(p, passes);
        assert os == [p.next.value] + rest;
        forall k | 0 <= k < |os| ensures os[k] == Iterate(p.frequency, p.next.value, k) {
          if k > 0 { IterateTail(p.frequency, p.next.value, k - 1); }
        }
        forall j, k | 0 <= j < k < |os| ensures os[j] < os[k] {
          IteratesIncrease(p.frequency, p.next.value, j, k);
        }
      }
    }
  }

  lemma {:induction false} IterateTail(f: Frequency, from: int, n: nat)
    ensures Iterate(f, from, n + 1) == Iterate(f, Advance(f, from), n)
  {
    hide Advance;
    if n > 0 {
      IterateTail(f, from, n - 1);
    } else {
      assert Iterate(f, from, 1) == Advance(f, Iterate(f, from, 0));
    }
  }

  /** A slot the clock has overtaken is refused on every later pass, so the plan never moves
      again: no failure deactivates it, and none advances it either. */
  lemma {:induction false} OvertakenPlanIsStuck(p: PlanState, passes: seq<Pass>)
    requires p.next.Some?
    requires forall k :: 0 <= k < |passes| ==> p.next.value <= passes[k].now
    ensures Occurrences(p, passes) == []
    ensures forall k :: 0 <= k < |passes| ==> AfterPass(p, passes[k]) == p
  {
    if passes != [] { OvertakenPlanIsStuck(p, passes[1..]); }
  }
}
