/** What an evaluation writes, and what unwinding a job takes back, told in the columns alone. */
module EvaluationLaws {
  import opened Wrappers
  import opened Totals
  import opened Books
  import opened Incentives
  import opened IncentivePeriods
  import opened Reversal
  import opened MoneyRuns

  // ---- which jobs count ----

  /** In the period of the evaluation, and while the scheme is valid. */
  predicate InWindow(e: Evaluation, at: int) {
    PeriodFor(e.scheme.recurrence, e.at).start <= at < PeriodFor(e.scheme.recurrence, e.at).end
    && e.scheme.validFrom <= at && (e.scheme.validTo.Some? ==> at < e.scheme.validTo.value)
  }

  predicate JobCounts(c: Commission, e: Evaluation) {
    c.pro == e.pro && c.status != CommissionStatus.Reversed && InWindow(e, c.computedAt)
    && (e.scheme.criteria.Rating? ==> c.booking in e.ratings)
  }

  /** One a job; and the stars it was given, or one where stars are not what counts. */
  function Job(e: Evaluation): Commission -> int {
    (c: Commission) => if JobCounts(c, e) then 1 else 0
  }

  function Stars(e: Evaluation): Commission -> int {
    (c: Commission) =>
      if !JobCounts(c, e) then 0 else if e.scheme.criteria.Rating? then e.ratings[c.booking] else 1
  }

  predicate Scored(e: Evaluation) { e.scheme.criteria.JobsCount? || e.scheme.criteria.Rating? }

  lemma CountsIsJobCounts(c: Commission, e: Evaluation)
    requires Scored(e)
    ensures var (from, to) := WindowOf(e.scheme, e.at);
            (Counts(c, e, from, to) <==> JobCounts(c, e))
            && (JobCounts(c, e) ==> ValueOf(c, e) == Stars(e)(c))
  {
    hide PeriodFor;
  }

  lemma DeriveUnfolds(cs: seq<Commission>, e: Evaluation, from: int, to: int, i: nat)
    requires i < |cs|
    ensures var rest := Derive(cs, e, from, to, i + 1); var counts := Counts(cs[i], e, from, to);
            |Derive(cs, e, from, to, i)| == (if counts then 1 else 0) + |rest|
            && Total(Derive(cs, e, from, to, i), DerivedValue)
               == (if counts then ValueOf(cs[i], e) else 0) + Total(rest, DerivedValue)
  {
    hide Counts, ValueOf;
    var rest := Derive(cs, e, from, to, i + 1);
    var head := if Counts(cs[i], e, from, to) then [Derived(i, ValueOf(cs[i], e), cs[i].computedAt)] else [];
    assert Derive(cs, e, from, to, i) == head + rest;
    hide Derive;
    TotalConcat(head, rest, DerivedValue);
  }

  lemma JobAndStars(c: Commission, e: Evaluation)
    ensures Job(e)(c) == (if JobCounts(c, e) then 1 else 0)
    ensures !JobCounts(c, e) ==> Stars(e)(c) == 0
  {
    hide JobCounts;
  }

  lemma {:induction false} DeriveAddsUp(cs: seq<Commission>, e: Evaluation, from: int, to: int, i: nat)
    requires Scored(e) && i <= |cs| && (from, to) == WindowOf(e.scheme, e.at)
    ensures |Derive(cs, e, from, to, i)| == Total(cs[i..], Job(e))
            && Total(Derive(cs, e, from, to, i), DerivedValue) == Total(cs[i..], Stars(e))
    decreases |cs| - i
  {
    if i < |cs| {
      hide WindowOf, Counts, JobCounts, ValueOf, Derive, Scored, DerivedValue, Total, Job, Stars;
      CountsIsJobCounts(cs[i], e);
      DeriveUnfolds(cs, e, from, to, i);
      DeriveAddsUp(cs, e, from, to, i + 1);
      assert cs[i..][0] == cs[i] && cs[i..][1..] == cs[i + 1..];
      TotalOfTheRest(cs[i..], Job(e));
      TotalOfTheRest(cs[i..], Stars(e));
      JobAndStars(cs[i], e);
    }
  }

  /** How many jobs count, and what they come to. */
  lemma DerivedAddsUp(cs: seq<Commission>, e: Evaluation)
    requires Scored(e)
    ensures |DerivedFor(cs, e)| == Total(cs, Job(e)) && DerivedTotal(DerivedFor(cs, e)) == Total(cs, Stars(e))
  {
    hide WindowOf, Derive, Job, Stars, Total;
    var (from, to) := WindowOf(e.scheme, e.at);
    DeriveAddsUp(cs, e, from, to, 0);
    assert cs[0..] == cs;
  }

  lemma DerivedNames(cs: seq<Commission>, e: Evaluation, c: CommissionId)
    requires Scored(e)
    ensures Names(DerivedFor(cs, e), c) <==> c < |cs| && JobCounts(cs[c], e)
  {
    var (from, to) := WindowOf(e.scheme, e.at);
    hide WindowOf, Counts, JobCounts;
    if c < |cs| {
      DeriveIsComplete(cs, e, from, to, 0, c);
      CountsIsJobCounts(cs[c], e);
    }
  }

  // ---- the verdict ----

  /** Enough jobs; and, where stars count, an average that reaches the bar or falls short of it by
      less than half a hundredth of a star over all the jobs. */
  predicate Reached(e: Evaluation, jobs: int, stars: int) {
    match e.scheme.criteria
    case JobsCount(target) => jobs >= target
    case Rating(minJobs, bar) => jobs >= minJobs && (stars * 100) as real + 0.5 > jobs as real * bar * 100.0
    case _ => false
  }

  /** The figure shown beside the progress: jobs, or stars, in hundredths. */
  predicate TargetIs(e: Evaluation, target: int) {
    match e.scheme.criteria
    case JobsCount(jobs) => target == 100 * jobs
    case Rating(minJobs, bar) =>
      target as real - 0.5 <= minJobs as real * bar * 100.0 < target as real + 0.5
    case _ => false
  }

  lemma VerdictIs(e: Evaluation, jobs: nat, stars: nat)
    requires Scored(e)
    ensures var v := Evaluate(e.scheme.criteria, jobs, stars);
            v.Some? && (v.value.achieved <==> Reached(e, jobs, stars)) && TargetIs(e, v.value.target)
  {
  }

  /** The job a bonus hangs off: the one that set the evaluation off, if it counts, or else one
      computed last. */
  predicate HangsOff(cs: seq<Commission>, e: Evaluation, c: CommissionId) {
    c < |cs| && JobCounts(cs[c], e)
    && (if e.trigger.Some? && e.trigger.value < |cs| && JobCounts(cs[e.trigger.value], e)
        then c == e.trigger.value
        else forall i :: 0 <= i < |cs| && JobCounts(cs[i], e) ==> cs[i].computedAt <= cs[c].computedAt)
  }

  lemma {:induction false} DerivedAt(cs: seq<Commission>, e: Evaluation, from: int, to: int, i: nat)
    requires i <= |cs|
    ensures forall k :: 0 <= k < |Derive(cs, e, from, to, i)| ==>
              var d := Derive(cs, e, from, to, i)[k]; d.commission < |cs| && d.at == cs[d.commission].computedAt
    decreases |cs| - i
  {
    if i < |cs| { DerivedAt(cs, e, from, to, i + 1); }
  }

  lemma NewestHangsOff(cs: seq<Commission>, e: Evaluation)
    requires Scored(e) && CreditAgainst(DerivedFor(cs, e), e.trigger).Some?
    ensures HangsOff(cs, e, CreditAgainst(DerivedFor(cs, e), e.trigger).value)
  {
    var ds := DerivedFor(cs, e);
    var (from, to) := WindowOf(e.scheme, e.at);
    hide WindowOf, JobCounts, Derive, Newest;
    DerivedAt(cs, e, from, to, 0);
    var c := CreditAgainst(ds, e.trigger).value;
    DerivedNames(cs, e, c);
    if e.trigger.Some? { DerivedNames(cs, e, e.trigger.value); }
    forall i | 0 <= i < |cs| && JobCounts(cs[i], e)
      ensures c == Newest(ds).commission ==> cs[i].computedAt <= cs[c].computedAt
    {
      DerivedNames(cs, e, i);
      var k :| 0 <= k < |ds| && ds[k].commission == i;
      assert ds[k] in ds;
    }
  }

  // ---- what is written ----

  /** The row is that Pro's, for that scheme, in that period. */
  predicate Belongs(row: Progress, pro: ProId, scheme: nat, key: string) {
    row.pro == pro && row.scheme == scheme && row.periodKey == key
  }

  /** The row an evaluation works on, before it does: its own, or a new one. */
  predicate StartsFrom(b: Books, e: Evaluation, p: ProgressId, row: Progress) {
    var key := PeriodFor(e.scheme.recurrence, e.at).key;
    (forall i :: 0 <= i < p && i < |b.progress| ==> !Belongs(b.progress[i], e.pro, e.scheme.id, key))
    && (if p < |b.progress|
        then row == b.progress[p] && Belongs(row, e.pro, e.scheme.id, key)
        else p == |b.progress| && row == Progress(e.pro, e.scheme.id, key, 0, 0, None))
  }

  lemma RowIsFound(ps: seq<Progress>, pro: ProId, scheme: nat, key: string, p: ProgressId)
    requires forall i :: 0 <= i < p && i < |ps| ==> !Belongs(ps[i], pro, scheme, key)
    requires if p < |ps| then Belongs(ps[p], pro, scheme, key) else p == |ps|
    ensures UpsertId(ps, pro, scheme, key) == p
    ensures Upsert(ps, pro, scheme, key)
            == if p < |ps| then ps else ps + [Progress(pro, scheme, key, 0, 0, None)]
  {
    var found := FindProgress(ps, pro, scheme, key);
    if p < |ps| { assert found.Some? && found.value == p; }
  }

  /** Short of the mark: the progress and its target are written, and nothing else about it. */
  predicate FallsShort(n: Books, b: Books, e: Evaluation, p: ProgressId, row: Progress) {
    p < |n.progress| && n.commissions == b.commissions
    && n.progress[p] == row.(value := n.progress[p].value, target := n.progress[p].target)
    && n.progress[p].value == Total(b.commissions, Stars(e)) && TargetIs(e, n.progress[p].target)
  }

  /** The mark reached: the reward is written on the row and added to one job. */
  predicate IsWon(n: Books, b: Books, e: Evaluation, p: ProgressId, row: Progress) {
    p < |n.progress| && n.progress[p].credit.Some?
    && var c := n.progress[p].credit.value.commission;
       HangsOff(b.commissions, e, c)
       && n.progress[p] == row.(value := n.progress[p].value, target := n.progress[p].target,
                                credit := Some(Credit(e.scheme.reward, c, e.at)))
       && n.progress[p].value == Total(b.commissions, Stars(e)) && TargetIs(e, n.progress[p].target)
       && n.commissions
          == b.commissions[c := b.commissions[c].(incentive := b.commissions[c].incentive + e.scheme.reward)]
  }

  lemma JudgedSo(b: Books, s: Books, p: ProgressId, e: Evaluation)
    requires Scored(e) && s.commissions == b.commissions && p < |s.progress| && s.progress[p].credit.None?
    ensures var n := Judged(s, p, e, DerivedFor(b.commissions, e)); var jobs := Total(b.commissions, Job(e));
            (if !Reached(e, jobs, Total(b.commissions, Stars(e))) then FallsShort(n, b, e, p, s.progress[p])
             else if jobs == 0 then n == s
             else IsWon(n, b, e, p, s.progress[p]))
            && |n.progress| == |s.progress|
            && (forall q :: 0 <= q < |s.progress| && q != p ==> n.progress[q] == s.progress[q])
  {
    var derived := DerivedFor(b.commissions, e);
    hide DerivedFor, Reached, TargetIs, HangsOff, Evaluate, DerivedTotal, Total, Job, Stars, CreditAgainst;
    DerivedAddsUp(b.commissions, e);
    VerdictIs(e, |derived|, DerivedTotal(derived));
    var against := CreditAgainst(derived, e.trigger);
    if against.Some? {
      NewestHangsOff(b.commissions, e);
      SomebodyIsNamed(derived, against.value);
    }
    SomebodyHangs(derived, e.trigger);
  }

  lemma SomebodyIsNamed(derived: seq<Derived>, c: CommissionId)
    requires Names(derived, c)
    ensures derived != []
  {
  }

  lemma SomebodyHangs(derived: seq<Derived>, trigger: Option<CommissionId>)
    ensures CreditAgainst(derived, trigger).None? <==> derived == []
    ensures |derived| == 0 <==> derived == []
  {
  }

  /** An evaluation of an uncredited row, whichever job set it off: short of the mark the row shows
      what counts and the target; at the mark, with any job to hang it off, the bonus is won; and no
      other progress row, payout or debt is touched. A credited row is left alone. */
  lemma EvaluationWrites(b: Books, e: Evaluation, p: ProgressId, row: Progress)
    requires Scored(e) && StartsFrom(b, e, p, row)
    ensures var n := EvaluateOne(b, e); var jobs := Total(b.commissions, Job(e));
            n.payouts == b.payouts && n.deductions == b.deductions && n.submissions == b.submissions
            && p < |n.progress| == (if p < |b.progress| then |b.progress| else |b.progress| + 1)
            && (forall q :: 0 <= q < |b.progress| && q != p ==> n.progress[q] == b.progress[q])
            && if row.credit.Some? then n == b
               else if !Reached(e, jobs, Total(b.commissions, Stars(e))) then FallsShort(n, b, e, p, row)
               else if jobs == 0 then n.progress[p] == row && n.commissions == b.commissions
               else IsWon(n, b, e, p, row)
  {
    hide PeriodFor, Upsert, UpsertId, DerivedFor, Sync, Reached, FallsShort, IsWon, Judged, Total, Job, Stars;
    var key := PeriodFor(e.scheme.recurrence, e.at).key;
    RowIsFound(b.progress, e.pro, e.scheme.id, key, p);
    var ps := Upsert(b.progress, e.pro, e.scheme.id, key);
    if row.credit.None? {
      var derived := DerivedFor(b.commissions, e);
      var s := b.(progress := ps, contributions := Sync(b.contributions, p, derived));
      JudgedSo(b, s, p, e);
      JudgingTouches(s, p, e, derived);
      assert EvaluateOne(b, e) == Judged(s, p, e, derived);
    }
  }

  lemma JudgingTouches(s: Books, p: ProgressId, e: Evaluation, derived: seq<Derived>)
    ensures var n := Judged(s, p, e, derived);
            n.payouts == s.payouts && n.deductions == s.deductions && n.submissions == s.submissions
            && n.contributions == s.contributions
  {
    hide DerivedTotal, Evaluate, CreditAgainst;
  }

  // ---- the jobs behind a row ----

  /** The stored contributions of a progress row; and those of one job to it. */
  function Behind(p: ProgressId): Contribution -> int {
    (x: Contribution) => if x.progress == p then x.value else 0
  }

  function From(p: ProgressId, c: CommissionId): Contribution -> int {
    (x: Contribution) => if x.progress == p && x.commission == c then x.value else 0
  }

  lemma {:induction false} AddingAddsUp(cs: seq<Contribution>, p: ProgressId, derived: seq<Derived>)
    requires forall k :: 0 <= k < |derived| ==> !Stored(cs, p, derived[k].commission)
    requires forall j, k :: 0 <= j < k < |derived| ==> derived[j].commission != derived[k].commission
    ensures Total(AddMissing(cs, p, derived), Behind(p)) == Total(cs, Behind(p)) + Total(derived, DerivedValue)
    decreases |derived|
  {
    if derived != [] {
      var d, rest := derived[0], derived[1..];
      var row := Contribution(p, d.commission, d.value);
      TotalAppend(cs, row, Behind(p));
      forall k | 0 <= k < |rest| ensures !Stored(cs + [row], p, rest[k].commission) {
        assert rest[k] == derived[k + 1];
        StoredConcat(cs, [row], p, rest[k].commission);
      }
      hide Stored;
      AddingAddsUp(cs + [row], p, rest);
    }
  }

  lemma {:induction false} PurgingOthers(cs: seq<Contribution>, p: ProgressId, derived: seq<Derived>)
    requires forall k :: 0 <= k < |cs| ==> cs[k].progress != p
    ensures Purge(cs, p, derived) == cs
  {
    if cs != [] { PurgingOthers(cs[1..], p, derived); }
  }

  /** A row nobody had contributed to shows, falling short, the sum of what is then stored for it. */
  lemma ShownIsStored(b: Books, e: Evaluation, p: ProgressId, row: Progress)
    requires Scored(e) && StartsFrom(b, e, p, row) && row.credit.None?
    requires forall k :: 0 <= k < |b.contributions| ==> b.contributions[k].progress != p
    requires !Reached(e, Total(b.commissions, Job(e)), Total(b.commissions, Stars(e)))
    ensures p < |EvaluateOne(b, e).progress|
    ensures EvaluateOne(b, e).progress[p].value == Total(EvaluateOne(b, e).contributions, Behind(p))
  {
    EvaluationWrites(b, e, p, row);
    hide PeriodFor, Upsert, UpsertId, Reached, IsWon, Judged, Job, Stars, Total, DerivedFor, Sync, TargetIs;
    var key := PeriodFor(e.scheme.recurrence, e.at).key;
    RowIsFound(b.progress, e.pro, e.scheme.id, key, p);
    var derived := DerivedFor(b.commissions, e);
    var s := b.(progress := Upsert(b.progress, e.pro, e.scheme.id, key),
                contributions := Sync(b.contributions, p, derived));
    JudgingTouches(s, p, e, derived);
    assert EvaluateOne(b, e) == Judged(s, p, e, derived);
    SyncedAddsUp(b.contributions, p, b.commissions, e);
    DerivedAddsUp(b.commissions, e);
  }

  lemma SyncedAddsUp(cs: seq<Contribution>, p: ProgressId, commissions: seq<Commission>, e: Evaluation)
    requires forall k :: 0 <= k < |cs| ==> cs[k].progress != p
    ensures Total(Sync(cs, p, DerivedFor(commissions, e)), Behind(p)) == DerivedTotal(DerivedFor(commissions, e))
  {
    var derived := DerivedFor(commissions, e);
    hide WindowOf, Derive, Total;
    DistinctlyDerived(commissions, e);
    PurgingOthers(cs, p, derived);
    hide DerivedFor;
    TotalZero(cs, Behind(p));
    AddingAddsUp(cs, p, derived);
  }

  lemma DistinctlyDerived(commissions: seq<Commission>, e: Evaluation)
    ensures forall j, k :: 0 <= j < k < |DerivedFor(commissions, e)| ==>
              DerivedFor(commissions, e)[j].commission != DerivedFor(commissions, e)[k].commission
  {
  }

  // ---- what unwinding takes back ----

  lemma {:induction false} WithoutAddsUp(cs: seq<Contribution>, p: ProgressId, c: CommissionId)
    ensures Total(Without(cs, c), Behind(p)) == Total(cs, Behind(p)) - Total(cs, From(p, c))
  {
    if cs != [] {
      WithoutAddsUp(cs[1..], p, c);
      var head := if cs[0].commission == c then [] else [cs[0]];
      TotalConcat(head, Without(cs[1..], c), Behind(p));
    }
  }

  lemma {:induction false} WithoutIsTheRest(cs: seq<Contribution>, c: CommissionId, p: ProgressId, d: CommissionId)
    ensures Stored(Without(cs, c), p, d) <==> d != c && Stored(cs, p, d)
  {
    if cs != [] {
      WithoutIsTheRest(cs[1..], c, p, d);
      var head := if cs[0].commission == c then [] else [cs[0]];
      StoredConcat(head, Without(cs[1..], c), p, d);
      StoredConcat([cs[0]], cs[1..], p, d);
      assert cs == [cs[0]] + cs[1..];
      if head != [] { assert head[0] == cs[0]; }
      assert Stored([cs[0]], p, d) <==> cs[0].progress == p && cs[0].commission == d by { assert [cs[0]][0] == cs[0]; }
    }
  }

  /** Reversing a job takes exactly what it contributed out of the sum behind each progress row, which
      is then what the row shows if the job had counted for it; every other row shows what it did. A
      bonus hung off the job is gone from its row, and no other. */
  lemma ReversalTakesBackItsShare(b: Books, c: CommissionId, p: ProgressId)
    requires Reversible(b, c) && p < |b.progress|
    ensures var n := Reverse(b, c); var was := b.progress[p];
            |n.progress| == |b.progress|
            && Total(n.contributions, Behind(p)) ==
               Total(b.contributions, Behind(p)) - Total(b.contributions, From(p, c))
            && (forall d :: Stored(n.contributions, p, d) <==> d != c && Stored(b.contributions, p, d))
            && n.progress[p] == was.(
                 value := if Stored(b.contributions, p, c) then n.progress[p].value else was.value,
                 credit := if was.credit.Some? && was.credit.value.commission == c then None else was.credit)
            && (Stored(b.contributions, p, c) ==> n.progress[p].value == Total(n.contributions, Behind(p)))
  {
    hide Total, RaiseBonuses, Without, Stored;
    WithoutAddsUp(b.contributions, p, c);
    forall d ensures Stored(Without(b.contributions, c), p, d) <==> d != c && Stored(b.contributions, p, d) {
      WithoutIsTheRest(b.contributions, c, p, d);
    }
    TotalPointwise(Without(b.contributions, c), Without(b.contributions, c), ValueFor(p), Behind(p));
    assert Reverse(b, c).progress[p] == UnwoundRow(b, c, p);
  }

  /** So where a row showed the sum behind it, it falls by exactly the reversed job's part. */
  lemma ProgressFallsByItsShare(b: Books, c: CommissionId, p: ProgressId)
    requires Reversible(b, c) && p < |b.progress| && Stored(b.contributions, p, c)
    requires b.progress[p].value == Total(b.contributions, Behind(p))
    ensures p < |Reverse(b, c).progress|
    ensures Reverse(b, c).progress[p].value == b.progress[p].value - Total(b.contributions, From(p, c))
  {
    hide Reverse, Total, Stored;
    ReversalTakesBackItsShare(b, c, p);
  }

  // ---- over every step ----

  /** What a progress row is after a step: scored or credited while it has no credit, or unwound. */
  predicate RowAfter(b: Books, e: Event, p: ProgressId, now: Progress)
    requires p < |b.progress|
  {
    var row := b.progress[p];
    match e
    case Scoring(q, value, target) =>
      now == if q == p && row.credit == None then row.(value := value, target := target) else row
    case Crediting(a) =>
      now == if a.progress == p && row.credit == None && a.commission < |b.commissions|
             then row.(value := a.value, target := a.target, credit := Some(Credit(a.reward, a.commission, a.at)))
             else row
    case Reversing(c) =>
      if c >= |b.commissions| || b.commissions[c].reversed then now == row
      else now == row.(
                    value := now.value,
                    credit := if row.credit.Some? && row.credit.value.commission == c then None else row.credit)
           && now.value == (if Stored(b.contributions, p, c)
                            then Total(b.contributions, Behind(p)) - Total(b.contributions, From(p, c))
                            else row.value)
    case _ => now == row
  }

  /** Only an evaluation's opening adds a row, at nothing, where there is none of that Pro, scheme and
      period; and every other step changes progress as told. */
  lemma ProgressColumns(b: Books, e: Event)
    ensures var was, now := b.progress, Step(b, e).progress;
            (forall p :: 0 <= p < |was| ==> p < |now| && RowAfter(b, e, p, now[p]))
            && (if e.Opening? && (forall i :: 0 <= i < |was| ==> !Belongs(was[i], e.pro, e.scheme, e.periodKey))
                then now == was + [Progress(e.pro, e.scheme, e.periodKey, 0, 0, None)]
                else |now| == |was|)
  {
    if e.Reversing? {
      if Reversible(b, e.commission) {
        forall p | 0 <= p < |b.progress| ensures RowAfter(b, e, p, Step(b, e).progress[p]) {
          ReversalTakesBackItsShare(b, e.commission, p);
          hide Reverse, Total, Stored;
        }
      }
      hide Unwind, RaiseBonuses, RowAfter;
    } else if !e.Opening? {
      OthersLeaveProgress(b, e);
      hide Step;
    }
  }

  lemma OthersLeaveProgress(b: Books, e: Event)
    requires !(e.Reversing? || e.Opening?)
    ensures Step(b, e).progress == match e
                                   case Scoring(p, value, target) => Incentives.Scored(b, p, value, target).progress
                                   case Crediting(a) => Credited(b, a).progress
                                   case _ => b.progress
  {
    hide Incentives.Scored, Credited, Sync;
  }
}
