/** Incentive progress, derived from the commission rows, and the bonuses credited for it. */
module Incentives {
  import opened Wrappers
  import opened Totals
  import opened Books
  import opened IncentivePeriods

  /** `Malformed` criteria make the evaluation throw before anything is written. */
  datatype Criteria =
    | JobsCount(target: nat)
    | Rating(minJobs: nat, minRating: real)
    | NoEvaluator
    | Malformed

  datatype Scheme = Scheme(
    id: nat,
    criteria: Criteria,
    recurrence: Recurrence,
    reward: nat,
    validFrom: int,
    validTo: Option<int>)

  /** One evaluation: whose, against which scheme, set off by which job, and when. `ratings`
      holds what customers have said of each booking so far. */
  datatype Evaluation = Evaluation(
    pro: ProId,
    scheme: Scheme,
    trigger: Option<CommissionId>,
    at: int,
    ratings: map<nat, nat>)

  // ---- evaluate ----

  datatype Judgement = Judgement(target: int, achieved: bool)

  /** `Math.round`: to the nearest integer, halves up. */
  function MathRound(x: real): int { (x + 0.5).Floor }

  /** `stars` is the sum of the contributions; its paise form is a hundred times that. */
  function Evaluate(criteria: Criteria, count: nat, stars: nat): Option<Judgement> {
    match criteria
    case JobsCount(target) => Some(Judgement(target * 100, count >= target))
    case Rating(minJobs, minRating) =>
      Some(Judgement(MathRound(minJobs as real * minRating * 100.0),
                   count >= minJobs && stars * 100 >= MathRound(count as real * minRating * 100.0)))
    case _ => None
  }

  function HundredthsOf(minRating: real): real { minRating * 100.0 }

  /** A threshold written with two decimals is judged exactly: enough jobs, and a true average
      that reaches it. */
  lemma RatingVerdictIsExact(minJobs: nat, minRating: real, count: nat, stars: nat)
    requires minJobs >= 1 && HundredthsOf(minRating) == HundredthsOf(minRating).Floor as real
    ensures Evaluate(Rating(minJobs, minRating), count, stars).value.achieved
            <==> count >= minJobs && stars as real / count as real >= minRating
  {
    var h := HundredthsOf(minRating).Floor;
    assert count as real * minRating * 100.0 == count as real * (h as real) == (count * h) as real;
    assert MathRound((count * h) as real) == count * h;
    if count >= minJobs {
      var average := stars as real / count as real;
      assert average * count as real == stars as real;
      assert average >= minRating <==> average * count as real >= minRating * count as real;
      assert stars * 100 >= count * h <==> stars as real * 100.0 >= count as real * (h as real);
    }
  }

  /** In hundredths over all the jobs, the threshold lies less than a half above this sum of stars. */
  predicate JustAbove(minRating: real, count: nat, stars: nat) {
    0.0 < count as real * minRating * 100.0 - (stars * 100) as real < 0.5
  }

  lemma RoundingErrsExactly(x: real, stars: nat)
    ensures (stars * 100 >= MathRound(x)) == ((stars * 100) as real >= x) <==> !(0.0 < x - (stars * 100) as real < 0.5)
    ensures 0.0 < x - (stars * 100) as real < 0.5 ==> stars * 100 >= MathRound(x)
  {
  }

  lemma AverageReaches(stars: nat, count: nat, minRating: real)
    requires count >= 1
    ensures stars as real / count as real >= minRating <==> (stars * 100) as real >= count as real * minRating * 100.0
  {
    var average := stars as real / count as real;
    assert average * count as real == stars as real;
    assert average >= minRating <==> average * count as real >= minRating * count as real;
    assert (stars * 100) as real == stars as real * 100.0;
  }

  /** The verdict on a rating scheme is the true one. */
  predicate JudgesRightly(minJobs: nat, minRating: real, count: nat, stars: nat)
    requires count >= 1
  {
    Evaluate(Rating(minJobs, minRating), count, stars).value.achieved
    <==> count >= minJobs && stars as real / count as real >= minRating
  }

  /** Any threshold at all: with enough jobs the verdict on a sum of stars is right exactly when
      the scaled threshold is not just above that sum; and where it is, a Pro whose average is
      below the bar passes. */
  lemma VerdictErrsExactly(minJobs: nat, minRating: real, count: nat, stars: nat)
    requires count >= 1
    ensures JudgesRightly(minJobs, minRating, count, stars)
            <==> !(count >= minJobs && JustAbove(minRating, count, stars))
    ensures count >= minJobs && JustAbove(minRating, count, stars) ==>
              Evaluate(Rating(minJobs, minRating), count, stars).value.achieved
  {
    var x := count as real * minRating * 100.0;
    AverageReaches(stars, count, minRating);
    RoundingErrsExactly(x, stars);
    hide MathRound;
  }

  /** So a bar is judged rightly for every sum of stars exactly when it is just above none. */
  lemma VerdictIsRightExactlyWhen(minJobs: nat, minRating: real, count: nat)
    requires count >= 1
    ensures (forall stars: nat :: JudgesRightly(minJobs, minRating, count, stars))
            <==> !(count >= minJobs && exists stars: nat :: JustAbove(minRating, count, stars))
  {
    hide JudgesRightly, JustAbove;
    forall stars: nat
      ensures JudgesRightly(minJobs, minRating, count, stars)
              <==> !(count >= minJobs && JustAbove(minRating, count, stars))
    {
      VerdictErrsExactly(minJobs, minRating, count, stars);
    }
  }

  /** The smallest such case: one job, four stars, a bar of 4.004. */
  lemma ThirdDecimalIsRoundedAway()
    ensures Evaluate(Rating(1, 4.004), 1, 4).value.achieved && 4.0 / 1.0 < 4.004
  {
  }

  // ---- deriveContributions ----

  /** A job that counts: what it adds, and when it was computed. */
  datatype Derived = Derived(commission: CommissionId, value: nat, at: int)

  predicate Counts(c: Commission, e: Evaluation, from: int, to: int) {
    c.pro == e.pro && c.status != CommissionStatus.Reversed && from <= c.computedAt < to
    && (e.scheme.criteria.JobsCount? || c.booking in e.ratings)
  }

  function ValueOf(c: Commission, e: Evaluation): nat {
    if e.scheme.criteria.JobsCount? then 1 else if c.booking in e.ratings then e.ratings[c.booking] else 0
  }

  function Derive(cs: seq<Commission>, e: Evaluation, from: int, to: int, i: nat := 0): (r: seq<Derived>)
    requires i <= |cs|
    ensures forall k :: 0 <= k < |r| ==> i <= r[k].commission < |cs| && Counts(cs[r[k].commission], e, from, to)
    ensures forall j, k :: 0 <= j < k < |r| ==> r[j].commission < r[k].commission
    decreases |cs| - i
  {
    if i == |cs| then []
    else
      (if Counts(cs[i], e, from, to) then [Derived(i, ValueOf(cs[i], e), cs[i].computedAt)] else [])
      + Derive(cs, e, from, to, i + 1)
  }

  function DerivedValue(d: Derived): int { d.value }

  function DerivedTotal(ds: seq<Derived>): nat {
    TotalNonNegative(ds, DerivedValue);
    Total(ds, DerivedValue)
  }

  predicate Names(ds: seq<Derived>, c: CommissionId) {
    exists k :: 0 <= k < |ds| && ds[k].commission == c
  }

  // ---- syncContributions ----

  predicate Stored(cs: seq<Contribution>, p: ProgressId, c: CommissionId) {
    exists k :: 0 <= k < |cs| && cs[k].progress == p && cs[k].commission == c
  }

  function Purge(cs: seq<Contribution>, p: ProgressId, derived: seq<Derived>): seq<Contribution> {
    if cs == [] then []
    else (if cs[0].progress == p && !Names(derived, cs[0].commission) then [] else [cs[0]]) + Purge(cs[1..], p, derived)
  }

  /** `createMany` with `skipDuplicates`: a stored row keeps the value it has. */
  function AddMissing(cs: seq<Contribution>, p: ProgressId, derived: seq<Derived>): seq<Contribution>
    decreases |derived|
  {
    if derived == [] then cs
    else
      var d := derived[0];
      var next := if Stored(cs, p, d.commission) then cs else cs + [Contribution(p, d.commission, d.value)];
      AddMissing(next, p, derived[1..])
  }

  function Sync(cs: seq<Contribution>, p: ProgressId, derived: seq<Derived>): seq<Contribution> {
    AddMissing(Purge(cs, p, derived), p, derived)
  }

  lemma {:induction false} PurgeKeeps(cs: seq<Contribution>, p: ProgressId, derived: seq<Derived>, c: CommissionId)
    ensures Stored(Purge(cs, p, derived), p, c) <==> Stored(cs, p, c) && Names(derived, c)
  {
    if cs != [] {
      var head := if cs[0].progress == p && !Names(derived, cs[0].commission) then [] else [cs[0]];
      PurgeKeeps(cs[1..], p, derived, c);
      StoredConcat(head, Purge(cs[1..], p, derived), p, c);
      StoredConcat([cs[0]], cs[1..], p, c);
      assert cs == [cs[0]] + cs[1..];
    }
  }

  lemma StoredConcat(a: seq<Contribution>, b: seq<Contribution>, p: ProgressId, c: CommissionId)
    ensures Stored(a + b, p, c) <==> Stored(a, p, c) || Stored(b, p, c)
  {
    if Stored(a, p, c) {
      var k :| 0 <= k < |a| && a[k].progress == p && a[k].commission == c;
      assert (a + b)[k] == a[k];
    }
    if Stored(b, p, c) {
      var k :| 0 <= k < |b| && b[k].progress == p && b[k].commission == c;
      assert (a + b)[|a| + k] == b[k];
    }
  }

  lemma {:induction false} AddMissingAdds(cs: seq<Contribution>, p: ProgressId, derived: seq<Derived>, c: CommissionId)
    ensures Stored(AddMissing(cs, p, derived), p, c) <==> Stored(cs, p, c) || Names(derived, c)
    decreases |derived|
  {
    if derived != [] {
      var d := derived[0];
      var row := Contribution(p, d.commission, d.value);
      var next := if Stored(cs, p, d.commission) then cs else cs + [row];
      AddMissingAdds(next, p, derived[1..], c);
      StoredConcat(cs, [row], p, c);
      assert Stored([row], p, c) <==> d.commission == c by { assert [row][0] == row; }
      NamesCons(derived, c);
    }
  }

  lemma NamesCons(ds: seq<Derived>, c: CommissionId)
    requires ds != []
    ensures Names(ds, c) <==> ds[0].commission == c || Names(ds[1..], c)
  {
    if Names(ds[1..], c) {
      var k :| 0 <= k < |ds[1..]| && ds[1..][k].commission == c;
      assert ds[k + 1] == ds[1..][k];
    }
    if Names(ds, c) && ds[0].commission != c {
      var k :| 0 <= k < |ds| && ds[k].commission == c;
      assert ds[1..][k - 1] == ds[k];
    }
  }

  /** After a sync the stored jobs of a progress row are exactly the derived ones. */
  lemma SyncIsExact(cs: seq<Contribution>, p: ProgressId, derived: seq<Derived>, c: CommissionId)
    ensures Stored(Sync(cs, p, derived), p, c) <==> Names(derived, c)
  {
    PurgeKeeps(cs, p, derived, c);
    AddMissingAdds(Purge(cs, p, derived), p, derived, c);
  }

  lemma {:induction false} PurgeNothing(cs: seq<Contribution>, p: ProgressId, derived: seq<Derived>)
    requires forall k :: 0 <= k < |cs| && cs[k].progress == p ==> Names(derived, cs[k].commission)
    ensures Purge(cs, p, derived) == cs
  {
    if cs != [] {
      forall k | 0 <= k < |cs[1..]| && cs[1..][k].progress == p ensures Names(derived, cs[1..][k].commission) {
        assert cs[1..][k] == cs[k + 1];
      }
      PurgeNothing(cs[1..], p, derived);
    }
  }

  lemma {:induction false} AddNothing(cs: seq<Contribution>, p: ProgressId, derived: seq<Derived>)
    requires forall k :: 0 <= k < |derived| ==> Stored(cs, p, derived[k].commission)
    ensures AddMissing(cs, p, derived) == cs
    decreases |derived|
  {
    if derived != [] {
      forall k | 0 <= k < |derived[1..]| ensures Stored(cs, p, derived[1..][k].commission) {
        assert derived[1..][k] == derived[k + 1];
      }
      AddNothing(cs, p, derived[1..]);
    }
  }

  lemma SyncIsIdempotent(cs: seq<Contribution>, p: ProgressId, derived: seq<Derived>)
    ensures Sync(Sync(cs, p, derived), p, derived) == Sync(cs, p, derived)
  {
    var once := Sync(cs, p, derived);
    forall k | 0 <= k < |once| && once[k].progress == p ensures Names(derived, once[k].commission) {
      SyncIsExact(cs, p, derived, once[k].commission);
      assert Stored(once, p, once[k].commission);
    }
    forall k | 0 <= k < |derived| ensures Stored(once, p, derived[k].commission) {
      SyncIsExact(cs, p, derived, derived[k].commission);
    }
    PurgeNothing(once, p, derived);
    AddNothing(once, p, derived);
  }

  // ---- evaluateOne ----

  predicate IsRow(r: Progress, pro: ProId, scheme: nat, key: string) {
    r.pro == pro && r.scheme == scheme && r.periodKey == key
  }

  function FindProgress(ps: seq<Progress>, pro: ProId, scheme: nat, key: string,
                        from: nat := 0): (p: Option<ProgressId>)
    requires from <= |ps|
    ensures p.Some? ==> from <= p.value < |ps| && IsRow(ps[p.value], pro, scheme, key)
    ensures p.Some? ==> forall i :: from <= i < p.value ==> !IsRow(ps[i], pro, scheme, key)
    ensures p.None? ==> forall i :: from <= i < |ps| ==> !IsRow(ps[i], pro, scheme, key)
    decreases |ps| - from
  {
    if from == |ps| then None
    else if IsRow(ps[from], pro, scheme, key) then Some(from)
    else FindProgress(ps, pro, scheme, key, from + 1)
  }

  function Upsert(ps: seq<Progress>, pro: ProId, scheme: nat, key: string): seq<Progress> {
    if FindProgress(ps, pro, scheme, key).Some? then ps else ps + [Progress(pro, scheme, key, 0, 0, None)]
  }

  function UpsertId(ps: seq<Progress>, pro: ProId, scheme: nat, key: string): (p: ProgressId)
    ensures p < |Upsert(ps, pro, scheme, key)|
  {
    var found := FindProgress(ps, pro, scheme, key);
    if found.Some? then found.value else |ps|
  }

  /** The period, clipped to the scheme's own validity. */
  function WindowOf(s: Scheme, at: int): (int, int) {
    var p := PeriodFor(s.recurrence, at);
    (Max(s.validFrom, p.start), if s.validTo.Some? then Min(s.validTo.value, p.end) else p.end)
  }

  function DerivedFor(cs: seq<Commission>, e: Evaluation): (r: seq<Derived>)
    ensures forall k :: 0 <= k < |r| ==>
              r[k].commission < |cs| && cs[r[k].commission].pro == e.pro
              && cs[r[k].commission].status != CommissionStatus.Reversed
  {
    var (from, to) := WindowOf(e.scheme, e.at);
    Derive(cs, e, from, to)
  }

  /** The contributor computed last. */
  function Newest(ds: seq<Derived>): (d: Derived)
    requires ds != []
    ensures d in ds && forall x :: x in ds ==> x.at <= d.at
  {
    var last := ds[|ds| - 1];
    assert ds == ds[..|ds| - 1] + [last];
    if |ds| == 1 then last
    else
      var best := Newest(ds[..|ds| - 1]);
      if best.at <= last.at then last else best
  }

  /** The job a reward hangs off: the one that set the evaluation off, else the newest. */
  function CreditAgainst(derived: seq<Derived>, trigger: Option<CommissionId>): (c: Option<CommissionId>)
    ensures c.Some? ==> Names(derived, c.value)
    ensures c.None? ==> derived == []
  {
    if trigger.Some? && Names(derived, trigger.value) then trigger
    else if derived == [] then None
    else Some(Newest(derived).commission)
  }

  /** What an evaluation worked out about a progress row, and would pay for it. */
  datatype Award = Award(progress: ProgressId, commission: CommissionId, value: nat, target: int, reward: nat, at: int)

  predicate Creditable(b: Books, a: Award) {
    a.progress < |b.progress| && b.progress[a.progress].credit.None? && a.commission < |b.commissions|
  }

  /** `credit`: the reward is copied onto the progress row and added to the job's own, unless
      another evaluation got there first. Nothing is asked of the job but that it exists. */
  function Credited(b: Books, a: Award): Books {
    if !Creditable(b, a) then b
    else
      var row, job := b.progress[a.progress], b.commissions[a.commission];
      var won := row.(value := a.value, target := a.target, credit := Some(Credit(a.reward, a.commission, a.at)));
      b.(progress := b.progress[a.progress := won],
         commissions := b.commissions[a.commission := job.(incentive := job.incentive + a.reward)])
  }

  /** The write of an evaluation that falls short. Over a credited row the database refuses it. */
  function Scored(b: Books, p: ProgressId, value: nat, target: int): Books {
    if p >= |b.progress| || b.progress[p].credit.Some? then b
    else b.(progress := b.progress[p := b.progress[p].(value := value, target := target)])
  }

  /** What an evaluation of an uncredited row writes, its facts already worked out. */
  function Judged(b: Books, p: ProgressId, e: Evaluation, derived: seq<Derived>): Books {
    var value := DerivedTotal(derived);
    match Evaluate(e.scheme.criteria, |derived|, value)
    case None => b
    case Some(verdict) =>
      if !verdict.achieved then Scored(b, p, value, verdict.target)
      else match CreditAgainst(derived, e.trigger)
        case None => b
        case Some(c) => Credited(b, Award(p, c, value, verdict.target, e.scheme.reward, e.at))
  }

  function EvaluateOne(b: Books, e: Evaluation): Books {
    if e.scheme.criteria.NoEvaluator? || e.scheme.criteria.Malformed? then b
    else
      var key := PeriodFor(e.scheme.recurrence, e.at).key;
      var ps := Upsert(b.progress, e.pro, e.scheme.id, key);
      var p := UpsertId(b.progress, e.pro, e.scheme.id, key);
      if ps[p].credit.Some? then b.(progress := ps)
      else
        var derived := DerivedFor(b.commissions, e);
        Judged(b.(progress := ps, contributions := Sync(b.contributions, p, derived)), p, e, derived)
  }

  method EvaluateScheme(db: Tables, e: Evaluation)
    modifies db
    ensures db.View() == EvaluateOne(old(db.View()), e)
  {
    hide PeriodFor, FindProgress, DerivedFor, Purge, AddMissing, DerivedTotal, MathRound;
    if e.scheme.criteria.NoEvaluator? || e.scheme.criteria.Malformed? { return; }
    var key := PeriodFor(e.scheme.recurrence, e.at).key;
    var p := UpsertId(db.progress, e.pro, e.scheme.id, key);
    db.progress := Upsert(db.progress, e.pro, e.scheme.id, key);
    if db.progress[p].credit.Some? { return; }
    var derived := DerivedFor(db.commissions, e);
    db.contributions := Purge(db.contributions, p, derived);
    db.contributions := AddMissing(db.contributions, p, derived);
    var value := DerivedTotal(derived);
    var verdict := Evaluate(e.scheme.criteria, |derived|, value).value;
    if !verdict.achieved {
      db.progress := db.progress[p := db.progress[p].(value := value, target := verdict.target)];
      return;
    }
    var against := CreditAgainst(derived, e.trigger);
    if against.None? { return; }
    CreditBonus(db, Award(p, against.value, value, verdict.target, e.scheme.reward, e.at));
  }

  method CreditBonus(db: Tables, a: Award)
    modifies db`progress, db`commissions
    ensures db.View() == Credited(old(db.View()), a)
  {
    if !Creditable(db.View(), a) { return; }
    var row := db.progress[a.progress];
    var credit := Some(Credit(a.reward, a.commission, a.at));
    db.progress := db.progress[a.progress := row.(value := a.value, target := a.target, credit := credit)];
    var job := db.commissions[a.commission];
    db.commissions := db.commissions[a.commission := job.(incentive := job.incentive + a.reward)];
  }

  lemma FirstMatchStays(ps: seq<Progress>, p: ProgressId, row: Progress, pro: ProId, scheme: nat, key: string)
    requires FindProgress(ps, pro, scheme, key) == Some(p) && IsRow(row, pro, scheme, key)
    ensures FindProgress(ps[p := row], pro, scheme, key) == Some(p)
  {
    var found := FindProgress(ps[p := row], pro, scheme, key);
    assert IsRow(ps[p := row][p], pro, scheme, key);
    assert found.Some? && found.value <= p;
  }

  lemma UpsertFinds(ps: seq<Progress>, pro: ProId, scheme: nat, key: string)
    ensures FindProgress(Upsert(ps, pro, scheme, key), pro, scheme, key) == Some(UpsertId(ps, pro, scheme, key))
    ensures UpsertId(ps, pro, scheme, key) < |ps| ==> Upsert(ps, pro, scheme, key) == ps
  {
    if FindProgress(ps, pro, scheme, key).None? {
      var grown := Upsert(ps, pro, scheme, key);
      assert IsRow(grown[|ps|], pro, scheme, key);
      var found := FindProgress(grown, pro, scheme, key);
      assert found.Some? && found.value >= |ps|;
    }
  }

  /** The progress row an evaluation works on. */
  function RowOf(b: Books, e: Evaluation): ProgressId {
    UpsertId(b.progress, e.pro, e.scheme.id, PeriodFor(e.scheme.recurrence, e.at).key)
  }

  predicate Evaluable(e: Evaluation) { !e.scheme.criteria.NoEvaluator? && !e.scheme.criteria.Malformed? }

  lemma JudgingTwice(b: Books, p: ProgressId, e: Evaluation, again: Evaluation, derived: seq<Derived>)
    requires p < |b.progress| && again.scheme == e.scheme
    requires forall k :: 0 <= k < |derived| ==> derived[k].commission < |b.commissions|
    ensures var after := Judged(b, p, e, derived);
            |after.progress| == |b.progress|
            && after.progress == b.progress[p := after.progress[p]]
            && after.contributions == b.contributions
            && after.progress[p].pro == b.progress[p].pro
            && after.progress[p].scheme == b.progress[p].scheme
            && after.progress[p].periodKey == b.progress[p].periodKey
            && (b.progress[p].credit.None? && after.progress[p].credit.None? ==>
                  after.commissions == b.commissions && Judged(after, p, again, derived) == after)
  {
    hide Evaluate, DerivedTotal;
  }

  /** Evaluating again within the period, set off by any job or none, changes nothing at all. */
  lemma ReevaluationChangesNothing(b: Books, e: Evaluation, again: Evaluation)
    requires again.pro == e.pro && again.scheme == e.scheme && again.ratings == e.ratings
    requires PeriodFor(e.scheme.recurrence, again.at) == PeriodFor(e.scheme.recurrence, e.at)
    ensures EvaluateOne(EvaluateOne(b, e), again) == EvaluateOne(b, e)
  {
    hide PeriodFor, FindProgress, Sync, Counts, DerivedFor, Judged, Upsert, UpsertId;
    if Evaluable(e) {
      var key := PeriodFor(e.scheme.recurrence, e.at).key;
      var ps := Upsert(b.progress, e.pro, e.scheme.id, key);
      var p := UpsertId(b.progress, e.pro, e.scheme.id, key);
      UpsertFinds(b.progress, e.pro, e.scheme.id, key);
      if ps[p].credit.Some? {
        UpsertOfFound(ps, p, e.pro, e.scheme.id, key);
      } else {
        var derived := DerivedFor(b.commissions, e);
        var synced := b.(progress := ps, contributions := Sync(b.contributions, p, derived));
        var after := Judged(synced, p, e, derived);
        JudgingTwice(synced, p, e, again, derived);
        FirstMatchStays(ps, p, after.progress[p], e.pro, e.scheme.id, key);
        UpsertOfFound(after.progress, p, e.pro, e.scheme.id, key);
        SyncIsIdempotent(b.contributions, p, derived);
        if after.progress[p].credit.None? {
          SameDerivation(b.commissions, e, again);
          assert after.(progress := after.progress, contributions := after.contributions) == after;
        }
      }
    }
  }

  lemma UpsertOfFound(ps: seq<Progress>, p: ProgressId, pro: ProId, scheme: nat, key: string)
    requires FindProgress(ps, pro, scheme, key) == Some(p)
    ensures Upsert(ps, pro, scheme, key) == ps && UpsertId(ps, pro, scheme, key) == p
  {
  }

  lemma SameDerivation(cs: seq<Commission>, e: Evaluation, again: Evaluation)
    requires again.pro == e.pro && again.scheme == e.scheme && again.ratings == e.ratings
    requires PeriodFor(e.scheme.recurrence, again.at) == PeriodFor(e.scheme.recurrence, e.at)
    ensures DerivedFor(cs, again) == DerivedFor(cs, e)
  {
    hide PeriodFor;
    var (from, to) := WindowOf(e.scheme, e.at);
    DeriveIgnoresTheRest(cs, e, again, from, to, 0);
  }

  lemma {:induction false} DeriveIgnoresTheRest(cs: seq<Commission>, e: Evaluation, f: Evaluation, from: int, to: int,
                                                i: nat)
    requires f.pro == e.pro && f.scheme == e.scheme && f.ratings == e.ratings && i <= |cs|
    ensures Derive(cs, f, from, to, i) == Derive(cs, e, from, to, i)
    decreases |cs| - i
  {
    if i < |cs| { DeriveIgnoresTheRest(cs, e, f, from, to, i + 1); }
  }

  /** Unless the row's bonus was already won, an evaluation leaves it with exactly the jobs
      that count now: one reversed since drops out, one rated since comes in. */
  lemma EvaluationStoresTheDerivedJobs(b: Books, e: Evaluation, c: CommissionId)
    requires Evaluable(e)
    requires var p := RowOf(b, e); p < |b.progress| ==> b.progress[p].credit.None?
    ensures Stored(EvaluateOne(b, e).contributions, RowOf(b, e), c)
            <==> c < |b.commissions|
                 && var (from, to) := WindowOf(e.scheme, e.at); Counts(b.commissions[c], e, from, to)
  {
    hide PeriodFor, Sync, Counts, Evaluate;
    var derived := DerivedFor(b.commissions, e);
    UpsertFinds(b.progress, e.pro, e.scheme.id, PeriodFor(e.scheme.recurrence, e.at).key);
    SyncIsExact(b.contributions, RowOf(b, e), derived, c);
    var (from, to) := WindowOf(e.scheme, e.at);
    if c < |b.commissions| { DeriveIsComplete(b.commissions, e, from, to, 0, c); }
  }

  lemma {:induction false} DeriveIsComplete(cs: seq<Commission>, e: Evaluation, from: int, to: int, i: nat,
                                            c: CommissionId)
    requires i <= c < |cs|
    ensures Names(Derive(cs, e, from, to, i), c) <==> Counts(cs[c], e, from, to)
    decreases |cs| - i
  {
    hide Counts;
    var rest := Derive(cs, e, from, to, i + 1);
    assert [] + rest == rest;
    if c == i {
      if Counts(cs[c], e, from, to) { assert Derive(cs, e, from, to, i)[0].commission == c; }
    } else {
      DeriveIsComplete(cs, e, from, to, i + 1, c);
      if Counts(cs[i], e, from, to) {
        var all := [Derived(i, ValueOf(cs[i], e), cs[i].computedAt)] + rest;
        NamesCons(all, c);
        assert all[1..] == rest;
      }
    }
  }

  // ---- unwindForCommission ----

  datatype Bonus = Bonus(progress: ProgressId, reward: nat)

  predicate CreditedTo(r: Progress, c: CommissionId) { r.credit.Some? && r.credit.value.commission == c }

  function BonusesOf(ps: seq<Progress>, c: CommissionId, from: nat := 0): (bs: seq<Bonus>)
    requires from <= |ps|
    ensures forall k :: 0 <= k < |bs| ==>
              from <= bs[k].progress < |ps| && CreditedTo(ps[bs[k].progress], c)
              && bs[k].reward == ps[bs[k].progress].credit.value.reward
    ensures forall j, k :: 0 <= j < k < |bs| ==> bs[j].progress < bs[k].progress
    decreases |ps| - from
  {
    if from == |ps| then []
    else
      var rest := BonusesOf(ps, c, from + 1);
      if CreditedTo(ps[from], c) then [Bonus(from, ps[from].credit.value.reward)] + rest else rest
  }

  ghost predicate Lists(bs: seq<Bonus>, p: ProgressId) {
    exists k :: 0 <= k < |bs| && bs[k].progress == p
  }

  lemma ListsTail(head: seq<Bonus>, rest: seq<Bonus>, p: ProgressId)
    requires Lists(rest, p)
    ensures Lists(head + rest, p)
  {
    var k :| 0 <= k < |rest| && rest[k].progress == p;
    assert (head + rest)[|head| + k] == rest[k];
  }

  lemma BonusesUnfold(ps: seq<Progress>, c: CommissionId, from: nat)
    requires from < |ps|
    ensures BonusesOf(ps, c, from)
            == (if CreditedTo(ps[from], c) then [Bonus(from, ps[from].credit.value.reward)] else [])
               + BonusesOf(ps, c, from + 1)
  {
    assert [] + BonusesOf(ps, c, from + 1) == BonusesOf(ps, c, from + 1);
  }

  lemma {:induction false} BonusesAreComplete(ps: seq<Progress>, c: CommissionId, from: nat, p: ProgressId)
    requires from <= p < |ps| && CreditedTo(ps[p], c)
    ensures Lists(BonusesOf(ps, c, from), p)
    decreases |ps| - from
  {
    BonusesUnfold(ps, c, from);
    var rest := BonusesOf(ps, c, from + 1);
    hide BonusesOf;
    if p == from {
      assert BonusesOf(ps, c, from)[0].progress == p;
    } else {
      BonusesAreComplete(ps, c, from + 1, p);
      hide Lists;
      ListsTail(if CreditedTo(ps[from], c) then [Bonus(from, ps[from].credit.value.reward)] else [], rest, p);
    }
  }

  function Without(cs: seq<Contribution>, c: CommissionId): seq<Contribution> {
    if cs == [] then []
    else (if cs[0].commission == c then [] else [cs[0]]) + Without(cs[1..], c)
  }

  function ValueFor(p: ProgressId): Contribution -> int {
    (x: Contribution) => if x.progress == p then x.value else 0
  }

  /** `recount`: progress is the sum of the contributions that remain. */
  function Recount(cs: seq<Contribution>, p: ProgressId): nat {
    TotalNonNegative(cs, ValueFor(p));
    Total(cs, ValueFor(p))
  }

  function Uncredited(r: Progress, c: CommissionId): Progress {
    if CreditedTo(r, c) then r.(credit := None) else r
  }

  function UnwoundRow(b: Books, c: CommissionId, p: ProgressId): Progress
    requires p < |b.progress|
  {
    var row := Uncredited(b.progress[p], c);
    if Stored(b.contributions, p, c) then row.(value := Recount(Without(b.contributions, c), p)) else row
  }

  function Unwind(b: Books, c: CommissionId): Books {
    b.(contributions := Without(b.contributions, c),
       progress := seq(|b.progress|, i requires 0 <= i < |b.progress| => UnwoundRow(b, c, i)))
  }

  /** The loop over the rows credited against the job. */
  method ClearCredits(db: Tables, c: CommissionId) returns (owed: seq<Bonus>)
    modifies db`progress
    ensures owed == BonusesOf(old(db.progress), c)
    ensures |db.progress| == |old(db.progress)|
    ensures forall p :: 0 <= p < |db.progress| ==> db.progress[p] == Uncredited(old(db.progress)[p], c)
  {
    owed := BonusesOf(db.progress, c);
    for i := 0 to |owed|
      invariant |db.progress| == |old(db.progress)|
      invariant forall p :: 0 <= p < |db.progress| ==>
                  db.progress[p] ==
                  if p in Cleared(owed, i) then old(db.progress)[p].(credit := None) else old(db.progress)[p]
    {
      var p := owed[i].progress;
      db.progress := db.progress[p := db.progress[p].(credit := None)];
    }
    forall p | 0 <= p < |db.progress| ensures db.progress[p] == Uncredited(old(db.progress)[p], c) {
      if CreditedTo(old(db.progress)[p], c) { BonusesAreComplete(old(db.progress), c, 0, p); }
    }
  }

  ghost function Cleared(owed: seq<Bonus>, i: nat): set<ProgressId>
    requires i <= |owed|
  {
    set k | 0 <= k < i :: owed[k].progress
  }

  method UnwindForCommission(db: Tables, c: CommissionId) returns (owed: seq<Bonus>)
    modifies db`progress, db`contributions
    ensures db.View() == Unwind(old(db.View()), c)
    ensures owed == BonusesOf(old(db.progress), c)
  {
    hide BonusesOf, Without, UnwoundRow;
    ghost var before := db.View();
    var touched := set k | 0 <= k < |db.contributions| && db.contributions[k].commission == c
                   :: db.contributions[k].progress;
    assert forall p :: p in touched <==> Stored(before.contributions, p, c);
    db.contributions := Without(db.contributions, c);
    owed := ClearCredits(db, c);
    RecountAll(db, c, touched, before);
  }

  method RecountAll(db: Tables, c: CommissionId, touched: set<ProgressId>, ghost before: Books)
    requires |db.progress| == |before.progress| && db.contributions == Without(before.contributions, c)
    requires forall p :: 0 <= p < |db.progress| ==> db.progress[p] == Uncredited(before.progress[p], c)
    requires forall p :: p in touched <==> Stored(before.contributions, p, c)
    modifies db`progress
    ensures db.progress == Unwind(before, c).progress
  {
    var left := touched;
    while left != {}
      invariant left <= touched
      invariant |db.progress| == |before.progress|
      invariant forall p :: 0 <= p < |db.progress| ==>
                  db.progress[p] == if p in left then Uncredited(before.progress[p], c) else UnwoundRow(before, c, p)
      decreases left
    {
      var p :| p in left;
      if p < |db.progress| {
        db.progress := db.progress[p := db.progress[p].(value := Recount(db.contributions, p))];
      }
      left := left - {p};
    }
  }
}
