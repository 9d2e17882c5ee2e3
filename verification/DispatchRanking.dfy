/** Scoring and ordering the candidates of one attempt, in exact arithmetic. */
module DispatchRanking {
  type ProId = nat

  const TOLERANCE: real := 0.000000001

  datatype Candidate = Candidate(pro: ProId, score: real, fit: real, rating: real, offersToday: nat, excluded: bool)

  datatype Ranked = Ranked(candidate: Candidate, rank: nat)

  // ---- scores ----

  function MaxReal(a: real, b: real): real { if a < b then b else a }

  function MinReal(a: real, b: real): real { if a < b then a else b }

  function ProximityScore(travelMinutes: nat, softTarget: real): (p: real)
    ensures 0.0 < p <= 1.0
  {
    var target := MaxReal(1.0, softTarget);
    var ratio := travelMinutes as real / target;
    assert ratio >= 0.0;
    1.0 / (1.0 + ratio)
  }

  function FinalRankScore(travelMinutes: nat, softTarget: real, rotation: real, fit: real, rating: real,
                          offersToday: nat): real {
    var normalised := MaxReal(0.0, MinReal(1.0, (rating - 1.0) / 4.0));
    var load := 1.0 / (1.0 + offersToday as real);
    ProximityScore(travelMinutes, softTarget) * 0.5 + rotation * 0.2 + fit * 0.1 + normalised * 0.15 + load * 0.05
  }

  // ---- the comparator ----

  function Abs(x: real): real { if x < 0.0 then -x else x }

  /** Negative when `a` comes first. */
  function Compare(a: Candidate, b: Candidate): real {
    if Abs(b.score - a.score) > TOLERANCE then b.score - a.score
    else if Abs(b.fit - a.fit) > TOLERANCE then b.fit - a.fit
    else if Abs(b.rating - a.rating) > TOLERANCE then b.rating - a.rating
    else if a.offersToday != b.offersToday then a.offersToday as real - b.offersToday as real
    else if a.pro < b.pro then -1.0
    else if a.pro > b.pro then 1.0
    else 0.0
  }

  predicate Precedes(a: Candidate, b: Candidate) { Compare(a, b) < 0.0 }

  /** Equal, or further apart than the comparator's tolerance. */
  predicate Apart(x: real, y: real) { x == y || Abs(x - y) > TOLERANCE }

  /** Each measure the comparator comes to tells the two apart, or ties them exactly. */
  predicate Distinguishable(a: Candidate, b: Candidate) {
    Apart(a.score, b.score)
    && (a.score == b.score ==> Apart(a.fit, b.fit))
    && (a.score == b.score && a.fit == b.fit ==> Apart(a.rating, b.rating))
    && (a.pro == b.pro ==> a == b)
  }

  ghost predicate AllDistinguishable(cs: multiset<Candidate>) {
    forall a, b :: a in cs && b in cs ==> Distinguishable(a, b)
  }

  lemma PrecedesIsTransitive(a: Candidate, b: Candidate, c: Candidate)
    requires Distinguishable(a, b) && Distinguishable(b, c) && Distinguishable(a, c)
    requires Precedes(a, b) && Precedes(b, c)
    ensures Precedes(a, c)
  {
  }

  lemma PrecedesIsTotal(a: Candidate, b: Candidate)
    requires Distinguishable(a, b) && Distinguishable(b, a)
    ensures a == b || Precedes(a, b) || Precedes(b, a)
    ensures !(Precedes(a, b) && Precedes(b, a)) && !Precedes(a, a)
  {
  }

  /** Closer scores than the tolerance can go round in a circle, each before the next. */
  lemma CloseScoresCanCircle()
    ensures exists a, b, c :: Precedes(a, b) && Precedes(b, c) && Precedes(c, a)
  {
    var a := Candidate(1, 0.0, 3.0, 0.0, 0, false);
    var b := Candidate(2, 0.0000000007, 2.0, 0.0, 0, false);
    var c := Candidate(3, 0.0000000014, 1.0, 0.0, 0, false);
    assert Precedes(a, b) && Precedes(b, c) && Precedes(c, a);
  }

  // ---- rank ----

  /** In order, each before everyone after. */
  predicate InOrder(cs: seq<Candidate>) {
    forall i, j :: 0 <= i < j < |cs| ==> Precedes(cs[i], cs[j])
  }

  function Insert(c: Candidate, cs: seq<Candidate>): seq<Candidate> {
    if cs == [] || Precedes(c, cs[0]) then [c] + cs else [cs[0]] + Insert(c, cs[1..])
  }

  /** The sort. Any consistent comparator leaves no choice about its result. */
  function Sort(cs: seq<Candidate>): seq<Candidate> {
    if cs == [] then [] else Insert(cs[0], Sort(cs[1..]))
  }

  function Kept(cs: seq<Candidate>): seq<Candidate> {
    if cs == [] then [] else (if cs[0].excluded then [] else [cs[0]]) + Kept(cs[1..])
  }

  method Rank(candidates: seq<Candidate>) returns (ranked: seq<Ranked>)
    ensures |ranked| == |Sort(Kept(candidates))|
    ensures forall i :: 0 <= i < |ranked| ==> ranked[i] == Ranked(Sort(Kept(candidates))[i], i + 1)
  {
    var scored := Sort(Kept(candidates));
    ranked := [];
    for i := 0 to |scored|
      invariant |ranked| == i
      invariant forall k :: 0 <= k < i ==> ranked[k] == Ranked(scored[k], k + 1)
    {
      ranked := ranked + [Ranked(scored[i], i + 1)];
    }
  }

  lemma {:induction false} InsertKeeps(c: Candidate, cs: seq<Candidate>)
    ensures multiset(Insert(c, cs)) == multiset(cs) + multiset{c}
  {
    if cs != [] && !Precedes(c, cs[0]) {
      InsertKeeps(c, cs[1..]);
      assert cs == [cs[0]] + cs[1..];
    }
  }

  lemma FewerDistinguishable(some: multiset<Candidate>, all: multiset<Candidate>)
    requires AllDistinguishable(all) && some <= all
    ensures AllDistinguishable(some)
  {
    hide Distinguishable;
    forall x | x in some ensures x in all { assert some[x] <= all[x]; }
  }

  lemma {:induction false} InsertOrders(c: Candidate, cs: seq<Candidate>)
    requires InOrder(cs) && c !in cs && AllDistinguishable(multiset(cs) + multiset{c})
    ensures InOrder(Insert(c, cs))
  {
    hide Precedes, Distinguishable;
    if cs != [] {
      var all := multiset(cs) + multiset{c};
      forall x | x in cs ensures x in all {}
      if Precedes(c, cs[0]) {
        forall j | 0 < j < |cs| ensures Precedes(c, cs[j]) {
          assert cs[0] in all && cs[j] in all;
          PrecedesIsTransitive(c, cs[0], cs[j]);
        }
      } else {
        PrecedesIsTotal(c, cs[0]);
        var rest := cs[1..];
        assert cs == [cs[0]] + rest;
        FewerDistinguishable(multiset(rest) + multiset{c}, all);
        InsertOrders(c, rest);
        InsertKeeps(c, rest);
        HeadFirst(c, cs, Insert(c, rest));
      }
    }
  }

  lemma HeadFirst(c: Candidate, cs: seq<Candidate>, rest: seq<Candidate>)
    requires cs != [] && InOrder(cs) && Precedes(cs[0], c)
    requires InOrder(rest) && multiset(rest) == multiset(cs[1..]) + multiset{c}
    ensures InOrder([cs[0]] + rest)
  {
    hide Precedes;
    forall j | 0 <= j < |rest| ensures Precedes(cs[0], rest[j]) {
      assert rest[j] in multiset(rest);
      if rest[j] != c { assert rest[j] in cs[1..]; }
    }
  }

  lemma {:induction false} SortKeeps(cs: seq<Candidate>)
    ensures multiset(Sort(cs)) == multiset(cs)
  {
    if cs != [] {
      SortKeeps(cs[1..]);
      InsertKeeps(cs[0], Sort(cs[1..]));
      assert cs == [cs[0]] + cs[1..];
    }
  }

  lemma {:induction false} SortOrders(cs: seq<Candidate>)
    requires AllDistinguishable(multiset(cs))
    requires forall i, j :: 0 <= i < j < |cs| ==> cs[i] != cs[j]
    ensures InOrder(Sort(cs))
  {
    if cs != [] {
      hide Distinguishable, InOrder, Precedes, AllDistinguishable, Insert;
      var head, rest := cs[0], cs[1..];
      assert cs == [head] + rest;
      SortKeeps(rest);
      assert head !in rest;
      assert multiset(Sort(rest))[head] == 0;
      FewerDistinguishable(multiset(rest), multiset(cs));
      SortOrders(rest);
      InsertOrders(head, Sort(rest));
    }
  }

  /** Two orderings of the same candidates are the same ordering. */
  lemma {:induction false} OrderIsUnique(a: seq<Candidate>, b: seq<Candidate>)
    requires InOrder(a) && InOrder(b) && multiset(a) == multiset(b)
    requires AllDistinguishable(multiset(a))
    ensures a == b
  {
    hide Distinguishable, Precedes, InOrder, AllDistinguishable;
    SameLength(a, b);
    if a == [] {
    } else {
      SameFirst(a, b);
      LessTheFirst(a);
      LessTheFirst(b);
      FewerDistinguishable(multiset(a[1..]), multiset(a));
      OrderIsUnique(a[1..], b[1..]);
      assert a == [a[0]] + a[1..] && b == [b[0]] + b[1..];
    }
  }

  lemma SameLength(a: seq<Candidate>, b: seq<Candidate>)
    requires multiset(a) == multiset(b)
    ensures |a| == |b|
  {
    assert |multiset(a)| == |a| && |multiset(b)| == |b|;
  }

  lemma LessTheFirst(a: seq<Candidate>)
    requires a != [] && InOrder(a)
    ensures InOrder(a[1..]) && multiset(a[1..]) == multiset(a) - multiset{a[0]}
  {
    hide Precedes;
    assert a == [a[0]] + a[1..];
  }

  lemma SameFirst(a: seq<Candidate>, b: seq<Candidate>)
    requires |a| == |b| > 0 && InOrder(a) && InOrder(b) && multiset(a) == multiset(b)
    requires AllDistinguishable(multiset(a))
    ensures a[0] == b[0]
  {
    hide Distinguishable, Precedes;
    assert a[0] in multiset(b) && b[0] in multiset(a);
    PrecedesIsTotal(a[0], b[0]);
    var i :| 0 <= i < |b| && b[i] == a[0];
    var j :| 0 <= j < |a| && a[j] == b[0];
  }

  lemma {:induction false} KeptOf(cs: seq<Candidate>)
    ensures forall c :: multiset(Kept(cs))[c] == if c.excluded then 0 else multiset(cs)[c]
  {
    if cs != [] {
      KeptOf(cs[1..]);
      assert cs == [cs[0]] + cs[1..];
    }
  }

  lemma NoRepeats(cs: seq<Candidate>)
    requires forall c :: multiset(cs)[c] <= 1
    ensures forall i, j :: 0 <= i < j < |cs| ==> cs[i] != cs[j]
  {
    forall i, j | 0 <= i < j < |cs| ensures cs[i] != cs[j] {
      assert cs == cs[..j] + cs[j..];
      assert multiset(cs)[cs[j]] == multiset(cs[..j])[cs[j]] + multiset(cs[j..])[cs[j]];
      assert cs[j..][0] == cs[j] && cs[j] in multiset(cs[j..]);
      assert cs[..j][i] == cs[i] && cs[i] in multiset(cs[..j]);
    }
  }

  lemma RepeatsCount(cs: seq<Candidate>)
    requires forall i, j :: 0 <= i < j < |cs| ==> cs[i].pro != cs[j].pro
    ensures forall c :: multiset(cs)[c] <= 1
  {
    if cs != [] {
      assert cs == [cs[0]] + cs[1..];
      forall i, j | 0 <= i < j < |cs[1..]| ensures cs[1..][i].pro != cs[1..][j].pro {}
      RepeatsCount(cs[1..]);
      assert cs[0] !in cs[1..];
      assert multiset(cs[1..])[cs[0]] == 0;
    }
  }

  /** One candidate a Pro, measures equal or clearly apart: the ranking holds every candidate not
      excluded, each strictly before the next, and the order they arrived in makes no
      difference to it. */
  lemma RankingIgnoresTheInputOrder(cs: seq<Candidate>, ds: seq<Candidate>)
    requires multiset(cs) == multiset(ds) && AllDistinguishable(multiset(cs))
    requires forall i, j :: 0 <= i < j < |cs| ==> cs[i].pro != cs[j].pro
    ensures Sort(Kept(cs)) == Sort(Kept(ds))
    ensures InOrder(Sort(Kept(cs)))
    ensures forall c :: multiset(Sort(Kept(cs)))[c] == if c.excluded then 0 else multiset(cs)[c]
  {
    RepeatsCount(cs);
    KeptOf(cs);
    KeptOf(ds);
    var a, b := Kept(cs), Kept(ds);
    assert multiset(a) == multiset(b);
    NoRepeats(a);
    NoRepeats(b);
    forall x, y | x in multiset(a) && y in multiset(a) ensures Distinguishable(x, y) {
      assert multiset(cs)[x] > 0 && multiset(cs)[y] > 0;
    }
    SortOrders(a);
    SortOrders(b);
    SortKeeps(a);
    SortKeeps(b);
    OrderIsUnique(Sort(a), Sort(b));
  }

  // ---- distance at any range ----

  /** Two candidates alike but for the drive. */
  function Driving(pro: ProId, travelMinutes: nat, softTarget: real, rotation: real, fit: real, rating: real,
                   offersToday: nat): Candidate {
    var score := FinalRankScore(travelMinutes, softTarget, rotation, fit, rating, offersToday);
    Candidate(pro, score, fit, rating, offersToday, false)
  }

  /** The gap between two proximities, halved as the score weighs it. */
  lemma ProximityGap(near: nat, far: nat, target: real)
    requires target >= 1.0
    ensures (ProximityScore(near, target) - ProximityScore(far, target)) * 0.5
            == target * (far as real - near as real) * 0.5 / ((target + near as real) * (target + far as real))
  {
    ProximityForm(near, target);
    ProximityForm(far, target);
    FractionGap(target, target + near as real, target + far as real);
  }

  lemma ProximityForm(t: nat, target: real)
    requires target >= 1.0
    ensures ProximityScore(t, target) == target / (target + t as real)
  {
    var x := t as real;
    assert (1.0 + x / target) * target == target + x;
    assert 1.0 / (1.0 + x / target) == target / ((1.0 + x / target) * target);
  }

  lemma FractionGap(n: real, a: real, b: real)
    requires a > 0.0 && b > 0.0
    ensures (n / a - n / b) * 0.5 == n * (b - a) * 0.5 / (a * b)
  {
    var x, y := n / a, n / b;
    assert x * a == n && y * b == n;
    assert a * b > 0.0;
    assert (x - y) * (a * b) == n * (b - a) by {
      assert x * (a * b) == n * b;
      assert y * (a * b) == n * a;
    }
  }

  /** How much nearer, and how far out both are, as the target weighs them. */
  function Lead(t: real, near: nat, far: nat): real { t * (far as real - near as real) * 0.5 }

  function Reach(t: real, near: nat, far: nat): real { (t + near as real) * (t + far as real) }

  /** With everything else equal, the nearer Pro is first exactly while its lead exceeds the
      tolerance over the reach, or its id is the lower: far enough out, distance stops deciding. */
  lemma NearerWinsWithinRange(nearPro: ProId, farPro: ProId, near: nat, far: nat, softTarget: real,
                              rotation: real, fit: real, rating: real, offersToday: nat)
    requires near < far
    ensures var t := MaxReal(1.0, softTarget);
            Precedes(Driving(nearPro, near, softTarget, rotation, fit, rating, offersToday),
                     Driving(farPro, far, softTarget, rotation, fit, rating, offersToday))
            <==> Lead(t, near, far) > TOLERANCE * Reach(t, near, far) || nearPro < farPro
  {
    hide Lead, Reach, ProximityScore, FinalRankScore;
    var t := MaxReal(1.0, softTarget);
    ScoresDiffer(near, far, softTarget, rotation, fit, rating, offersToday);
    GapInRange(near, far, t);
    AlikeButForTheScore(Driving(nearPro, near, softTarget, rotation, fit, rating, offersToday),
                        Driving(farPro, far, softTarget, rotation, fit, rating, offersToday));
  }

  lemma AlikeButForTheScore(a: Candidate, b: Candidate)
    requires a.score > b.score && a.fit == b.fit && a.rating == b.rating && a.offersToday == b.offersToday
    ensures Precedes(a, b) <==> a.score - b.score > TOLERANCE || a.pro < b.pro
  {
  }

  lemma GapInRange(near: nat, far: nat, t: real)
    requires near < far && t >= 1.0
    ensures var gap := (ProximityScore(near, t) - ProximityScore(far, t)) * 0.5;
            gap > 0.0 && (gap > TOLERANCE <==> Lead(t, near, far) > TOLERANCE * Reach(t, near, far))
  {
    ProximityGap(near, far, t);
    Positive(t, near as real, far as real);
    Compared(Lead(t, near, far), Reach(t, near, far));
    hide ProximityScore;
  }

  lemma ScoresDiffer(near: nat, far: nat, softTarget: real, rotation: real, fit: real, rating: real, offersToday: nat)
    ensures var t := MaxReal(1.0, softTarget);
            FinalRankScore(near, softTarget, rotation, fit, rating, offersToday)
            - FinalRankScore(far, softTarget, rotation, fit, rating, offersToday)
            == (ProximityScore(near, t) - ProximityScore(far, t)) * 0.5
  {
    assert ProximityScore(near, softTarget) == ProximityScore(near, MaxReal(1.0, softTarget));
    assert ProximityScore(far, softTarget) == ProximityScore(far, MaxReal(1.0, softTarget));
    hide ProximityScore;
  }

  lemma Positive(t: real, x: real, y: real)
    requires t >= 1.0 && 0.0 <= x < y
    ensures t * (y - x) * 0.5 > 0.0 && (t + x) * (t + y) > 0.0
  {
    assert t * (y - x) > 0.0;
  }

  lemma Compared(n: real, d: real)
    requires d > 0.0
    ensures n / d > TOLERANCE <==> n > TOLERANCE * d
    ensures n > 0.0 ==> n / d > 0.0
  {
    assert n / d * d == n;
  }

  // ---- what the order and the score are made of ----

  /** Apart by more than a thousand-millionth, or not. */
  predicate Above(x: real, y: real) { x - y > 0.000000001 }

  predicate Level(x: real, y: real) { !Above(x, y) && !Above(y, x) }

  /** Higher score first; level on that, better fit; level on both, better rating; then fewer offers
      today; then the lower id. */
  lemma ComparesInTurn(a: Candidate, b: Candidate)
    ensures Precedes(a, b)
            <==> Above(a.score, b.score)
                 || (Level(a.score, b.score)
                     && (Above(a.fit, b.fit)
                         || (Level(a.fit, b.fit)
                             && (Above(a.rating, b.rating)
                                 || (Level(a.rating, b.rating)
                                     && (a.offersToday < b.offersToday
                                         || (a.offersToday == b.offersToday && a.pro < b.pro)))))))
  {
  }

  /** On the spot, next in rotation, the best fit, five stars and idle: a full score. An hour for an
      hour's target, and nothing else to be said for the Pro but having had no offer, is three tenths. */
  lemma ScoreRunsToOne(softTarget: real)
    ensures FinalRankScore(0, softTarget, 1.0, 1.0, 5.0, 0) == 1.0
    ensures FinalRankScore(60, 60.0, 0.0, 0.0, 1.0, 0) == 0.3
  {
  }

  /** Half the score is nearness, a fifth rotation, a tenth fit, three twentieths the rating's place
      from one star to five, and one twentieth a share that halves with the first offer of the day. */
  lemma ScoreIsShared(t: nat, target: real, rotation: real, fit: real, rating: real, offers: nat)
    ensures FinalRankScore(t, target, rotation, fit, rating, offers)
            - FinalRankScore(t, target, 0.0, fit, rating, offers) == rotation / 5.0
    ensures FinalRankScore(t, target, rotation, fit, rating, offers)
            - FinalRankScore(t, target, rotation, 0.0, rating, offers) == fit / 10.0
    ensures 1.0 <= rating <= 5.0 ==>
              FinalRankScore(t, target, rotation, fit, rating, offers)
              - FinalRankScore(t, target, rotation, fit, 1.0, offers) == (rating - 1.0) * 3.0 / 80.0
    ensures rating < 1.0 ==> FinalRankScore(t, target, rotation, fit, rating, offers)
                             == FinalRankScore(t, target, rotation, fit, 1.0, offers)
    ensures rating > 5.0 ==> FinalRankScore(t, target, rotation, fit, rating, offers)
                             == FinalRankScore(t, target, rotation, fit, 5.0, offers)
    ensures FinalRankScore(t, target, rotation, fit, rating, offers)
            - FinalRankScore(t, target, rotation, fit, rating, 0)
            == 1.0 / (20.0 * (1.0 + offers as real)) - 1.0 / 20.0
  {
    hide ProximityScore;
    var more := 1.0 + offers as real;
    assert 1.0 / more * 0.05 == 1.0 / (20.0 * more) by { assert 1.0 / more * more == 1.0; }
  }
}
