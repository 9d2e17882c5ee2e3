/** A generation leaves nobody out, and running it again finds nothing more to do. */
module GenerateLaws {
  import opened Wrappers
  import opened Totals
  import opened Books
  import opened Deductions
  import opened PayoutBatch
  import opened BatchLaws
  import opened MoneyInvariants

  // ---- building for one Pro leaves the others alone ----

  /** Nothing about `pro` differs between the two states: same commission rows, same debts. */
  ghost predicate Undisturbed(b: Books, n: Books, pro: ProId) {
    |b.commissions| == |n.commissions| && |b.deductions| <= |n.deductions|
    && (forall i :: 0 <= i < |b.commissions| ==>
          n.commissions[i].pro == b.commissions[i].pro
          && (b.commissions[i].pro == pro ==> n.commissions[i] == b.commissions[i]))
    && (forall i :: 0 <= i < |b.deductions| ==>
          n.deductions[i].pro == b.deductions[i].pro
          && (b.deductions[i].pro == pro ==> n.deductions[i] == b.deductions[i]))
    && (forall i :: |b.deductions| <= i < |n.deductions| ==> n.deductions[i].pro != pro)
  }

  lemma BuildLeavesOthers(b: Books, r: Request, pro: ProId)
    requires RowsOk(b.payouts, b.deductions)
    requires r.pro != pro || !Decide(b, r).Drafted?
    ensures Undisturbed(b, Build(b, r), pro)
  {
    if Decide(b, r).Drafted? {
      BuildFacts(b, r);
      hide Decide, ClaimLines, RowsOk, Claimable, Total;
      GrownLeavesOthers(b, Build(b, r), r, pro);
    }
  }

  lemma GrownLeavesOthers(b: Books, n: Books, r: Request, pro: ProId)
    requires r.pro != pro && Grown(b.deductions, n.deductions, r.pro, |b.payouts|)
    requires n.commissions == Rewritten(b.commissions, Attach(|b.payouts|, r.pro, r.cutoff))
    ensures Undisturbed(b, n, pro)
  {
    forall i | 0 <= i < |n.deductions|
      ensures if i < |b.deductions|
              then Kept(b.deductions[i], n.deductions[i], r.pro, |b.payouts|)
              else Added(n.deductions[i], r.pro, |b.payouts|)
    {
    }
  }

  lemma {:induction false} QueueSeesOnlyItsPro(a: seq<Deduction>, b: seq<Deduction>, pro: ProId, from: nat)
    requires from <= |a| <= |b|
    requires forall i :: 0 <= i < |a| ==> b[i].pro == a[i].pro && (a[i].pro == pro ==> b[i] == a[i])
    requires forall i :: |a| <= i < |b| ==> b[i].pro != pro
    ensures Queue(b, pro, from) == Queue(a, pro, from)
    decreases |a| - from
  {
    if from == |a| {
      NobodysQueue(b, pro, from);
    } else {
      QueueSeesOnlyItsPro(a, b, pro, from + 1);
    }
  }

  lemma {:induction false} NobodysQueue(b: seq<Deduction>, pro: ProId, from: nat)
    requires from <= |b| && forall i :: from <= i < |b| ==> b[i].pro != pro
    ensures Queue(b, pro, from) == []
    decreases |b| - from
  {
    if from < |b| { NobodysQueue(b, pro, from + 1); }
  }

  lemma DecisionSeesOnlyItsPro(b: Books, n: Books, r: Request)
    requires Undisturbed(b, n, r.pro)
    ensures Decide(n, r) == Decide(b, r)
  {
    hide Plan, Queue, Total;
    QueueSeesOnlyItsPro(b.deductions, n.deductions, r.pro, 0);
    TotalPointwise(n.commissions, b.commissions, CommissionIn(r.pro, r.cutoff), CommissionIn(r.pro, r.cutoff));
    TotalPointwise(n.commissions, b.commissions, IncentiveIn(r.pro, r.cutoff), IncentiveIn(r.pro, r.cutoff));
    BatchableSame(b.commissions, n.commissions, r.pro, r.cutoff);
  }

  lemma BatchableSame(a: seq<Commission>, b: seq<Commission>, pro: ProId, cutoff: int)
    requires |a| == |b|
    requires forall i :: 0 <= i < |a| ==> b[i].pro == a[i].pro && (a[i].pro == pro ==> b[i] == a[i])
    ensures AnyBatchable(a, pro, cutoff) <==> AnyBatchable(b, pro, cutoff)
  {
    forall i | 0 <= i < |a| ensures Batchable(a[i], pro, cutoff) <==> Batchable(b[i], pro, cutoff) {}
    if AnyBatchable(a, pro, cutoff) {
      var i :| 0 <= i < |a| && Batchable(a[i], pro, cutoff);
      assert Batchable(b[i], pro, cutoff);
    }
    if AnyBatchable(b, pro, cutoff) {
      var i :| 0 <= i < |b| && Batchable(b[i], pro, cutoff);
      assert Batchable(a[i], pro, cutoff);
    }
  }

  // ---- one generation ----

  ghost predicate Distinct(order: seq<ProId>) {
    forall j, k :: 0 <= j < k < |order| ==> order[j] != order[k]
  }

  /** A commission row sits in one of the drafts of this generation, made for its own Pro. */
  predicate InNewDraft(b: Books, g: Batch, c: Commission) {
    c.payout.Some? && |b.payouts| <= c.payout.value < |g.books.payouts|
    && c.payout.value in g.created
    && g.books.payouts[c.payout.value].status == PayoutStatus.Draft
    && g.books.payouts[c.payout.value].pro == c.pro
  }

  /** Every row of the Pro's that was batchable is now in a new draft. */
  ghost predicate Swept(b: Books, t: Terms, g: Batch, pro: ProId) {
    |g.books.commissions| == |b.commissions|
    && forall i :: 0 <= i < |b.commissions| ==>
         g.books.commissions[i].pro == b.commissions[i].pro
         && (b.commissions[i].pro == pro ==>
               if Batchable(b.commissions[i], pro, t.cutoff) then InNewDraft(b, g, g.books.commissions[i])
               else g.books.commissions[i] == b.commissions[i])
  }

  /** Where one Pro stands after a generation that has, or has not yet, asked for them. */
  ghost predicate Stands(b: Books, t: Terms, g: Batch, pro: ProId, asked: bool) {
    var d := Decide(b, RequestFor(pro, t));
    if asked && d.Drafted? then Swept(b, t, g, pro)
    else Undisturbed(b, g.books, pro) && (asked && d.Skipped? ==> d.skip in g.skipped)
  }

  ghost predicate Numbered(b: Books, g: Batch) {
    |b.payouts| <= |g.books.payouts| && forall p :: p in g.created <==> |b.payouts| <= p < |g.books.payouts|
  }

  /** Nobody is listed who was not asked for and refused. */
  ghost predicate SkippedOnly(b: Books, order: seq<ProId>, t: Terms, g: Batch) {
    forall s :: s in g.skipped ==> s.pro in order && Decide(b, RequestFor(s.pro, t)) == Skipped(s)
  }

  ghost predicate Progressed(b: Books, order: seq<ProId>, t: Terms, g: Batch) {
    Sound(g.books) && Numbered(b, g) && SkippedOnly(b, order, t, g)
    && forall pro :: Stands(b, t, g, pro, pro in order)
  }

  lemma DecidedFor(b: Books, r: Request)
    ensures Decide(b, r).Skipped? ==> Decide(b, r).skip.pro == r.pro
    ensures Decide(b, r).Drafted? ==> Decide(b, r).draft.pro == r.pro && Decide(b, r).draft.status == PayoutStatus.Draft
  {
    hide Plan, Queue, CommissionTotal, IncentiveTotal, AnyBatchable, Total;
  }

  lemma UndisturbedTwice(a: Books, b: Books, c: Books, pro: ProId)
    requires Undisturbed(a, b, pro) && Undisturbed(b, c, pro)
    ensures Undisturbed(a, c, pro)
  {
    forall i | |a.deductions| <= i < |c.deductions| ensures c.deductions[i].pro != pro {
      if i < |b.deductions| { assert b.deductions[i].pro != pro; }
    }
  }

  /** What asking for one Pro adds to a batch. */
  lemma ExtendedBy(g: Batch, r: Request)
    ensures var d := Decide(g.books, r); var g' := Extended(g, r); var p := |g.books.payouts|;
            g'.books == Build(g.books, r)
            && (d.Drafted? ==>
                  g'.books.payouts == g.books.payouts + [d.draft]
                  && g'.created == g.created + [p] && g'.skipped == g.skipped
                  && g'.books.commissions == Rewritten(g.books.commissions, Attach(p, r.pro, r.cutoff)))
            && (!d.Drafted? ==>
                  g'.books == g.books && g'.created == g.created
                  && g'.skipped == g.skipped + if d.Skipped? then [d.skip] else [])
  {
    hide Decide, ClaimLines;
  }

  /** Asking for one Pro leaves everyone else where they stood. */
  lemma OthersStand(b: Books, t: Terms, g: Batch, r: Request, pro: ProId, asked: bool)
    requires Sound(g.books) && Numbered(b, g) && Stands(b, t, g, pro, asked) && pro != r.pro
    ensures Stands(b, t, Extended(g, r), pro, asked)
  {
    ExtendedBy(g, r);
    SoundGives(g.books);
    hide Decide, Build, Extended, Sound, RowsOk, AttachOk, RecordsOk, KeyOk;
    BuildLeavesOthers(g.books, r, pro);
    var g' := Extended(g, r);
    if asked && Decide(b, RequestFor(pro, t)).Drafted? {
      hide RequestFor;
      SweptStays(b, t, g, g', pro);
    } else {
      UndisturbedTwice(b, g.books, g'.books, pro);
      hide Undisturbed, RequestFor;
    }
  }

  lemma SweptStays(b: Books, t: Terms, g: Batch, g': Batch, pro: ProId)
    requires Swept(b, t, g, pro) && Undisturbed(g.books, g'.books, pro)
    requires g.books.payouts <= g'.books.payouts && g.created <= g'.created
    ensures Swept(b, t, g', pro)
  {
    forall p | p in g.created ensures p in g'.created {}
  }

  /** The Pro asked for is swept, listed, or had nothing to pay. */
  lemma AskedStands(b: Books, t: Terms, g: Batch, pro: ProId)
    requires Sound(g.books) && Numbered(b, g) && Undisturbed(b, g.books, pro)
    ensures Stands(b, t, Extended(g, RequestFor(pro, t)), pro, true)
  {
    var r := RequestFor(pro, t);
    hide Decide, Build, Extended, Sound;
    DecisionSeesOnlyItsPro(b, g.books, r);
    DecidedFor(g.books, r);
    ExtendedBy(g, r);
    if !Decide(b, r).Drafted? {
      hide Undisturbed;
    }
  }

  lemma StillNumbered(b: Books, g: Batch, r: Request)
    requires Sound(g.books) && Numbered(b, g)
    ensures Sound(Extended(g, r).books) && Numbered(b, Extended(g, r))
  {
    hide Decide, Sound, Build, Extended;
    BuildKeepsSound(g.books, r);
    ExtendedBy(g, r);
  }

  lemma StillSkippedOnly(b: Books, before: seq<ProId>, order: seq<ProId>, t: Terms, g: Batch, pro: ProId)
    requires SkippedOnly(b, before, t, g)
    requires forall q :: q in order <==> q in before || q == pro
    requires Decide(g.books, RequestFor(pro, t)) == Decide(b, RequestFor(pro, t))
    ensures SkippedOnly(b, order, t, Extended(g, RequestFor(pro, t)))
  {
    DecidedFor(b, RequestFor(pro, t));
    hide Decide, Build;
  }

  lemma EveryoneStands(b: Books, before: seq<ProId>, order: seq<ProId>, t: Terms, g: Batch, pro: ProId)
    requires Sound(g.books) && Numbered(b, g) && pro !in before
    requires forall q :: q in order <==> q in before || q == pro
    requires forall q :: Stands(b, t, g, q, q in before)
    ensures forall q :: Stands(b, t, Extended(g, RequestFor(pro, t)), q, q in order)
  {
    forall q: ProId ensures Stands(b, t, Extended(g, RequestFor(pro, t)), q, q in order) {
      assert Stands(b, t, g, q, q in before);
      if q == pro {
        AskedStands(b, t, g, pro);
      } else {
        hide Sound, Stands, Numbered;
        OthersStand(b, t, g, RequestFor(pro, t), q, q in before);
      }
    }
  }

  lemma {:induction false} GenerateProgresses(b: Books, order: seq<ProId>, t: Terms)
    requires Sound(b) && Distinct(order)
    ensures Progressed(b, order, t, Generate(b, order, t))
  {
    if order == [] {
      forall pro: ProId ensures Undisturbed(b, b, pro) {}
    } else {
      var n := |order| - 1;
      var before, pro := order[..n], order[n];
      NotBefore(order);
      GenerateProgresses(b, before, t);
      var g := Generate(b, before, t);
      assert Stands(b, t, g, pro, pro in before);
      DecisionSeesOnlyItsPro(b, g.books, RequestFor(pro, t));
      hide Sound, Undisturbed, Swept, Decide, Build, Numbered, Stands, SkippedOnly, Extended, Distinct;
      StillNumbered(b, g, RequestFor(pro, t));
      StillSkippedOnly(b, before, order, t, g, pro);
      EveryoneStands(b, before, order, t, g, pro);
    }
  }

  lemma NotBefore(order: seq<ProId>)
    requires order != [] && Distinct(order)
    ensures var n := |order| - 1;
            Distinct(order[..n]) && order[n] !in order[..n]
            && forall q :: q in order <==> q in order[..n] || q == order[n]
  {
    var n := |order| - 1;
    assert order == order[..n] + [order[n]];
  }

  // ---- the two promises ----

  /** A Pro with a batchable row who exists is drafted for or skipped, never passed over. */
  lemma CandidatesAreDecided(b: Books, pro: ProId, t: Terms)
    requires AnyBatchable(b.commissions, pro, t.cutoff) && pro in t.accounts
    ensures !Decide(b, RequestFor(pro, t)).NothingToPay?
  {
    hide Plan, Queue, CommissionTotal, IncentiveTotal, AnyBatchable, Total;
  }

  /** Every approved, unattached, unreversed row before the cutoff (in the city asked for) ends
      in exactly one new draft, or its Pro is listed as skipped and the row is as it was. */
  lemma GenerationIsComplete(b: Books, order: seq<ProId>, t: Terms, scope: Option<set<ProId>>, i: CommissionId)
    requires Sound(b) && Groups(order, b, t.cutoff, scope)
    requires forall pro :: pro in order ==> pro in t.accounts
    requires i < |b.commissions| && Batchable(b.commissions[i], b.commissions[i].pro, t.cutoff)
    requires scope.Some? ==> b.commissions[i].pro in scope.value
    ensures var g := Generate(b, order, t);
            i < |g.books.commissions|
            && (InNewDraft(b, g, g.books.commissions[i])
                || (g.books.commissions[i] == b.commissions[i]
                    && exists s :: s in g.skipped && s.pro == b.commissions[i].pro))
  {
    GenerateProgresses(b, order, t);
    var pro := b.commissions[i].pro;
    assert AnyBatchable(b.commissions, pro, t.cutoff);
    assert IsCandidate(b, pro, t.cutoff, scope);
    hide Decide, Generate, Sound, AnyBatchable;
    CandidatesAreDecided(b, pro, t);
    DecidedFor(b, RequestFor(pro, t));
    assert Stands(b, t, Generate(b, order, t), pro, true);
  }

  /** Who is left to pay after a generation: exactly the Pros it skipped. */
  lemma LeftToPay(b: Books, order: seq<ProId>, t: Terms, scope: Option<set<ProId>>, pro: ProId)
    requires Sound(b) && Groups(order, b, t.cutoff, scope)
    requires forall q :: q in order ==> q in t.accounts
    ensures var g := Generate(b, order, t);
            IsCandidate(g.books, pro, t.cutoff, scope) <==> pro in order && Decide(b, RequestFor(pro, t)).Skipped?
    ensures var g := Generate(b, order, t);
            IsCandidate(g.books, pro, t.cutoff, scope) ==>
              Decide(g.books, RequestFor(pro, t)) == Decide(b, RequestFor(pro, t))
  {
    GenerateProgresses(b, order, t);
    hide Generate, Sound;
    var g := Generate(b, order, t);
    assert Stands(b, t, g, pro, pro in order);
    assert pro in order <==> IsCandidate(b, pro, t.cutoff, scope);
    if pro in order { CandidatesAreDecided(b, pro, t); }
    if pro in order && Decide(b, RequestFor(pro, t)).Drafted? {
      SweptIsClean(b, t, g, pro);
    } else {
      DecisionSeesOnlyItsPro(b, g.books, RequestFor(pro, t));
      hide Decide;
      BatchableSame(b.commissions, g.books.commissions, pro, t.cutoff);
    }
  }

  lemma SweptIsClean(b: Books, t: Terms, g: Batch, pro: ProId)
    requires Swept(b, t, g, pro)
    ensures !AnyBatchable(g.books.commissions, pro, t.cutoff)
  {
    forall i | 0 <= i < |g.books.commissions| ensures !Batchable(g.books.commissions[i], pro, t.cutoff) {}
  }

  /** An immediate second generation, its Pros grouped in any order, drafts nothing, changes
      nothing, and skips the same Pros for the same reasons and amounts. */
  lemma GenerationIsIdempotent(b: Books, order: seq<ProId>, again: seq<ProId>, t: Terms, scope: Option<set<ProId>>)
    requires Sound(b) && Groups(order, b, t.cutoff, scope)
    requires forall pro :: pro in order ==> pro in t.accounts
    requires Groups(again, Generate(b, order, t).books, t.cutoff, scope)
    ensures var g := Generate(b, order, t); var h := Generate(g.books, again, t);
            h.books == g.books && h.created == []
            && (forall s :: s in h.skipped <==> s in g.skipped)
            && |h.skipped| == |again|
  {
    hide Sound, Decide;
    var g := Generate(b, order, t);
    forall pro ensures pro in again <==> pro in order && Decide(b, RequestFor(pro, t)).Skipped?
      ensures pro in again ==> Decide(g.books, RequestFor(pro, t)) == Decide(b, RequestFor(pro, t))
    {
      LeftToPay(b, order, t, scope, pro);
    }
    SkipsAll(g.books, again, t);
    GenerateProgresses(b, order, t);
    var h := Generate(g.books, again, t);
    forall s ensures s in h.skipped <==> s in g.skipped {
      if s in g.skipped { assert s.pro in again; }
      if s in h.skipped {
        var pro :| pro in again && Decide(g.books, RequestFor(pro, t)) == Skipped(s);
        assert Stands(b, t, g, pro, true);
      }
    }
  }

  lemma {:induction false} SkipsAll(b: Books, order: seq<ProId>, t: Terms)
    requires forall pro :: pro in order ==> Decide(b, RequestFor(pro, t)).Skipped?
    ensures var h := Generate(b, order, t);
            h.books == b && h.created == [] && |h.skipped| == |order|
            && (forall pro :: pro in order ==> Decide(b, RequestFor(pro, t)).skip in h.skipped)
            && (forall s :: s in h.skipped ==>
                  exists pro :: pro in order && Decide(b, RequestFor(pro, t)) == Skipped(s))
  {
    hide Decide;
    if order != [] {
      var n := |order| - 1;
      forall pro | pro in order[..n] ensures pro in order {}
      SkipsAll(b, order[..n], t);
      var done := Generate(b, order[..n], t);
      var h := Generate(b, order, t);
      var s := Decide(b, RequestFor(order[n], t)).skip;
      assert h.skipped == done.skipped + [s];
      forall pro | pro in order ensures Decide(b, RequestFor(pro, t)).skip in h.skipped {
        assert order == order[..n] + [order[n]];
      }
      forall x | x in h.skipped ensures exists pro :: pro in order && Decide(b, RequestFor(pro, t)) == Skipped(x) {
        if x in done.skipped {
          var pro :| pro in order[..n] && Decide(b, RequestFor(pro, t)) == Skipped(x);
          assert pro in order;
        } else {
          assert order[n] in order;
        }
      }
    }
  }
}
