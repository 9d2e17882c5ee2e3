/** Where dispatch looks for somebody to send: the area, its neighbours, then the whole city. */
module DispatchLadder {
  import opened Wrappers

  type ProId = nat

  datatype Tier = Area | Neighbouring | City

  /** Who is posted where, for a booking that has an area. `None` means nobody is posted. */
  datatype Postings = Postings(inArea: Option<set<ProId>>, hasNeighbours: bool, nearby: Option<set<ProId>>)

  datatype Search = Search(ids: Option<set<ProId>>, tier: Tier)

  /** `findEligiblePros` over the Pros of the city who hold the service, are approved and on
      duty. Both restrictions are conditions on the one `id` column, and the second written
      replaces the first: with `restrict` given, `exclude` is not applied. */
  function FindEligible(pool: set<ProId>, exclude: set<ProId>, restrict: Option<set<ProId>>): set<ProId> {
    match restrict
    case None => pool - exclude
    case Some(ids) => pool * ids
  }

  predicate AnyEligible(pool: set<ProId>, exclude: set<ProId>, ids: Option<set<ProId>>) {
    ids.Some? && ids.value != {} && FindEligible(pool, exclude, ids) != {}
  }

  function WidenUntilFound(area: Option<Postings>, pool: set<ProId>, exclude: set<ProId>, allowWiden: bool): Search {
    if area == None || area.value.inArea == None then Search(None, City)
    else
      var inArea := area.value.inArea;
      if AnyEligible(pool, exclude, inArea) then Search(inArea, Area)
      else if !allowWiden then Search(inArea, Area)
      else if area.value.hasNeighbours && AnyEligible(pool, exclude, area.value.nearby)
      then Search(area.value.nearby, Neighbouring)
      else Search(None, City)
  }

  /** The Pros an attempt goes on to score; none is reported as `no_supply`. */
  function PoolFor(area: Option<Postings>, pool: set<ProId>, exclude: set<ProId>, allowWiden: bool): set<ProId> {
    FindEligible(pool, exclude, WidenUntilFound(area, pool, exclude, allowWiden).ids)
  }

  /** The rungs a booking's ladder has, nearest first. */
  function Rungs(area: Option<Postings>): seq<Search> {
    if area == None || area.value.inArea == None then [Search(None, City)]
    else
      [Search(area.value.inArea, Area)]
      + (if area.value.hasNeighbours && area.value.nearby.Some? then [Search(area.value.nearby, Neighbouring)] else [])
      + [Search(None, City)]
  }

  /** With widening allowed the rung used is the first with anybody on it, or the last. */
  lemma FirstRungWithAnyone(area: Option<Postings>, pool: set<ProId>, exclude: set<ProId>)
    ensures var rungs := Rungs(area);
            exists k :: 0 <= k < |rungs| && WidenUntilFound(area, pool, exclude, true) == rungs[k]
              && (forall j :: 0 <= j < k ==> FindEligible(pool, exclude, rungs[j].ids) == {})
              && (k < |rungs| - 1 ==> FindEligible(pool, exclude, rungs[k].ids) != {})
  {
    var rungs := Rungs(area);
    var found := WidenUntilFound(area, pool, exclude, true);
    var k := if found.tier == Area then 0 else if found.tier == Neighbouring then 1 else |rungs| - 1;
    assert rungs[k] == found;
    forall j | 0 <= j < k ensures FindEligible(pool, exclude, rungs[j].ids) == {} {
      assert rungs[j].ids.Some?;
    }
  }

  /** Somebody posted on the ladder is in the pool at all. */
  predicate PostedAndWorking(area: Option<Postings>, pool: set<ProId>) {
    area.Some? && area.value.inArea.Some?
    && (pool * area.value.inArea.value != {}
        || (area.value.hasNeighbours && area.value.nearby.Some? && pool * area.value.nearby.value != {}))
  }

  /** With widening allowed, an empty pool is reported exactly when the whole city, less those
      barred, is empty, but for bookings where everyone in the city is barred and somebody
      posted nearby is offered the job regardless. */
  lemma NoSupplyMeansAnEmptyCity(area: Option<Postings>, pool: set<ProId>, exclude: set<ProId>)
    ensures (PoolFor(area, pool, exclude, true) == {} <==> pool - exclude == {})
            <==> !(pool <= exclude && PostedAndWorking(area, pool))
  {
    assert pool <= exclude || pool - exclude != {} by {
      if x :| x in pool && x !in exclude { assert x in pool - exclude; }
    }
    if area.Some? && area.value.inArea.Some? {
      if area.value.nearby.Some? && pool * area.value.nearby.value != {} { assert area.value.nearby.value != {}; }
      if pool * area.value.inArea.value != {} { assert area.value.inArea.value != {}; }
    }
  }

  /** Who is posted and who works decide whether the barred are kept out: always where the
      booking has no staffed area; else exactly when those working in the area, or, with nobody
      there and widening allowed, those working nearby, include none of the barred. */
  lemma BarredStayOut(area: Option<Postings>, pool: set<ProId>, exclude: set<ProId>, allowWiden: bool)
    ensures PoolFor(area, pool, exclude, allowWiden) !! exclude
            <==> (area.Some? && area.value.inArea.Some? ==>
                    var p := area.value; var here := pool * p.inArea.value;
                    if here != {} || !allowWiden then here !! exclude
                    else p.hasNeighbours && p.nearby.Some? ==> pool * p.nearby.value !! exclude)
  {
    if area.Some? && area.value.inArea.Some? {
      var p := area.value;
      if pool * p.inArea.value != {} { assert p.inArea.value != {}; }
      if p.nearby.Some? && pool * p.nearby.value != {} { assert p.nearby.value != {}; }
    }
  }

  /** A booking in a staffed area whose only free Pro is barred is offered to that Pro. */
  lemma BarredProIsOffered(pro: ProId, allowWiden: bool)
    ensures PoolFor(Some(Postings(Some({pro}), false, None)), {pro}, {pro}, allowWiden) == {pro}
  {
    assert {pro} * {pro} == {pro};
  }

  /** Without widening, a staffed area is a fence: nobody outside it is ever considered. */
  lemma StrictAreaIsAFence(p: Postings, pool: set<ProId>, exclude: set<ProId>)
    requires p.inArea.Some?
    ensures PoolFor(Some(p), pool, exclude, false) == pool * p.inArea.value
    ensures WidenUntilFound(Some(p), pool, exclude, false).tier == Area
  {
  }
}
