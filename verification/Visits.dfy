/** Visiting all of a map in an order that nobody chooses. */
module Visits {
  import opened Wrappers
  import opened Frames
  import opened ConnectionSpec
  import opened Runs

  lemma {:induction false} Enumerate(ids: set<StreamId>) returns (order: seq<StreamId>)
    ensures IsOrder(order, ids)
    decreases ids
  {
    if ids == {} {
      order := [];
    } else {
      var id :| id in ids;
      var rest := Enumerate(ids - {id});
      OrderGrows(rest, ids - {id}, id);
      assert ids - {id} + {id} == ids;
      order := rest + [id];
    }
  }

  lemma OrderGrows(order: seq<StreamId>, ids: set<StreamId>, id: StreamId)
    requires IsOrder(order, ids) && id !in ids
    ensures IsOrder(order + [id], ids + {id})
  {
    var order' := order + [id];
    forall x ensures x in order' <==> x in order || x == id {}
  }

  lemma OrderJoins(a: seq<StreamId>, b: seq<StreamId>, ids: set<StreamId>, more: set<StreamId>)
    requires IsOrder(a, ids) && IsOrder(b, more) && ids !! more
    ensures IsOrder(a + b, ids + more)
  {
    var order := a + b;
    forall x ensures x in order <==> x in a || x in b {}
    forall i, j | 0 <= i < j < |order| ensures order[i] != order[j] {
      assert order[i] in ids || order[i] in more;
      if i < |a| <= j {
        assert order[i] in a && order[j] in b;
      }
    }
  }

  lemma DrainAllNext(c: Connection, order: seq<StreamId>, id: StreamId)
    ensures DrainAll(c, order + [id]) ==
            match DrainAll(c, order)
            case Ok(c1) => DrainOne(c1, id)
            case Crash(kind) => Crash(kind)
  {
    assert (order + [id])[..|order|] == order;
    hide DrainOne;
  }

  lemma {:induction false} DrainAllStops(c: Connection, order: seq<StreamId>, rest: seq<StreamId>)
    requires DrainAll(c, order).Crash?
    ensures DrainAll(c, order + rest) == DrainAll(c, order)
    decreases rest
  {
    hide DrainOne;
    if rest == [] {
      assert order + rest == order;
    } else {
      var init, last := rest[..|rest| - 1], rest[|rest| - 1];
      DrainAllStops(c, order, init);
      DrainAllNext(c, order + init, last);
      assert (order + init) + [last] == order + rest;
    }
  }

  /** A visit that a panic cut short, as part of a visit of the whole map. */
  lemma CompleteOrder(c: Connection, order: seq<StreamId>, ids: set<StreamId>, left: set<StreamId>)
      returns (full: seq<StreamId>)
    requires left <= ids && IsOrder(order, ids - left) && DrainAll(c, order).Crash?
    ensures IsOrder(full, ids) && DrainAll(c, full) == DrainAll(c, order)
  {
    hide DrainAll, IsOrder;
    var rest := Enumerate(left);
    DrainAllStops(c, order, rest);
    OrderJoins(order, rest, ids - left, left);
    assert ids - left + left == ids;
    full := order + rest;
  }

  lemma NothingVisited(c: Connection, ids: set<StreamId>)
    ensures DrainAll(c, []) == Ok(c) && IsOrder([], ids - ids)
  {
  }

  lemma VisitNext(order: seq<StreamId>, ids: set<StreamId>, left: set<StreamId>, id: StreamId)
    requires id in left && left <= ids && IsOrder(order, ids - left)
    ensures IsOrder(order + [id], ids - (left - {id}))
  {
    hide IsOrder;
    OrderGrows(order, ids - left, id);
    assert ids - left + {id} == ids - (left - {id});
  }

  lemma FindNext(c: Connection, path: string, order: seq<StreamId>, id: StreamId)
    requires WellFormed(c)
    ensures FindPromised(c, path, order + [id]) ==
            if id in c.cache && Promises(c.store[c.cache[id]], path) then Some(id) else FindPromised(c, path, order)
  {
    assert (order + [id])[..|order|] == order;
  }
}
