/** The orders collection: the order record, the `findOne` lookup by embedded
    session id, and the rule that no two orders embed the same session id. */
module Orders {
  import opened Js
  import opened Checkout

  /** An order: the listing, a copy of the paid session, and the buyer.
      The collection's timestamps are not modelled. */
  datatype Order = Order(hotel: string, session: Session, orderedBy: string)

  /** How many orders embed a session with id `sid`. */
  function SessionCount(orders: seq<Order>, sid: string): nat
  {
    if |orders| == 0 then 0
    else SessionCount(orders[..|orders| - 1], sid) + (if orders[|orders| - 1].session.id == sid then 1 else 0)
  }

  /** The collection's invariant, by counting. */
  ghost predicate AtMostOnePerSession(orders: seq<Order>)
  {
    forall sid :: SessionCount(orders, sid) <= 1
  }

  /** The same invariant, pairwise. */
  ghost predicate DistinctSessionIds(orders: seq<Order>)
  {
    forall i, j :: 0 <= i < j < |orders| ==> orders[i].session.id != orders[j].session.id
  }

  /** `Order.findOne({"session.id": sid})`: the position of the first order
      whose embedded session has id `sid`, if any. */
  function FindBySession(orders: seq<Order>, sid: string): (r: Option<nat>)
    ensures r.Some? ==> r.value < |orders| && orders[r.value].session.id == sid
    ensures r.Some? ==> forall j :: 0 <= j < r.value ==> orders[j].session.id != sid
    ensures r.None? <==> forall j :: 0 <= j < |orders| ==> orders[j].session.id != sid
  {
    if |orders| == 0 then None
    else if orders[0].session.id == sid then Some(0)
    else match FindBySession(orders[1..], sid)
      case None => None
      case Some(i) => Some(i + 1)
  }

  lemma CountAppend(orders: seq<Order>, o: Order, sid: string)
    ensures SessionCount(orders + [o], sid) == SessionCount(orders, sid) + (if o.session.id == sid then 1 else 0)
  {
  }

  lemma {:induction false} CountZeroWhenAbsent(orders: seq<Order>, sid: string)
    requires forall j :: 0 <= j < |orders| ==> orders[j].session.id != sid
    ensures SessionCount(orders, sid) == 0
  {
    if |orders| > 0 {
      CountZeroWhenAbsent(orders[..|orders| - 1], sid);
    }
  }

  lemma {:induction false} CountPositiveWhenPresent(orders: seq<Order>, i: nat)
    requires i < |orders|
    ensures SessionCount(orders, orders[i].session.id) >= 1
  {
    var n := |orders|;
    if i < n - 1 {
      CountPositiveWhenPresent(orders[..n - 1], i);
    }
  }

  lemma {:induction false} CountAtLeastTwo(orders: seq<Order>, i: nat, j: nat)
    requires i < j < |orders| && orders[i].session.id == orders[j].session.id
    ensures SessionCount(orders, orders[i].session.id) >= 2
  {
    var n := |orders|;
    if j == n - 1 {
      CountPositiveWhenPresent(orders[..n - 1], i);
    } else {
      CountAtLeastTwo(orders[..n - 1], i, j);
    }
  }

  lemma {:induction false} DistinctHasAtMostOne(orders: seq<Order>)
    requires DistinctSessionIds(orders)
    ensures AtMostOnePerSession(orders)
  {
    var n := |orders|;
    if n > 0 {
      var prefix := orders[..n - 1];
      DistinctHasAtMostOne(prefix);
      forall sid ensures SessionCount(orders, sid) <= 1 {
        if orders[n - 1].session.id == sid {
          CountZeroWhenAbsent(prefix, sid);
        }
      }
    }
  }

  /** Counting and pairwise distinctness state the same invariant. */
  lemma AtMostOneIffDistinct(orders: seq<Order>)
    ensures AtMostOnePerSession(orders) <==> DistinctSessionIds(orders)
  {
    if AtMostOnePerSession(orders) {
      forall i, j | 0 <= i < j < |orders| ensures orders[i].session.id != orders[j].session.id {
        if orders[i].session.id == orders[j].session.id {
          CountAtLeastTwo(orders, i, j);
        }
      }
    }
    if DistinctSessionIds(orders) {
      DistinctHasAtMostOne(orders);
    }
  }

  /** Appending an order whose session id `findOne` does not find keeps the invariant. */
  lemma AppendUnmatchedKeepsAtMostOne(orders: seq<Order>, o: Order)
    requires AtMostOnePerSession(orders)
    requires FindBySession(orders, o.session.id).None?
    ensures AtMostOnePerSession(orders + [o])
  {
    forall sid ensures SessionCount(orders + [o], sid) <= 1 {
      CountAppend(orders, o, sid);
      if o.session.id == sid {
        CountZeroWhenAbsent(orders, sid);
      }
    }
  }
}
