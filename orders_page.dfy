/**
  The customer's order list (frontend/src/pages/Orders.js): the orders loaded
  from GET /api/orders, the four-step progress shown for each, and the Cancel
  button, offered only for a pending order, that marks the order cancelled
  locally once DELETE /api/orders/<id>/cancel succeeds.
*/
module OrdersPage {
  import opened Common
  import opened Models
  import opened Db
  import opened ClientData
  import opened ApiClient
  import opened OrderRoutes

  /** The progress steps, in order. */
  const Steps: seq<string> := ["Pending", "Confirmed", "Shipped", "Delivered"]

  /** `order.status || "Pending"` */
  function DisplayStatus(status: string): (r: string)
    ensures status != "" ==> r == status
    ensures status == "" ==> r == "Pending"
  {
    OrElse(status, "Pending")
  }

  /** getStepIndex: the step's position, or 0 (the first step) for a status that is no step. */
  function StepIndex(status: string): (r: nat)
    ensures r < |Steps|
    ensures status in Steps ==> Steps[r] == status
    ensures status !in Steps ==> r == 0
  {
    if status == "Confirmed" then 1
    else if status == "Shipped" then 2
    else if status == "Delivered" then 3
    else 0
  }

  /** The step circle is ticked. */
  predicate StepDone(i: nat, status: string) {
    i <= StepIndex(DisplayStatus(status))
  }

  /** The connector after step i is filled. */
  predicate ConnectorFilled(i: nat, status: string) {
    i < StepIndex(DisplayStatus(status))
  }

  /** The progress is drawn for every status but "Cancelled". */
  predicate ShowsProgress(status: string) {
    DisplayStatus(status) != "Cancelled"
  }

  /** canCancel */
  predicate CanCancel(status: string) {
    DisplayStatus(status) == "Pending"
  }

  /**
    The ticked steps are a prefix of the steps that ends at the order's own
    status, and a connector is filled exactly between two ticked steps.
  */
  lemma ProgressIsPrefix(status: string, i: nat, j: nat)
    requires i <= j < |Steps|
    ensures StepDone(j, status) ==> StepDone(i, status)
    ensures StepDone(0, status)
    ensures DisplayStatus(status) in Steps ==> (StepDone(j, status) <==> j <= StepIndex(DisplayStatus(status)))
    ensures ConnectorFilled(i, status) <==> StepDone(i + 1, status)
    ensures status !in Steps && status != "" ==> !StepDone(1, status)
  {
  }

  /** The order with this id, marked cancelled; the other orders as they were. */
  function CancelledIn(id: int): OrderSummary -> OrderSummary {
    (s: OrderSummary) => if s.id == id then s.(status := "Cancelled") else s
  }

  /** `prev.map(o => o.id === orderId ? { ...o, status: "Cancelled" } : o)` */
  function MarkCancelled(orders: seq<OrderSummary>, id: int): (r: seq<OrderSummary>)
    ensures |r| == |orders|
    ensures forall i :: 0 <= i < |orders| ==> r[i] == CancelledIn(id)(orders[i])
  {
    seq(|orders|, i requires 0 <= i < |orders| => CancelledIn(id)(orders[i]))
  }

  class Page {
    var orders: seq<OrderSummary>
    var loading: bool
    var refreshing: bool
    var cancelLoadingId: Option<int>

    constructor ()
      ensures orders == [] && loading && !refreshing && cancelLoadingId.None?
    {
      orders, loading, refreshing, cancelLoadingId := [], true, false, None;
    }

    /** fetchOrders: an array body replaces the orders and any other body empties them; a failure keeps them and alerts. */
    method FetchOrders(outcome: Fetch<Json<OrderSummary>>) returns (alert: Option<string>)
      modifies this
      ensures !loading && !refreshing && cancelLoadingId == old(cancelLoadingId)
      ensures outcome.Fetched? ==> orders == ArrayOr(outcome.body) && alert.None?
      ensures outcome.FetchFailed? ==> orders == old(orders) && alert == Some("Failed to load orders")
    {
      match outcome {
        case Fetched(data) =>
          orders := ArrayOr(data);
          alert := None;
        case FetchFailed(_) =>
          alert := Some("Failed to load orders");
      }
      loading, refreshing := false, false;
    }

    /**
      cancelOrder: nothing without the visitor's confirmation; otherwise the
      DELETE, then on success the local mark, and on failure the reply's words
      and a silent reload of the list.
    */
    method CancelOrder(id: int, confirmed: bool, outcome: Option<Failure>, reload: Fetch<Json<OrderSummary>>)
      returns (path: Option<string>, alerts: seq<string>)
      modifies this
      ensures !confirmed ==> path.None? && alerts == [] && orders == old(orders)
      ensures !confirmed ==> cancelLoadingId == old(cancelLoadingId) && loading == old(loading) && refreshing == old(refreshing)
      ensures confirmed ==> path == Some("/orders/" + IntToString(id) + "/cancel") && cancelLoadingId.None?
      ensures confirmed && outcome.None? ==> orders == MarkCancelled(old(orders), id) && alerts == ["Order cancelled"]
      ensures confirmed && outcome.None? ==> loading == old(loading) && refreshing == old(refreshing)
      ensures confirmed && outcome.Some? ==>
        alerts == [MessageOrError(outcome.value, "Failed to cancel order")] + (if reload.FetchFailed? then ["Failed to load orders"] else [])
      ensures confirmed && outcome.Some? ==> orders == (if reload.Fetched? then ArrayOr(reload.body) else old(orders))
      ensures confirmed && outcome.Some? ==> !loading && !refreshing
    {
      if !confirmed {
        return None, [];
      }
      cancelLoadingId := Some(id);
      path := Some("/orders/" + IntToString(id) + "/cancel");
      if outcome.None? {
        orders := MarkCancelled(orders, id);
        alerts := ["Order cancelled"];
      } else {
        alerts := [MessageOrError(outcome.value, "Failed to cancel order")];
        var more := FetchOrders(reload);
        if more.Some? {
          alerts := alerts + [more.value];
        }
      }
      cancelLoadingId := None;
    }
  }

  // ---------------------------------------------------------------
  // The page against the orders endpoints
  // ---------------------------------------------------------------

  lemma {:induction false} FilterRestatus(os: seq<Order>, id: int, status: string, u: int)
    ensures Filter(Restatus(os, id, status), OfUser(u)) == Restatus(Filter(os, OfUser(u)), id, status)
  {
    if os != [] {
      FilterRestatus(os[1..], id, status, u);
      assert Restatus(os, id, status)[1..] == Restatus(os[1..], id, status);
      var x := os[0];
      if x.userId == u {
        assert Restatus([x] + Filter(os[1..], OfUser(u)), id, status) ==
          [Restatus(os, id, status)[0]] + Restatus(Filter(os[1..], OfUser(u)), id, status);
      }
    }
  }

  /** Marking the stored order cancelled marks its row of the history. */
  lemma HistoryOfCancelled(t: Tables, t': Tables, u: int, id: int)
    requires t'.orders == Restatus(t.orders, id, "Cancelled")
    ensures OrderHistoryOn(t', u) == MarkCancelled(OrderHistoryOn(t, u), id)
  {
    FilterRestatus(t.orders, id, "Cancelled", u);
    var mine := Filter(t.orders, OfUser(u));
    var r, r' := OrderHistoryOn(t, u), OrderHistoryOn(t', u);
    forall i | 0 <= i < |r|
      ensures r'[i] == CancelledIn(id)(r[i])
    {
      CancelledRow(mine, id, i);
    }
  }

  /** Row i of the newest-first list, after and before the restatus. */
  lemma CancelledRow(mine: seq<Order>, id: int, i: nat)
    requires i < |mine|
    ensures SummaryOf(Reversed(Restatus(mine, id, "Cancelled"))[i]) == CancelledIn(id)(SummaryOf(Reversed(mine)[i]))
  {
    var j := |mine| - 1 - i;
    var o := mine[j];
    assert Reversed(mine)[i] == o;
    assert Reversed(Restatus(mine, id, "Cancelled"))[i] == Restatus(mine, id, "Cancelled")[j];
  }

  /**
    After DELETE /api/orders/<id>/cancel succeeds, the list the page keeps by
    marking the order itself is the list GET /api/orders would now return.
  */
  lemma CancelAgreesWithServer(t: Tables, u: int, id: int)
    requires Valid(t)
    requires CancelOrderOn(t, u, id).1.Ok?
    ensures OrderHistoryOn(CancelOrderOn(t, u, id).0, u) == MarkCancelled(OrderHistoryOn(t, u), id)
  {
    var k := OwnOrderIndex(t.orders, id, u).value;
    var t' := CancelOrderOn(t, u, id).0;
    RestatusAtIndex(t.orders, k, "Cancelled");
    HistoryOfCancelled(t, t', u, id);
  }

  /**
    For an order the list shows with a non-empty status, the server cancels it
    exactly when the page offers the Cancel button; an empty status shows as
    "Pending" and offers the button, and the server refuses it.
  */
  lemma CancelButtonMatchesServer(t: Tables, u: int, s: OrderSummary)
    requires Valid(t)
    requires s in OrderHistoryOn(t, u)
    ensures CancelOrderOn(t, u, s.id).1.Ok? <==> s.status == "Pending"
    ensures s.status != "" ==> (CanCancel(s.status) <==> CancelOrderOn(t, u, s.id).1.Ok?)
  {
    OrderHistoryIsUsersOrders(t, u);
    var o :| o in t.orders && o.userId == u && s == SummaryOf(o);
    var j :| 0 <= j < |t.orders| && t.orders[j] == o;
    assert OwnOrderIndex(t.orders, o.id, u).Some?;
  }
}
