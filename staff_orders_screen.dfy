/**
 * The state of src/screens/StaffOrdersScreen.js: the full order list, the
 * displayed (searched) list and the search text. Server replies are inputs.
 */
module StaffOrdersScreen {
  import opened Wrappers
  import opened Seqs
  import opened Orders
  import opened OrderSearch

  /** The sort comparator: -1 when `a` is pending, 1 otherwise. It ignores `b`, so it is not a consistent order. */
  function Compare(a: Order, b: Order): (c: int)
    ensures c == -1 || c == 1
    ensures c < 0 <==> a.status == PENDING
  {
    if a.status == PENDING then -1 else 1
  }

  /**
   * `Array.prototype.sort` with that comparator, in place. The engine's
   * algorithm is not fixed by the language; an insertion sort stands for it,
   * and the only property claimed is that the result is a permutation.
   */
  method SortByStatus(a: array<Order>)
    modifies a
    ensures multiset(a[..]) == old(multiset(a[..]))
  {
    var i := 1;
    while i < a.Length
      invariant multiset(a[..]) == old(multiset(a[..]))
    {
      var j := i;
      while j > 0 && Compare(a[j - 1], a[j]) > 0
        invariant 0 <= j <= i < a.Length
        invariant multiset(a[..]) == old(multiset(a[..]))
      {
        a[j - 1], a[j] := a[j], a[j - 1];
        j := j - 1;
      }
      i := i + 1;
    }
  }

  function SetStatusOf(id: int, status: string): Order -> Order
  {
    (o: Order) => if o.id == Some(id) then o.(status := status) else o
  }

  /** The status update: orders carrying that id get the new status; the others stay. */
  function WithStatus(orders: seq<Order>, id: int, status: string): seq<Order>
  {
    Map(orders, SetStatusOf(id, status))
  }

  /** A status update changes only the status of the orders with that id; length and other fields stay. */
  lemma StatusUpdateTouchesOnlyStatus(orders: seq<Order>, id: int, status: string)
    ensures |WithStatus(orders, id, status)| == |orders|
    ensures forall i :: 0 <= i < |orders| ==>
      WithStatus(orders, id, status)[i].status == (if orders[i].id == Some(id) then status else orders[i].status)
    ensures forall i :: 0 <= i < |orders| ==>
      WithStatus(orders, id, status)[i].(status := orders[i].status) == orders[i]
  {
  }

  /** The actions a rendered order offers: accept and reject, for pending orders only. */
  function StatusActions(order: Order): (actions: seq<string>)
    ensures |actions| > 0 <==> order.status == PENDING
    ensures forall a :: a in actions ==> a == ACCEPTED || a == REJECTED
  {
    if order.status == PENDING then [ACCEPTED, REJECTED] else []
  }

  /** Once an offered action has been applied, the order offers no further action. */
  lemma DecidedOrderOffersNothing(orders: seq<Order>, i: nat, action: string)
    requires i < |orders| && orders[i].id.Some? && action in StatusActions(orders[i])
    ensures StatusActions(WithStatus(orders, orders[i].id.value, action)[i]) == []
  {
  }

  /** The reply to the PATCH request. */
  datatype PatchReply =
    | Status(code: int)  // the HTTP status of a resolved request
    | Failed             // the request threw

  class Screen {
    var orders: seq<Order>
    var filteredOrders: seq<Order>
    var searchTerm: string

    constructor ()
      ensures orders == [] && filteredOrders == [] && searchTerm == ""
    {
      orders, filteredOrders, searchTerm := [], [], "";
    }

    /**
     * `fetchOrders`: both lists become the sorted server list, a permutation
     * of it; the search text is not re-applied. A failed fetch changes nothing.
     */
    method FetchOrders(reply: Option<seq<Order>>)
      modifies this
      ensures reply.Some? ==> multiset(orders) == multiset(reply.value) && filteredOrders == orders
      ensures reply.None? ==> orders == old(orders) && filteredOrders == old(filteredOrders)
      ensures searchTerm == old(searchTerm)
    {
      if reply.Some? {
        var data := reply.value;
        var a := new Order[|data|](i requires 0 <= i < |data| => data[i]);
        assert a[..] == data;
        SortByStatus(a);
        orders := a[..];
        filteredOrders := a[..];
      }
    }

    /**
     * `handleOrderStatus`: an HTTP 200 reply updates the status of the orders
     * with that id in both lists; any other reply or an error changes nothing.
     */
    method HandleOrderStatus(id: int, status: string, reply: PatchReply)
      modifies this
      ensures reply == Status(200) ==>
        orders == WithStatus(old(orders), id, status) && filteredOrders == WithStatus(old(filteredOrders), id, status)
      ensures reply != Status(200) ==> orders == old(orders) && filteredOrders == old(filteredOrders)
      ensures |orders| == old(|orders|) && |filteredOrders| == old(|filteredOrders|)
      ensures searchTerm == old(searchTerm)
    {
      if reply == Status(200) {
        orders := WithStatus(orders, id, status);
        filteredOrders := WithStatus(filteredOrders, id, status);
      }
    }

    /**
     * `handleSearch`: the displayed list becomes the search of the full list,
     * whatever was displayed before.
     */
    method HandleSearch(text: string)
      modifies this
      ensures searchTerm == text && orders == old(orders)
      ensures filteredOrders == Search(orders, text)
      ensures forall o :: o in filteredOrders <==> o in orders && Matches(o, text)
      ensures text == "" ==> filteredOrders == orders
    {
      searchTerm := text;
      SearchKeepsExactlyMatches(orders, text);
      SearchEmptyTermKeepsAll(orders);
      filteredOrders := Search(orders, text);
    }
  }
}
