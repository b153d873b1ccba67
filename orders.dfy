/**
 * The order log of src/context/OrdersContext.js, together with the order
 * and user-profile records the screens share.
 */
module Orders {
  import opened Wrappers

  /**
   * An order as the client builds it at checkout or reads it from the
   * server. `id` is absent until the server has assigned one; `totalAmount`
   * is in integer cents; `status` is the text the server stores
   * ('pending', 'accepted' or 'rejected').
   */
  datatype Order = Order(
    id: Option<int>,
    userEmail: string,
    userName: string,
    userPhone: string,
    items: string,
    totalAmount: int,
    status: string)

  const PENDING := "pending"
  const ACCEPTED := "accepted"
  const REJECTED := "rejected"

  /** The signed-in user's profile; any field may be missing. */
  datatype Profile = Profile(email: Option<string>, name: Option<string>, phone: Option<string>)

  /** A missing or empty string is replaced by the fallback (JavaScript `||` on strings). */
  function OrDefault(field: Option<string>, fallback: string): (r: string)
    ensures field.Some? && field.value != "" ==> r == field.value
    ensures field.None? || field.value == "" ==> r == fallback
  {
    if field.Some? && field.value != "" then field.value else fallback
  }

  /** The `orders` state cell: an append-only list of the orders placed this session. */
  class OrderLog {
    var orders: seq<Order>

    constructor ()
      ensures orders == []
    {
      orders := [];
    }

    /** `addOrder`: append, with no identity check. */
    method AddOrder(order: Order)
      modifies this
      ensures orders == old(orders) + [order]
      ensures |orders| == old(|orders|) + 1 && orders[|orders| - 1] == order
      ensures orders[..old(|orders|)] == old(orders)
    {
      orders := orders + [order];
    }
  }

  /** The log after `addOrder` is called with each element of `adds` in turn. */
  function AfterAdds(log: seq<Order>, adds: seq<Order>): seq<Order>
    decreases |adds|
  {
    if adds == [] then log else AfterAdds(log + [adds[0]], adds[1..])
  }

  /** Successive appends concatenate: nothing is reordered, merged or dropped. */
  lemma {:induction false} AfterAddsConcatenates(log: seq<Order>, adds: seq<Order>)
    ensures AfterAdds(log, adds) == log + adds
    decreases |adds|
  {
    if adds != [] {
      AfterAddsConcatenates(log + [adds[0]], adds[1..]);
      assert log + [adds[0]] + adds[1..] == log + adds;
    }
  }

  /**
   * N appends to an empty log give exactly the N orders in call order,
   * duplicates included, and every earlier log is a prefix of every later one.
   */
  lemma AppendsFromEmpty(adds: seq<Order>, n: nat)
    requires n <= |adds|
    ensures |AfterAdds([], adds)| == |adds|
    ensures forall i :: 0 <= i < |adds| ==> AfterAdds([], adds)[i] == adds[i]
    ensures AfterAdds([], adds[..n]) == AfterAdds([], adds)[..n]
  {
    AfterAddsConcatenates([], adds);
    AfterAddsConcatenates([], adds[..n]);
  }

  /** Adding the same order twice records it twice. */
  lemma NoDeduplication(log: seq<Order>, order: Order)
    ensures |AfterAdds(log, [order, order])| == |log| + 2
    ensures AfterAdds(log, [order, order])[|log|] == AfterAdds(log, [order, order])[|log| + 1] == order
  {
    AfterAddsConcatenates(log, [order, order]);
  }
}
