/**
 * The state of src/screens/UserFoodItemsScreen.js: the menu list with a
 * per-item stepper quantity, and the cart it adds to. The fetched server
 * list is an input.
 */
module UserFoodItemsScreen {
  import opened Wrappers
  import opened Seqs
  import opened Cart

  /** Strict equality of the flag with the number 1; a boolean `true` does not pass. */
  function IsAvailable(item: FoodItem): bool
  {
    item.available == Num(1)
  }

  function ZeroQuantity(item: FoodItem): FoodItem
  {
    item.(quantity := 0)
  }

  /** `fetchFoodItems`: keep the available items, then start each at quantity 0. */
  function Fetched(data: seq<FoodItem>): seq<FoodItem>
  {
    Map(Filter(data, IsAvailable), ZeroQuantity)
  }

  /** The focus reset: every quantity back to 0. */
  function ResetQuantities(items: seq<FoodItem>): seq<FoodItem>
  {
    Map(items, ZeroQuantity)
  }

  /**
   * The fetched menu holds exactly the server items with a flag equal to the number 1,
   * in server order, each at quantity 0; it is the same as zeroing first and
   * filtering afterwards.
   */
  lemma FetchedIsAvailableAtZero(data: seq<FoodItem>)
    ensures Fetched(data) == Filter(ResetQuantities(data), IsAvailable)
    ensures forall x :: x in Fetched(data) ==> x.quantity == 0 && x.available == Num(1)
    ensures forall y :: y in data && IsAvailable(y) ==> ZeroQuantity(y) in Fetched(data)
    ensures forall i :: 0 <= i < |Fetched(data)| ==> Fetched(data)[i] == ZeroQuantity(Filter(data, IsAvailable)[i])
  {
    FilterMapCommute(data, ZeroQuantity, IsAvailable, IsAvailable);
    FilterMembership(data, IsAvailable);
    forall y | y in data && IsAvailable(y) ensures ZeroQuantity(y) in Fetched(data) {
      var f := Filter(data, IsAvailable);
      var i :| 0 <= i < |f| && f[i] == y;
      assert Fetched(data)[i] == ZeroQuantity(y);
    }
  }

  /** The focus reset zeroes every quantity and keeps the other fields and the order. */
  lemma ResetKeepsEverythingElse(items: seq<FoodItem>)
    ensures |ResetQuantities(items)| == |items|
    ensures forall i :: 0 <= i < |items| ==>
      ResetQuantities(items)[i].quantity == 0 && ResetQuantities(items)[i].(quantity := items[i].quantity) == items[i]
  {
  }

  /** The stepper step: the new quantity, clamped below at 0. */
  function ClampedStep(q: int, increment: int): (r: int)
    ensures r >= 0
    ensures r >= q + increment
    ensures r == 0 || r == q + increment
  {
    if q + increment > 0 then q + increment else 0
  }

  function StepOf(id: int, increment: int): FoodItem -> FoodItem
  {
    (x: FoodItem) => if x.id == id then x.(quantity := ClampedStep(x.quantity, increment)) else x
  }

  /** The list update of the stepper. */
  function Stepped(items: seq<FoodItem>, id: int, increment: int): seq<FoodItem>
  {
    Map(items, StepOf(id, increment))
  }

  /**
   * The stepper changes only the quantity of the items with that id, to
   * max(0, q + increment); a list without negative quantities keeps none.
   */
  lemma StepTouchesOnlyThatItem(items: seq<FoodItem>, id: int, increment: int)
    ensures |Stepped(items, id, increment)| == |items|
    ensures forall i :: 0 <= i < |items| ==>
      Stepped(items, id, increment)[i].quantity
        == (if items[i].id == id then ClampedStep(items[i].quantity, increment) else items[i].quantity)
    ensures forall i :: 0 <= i < |items| ==>
      Stepped(items, id, increment)[i].(quantity := items[i].quantity) == items[i]
    ensures (forall i :: 0 <= i < |items| ==> items[i].quantity >= 0) ==>
      forall i :: 0 <= i < |items| ==> Stepped(items, id, increment)[i].quantity >= 0
  {
  }

  /** The cart badge: hidden for an empty cart, otherwise the sum of the cart quantities. */
  function CartBadge(cart: seq<FoodItem>): (badge: Option<int>)
    ensures badge.None? <==> cart == []
    ensures badge.Some? ==> badge.value == QuantitySum(cart)
  {
    if |cart| > 0 then Some(QuantitySum(cart)) else None
  }

  /** Adding an item to the cart raises the badge by the incoming quantity and shows it. */
  lemma BadgeAfterAdd(cart: seq<FoodItem>, item: FoodItem)
    ensures CartBadge(Added(cart, item)) == Some(QuantitySum(cart) + item.quantity)
  {
    AddRaisesQuantitySum(cart, item);
    if IndexOf(cart, item.id) < 0 {
      assert |Added(cart, item)| == |cart| + 1;
    }
  }

  class Screen {
    var foodItems: seq<FoodItem>
    const cart: CartStore

    constructor (cart: CartStore)
      ensures this.cart == cart && foodItems == []
    {
      this.cart := cart;
      foodItems := [];
    }

    /** `fetchFoodItems`: a successful fetch replaces the list; a failed one leaves it. */
    method FetchFoodItems(reply: Option<seq<FoodItem>>)
      modifies this
      ensures reply.Some? ==> foodItems == Fetched(reply.value)
      ensures reply.None? ==> foodItems == old(foodItems)
      ensures reply.Some? ==> forall x :: x in foodItems ==> x.quantity == 0 && x.available == Num(1)
    {
      if reply.Some? {
        FetchedIsAvailableAtZero(reply.value);
        foodItems := Fetched(reply.value);
      }
    }

    /** The focus effect: every stepper back to 0. */
    method OnFocus()
      modifies this
      ensures foodItems == ResetQuantities(old(foodItems))
      ensures forall i :: 0 <= i < |foodItems| ==> foodItems[i].quantity == 0
    {
      foodItems := ResetQuantities(foodItems);
    }

    /**
     * `updateQuantity(id, increment)` on a displayed row: the stepper moves,
     * clamped at 0; a positive step also adds the item to the cart with the
     * increment as quantity; any other step leaves the cart alone.
     */
    method UpdateQuantity(id: int, increment: int)
      requires cart.Valid() && IndexOf(foodItems, id) >= 0
      modifies this, cart
      ensures cart.Valid()
      ensures foodItems == Stepped(old(foodItems), id, increment)
      ensures increment > 0 ==>
        cart.items == Added(old(cart.items), old(foodItems)[IndexOf(old(foodItems), id)].(quantity := increment))
      ensures increment <= 0 ==> cart.items == old(cart.items)
      ensures increment > 0 ==> QuantitySum(cart.items) == old(QuantitySum(cart.items)) + increment
      ensures PositiveQuantities(old(cart.items)) ==> PositiveQuantities(cart.items)
    {
      var item := foodItems[IndexOf(foodItems, id)];
      foodItems := Stepped(foodItems, id, increment);
      if increment > 0 {
        AddRaisesQuantitySum(cart.items, item.(quantity := increment));
        cart.AddToCart(item.(quantity := increment));
      }
    }

    /** The badge over the cart icon. */
    function Badge(): (badge: Option<int>)
      reads this, cart
      ensures badge.None? <==> cart.items == []
    {
      CartBadge(cart.items)
    }
  }
}
