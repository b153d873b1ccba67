/**
 * The handlers of src/screens/UserCartScreen.js: the +/- steppers on a cart
 * row and checkout. Checkout freezes the cart into an order snapshot, and
 * the server's reply to the submission is an input.
 */
module UserCartScreen {
  import opened Wrappers
  import opened Seqs
  import opened Text
  import opened Cart
  import opened Orders

  /** One entry of the order's item summary: the name, then " x ", then the quantity in decimal. */
  function LineText(item: FoodItem): string
  {
    item.name + " x " + IntToString(item.quantity)
  }

  /** The item summary: one line per entry, in cart order, separated by ", ". */
  function ItemsText(items: seq<FoodItem>): string
  {
    Join(Map(items, LineText), ", ")
  }

  const DEFAULT_EMAIL := "user@example.com"
  const DEFAULT_NAME := "Anonymous"
  const DEFAULT_PHONE := "0000000000"

  /** The `newOrder` object `placeOrder` builds before submitting it. */
  function Snapshot(items: seq<FoodItem>, profile: Profile): Order
  {
    Order(
      None,
      OrDefault(profile.email, DEFAULT_EMAIL),
      OrDefault(profile.name, DEFAULT_NAME),
      OrDefault(profile.phone, DEFAULT_PHONE),
      ItemsText(items),
      Total(items),
      PENDING)
  }

  /** The snapshot carries the cart total at placement, status 'pending' and no id yet. */
  lemma SnapshotFreezesCart(items: seq<FoodItem>, profile: Profile)
    ensures Snapshot(items, profile).totalAmount == Total(items)
    ensures Snapshot(items, profile).status == PENDING
    ensures Snapshot(items, profile).id == None
    ensures items == [] ==> Snapshot(items, profile).totalAmount == 0 && Snapshot(items, profile).items == ""
  {
  }

  /** Missing or empty profile fields are replaced by the fixed defaults; present ones are copied. */
  lemma SnapshotProfileDefaults(items: seq<FoodItem>, profile: Profile)
    ensures var o := Snapshot(items, profile);
      && (profile.email.None? || profile.email.value == "" ==> o.userEmail == DEFAULT_EMAIL)
      && (profile.name.None? || profile.name.value == "" ==> o.userName == DEFAULT_NAME)
      && (profile.phone.None? || profile.phone.value == "" ==> o.userPhone == DEFAULT_PHONE)
      && (profile.email.Some? && profile.email.value != "" ==> o.userEmail == profile.email.value)
      && (profile.name.Some? && profile.name.value != "" ==> o.userName == profile.name.value)
      && (profile.phone.Some? && profile.phone.value != "" ==> o.userPhone == profile.phone.value)
  {
  }

  /**
   * The summary lists "name x quantity" per entry in cart order, separated
   * by ", ": appending an entry appends its line.
   */
  lemma ItemsTextSnoc(items: seq<FoodItem>, item: FoodItem)
    ensures ItemsText(items + [item]) ==
      if items == [] then LineText(item) else ItemsText(items) + ", " + LineText(item)
  {
    MapAppend(items, [item], LineText);
    JoinSnoc(Map(items, LineText), LineText(item), ", ");
  }

  /**
   * A line is the name, then " x ", then the decimal quantity, which reads
   * back as the quantity; a negative quantity is rendered as a minus sign
   * followed by the digits of its magnitude.
   */
  lemma LineTextLayout(item: FoodItem)
    ensures var line := LineText(item); var n := |item.name|;
      && |line| > n + 3
      && line[..n] == item.name
      && line[n..n + 3] == " x "
      && line[n + 3..] == IntToString(item.quantity)
      && (item.quantity >= 0 ==> IsDigits(line[n + 3..]) && DigitsValue(line[n + 3..]) == item.quantity)
      && (item.quantity < 0 ==>
            line[n + 3] == '-' && IsDigits(line[n + 4..]) && DigitsValue(line[n + 4..]) == -item.quantity)
  {
    var line := LineText(item);
    var n := |item.name|;
    assert line == item.name + " x " + IntToString(item.quantity);
    if item.quantity < 0 {
      assert line[n + 4..] == IntToString(item.quantity)[1..];
    }
  }

  /** `increaseQuantity`: the row's entry goes up by one. */
  method IncreaseQuantity(cart: CartStore, id: int)
    requires cart.Valid() && IndexOf(cart.items, id) >= 0
    modifies cart
    ensures cart.Valid()
    ensures var k := IndexOf(old(cart.items), id);
      cart.items == old(cart.items)[k := old(cart.items)[k].(quantity := old(cart.items)[k].quantity + 1)]
    ensures PositiveQuantities(old(cart.items)) ==> PositiveQuantities(cart.items)
  {
    var item := cart.items[IndexOf(cart.items, id)];
    UpdateQuantityDistinct(cart.items, id, item.quantity + 1);
    cart.UpdateQuantity(id, item.quantity + 1);
  }

  /**
   * `decreaseQuantity`: above one the entry goes down by one and stays;
   * at one or below it is removed, so this path never leaves a zero.
   */
  method DecreaseQuantity(cart: CartStore, id: int)
    requires cart.Valid() && IndexOf(cart.items, id) >= 0
    modifies cart
    ensures cart.Valid()
    ensures var k := IndexOf(old(cart.items), id); var q := old(cart.items)[k].quantity;
      if q > 1 then cart.items == old(cart.items)[k := old(cart.items)[k].(quantity := q - 1)]
      else cart.items == old(cart.items)[..k] + old(cart.items)[k + 1..]
    ensures forall x :: x in cart.items && x.id == id ==> x.quantity >= 1
    ensures PositiveQuantities(old(cart.items)) ==> PositiveQuantities(cart.items)
  {
    var k := IndexOf(cart.items, id);
    var item := cart.items[k];
    if item.quantity > 1 {
      UpdateQuantityDistinct(cart.items, id, item.quantity - 1);
      cart.UpdateQuantity(id, item.quantity - 1);
    } else {
      RemoveDistinct(cart.items, id);
      cart.RemoveFromCart(id);
    }
  }

  /** The server's answer to the order submission. */
  datatype PlaceReply =
    | Replied(success: bool, orderId: Option<int>)  // a response arrived; `orderId` may be missing
    | Thrown                                         // no response, a non-2xx status, or another error

  /** What the screen tells the user. */
  datatype Alert = OrderPlaced | PlaceFailed | PlaceError

  /**
   * `placeOrder`. On success with an order id the log gains the snapshot
   * carrying that id and the cart is emptied; the staff notification that
   * follows catches its own errors and changes nothing here. On an
   * unsuccessful reply or an error nothing changes. A successful reply
   * without an order id makes `orderId.toString()` throw after the order
   * was logged, so the cart is kept.
   */
  method PlaceOrder(cart: CartStore, log: OrderLog, profile: Profile, reply: PlaceReply) returns (alert: Alert)
    requires cart.Valid()
    modifies cart, log
    ensures cart.Valid()
    ensures var snapshot := Snapshot(old(cart.items), profile);
      match reply
      case Replied(true, Some(orderId)) =>
        log.orders == old(log.orders) + [snapshot.(id := Some(orderId))] && cart.items == [] && alert == OrderPlaced
      case Replied(true, None) =>
        log.orders == old(log.orders) + [snapshot] && cart.items == old(cart.items) && alert == PlaceError
      case Replied(false, _) =>
        log.orders == old(log.orders) && cart.items == old(cart.items) && alert == PlaceFailed
      case Thrown =>
        log.orders == old(log.orders) && cart.items == old(cart.items) && alert == PlaceError
  {
    var snapshot := Snapshot(cart.items, profile);
    match reply {
      case Thrown =>
        alert := PlaceError;
      case Replied(success, orderId) =>
        if !success {
          alert := PlaceFailed;
        } else {
          log.AddOrder(snapshot.(id := orderId));
          if orderId.None? {
            alert := PlaceError;
          } else {
            alert := OrderPlaced;
            cart.ClearCart();
          }
        }
    }
  }

  /** A cart of two lines totalling 1200 cents, checked out and accepted with order id 101. */
  method CheckoutAccepted()
  {
    var burger := FoodItem(1, "Burger", "", 450, "", Num(1), 2);
    var tea := FoodItem(2, "Tea", "", 300, "", Num(1), 1);
    var profile := Profile(None, Some("Ann"), None);

    var cart := new CartStore();
    var log := new OrderLog();
    cart.AddToCart(burger);
    assert cart.items == [burger];
    assert IndexOf(cart.items, tea.id) == -1;
    cart.AddToCart(tea);
    assert cart.items == [burger, tea];
    assert Total(cart.items) == 1200;
    var alert := PlaceOrder(cart, log, profile, Replied(true, Some(101)));
    assert alert == OrderPlaced && cart.items == [] && |log.orders| == 1;
    assert log.orders[0].totalAmount == 1200 && log.orders[0].status == PENDING && log.orders[0].id == Some(101);
    assert log.orders[0].userName == "Ann" && log.orders[0].userEmail == DEFAULT_EMAIL;
  }

  /** The same cart checked out and refused: the log stays empty and the cart keeps both lines. */
  method CheckoutRefused()
  {
    var burger := FoodItem(1, "Burger", "", 450, "", Num(1), 2);
    var tea := FoodItem(2, "Tea", "", 300, "", Num(1), 1);
    var profile := Profile(None, Some("Ann"), None);

    var cart := new CartStore();
    var log := new OrderLog();
    cart.AddToCart(burger);
    assert cart.items == [burger];
    assert IndexOf(cart.items, tea.id) == -1;
    cart.AddToCart(tea);
    assert cart.items == [burger, tea];
    var alert := PlaceOrder(cart, log, profile, Replied(false, None));
    assert alert == PlaceFailed && cart.items == [burger, tea] && log.orders == [];
  }
}
