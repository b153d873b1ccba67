/**
 * The cart store of src/context/CartContext.js: one session-wide list of
 * line items, replaced as a whole by each operation, and the total derived
 * from it. Prices are integer cents, so totals are exact.
 */
module Cart {
  import opened Seqs

  /**
   * A menu entry's `available` flag. The server sends a number; the staff
   * toggle stores the negation `!available`, which is a boolean.
   */
  datatype Availability = Num(n: int) | Bool(b: bool)
  {
    /** JavaScript truthiness of the flag. */
    predicate Truthy()
    {
      match this
      case Num(n) => n != 0
      case Bool(b) => b
    }
  }

  /**
   * A menu item as the server describes it, with the quantity the screens
   * attach to it; a cart line item is the same record.
   */
  datatype FoodItem = FoodItem(
    id: int,
    name: string,
    description: string,
    price: int,
    imageUrl: string,
    available: Availability,
    quantity: int)

  /** The summand of `calculateTotal` for one entry. */
  function Subtotal(item: FoodItem): int
  {
    item.price * item.quantity
  }

  /** `calculateTotal`: the left fold of price × quantity starting at 0. */
  function Total(items: seq<FoodItem>): int
  {
    Sum(items, Subtotal)
  }

  function Quantity(item: FoodItem): int
  {
    item.quantity
  }

  /** The sum of the quantities of a list of entries. */
  function QuantitySum(items: seq<FoodItem>): int
  {
    Sum(items, Quantity)
  }

  /** The first position whose entry carries `id`, or -1 when there is none. */
  function IndexOf(items: seq<FoodItem>, id: int): (k: int)
    ensures -1 <= k < |items|
    ensures k >= 0 ==> items[k].id == id && forall j :: 0 <= j < k ==> items[j].id != id
    ensures k < 0 <==> forall j :: 0 <= j < |items| ==> items[j].id != id
  {
    if items == [] then -1
    else if items[0].id == id then 0
    else
      var k := IndexOf(items[1..], id);
      if k < 0 then -1 else k + 1
  }

  /** No two entries share an id. */
  predicate DistinctIds(items: seq<FoodItem>)
  {
    forall i, j :: 0 <= i < j < |items| ==> items[i].id != items[j].id
  }

  /** Every entry has a quantity of at least one. */
  predicate PositiveQuantities(items: seq<FoodItem>)
  {
    forall i :: 0 <= i < |items| ==> items[i].quantity >= 1
  }

  /** The ids present in a list. */
  function IdSet(items: seq<FoodItem>): set<int>
  {
    set x | x in items :: x.id
  }

  /**
   * `addToCart`: merge into the first entry with the same id (its quantity
   * grows by the incoming quantity, its other fields stay), or append.
   */
  function Added(items: seq<FoodItem>, item: FoodItem): seq<FoodItem>
  {
    var k := IndexOf(items, item.id);
    if k >= 0 then items[k := items[k].(quantity := items[k].quantity + item.quantity)]
    else items + [item]
  }

  function OtherId(id: int): FoodItem -> bool
  {
    (x: FoodItem) => x.id != id
  }

  /** `removeFromCart`: every entry with that id is dropped. */
  function Removed(items: seq<FoodItem>, id: int): seq<FoodItem>
  {
    Filter(items, OtherId(id))
  }

  function SetQuantityOf(id: int, quantity: int): FoodItem -> FoodItem
  {
    (x: FoodItem) => if x.id == id then x.(quantity := quantity) else x
  }

  /** `updateQuantity`: every entry with that id takes the given quantity. */
  function WithQuantity(items: seq<FoodItem>, id: int, quantity: int): seq<FoodItem>
  {
    Map(items, SetQuantityOf(id, quantity))
  }

  /** The cart store: the `cartItems` state cell and the operations that replace it. */
  class CartStore {
    var items: seq<FoodItem>

    /** Ids stay unique: every operation preserves it and the cart starts empty. */
    ghost predicate Valid()
      reads this
    {
      DistinctIds(items)
    }

    constructor ()
      ensures Valid() && items == []
    {
      items := [];
    }

    method AddToCart(item: FoodItem)
      requires Valid()
      modifies this
      ensures Valid()
      ensures items == Added(old(items), item)
      ensures Total(items) == old(Total(items)) + AddedPrice(old(items), item) * item.quantity
      ensures PositiveQuantities(old(items)) && item.quantity >= 1 ==> PositiveQuantities(items)
    {
      AddKeepsIdsDistinct(items, item);
      AddRaisesTotal(items, item);
      if PositiveQuantities(items) && item.quantity >= 1 {
        AddKeepsPositive(items, item);
      }
      items := Added(items, item);
    }

    method RemoveFromCart(id: int)
      requires Valid()
      modifies this
      ensures Valid()
      ensures items == Removed(old(items), id)
      ensures forall x :: x in items <==> x in old(items) && x.id != id
      ensures PositiveQuantities(old(items)) ==> PositiveQuantities(items)
    {
      RemoveDropsOnlyThatId(items, id);
      if PositiveQuantities(items) {
        RemoveKeepsPositive(items, id);
      }
      items := Removed(items, id);
    }

    method UpdateQuantity(id: int, quantity: int)
      requires Valid()
      modifies this
      ensures Valid()
      ensures items == WithQuantity(old(items), id, quantity)
      ensures |items| == old(|items|) && IdSet(items) == old(IdSet(items))
      ensures PositiveQuantities(old(items)) && quantity >= 1 ==> PositiveQuantities(items)
    {
      UpdateQuantityTouchesOnlyThatId(items, id, quantity);
      if PositiveQuantities(items) && quantity >= 1 {
        UpdateKeepsPositive(items, id, quantity);
      }
      items := WithQuantity(items, id, quantity);
    }

    function CalculateTotal(): (t: int)
      reads this
      ensures items == [] ==> t == 0
      ensures forall i :: 0 <= i < |items| ==> t == Total(items[..i]) + Subtotal(items[i]) + Total(items[i + 1..])
    {
      TotalSplit(items);
      Total(items)
    }

    method ClearCart()
      requires Valid()
      modifies this
      ensures Valid() && items == [] && CalculateTotal() == 0
    {
      items := [];
    }
  }

  /** The price the total grows by per unit added: the resident entry's price when merging. */
  function AddedPrice(items: seq<FoodItem>, item: FoodItem): int
  {
    var k := IndexOf(items, item.id);
    if k >= 0 then items[k].price else item.price
  }

  /** The total splits around any one entry. */
  lemma TotalSplit(items: seq<FoodItem>)
    ensures forall i :: 0 <= i < |items| ==>
      Total(items) == Total(items[..i]) + Subtotal(items[i]) + Total(items[i + 1..])
  {
    forall i | 0 <= i < |items|
      ensures Total(items) == Total(items[..i]) + Subtotal(items[i]) + Total(items[i + 1..])
    {
      assert items == items[..i] + [items[i]] + items[i + 1..];
      SumAppend(items[..i] + [items[i]], items[i + 1..], Subtotal);
      SumAppend(items[..i], [items[i]], Subtotal);
      assert [items[i]][..0] == [];
    }
  }

  // ---- addToCart ----

  /** Adding an absent id appends the item at the end and leaves every earlier entry alone. */
  lemma AddFreshAppends(items: seq<FoodItem>, item: FoodItem)
    requires forall j :: 0 <= j < |items| ==> items[j].id != item.id
    ensures |Added(items, item)| == |items| + 1
    ensures Added(items, item)[..|items|] == items
    ensures Added(items, item)[|items|] == item
  {
  }

  /**
   * Adding a present id keeps length and positions; the first entry with
   * that id grows by the incoming quantity and keeps its other fields.
   */
  lemma AddExistingMerges(items: seq<FoodItem>, item: FoodItem, k: nat)
    requires k < |items| && items[k].id == item.id
    requires forall j :: 0 <= j < k ==> items[j].id != item.id
    ensures |Added(items, item)| == |items|
    ensures forall j :: 0 <= j < |items| && j != k ==> Added(items, item)[j] == items[j]
    ensures Added(items, item)[k].quantity == items[k].quantity + item.quantity
    ensures Added(items, item)[k].(quantity := items[k].quantity) == items[k]
  {
  }

  /** Merge-on-add keeps ids pairwise distinct. */
  lemma AddKeepsIdsDistinct(items: seq<FoodItem>, item: FoodItem)
    requires DistinctIds(items)
    ensures DistinctIds(Added(items, item))
  {
  }

  /** Adding raises the total by price × incoming quantity, the price being the resident one on a merge. */
  lemma AddRaisesTotal(items: seq<FoodItem>, item: FoodItem)
    ensures Total(Added(items, item)) == Total(items) + AddedPrice(items, item) * item.quantity
  {
    var k := IndexOf(items, item.id);
    if k >= 0 {
      var y := items[k].(quantity := items[k].quantity + item.quantity);
      SumUpdate(items, k, y, Subtotal);
      SubtotalOfMerge(items[k], item.quantity);
    } else {
      SumAppend(items, [item], Subtotal);
      assert [item][..0] == [];
    }
  }

  /** Raising an entry's quantity by `q` raises its subtotal by price × q. */
  lemma SubtotalOfMerge(x: FoodItem, q: int)
    ensures Subtotal(x.(quantity := x.quantity + q)) == Subtotal(x) + x.price * q
  {
    assert x.price * (x.quantity + q) == x.price * x.quantity + x.price * q;
  }

  /** Adding raises the sum of quantities by the incoming quantity, merge or not. */
  lemma AddRaisesQuantitySum(items: seq<FoodItem>, item: FoodItem)
    ensures QuantitySum(Added(items, item)) == QuantitySum(items) + item.quantity
  {
    var k := IndexOf(items, item.id);
    if k >= 0 {
      SumUpdate(items, k, items[k].(quantity := items[k].quantity + item.quantity), Quantity);
    } else {
      SumAppend(items, [item], Quantity);
      assert [item][..0] == [];
    }
  }

  // ---- removeFromCart ----

  /** Removal drops exactly the entries with that id and keeps the others in order. */
  lemma RemoveDropsOnlyThatId(items: seq<FoodItem>, id: int)
    ensures forall x :: x in Removed(items, id) <==> x in items && x.id != id
    ensures IsSubsequence(Removed(items, id), items)
    ensures DistinctIds(items) ==> DistinctIds(Removed(items, id))
    ensures forall x :: multiset(Removed(items, id))[x] == if x.id != id then multiset(items)[x] else 0
  {
    FilterMembership(items, OtherId(id));
    FilterCount(items, OtherId(id));
    FilterIsSubsequence(items, OtherId(id));
    if DistinctIds(items) {
      FilterKeepsDistinct(items, id);
    }
  }

  lemma {:induction false} FilterKeepsDistinct(items: seq<FoodItem>, id: int)
    requires DistinctIds(items)
    ensures DistinctIds(Removed(items, id))
    decreases |items|
  {
    if items != [] {
      FilterKeepsDistinct(items[1..], id);
      var rest := Removed(items[1..], id);
      FilterMembership(items[1..], OtherId(id));
      assert Removed(items, id) == (if items[0].id != id then [items[0]] else []) + rest;
      forall x | x in rest ensures x.id != items[0].id {
        assert x in items[1..];
      }
    }
  }

  /** Removing an absent id leaves the cart, hence its total, unchanged. */
  lemma RemoveAbsentIsNoop(items: seq<FoodItem>, id: int)
    requires IndexOf(items, id) < 0
    ensures Removed(items, id) == items
    ensures Total(Removed(items, id)) == Total(items)
  {
    forall x | x in items ensures OtherId(id)(x) {
    }
    FilterKeepsAll(items, OtherId(id));
  }

  /** Removing twice is removing once. */
  lemma RemoveIdempotent(items: seq<FoodItem>, id: int)
    ensures Removed(Removed(items, id), id) == Removed(items, id)
  {
    FilterMembership(items, OtherId(id));
    FilterKeepsAll(Removed(items, id), OtherId(id));
  }

  // ---- updateQuantity ----

  /**
   * Setting a quantity changes only the quantity of the entries with that
   * id, whatever the value, zero and negatives included: nothing is removed.
   */
  lemma UpdateQuantityTouchesOnlyThatId(items: seq<FoodItem>, id: int, quantity: int)
    ensures |WithQuantity(items, id, quantity)| == |items|
    ensures forall i :: 0 <= i < |items| ==>
      WithQuantity(items, id, quantity)[i].quantity == (if items[i].id == id then quantity else items[i].quantity)
    ensures forall i :: 0 <= i < |items| ==>
      WithQuantity(items, id, quantity)[i].(quantity := items[i].quantity) == items[i]
    ensures IdSet(WithQuantity(items, id, quantity)) == IdSet(items)
    ensures DistinctIds(items) ==> DistinctIds(WithQuantity(items, id, quantity))
  {
    var r := WithQuantity(items, id, quantity);
    forall x | x in IdSet(r) ensures x in IdSet(items) {
      var i :| 0 <= i < |r| && r[i].id == x;
      assert items[i] in items;
    }
    forall x | x in IdSet(items) ensures x in IdSet(r) {
      var i :| 0 <= i < |items| && items[i].id == x;
      assert r[i] in r;
    }
  }

  /** With distinct ids, setting the quantity of a present id rewrites that one entry. */
  lemma UpdateQuantityDistinct(items: seq<FoodItem>, id: int, quantity: int)
    requires DistinctIds(items) && IndexOf(items, id) >= 0
    ensures var k := IndexOf(items, id);
      WithQuantity(items, id, quantity) == items[k := items[k].(quantity := quantity)]
  {
  }

  /** With distinct ids, removing a present id cuts out exactly the entry `findIndex` finds. */
  lemma RemoveDistinct(items: seq<FoodItem>, id: int)
    requires DistinctIds(items) && IndexOf(items, id) >= 0
    ensures var k := IndexOf(items, id);
      Removed(items, id) == items[..k] + items[k + 1..]
  {
    var k := IndexOf(items, id);
    RemoveOnly(items[..k], items[k], items[k + 1..]);
    assert items == items[..k] + [items[k]] + items[k + 1..];
  }

  /** Removing the id of the one entry that has it, in the middle of a list. */
  lemma RemoveOnly(before: seq<FoodItem>, item: FoodItem, after: seq<FoodItem>)
    requires forall x :: x in before ==> x.id != item.id
    requires forall x :: x in after ==> x.id != item.id
    ensures Removed(before + [item] + after, item.id) == before + after
  {
    var p := OtherId(item.id);
    FilterKeepsAll(before, p);
    FilterKeepsAll(after, p);
    FilterAppend(before, [item], p);
    assert Filter([item], p) == [];
    assert Filter(before + [item], p) == before;
    FilterAppend(before + [item], after, p);
  }

  // ---- positive quantities ----

  /** An add with a positive quantity keeps every quantity positive: a merge only raises one. */
  lemma AddKeepsPositive(items: seq<FoodItem>, item: FoodItem)
    requires PositiveQuantities(items) && item.quantity >= 1
    ensures PositiveQuantities(Added(items, item))
  {
  }

  /** Removal keeps every quantity positive: the survivors are old entries. */
  lemma RemoveKeepsPositive(items: seq<FoodItem>, id: int)
    requires PositiveQuantities(items)
    ensures PositiveQuantities(Removed(items, id))
  {
    var r := Removed(items, id);
    FilterMembership(items, OtherId(id));
    forall i | 0 <= i < |r| ensures r[i].quantity >= 1 {
      assert r[i] in r;
      var j :| 0 <= j < |items| && items[j] == r[i];
    }
  }

  /** Setting a positive quantity keeps every quantity positive. */
  lemma UpdateKeepsPositive(items: seq<FoodItem>, id: int, quantity: int)
    requires PositiveQuantities(items) && quantity >= 1
    ensures PositiveQuantities(WithQuantity(items, id, quantity))
  {
  }

  /**
   * Adds with positive quantities keep every quantity positive, so every
   * cart built from empty by such adds holds no zero or negative entry.
   */
  lemma {:induction false} AddAllKeepsPositive(items: seq<FoodItem>, adds: seq<FoodItem>)
    requires PositiveQuantities(items)
    requires forall i :: 0 <= i < |adds| ==> adds[i].quantity >= 1
    ensures PositiveQuantities(AddAll(items, adds))
    decreases |adds|
  {
    if adds != [] {
      AddKeepsPositive(items, adds[0]);
      AddAllKeepsPositive(Added(items, adds[0]), adds[1..]);
    }
  }

  // ---- repeated adds ----

  /** A sequence of `addToCart` calls, in call order. */
  function AddAll(items: seq<FoodItem>, adds: seq<FoodItem>): seq<FoodItem>
    decreases |adds|
  {
    if adds == [] then items else AddAll(Added(items, adds[0]), adds[1..])
  }

  function QuantityFor(id: int): FoodItem -> int
  {
    (x: FoodItem) => if x.id == id then x.quantity else 0
  }

  /** The quantity recorded under `id`: the sum over the entries with that id. */
  function QuantityOf(items: seq<FoodItem>, id: int): int
  {
    Sum(items, QuantityFor(id))
  }

  /** An add raises the quantity under its own id by the incoming quantity and no other. */
  lemma AddQuantityOf(items: seq<FoodItem>, item: FoodItem, id: int)
    ensures QuantityOf(Added(items, item), id) == QuantityOf(items, id) + (if item.id == id then item.quantity else 0)
  {
    var k := IndexOf(items, item.id);
    if k >= 0 {
      SumUpdate(items, k, items[k].(quantity := items[k].quantity + item.quantity), QuantityFor(id));
    } else {
      SumAppend(items, [item], QuantityFor(id));
      assert [item][..0] == [];
    }
  }

  /** With distinct ids, the quantity under an id is that one entry's quantity. */
  lemma QuantityOfDistinct(items: seq<FoodItem>, k: nat)
    requires DistinctIds(items) && k < |items|
    ensures QuantityOf(items, items[k].id) == items[k].quantity
  {
    var f := QuantityFor(items[k].id);
    assert items == items[..k] + [items[k]] + items[k + 1..];
    forall x | x in items[..k] ensures f(x) == 0 {
      var j :| 0 <= j < k && items[j] == x;
    }
    forall x | x in items[k + 1..] ensures f(x) == 0 {
      var j :| 0 <= j < |items| - k - 1 && items[k + 1..][j] == x;
      assert items[k + 1 + j] == x;
    }
    SumZero(items[..k], f);
    SumZero(items[k + 1..], f);
    SumAppend(items[..k] + [items[k]], items[k + 1..], f);
    SumAppend(items[..k], [items[k]], f);
    assert [items[k]][..0] == [];
  }

  /** Repeated adds accumulate, under each id, the sum of the quantities submitted under it. */
  lemma {:induction false} AddAllQuantityOf(items: seq<FoodItem>, adds: seq<FoodItem>, id: int)
    ensures QuantityOf(AddAll(items, adds), id) == QuantityOf(items, id) + QuantityOf(adds, id)
    decreases |adds|
  {
    if adds != [] {
      AddQuantityOf(items, adds[0], id);
      AddAllQuantityOf(Added(items, adds[0]), adds[1..], id);
      SumCons(adds[0], adds[1..], QuantityFor(id));
      assert [adds[0]] + adds[1..] == adds;
    }
  }

  /** Adding introduces exactly the incoming id. */
  lemma AddIds(items: seq<FoodItem>, item: FoodItem)
    ensures IdSet(Added(items, item)) == IdSet(items) + {item.id}
  {
    var r := Added(items, item);
    var k := IndexOf(items, item.id);
    if k >= 0 {
      forall x | x in IdSet(r) ensures x in IdSet(items) + {item.id} {
        var i :| 0 <= i < |r| && r[i].id == x;
        assert items[i] in items;
      }
      forall x | x in IdSet(items) + {item.id} ensures x in IdSet(r) {
        if x == item.id {
          assert r[k] in r;
        } else {
          var i :| 0 <= i < |items| && items[i].id == x;
          assert r[i] in r;
        }
      }
    } else {
      assert r[|items|] in r;
      forall x | x in IdSet(items) ensures x in IdSet(r) {
        var i :| 0 <= i < |items| && items[i].id == x;
        assert r[i] in r;
      }
    }
  }

  lemma IdSetCons(items: seq<FoodItem>)
    requires items != []
    ensures IdSet(items) == {items[0].id} + IdSet(items[1..])
  {
    assert items == [items[0]] + items[1..];
  }

  lemma {:induction false} AddAllIds(items: seq<FoodItem>, adds: seq<FoodItem>)
    ensures IdSet(AddAll(items, adds)) == IdSet(items) + IdSet(adds)
    decreases |adds|
  {
    if adds != [] {
      AddIds(items, adds[0]);
      AddAllIds(Added(items, adds[0]), adds[1..]);
      IdSetCons(adds);
    }
  }

  lemma {:induction false} AddAllKeepsIdsDistinct(items: seq<FoodItem>, adds: seq<FoodItem>)
    requires DistinctIds(items)
    ensures DistinctIds(AddAll(items, adds))
    decreases |adds|
  {
    if adds != [] {
      AddKeepsIdsDistinct(items, adds[0]);
      AddAllKeepsIdsDistinct(Added(items, adds[0]), adds[1..]);
    }
  }

  /** With distinct ids, the number of entries is the number of distinct ids. */
  lemma {:induction false} DistinctIdsCount(items: seq<FoodItem>)
    requires DistinctIds(items)
    ensures |IdSet(items)| == |items|
    decreases |items|
  {
    if items != [] {
      DistinctIdsCount(items[1..]);
      assert items == [items[0]] + items[1..];
      assert IdSet(items) == {items[0].id} + IdSet(items[1..]);
      forall x | x in items[1..] ensures x.id != items[0].id {
        var j :| 0 <= j < |items[1..]| && items[1..][j] == x;
        assert items[j + 1] == x;
      }
    }
  }

  /**
   * Adding any sequence of items to an empty cart yields one entry per
   * distinct id submitted, each holding the sum of the quantities
   * submitted under its id.
   */
  lemma AddAllFromEmpty(adds: seq<FoodItem>)
    ensures |AddAll([], adds)| == |IdSet(adds)|
    ensures IdSet(AddAll([], adds)) == IdSet(adds)
    ensures forall k :: 0 <= k < |AddAll([], adds)| ==>
      AddAll([], adds)[k].quantity == QuantityOf(adds, AddAll([], adds)[k].id)
  {
    var r := AddAll([], adds);
    AddAllIds([], adds);
    AddAllKeepsIdsDistinct([], adds);
    assert IdSet([]) == {};
    DistinctIdsCount(r);
    forall k | 0 <= k < |r| ensures r[k].quantity == QuantityOf(adds, r[k].id) {
      QuantityOfDistinct(r, k);
      AddAllQuantityOf([], adds, r[k].id);
    }
  }
}
