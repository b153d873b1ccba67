/**
 * The state of src/screens/StaffFoodItemsScreen.js: the full menu as the
 * server sends it, whose availability flags staff toggle. Server replies
 * are inputs; the request a toggle would send is an output.
 */
module StaffFoodItemsScreen {
  import opened Wrappers
  import opened Seqs
  import opened Cart

  /** `!available`: always a boolean, of the opposite truthiness. */
  function Negated(a: Availability): (r: Availability)
    ensures r.Bool?
    ensures r.Truthy() == !a.Truthy()
  {
    Bool(!a.Truthy())
  }

  function ToggleOf(id: int): FoodItem -> FoodItem
  {
    (x: FoodItem) => if x.id == id then x.(available := Negated(x.available)) else x
  }

  /** The list update of a successful toggle. */
  function Toggled(items: seq<FoodItem>, id: int): seq<FoodItem>
  {
    Map(items, ToggleOf(id))
  }

  /**
   * A toggle negates the flag of the items with that id and changes nothing
   * else: not the other items, not their order, not the length.
   */
  lemma ToggleTouchesOnlyTheFlag(items: seq<FoodItem>, id: int)
    ensures |Toggled(items, id)| == |items|
    ensures forall i :: 0 <= i < |items| && items[i].id != id ==> Toggled(items, id)[i] == items[i]
    ensures forall i :: 0 <= i < |items| && items[i].id == id ==>
      Toggled(items, id)[i].available.Truthy() == !items[i].available.Truthy()
    ensures forall i :: 0 <= i < |items| ==>
      Toggled(items, id)[i].(available := items[i].available) == items[i]
  {
  }

  /**
   * Toggling twice restores every flag's truthiness; it restores the list
   * itself when the toggled items already held boolean flags (a numeric
   * flag comes back as a boolean).
   */
  lemma ToggleTwice(items: seq<FoodItem>, id: int)
    ensures |Toggled(Toggled(items, id), id)| == |items|
    ensures forall i :: 0 <= i < |items| ==>
      Toggled(Toggled(items, id), id)[i].available.Truthy() == items[i].available.Truthy()
    ensures (forall i :: 0 <= i < |items| && items[i].id == id ==> items[i].available.Bool?) ==>
      Toggled(Toggled(items, id), id) == items
  {
    var twice := Toggled(Toggled(items, id), id);
    if forall i :: 0 <= i < |items| && items[i].id == id ==> items[i].available.Bool? {
      forall i | 0 <= i < |items| ensures twice[i] == items[i] {
        if items[i].id == id {
          assert items[i].available == Bool(items[i].available.b);
        }
      }
    }
  }

  /** How the PUT request settled. */
  datatype PutReply = Resolved | Rejected

  class Screen {
    var foodItems: seq<FoodItem>

    constructor ()
      ensures foodItems == []
    {
      foodItems := [];
    }

    /** The initial fetch: the server list as sent; a failed fetch leaves the list as it was. */
    method FetchFoodItems(reply: Option<seq<FoodItem>>)
      modifies this
      ensures reply.Some? ==> foodItems == reply.value
      ensures reply.None? ==> foodItems == old(foodItems)
    {
      if reply.Some? {
        foodItems := reply.value;
      }
    }

    /**
     * `toggleAvailability`: for an id not in the list no request is sent and
     * nothing changes. Otherwise the request carries the negation of the
     * first matching item's flag, and only a resolved request updates the list.
     */
    method ToggleAvailability(id: int, reply: PutReply) returns (request: Option<bool>)
      modifies this
      ensures IndexOf(old(foodItems), id) < 0 ==> request == None && foodItems == old(foodItems)
      ensures IndexOf(old(foodItems), id) >= 0 ==>
        request == Some(!old(foodItems)[IndexOf(old(foodItems), id)].available.Truthy())
      ensures IndexOf(old(foodItems), id) >= 0 && reply == Resolved ==> foodItems == Toggled(old(foodItems), id)
      ensures reply == Rejected ==> foodItems == old(foodItems)
    {
      var k := IndexOf(foodItems, id);
      if k < 0 {
        request := None;
      } else {
        request := Some(!foodItems[k].available.Truthy());
        if reply == Resolved {
          foodItems := Toggled(foodItems, id);
        }
      }
    }
  }
}
