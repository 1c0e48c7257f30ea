/** The Redux slice: a store object whose reducers change its item list and
    its unit count in place, and the selectors that read them. */
module CartSlice {
  import opened CartTypes
  import opened CartSpec
  import CartContext

  /** `state.items.find(item => item.id === id)`, giving the position of the
      first line carrying the id, or `None` when there is none. */
  method Find(items: seq<CartItem>, id: string) returns (r: Option<nat>)
    ensures r == IndexOf(items, id)
  {
    var k := 0;
    while k < |items|
      invariant 0 <= k <= |items|
      invariant forall j :: 0 <= j < k ==> items[j].id != id
    {
      if items[k].id == id {
        return Some(k);
      }
      k := k + 1;
    }
    return None;
  }

  /** The `cart` slice of the Redux store. */
  class CartStore {
    var items: seq<CartItem>
    var totalItems: int

    function State(): CartState
      reads this
    {
      CartState(items, totalItems)
    }

    predicate Valid()
      reads this
    {
      Invariant(State())
    }

    /** The slice's `initialState`: no lines, no units. */
    constructor ()
      ensures State() == CartContext.InitialState() && Valid()
    {
      items := [];
      totalItems := 0;
    }

    /** `addToCart`: bump the first line with the payload's id, or append
        `{...payload, quantity: 1}`; one more unit either way. */
    method AddToCart(p: AddToCartPayload)
      modifies this
      ensures totalItems == old(totalItems) + 1
      ensures match IndexOf(old(items), p.id)
              case Some(i) => items == WithQuantity(old(items), i, old(items)[i].quantity + 1)
              case None => items == old(items) + [NewLine(p)]
      ensures UniqueIds(old(items)) ==>
                State() == CartContext.CartReducer(old(State()), CartContext.AddToCart(p))
      ensures old(Valid()) ==> Valid()
    {
      ghost var before := State();
      var existing := Find(items, p.id);
      match existing {
        case Some(i) =>
          items := items[i := items[i].(quantity := items[i].quantity + 1)];
        case None =>
          items := items + [NewLine(p)];
      }
      totalItems := totalItems + 1;
      if UniqueIds(before.items) {
        CartContext.AddToCartEffect(before, p);
      }
      if Invariant(before) {
        CartContext.ReducerPreservesInvariant(before, CartContext.AddToCart(p));
      }
    }

    /** `removeFromCart`: when the id is present, take the first such line's
        whole quantity off the count and filter out every line with the id. */
    method RemoveFromCart(id: string)
      modifies this
      ensures match IndexOf(old(items), id)
              case Some(i) =>
                items == FilterOut(old(items), id) &&
                totalItems == old(totalItems) - old(items)[i].quantity &&
                (UniqueIds(old(items)) ==> items == old(items)[..i] + old(items)[i + 1..])
              case None => State() == old(State())
      ensures State() == CartContext.CartReducer(old(State()), CartContext.RemoveFromCart(id))
      ensures old(Valid()) ==> Valid()
    {
      ghost var before := State();
      var existing := Find(items, id);
      if existing.Some? {
        totalItems := totalItems - items[existing.value].quantity;
        items := FilterOut(items, id);
      }
      if UniqueIds(before.items) {
        CartContext.RemoveFromCartEffect(before, id);
      }
      if Invariant(before) {
        CartContext.ReducerPreservesInvariant(before, CartContext.RemoveFromCart(id));
      }
    }

    /** `updateQuantity`: only for a present id and a positive quantity, set
        the line and move the count by the signed difference. */
    method UpdateQuantity(u: UpdateQuantityPayload)
      modifies this
      ensures match IndexOf(old(items), u.id)
              case Some(i) =>
                if u.quantity > 0 then
                  items == WithQuantity(old(items), i, u.quantity) &&
                  totalItems == old(totalItems) + (u.quantity - old(items)[i].quantity)
                else State() == old(State())
              case None => State() == old(State())
      ensures UniqueIds(old(items)) ==>
                State() == CartContext.CartReducer(old(State()), CartContext.UpdateQuantity(u))
      ensures old(Valid()) ==> Valid()
    {
      ghost var before := State();
      var item := Find(items, u.id);
      if item.Some? && u.quantity > 0 {
        var i := item.value;
        var quantityDiff := u.quantity - items[i].quantity;
        items := items[i := items[i].(quantity := u.quantity)];
        totalItems := totalItems + quantityDiff;
      }
      if UniqueIds(before.items) {
        CartContext.UpdateQuantityEffect(before, u);
      }
      if Invariant(before) {
        CartContext.ReducerPreservesInvariant(before, CartContext.UpdateQuantity(u));
      }
    }

    /** `incrementQuantity`: one more unit on a present line and on the count. */
    method IncrementQuantity(id: string)
      modifies this
      ensures match IndexOf(old(items), id)
              case Some(i) =>
                items == WithQuantity(old(items), i, old(items)[i].quantity + 1) &&
                totalItems == old(totalItems) + 1
              case None => State() == old(State())
      ensures UniqueIds(old(items)) ==>
                State() == CartContext.CartReducer(old(State()), CartContext.IncrementQuantity(id))
      ensures old(Valid()) ==> Valid()
    {
      ghost var before := State();
      var item := Find(items, id);
      if item.Some? {
        var i := item.value;
        items := items[i := items[i].(quantity := items[i].quantity + 1)];
        totalItems := totalItems + 1;
      }
      if UniqueIds(before.items) {
        CartContext.IncrementQuantityEffect(before, id);
      }
      if Invariant(before) {
        CartContext.ReducerPreservesInvariant(before, CartContext.IncrementQuantity(id));
      }
    }

    /** `decrementQuantity`: one unit less, only on a line holding more than
        one; a line at quantity 1 stays as it is. */
    method DecrementQuantity(id: string)
      modifies this
      ensures |items| == |old(items)|
      ensures match IndexOf(old(items), id)
              case Some(i) =>
                if old(items)[i].quantity > 1 then
                  items == WithQuantity(old(items), i, old(items)[i].quantity - 1) &&
                  totalItems == old(totalItems) - 1
                else State() == old(State())
              case None => State() == old(State())
      ensures UniqueIds(old(items)) ==>
                State() == CartContext.CartReducer(old(State()), CartContext.DecrementQuantity(id))
      ensures old(Valid()) ==> Valid()
    {
      ghost var before := State();
      var item := Find(items, id);
      if item.Some? && items[item.value].quantity > 1 {
        var i := item.value;
        items := items[i := items[i].(quantity := items[i].quantity - 1)];
        totalItems := totalItems - 1;
      }
      if UniqueIds(before.items) {
        CartContext.DecrementQuantityEffect(before, id);
      }
      if Invariant(before) {
        CartContext.ReducerPreservesInvariant(before, CartContext.DecrementQuantity(id));
      }
    }

    /** `clearCart`: back to no lines and no units, from any state. */
    method ClearCart()
      modifies this
      ensures items == [] && totalItems == 0
      ensures State() == CartContext.CartReducer(old(State()), CartContext.ClearCart)
      ensures Valid()
    {
      items := [];
      totalItems := 0;
    }

    // -------------------------------------------------------------------
    // Selectors
    // -------------------------------------------------------------------

    /** `selectCartItems`: the lines, whose ids are distinct on a valid store. */
    function SelectCartItems(): (r: seq<CartItem>)
      reads this
      ensures Valid() ==> UniqueIds(r) && AllPositive(r) && SumQuantities(r) == totalItems
    {
      items
    }

    /** `selectCartTotalItems`: the running count, which on a valid store is
        the sum of the quantities and at least the number of lines. */
    function SelectCartTotalItems(): (n: int)
      reads this
      ensures Valid() ==> n == SumQuantities(items) && n >= |items|
    {
      UnitsCoverLines(items);
      totalItems
    }

    /** `selectCartSubtotal`: Σ unit price × quantity over the lines. */
    function SelectCartSubtotal(priceOf: string -> real): (r: real)
      reads this
      ensures r == LineSum(items, priceOf)
    {
      Subtotal(items, priceOf)
    }

    /** `selectCartItemCount`: the number of distinct lines, not of units. */
    function SelectCartItemCount(): (n: nat)
      reads this
      ensures Valid() ==> n == |IdSet(items)| && n <= totalItems
    {
      DistinctIdCount(items);
      UnitsCoverLines(items);
      |items|
    }
  }
}
