/** The context-based cart: `cartReducer` maps a state and an action to a
    new state (or returns the input state itself), as `useReducer` drives it,
    and the two computed values the context exposes. */
module CartContext {
  import opened CartTypes
  import opened CartSpec

  /** The `CartAction` union. `Unrecognised` stands for any other action
      object reaching the reducer at run time, which its `default:` branch
      handles. */
  datatype CartAction =
    | AddToCart(payload: AddToCartPayload)
    | RemoveFromCart(id: string)
    | UpdateQuantity(update: UpdateQuantityPayload)
    | IncrementQuantity(id: string)
    | DecrementQuantity(id: string)
    | ClearCart
    | Unrecognised(actionType: string)

  /** The empty cart a session starts from: no product in it, and consistent. */
  function InitialState(): (s: CartState)
    ensures IdSet(s.items) == {} && Invariant(s)
  {
    CartState([], 0)
  }

  /** One dispatched action. Lookups use the first match; the `map` and
      `filter` passes touch every match. Only adding brings a product into
      the cart, only removing and clearing take products out. */
  function CartReducer(state: CartState, action: CartAction): (r: CartState)
    ensures IdSet(r.items) == match action
      case AddToCart(p) => IdSet(state.items) + {p.id}
      case RemoveFromCart(id) => IdSet(state.items) - {id}
      case ClearCart => {}
      case _ => IdSet(state.items)
  {
    match action
    case AddToCart(p) =>
      if IndexOf(state.items, p.id).Some? then
        MapQuantityIds(state.items, p.id, Shift(1));
        IdSetMembers(state.items, p.id);
        CartState(MapQuantity(state.items, p.id, Shift(1)), state.totalItems + 1)
      else
        IdSetConcat(state.items, [NewLine(p)]);
        CartState(state.items + [NewLine(p)], state.totalItems + 1)
    case RemoveFromCart(id) =>
      (match IndexOf(state.items, id)
       case Some(i) =>
         FilterOutIds(state.items, id);
         CartState(FilterOut(state.items, id), state.totalItems - state.items[i].quantity)
       case None =>
         IdSetMembers(state.items, id);
         state)
    case UpdateQuantity(u) =>
      (match IndexOf(state.items, u.id)
       case Some(i) =>
         if u.quantity > 0 then
           MapQuantityIds(state.items, u.id, SetTo(u.quantity));
           CartState(MapQuantity(state.items, u.id, SetTo(u.quantity)),
                     state.totalItems + (u.quantity - state.items[i].quantity))
         else state
       case None => state)
    case IncrementQuantity(id) =>
      if IndexOf(state.items, id).Some? then
        MapQuantityIds(state.items, id, Shift(1));
        CartState(MapQuantity(state.items, id, Shift(1)), state.totalItems + 1)
      else state
    case DecrementQuantity(id) =>
      (match IndexOf(state.items, id)
       case Some(i) =>
         if state.items[i].quantity > 1 then
           MapQuantityIds(state.items, id, Shift(-1));
           CartState(MapQuantity(state.items, id, Shift(-1)), state.totalItems - 1)
         else state
       case None => state)
    case ClearCart => InitialState()
    case Unrecognised(_) => state
  }

  /** The states `useReducer` goes through: the actions dispatched in order. */
  function Run(state: CartState, actions: seq<CartAction>): (r: CartState)
    decreases actions
    ensures Invariant(state) ==> Invariant(r)
  {
    if actions == [] then state
    else
      var next := CartReducer(state, actions[0]);
      assert Invariant(state) ==> Invariant(next) by {
        if Invariant(state) { ReducerPreservesInvariant(state, actions[0]); }
      }
      Run(next, actions[1..])
  }

  // ---------------------------------------------------------------------
  // Computed values
  // ---------------------------------------------------------------------

  /** `getSubtotal`: the fold over the items, with `priceOf` in place of parsing. */
  function GetSubtotal(state: CartState, priceOf: string -> real): (r: real)
    ensures r == LineSum(state.items, priceOf)
  {
    Subtotal(state.items, priceOf)
  }

  /** `getItemCount`: the number of distinct lines, never more than the units. */
  function GetItemCount(state: CartState): (n: nat)
    ensures UniqueIds(state.items) ==> n == |IdSet(state.items)|
    ensures Invariant(state) ==> n <= state.totalItems
  {
    DistinctIdCount(state.items);
    UnitsCoverLines(state.items);
    |state.items|
  }

  // ---------------------------------------------------------------------
  // The effect of each action
  // ---------------------------------------------------------------------

  /** Adding an id already present raises that line by one and leaves its
      other fields (the first-seen ones) and every other line alone; a new id
      is appended with quantity 1. The unit count rises by one either way. */
  lemma AddToCartEffect(s: CartState, p: AddToCartPayload)
    requires UniqueIds(s.items)
    ensures var r := CartReducer(s, AddToCart(p));
      r.totalItems == s.totalItems + 1 &&
      match IndexOf(s.items, p.id)
      case Some(i) => r.items == WithQuantity(s.items, i, s.items[i].quantity + 1)
      case None => r.items == s.items + [NewLine(p)]
  {
    match IndexOf(s.items, p.id) {
      case Some(i) =>
        MapQuantityAt(s.items, p.id, Shift(1), i);
        assert CartReducer(s, AddToCart(p)) == CartState(MapQuantity(s.items, p.id, Shift(1)), s.totalItems + 1);
      case None =>
    }
  }

  /** Removing a present id deletes exactly that line, keeps the order of the
      rest and takes its whole quantity off the count; an absent id gives
      back the very same state. */
  lemma RemoveFromCartEffect(s: CartState, id: string)
    requires UniqueIds(s.items)
    ensures var r := CartReducer(s, RemoveFromCart(id));
      match IndexOf(s.items, id)
      case Some(i) =>
        r.items == s.items[..i] + s.items[i + 1..] && r.totalItems == s.totalItems - s.items[i].quantity
      case None => r == s
  {
    if IndexOf(s.items, id).Some? {
      FilterOutAt(s.items, id, IndexOf(s.items, id).value);
    }
  }

  /** Setting a quantity takes effect only for a present id and a positive
      quantity, and moves the count by the signed difference. */
  lemma UpdateQuantityEffect(s: CartState, u: UpdateQuantityPayload)
    requires UniqueIds(s.items)
    ensures var r := CartReducer(s, UpdateQuantity(u));
      match IndexOf(s.items, u.id)
      case Some(i) =>
        if u.quantity > 0 then
          r.items == WithQuantity(s.items, i, u.quantity) &&
          r.totalItems == s.totalItems + (u.quantity - s.items[i].quantity)
        else r == s
      case None => r == s
  {
    if IndexOf(s.items, u.id).Some? {
      MapQuantityAt(s.items, u.id, SetTo(u.quantity), IndexOf(s.items, u.id).value);
    }
  }

  /** Incrementing a present id adds one unit to its line and to the count. */
  lemma IncrementQuantityEffect(s: CartState, id: string)
    requires UniqueIds(s.items)
    ensures var r := CartReducer(s, IncrementQuantity(id));
      match IndexOf(s.items, id)
      case Some(i) =>
        r.items == WithQuantity(s.items, i, s.items[i].quantity + 1) && r.totalItems == s.totalItems + 1
      case None => r == s
  {
    match IndexOf(s.items, id) {
      case Some(i) =>
        MapQuantityAt(s.items, id, Shift(1), i);
        assert CartReducer(s, IncrementQuantity(id)) == CartState(MapQuantity(s.items, id, Shift(1)), s.totalItems + 1);
      case None =>
    }
  }

  /** Decrementing takes one unit off only a line holding more than one, so
      it never removes a line and never reaches zero. */
  lemma DecrementQuantityEffect(s: CartState, id: string)
    requires UniqueIds(s.items)
    ensures var r := CartReducer(s, DecrementQuantity(id));
      |r.items| == |s.items| &&
      match IndexOf(s.items, id)
      case Some(i) =>
        if s.items[i].quantity > 1 then
          r.items == WithQuantity(s.items, i, s.items[i].quantity - 1) && r.totalItems == s.totalItems - 1
        else r == s
      case None => r == s
  {
    match IndexOf(s.items, id) {
      case Some(i) => MapQuantityAt(s.items, id, Shift(-1), i);
      case None =>
    }
  }

  /** Clearing yields the initial state from any state and is idempotent; an
      unrecognised action changes nothing. */
  lemma ClearCartEffect(s: CartState, t: string)
    ensures CartReducer(s, ClearCart) == InitialState()
    ensures CartReducer(CartReducer(s, ClearCart), ClearCart) == CartReducer(s, ClearCart)
    ensures CartReducer(s, Unrecognised(t)) == s
  {
  }

  // ---------------------------------------------------------------------
  // The invariant
  // ---------------------------------------------------------------------

  lemma UniqueWithQuantity(items: seq<CartItem>, i: nat, q: int)
    requires i < |items| && UniqueIds(items)
    ensures UniqueIds(WithQuantity(items, i, q))
  {
    var w := WithQuantity(items, i, q);
    forall a, b | 0 <= a < b < |w| ensures w[a].id != w[b].id {
      assert w[a].id == items[a].id && w[b].id == items[b].id;
    }
  }

  lemma AddToCartPreserves(s: CartState, p: AddToCartPayload)
    requires Invariant(s)
    ensures Invariant(CartReducer(s, AddToCart(p)))
  {
    AddToCartEffect(s, p);
    match IndexOf(s.items, p.id) {
      case Some(i) =>
        SumWithQuantity(s.items, i, s.items[i].quantity + 1);
        UniqueWithQuantity(s.items, i, s.items[i].quantity + 1);
      case None =>
        SumAppend(s.items, [NewLine(p)]);
    }
  }

  lemma RemoveFromCartPreserves(s: CartState, id: string)
    requires Invariant(s)
    ensures Invariant(CartReducer(s, RemoveFromCart(id)))
  {
    RemoveFromCartEffect(s, id);
    match IndexOf(s.items, id) {
      case Some(i) =>
        SumRemoveAt(s.items, i);
        RemoveAtKeeps(s.items, i);
      case None =>
    }
  }

  /** Setting line `i` to a positive quantity and moving the count by the
      difference keeps the invariant. */
  lemma SetLinePreserves(s: CartState, i: nat, q: int)
    requires Invariant(s) && i < |s.items| && q >= 1
    ensures Invariant(CartState(WithQuantity(s.items, i, q), s.totalItems + (q - s.items[i].quantity)))
  {
    SumWithQuantity(s.items, i, q);
    UniqueWithQuantity(s.items, i, q);
  }

  lemma UpdateQuantityPreserves(s: CartState, u: UpdateQuantityPayload)
    requires Invariant(s)
    ensures Invariant(CartReducer(s, UpdateQuantity(u)))
  {
    UpdateQuantityEffect(s, u);
    match IndexOf(s.items, u.id) {
      case Some(i) =>
        if u.quantity > 0 { SetLinePreserves(s, i, u.quantity); }
      case None =>
    }
  }

  lemma IncrementQuantityPreserves(s: CartState, id: string)
    requires Invariant(s)
    ensures Invariant(CartReducer(s, IncrementQuantity(id)))
  {
    IncrementQuantityEffect(s, id);
    match IndexOf(s.items, id) {
      case Some(i) => SetLinePreserves(s, i, s.items[i].quantity + 1);
      case None =>
    }
  }

  lemma DecrementQuantityPreserves(s: CartState, id: string)
    requires Invariant(s)
    ensures Invariant(CartReducer(s, DecrementQuantity(id)))
  {
    DecrementQuantityEffect(s, id);
    match IndexOf(s.items, id) {
      case Some(i) =>
        if s.items[i].quantity > 1 { SetLinePreserves(s, i, s.items[i].quantity - 1); }
      case None =>
    }
  }

  /** Every action keeps the count equal to the sum of the quantities, the
      ids pairwise distinct and every quantity at least 1. */
  lemma ReducerPreservesInvariant(s: CartState, a: CartAction)
    requires Invariant(s)
    ensures Invariant(CartReducer(s, a))
  {
    match a
    case AddToCart(p) => AddToCartPreserves(s, p);
    case RemoveFromCart(id) => RemoveFromCartPreserves(s, id);
    case UpdateQuantity(u) => UpdateQuantityPreserves(s, u);
    case IncrementQuantity(id) => IncrementQuantityPreserves(s, id);
    case DecrementQuantity(id) => DecrementQuantityPreserves(s, id);
    case ClearCart =>
    case Unrecognised(_) =>
  }

  /** Every state reachable from the initial state by any sequence of
      dispatched actions is consistent. */
  lemma ReachableStatesConsistent(actions: seq<CartAction>)
    ensures Invariant(Run(InitialState(), actions))
  {
  }

  // ---------------------------------------------------------------------
  // Which inputs are silent no-ops
  // ---------------------------------------------------------------------

  /** The inputs the reducer answers with the state it was given. */
  predicate Silent(s: CartState, a: CartAction)
  {
    match a
    case AddToCart(_) => false
    case RemoveFromCart(id) => IndexOf(s.items, id).None?
    case UpdateQuantity(u) =>
      (match IndexOf(s.items, u.id)
       case None => true
       case Some(i) => u.quantity <= 0 || u.quantity == s.items[i].quantity)
    case IncrementQuantity(id) => IndexOf(s.items, id).None?
    case DecrementQuantity(id) =>
      (match IndexOf(s.items, id)
       case None => true
       case Some(i) => s.items[i].quantity == 1)
    case ClearCart => s.items == []
    case Unrecognised(_) => true
  }

  /** On a consistent state, an action leaves the state as it was exactly
      when it is an unknown id, a non-positive or unchanged quantity, a
      decrement at quantity 1, a clear of an empty cart, or unrecognised. */
  lemma NoOpExactly(s: CartState, a: CartAction)
    requires Invariant(s)
    ensures CartReducer(s, a) == s <==> Silent(s, a)
  {
    var r := CartReducer(s, a);
    match a
    case AddToCart(p) =>
      AddToCartEffect(s, p);
    case RemoveFromCart(id) =>
    case UpdateQuantity(u) =>
      UpdateQuantityEffect(s, u);
      match IndexOf(s.items, u.id) {
      case Some(i) =>
        if u.quantity > 0 {
          if u.quantity == s.items[i].quantity {
            assert WithQuantity(s.items, i, u.quantity) == s.items;
          } else {
            assert r.items[i].quantity != s.items[i].quantity;
          }
        }
      case None =>
      }
    case IncrementQuantity(id) =>
      IncrementQuantityEffect(s, id);
    case DecrementQuantity(id) =>
      DecrementQuantityEffect(s, id);
    case ClearCart =>
    case Unrecognised(_) =>
  }

  // ---------------------------------------------------------------------
  // Subtotal after an action
  // ---------------------------------------------------------------------

  /** Adding raises the subtotal by one unit price: that of the line already
      present (its first-seen price), or the payload's for a new line. */
  lemma AddToCartSubtotal(s: CartState, p: AddToCartPayload, priceOf: string -> real)
    requires UniqueIds(s.items)
    ensures GetSubtotal(CartReducer(s, AddToCart(p)), priceOf)
         == GetSubtotal(s, priceOf) + match IndexOf(s.items, p.id)
                                      case Some(i) => priceOf(s.items[i].price)
                                      case None => priceOf(p.price)
  {
    AddToCartEffect(s, p);
    match IndexOf(s.items, p.id)
    case Some(i) =>
      var u, q := priceOf(s.items[i].price), s.items[i].quantity;
      LineSumWithQuantity(s.items, i, q + 1, priceOf);
      assert u * ((q + 1) as real) == u * (q as real) + u;
    case None =>
      LineSumAppend(s.items, [NewLine(p)], priceOf);
      assert LineSum([NewLine(p)], priceOf) == priceOf(p.price) * 1.0;
  }

  /** Removing a present line takes its whole line total off the subtotal. */
  lemma RemoveFromCartSubtotal(s: CartState, id: string, priceOf: string -> real)
    requires UniqueIds(s.items)
    ensures GetSubtotal(CartReducer(s, RemoveFromCart(id)), priceOf)
         == GetSubtotal(s, priceOf) - match IndexOf(s.items, id)
                                      case Some(i) => LineTotal(s.items[i], priceOf)
                                      case None => 0.0
  {
    RemoveFromCartEffect(s, id);
    if IndexOf(s.items, id).Some? {
      LineSumRemoveAt(s.items, IndexOf(s.items, id).value, priceOf);
    }
  }

  // ---------------------------------------------------------------------
  // Scenarios
  // ---------------------------------------------------------------------

  /** Adding the same product twice to an empty cart gives one line of two. */
  lemma AddSameProductTwice(p: AddToCartPayload)
    ensures Run(InitialState(), [AddToCart(p), AddToCart(p)]) == CartState([NewLine(p).(quantity := 2)], 2)
  {
    var once := CartReducer(InitialState(), AddToCart(p));
    assert once == CartState([NewLine(p)], 1);
    assert IndexOf(once.items, p.id) == Some(0);
    assert MapQuantity(once.items, p.id, Shift(1)) == [NewLine(p).(quantity := 2)];
    var twice := CartReducer(once, AddToCart(p));
    assert twice == CartState([NewLine(p).(quantity := 2)], 2);
    calc {
      Run(InitialState(), [AddToCart(p), AddToCart(p)]);
      { assert [AddToCart(p), AddToCart(p)][1..] == [AddToCart(p)]; }
      Run(once, [AddToCart(p)]);
      { assert [AddToCart(p)][1..] == []; }
      Run(twice, []);
    }
  }

  /** Why distinct ids matter: on a state holding the same id twice the `map`
      pass raises both lines while the count rises by one, and the count no
      longer equals the sum of the quantities. */
  lemma DuplicateIdsBreakCounter(p: AddToCartPayload)
    ensures var s := CartState([NewLine(p), NewLine(p)], 2);
      s.totalItems == SumQuantities(s.items) &&
      CartReducer(s, AddToCart(p)).totalItems != SumQuantities(CartReducer(s, AddToCart(p)).items)
  {
    var s := CartState([NewLine(p), NewLine(p)], 2);
    var r := CartReducer(s, AddToCart(p));
    assert SumQuantities(s.items) == 2 by {
      assert s.items[1..] == [NewLine(p)] && s.items[1..][1..] == [];
      assert SumQuantities([NewLine(p)]) == 1 + SumQuantities([]);
    }
    MapQuantityLine(s.items, p.id, Shift(1), 0);
    MapQuantityLine(s.items, p.id, Shift(1), 1);
    assert r.items == [NewLine(p).(quantity := 2), NewLine(p).(quantity := 2)];
    assert SumQuantities(r.items) == 4 by {
      assert r.items[1..] == [NewLine(p).(quantity := 2)] && r.items[1..][1..] == [];
      assert SumQuantities([NewLine(p).(quantity := 2)]) == 2 + SumQuantities([]);
    }
  }
}
