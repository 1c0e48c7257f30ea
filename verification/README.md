# Cart store of a mobile storefront

This project models the cart store of a React Native storefront. The cart is an
ordered list of line items plus a running count. Each item has an `id`, a
name, a brand, an image, a price string and a positive `quantity`. The count is
`totalItems`. The store offers six operations: add, remove, set quantity,
increment, decrement and clear. It also answers two queries: the number of
distinct lines and the subtotal.

The repository implements the store twice, and both are modelled:

- `CartSlice` models the Redux slice (`src/store/slices/cartSlice.ts`). Its
  reducers change the store in place, so it is a class, `CartStore`, with an
  item sequence and a count as fields. Each reducer is a method. The lookup
  `items.find(...)` is a linear search, `Find`, proved against the
  specification function `IndexOf`.
- `CartContext` models the `useReducer` reducer (`src/store/CartContext.tsx`).
  It is a pure function `CartReducer` over a `CartState` value. `Run` folds it
  over a sequence of dispatched actions.
- `CartSpec` holds what both are specified in. That is the first-match lookup,
  the `map` and `filter` passes, the invariant, and the subtotal. The invariant
  is: the count equals the sum of quantities, ids are distinct, and every
  quantity is at least 1.
- `CartTypes` holds the data shapes of `src/common/types/cart.ts`.

The main results:

- Every action preserves the invariant (`ReducerPreservesInvariant`). So does
  every slice method (`ensures old(Valid()) ==> Valid()`).
- Every state reachable from the initial state satisfies the invariant
  (`ReachableStatesConsistent`).
- On a cart with distinct ids, each slice reducer ends in the same state as
  the matching `cartReducer` case. For remove and clear this holds on any cart.
- The exact set of inputs that are silent no-ops is pinned down
  (`NoOpExactly`).

Distinct ids matter because the two implementations touch matches
differently. `find` touches only the first match, while `map` and `filter`
touch every match. `DuplicateIdsBreakCounter` shows a cart with a repeated id
on which `cartReducer`'s adding breaks the count.

Prices are strings in the source and are parsed with `parseFloat` only to
compute a subtotal. Here the parsing is a parameter `priceOf: string -> real`
that gives each price string its exact value.

The slice's reducers change an Immer draft in place, so `CartStore` is a class
whose methods update its fields. `cartReducer` returns fresh values, so it is a
function.

## Model

| member | source | states |
|---|---|---|
| `CartSpec.IdSetMembers` | src/store/slices/cartSlice.ts:15 | an id is among the cart's products exactly when `find` locates it |
| `CartSpec.NewLine` | src/store/slices/cartSlice.ts:20-23 | the line appended for a new product carries exactly the payload's id and holds one unit |
| `CartSpec.IndexOf` | src/store/slices/cartSlice.ts:15 | the position `find` selects is the first line with the id; `None` exactly when no line has it |
| `CartSpec.MapQuantity` | src/store/CartContext.tsx:28-32 | the `map` pass keeps the number of lines and is the identity when no line carries the id |
| `CartSpec.MapQuantityLine` | src/store/CartContext.tsx:28-32 | line by line, the `map` pass rewrites the quantity of every line carrying the id and keeps every other line as it was |
| `CartSpec.MapQuantityIds` | src/store/CartContext.tsx:28-32 | the `map` pass leaves the set of products in the cart unchanged |
| `CartSpec.FilterOut` | src/store/CartContext.tsx:50 | the `filter` pass is the identity when the id is absent and shortens the list when it is present |
| `CartSpec.FilterOutKeeps` | src/store/slices/cartSlice.ts:33 | a line survives the `filter` exactly when it was in the cart and has another id |
| `CartSpec.FilterOutIds` | src/store/CartContext.tsx:50 | the `filter` pass takes exactly the product with the id out of the cart |
| `CartSpec.MapQuantityAt` | src/store/CartContext.tsx:28-32 | with distinct ids, the `map` pass changes only the line `find` returns |
| `CartSpec.FilterOutOnly` | src/store/CartContext.tsx:50 | when one line alone carries the id, the `filter` pass removes exactly that line and keeps the rest in order |
| `CartSpec.FilterOutAt` | src/store/CartContext.tsx:50 | with distinct ids, the `filter` pass removes exactly the line `find` returns and keeps the rest in order |
| `CartSpec.UnitsCoverLines` | src/store/slices/cartSlice.ts:80 | when every quantity is at least 1, the sum of quantities is at least the number of lines |
| `CartSpec.DistinctIdCount` | src/store/slices/cartSlice.ts:91-94 | with distinct ids, the number of lines equals the number of distinct ids |
| `CartSpec.Reduce` | src/store/slices/cartSlice.ts:84-88 | the left fold of `reduce` from an accumulator equals the accumulator plus the sum of the line totals |
| `CartSpec.Subtotal` | src/store/slices/cartSlice.ts:84-88 | the fold started at 0 equals the sum over lines of unit price times quantity |
| `CartSpec.SubtotalNonNegative` | src/store/CartContext.tsx:150-155 | with non-negative unit prices and positive quantities the subtotal is never negative |
| `CartContext.GetSubtotal` | src/store/CartContext.tsx:150-155 | `getSubtotal` is the sum over lines of unit price times quantity |
| `CartContext.GetItemCount` | src/store/CartContext.tsx:157-159 | with distinct ids, `getItemCount` is the number of distinct ids, and on a consistent cart it is at most `totalItems` |
| `CartContext.InitialState` | src/store/CartContext.tsx:14-17 | the initial state holds no product and is consistent |
| `CartContext.CartReducer` | src/store/CartContext.tsx:20-111 | only `ADD_TO_CART` brings a product in (its payload's id); `REMOVE_FROM_CART` takes exactly its id out; `CLEAR_CART` empties the cart; every other action keeps the set of products; the field-level effects are stated by the `*Effect` lemmas below |
| `CartContext.AddToCartEffect` | src/store/CartContext.tsx:22-42 | an existing id gets its line raised by 1 with all other fields and lines unchanged; a new id is appended with quantity 1; `totalItems` rises by 1 in both cases |
| `CartContext.RemoveFromCartEffect` | src/store/CartContext.tsx:44-54 | a present id loses exactly its line, the rest keep their order, and `totalItems` drops by that line's quantity; an absent id returns the input state |
| `CartContext.UpdateQuantityEffect` | src/store/CartContext.tsx:56-71 | the quantity is set and `totalItems` moves by the signed difference only for a present id and a positive quantity; otherwise the input state is returned |
| `CartContext.IncrementQuantityEffect` | src/store/CartContext.tsx:73-87 | a present id gains one unit on its line and on `totalItems`; an absent id returns the input state |
| `CartContext.DecrementQuantityEffect` | src/store/CartContext.tsx:89-103 | the line count never changes; one unit comes off the line and `totalItems` only when the line holds more than 1; otherwise the input state is returned |
| `CartContext.ClearCartEffect` | src/store/CartContext.tsx:105-109 | clearing returns the initial state from any state and is idempotent; an unrecognised action returns the input state |
| `CartContext.ReducerPreservesInvariant` | src/store/CartContext.tsx:20-111 | every action keeps `totalItems` equal to the sum of quantities, the ids distinct and every quantity at least 1 |
| `CartContext.Run` | src/store/CartContext.tsx:122 | dispatching any sequence of actions to a consistent state ends in a consistent state |
| `CartContext.ReachableStatesConsistent` | src/store/CartContext.tsx:14-17 | every state reachable from the initial state is consistent |
| `CartContext.NoOpExactly` | src/store/CartContext.tsx:20-111 | on a consistent cart, an action returns a state equal to its input exactly when the id is unknown, the new quantity is non-positive or equal to the current one, a decrement hits quantity 1, a clear hits an empty cart, or the action is unrecognised |
| `CartContext.AddToCartSubtotal` | src/store/CartContext.tsx:22-42 | with distinct ids, adding raises the subtotal by one unit price: the existing line's first-seen price, or the payload's price for a new line |
| `CartContext.RemoveFromCartSubtotal` | src/store/CartContext.tsx:44-54 | with distinct ids, removing a present line lowers the subtotal by that line's total; an absent id leaves it unchanged |
| `CartContext.AddSameProductTwice` | src/store/CartContext.tsx:22-42 | adding one product twice to an empty cart gives a single line of quantity 2 and `totalItems` 2 |
| `CartContext.DuplicateIdsBreakCounter` | src/store/CartContext.tsx:28-32 | on a cart holding one id twice, the `map` pass raises both lines while the count rises by 1, so the count no longer matches |
| `CartSlice.Find` | src/store/slices/cartSlice.ts:29 | the search returns the position of the first line with the id, or `None` when there is none |
| `CartSlice.CartStore.constructor` | src/store/slices/cartSlice.ts:5-8 | the store starts with no lines and a count of 0, which is consistent |
| `CartSlice.CartStore.AddToCart` | src/store/slices/cartSlice.ts:14-27 | the first matching line gains a unit, or a new line with quantity 1 is appended; the count rises by 1; the invariant is kept; with distinct ids the result equals `ADD_TO_CART` |
| `CartSlice.CartStore.RemoveFromCart` | src/store/slices/cartSlice.ts:28-35 | a present id has the first match's quantity subtracted and every line with the id filtered out (with distinct ids: exactly that line, order kept); an absent id changes nothing; the result always equals `REMOVE_FROM_CART` |
| `CartSlice.CartStore.UpdateQuantity` | src/store/slices/cartSlice.ts:36-45 | a present id with a positive quantity gets that quantity and the count moves by the difference; otherwise nothing changes; the invariant is kept; with distinct ids the result equals `UPDATE_QUANTITY` |
| `CartSlice.CartStore.IncrementQuantity` | src/store/slices/cartSlice.ts:46-53 | a present line and the count each gain a unit; an absent id changes nothing; with distinct ids the result equals `INCREMENT_QUANTITY` |
| `CartSlice.CartStore.DecrementQuantity` | src/store/slices/cartSlice.ts:54-61 | the number of lines never changes; a unit comes off only a line holding more than 1; otherwise nothing changes; with distinct ids the result equals `DECREMENT_QUANTITY` |
| `CartSlice.CartStore.ClearCart` | src/store/slices/cartSlice.ts:62-65 | from any state the store ends with no lines and a count of 0, which is consistent and equals `CLEAR_CART` |
| `CartSlice.CartStore.SelectCartItems` | src/store/slices/cartSlice.ts:79 | on a valid store the lines have distinct ids and positive quantities summing to the count |
| `CartSlice.CartStore.SelectCartTotalItems` | src/store/slices/cartSlice.ts:80 | on a valid store the count is the sum of quantities and at least the number of lines |
| `CartSlice.CartStore.SelectCartSubtotal` | src/store/slices/cartSlice.ts:82-89 | the subtotal is the sum over lines of unit price times quantity |
| `CartSlice.CartStore.SelectCartItemCount` | src/store/slices/cartSlice.ts:91-94 | on a valid store the item count is the number of distinct ids and at most the count |

## Left out

- `parseFloat` of the price string and floating-point rounding of the subtotal: prices enter as the exact value `priceOf` assigns, and sums are exact reals.
- Quantities are modelled as integers. The source's `number` can also be fractional, `NaN` or infinite when a caller passes such a value to `updateQuantity`, and that is not modelled. The source's `number` is also a double: counts above 2^53 lose precision and `+= 1` can leave them unchanged, while the model's integers are exact.
- Redux and React machinery is not modelled. That covers `createSlice`, Immer's copy-on-write drafts, `createSelector` memoisation, `createContext`, the `CartProvider` component and the `useCart` error outside a provider. The selectors read the store object instead of `RootState`, because `src/store/index` is not part of this model.
- `useReducer` is modelled only as the fold `Run` over dispatched actions.
- The `Unrecognised` action stands for objects outside the TypeScript `CartAction` union that reach the `default:` branch. The type system forbids them statically.
- Screens, navigation, styling, the discount, tax and delivery arithmetic of the cart screen, and the clock-based cart ids of the product screen are not modelled. They are presentation code outside the store.
- CartContext.AddToCartEffect: stated for carts with distinct ids. With a repeated id the `map` pass raises every copy. `CartSpec.MapQuantity` states that behaviour, and `DuplicateIdsBreakCounter` shows what follows from it.
- CartContext.RemoveFromCartEffect: stated for carts with distinct ids. With a repeated id the `filter` drops every copy. `CartSpec.FilterOut` and `CartSpec.FilterOutKeeps` state that behaviour.
- CartContext.UpdateQuantityEffect: stated for carts with distinct ids, for the same reason as `AddToCartEffect`.
- CartContext.IncrementQuantityEffect: stated for carts with distinct ids, for the same reason as `AddToCartEffect`.
- CartContext.DecrementQuantityEffect: stated for carts with distinct ids, for the same reason as `AddToCartEffect`.
- CartSlice.CartStore.AddToCart: agreement with `ADD_TO_CART` is claimed only for distinct ids, because the slice bumps the first match and the reducer bumps every match. The same holds for `UpdateQuantity`, `IncrementQuantity` and `DecrementQuantity`.
- Reference identity of the returned state is not modelled. `useReducer` compares states with `Object.is`; `NoOpExactly` speaks of value equality, so two cases count as no-ops although the result is not the input object. `UPDATE_QUANTITY` to the current quantity returns a new object. `CLEAR_CART` on an empty cart other than `initialState` itself, e.g. after the last line was removed, returns the `initialState` object, equal in value but not identical.
