# Shopping cart state machine — a verified Dafny model

This project models the cart engine of a React storefront. It covers the cart
reducer, the total it recomputes after every change, and the provider operations
the views call: `addToCart`, `increaseQuantity`, `decreaseQuantity` and
`removeFromCart`, plus the initial empty cart. All of these live in
`app/context/CartContext.tsx`.

The state is an ordered sequence of line items plus a cached total. An item has
an id, a price, a quantity and opaque display strings. Four actions move the
state forward:

- ADD_TO_CART appends a new line with quantity 1. If the product is already in
  the cart, it raises that line by one. If the line is already at the maximum of
  10, it silently returns the state unchanged.
- INCREASE_QUANTITY / DECREASE_QUANTITY move the matching line by one. They do
  nothing at the bounds 10 and 1.
- REMOVE_FROM_CART filters out every line with the id.

The provider's increase and decrease operations check the bound first. They
return `false` without dispatching when the first line with the id is at the
bound. Otherwise they dispatch and return `true`, including when the id is not
in the cart at all.

Files (one module each):

- `cart_model.dfy` (`CartModel`): products, line items, state, actions, the
  constants `MaxQuantity = 10` and `MinQuantity = 1`, `Find`/`FindIndex`
  (first match, as `Array.prototype.find`), the total as a left fold, and the
  invariants `Consistent`, `UniqueIds`, `QuantitiesInRange`, `Valid`.
- `cart_reducer.dfy` (`CartReducer`): the reducer `Reduce` and one lemma per
  action, plus preservation of every invariant.
- `cart_provider.dfy` (`CartProvider`): the provider operations as pure
  functions over an explicit state, the bounded operations' success flag, and
  the proof that every state reachable from the initial cart is valid.
- `cart_scenarios.dfy` (`CartScenarios`): concrete runs, including the behaviour at the bounds.

Prices are integer cents, so `total == Σ price·quantity` holds exactly.
Quantities are unbounded integers. The reducer is total over every state. The
bounds, the unique ids and the exact total are proved as invariants of the
states reachable from the empty cart.

Behaviours of the code that the model keeps as they are:

- On an absent id, increase and decrease still dispatch and report success
  (`true`); the reducer then changes nothing.
- Add and increase treat any quantity `>= 10` as the ceiling; decrease treats
  any quantity `<= 1` as the floor.
- The reducer maps over every line whose id matches, while the provider's bound
  check looks only at the first match. The two agree on states with unique ids.
  The lemmas that describe a single line's change therefore assume `UniqueIds`.
- The code never checks that prices are non-negative. `TotalNonNegative`
  therefore takes that as a hypothesis.

## Model

| member | source | states |
|---|---|---|
| CartModel.FindIndex | app/context/CartContext.tsx:45 | the result is absent exactly when no line has the id; otherwise it is the index of the first line with the id |
| CartModel.Find | app/context/CartContext.tsx:112 | the item returned is absent exactly when no line has the id; otherwise it is the line at the first index carrying the id |
| CartModel.Total | app/context/CartContext.tsx:100-102 | definition: left fold of price·quantity starting from 0, in line order (no contract; its properties are the rows below) |
| CartModel.ItemCount | app/page.tsx:42 | definition: left fold of the quantities starting from 0 (no contract; see ItemCountBounds) |
| CartModel.TotalAppend | app/context/CartContext.tsx:100-102 | the fold Σ price·quantity over a concatenation is the sum of the folds over the parts |
| CartModel.TotalUpdate | app/context/CartContext.tsx:100-102 | replacing one line changes the fold by exactly the new subtotal minus the old one |
| CartModel.TotalNonNegative | app/context/CartContext.tsx:100-102 | with non-negative prices and quantities in [1,10], the total is never negative |
| CartModel.ItemCountBounds | app/page.tsx:42 | with quantities in [1,10], the badge's unit count is between the number of lines and 10 times that number |
| CartReducer.AddStep | app/context/CartContext.tsx:52 | the add callback changes only the quantity, and only of a line with the id; such a line below 10 goes up by exactly one, and one at or above 10 becomes exactly 10 (the `Math.min` clamp) |
| CartReducer.IncreaseStep | app/context/CartContext.tsx:69 | the increase callback changes only the quantity; it either stays, or a line with the id goes up by one to at most 10, which always happens below 10 |
| CartReducer.DecreaseStep | app/context/CartContext.tsx:79 | the decrease callback changes only the quantity; it either stays, or a line with the id goes down by one to at least 1, which always happens above 1 |
| CartReducer.Without | app/context/CartContext.tsx:88 | the filter keeps exactly the lines whose id differs (membership both ways) and keeps them in their original relative order |
| CartReducer.WithoutCounts | app/context/CartContext.tsx:88 | the filter keeps every line whose id differs exactly as many times as it occurs, and no line with the id |
| CartReducer.WithoutAbsent | app/context/CartContext.tsx:88 | filtering out an id no line carries returns the lines unchanged |
| CartReducer.WithoutKeepsUniqueIds | app/context/CartContext.tsx:88 | filtering keeps ids unique |
| CartReducer.ApplyAdd | app/context/CartContext.tsx:44-64 | definition: the ADD_TO_CART case — same state when the first line with the id is at or above 10, otherwise the add callback over every line, or a new line of quantity 1 appended when the id is absent; total recomputed (no contract; see AddNewAppends, AddExistingIncrements, AddAtMaxIsNoOp) |
| CartReducer.ApplyIncrease | app/context/CartContext.tsx:67-75 | definition: the INCREASE_QUANTITY case — the increase callback over every line, total recomputed (no contract; see IncreaseAt) |
| CartReducer.ApplyDecrease | app/context/CartContext.tsx:77-85 | definition: the DECREASE_QUANTITY case — the decrease callback over every line, total recomputed (no contract; see DecreaseAt) |
| CartReducer.ApplyRemove | app/context/CartContext.tsx:87-93 | definition: the REMOVE_FROM_CART case — the filter, total recomputed (no contract; see RemoveDropsId) |
| CartReducer.Reduce | app/context/CartContext.tsx:42-98 | every reducer result either is the state it was given (add at the maximum) or has a total equal to the fold over its lines |
| CartReducer.AddNewAppends | app/context/CartContext.tsx:58-63 | adding an absent product appends exactly one line of quantity 1 at the end, leaves the earlier lines unchanged, and raises a consistent total by the product's price |
| CartReducer.AddExistingIncrements | app/context/CartContext.tsx:47-57 | with unique ids, adding a present product below 10 raises only that line by one, at the same position and with its stored fields (its original price included); the total rises by that stored price |
| CartReducer.AddAtMaxIsNoOp | app/context/CartContext.tsx:47-50 | adding a product whose first line is at or above 10 returns the identical state |
| CartReducer.IncreaseAt | app/context/CartContext.tsx:67-75 | with unique ids, increase raises only the matching line by one and only below 10; at the bound the lines are unchanged; a consistent total rises by the line's price |
| CartReducer.DecreaseAt | app/context/CartContext.tsx:77-85 | with unique ids, decrease lowers only the matching line by one and only above 1; at the bound the lines are unchanged; a consistent total falls by the line's price |
| CartReducer.AdjustAbsentIsNoOp | app/context/CartContext.tsx:67-85 | increase and decrease of an absent id leave the lines unchanged, and a consistent state entirely unchanged |
| CartReducer.ReduceKeepsOrder | app/context/CartContext.tsx:51-85 | add of a present product, increase and decrease keep the length and the id at every position, so the order of the lines is preserved |
| CartReducer.RemoveDropsId | app/context/CartContext.tsx:87-93 | after removal no line has the id, every other line is still present exactly as many times as before, and the remaining lines keep their relative order; removing an absent id leaves the lines (and a consistent state) unchanged |
| CartReducer.ReduceKeepsConsistent | app/context/CartContext.tsx:42-102 | from a state whose total equals the fold, every action yields a state whose total equals the fold |
| CartReducer.ReduceKeepsUniqueIds | app/context/CartContext.tsx:44-93 | no action creates two lines with the same id (add appends only when the lookup fails) |
| CartReducer.ReduceKeepsQuantitiesInRange | app/context/CartContext.tsx:39-85 | if every quantity is in [1,10] before an action, every quantity is in [1,10] after it |
| CartReducer.ReduceKeepsValid | app/context/CartContext.tsx:42-98 | every action maps a valid state (exact total, unique ids, quantities in range) to a valid state |
| CartProvider.InitialState | app/context/CartContext.tsx:105 | the initial cart is empty with total 0 and satisfies the full invariant |
| CartProvider.AddToCart | app/context/CartContext.tsx:107-109 | after adding, a line with the product's id is present, no earlier line is dropped or moved (same id at every earlier position), and validity is preserved |
| CartProvider.AddKeepsId | app/context/CartContext.tsx:44-64 | whichever branch add takes (append, increment, no-op at the maximum), the product's id is in the resulting lines |
| CartProvider.RemoveFromCart | app/context/CartContext.tsx:129-131 | after removing, no line has the id, every other line is still present exactly as many times as before and in its original order, the total equals the fold, and validity is preserved |
| CartProvider.IncreaseQuantity | app/context/CartContext.tsx:111-118 | reports failure iff the first line with the id is at or above 10, leaving the state unchanged; otherwise dispatches increase and reports success, including for an absent id, where the lines are unchanged |
| CartProvider.DecreaseQuantity | app/context/CartContext.tsx:120-127 | reports failure iff the first line with the id is at or below 1, leaving the state unchanged; otherwise dispatches decrease and reports success, including for an absent id, where the lines are unchanged |
| CartProvider.IncreaseQuantityReport | app/context/CartContext.tsx:111-118 | on a valid cart with the id present, success means that line went up by exactly one and the total by its price; failure means the line is at exactly 10 |
| CartProvider.DecreaseQuantityReport | app/context/CartContext.tsx:120-127 | on a valid cart with the id present, success means that line went down by exactly one and the total by its price; failure means the line is at exactly 1 |
| CartProvider.Run | app/context/CartContext.tsx:104-105 | definition: the state after dispatching the actions to the reducer one after another (no contract; see RunKeepsValid) |
| CartProvider.RunKeepsValid | app/context/CartContext.tsx:104-105 | dispatching any sequence of actions from a valid state ends in a valid state |
| CartProvider.ReachableStatesValid | app/context/CartContext.tsx:105 | every state reachable from the initial cart has an exact total, unique ids and quantities in [1,10] |
| CartScenarios.AddToEmptyCart | app/context/CartContext.tsx:58-63 | adding a product priced 1000 to the empty cart gives one line of quantity 1 and total 1000 |
| CartScenarios.AsymmetryAtMaximum | app/context/CartContext.tsx:111-118 | at quantity 10, add returns the same state silently, while increase returns the same state with failure |
| CartScenarios.AbsentIdReportsSuccess | app/context/CartContext.tsx:111-127 | increase and decrease of an id not in a consistent cart report success and leave the state unchanged |
| CartScenarios.DecreaseAtAndAboveMinimum | app/context/CartContext.tsx:120-127 | decreasing from 5 succeeds with quantity 4 and total 4000; decreasing from 1 fails and keeps the state |
| CartScenarios.RemoveFirstOfTwo | app/context/CartContext.tsx:87-93 | removing the first of two lines keeps the second and recomputes the total from it alone |

## Left out

- React plumbing (`createContext`, `useReducer`, the `CartProvider` component, the `useCart` guard that throws outside a provider) is not modelled. The state is an explicit value passed into and returned from each function, and `Run` stands for the sequence of dispatches.
- The provider's bound checks read `state` from the render closure, which can be stale between dispatches. The model checks the current state synchronously.
- The reducer's `default` branch for unknown action types is unreachable: `CartAction` is a closed datatype.
- Prices are JavaScript floating-point numbers in the source. They are integer cents here, so floating-point rounding and the `toFixed(2)` display formatting are not modelled.
- CartModel.TotalNonNegative: it assumes non-negative prices, because the source never checks the sign of a price.
- The view components (`ShoppingCart.tsx`, `ProductCard.tsx`, `ProductList.tsx`, `page.tsx`) are not modelled. They hold rendering, feedback timers, the removal confirmation dialog, button disabling and the hard-coded catalog. The only exception is the badge's unit count, modelled as `ItemCount`.
