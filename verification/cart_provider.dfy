/**
 The operations the cart provider exposes to the views, as pure functions over an
 explicit cart state: the initial state, the add and remove operations that always
 dispatch, and the increase and decrease operations that check a bound first and
 report with a flag whether they dispatched.
 */
module CartProvider {
  import opened CartModel
  import opened CartReducer

  /** The state a bounded operation leaves behind, and whether it reported success. */
  datatype Outcome = Outcome(state: CartState, ok: bool)

  /** The empty cart the provider starts from. */
  function InitialState(): (s: CartState)
    ensures Valid(s)
    ensures |s.items| == 0 && s.total == 0
  {
    CartState([], 0)
  }

  /**
   Dispatches ADD_TO_CART: afterwards the product is in the cart, no earlier line is
   dropped or moved, and validity is kept.
   */
  function AddToCart(s: CartState, p: Product): (r: CartState)
    ensures HasId(r.items, p.id)
    ensures |r.items| >= |s.items|
    ensures forall i :: 0 <= i < |s.items| ==> r.items[i].id == s.items[i].id
    ensures Valid(s) ==> Valid(r)
  {
    AddKeepsId(s, p);
    ReduceKeepsValid(s, Add(p));
    Reduce(s, Add(p))
  }

  /**
   Dispatches REMOVE_FROM_CART: afterwards no line carries the id, every other line is
   kept as often as it occurred and in its original order, and validity is kept.
   */
  function RemoveFromCart(s: CartState, id: int): (r: CartState)
    ensures !HasId(r.items, id)
    ensures forall x :: x in s.items && x.id != id ==> x in r.items
    ensures forall x :: multiset(r.items)[x] == if x.id == id then 0 else multiset(s.items)[x]
    ensures IsSubsequence(r.items, s.items)
    ensures Consistent(r)
    ensures Valid(s) ==> Valid(r)
  {
    RemoveDropsId(s, id);
    ReduceKeepsValid(s, Remove(id));
    Reduce(s, Remove(id))
  }

  /**
   Reports failure, without dispatching, exactly when the first line with the id is
   already at the maximum; otherwise dispatches INCREASE_QUANTITY and reports success,
   also when no line carries the id.
   */
  function IncreaseQuantity(s: CartState, id: int): (r: Outcome)
    ensures !r.ok <==> exists i :: IsFirst(s.items, id, i) && s.items[i].quantity >= MaxQuantity
    ensures !r.ok ==> r.state == s
    ensures r.ok ==> r.state == Reduce(s, Increase(id))
    ensures !HasId(s.items, id) ==> r.ok && r.state.items == s.items
  {
    match Find(s.items, id)
    case Some(item) =>
      if item.quantity >= MaxQuantity then Outcome(s, false)
      else Outcome(Reduce(s, Increase(id)), true)
    case None =>
      AdjustAbsentIsNoOp(s, id);
      Outcome(Reduce(s, Increase(id)), true)
  }

  /**
   Reports failure, without dispatching, exactly when the first line with the id is
   already at the minimum; otherwise dispatches DECREASE_QUANTITY and reports success,
   also when no line carries the id.
   */
  function DecreaseQuantity(s: CartState, id: int): (r: Outcome)
    ensures !r.ok <==> exists i :: IsFirst(s.items, id, i) && s.items[i].quantity <= MinQuantity
    ensures !r.ok ==> r.state == s
    ensures r.ok ==> r.state == Reduce(s, Decrease(id))
    ensures !HasId(s.items, id) ==> r.ok && r.state.items == s.items
  {
    match Find(s.items, id)
    case Some(item) =>
      if item.quantity <= MinQuantity then Outcome(s, false)
      else Outcome(Reduce(s, Decrease(id)), true)
    case None =>
      AdjustAbsentIsNoOp(s, id);
      Outcome(Reduce(s, Decrease(id)), true)
  }

  /** After ADD_TO_CART the product's id is present, whichever branch the reducer took. */
  lemma AddKeepsId(s: CartState, p: Product)
    ensures HasId(Reduce(s, Add(p)).items, p.id)
  {
    var r := Reduce(s, Add(p)).items;
    match FindIndex(s.items, p.id)
    case None =>
      assert r[|s.items|].id == p.id;
    case Some(i) =>
      assert r[i].id == p.id;
  }

  /**
   On a valid cart, a reported success of increase on a present id means that line went
   up by exactly one and the total by its price; a reported failure means it sits at the maximum.
   */
  lemma IncreaseQuantityReport(s: CartState, id: int, i: int)
    requires Valid(s)
    requires 0 <= i < |s.items| && s.items[i].id == id
    ensures IncreaseQuantity(s, id).ok ==>
      && IncreaseQuantity(s, id).state.items[i].quantity == s.items[i].quantity + 1
      && IncreaseQuantity(s, id).state.total == s.total + s.items[i].price
    ensures !IncreaseQuantity(s, id).ok ==> s.items[i].quantity == MaxQuantity
  {
    assert IsFirst(s.items, id, i);
    IncreaseAt(s, id, i);
  }

  /**
   On a valid cart, a reported success of decrease on a present id means that line went
   down by exactly one and the total by its price; a reported failure means it sits at the minimum.
   */
  lemma DecreaseQuantityReport(s: CartState, id: int, i: int)
    requires Valid(s)
    requires 0 <= i < |s.items| && s.items[i].id == id
    ensures DecreaseQuantity(s, id).ok ==>
      && DecreaseQuantity(s, id).state.items[i].quantity == s.items[i].quantity - 1
      && DecreaseQuantity(s, id).state.total == s.total - s.items[i].price
    ensures !DecreaseQuantity(s, id).ok ==> s.items[i].quantity == MinQuantity
  {
    assert IsFirst(s.items, id, i);
    DecreaseAt(s, id, i);
  }

  /** The state reached by dispatching a sequence of actions in order. */
  function Run(s: CartState, actions: seq<CartAction>): CartState
    decreases |actions|
  {
    if |actions| == 0 then s else Run(Reduce(s, actions[0]), actions[1..])
  }

  /** Dispatching any sequence of actions from a valid state ends in a valid state. */
  lemma {:induction false} RunKeepsValid(s: CartState, actions: seq<CartAction>)
    requires Valid(s)
    ensures Valid(Run(s, actions))
    decreases |actions|
  {
    if |actions| > 0 {
      ReduceKeepsValid(s, actions[0]);
      RunKeepsValid(Reduce(s, actions[0]), actions[1..]);
    }
  }

  /** Every state reachable from the initial cart is valid: exact total, unique ids, quantities in range. */
  lemma ReachableStatesValid(actions: seq<CartAction>)
    ensures Valid(Run(InitialState(), actions))
  {
    RunKeepsValid(InitialState(), actions);
  }
}
