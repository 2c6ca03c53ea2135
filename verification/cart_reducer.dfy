/**
 The cart reducer: a pure transition from a cart state and an action to the next
 cart state. Every branch that changes the line items recomputes the total as a
 full fold over them; adding a product that is already at the maximum returns the
 state it was given.
 */
module CartReducer {
  import opened CartModel

  function Min(a: int, b: int): int {
    if a <= b then a else b
  }

  /**
   Per-item update of ADD_TO_CART for a product already in the cart: only the quantity
   of a matching line moves, to one more below the maximum and to exactly the maximum
   otherwise (a later duplicate line above the maximum is clamped down to it).
   */
  function AddStep(item: CartItem, id: int): (r: CartItem)
    ensures r == item.(quantity := r.quantity)
    ensures item.id != id ==> r == item
    ensures item.id == id && item.quantity < MaxQuantity ==> r.quantity == item.quantity + 1
    ensures item.id == id && item.quantity >= MaxQuantity ==> r.quantity == MaxQuantity
    ensures item.id == id ==> r.quantity <= MaxQuantity
  {
    if item.id == id then item.(quantity := Min(item.quantity + 1, MaxQuantity)) else item
  }

  /**
   Per-item update of INCREASE_QUANTITY: a matching line below the maximum goes up by
   one; every other line, and a matching line at the maximum, stays as it was.
   */
  function IncreaseStep(item: CartItem, id: int): (r: CartItem)
    ensures r == item.(quantity := r.quantity)
    ensures r.quantity == item.quantity || (item.id == id && r.quantity == item.quantity + 1 <= MaxQuantity)
    ensures item.id == id && item.quantity < MaxQuantity ==> r.quantity == item.quantity + 1
  {
    if item.id == id && item.quantity < MaxQuantity then item.(quantity := item.quantity + 1) else item
  }

  /**
   Per-item update of DECREASE_QUANTITY: a matching line above the minimum goes down by
   one; every other line, and a matching line at the minimum, stays as it was.
   */
  function DecreaseStep(item: CartItem, id: int): (r: CartItem)
    ensures r == item.(quantity := r.quantity)
    ensures r.quantity == item.quantity || (item.id == id && r.quantity == item.quantity - 1 >= MinQuantity)
    ensures item.id == id && item.quantity > MinQuantity ==> r.quantity == item.quantity - 1
  {
    if item.id == id && item.quantity > MinQuantity then item.(quantity := item.quantity - 1) else item
  }

  /** Applies `f` to every line item, as `Array.prototype.map` does. */
  function MapItems(items: seq<CartItem>, f: CartItem -> CartItem): seq<CartItem> {
    seq(|items|, i requires 0 <= i < |items| => f(items[i]))
  }

  /** `a` is `b` with some elements dropped and the rest in their original order. */
  predicate IsSubsequence(a: seq<CartItem>, b: seq<CartItem>)
    decreases |b|
  {
    if |a| == 0 then true
    else if |b| == 0 then false
    else (a[0] == b[0] && IsSubsequence(a[1..], b[1..])) || IsSubsequence(a, b[1..])
  }

  /** The line items whose id differs from `id`, as `Array.prototype.filter` keeps them. */
  function Without(items: seq<CartItem>, id: int): (r: seq<CartItem>)
    ensures forall x :: x in r <==> x in items && x.id != id
    ensures IsSubsequence(r, items)
  {
    if |items| == 0 then []
    else
      var rest := Without(items[1..], id);
      assert forall x :: x in items <==> x == items[0] || x in items[1..];
      if items[0].id == id then rest else [items[0]] + rest
  }

  /** Filtering keeps every other line exactly as often as it occurs, and no line with the id. */
  lemma {:induction false} WithoutCounts(items: seq<CartItem>, id: int)
    ensures forall x :: multiset(Without(items, id))[x] == if x.id == id then 0 else multiset(items)[x]
    decreases |items|
  {
    if |items| > 0 {
      WithoutCounts(items[1..], id);
      assert items == [items[0]] + items[1..];
    }
  }

  /** Filtering out an id that no line carries leaves the line items as they were. */
  lemma {:induction false} WithoutAbsent(items: seq<CartItem>, id: int)
    requires !HasId(items, id)
    ensures Without(items, id) == items
    decreases |items|
  {
    if |items| > 0 {
      var tail := items[1..];
      assert forall k :: 0 <= k < |tail| ==> tail[k] == items[k + 1];
      WithoutAbsent(tail, id);
      assert items[0].id != id;
      assert items == [items[0]] + tail;
    }
  }

  /** Putting a line in front of lines whose ids all differ from it keeps ids unique. */
  lemma ConsKeepsUniqueIds(x: CartItem, rest: seq<CartItem>)
    requires UniqueIds(rest)
    requires forall y :: y in rest ==> y.id != x.id
    ensures UniqueIds([x] + rest)
  {
    var r := [x] + rest;
    forall i, j | 0 <= i < j < |r| ensures r[i].id != r[j].id {
      assert r[j] == rest[j - 1];
      if i == 0 {
        assert r[j] in rest;
      } else {
        assert r[i] == rest[i - 1];
      }
    }
  }

  /** Filtering never creates a second line for an id. */
  lemma {:induction false} WithoutKeepsUniqueIds(items: seq<CartItem>, id: int)
    requires UniqueIds(items)
    ensures UniqueIds(Without(items, id))
    decreases |items|
  {
    if |items| > 0 {
      var tail := items[1..];
      var rest := Without(tail, id);
      WithoutKeepsUniqueIds(tail, id);
      if items[0].id != id {
        forall y | y in rest ensures y.id != items[0].id {
          assert y in tail;
          var k :| 0 <= k < |tail| && tail[k] == y;
          assert items[k + 1] == y;
        }
        ConsKeepsUniqueIds(items[0], rest);
      }
    }
  }

  /** A state whose total is recomputed from its line items. */
  function WithTotal(items: seq<CartItem>): CartState {
    CartState(items, Total(items))
  }

  /** ADD_TO_CART: increment the product's line, unless its first line is at the maximum, or append a new line. */
  function ApplyAdd(s: CartState, p: Product): CartState {
    match Find(s.items, p.id)
    case Some(existing) =>
      if existing.quantity >= MaxQuantity then s
      else WithTotal(MapItems(s.items, item => AddStep(item, p.id)))
    case None => WithTotal(s.items + [FromProduct(p, 1)])
  }

  /** INCREASE_QUANTITY. */
  function ApplyIncrease(s: CartState, id: int): CartState {
    WithTotal(MapItems(s.items, item => IncreaseStep(item, id)))
  }

  /** DECREASE_QUANTITY. */
  function ApplyDecrease(s: CartState, id: int): CartState {
    WithTotal(MapItems(s.items, item => DecreaseStep(item, id)))
  }

  /** REMOVE_FROM_CART. */
  function ApplyRemove(s: CartState, id: int): CartState {
    WithTotal(Without(s.items, id))
  }

  /** The cart reducer. */
  function Reduce(s: CartState, a: CartAction): (r: CartState)
    ensures r == s || Consistent(r)
  {
    match a
    case Add(p) => ApplyAdd(s, p)
    case Increase(id) => ApplyIncrease(s, id)
    case Decrease(id) => ApplyDecrease(s, id)
    case Remove(id) => ApplyRemove(s, id)
  }

  /** Adding a product not yet in the cart appends one line of quantity 1 at the end and raises the total by its price. */
  lemma AddNewAppends(s: CartState, p: Product)
    requires !HasId(s.items, p.id)
    ensures Reduce(s, Add(p)).items == s.items + [FromProduct(p, 1)]
    ensures |Reduce(s, Add(p)).items| == |s.items| + 1
    ensures Reduce(s, Add(p)).items[..|s.items|] == s.items
    ensures Consistent(s) ==> Reduce(s, Add(p)).total == s.total + p.price
  {
    var r := Reduce(s, Add(p));
    TotalAppend(s.items, [FromProduct(p, 1)]);
    assert r.items[..|s.items|] == s.items;
  }

  /**
   Adding a product already in the cart below the maximum raises the quantity of that
   line alone by one, keeping its position and its stored fields (its price included,
   whatever the price of the product passed in), and raises the total by that stored price.
   */
  lemma AddExistingIncrements(s: CartState, p: Product, i: int)
    requires UniqueIds(s.items)
    requires 0 <= i < |s.items| && s.items[i].id == p.id
    requires s.items[i].quantity < MaxQuantity
    ensures Reduce(s, Add(p)).items == s.items[i := s.items[i].(quantity := s.items[i].quantity + 1)]
    ensures Consistent(s) ==> Reduce(s, Add(p)).total == s.total + s.items[i].price
  {
    assert FindIndex(s.items, p.id) == Some(i);
    var bumped := s.items[i].(quantity := s.items[i].quantity + 1);
    var mapped := MapItems(s.items, item => AddStep(item, p.id));
    assert ApplyAdd(s, p) == WithTotal(mapped);
    assert forall k :: 0 <= k < |s.items| && k != i ==> s.items[k].id != p.id;
    assert mapped == s.items[i := bumped];
    TotalUpdate(s.items, i, bumped);
    SubtotalShift(s.items[i], 1);
  }

  /** Adding a product whose first line is already at the maximum returns the very same state. */
  lemma AddAtMaxIsNoOp(s: CartState, p: Product, i: int)
    requires IsFirst(s.items, p.id, i)
    requires s.items[i].quantity >= MaxQuantity
    ensures Reduce(s, Add(p)) == s
  {
  }

  /**
   Increasing a quantity touches only the line with that id, and only below the
   maximum; every line keeps its position and its other fields.
   */
  lemma IncreaseAt(s: CartState, id: int, i: int)
    requires UniqueIds(s.items)
    requires 0 <= i < |s.items| && s.items[i].id == id
    ensures s.items[i].quantity < MaxQuantity ==>
      Reduce(s, Increase(id)).items == s.items[i := s.items[i].(quantity := s.items[i].quantity + 1)]
    ensures s.items[i].quantity >= MaxQuantity ==> Reduce(s, Increase(id)).items == s.items
    ensures Consistent(s) && s.items[i].quantity < MaxQuantity ==>
      Reduce(s, Increase(id)).total == s.total + s.items[i].price
  {
    var r := Reduce(s, Increase(id));
    if s.items[i].quantity < MaxQuantity {
      var bumped := s.items[i].(quantity := s.items[i].quantity + 1);
      assert r.items == s.items[i := bumped];
      TotalUpdate(s.items, i, bumped);
      SubtotalShift(s.items[i], 1);
    } else {
      assert r.items == s.items;
    }
  }

  /**
   Decreasing a quantity touches only the line with that id, and only above the
   minimum; every line keeps its position and its other fields.
   */
  lemma DecreaseAt(s: CartState, id: int, i: int)
    requires UniqueIds(s.items)
    requires 0 <= i < |s.items| && s.items[i].id == id
    ensures s.items[i].quantity > MinQuantity ==>
      Reduce(s, Decrease(id)).items == s.items[i := s.items[i].(quantity := s.items[i].quantity - 1)]
    ensures s.items[i].quantity <= MinQuantity ==> Reduce(s, Decrease(id)).items == s.items
    ensures Consistent(s) && s.items[i].quantity > MinQuantity ==>
      Reduce(s, Decrease(id)).total == s.total - s.items[i].price
  {
    var r := Reduce(s, Decrease(id));
    if s.items[i].quantity > MinQuantity {
      var lowered := s.items[i].(quantity := s.items[i].quantity - 1);
      assert r.items == s.items[i := lowered];
      TotalUpdate(s.items, i, lowered);
      SubtotalShift(s.items[i], -1);
    } else {
      assert r.items == s.items;
    }
  }

  /** Increasing or decreasing an id that is not in the cart leaves the line items as they were. */
  lemma AdjustAbsentIsNoOp(s: CartState, id: int)
    requires !HasId(s.items, id)
    ensures Reduce(s, Increase(id)).items == s.items
    ensures Reduce(s, Decrease(id)).items == s.items
    ensures Consistent(s) ==> Reduce(s, Increase(id)) == s && Reduce(s, Decrease(id)) == s
  {
  }

  /** Every action except adding a new product keeps the sequence of ids, and so the order of the lines. */
  lemma ReduceKeepsOrder(s: CartState, a: CartAction)
    requires !a.Remove?
    requires a.Add? ==> HasId(s.items, a.product.id)
    ensures |Reduce(s, a).items| == |s.items|
    ensures forall i :: 0 <= i < |s.items| ==> Reduce(s, a).items[i].id == s.items[i].id
  {
  }

  /** Removal leaves no line with the id, keeps the other lines in order, and changes nothing when the id is absent. */
  lemma RemoveDropsId(s: CartState, id: int)
    ensures !HasId(Reduce(s, Remove(id)).items, id)
    ensures IsSubsequence(Reduce(s, Remove(id)).items, s.items)
    ensures forall x :: x in s.items && x.id != id ==> x in Reduce(s, Remove(id)).items
    ensures forall x :: multiset(Reduce(s, Remove(id)).items)[x] == if x.id == id then 0 else multiset(s.items)[x]
    ensures !HasId(s.items, id) ==> Reduce(s, Remove(id)).items == s.items
    ensures Consistent(s) && !HasId(s.items, id) ==> Reduce(s, Remove(id)) == s
  {
    var r := Without(s.items, id);
    assert Reduce(s, Remove(id)) == CartState(r, Total(r));
    forall k | 0 <= k < |r| ensures r[k].id != id {
      assert r[k] in r;
    }
    WithoutCounts(s.items, id);
    if !HasId(s.items, id) {
      WithoutAbsent(s.items, id);
    }
  }

  /** The cached total equals the fold over the line items after every action that started from a consistent state. */
  lemma ReduceKeepsConsistent(s: CartState, a: CartAction)
    requires Consistent(s)
    ensures Consistent(Reduce(s, a))
  {
  }

  /** No action introduces a second line for an id. */
  lemma ReduceKeepsUniqueIds(s: CartState, a: CartAction)
    requires UniqueIds(s.items)
    ensures UniqueIds(Reduce(s, a).items)
  {
    match a
    case Add(p) =>
      if !HasId(s.items, p.id) {
        AddNewAppends(s, p);
      }
    case Increase(id) =>
    case Decrease(id) =>
    case Remove(id) =>
      WithoutKeepsUniqueIds(s.items, id);
  }

  /**
   A line-by-line update in which each quantity either stays or moves by one towards
   the inside of the bounds keeps quantities in range.
   */
  lemma StepsKeepQuantitiesInRange(items: seq<CartItem>, r: seq<CartItem>)
    requires QuantitiesInRange(items)
    requires |r| == |items|
    requires forall k :: 0 <= k < |r| ==>
      || r[k].quantity == items[k].quantity
      || r[k].quantity == items[k].quantity + 1 <= MaxQuantity
      || r[k].quantity == items[k].quantity - 1 >= MinQuantity
    ensures QuantitiesInRange(r)
  {
  }

  /** ADD_TO_CART keeps quantities in range. */
  lemma AddKeepsQuantitiesInRange(s: CartState, p: Product)
    requires QuantitiesInRange(s.items)
    ensures QuantitiesInRange(ApplyAdd(s, p).items)
  {
    var r := ApplyAdd(s, p);
    if !HasId(s.items, p.id) {
      assert r.items == s.items + [FromProduct(p, 1)];
    } else if r != s {
      StepsKeepQuantitiesInRange(s.items, r.items);
    }
  }

  /** No action moves a quantity out of the inclusive bounds. */
  lemma ReduceKeepsQuantitiesInRange(s: CartState, a: CartAction)
    requires QuantitiesInRange(s.items)
    ensures QuantitiesInRange(Reduce(s, a).items)
  {
    match a
    case Add(p) => AddKeepsQuantitiesInRange(s, p);
    case Increase(id) => StepsKeepQuantitiesInRange(s.items, ApplyIncrease(s, id).items);
    case Decrease(id) => StepsKeepQuantitiesInRange(s.items, ApplyDecrease(s, id).items);
    case Remove(id) =>
      var r := ApplyRemove(s, id).items;
      assert forall x :: x in r ==> x in s.items;
  }

  /** Every action maps a valid state to a valid state. */
  lemma ReduceKeepsValid(s: CartState, a: CartAction)
    ensures Valid(s) ==> Valid(Reduce(s, a))
  {
    if Valid(s) {
      ReduceKeepsUniqueIds(s, a);
      ReduceKeepsQuantitiesInRange(s, a);
    }
  }
}
