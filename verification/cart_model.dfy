/**
 The data model of the shopping cart context: catalog products, cart line items,
 the cart state with its cached total, and the actions the cart reducer accepts.

 Prices are integer cents, so the total is exact. Quantities are unbounded
 integers: the reducer is total over every state, and the bounds on quantities
 are invariants proved about reachable states rather than types.
 */
module CartModel {

  /** Largest quantity a line item may reach. */
  const MaxQuantity: int := 10
  /** Smallest quantity a line item may be decreased to. */
  const MinQuantity: int := 1

  datatype Option<T> = None | Some(value: T)

  /** A catalog entry. Name, image and description are opaque payload. */
  datatype Product = Product(id: int, name: string, price: int, image: string, description: string)

  /** A product together with how many of it are in the cart. */
  datatype CartItem = CartItem(id: int, name: string, price: int, image: string, description: string, quantity: int)
  {
    /** What this line contributes to the cart total. */
    function Subtotal(): int {
      price * quantity
    }
  }

  /** The line item created from a product with a given quantity (the object spread `{ ...product, quantity }`). */
  function FromProduct(p: Product, quantity: int): CartItem {
    CartItem(p.id, p.name, p.price, p.image, p.description, quantity)
  }

  /** The cart: line items in first-add order, and the cached total. */
  datatype CartState = CartState(items: seq<CartItem>, total: int)

  /** The four actions of the reducer (ADD_TO_CART, INCREASE_QUANTITY, DECREASE_QUANTITY, REMOVE_FROM_CART). */
  datatype CartAction =
    | Add(product: Product)
    | Increase(id: int)
    | Decrease(id: int)
    | Remove(id: int)

  /** Some line item carries this id. */
  predicate HasId(items: seq<CartItem>, id: int) {
    exists i :: 0 <= i < |items| && items[i].id == id
  }

  /** Index `i` holds the first line item with this id. */
  predicate IsFirst(items: seq<CartItem>, id: int, i: int) {
    && 0 <= i < |items|
    && items[i].id == id
    && forall j :: 0 <= j < i ==> items[j].id != id
  }

  /** Position of the first line item with this id, if any. */
  function FindIndex(items: seq<CartItem>, id: int): (r: Option<nat>)
    ensures r.None? <==> !HasId(items, id)
    ensures r.Some? ==> IsFirst(items, id, r.value)
  {
    if |items| == 0 then None
    else if items[0].id == id then Some(0)
    else
      match FindIndex(items[1..], id)
      case None => None
      case Some(k) => Some(k + 1)
  }

  /** The first line item with this id, as `Array.prototype.find` returns it. */
  function Find(items: seq<CartItem>, id: int): (r: Option<CartItem>)
    ensures r.None? <==> !HasId(items, id)
    ensures r.Some? ==> exists i :: IsFirst(items, id, i) && r.value == items[i]
  {
    match FindIndex(items, id)
    case None => None
    case Some(i) => Some(items[i])
  }

  /** The sum of price times quantity over the line items, folded from the left as `reduce` does. */
  function Total(items: seq<CartItem>): int {
    if |items| == 0 then 0 else Total(items[..|items| - 1]) + items[|items| - 1].Subtotal()
  }

  /** The number of units in the cart, shown on the header badge. */
  function ItemCount(items: seq<CartItem>): int {
    if |items| == 0 then 0 else ItemCount(items[..|items| - 1]) + items[|items| - 1].quantity
  }

  /** No two line items share an id. */
  predicate UniqueIds(items: seq<CartItem>) {
    forall i, j :: 0 <= i < j < |items| ==> items[i].id != items[j].id
  }

  /** Every quantity lies within the inclusive bounds. */
  predicate QuantitiesInRange(items: seq<CartItem>) {
    forall i :: 0 <= i < |items| ==> MinQuantity <= items[i].quantity <= MaxQuantity
  }

  /** The cached total agrees with the line items. */
  predicate Consistent(s: CartState) {
    s.total == Total(s.items)
  }

  /** The invariant every reachable cart state satisfies. */
  predicate Valid(s: CartState) {
    Consistent(s) && UniqueIds(s.items) && QuantitiesInRange(s.items)
  }

  /** The total distributes over concatenation. */
  lemma {:induction false} TotalAppend(a: seq<CartItem>, b: seq<CartItem>)
    ensures Total(a + b) == Total(a) + Total(b)
    decreases |b|
  {
    if |b| == 0 {
      assert a + b == a;
    } else {
      var b' := b[..|b| - 1];
      assert (a + b)[..|a + b| - 1] == a + b';
      TotalAppend(a, b');
      assert b[..|b| - 1] == b';
    }
  }

  /** Replacing one line item changes the total by exactly the difference of the two subtotals. */
  lemma TotalUpdate(items: seq<CartItem>, i: int, x: CartItem)
    requires 0 <= i < |items|
    ensures Total(items[i := x]) == Total(items) - items[i].Subtotal() + x.Subtotal()
  {
    var pre, post := items[..i], items[i + 1..];
    assert items == pre + [items[i]] + post;
    assert items[i := x] == pre + [x] + post;
    TotalAppend(pre + [items[i]], post);
    TotalAppend(pre + [x], post);
    TotalAppend(pre, [items[i]]);
    TotalAppend(pre, [x]);
  }

  /** Moving a line's quantity by `d` moves its subtotal by `d` times its price. */
  lemma SubtotalShift(item: CartItem, d: int)
    ensures item.(quantity := item.quantity + d).Subtotal() == item.Subtotal() + d * item.price
  {
    assert item.price * (item.quantity + d) == item.price * item.quantity + item.price * d;
  }

  /** With non-negative prices and quantities in range, the total is never negative. */
  lemma {:induction false} TotalNonNegative(items: seq<CartItem>)
    requires QuantitiesInRange(items)
    requires forall i :: 0 <= i < |items| ==> items[i].price >= 0
    ensures Total(items) >= 0
    decreases |items|
  {
    if |items| > 0 {
      TotalNonNegative(items[..|items| - 1]);
    }
  }

  /** With quantities in range, the badge count lies between the number of lines and ten units per line. */
  lemma {:induction false} ItemCountBounds(items: seq<CartItem>)
    requires QuantitiesInRange(items)
    ensures |items| <= ItemCount(items) <= MaxQuantity * |items|
    decreases |items|
  {
    if |items| > 0 {
      ItemCountBounds(items[..|items| - 1]);
    }
  }
}
