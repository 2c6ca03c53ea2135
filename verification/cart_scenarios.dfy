/**
 Concrete runs of the cart operations, pinning down the behaviour at the bounds,
 in particular the asymmetry at the maximum: adding silently keeps the state,
 while an explicit increase reports failure.
 */
module CartScenarios {
  import opened CartModel
  import opened CartReducer
  import opened CartProvider

  const P1: Product := Product(1, "P1", 1000, "p1.png", "first")
  const P2: Product := Product(2, "P2", 2000, "p2.png", "second")

  /** Adding to the empty cart creates one line of quantity 1 and a total of its price. */
  lemma AddToEmptyCart()
    ensures AddToCart(InitialState(), P1) == CartState([FromProduct(P1, 1)], 1000)
  {
    assert !HasId(InitialState().items, P1.id);
  }

  /** A line at the maximum: add keeps the state silently, increase reports failure, both leave it unchanged. */
  lemma AsymmetryAtMaximum()
    ensures var s := CartState([FromProduct(P1, 10)], 10000);
      && AddToCart(s, P1) == s
      && IncreaseQuantity(s, P1.id) == Outcome(s, false)
  {
    var s := CartState([FromProduct(P1, 10)], 10000);
    assert IsFirst(s.items, P1.id, 0);
    AddAtMaxIsNoOp(s, P1, 0);
  }

  /** Increase and decrease on an id that is not in the cart still report success. */
  lemma AbsentIdReportsSuccess()
    ensures var s := CartState([FromProduct(P1, 3)], 3000);
      && IncreaseQuantity(s, P2.id) == Outcome(s, true)
      && DecreaseQuantity(s, P2.id) == Outcome(s, true)
  {
    var s := CartState([FromProduct(P1, 3)], 3000);
    assert !HasId(s.items, P2.id);
    assert s.items[..0] == [];
    assert Consistent(s);
    AdjustAbsentIsNoOp(s, P2.id);
  }

  /** Decreasing from 5 succeeds; decreasing from 1 fails and keeps the state. */
  lemma DecreaseAtAndAboveMinimum()
    ensures var s := CartState([FromProduct(P1, 5)], 5000);
      DecreaseQuantity(s, P1.id) == Outcome(CartState([FromProduct(P1, 4)], 4000), true)
    ensures var s := CartState([FromProduct(P1, 1)], 1000);
      DecreaseQuantity(s, P1.id) == Outcome(s, false)
  {
    var s := CartState([FromProduct(P1, 5)], 5000);
    assert IsFirst(s.items, P1.id, 0);
    DecreaseAt(s, P1.id, 0);
    assert s.items[..0] == [];
    assert Consistent(s);
    var t := CartState([FromProduct(P1, 1)], 1000);
    assert IsFirst(t.items, P1.id, 0);
  }

  /** Removing the first of two lines keeps the second and recomputes the total from it alone. */
  lemma RemoveFirstOfTwo()
    ensures RemoveFromCart(CartState([FromProduct(P1, 3), FromProduct(P2, 2)], 7000), P1.id)
      == CartState([FromProduct(P2, 2)], 4000)
  {
    var items := [FromProduct(P1, 3), FromProduct(P2, 2)];
    assert items[1..] == [FromProduct(P2, 2)];
    assert Without(items, P1.id) == [FromProduct(P2, 2)] by {
      assert Without(items[1..][1..], P1.id) == [];
    }
    assert [FromProduct(P2, 2)][..0] == [];
    assert Total([FromProduct(P2, 2)]) == 4000;
    assert Reduce(CartState(items, 7000), Remove(P1.id)) == CartState([FromProduct(P2, 2)], 4000);
  }
}
