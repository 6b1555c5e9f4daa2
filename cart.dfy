/**
 * The cart ledger (App.tsx): add, update-quantity and remove over a list of lines keyed
 * by product id, and the derived item count and total.
 */
module Cart {
  import opened Types
  import Seqs

  predicate HasLine(cart: seq<CartItem>, id: string) {
    exists i :: 0 <= i < |cart| && cart[i].Id() == id
  }

  /** At most one line per product id. */
  predicate UniqueIds(cart: seq<CartItem>) {
    forall i, j :: 0 <= i < j < |cart| ==> cart[i].Id() != cart[j].Id()
  }

  /** Every line present has a quantity of at least 1. */
  predicate PositiveQuantities(cart: seq<CartItem>) {
    forall i :: 0 <= i < |cart| ==> cart[i].quantity >= 1
  }

  /** The ledger invariant. */
  predicate WellFormed(cart: seq<CartItem>) {
    UniqueIds(cart) && PositiveQuantities(cart)
  }

  /** `cartItemCount`: the sum of the quantities. */
  function ItemCount(cart: seq<CartItem>): int
    decreases |cart|
  {
    if cart == [] then 0 else cart[0].quantity + ItemCount(cart[1..])
  }

  /** `cartTotal` (and the drawer's `subtotal`): the sum of price times quantity. */
  function CartTotal(cart: seq<CartItem>): real
    decreases |cart|
  {
    if cart == [] then 0.0 else cart[0].product.price * cart[0].quantity as real + CartTotal(cart[1..])
  }

  // ---- add ----

  /** The `map` branch of `handleAddToCart`: every line with that id grows by `quantity`. */
  function IncreaseLine(cart: seq<CartItem>, id: string, quantity: int): (r: seq<CartItem>)
    ensures |r| == |cart|
    ensures forall i :: 0 <= i < |cart| && cart[i].Id() == id ==>
              r[i] == cart[i].(quantity := cart[i].quantity + quantity)
    ensures forall i :: 0 <= i < |cart| && cart[i].Id() != id ==> r[i] == cart[i]
    decreases |cart|
  {
    if cart == [] then []
    else
      var head := if cart[0].Id() == id then cart[0].(quantity := cart[0].quantity + quantity) else cart[0];
      [head] + IncreaseLine(cart[1..], id, quantity)
  }

  /** `handleAddToCart`: grow the existing line for the product, or append a new line at the end. */
  function AddToCart(cart: seq<CartItem>, product: Product, quantity: int): (r: seq<CartItem>)
    ensures HasLine(cart, product.id) ==> r == IncreaseLine(cart, product.id, quantity)
    ensures !HasLine(cart, product.id) ==> r == cart + [CartItem(product, quantity)]
  {
    if HasLine(cart, product.id) then IncreaseLine(cart, product.id, quantity)
    else cart + [CartItem(product, quantity)]
  }

  lemma AddToCartPreservesWellFormed(cart: seq<CartItem>, product: Product, quantity: int)
    requires WellFormed(cart) && quantity >= 1
    ensures WellFormed(AddToCart(cart, product, quantity))
    ensures HasLine(AddToCart(cart, product, quantity), product.id)
  {
    var r := AddToCart(cart, product, quantity);
    if !HasLine(cart, product.id) {
      assert r[|cart|].Id() == product.id;
    } else {
      var i :| 0 <= i < |cart| && cart[i].Id() == product.id;
      assert r[i].Id() == product.id;
    }
  }

  /** A product that is not yet in the cart adds exactly one line. */
  lemma AddNewProductAddsOneLine(cart: seq<CartItem>, product: Product, quantity: int)
    requires !HasLine(cart, product.id)
    ensures |AddToCart(cart, product, quantity)| == |cart| + 1
    ensures AddToCart(cart, product, quantity)[|cart|] == CartItem(product, quantity)
  {
  }

  /** Adding a product whose line exists changes that line only, and keeps the length. */
  lemma AddExistingProductKeepsLength(cart: seq<CartItem>, product: Product, quantity: int, k: nat)
    requires k < |cart| && cart[k].Id() == product.id
    ensures |AddToCart(cart, product, quantity)| == |cart|
    ensures AddToCart(cart, product, quantity)[k].quantity == cart[k].quantity + quantity
    ensures AddToCart(cart, product, quantity)[k].product == cart[k].product
  {
  }

  /** Adding the same new product twice gives one line whose quantity is the sum. */
  lemma AddTwiceAddsQuantities(cart: seq<CartItem>, product: Product, q1: int, q2: int)
    requires !HasLine(cart, product.id)
    ensures AddToCart(AddToCart(cart, product, q1), product, q2) == cart + [CartItem(product, q1 + q2)]
  {
    var once := AddToCart(cart, product, q1);
    assert once[|cart|].Id() == product.id;
    var twice := AddToCart(once, product, q2);
    assert |twice| == |cart| + 1;
    forall i | 0 <= i < |twice|
      ensures twice[i] == (cart + [CartItem(product, q1 + q2)])[i]
    {
      if i < |cart| {
        assert !(cart[i].Id() == product.id);
      }
    }
  }

  // ---- update ----

  /** The per-line rule of `handleUpdateQuantity`: a new quantity is kept only when it is positive. */
  function Adjusted(item: CartItem, delta: int): CartItem {
    if item.quantity + delta > 0 then item.(quantity := item.quantity + delta) else item
  }

  /** `handleUpdateQuantity`: apply `delta` to the line(s) with `id`; a result of 0 or less leaves the line as it was. */
  function UpdateQuantity(cart: seq<CartItem>, id: string, delta: int): (r: seq<CartItem>)
    ensures |r| == |cart|
    ensures forall i :: 0 <= i < |cart| ==> r[i].product == cart[i].product
    ensures forall i :: 0 <= i < |cart| && cart[i].Id() != id ==> r[i] == cart[i]
    ensures forall i :: 0 <= i < |cart| && cart[i].Id() == id && cart[i].quantity + delta > 0 ==>
              r[i].quantity == cart[i].quantity + delta
    ensures forall i :: 0 <= i < |cart| && cart[i].Id() == id && cart[i].quantity + delta <= 0 ==>
              r[i] == cart[i]
  {
    seq(|cart|, i requires 0 <= i < |cart| => if cart[i].Id() == id then Adjusted(cart[i], delta) else cart[i])
  }

  lemma UpdateQuantityPreservesWellFormed(cart: seq<CartItem>, id: string, delta: int)
    requires WellFormed(cart)
    ensures WellFormed(UpdateQuantity(cart, id, delta))
  {
  }

  /** Taking a line's whole quantity away leaves the cart exactly as it was: a decrement never removes a line. */
  lemma DecrementNeverRemoves(cart: seq<CartItem>, k: nat)
    requires WellFormed(cart) && k < |cart|
    ensures UpdateQuantity(cart, cart[k].Id(), -cart[k].quantity) == cart
  {
    var r := UpdateQuantity(cart, cart[k].Id(), -cart[k].quantity);
    forall i | 0 <= i < |cart| ensures r[i] == cart[i] {
      if i != k {
        assert cart[i].Id() != cart[k].Id() by {
          if i < k { } else { }
        }
      }
    }
  }

  // ---- remove ----

  /** `handleRemoveItem`: drop every line with `id`, keeping the others in order. */
  function RemoveItem(cart: seq<CartItem>, id: string): (r: seq<CartItem>)
    ensures !HasLine(r, id)
    ensures Seqs.IsSubseq(r, cart)
    ensures forall x :: x in cart && x.Id() != id ==> x in r
    ensures forall x :: x in r ==> x in cart
    ensures !HasLine(cart, id) ==> r == cart
  {
    Seqs.Filter(cart, (item: CartItem) => item.Id() != id)
  }

  lemma {:induction false} RemoveItemPreservesWellFormed(cart: seq<CartItem>, id: string)
    requires WellFormed(cart)
    ensures WellFormed(RemoveItem(cart, id))
  {
    RemoveItemKeepsUniqueIds(cart, id);
    var r := RemoveItem(cart, id);
    forall j | 0 <= j < |r| ensures r[j].quantity >= 1 {
      assert r[j] in cart;
    }
  }

  /** The key lines are told apart by. */
  function LineId(item: CartItem): string {
    item.Id()
  }

  lemma RemoveItemKeepsUniqueIds(cart: seq<CartItem>, id: string)
    requires UniqueIds(cart)
    ensures UniqueIds(RemoveItem(cart, id))
  {
    var keep := (item: CartItem) => item.Id() != id;
    assert Seqs.DistinctKeys(cart, LineId);
    Seqs.FilterKeepsDistinctKeys(cart, keep, LineId);
    var r := Seqs.Filter(cart, keep);
    assert forall i, j :: 0 <= i < j < |r| ==> LineId(r[i]) != LineId(r[j]);
  }

  // ---- derived sums ----

  lemma {:induction false} ItemCountConcat(a: seq<CartItem>, b: seq<CartItem>)
    ensures ItemCount(a + b) == ItemCount(a) + ItemCount(b)
    decreases |a|
  {
    if a == [] {
      assert a + b == b;
    } else {
      assert (a + b)[1..] == a[1..] + b;
      ItemCountConcat(a[1..], b);
    }
  }

  lemma {:induction false} CartTotalConcat(a: seq<CartItem>, b: seq<CartItem>)
    ensures CartTotal(a + b) == CartTotal(a) + CartTotal(b)
    decreases |a|
  {
    if a == [] {
      assert a + b == b;
    } else {
      assert (a + b)[1..] == a[1..] + b;
      CartTotalConcat(a[1..], b);
    }
  }

  /** With every quantity at least 1, the item count is at least the number of lines (so it is 0 only for the empty cart). */
  lemma {:induction false} ItemCountAtLeastLines(cart: seq<CartItem>)
    requires PositiveQuantities(cart)
    ensures ItemCount(cart) >= |cart|
    decreases |cart|
  {
    if cart != [] {
      ItemCountAtLeastLines(cart[1..]);
    }
  }

  lemma {:induction false} CartTotalNonNegative(cart: seq<CartItem>)
    requires PositiveQuantities(cart)
    requires forall i :: 0 <= i < |cart| ==> cart[i].product.price >= 0.0
    ensures CartTotal(cart) >= 0.0
    decreases |cart|
  {
    if cart != [] {
      CartTotalNonNegative(cart[1..]);
    }
  }

  /** A cart with no line for `id` is untouched by growing that id's line. */
  lemma {:induction false} IncreaseAbsentLine(cart: seq<CartItem>, id: string, quantity: int)
    requires !HasLine(cart, id)
    ensures IncreaseLine(cart, id, quantity) == cart
  {
    var r := IncreaseLine(cart, id, quantity);
    assert forall i :: 0 <= i < |cart| ==> cart[i].Id() != id;
    assert forall i :: 0 <= i < |cart| ==> r[i] == cart[i];
  }

  /** On a cart without duplicate ids, adding `quantity` of a product raises the item count by `quantity`. */
  lemma {:induction false} AddToCartItemCount(cart: seq<CartItem>, product: Product, quantity: int)
    requires UniqueIds(cart)
    ensures ItemCount(AddToCart(cart, product, quantity)) == ItemCount(cart) + quantity
  {
    if HasLine(cart, product.id) {
      IncreaseLineItemCount(cart, product.id, quantity);
    } else {
      ItemCountConcat(cart, [CartItem(product, quantity)]);
      assert ItemCount([CartItem(product, quantity)]) == quantity + ItemCount([]);
    }
  }

  lemma {:induction false} IncreaseLineItemCount(cart: seq<CartItem>, id: string, quantity: int)
    requires UniqueIds(cart) && HasLine(cart, id)
    ensures ItemCount(IncreaseLine(cart, id, quantity)) == ItemCount(cart) + quantity
    decreases |cart|
  {
    var r := IncreaseLine(cart, id, quantity);
    assert r[1..] == IncreaseLine(cart[1..], id, quantity);
    if cart[0].Id() == id {
      assert !HasLine(cart[1..], id) by {
        forall m | 0 <= m < |cart[1..]| ensures cart[1..][m].Id() != id {
          assert cart[m + 1].Id() != cart[0].Id();
        }
      }
      IncreaseAbsentLine(cart[1..], id, quantity);
    } else {
      var i :| 0 <= i < |cart| && cart[i].Id() == id;
      assert cart[1..][i - 1].Id() == id;
      IncreaseLineItemCount(cart[1..], id, quantity);
    }
  }

  /** Adding a product not yet in the cart raises the total by its price times the quantity. */
  lemma AddNewProductTotal(cart: seq<CartItem>, product: Product, quantity: int)
    requires !HasLine(cart, product.id)
    ensures CartTotal(AddToCart(cart, product, quantity)) == CartTotal(cart) + product.price * quantity as real
  {
    CartTotalConcat(cart, [CartItem(product, quantity)]);
  }
}
