/** The header's bag button and its badge: the number of units in the cart. */
module Header {
  import opened Types
  import opened StoreActions
  import Store

  /** The badge count: the quantities of all lines summed from the first to the last, 0 for
      an empty cart. It counts units, not lines. */
  function CartCount(cart: seq<CartItem>): (n: int)
    ensures (forall i :: 0 <= i < |cart| ==> cart[i].quantity >= 0) ==> n >= 0
  {
    if cart == [] then 0
    else
      var init := cart[..|cart| - 1];
      assert forall i :: 0 <= i < |init| ==> init[i] == cart[i];
      CartCount(init) + cart[|cart| - 1].quantity
  }

  /** The badge is drawn exactly when the count is positive. */
  predicate ShowBadge(cart: seq<CartItem>)
  {
    CartCount(cart) > 0
  }

  lemma {:induction false} CartCountConcat(a: seq<CartItem>, b: seq<CartItem>)
    ensures CartCount(a + b) == CartCount(a) + CartCount(b)
  {
    if b == [] {
      assert a + b == a;
    } else {
      assert (a + b)[..|a + b| - 1] == a + b[..|b| - 1];
      CartCountConcat(a, b[..|b| - 1]);
    }
  }

  /** With positive quantities every line adds at least one unit, so the count is at least
      the number of lines; with one line of quantity 3 it is 3, not 1. */
  lemma {:induction false} CartCountAtLeastLines(cart: seq<CartItem>)
    requires AllPositive(cart)
    ensures CartCount(cart) >= |cart|
  {
    if cart != [] {
      CartCountAtLeastLines(cart[..|cart| - 1]);
    }
  }

  /** The count of an empty cart is 0, so no badge is drawn. */
  lemma EmptyCartNoBadge()
    ensures CartCount([]) == 0 && !ShowBadge([])
  {
  }

  /** For a cart with positive quantities the badge is drawn if and only if the cart has a line. */
  lemma BadgeIffNonEmpty(cart: seq<CartItem>)
    requires AllPositive(cart)
    ensures ShowBadge(cart) <==> cart != []
  {
    CartCountAtLeastLines(cart);
  }

  /** The count splits around any line. */
  lemma CartCountAround(cart: seq<CartItem>, k: nat)
    requires k < |cart|
    ensures CartCount(cart) == CartCount(cart[..k]) + cart[k].quantity + CartCount(cart[k + 1..])
  {
    var before, after := cart[..k], cart[k + 1..];
    assert cart == (before + [cart[k]]) + after;
    CartCountConcat(before + [cart[k]], after);
    assert (before + [cart[k]])[..k] == before;
  }

  /** Adding `quantity` units of a product raises the count by exactly `quantity`, whether the
      product already had a line or not. */
  lemma CartCountAdd(cart: seq<CartItem>, product: Product, quantity: int)
    requires UniqueIds(cart)
    ensures CartCount(AddToCart(cart, product, quantity)) == CartCount(cart) + quantity
  {
    if product.id in LineIds(cart) {
      var k :| 0 <= k < |cart| && LineIds(cart)[k] == product.id;
      CartCountAddExisting(cart, product, quantity, k);
    } else {
      CartCountAddNew(cart, product, quantity);
    }
  }

  lemma CartCountAddExisting(cart: seq<CartItem>, product: Product, quantity: int, k: nat)
    requires UniqueIds(cart) && k < |cart| && cart[k].Id() == product.id
    ensures CartCount(AddToCart(cart, product, quantity)) == CartCount(cart) + quantity
  {
    OnlyLineWithId(cart, k);
    AddToCartExisting(cart, product, quantity, k);
    CartCountGrowLine(cart, k, quantity);
  }

  /** Growing line `k` by `quantity` units raises the count by `quantity`. */
  lemma CartCountGrowLine(cart: seq<CartItem>, k: nat, quantity: int)
    requires k < |cart|
    ensures CartCount(cart[k := cart[k].(quantity := cart[k].quantity + quantity)]) == CartCount(cart) + quantity
  {
    CartCountSetLine(cart, k, cart[k].quantity + quantity);
  }

  /** In a cart without duplicate ids, line `k` is the only line with its id. */
  lemma OnlyLineWithId(cart: seq<CartItem>, k: nat)
    requires UniqueIds(cart) && k < |cart|
    ensures forall i :: 0 <= i < |cart| && i != k ==> cart[i].Id() != cart[k].Id()
  {
    forall i | 0 <= i < |cart| && i != k ensures cart[i].Id() != cart[k].Id() {
      if i < k { assert cart[i].Id() != cart[k].Id(); } else { assert cart[k].Id() != cart[i].Id(); }
    }
  }

  lemma CartCountAddNew(cart: seq<CartItem>, product: Product, quantity: int)
    requires product.id !in LineIds(cart)
    ensures CartCount(AddToCart(cart, product, quantity)) == CartCount(cart) + quantity
  {
    var r := AddToCart(cart, product, quantity);
    assert r[..|r| - 1] == cart;
  }

  /** Setting one line's quantity changes the count by the difference. */
  lemma CartCountSetLine(cart: seq<CartItem>, k: nat, quantity: int)
    requires k < |cart|
    ensures CartCount(cart[k := cart[k].(quantity := quantity)])
         == CartCount(cart) - cart[k].quantity + quantity
  {
    var cart' := cart[k := cart[k].(quantity := quantity)];
    CartCountAround(cart, k);
    CartCountAround(cart', k);
    assert cart'[..k] == cart[..k] && cart'[k + 1..] == cart[k + 1..];
  }

  /** Removing a line lowers the count by exactly that line's quantity. */
  lemma CartCountRemove(cart: seq<CartItem>, k: nat)
    requires UniqueIds(cart) && k < |cart|
    ensures CartCount(RemoveFromCart(cart, cart[k].Id())) == CartCount(cart) - cart[k].quantity
  {
    RemoveFromCartAt(cart, k);
    CartCountAround(cart, k);
    CartCountConcat(cart[..k], cart[k + 1..]);
  }

  /** The bag button opens the drawer and changes nothing else. */
  method OpenBag(shop: Store.Shop)
    modifies shop
    ensures shop.isCartOpen
    ensures shop.products == old(shop.products) && shop.cart == old(shop.cart)
    ensures shop.orders == old(shop.orders) && shop.skinQuizResult == old(shop.skinQuizResult)
  {
    shop.SetCartOpen(true);
  }
}
