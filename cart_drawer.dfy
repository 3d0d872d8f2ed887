/** The cart drawer: the subtotal and line totals it displays, and its buttons, which call
    the store's cart actions. */
module CartDrawer {
  import opened Types
  import opened StoreActions
  import Catalog
  import Store

  /** A zero-quantity line, which only `addToCart` can leave behind, is purged by a quantity
      update for any id, even one with no line. */
  lemma UpdateAbsentDropsZeroLine()
    ensures UpdateCartQuantity([CartItem(Catalog.LedMask, 0, None)], "nope", 5) == []
  {
    var cart := [CartItem(Catalog.LedMask, 0, None)];
    assert LineIds(cart)[0] == "ali-1";
    UpdateCartQuantityAbsent(cart, "nope", 5);
    assert !HasPositiveQuantity(cart[0]);
  }

  /** What a line displays as its total: price times quantity. */
  function LineTotal(line: CartItem): (t: real)
    ensures line.product.price >= 0.0 && line.quantity >= 0 ==> t >= 0.0
  {
    line.product.price * line.quantity as real
  }

  /** The drawer's subtotal: the line totals summed from the first line to the last,
      starting at 0 for an empty cart. */
  function Subtotal(cart: seq<CartItem>): (t: real)
    ensures (forall i :: 0 <= i < |cart| ==> cart[i].product.price >= 0.0 && cart[i].quantity >= 0) ==> t >= 0.0
  {
    if cart == [] then 0.0
    else
      var init := cart[..|cart| - 1];
      assert forall i :: 0 <= i < |init| ==> init[i] == cart[i];
      Subtotal(init) + LineTotal(cart[|cart| - 1])
  }

  lemma {:induction false} SubtotalConcat(a: seq<CartItem>, b: seq<CartItem>)
    ensures Subtotal(a + b) == Subtotal(a) + Subtotal(b)
  {
    if b == [] {
      assert a + b == a;
    } else {
      assert (a + b)[..|a + b| - 1] == a + b[..|b| - 1];
      SubtotalConcat(a, b[..|b| - 1]);
    }
  }

  /** The subtotal splits around any line. */
  lemma SubtotalAround(cart: seq<CartItem>, k: nat)
    requires k < |cart|
    ensures Subtotal(cart) == Subtotal(cart[..k]) + LineTotal(cart[k]) + Subtotal(cart[k + 1..])
  {
    var before, after := cart[..k], cart[k + 1..];
    assert cart == (before + [cart[k]]) + after;
    SubtotalConcat(before + [cart[k]], after);
    assert (before + [cart[k]])[..k] == before;
  }

  /** Replacing one line changes the subtotal by exactly the difference of the two line totals. */
  lemma SubtotalReplaceLine(cart: seq<CartItem>, k: nat, line: CartItem)
    requires k < |cart|
    ensures Subtotal(cart[k := line]) == Subtotal(cart) - LineTotal(cart[k]) + LineTotal(line)
  {
    var cart' := cart[k := line];
    SubtotalAround(cart, k);
    SubtotalAround(cart', k);
    assert cart'[..k] == cart[..k] && cart'[k + 1..] == cart[k + 1..];
  }

  /** Adding a product that has no line grows the subtotal by its price times the quantity. */
  lemma SubtotalAddNew(cart: seq<CartItem>, product: Product, quantity: int)
    requires product.id !in LineIds(cart)
    ensures Subtotal(AddToCart(cart, product, quantity)) == Subtotal(cart) + product.price * quantity as real
  {
    var r := AddToCart(cart, product, quantity);
    assert r[..|r| - 1] == cart;
    assert LineTotal(r[|r| - 1]) == product.price * quantity as real;
  }

  /** Adding a product that already has a line grows the subtotal by the price STORED in that
      line times the quantity: a changed catalog price does not reach the cart. */
  lemma SubtotalAddExisting(cart: seq<CartItem>, product: Product, quantity: int, k: nat)
    requires UniqueIds(cart) && k < |cart| && cart[k].Id() == product.id
    ensures Subtotal(AddToCart(cart, product, quantity))
         == Subtotal(cart) + cart[k].product.price * quantity as real
  {
    forall i | 0 <= i < |cart| && i != k ensures cart[i].Id() != product.id {
      if i < k { assert cart[i].Id() != cart[k].Id(); } else { assert cart[k].Id() != cart[i].Id(); }
    }
    AddToCartExisting(cart, product, quantity, k);
    SubtotalGrowLine(cart, k, quantity);
  }

  /** Raising one line's quantity raises the subtotal by that line's price times the raise. */
  lemma SubtotalGrowLine(cart: seq<CartItem>, k: nat, quantity: int)
    requires k < |cart|
    ensures Subtotal(cart[k := cart[k].(quantity := cart[k].quantity + quantity)])
         == Subtotal(cart) + cart[k].product.price * quantity as real
  {
    var line := cart[k].(quantity := cart[k].quantity + quantity);
    LineTotalGrows(cart[k], quantity);
    SubtotalReplaceLine(cart, k, line);
    var before, after, grown := LineTotal(cart[k]), LineTotal(line), Subtotal(cart[k := line]);
    assert grown == Subtotal(cart) - before + after;
  }

  lemma LineTotalGrows(line: CartItem, quantity: int)
    ensures LineTotal(line.(quantity := line.quantity + quantity))
         == LineTotal(line) + line.product.price * quantity as real
  {
    var price, q := line.product.price, line.quantity as real;
    assert (line.quantity + quantity) as real == q + quantity as real;
    assert price * (q + quantity as real) == price * q + price * quantity as real;
  }

  /** Removing a line lowers the subtotal by exactly that line's total. */
  lemma SubtotalRemove(cart: seq<CartItem>, k: nat)
    requires UniqueIds(cart) && k < |cart|
    ensures Subtotal(RemoveFromCart(cart, cart[k].Id())) == Subtotal(cart) - LineTotal(cart[k])
  {
    RemoveFromCartAt(cart, k);
    SubtotalAround(cart, k);
    SubtotalConcat(cart[..k], cart[k + 1..]);
  }

  /** On the seed catalog: add ali-1 twice, add ali-2 once, then set ali-1 to one. The cart
      holds ali-1 and ali-2 once each, in that order, and the subtotal is 179.98. */
  lemma SeedCartScenario()
    ensures var c1 := AddToCart([], Catalog.InitialProducts[0], 2);
            var c2 := AddToCart(c1, Catalog.InitialProducts[1], 1);
            var c3 := UpdateCartQuantity(c2, "ali-1", 1);
            && c3 == [CartItem(Catalog.LedMask, 1, None), CartItem(Catalog.BrushPurifier, 1, None)]
            && Subtotal(c3) == 179.98
  {
    SeedAddFirst();
    SeedAddSecond();
    SeedSetQuantity();
    SeedSubtotal();
  }

  lemma SeedAddFirst()
    ensures AddToCart([], Catalog.LedMask, 2) == [CartItem(Catalog.LedMask, 2, None)]
  {
    assert LineIds([]) == [];
  }

  lemma SeedAddSecond()
    ensures AddToCart([CartItem(Catalog.LedMask, 2, None)], Catalog.BrushPurifier, 1)
         == [CartItem(Catalog.LedMask, 2, None), CartItem(Catalog.BrushPurifier, 1, None)]
  {
    assert LineIds([CartItem(Catalog.LedMask, 2, None)]) == ["ali-1"];
  }

  lemma SeedSetQuantity()
    ensures UpdateCartQuantity([CartItem(Catalog.LedMask, 2, None), CartItem(Catalog.BrushPurifier, 1, None)], "ali-1", 1)
         == [CartItem(Catalog.LedMask, 1, None), CartItem(Catalog.BrushPurifier, 1, None)]
  {
    var c := [CartItem(Catalog.LedMask, 2, None), CartItem(Catalog.BrushPurifier, 1, None)];
    assert WellFormedCart(c);
    UpdateCartQuantityAt(c, 0, 1);
  }

  lemma SeedSubtotal()
    ensures Subtotal([CartItem(Catalog.LedMask, 1, None), CartItem(Catalog.BrushPurifier, 1, None)]) == 179.98
  {
    var c := [CartItem(Catalog.LedMask, 1, None), CartItem(Catalog.BrushPurifier, 1, None)];
    assert c[..1] == [CartItem(Catalog.LedMask, 1, None)];
    assert c[..1][..0] == [];
    assert Subtotal(c[..1]) == LineTotal(c[0]) == 129.99;
    assert LineTotal(c[1]) == 49.99;
  }

  /** The "+" button of line `k`: that line's quantity grows by exactly one. */
  method Increment(shop: Store.Shop, k: nat)
    requires shop.Valid() && k < |shop.cart|
    modifies shop
    ensures shop.Valid()
    ensures shop.cart == UpdateCartQuantity(old(shop.cart), old(shop.cart[k]).Id(), old(shop.cart[k]).quantity + 1)
    ensures AllPositive(old(shop.cart)) ==>
      shop.cart == old(shop.cart)[k := old(shop.cart[k]).(quantity := old(shop.cart[k]).quantity + 1)]
    ensures shop.products == old(shop.products) && shop.orders == old(shop.orders)
    ensures shop.isCartOpen == old(shop.isCartOpen) && shop.skinQuizResult == old(shop.skinQuizResult)
  {
    var line := shop.cart[k];
    if AllPositive(shop.cart) {
      UpdateCartQuantityAt(shop.cart, k, line.quantity + 1);
    }
    shop.UpdateCartQuantity(line.Id(), line.quantity + 1);
  }

  /** The "−" button of line `k`: a line at quantity one leaves the cart, any other line
      loses exactly one unit. */
  method Decrement(shop: Store.Shop, k: nat)
    requires shop.Valid() && k < |shop.cart|
    modifies shop
    ensures shop.Valid()
    ensures shop.cart == UpdateCartQuantity(old(shop.cart), old(shop.cart[k]).Id(), old(shop.cart[k]).quantity - 1)
    ensures AllPositive(old(shop.cart)) ==>
      shop.cart == if old(shop.cart[k]).quantity == 1
                   then old(shop.cart)[..k] + old(shop.cart)[k + 1..]
                   else old(shop.cart)[k := old(shop.cart[k]).(quantity := old(shop.cart[k]).quantity - 1)]
    ensures shop.products == old(shop.products) && shop.orders == old(shop.orders)
    ensures shop.isCartOpen == old(shop.isCartOpen) && shop.skinQuizResult == old(shop.skinQuizResult)
  {
    var line := shop.cart[k];
    if AllPositive(shop.cart) {
      DecrementLine(shop.cart, k);
    }
    shop.UpdateCartQuantity(line.Id(), line.quantity - 1);
  }

  /** On a well-formed cart, lowering line `k` by one removes it at quantity one and
      otherwise lowers only its quantity. */
  lemma DecrementLine(cart: seq<CartItem>, k: nat)
    requires UniqueIds(cart) && AllPositive(cart) && k < |cart|
    ensures UpdateCartQuantity(cart, cart[k].Id(), cart[k].quantity - 1)
         == if cart[k].quantity == 1 then cart[..k] + cart[k + 1..]
            else cart[k := cart[k].(quantity := cart[k].quantity - 1)]
  {
    if cart[k].quantity == 1 {
      UpdateCartQuantityNonPositive(cart, cart[k].Id(), 0);
      RemoveFromCartAt(cart, k);
    } else {
      UpdateCartQuantityAt(cart, k, cart[k].quantity - 1);
    }
  }

  /** The "Remove" button of line `k`: exactly that line leaves the cart. */
  method Remove(shop: Store.Shop, k: nat)
    requires shop.Valid() && k < |shop.cart|
    modifies shop
    ensures shop.Valid()
    ensures shop.cart == old(shop.cart)[..k] + old(shop.cart)[k + 1..]
    ensures shop.products == old(shop.products) && shop.orders == old(shop.orders)
    ensures shop.isCartOpen == old(shop.isCartOpen) && shop.skinQuizResult == old(shop.skinQuizResult)
  {
    RemoveFromCartAt(shop.cart, k);
    shop.RemoveFromCart(shop.cart[k].Id());
  }

  /** The backdrop, the close button, the checkout link and "Continue Shopping" all close
      the drawer and change nothing else. */
  method Close(shop: Store.Shop)
    modifies shop
    ensures !shop.isCartOpen
    ensures shop.products == old(shop.products) && shop.cart == old(shop.cart)
    ensures shop.orders == old(shop.orders) && shop.skinQuizResult == old(shop.skinQuizResult)
  {
    shop.SetCartOpen(false);
  }
}
