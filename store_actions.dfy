/** The list transformations inside the store's actions, as pure functions of the old list:
    `map`, `filter` and spread over the catalog and the cart. The store object that holds
    the state and applies them is `Store.Shop`. */
module StoreActions {
  import opened Types
  import opened Lists

  // ---------------------------------------------------------------- catalog

  function ProductIds(products: seq<Product>): (ids: seq<string>)
    ensures |ids| == |products|
    ensures forall i :: 0 <= i < |products| ==> ids[i] == products[i].id
  {
    Map(products, (p: Product) => p.id)
  }

  /** `updateProduct`: every product whose id matches is replaced by `product`;
      all others stay as they were, at their positions. */
  function UpdateProduct(products: seq<Product>, product: Product): (r: seq<Product>)
    ensures |r| == |products|
    ensures forall i :: 0 <= i < |products| ==>
      r[i] == if products[i].id == product.id then product else products[i]
  {
    Map(products, (p: Product) => if p.id == product.id then product else p)
  }

  /** `deleteProduct`: exactly the products with that id are dropped, the rest keep their order. */
  function DeleteProduct(products: seq<Product>, id: string): (r: seq<Product>)
    ensures forall p :: p in r <==> p in products && p.id != id
    ensures id !in ProductIds(r)
    ensures IsSubsequence(r, products)
  {
    FilterIsSubsequence(products, (p: Product) => p.id != id);
    Filter(products, (p: Product) => p.id != id)
  }

  /** Updating keeps the catalog's ids, in order; updating an absent id changes nothing;
      updating twice with the same product is the same as updating once. */
  lemma UpdateProductFacts(products: seq<Product>, product: Product)
    ensures ProductIds(UpdateProduct(products, product)) == ProductIds(products)
    ensures product.id !in ProductIds(products) ==> UpdateProduct(products, product) == products
    ensures UpdateProduct(UpdateProduct(products, product), product) == UpdateProduct(products, product)
  {
  }

  /** Deleting an id the catalog does not hold leaves the catalog as it was. */
  lemma DeleteProductAbsent(products: seq<Product>, id: string)
    requires id !in ProductIds(products)
    ensures DeleteProduct(products, id) == products
  {
    assert forall i :: 0 <= i < |products| ==> products[i].id != id by {
      forall i | 0 <= i < |products| ensures products[i].id != id {
        assert ProductIds(products)[i] == products[i].id;
      }
    }
    FilterKeepsAll(products, (p: Product) => p.id != id);
  }

  /** `addProduct` does not check ids: appending a product whose id the catalog already
      holds leaves two products with that id. */
  lemma AddProductKeepsDuplicates(products: seq<Product>, product: Product)
    requires product.id in ProductIds(products)
    ensures exists i, j ::
      && 0 <= i < j < |products + [product]|
      && (products + [product])[i].id == (products + [product])[j].id
  {
    var i :| 0 <= i < |products| && ProductIds(products)[i] == product.id;
    var all := products + [product];
    assert all[i].id == all[|products|].id;
  }

  // ---------------------------------------------------------------- cart

  function LineIds(cart: seq<CartItem>): (ids: seq<string>)
    ensures |ids| == |cart|
    ensures forall i :: 0 <= i < |cart| ==> ids[i] == cart[i].Id()
  {
    Map(cart, (l: CartItem) => l.Id())
  }

  /** At most one cart line per product id. */
  ghost predicate UniqueIds(cart: seq<CartItem>)
  {
    forall i, j :: 0 <= i < j < |cart| ==> cart[i].Id() != cart[j].Id()
  }

  /** Every cart line has a quantity of at least one. */
  ghost predicate AllPositive(cart: seq<CartItem>)
  {
    forall i :: 0 <= i < |cart| ==> cart[i].quantity > 0
  }

  /** The shape of every cart the storefront's own buttons can produce. */
  ghost predicate WellFormedCart(cart: seq<CartItem>)
  {
    UniqueIds(cart) && AllPositive(cart)
  }

  /** `addToCart`: if a line for the product's id exists, only its quantity grows (its stored
      product fields, price included, are kept); otherwise a new line is appended. */
  function AddToCart(cart: seq<CartItem>, product: Product, quantity: int): (r: seq<CartItem>)
    ensures product.id in LineIds(cart) ==> LineIds(r) == LineIds(cart)
    ensures product.id !in LineIds(cart) ==> LineIds(r) == LineIds(cart) + [product.id]
    ensures product.id !in LineIds(cart) ==> r == cart + [CartItem(product, quantity, None)]
  {
    if product.id in LineIds(cart) then
      Map(cart, (l: CartItem) => if l.Id() == product.id then l.(quantity := l.quantity + quantity) else l)
    else
      cart + [CartItem(product, quantity, None)]
  }

  /** `removeFromCart`: the lines with that id are dropped, the others keep their order. */
  function RemoveFromCart(cart: seq<CartItem>, id: string): (r: seq<CartItem>)
    ensures forall l :: l in r <==> l in cart && l.Id() != id
    ensures id !in LineIds(r)
    ensures IsSubsequence(r, cart)
  {
    FilterIsSubsequence(cart, OtherLine(id));
    Filter(cart, OtherLine(id))
  }

  /** The test `removeFromCart` filters with: the line is not for `id`. */
  function OtherLine(id: string): CartItem -> bool
  {
    (l: CartItem) => l.Id() != id
  }

  predicate HasPositiveQuantity(line: CartItem)
  {
    line.quantity > 0
  }

  /** The first step of `updateCartQuantity`: the lines with that id get the new quantity. */
  function SetLineQuantity(cart: seq<CartItem>, id: string, quantity: int): (r: seq<CartItem>)
    ensures |r| == |cart|
    ensures forall i :: 0 <= i < |cart| ==>
      r[i] == if cart[i].Id() == id then cart[i].(quantity := quantity) else cart[i]
  {
    Map(cart, (l: CartItem) => if l.Id() == id then l.(quantity := quantity) else l)
  }

  /** `updateCartQuantity`: the matching line is set to max(0, quantity), then EVERY line with
      a quantity of zero or less is purged, not only the updated one. */
  function UpdateCartQuantity(cart: seq<CartItem>, id: string, quantity: int): (r: seq<CartItem>)
    ensures AllPositive(r)
    ensures quantity <= 0 ==> id !in LineIds(r)
    ensures quantity > 0 ==> forall l :: l in r && l.Id() == id ==> l.quantity == quantity
    ensures forall l: CartItem :: l.Id() != id ==> (l in r <==> l in cart && l.quantity > 0)
    ensures IsSubsequence(r, SetLineQuantity(cart, id, if 0 >= quantity then 0 else quantity))
  {
    var q := if 0 >= quantity then 0 else quantity;
    var set_ := SetLineQuantity(cart, id, q);
    FilterIsSubsequence(set_, HasPositiveQuantity);
    SetLineQuantityMembers(cart, id, q);
    var r := Filter(set_, HasPositiveQuantity);
    assert forall i :: 0 <= i < |r| ==> r[i] in r;
    r
  }

  /** After setting, the lines for `id` carry the new quantity and the other lines are the
      old ones. */
  lemma SetLineQuantityMembers(cart: seq<CartItem>, id: string, quantity: int)
    ensures forall l :: l in SetLineQuantity(cart, id, quantity) && l.Id() == id ==> l.quantity == quantity
    ensures forall l: CartItem :: l.Id() != id ==> (l in SetLineQuantity(cart, id, quantity) <==> l in cart)
  {
    var set_ := SetLineQuantity(cart, id, quantity);
    forall l: CartItem | l.Id() != id && l in cart ensures l in set_ {
      var i :| 0 <= i < |cart| && cart[i] == l;
      assert set_[i] == l;
    }
  }

  /** A positive quantity for an id the cart holds keeps a line for that id. */
  lemma UpdateCartQuantityKeepsLine(cart: seq<CartItem>, id: string, quantity: int)
    requires quantity > 0 && id in LineIds(cart)
    ensures id in LineIds(UpdateCartQuantity(cart, id, quantity))
  {
    var set_ := SetLineQuantity(cart, id, quantity);
    var r := UpdateCartQuantity(cart, id, quantity);
    var k :| 0 <= k < |cart| && LineIds(cart)[k] == id;
    assert set_[k] in Filter(set_, HasPositiveQuantity);
    var j :| 0 <= j < |r| && r[j] == set_[k];
    assert LineIds(r)[j] == id;
  }

  // ---------------------------------------------------------------- cart lemmas

  /** Line by line: every line for the product's id grows by `quantity`, every other line
      is kept as it was. */
  lemma AddToCartLines(cart: seq<CartItem>, product: Product, quantity: int)
    ensures |AddToCart(cart, product, quantity)| >= |cart|
    ensures forall i :: 0 <= i < |cart| ==>
      AddToCart(cart, product, quantity)[i]
      == if cart[i].Id() == product.id then cart[i].(quantity := cart[i].quantity + quantity) else cart[i]
  {
    if product.id !in LineIds(cart) {
      forall i | 0 <= i < |cart| ensures cart[i].Id() != product.id {
        assert LineIds(cart)[i] == cart[i].Id();
      }
    }
  }

  /** When line `k` is the only line for the product's id, adding grows that line's quantity
      by `quantity` and changes nothing else: price and other stored fields stay as they were. */
  lemma AddToCartExisting(cart: seq<CartItem>, product: Product, quantity: int, k: nat)
    requires k < |cart| && cart[k].Id() == product.id
    requires forall i :: 0 <= i < |cart| && i != k ==> cart[i].Id() != product.id
    ensures AddToCart(cart, product, quantity) == cart[k := cart[k].(quantity := cart[k].quantity + quantity)]
  {
    assert LineIds(cart)[k] == product.id;
    AddToCartLines(cart, product, quantity);
  }

  /** Adding keeps the cart free of duplicate ids, and with a positive quantity keeps every
      line positive. */
  lemma AddToCartWellFormed(cart: seq<CartItem>, product: Product, quantity: int)
    requires UniqueIds(cart)
    ensures UniqueIds(AddToCart(cart, product, quantity))
    ensures AllPositive(cart) && quantity >= 1 ==> AllPositive(AddToCart(cart, product, quantity))
  {
    var r := AddToCart(cart, product, quantity);
    AddToCartLines(cart, product, quantity);
    assert forall i :: 0 <= i < |r| ==> r[i].Id() == LineIds(r)[i];
    if product.id !in LineIds(cart) {
      assert forall i :: 0 <= i < |cart| ==> LineIds(cart)[i] != product.id;
    }
  }

  /** `addToCart` does not validate the quantity: adding a new product with quantity 0
      appends a line of quantity 0, which no other action would leave behind. */
  lemma AddToCartUnchecked(cart: seq<CartItem>, product: Product)
    requires product.id !in LineIds(cart)
    ensures !AllPositive(AddToCart(cart, product, 0))
  {
    var r := AddToCart(cart, product, 0);
    assert r[|cart|].quantity == 0;
  }

  ghost function Sum(qs: seq<int>): int
  {
    if qs == [] then 0 else Sum(qs[..|qs| - 1]) + qs[|qs| - 1]
  }

  /** Adding the same product once for every quantity in `qs`, in order. */
  ghost function AddRepeatedly(cart: seq<CartItem>, product: Product, qs: seq<int>): seq<CartItem>
  {
    if qs == [] then cart else AddToCart(AddRepeatedly(cart, product, qs[..|qs| - 1]), product, qs[|qs| - 1])
  }

  /** Repeated adds of a product not yet in the cart yield one single new line whose quantity
      is the sum of the quantities added. */
  lemma {:induction false} AddRepeatedlyMerges(cart: seq<CartItem>, product: Product, qs: seq<int>)
    requires product.id !in LineIds(cart)
    requires qs != []
    ensures AddRepeatedly(cart, product, qs) == cart + [CartItem(product, Sum(qs), None)]
  {
    var init, last := qs[..|qs| - 1], qs[|qs| - 1];
    assert Sum(qs) == Sum(init) + last;
    assert AddRepeatedly(cart, product, qs) == AddToCart(AddRepeatedly(cart, product, init), product, last);
    if init == [] {
      assert AddRepeatedly(cart, product, init) == cart;
    } else {
      AddRepeatedlyMerges(cart, product, init);
      AddToLastLine(cart, product, Sum(init), last);
    }
  }

  /** Adding to the line that was appended for a new product grows only that line. */
  lemma AddToLastLine(cart: seq<CartItem>, product: Product, quantity: int, more: int)
    requires product.id !in LineIds(cart)
    ensures AddToCart(cart + [CartItem(product, quantity, None)], product, more)
         == cart + [CartItem(product, quantity + more, None)]
  {
    var c := cart + [CartItem(product, quantity, None)];
    forall i | 0 <= i < |c| && i != |cart| ensures c[i].Id() != product.id {
      assert LineIds(cart)[i] == cart[i].Id();
    }
    AddToCartExisting(c, product, more, |cart|);
    assert c[|cart| := c[|cart|].(quantity := quantity + more)] == cart + [CartItem(product, quantity + more, None)];
  }

  /** Removing an id that has no line leaves the cart as it was. */
  lemma RemoveFromCartAbsent(cart: seq<CartItem>, id: string)
    requires id !in LineIds(cart)
    ensures RemoveFromCart(cart, id) == cart
  {
    forall i | 0 <= i < |cart| ensures cart[i].Id() != id {
      assert LineIds(cart)[i] == cart[i].Id();
    }
    FilterKeepsAll(cart, OtherLine(id));
  }

  /** In a cart without duplicate ids, removing line `k`'s id removes exactly line `k`. */
  lemma RemoveFromCartAt(cart: seq<CartItem>, k: nat)
    requires UniqueIds(cart) && k < |cart|
    ensures RemoveFromCart(cart, cart[k].Id()) == cart[..k] + cart[k + 1..]
  {
    var keep := OtherLine(cart[k].Id());
    var before, after := cart[..k], cart[k + 1..];
    forall i | 0 <= i < |before| ensures keep(before[i]) {
      assert before[i] == cart[i];
    }
    forall i | 0 <= i < |after| ensures keep(after[i]) {
      assert after[i] == cart[k + 1 + i];
    }
    assert cart == before + ([cart[k]] + after);
    FilterDropsOne(before, cart[k], after, keep);
  }

  /** Keeping only some lines of a cart without duplicate ids leaves no duplicate ids. */
  lemma {:induction false} FilterKeepsUniqueIds(cart: seq<CartItem>, keep: CartItem -> bool)
    requires UniqueIds(cart)
    ensures UniqueIds(Filter(cart, keep))
  {
    if cart != [] {
      var init, last := cart[..|cart| - 1], cart[|cart| - 1];
      FilterKeepsUniqueIds(init, keep);
      var rest := Filter(init, keep);
      forall i | 0 <= i < |rest| ensures rest[i].Id() != last.Id() {
        assert rest[i] in init;
      }
    }
  }

  /** Removing lines and updating quantities keep a well-formed cart well-formed. */
  lemma RemoveAndUpdateWellFormed(cart: seq<CartItem>, id: string, quantity: int)
    requires UniqueIds(cart)
    ensures UniqueIds(RemoveFromCart(cart, id))
    ensures AllPositive(cart) ==> AllPositive(RemoveFromCart(cart, id))
    ensures UniqueIds(UpdateCartQuantity(cart, id, quantity))
  {
    FilterKeepsUniqueIds(cart, OtherLine(id));
    var r := RemoveFromCart(cart, id);
    forall i | 0 <= i < |r| ensures r[i] in cart {
      assert r[i] in r;
    }
    var set_ := SetLineQuantity(cart, id, if 0 >= quantity then 0 else quantity);
    FilterKeepsUniqueIds(set_, HasPositiveQuantity);
  }

  /** On a cart whose lines are all positive, a positive quantity only overwrites the
      matching line: nothing is purged. */
  lemma UpdateCartQuantityPositive(cart: seq<CartItem>, id: string, quantity: int)
    requires AllPositive(cart) && quantity > 0
    ensures UpdateCartQuantity(cart, id, quantity) == SetLineQuantity(cart, id, quantity)
  {
    FilterKeepsAll(SetLineQuantity(cart, id, quantity), HasPositiveQuantity);
  }

  /** With an id that has no line, the quantity is ignored but the purge still runs: every line
      of quantity 0 or less leaves the cart, so the call is a no-op only on a positive cart. */
  lemma UpdateCartQuantityAbsent(cart: seq<CartItem>, id: string, quantity: int)
    requires id !in LineIds(cart)
    ensures UpdateCartQuantity(cart, id, quantity) == Filter(cart, HasPositiveQuantity)
    ensures AllPositive(cart) ==> UpdateCartQuantity(cart, id, quantity) == cart
  {
    var q := if 0 >= quantity then 0 else quantity;
    forall i | 0 <= i < |cart| ensures cart[i].Id() != id {
      assert LineIds(cart)[i] == cart[i].Id();
    }
    assert SetLineQuantity(cart, id, q) == cart;
    if AllPositive(cart) {
      FilterKeepsAll(cart, HasPositiveQuantity);
    }
  }

  /** When line `k` is the only line with its id and all lines are positive, setting a positive
      quantity changes exactly that line's quantity. */
  lemma UpdateCartQuantityAt(cart: seq<CartItem>, k: nat, quantity: int)
    requires WellFormedCart(cart) && k < |cart| && quantity > 0
    ensures UpdateCartQuantity(cart, cart[k].Id(), quantity) == cart[k := cart[k].(quantity := quantity)]
  {
    UpdateCartQuantityPositive(cart, cart[k].Id(), quantity);
  }

  /** On a cart whose lines are all positive, a quantity of zero or less is the same as
      removing the line. */
  lemma {:induction false} UpdateCartQuantityNonPositive(cart: seq<CartItem>, id: string, quantity: int)
    requires AllPositive(cart) && quantity <= 0
    ensures UpdateCartQuantity(cart, id, quantity) == RemoveFromCart(cart, id)
  {
    if cart != [] {
      var init := cart[..|cart| - 1];
      UpdateCartQuantityNonPositive(init, id, quantity);
      assert SetLineQuantity(cart, id, 0)[..|cart| - 1] == SetLineQuantity(init, id, 0);
    }
  }
}
