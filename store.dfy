/** The shop's state store: one record of products, cart, orders, the cart-drawer flag and
    the last quiz result, and the nine actions that overwrite its fields. */
module Store {
  import opened Types
  import A = StoreActions
  import Catalog

  class Shop {
    var products: seq<Product>
    var cart: seq<CartItem>
    var orders: seq<Order>
    var isCartOpen: bool
    var skinQuizResult: Option<SkinQuizResult>

    /** The invariant every action keeps: at most one cart line per product id. */
    ghost predicate Valid()
      reads this
    {
      A.UniqueIds(cart)
    }

    /** A fresh store: the seed catalog, no cart lines, no orders, the drawer closed and
        no quiz result. */
    constructor ()
      ensures Valid()
      ensures products == Catalog.InitialProducts && cart == [] && orders == []
      ensures !isCartOpen && skinQuizResult == None
    {
      products := Catalog.InitialProducts;
      cart := [];
      orders := [];
      isCartOpen := false;
      skinQuizResult := None;
    }

    /** Appends the product to the catalog; there is no check for a duplicate id. */
    method AddProduct(product: Product)
      modifies this
      ensures products == old(products) + [product]
      ensures cart == old(cart) && orders == old(orders)
      ensures isCartOpen == old(isCartOpen) && skinQuizResult == old(skinQuizResult)
    {
      products := products + [product];
    }

    method UpdateProduct(product: Product)
      modifies this
      ensures products == A.UpdateProduct(old(products), product)
      ensures cart == old(cart) && orders == old(orders)
      ensures isCartOpen == old(isCartOpen) && skinQuizResult == old(skinQuizResult)
    {
      products := A.UpdateProduct(products, product);
    }

    /** Drops the product from the catalog; cart lines and orders that hold it are kept. */
    method DeleteProduct(id: string)
      modifies this
      ensures products == A.DeleteProduct(old(products), id)
      ensures cart == old(cart) && orders == old(orders)
      ensures isCartOpen == old(isCartOpen) && skinQuizResult == old(skinQuizResult)
    {
      products := A.DeleteProduct(products, id);
    }

    /** `addToCart(product, quantity = 1)`; the quantity is not validated. */
    method AddToCart(product: Product, quantity: int := 1)
      requires Valid()
      modifies this
      ensures Valid()
      ensures cart == A.AddToCart(old(cart), product, quantity)
      ensures products == old(products) && orders == old(orders)
      ensures isCartOpen == old(isCartOpen) && skinQuizResult == old(skinQuizResult)
    {
      A.AddToCartWellFormed(cart, product, quantity);
      cart := A.AddToCart(cart, product, quantity);
    }

    method RemoveFromCart(id: string)
      requires Valid()
      modifies this
      ensures Valid()
      ensures cart == A.RemoveFromCart(old(cart), id)
      ensures products == old(products) && orders == old(orders)
      ensures isCartOpen == old(isCartOpen) && skinQuizResult == old(skinQuizResult)
    {
      A.RemoveAndUpdateWellFormed(cart, id, 0);
      cart := A.RemoveFromCart(cart, id);
    }

    method UpdateCartQuantity(id: string, quantity: int)
      requires Valid()
      modifies this
      ensures Valid()
      ensures cart == A.UpdateCartQuantity(old(cart), id, quantity)
      ensures products == old(products) && orders == old(orders)
      ensures isCartOpen == old(isCartOpen) && skinQuizResult == old(skinQuizResult)
    {
      A.RemoveAndUpdateWellFormed(cart, id, quantity);
      cart := A.UpdateCartQuantity(cart, id, quantity);
    }

    method SetCartOpen(open: bool)
      modifies this
      ensures isCartOpen == open
      ensures products == old(products) && cart == old(cart) && orders == old(orders)
      ensures skinQuizResult == old(skinQuizResult)
    {
      isCartOpen := open;
    }

    /** Overwrites the quiz result; no history is kept. */
    method SetQuizResult(result: SkinQuizResult)
      modifies this
      ensures skinQuizResult == Some(result)
      ensures products == old(products) && cart == old(cart) && orders == old(orders)
      ensures isCartOpen == old(isCartOpen)
    {
      skinQuizResult := Some(result);
    }

    /** Puts the order first in the history and empties the cart, in one transition.
        The order's items and total are taken as given. */
    method PlaceOrder(order: Order)
      modifies this
      ensures Valid()
      ensures orders == [order] + old(orders) && cart == []
      ensures |orders| == |old(orders)| + 1
      ensures products == old(products)
      ensures isCartOpen == old(isCartOpen) && skinQuizResult == old(skinQuizResult)
    {
      orders, cart := [order] + orders, [];
    }
  }
}
