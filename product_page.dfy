/** The product page: the product named by the route, what the page shows of it, and the
    "Add To Routine" button. */
module ProductPage {
  import opened Types
  import opened Lists
  import StoreActions
  import Store
  import Header
  import App
  import Params
  import Catalog

  function HasId(id: string): Product -> bool
  {
    (p: Product) => p.id == id
  }

  /** JavaScript's `products.find(p => p.id === id)`: the first product with that id. With no
      id in the route nothing is found, since no product's id is undefined. */
  function FindProduct(products: seq<Product>, id: Option<string>): (r: Option<Product>)
    ensures id.None? ==> r.None?
    ensures id.Some? ==> (r.None? <==> id.value !in StoreActions.ProductIds(products))
    ensures r.Some? ==> r.value in products && r.value.id == id.value
  {
    if id.None? then None
    else
      var k := FirstIndex(products, HasId(id.value));
      if k < |products| then
        assert StoreActions.ProductIds(products)[k] == id.value;
        Some(products[k])
      else
        assert forall i :: 0 <= i < |products| ==> StoreActions.ProductIds(products)[i] != id.value;
        None
  }

  /** The first product with an id is the one found, whatever comes after it. */
  lemma FindProductFirst(products: seq<Product>, k: nat)
    requires k < |products|
    requires forall j :: 0 <= j < k ==> products[j].id != products[k].id
    ensures FindProduct(products, Some(products[k].id)) == Some(products[k])
  {
    var i := FirstIndex(products, HasId(products[k].id));
    assert HasId(products[k].id)(products[k]);
  }

  /** The id the page reads from the route parameters. */
  function RouteId(params: map<string, string>): Option<string>
  {
    if "id" in params then Some(params["id"]) else None
  }

  datatype View = NotFound | Details(product: Product)

  /** What the page shows for a location hash: the product the route names, or
      "Product not found". */
  function ViewFor(products: seq<Product>, hash: string): (v: View)
    ensures var rid := RouteId(Params.ParamsOf(hash));
      v.Details? <==> rid.Some? && rid.value in StoreActions.ProductIds(products)
    ensures v.Details? ==> v.product in products && v.product.id == RouteId(Params.ParamsOf(hash)).value
  {
    match FindProduct(products, RouteId(Params.ParamsOf(hash)))
    case None => NotFound
    case Some(p) => Details(p)
  }

  /** A link `#/product/<id>`, possibly followed by more pieces, shows the first product with
      that id, or "Product not found" when the catalog has none. */
  lemma ProductLinkView(products: seq<Product>, pre: string, id: string, rest: string)
    requires '/' !in pre && '/' !in id && id != ""
    requires rest == "" || rest[0] == '/'
    ensures id !in StoreActions.ProductIds(products) ==> ViewFor(products, pre + "/product/" + id + rest) == NotFound
    ensures forall k :: 0 <= k < |products| && products[k].id == id && (forall j :: 0 <= j < k ==> products[j].id != id) ==>
      ViewFor(products, pre + "/product/" + id + rest) == Details(products[k])
  {
    Params.ParamsOfProductLink(pre, id, rest);
    assert RouteId(Params.ParamsOf(pre + "/product/" + id + rest)) == Some(id);
    forall k | 0 <= k < |products| && products[k].id == id && (forall j :: 0 <= j < k ==> products[j].id != id)
      ensures ViewFor(products, pre + "/product/" + id + rest) == Details(products[k])
    {
      FindProductFirst(products, k);
    }
  }

  /** `#/product/` is routed to the product page, but carries no id, so the page shows
      "Product not found" whatever the catalog. */
  lemma ProductSlashNotFound(products: seq<Product>)
    ensures App.RenderPage("#/product/") == App.ProductPage
    ensures ViewFor(products, "#/product/") == NotFound
  {
    assert "#/product/" + "" == "#/product/";
    App.ProductRoute("");
    Params.BareProductSlash();
  }

  /** On the seed catalog `#/product/ali-2` shows the brush purifier. */
  lemma SeedProductLink()
    ensures ViewFor(Catalog.InitialProducts, "#/product/ali-2") == Details(Catalog.BrushPurifier)
  {
    SeedLinkParams();
    SeedFind();
  }

  lemma SeedLinkParams()
    ensures Params.ParamsOf("#/product/ali-2") == map["id" := "ali-2"]
  {
    assert "#/product/ali-2" == "#" + "/product/" + "ali-2" + "";
    Params.ParamsOfProductLink("#", "ali-2", "");
  }

  lemma SeedFind()
    ensures FindProduct(Catalog.InitialProducts, Some("ali-2")) == Some(Catalog.BrushPurifier)
  {
    FindProductFirst(Catalog.InitialProducts, 1);
  }

  /** The before/after section is shown only for a product with at least one result. */
  predicate ShowResults(p: Product)
  {
    p.results.Some? && |p.results.value| > 0
  }

  /** Of the seed catalog only the LED mask has results to show. */
  lemma SeedResults()
    ensures ShowResults(Catalog.LedMask)
    ensures !ShowResults(Catalog.BrushPurifier) && !ShowResults(Catalog.VanityOrganizer)
  {
  }

  /** The routine badge: "AM + PM Ritual" for Both, otherwise the routine's name and " Ritual". */
  function RoutineLabel(r: Routine): (s: string)
    ensures s == "AM + PM Ritual" <==> r == Both
  {
    if r == Both then "AM + PM Ritual" else RoutineName(r) + " Ritual"
  }

  /** The three routines have three different badges. */
  lemma RoutineLabelInjective(a: Routine, b: Routine)
    ensures RoutineLabel(a) == RoutineLabel(b) ==> a == b
  {
    assert RoutineLabel(AM)[0] == 'A' && RoutineLabel(PM)[0] == 'P';
  }

  /** "Add To Routine": one unit of the product goes into the cart, exactly as `addToCart`
      with its default quantity, and then the drawer opens. The badge count grows by one. */
  method HandleAddToCart(shop: Store.Shop, product: Product)
    requires shop.Valid()
    modifies shop
    ensures shop.Valid()
    ensures shop.cart == StoreActions.AddToCart(old(shop.cart), product, 1)
    ensures Header.CartCount(shop.cart) == Header.CartCount(old(shop.cart)) + 1
    ensures shop.isCartOpen
    ensures shop.products == old(shop.products) && shop.orders == old(shop.orders)
    ensures shop.skinQuizResult == old(shop.skinQuizResult)
  {
    Header.CartCountAdd(shop.cart, product, 1);
    shop.AddToCart(product);
    shop.SetCartOpen(true);
  }
}
