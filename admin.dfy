/** The admin page: the import form that builds a product from a supplier link, the revenue
    and order-count tiles, the per-product margin column and the Archive button. */
module Admin {
  import opened Types
  import StoreActions
  import Store

  // ---------------------------------------------------------------- decimal text

  function DigitChar(d: nat): (c: char)
    requires d < 10
    ensures '0' <= c <= '9'
  {
    "0123456789"[d]
  }

  function DigitValue(c: char): nat
  {
    if '0' <= c <= '9' then (c - '0') as nat else 0
  }

  /** How a whole number is written in a string concatenation: its decimal digits, no sign,
      no leading zero. */
  function Decimal(n: nat): (s: string)
    ensures |s| >= 1
    ensures forall i :: 0 <= i < |s| ==> '0' <= s[i] <= '9'
    ensures n >= 10 ==> s[0] != '0'
  {
    if n < 10 then [DigitChar(n)] else Decimal(n / 10) + [DigitChar(n % 10)]
  }

  /** The number a string of decimal digits denotes. */
  function DecimalValue(s: string): nat
  {
    if s == [] then 0 else DecimalValue(s[..|s| - 1]) * 10 + DigitValue(s[|s| - 1])
  }

  lemma {:induction false} DecimalRoundTrip(n: nat)
    ensures DecimalValue(Decimal(n)) == n
  {
    var s := Decimal(n);
    if n < 10 {
      assert s[..0] == [];
      assert DigitValue(DigitChar(n)) == n;
    } else {
      DecimalRoundTrip(n / 10);
      assert s[..|s| - 1] == Decimal(n / 10);
      assert DigitValue(DigitChar(n % 10)) == n % 10;
    }
  }

  /** Different numbers are written differently. */
  lemma DecimalInjective(m: nat, n: nat)
    ensures Decimal(m) == Decimal(n) ==> m == n
  {
    DecimalRoundTrip(m);
    DecimalRoundTrip(n);
  }

  // ---------------------------------------------------------------- pricing

  /** The sale price of an import: the cost marked up by `margin` percent. */
  function SalePrice(cost: real, margin: int): (price: real)
    ensures cost >= 0.0 && margin >= 0 ==> price >= cost
  {
    cost * (1.0 + margin as real / 100.0)
  }

  /** With a positive cost, a positive markup prices strictly above the cost, and on the
      slider's range 20..300 the price lies between 1.2 and 4 times the cost. */
  lemma SalePriceBounds(cost: real, margin: int)
    requires cost > 0.0
    ensures margin > 0 ==> SalePrice(cost, margin) > cost
    ensures 20 <= margin <= 300 ==> cost * 1.2 <= SalePrice(cost, margin) <= cost * 4.0
  {
    var m := margin as real;
    var f := 1.0 + m / 100.0;
    assert SalePrice(cost, margin) == cost * f;
    if margin > 0 {
      assert f > 1.0;
      ScaleAbove(cost, f);
    }
    if 20 <= margin <= 300 {
      assert 20.0 <= m <= 300.0;
      assert 1.2 <= f <= 4.0;
      ScaleBetween(cost, f);
      assert cost * 1.2 <= cost * f <= cost * 4.0;
    }
  }

  lemma ScaleAbove(c: real, f: real)
    requires c > 0.0 && f > 1.0
    ensures c * f > c
  {
  }

  lemma ScaleBetween(c: real, f: real)
    requires c > 0.0 && 1.2 <= f <= 4.0
    ensures c * 1.2 <= c * f <= c * 4.0
  {
  }

  /** The margin column: the share of the price that is profit, in percent. The source divides
      by the price without a guard; a price of 0 has no margin here. */
  function MarginPercent(p: Product): Option<real>
  {
    if p.price == 0.0 then None else Some((p.price - p.costPrice) / p.price * 100.0)
  }

  /** A product priced above a positive cost shows a margin strictly between 0 and 100. */
  lemma MarginBounds(p: Product)
    requires p.price > p.costPrice > 0.0
    ensures MarginPercent(p).Some?
    ensures 0.0 < MarginPercent(p).value < 100.0
  {
    var x := (p.price - p.costPrice) / p.price;
    assert x * p.price == p.price - p.costPrice;
    assert 0.0 < p.price - p.costPrice < p.price;
    assert x < 1.0 by {
      if x >= 1.0 {
        assert false;
      }
    }
    assert MarginPercent(p).value == x * 100.0;
  }

  /** Marking a cost up by `margin` percent shows a margin of 100·m/(100+m) percent:
      the default markup of 100 shows 50. */
  lemma MarginOfMarkup(cost: real, margin: int, p: Product)
    requires cost > 0.0 && margin > -100
    requires p.costPrice == cost && p.price == SalePrice(cost, margin)
    ensures MarginPercent(p) == Some(100.0 * margin as real / (100.0 + margin as real))
  {
    var m := margin as real;
    var f := (100.0 + m) / 100.0;
    assert SalePrice(cost, margin) == cost * f;
    assert f > 0.0;
    assert p.price - p.costPrice == cost * (m / 100.0);
    assert (p.price - p.costPrice) / p.price == (m / 100.0) / f;
    assert (m / 100.0) / f == m / (100.0 + m);
    assert m / (100.0 + m) * 100.0 == 100.0 * m / (100.0 + m);
  }

  // ---------------------------------------------------------------- import

  /** What the AI rewrite returned when it succeeded. A field the response did not carry is
      `None`; the routine is kept only when it is one of the three routines. A benefits list
      that came back is kept even when it is empty, since an empty array is not falsy. */
  datatype AiContent = AiContent(
    name: Option<string>,
    tagline: Option<string>,
    description: Option<string>,
    benefits: Option<seq<string>>,
    routine: Option<Routine>)

  /** JavaScript's `a || b` on an optional string: an absent or empty string falls back. */
  function OrElse(s: Option<string>, fallback: string): (r: string)
    ensures r == fallback || (s.Some? && r == s.value && s.value != "")
    ensures s.Some? && s.value != "" ==> r == s.value
  {
    if s.Some? && s.value != "" then s.value else fallback
  }

  const SupplierCost: real := 25.00
  const RawDescription: string := "High quality professional skin care tool for home use. 100% brand new."
  const DefaultTagline: string := "Professional beauty solution."
  const DefaultBenefits: seq<string> := ["Easy to use", "Durable", "Effective"]

  function MockName(draw: nat): string
  {
    "AliExpress Beauty Tool " + Decimal(draw)
  }

  /** The product an import builds. The clock reading `now`, the random draw `draw` in 0..999,
      the random image link and the AI rewrite are inputs. */
  function ImportedProduct(url: string, margin: int, now: nat, draw: nat, image: string, ai: Option<AiContent>): (p: Product)
    requires draw < 1000
    ensures p.id == "imported-" + Decimal(now)
    ensures p.costPrice == SupplierCost && p.price == SalePrice(SupplierCost, margin)
    ensures p.category == Tools && p.variants == [] && p.inventory == 100
    ensures p.images == [image] && p.aliExpressUrl == url
    ensures p.isAiOptimized <==> ai.Some?
    ensures ai.None? ==>
      && p.name == MockName(draw) && p.description == RawDescription
      && p.shortDescription == DefaultTagline && p.benefits == DefaultBenefits && p.routine == Both
    ensures ai.Some? ==>
      && p.name == OrElse(ai.value.name, MockName(draw))
      && p.description == OrElse(ai.value.description, RawDescription)
      && p.shortDescription == OrElse(ai.value.tagline, DefaultTagline)
      && p.benefits == (if ai.value.benefits.Some? then ai.value.benefits.value else DefaultBenefits)
      && p.routine == (if ai.value.routine.Some? then ai.value.routine.value else Both)
    ensures p.ingredients.None? && p.results.None? && p.reviews.None?
  {
    var name := if ai.Some? then OrElse(ai.value.name, MockName(draw)) else MockName(draw);
    var description := if ai.Some? then OrElse(ai.value.description, RawDescription) else RawDescription;
    var tagline := if ai.Some? then OrElse(ai.value.tagline, DefaultTagline) else DefaultTagline;
    var benefits := if ai.Some? && ai.value.benefits.Some? then ai.value.benefits.value else DefaultBenefits;
    var routine := if ai.Some? && ai.value.routine.Some? then ai.value.routine.value else Both;
    Product("imported-" + Decimal(now), name, description, tagline,
            SalePrice(SupplierCost, margin), SupplierCost, Tools, [image], [], url, 100,
            ai.Some?, benefits, routine, None, None, None)
  }

  /** Imports at different clock readings get different ids. */
  lemma ImportedIdsDiffer(url: string, margin: int, now1: nat, now2: nat, draw: nat, image: string, ai: Option<AiContent>,
                          url': string, margin': int, draw': nat, image': string, ai': Option<AiContent>)
    requires draw < 1000 && draw' < 1000 && now1 != now2
    ensures ImportedProduct(url, margin, now1, draw, image, ai).id != ImportedProduct(url', margin', now2, draw', image', ai').id
  {
    var p := "imported-";
    var a, b := Decimal(now1), Decimal(now2);
    if p + a == p + b {
      assert a == (p + a)[|p|..] == (p + b)[|p|..] == b;
      DecimalInjective(now1, now2);
    }
  }

  /** On the slider's range an import sells above its cost, and its margin column shows
      100·m/(100+m) percent, strictly between 0 and 100. */
  lemma ImportedPricing(url: string, margin: int, now: nat, draw: nat, image: string, ai: Option<AiContent>)
    requires draw < 1000 && 20 <= margin <= 300
    ensures var p := ImportedProduct(url, margin, now, draw, image, ai);
      && p.price > p.costPrice > 0.0
      && MarginPercent(p) == Some(100.0 * margin as real / (100.0 + margin as real))
      && 0.0 < MarginPercent(p).value < 100.0
  {
    var p := ImportedProduct(url, margin, now, draw, image, ai);
    SalePriceBounds(SupplierCost, margin);
    MarginOfMarkup(SupplierCost, margin, p);
    MarginBounds(p);
  }

  // ---------------------------------------------------------------- revenue

  /** The revenue tile: the order totals summed from the first order to the last, 0 with no
      orders. */
  function TotalRevenue(orders: seq<Order>): real
  {
    if orders == [] then 0.0 else TotalRevenue(orders[..|orders| - 1]) + orders[|orders| - 1].total
  }

  /** A newly placed order, which goes first in the history, adds its total to the revenue. */
  lemma {:induction false} RevenueAfterOrder(order: Order, orders: seq<Order>)
    ensures TotalRevenue([order] + orders) == order.total + TotalRevenue(orders)
  {
    if orders == [] {
      assert [order] + orders == [order];
      assert [order][..0] == [];
    } else {
      var all := [order] + orders;
      assert all[..|all| - 1] == [order] + orders[..|orders| - 1];
      RevenueAfterOrder(order, orders[..|orders| - 1]);
    }
  }

  /** Revenue never goes negative while no order has a negative total. */
  lemma {:induction false} RevenueNonNegative(orders: seq<Order>)
    requires forall i :: 0 <= i < |orders| ==> orders[i].total >= 0.0
    ensures TotalRevenue(orders) >= 0.0
  {
    if orders != [] {
      RevenueNonNegative(orders[..|orders| - 1]);
    }
  }

  // ---------------------------------------------------------------- the page

  /** The page's own state: the link typed into the form, whether an import is in flight,
      and the markup slider, which the browser keeps within 20..300. */
  class AdminPanel {
    var importUrl: string
    var isImporting: bool
    var profitMargin: int

    ghost predicate Valid()
      reads this
    {
      20 <= profitMargin <= 300
    }

    /** An empty link, no import in flight, a markup of 100 percent. */
    constructor ()
      ensures Valid()
      ensures importUrl == "" && !isImporting && profitMargin == 100
    {
      importUrl := "";
      isImporting := false;
      profitMargin := 100;
    }

    method SetImportUrl(url: string)
      modifies this
      ensures importUrl == url
      ensures isImporting == old(isImporting) && profitMargin == old(profitMargin)
    {
      importUrl := url;
    }

    /** Moving the slider; the range input only produces values in 20..300. */
    method SetProfitMargin(margin: int)
      requires 20 <= margin <= 300
      modifies this
      ensures Valid()
      ensures profitMargin == margin
      ensures importUrl == old(importUrl) && isImporting == old(isImporting)
    {
      profitMargin := margin;
    }

    /** Submitting the form. An empty link does nothing. Otherwise the built product is
        appended to the catalog, the link is cleared and the import is no longer in flight;
        with a valid markup the new product sells above its cost. */
    method HandleImport(shop: Store.Shop, now: nat, draw: nat, image: string, ai: Option<AiContent>)
      requires draw < 1000
      modifies this, shop
      ensures old(importUrl) == "" ==>
        && importUrl == old(importUrl) && isImporting == old(isImporting)
        && shop.products == old(shop.products)
      ensures old(importUrl) != "" ==>
        && shop.products == old(shop.products) + [ImportedProduct(old(importUrl), profitMargin, now, draw, image, ai)]
        && importUrl == "" && !isImporting
      ensures old(importUrl) != "" && Valid() ==>
        shop.products[|shop.products| - 1].price > shop.products[|shop.products| - 1].costPrice > 0.0
      ensures profitMargin == old(profitMargin)
      ensures shop.cart == old(shop.cart) && shop.orders == old(shop.orders)
      ensures shop.isCartOpen == old(shop.isCartOpen) && shop.skinQuizResult == old(shop.skinQuizResult)
    {
      if importUrl == "" {
        return;
      }
      isImporting := true;
      var product := ImportedProduct(importUrl, profitMargin, now, draw, image, ai);
      if Valid() {
        ImportedPricing(importUrl, profitMargin, now, draw, image, ai);
      }
      shop.AddProduct(product);
      importUrl := "";
      isImporting := false;
    }

    /** The Archive button of row `k`: the catalog loses every product with that row's id and
        nothing else. */
    method Archive(shop: Store.Shop, k: nat)
      requires k < |shop.products|
      modifies shop
      ensures shop.products == StoreActions.DeleteProduct(old(shop.products), old(shop.products[k]).id)
      ensures forall p :: p in shop.products ==> p.id != old(shop.products[k]).id
      ensures shop.cart == old(shop.cart) && shop.orders == old(shop.orders)
      ensures shop.isCartOpen == old(shop.isCartOpen) && shop.skinQuizResult == old(shop.skinQuizResult)
    {
      shop.DeleteProduct(shop.products[k].id);
    }
  }
}
