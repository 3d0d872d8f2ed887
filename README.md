# Lumière storefront: the client-side shop state machine

This project models the shop core of the Lumière beauty storefront, a single-page web app.
It covers:

- the persisted store, a record of the catalog, cart, orders, cart-drawer flag and last
  skin-quiz result, together with its nine actions;
- the data types and the seed catalog;
- the values derived from the store on the pages: cart subtotal, badge count, import sale
  price, revenue and margins, and the quiz recommendation;
- the page handlers that drive the store: the drawer's −, +, Remove and close buttons, the
  header's bag button, the admin import and Archive, the quiz's Next and Start Over, and the
  product page's "Add To Routine";
- hash routing and the extraction of the product id from the route.

Layout, one module per file:

- `types.dfy`, module `Types`: the records and enumerations.
- `catalog.dfy`, module `Catalog`: the three seed products.
- `lists.dfy`, module `Lists`: `filter`, `map` and a first-match search as functions, with the facts
  the rest uses.
- `store_actions.dfy`, module `StoreActions`: each action's list transformation, written as
  a function of the old list.
- `store.dfy`, module `Store`: class `Shop`. It holds the five fields, and each action
  method overwrites its own field with the function above.
- `cart_drawer.dfy` (`CartDrawer`), `header.dfy` (`Header`), `admin.dfy` (`Admin`),
  `quiz.dfy` (`Quiz`) and `product_page.dfy` (`ProductPage`): the pages and components.
  Their own React state becomes a class where handlers update it (`Admin.AdminPanel`,
  `Quiz.QuizPage`).
- `app.dfy` (`App`) and `params.dfy` (`Params`): route selection and id extraction.

Money is modelled as exact `real`, and quantities and counts as `int`.

The store's invariant, `Store.Shop.Valid`, is "at most one cart line per product id". Every
action keeps it.

"Every line has a positive quantity" is not a store invariant, because `addToCart` accepts
any quantity. It is instead proved kept by every transition the UI can reach: add with
quantity 1, the −, + and Remove buttons, and `updateCartQuantity`. `updateCartQuantity`
establishes it outright.

Four behaviours of the code that a reader might expect otherwise:

- `addProduct` does not reject a duplicate id (`StoreActions.AddProductKeepsDuplicates`).
- `addToCart` does not validate its quantity (`StoreActions.AddToCartUnchecked`).
- The quiz recommendation can be empty on a non-empty catalog (`Quiz.RecommendCanBeEmpty`).
- There is no `addReview` action and no not-found error. With an id that matches nothing,
  `updateProduct`, `deleteProduct` and `removeFromCart` leave their list unchanged.
  `updateCartQuantity` with such an id still drops every line of quantity 0 or less, so it is
  a no-op only on a cart whose quantities are all positive (`StoreActions.UpdateCartQuantityAbsent`).

## Model

| member | source | states |
|---|---|---|
| `Types.ParseSkinType` | types.ts:67-70 | a parsed skin type is written as the string it was read from |
| `Types.ParseSkinTypeName` | types.ts:68 | each of the four skin types is read back from its name |
| `Types.CategoryNameInjective` | types.ts:2-8 | the five category values are pairwise distinct strings |
| `Catalog.InitialProductIds` | constants.ts:4-64 | `InitialProducts` is three seed products with distinct ids ali-1, ali-2, ali-3 |
| `Catalog.InitialPricing` | constants.ts:10-55 | seed prices 129.99/49.99/64.99 and costs 45/18.50/22, each price above its cost |
| `Catalog.InitialProductShape` | constants.ts:12-63 | ali-1, ali-2 Tools and ali-3 Body; non-empty images; one variant with the product's price and stock; all AI-optimized |
| `Lists.Filter` | store/useStore.ts:40 | `filter` keeps exactly the elements that pass, never more than the input |
| `Lists.Map` | store/useStore.ts:37 | `map` applies the function position by position and keeps the length |
| `Lists.FirstIndex` | pages/ProductPage.tsx:9 | the first-match search behind `find` (also the first '#' of App.tsx:22 and the first '/' of useParams.ts:10): every earlier element fails the test and the found one passes |
| `Lists.FilterIsSubsequence` | store/useStore.ts:40 | a filter keeps the relative order of what it keeps |
| `Lists.FilterKeepsAll` | store/useStore.ts:54 | a filter that every element passes returns the list unchanged |
| `Lists.FilterConcat` | store/useStore.ts:58 | filtering a concatenation filters each part |
| `Lists.FilterDropsOne` | store/useStore.ts:54 | filtering out one failing element between passing ones removes exactly it |
| `StoreActions.UpdateProduct` | store/useStore.ts:36-38 | products with the id are replaced, all others kept at their positions, length kept |
| `StoreActions.UpdateProductFacts` | store/useStore.ts:36-38 | ids unchanged; an absent id changes nothing; updating twice equals updating once |
| `StoreActions.DeleteProduct` | store/useStore.ts:39-41 | exactly the products without that id remain, in their order, and the id is gone |
| `StoreActions.DeleteProductAbsent` | store/useStore.ts:39-41 | deleting an absent id leaves the catalog unchanged |
| `StoreActions.AddProductKeepsDuplicates` | store/useStore.ts:35 | appending a product whose id exists leaves two products with that id |
| `StoreActions.AddToCart` | store/useStore.ts:42-52 | an existing id keeps the cart's id list; a new id appends one line `{product, quantity}` at the end |
| `StoreActions.AddToCartLines` | store/useStore.ts:46-48 | lines with the id grow by `quantity` and keep every stored field; other lines unchanged |
| `StoreActions.AddToCartExisting` | store/useStore.ts:43-49 | with a single matching line, only that line's quantity changes |
| `StoreActions.AddToCartWellFormed` | store/useStore.ts:42-52 | adding keeps ids unique; with quantity ≥ 1 it keeps every line positive |
| `StoreActions.AddToCartUnchecked` | store/useStore.ts:51 | a new line with quantity 0 is accepted as it is |
| `StoreActions.AddRepeatedlyMerges` | store/useStore.ts:42-52 | repeated adds of a new product give one line whose quantity is the sum |
| `StoreActions.AddToLastLine` | store/useStore.ts:43-49 | adding more of the product that owns the last line only grows that line |
| `StoreActions.RemoveFromCart` | store/useStore.ts:53-55 | exactly the lines of other ids remain, in order, and the id is gone |
| `StoreActions.RemoveFromCartAbsent` | store/useStore.ts:53-55 | removing an absent id is a no-op |
| `StoreActions.RemoveFromCartAt` | store/useStore.ts:53-55 | with unique ids, removing line k's id removes exactly line k |
| `StoreActions.FilterKeepsUniqueIds` | store/useStore.ts:54 | dropping lines cannot create duplicate ids |
| `StoreActions.RemoveAndUpdateWellFormed` | store/useStore.ts:53-59 | remove and quantity update keep ids unique; remove keeps lines positive |
| `StoreActions.SetLineQuantity` | store/useStore.ts:57 | the lines with the id get the new quantity, others unchanged |
| `StoreActions.SetLineQuantityMembers` | store/useStore.ts:57 | after setting, lines for the id carry the new quantity and other lines are the old ones |
| `StoreActions.UpdateCartQuantity` | store/useStore.ts:56-59 | all remaining lines are positive; q ≤ 0 removes the id; q > 0 sets matching lines to q; other lines stay iff they were positive, in order |
| `StoreActions.UpdateCartQuantityKeepsLine` | store/useStore.ts:56-59 | a positive quantity for a present id keeps a line for it |
| `StoreActions.UpdateCartQuantityAbsent` | store/useStore.ts:56-59 | for an id with no line the result is the cart without its lines of quantity ≤ 0; on a positive cart, the cart itself |
| `StoreActions.UpdateCartQuantityPositive` | store/useStore.ts:56-59 | on a positive cart a positive quantity purges nothing |
| `StoreActions.UpdateCartQuantityAt` | store/useStore.ts:56-59 | on a well-formed cart a positive quantity changes exactly line k's quantity |
| `StoreActions.UpdateCartQuantityNonPositive` | store/useStore.ts:56-59 | on a positive cart a quantity ≤ 0 equals removing the id |
| `Store.Shop.constructor` | store/useStore.ts:29-33 | seed catalog, empty cart and orders, drawer closed, no quiz result |
| `Store.Shop.AddProduct` | store/useStore.ts:35 | catalog becomes old catalog plus the product at the end; other fields unchanged |
| `Store.Shop.UpdateProduct` | store/useStore.ts:36-38 | catalog replaced by the update; other fields unchanged |
| `Store.Shop.DeleteProduct` | store/useStore.ts:39-41 | catalog replaced by the deletion; cart and orders untouched |
| `Store.Shop.AddToCart` | store/useStore.ts:42-52 | cart replaced by the merge-on-add; unique ids kept; other fields unchanged |
| `Store.Shop.RemoveFromCart` | store/useStore.ts:53-55 | cart replaced by the removal; unique ids kept; other fields unchanged |
| `Store.Shop.UpdateCartQuantity` | store/useStore.ts:56-59 | cart replaced by clamp-and-purge; unique ids kept; other fields unchanged |
| `Store.Shop.SetCartOpen` | store/useStore.ts:60 | only the drawer flag changes |
| `Store.Shop.SetQuizResult` | store/useStore.ts:61 | only the quiz result changes |
| `Store.Shop.PlaceOrder` | store/useStore.ts:62-65 | the order goes first in the history and the cart empties, in one step; the order count shown at pages/Admin.tsx:71 grows by one |
| `CartDrawer.UpdateAbsentDropsZeroLine` | store/useStore.ts:56-59 | a cart of one zero-quantity line empties on an update for an id it lacks |
| `CartDrawer.LineTotal` | components/CartDrawer.tsx:45 | a line's displayed total, price × quantity, never negative for a non-negative price and quantity |
| `CartDrawer.Subtotal` | components/CartDrawer.tsx:7 | the `reduce` from 0 over the line totals; never negative when no price or quantity is |
| `CartDrawer.SubtotalConcat` | components/CartDrawer.tsx:7 | the subtotal of two carts placed end to end is the sum of their subtotals |
| `CartDrawer.SubtotalAround` | components/CartDrawer.tsx:7 | the subtotal splits around any line's total |
| `CartDrawer.SubtotalReplaceLine` | components/CartDrawer.tsx:7 | replacing a line changes the subtotal by the difference of line totals |
| `CartDrawer.LineTotalGrows` | components/CartDrawer.tsx:45 | raising a line by q raises its total by price × q |
| `CartDrawer.SubtotalGrowLine` | components/CartDrawer.tsx:7 | raising one line by q raises the subtotal by that line's price × q |
| `CartDrawer.SubtotalAddNew` | components/CartDrawer.tsx:7 | adding a new product raises the subtotal by price × quantity |
| `CartDrawer.SubtotalAddExisting` | components/CartDrawer.tsx:7 | adding an existing product raises the subtotal by the line's stored price × quantity |
| `CartDrawer.SubtotalRemove` | components/CartDrawer.tsx:7 | removing a line lowers the subtotal by that line's total |
| `CartDrawer.SeedCartScenario` | components/CartDrawer.tsx:7 | add ali-1 ×2, add ali-2 ×1, set ali-1 to 1: lines [ali-1 ×1, ali-2 ×1], subtotal 179.98 |
| `CartDrawer.Increment` | components/CartDrawer.tsx:53 | "+" is `updateCartQuantity(id, q+1)`: on a positive cart only that line grows by one |
| `CartDrawer.Decrement` | components/CartDrawer.tsx:51 | "−" is `updateCartQuantity(id, q-1)`: a line at 1 leaves the cart, otherwise it loses one |
| `CartDrawer.DecrementLine` | components/CartDrawer.tsx:51 | the cart after "−" on line k, on a well-formed cart |
| `CartDrawer.Remove` | components/CartDrawer.tsx:56 | Remove drops exactly that line |
| `CartDrawer.Close` | components/CartDrawer.tsx:13 | backdrop, close, checkout and continue-shopping only close the drawer |
| `Header.CartCount` | components/Header.tsx:7 | the `reduce` from 0 over the quantities; never negative when no quantity is |
| `Header.ShowBadge` | components/Header.tsx:34 | the badge is drawn when the count is positive |
| `Header.CartCountConcat` | components/Header.tsx:7 | the count of two carts placed end to end is the sum of their counts |
| `Header.CartCountAtLeastLines` | components/Header.tsx:7 | with positive quantities the count is at least the number of lines |
| `Header.EmptyCartNoBadge` | components/Header.tsx:7 | an empty cart counts 0 and shows no badge |
| `Header.BadgeIffNonEmpty` | components/Header.tsx:34 | on a positive cart the badge shows iff the cart has a line |
| `Header.CartCountAround` | components/Header.tsx:7 | the count splits around any line's quantity |
| `Header.CartCountAdd` | components/Header.tsx:7 | adding q units raises the count by exactly q, new line or not |
| `Header.CartCountSetLine` | components/Header.tsx:7 | setting a line's quantity changes the count by the difference |
| `Header.CartCountRemove` | components/Header.tsx:7 | removing a line lowers the count by its quantity |
| `Header.OpenBag` | components/Header.tsx:28 | the bag button opens the drawer and changes nothing else |
| `Admin.Decimal` | pages/Admin.tsx:32 | a number's decimal text is non-empty digits with no leading zero |
| `Admin.DecimalRoundTrip` | pages/Admin.tsx:32 | the decimal text reads back as the number |
| `Admin.DecimalInjective` | pages/Admin.tsx:32 | different numbers have different decimal texts |
| `Admin.SalePrice` | pages/Admin.tsx:29 | cost × (1 + markup/100); a non-negative markup never prices below a non-negative cost |
| `Admin.SalePriceBounds` | pages/Admin.tsx:29 | a positive markup prices above a positive cost; markups 20..300 price at 1.2 to 4 times the cost |
| `Admin.MarginPercent` | pages/Admin.tsx:146 | (price − cost)/price × 100, absent at price 0 |
| `Admin.MarginBounds` | pages/Admin.tsx:146 | price above a positive cost shows a margin strictly between 0 and 100 |
| `Admin.MarginOfMarkup` | pages/Admin.tsx:146 | a markup of m percent shows a margin of 100·m/(100+m) |
| `Admin.OrElse` | pages/Admin.tsx:33-35 | `a \|\| b`: an absent or empty string falls back, any other is kept |
| `Admin.ImportedProduct` | pages/Admin.tsx:31-46 | id "imported-"+clock, cost 25, price = sale price, Tools, no variants, stock 100, the URL, AI flag iff a rewrite came back; name, description and tagline fall back when absent or empty, benefits (kept even when empty) and routine (to Both) when absent |
| `Admin.MockName` | pages/Admin.tsx:21 | the scraped name: "AliExpress Beauty Tool " and the draw in decimal |
| `Admin.ImportedIdsDiffer` | pages/Admin.tsx:32 | imports at different clock readings get different ids |
| `Admin.ImportedPricing` | pages/Admin.tsx:29-37 | on the slider's range an import sells above cost, with margin 100·m/(100+m) in (0, 100) |
| `Admin.TotalRevenue` | pages/Admin.tsx:55 | the `reduce` from 0 over the order totals |
| `Admin.RevenueAfterOrder` | pages/Admin.tsx:55 | a newly placed order adds exactly its total to the revenue |
| `Admin.RevenueNonNegative` | pages/Admin.tsx:55 | revenue is never negative while no order total is |
| `Admin.AdminPanel.constructor` | pages/Admin.tsx:9-11 | empty link, not importing, markup 100 |
| `Admin.AdminPanel.SetImportUrl` | pages/Admin.tsx:87 | only the link changes |
| `Admin.AdminPanel.SetProfitMargin` | pages/Admin.tsx:96-99 | the markup stays within 20..300 |
| `Admin.AdminPanel.HandleImport` | pages/Admin.tsx:13-53 | empty link: nothing changes; otherwise the built product is appended, the link cleared, importing off, and it sells above cost |
| `Admin.AdminPanel.Archive` | pages/Admin.tsx:165 | every product with that row's id leaves the catalog, nothing else changes |
| `Quiz.OptionValues` | pages/Quiz.tsx:16-30 | the values the buttons of a question send, in order |
| `Quiz.QuestionsShape` | pages/Quiz.tsx:12-33 | two questions, skinType then concern; skin buttons cover the four skin types; concerns acne, aging, glow, cleaning |
| `Quiz.IsRecommended` | pages/Quiz.tsx:50-52 | the filter's test: aging and ali-1, cleaning and ali-2, or a Tools product |
| `Quiz.RecommendedByCategoryName` | pages/Quiz.tsx:52 | comparing the category's string value with 'Tools' is comparing the categories |
| `Quiz.Recommend` | pages/Quiz.tsx:49-53 | recommended iff aging & ali-1, cleaning & ali-2, or Tools; catalog order kept |
| `Quiz.RecommendEmptyIff` | pages/Quiz.tsx:49-53 | the recommendation is empty iff no catalog product qualifies |
| `Quiz.RecommendCanBeEmpty` | pages/Quiz.tsx:49-53 | a catalog of only the vanity organizer recommends nothing for acne |
| `Quiz.SeedRecommendation` | pages/Quiz.tsx:49-53 | on the seed catalog every concern gives [ali-1, ali-2] |
| `Quiz.QuizPage.constructor` | pages/Quiz.tsx:7-10 | step 0, no answers, no results |
| `Quiz.QuizPage.HandleNext` | pages/Quiz.tsx:35-58 | answer stored under the question id, step +1; the last answer sets the shop's result to (skin type, [concern]) and the results to the recommendation |
| `Quiz.QuizPage.StartOver` | pages/Quiz.tsx:106 | step back to 0, answers and results kept |
| `Quiz.SeedQuiz` | pages/Quiz.tsx:35-58 | answering on the seed catalog ends with results [ali-1, ali-2] and the stored quiz result |
| `ProductPage.RouteId` | pages/ProductPage.tsx:7 | the `id` route parameter, when there is one |
| `ProductPage.FindProduct` | pages/ProductPage.tsx:9 | `find`: nothing without an id; nothing iff the id is absent; a found product has the id |
| `ProductPage.FindProductFirst` | pages/ProductPage.tsx:9 | the first product with the id is the one found |
| `ProductPage.ViewFor` | pages/ProductPage.tsx:7-13 | a product is shown iff the route carries an id that some catalog product has; the shown product is in the catalog and has that id; otherwise "Product not found" |
| `ProductPage.ProductLinkView` | pages/ProductPage.tsx:9-13 | `#/product/<id>` shows the first catalog product with that id, and "Product not found" when there is none |
| `ProductPage.ProductSlashNotFound` | pages/ProductPage.tsx:13 | `#/product/` routes to the product page, which shows "Product not found" |
| `ProductPage.SeedProductLink` | pages/ProductPage.tsx:9 | on the seed catalog `#/product/ali-2` shows the brush purifier |
| `ProductPage.ShowResults` | pages/ProductPage.tsx:62 | the before/after section is shown when the product has at least one result |
| `ProductPage.SeedResults` | pages/ProductPage.tsx:62 | only the LED mask shows its before/after section |
| `ProductPage.RoutineLabel` | pages/ProductPage.tsx:119 | the label is "AM + PM Ritual" iff the routine is Both |
| `ProductPage.RoutineLabelInjective` | pages/ProductPage.tsx:119 | three routines, three different labels |
| `ProductPage.HandleAddToCart` | pages/ProductPage.tsx:15-18 | `addToCart(product)` with quantity 1, then the drawer opens; the badge count grows by one |
| `App.RemoveFirstHash` | App.tsx:22 | `replace('#', '')` removes exactly the first '#' and nothing else |
| `App.RoutePath` | App.tsx:22 | the path is never empty |
| `App.RoutePathOfHash` | App.tsx:22 | for '#' plus a path without '#', the route is that path, or "/" |
| `App.PageFor` | App.tsx:24-29 | the first of the four path tests that passes picks the page, Home when none does |
| `App.RenderPage` | App.tsx:22-29 | the page for the route path of the hash |
| `App.RenderPageCases` | App.tsx:24-29 | Admin iff path "/admin"; Quiz iff "/quiz"; ProductPage iff the path starts with "/product/"; Home otherwise |
| `App.RenderHashPath` | App.tsx:22-29 | '#' plus a path shows that path's page |
| `App.HomeRoutes` | App.tsx:24 | "", "#" and "#/" show Home |
| `App.FallbackRoutes` | App.tsx:29 | "#/shop", "#/checkout" and "#/admin/" fall back to Home |
| `App.NamedRoutes` | App.tsx:26-27 | "#/admin" and "#/quiz" show their pages |
| `App.ProductRoute` | App.tsx:25 | "#/product/" followed by anything, even nothing, shows the product page |
| `Params.Split` | hooks/useParams.ts:10 | `split('/')`: at least one piece and no piece holds a '/' |
| `Params.JoinSplit` | hooks/useParams.ts:10 | joining the pieces with '/' gives back the hash |
| `Params.SplitJoin` | hooks/useParams.ts:10 | splitting joined slash-free pieces gives back the pieces |
| `Params.SplitCons` | hooks/useParams.ts:10 | splitting at the first slash |
| `Params.SplitTwo` | hooks/useParams.ts:10 | two leading slash-free pieces split off as pieces 0 and 1 |
| `Params.ParamsOf` | hooks/useParams.ts:12-16 | either no parameters, or exactly `id`, non-empty and slash-free |
| `Params.ParamsOfOnlyProductLinks` | hooks/useParams.ts:12-16 | conversely, a hash that carries an id is a product link: slash-free piece, "/product/", the id, then nothing or more pieces |
| `Params.IdPieces` | hooks/useParams.ts:12-13 | a hash carrying an id has "product" as piece 1 and the id as piece 2 |
| `Params.JoinFromThird` | hooks/useParams.ts:10 | joined pieces read as pieces 0, 1 and 2 followed by nothing or a slash and the rest |
| `Params.ParamsOfProductLink` | hooks/useParams.ts:12-13 | the piece right after "/product/" is the id; pieces after it are ignored |
| `Params.TrailingPiecesIgnored` | hooks/useParams.ts:12-13 | "#/product/ali-1/x" carries id ali-1 |
| `Params.BareProductSlash` | hooks/useParams.ts:12-16 | "#/product/" carries no id |
| `Params.BareProduct` | hooks/useParams.ts:12-16 | "#/product" carries no id |
| `Params.QuizHasNoId` | hooks/useParams.ts:14-16 | "#/quiz" carries no id |

## Left out

- Persistence: the store is saved to and restored from browser storage under
  "lumiere-storage". There is no serialiser code to model, so the store starts from its
  initial state.
- The chat widget and the AI content service are network calls to a language model. The
  chat shows the reply text or a fixed apology. The content service returns the parsed JSON
  rewrite, or null on error. The rewrite enters the import only as an `Option<AiContent>`
  parameter, where null is `None`.
- Clock, randomness and timers in the import are inputs to `Admin.ImportedProduct` and
  `Admin.AdminPanel.HandleImport`:
  - `Date.now()` is the parameter `now`;
  - `Math.floor(Math.random() * 1000)` is the parameter `draw`, required to be below 1000;
  - the random image link is the parameter `image`.
- Admin.AdminPanel.HandleImport: the two-second delay and the awaited rewrite are not
  modelled. The import runs as one step, so `isImporting` is true only inside it, and
  the disabled submit button while it is in flight is not modelled. The `alert` is
  also left out.
- Admin.ImportedProduct: an AI routine string other than AM, PM or Both, which the source
  casts through unchecked, cannot be represented. An absent or empty routine falls back to
  Both.
- Admin.MarginPercent: at price 0 the source divides by zero and shows NaN or Infinity. The
  model returns no margin. Display rounding (`toFixed`) is not modelled, and neither is
  floating-point error, since money is exact.
- Quantities are integers; JavaScript numbers would also allow fractions.
- Browser plumbing is left out: the hashchange listeners, `window.location`, and React's
  `useState`/`useEffect`. The routing functions take the hash as an argument.
- Presentation is left out: the footer, the product cards, the home page's first three
  products, the image gallery and the results accordion, and all markup and styling.
- Store.Shop.PlaceOrder: no page calls `placeOrder`, and the order's total is taken as
  given. It is not computed from the cart.
- Quiz.QuizPage.HandleNext: it requires the value to be one of the current question's
  button values, which is all the page can send.
