/** The application shell: which page the current location hash selects. */
module App {
  import opened Lists

  datatype Page = Home | ProductPage | Admin | Quiz

  function IsHash(c: char): bool
  {
    c == '#'
  }

  /** JavaScript's `s.replace('#', '')`: the first `#` is removed, wherever it is; a string
      without one is returned as it is. */
  function RemoveFirstHash(s: string): (r: string)
    ensures '#' !in s ==> r == s
    ensures '#' in s ==> |r| == |s| - 1
    ensures '#' in s ==> exists i :: 0 <= i < |s| && s[i] == '#' && '#' !in s[..i] && r == s[..i] + s[i + 1..]
  {
    var k := FirstIndex(s, IsHash);
    if k == |s| then
      assert forall i :: 0 <= i < |s| ==> s[i] != '#';
      s
    else
      assert forall j :: 0 <= j < k ==> s[..k][j] != '#';
      s[..k] + s[k + 1..]
  }

  predicate StartsWith(s: string, prefix: string)
  {
    |prefix| <= |s| && s[..|prefix|] == prefix
  }

  /** The path the router looks at: the hash without its first `#`, or "/" when that leaves
      nothing. */
  function RoutePath(hash: string): (path: string)
    ensures path != ""
  {
    var p := RemoveFirstHash(hash);
    if p == "" then "/" else p
  }

  /** The page for a location hash. */
  function RenderPage(hash: string): Page
  {
    PageFor(RoutePath(hash))
  }

  /** The page for a path, by the first test that the path passes. */
  function PageFor(path: string): Page
  {
    if path == "/" then Home
    else if StartsWith(path, "/product/") then ProductPage
    else if path == "/admin" then Admin
    else if path == "/quiz" then Quiz
    else Home
  }

  /** A hash that starts with `#` and has no other: the path is the rest, or "/". */
  lemma RoutePathOfHash(rest: string)
    requires '#' !in rest
    ensures RoutePath("#" + rest) == if rest == "" then "/" else rest
  {
    var h := "#" + rest;
    assert h[0] == '#';
    assert FirstIndex(h, IsHash) == 0;
    assert h[1..] == rest;
  }

  /** Each page in terms of the path: exactly "/admin" is the admin page, exactly "/quiz"
      the quiz, any path that starts with "/product/" the product page (with or without an
      id after it), and every other path the home page. */
  lemma RenderPageCases(hash: string)
    ensures RenderPage(hash) == Admin <==> RoutePath(hash) == "/admin"
    ensures RenderPage(hash) == Quiz <==> RoutePath(hash) == "/quiz"
    ensures RenderPage(hash) == ProductPage <==> StartsWith(RoutePath(hash), "/product/")
    ensures RenderPage(hash) == Home <==>
      !StartsWith(RoutePath(hash), "/product/") && RoutePath(hash) != "/admin" && RoutePath(hash) != "/quiz"
  {
    var path := RoutePath(hash);
    if path == "/admin" || path == "/quiz" || path == "/" {
      assert !StartsWith(path, "/product/");
    }
  }

  /** A hash made of `#` and a path without `#` shows the page for that path. */
  lemma RenderHashPath(path: string)
    requires '#' !in path && path != ""
    ensures RenderPage("#" + path) == PageFor(path)
  {
    RoutePathOfHash(path);
  }

  /** The empty hash, a lone `#` and `#/` show the home page. */
  lemma HomeRoutes()
    ensures RenderPage("") == Home && RenderPage("#") == Home && RenderPage("#/") == Home
  {
    EmptyHashRoute();
    LoneHashRoute();
    RootRoute();
  }

  /** Links to pages that do not exist, such as `#/shop` and `#/checkout`, and `#/admin/`
      with its trailing slash, fall back to the home page. */
  lemma FallbackRoutes()
    ensures RenderPage("#/shop") == Home && RenderPage("#/checkout") == Home
    ensures RenderPage("#/admin/") == Home
  {
    ShopRoute();
    CheckoutRoute();
    AdminSlashRoute();
  }

  /** `#/admin` and `#/quiz` are their pages. */
  lemma NamedRoutes()
    ensures RenderPage("#/admin") == Admin && RenderPage("#/quiz") == Quiz
  {
    AdminRoute();
    QuizRoute();
  }

  /** `#/product/` followed by anything without a `#`, including nothing, is the product
      page. */
  lemma ProductRoute(id: string)
    requires '#' !in id
    ensures RenderPage("#/product/" + id) == ProductPage
  {
    var rest := "/product/" + id;
    assert "#/product/" + id == "#" + rest;
    assert '#' !in rest by {
      assert forall i :: 0 <= i < |rest| ==> rest[i] == '#' ==> i >= 9 && id[i - 9] == '#';
    }
    RenderHashPath(rest);
    assert rest[..9] == "/product/";
  }

  /** A path that differs from "/product/" within its first nine characters does not
      start with it. */
  lemma NotProductPath(path: string, i: nat)
    requires i < 9 <= |path| && path[i] != "/product/"[i]
    ensures !StartsWith(path, "/product/")
  {
    assert path[..9][i] == path[i];
  }

  // One lemma per literal route keeps each proof small.

  lemma EmptyHashRoute()
    ensures RenderPage("") == Home
  {
    assert RoutePath("") == "/";
  }

  lemma LoneHashRoute()
    ensures RenderPage("#") == Home
  {
    RoutePathOfHash("");
    assert "#" + "" == "#";
  }

  lemma RootRoute()
    ensures RenderPage("#/") == Home
  {
    assert "#" + "/" == "#/";
    RenderHashPath("/");
  }

  lemma ShopRoute()
    ensures RenderPage("#/shop") == Home
  {
    assert "#" + "/shop" == "#/shop";
    RenderHashPath("/shop");
    assert PageFor("/shop") == Home;
  }

  lemma CheckoutRoute()
    ensures RenderPage("#/checkout") == Home
  {
    assert "#" + "/checkout" == "#/checkout";
    RenderHashPath("/checkout");
    NotProductPath("/checkout", 1);
  }

  lemma AdminSlashRoute()
    ensures RenderPage("#/admin/") == Home
  {
    assert "#" + "/admin/" == "#/admin/";
    RenderHashPath("/admin/");
    assert PageFor("/admin/") == Home;
  }

  lemma AdminRoute()
    ensures RenderPage("#/admin") == Admin
  {
    assert "#" + "/admin" == "#/admin";
    RenderHashPath("/admin");
    assert PageFor("/admin") == Admin;
  }

  lemma QuizRoute()
    ensures RenderPage("#/quiz") == Quiz
  {
    assert "#" + "/quiz" == "#/quiz";
    RenderHashPath("/quiz");
    assert PageFor("/quiz") == Quiz;
  }
}
