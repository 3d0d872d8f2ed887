/** The route parameters hook: the product id read out of a `#/product/<id>` location hash. */
module Params {
  import opened Lists

  function IsSlash(c: char): bool
  {
    c == '/'
  }

  /** JavaScript's `s.split('/')`: the pieces between slashes, from the first to the last.
      A string without a slash is one piece, and the empty string is one empty piece. */
  function Split(s: string): (parts: seq<string>)
    ensures |parts| >= 1
    ensures forall i :: 0 <= i < |parts| ==> '/' !in parts[i]
    decreases |s|
  {
    var k := FirstIndex(s, IsSlash);
    if k == |s| then
      assert forall j :: 0 <= j < |s| ==> s[j] != '/';
      [s]
    else
      assert forall j :: 0 <= j < k ==> s[..k][j] != '/';
      [s[..k]] + Split(s[k + 1..])
  }

  /** The pieces put back together with a slash between neighbours. */
  function Join(parts: seq<string>): string
    requires |parts| >= 1
  {
    if |parts| == 1 then parts[0] else parts[0] + "/" + Join(parts[1..])
  }

  /** The first slash of `a + "/" + b`, when `a` has none, is the one between them. */
  lemma FirstSlash(a: string, b: string)
    requires '/' !in a
    ensures FirstIndex(a + "/" + b, IsSlash) == |a|
  {
    var s := a + "/" + b;
    var k := FirstIndex(s, IsSlash);
    assert s[|a|] == '/';
  }

  /** A string without a slash is a single piece. */
  lemma SplitNoSlash(a: string)
    requires '/' !in a
    ensures Split(a) == [a]
  {
    var k := FirstIndex(a, IsSlash);
  }

  /** Splitting at the first slash. */
  lemma SplitCons(a: string, b: string)
    requires '/' !in a
    ensures Split(a + "/" + b) == [a] + Split(b)
  {
    var s := a + "/" + b;
    FirstSlash(a, b);
    assert s[..|a|] == a;
    assert s[|a| + 1..] == b;
  }

  /** Splitting and joining again gives back the string. */
  lemma {:induction false} JoinSplit(s: string)
    ensures Join(Split(s)) == s
    decreases |s|
  {
    var k := FirstIndex(s, IsSlash);
    if k < |s| {
      JoinSplit(s[k + 1..]);
      assert s == s[..k] + "/" + s[k + 1..];
    }
  }

  /** Joining pieces without slashes and splitting again gives back the pieces. */
  lemma {:induction false} SplitJoin(parts: seq<string>)
    requires |parts| >= 1
    requires forall i :: 0 <= i < |parts| ==> '/' !in parts[i]
    ensures Split(Join(parts)) == parts
    decreases |parts|
  {
    if |parts| == 1 {
      SplitNoSlash(parts[0]);
    } else {
      SplitJoin(parts[1..]);
      SplitCons(parts[0], Join(parts[1..]));
      assert [parts[0]] + parts[1..] == parts;
    }
  }

  /** The parameters of a location hash: `{id: piece 2}` when piece 1 is "product" and
      piece 2 is not empty, and no parameters otherwise. */
  function ParamsOf(hash: string): (params: map<string, string>)
    ensures params == map[] || (params.Keys == {"id"} && params["id"] != "" && '/' !in params["id"])
  {
    var parts := Split(hash);
    if |parts| > 2 && parts[1] == "product" && parts[2] != "" then map["id" := parts[2]] else map[]
  }

  /** The id is the piece right after `/product/`; whatever follows the next slash is
      ignored. */
  lemma ParamsOfProductLink(pre: string, id: string, rest: string)
    requires '/' !in pre && '/' !in id && id != ""
    requires rest == "" || rest[0] == '/'
    ensures ParamsOf(pre + "/product/" + id + rest) == map["id" := id]
  {
    assert pre + "/product/" + id + rest == pre + "/product/" + (id + rest);
    SplitProductLink(pre, id + rest);
    SplitHead(id, rest);
  }

  lemma SplitProductLink(pre: string, tail: string)
    requires '/' !in pre
    ensures Split(pre + "/product/" + tail) == [pre, "product"] + Split(tail)
  {
    assert pre + "/product/" + tail == pre + "/" + "product" + "/" + tail;
    SplitTwo(pre, "product", tail);
  }

  /** Splitting off two leading pieces. */
  lemma SplitTwo(a: string, b: string, tail: string)
    requires '/' !in a && '/' !in b
    ensures Split(a + "/" + b + "/" + tail) == [a, b] + Split(tail)
  {
    assert a + "/" + b + "/" + tail == a + "/" + (b + "/" + tail);
    SplitCons(a, b + "/" + tail);
    SplitCons(b, tail);
  }

  /** The first piece of `id + rest` is `id` when `rest` is empty or starts a new piece. */
  lemma SplitHead(id: string, rest: string)
    requires '/' !in id
    requires rest == "" || rest[0] == '/'
    ensures Split(id + rest)[0] == id
  {
    if rest == "" {
      assert id + rest == id;
      SplitNoSlash(id);
    } else {
      assert id + rest == id + "/" + rest[1..];
      SplitCons(id, rest[1..]);
    }
  }

  /** Conversely, a hash carries an id only when it is a product link: some slash-free piece,
      then "/product/", then the id, then nothing or further pieces. */
  lemma ParamsOfOnlyProductLinks(hash: string, id: string) returns (pre: string, rest: string)
    requires ParamsOf(hash) == map["id" := id]
    ensures '/' !in pre && (rest == "" || rest[0] == '/')
    ensures hash == pre + "/product/" + id + rest
  {
    var parts := Split(hash);
    IdPieces(hash, id);
    JoinSplit(hash);
    pre := parts[0];
    rest := JoinFromThird(parts);
    ProductLinkJoin(pre, id, rest);
  }

  /** Joined pieces, read as pieces 0, 1 and 2 followed by nothing or a slash and the rest. */
  lemma JoinFromThird(parts: seq<string>) returns (rest: string)
    requires |parts| > 2
    ensures rest == "" || rest[0] == '/'
    ensures Join(parts) == parts[0] + "/" + (parts[1] + "/" + (parts[2] + rest))
  {
    rest := if |parts| == 3 then "" else "/" + Join(parts[3..]);
    assert parts[1..][1..] == parts[2..];
    if |parts| == 3 {
      assert parts[2..] == [parts[2]];
      assert parts[2] + rest == parts[2];
    } else {
      assert parts[2..][1..] == parts[3..];
      assert Join(parts[2..]) == parts[2] + "/" + Join(parts[3..]);
      assert parts[2] + "/" + Join(parts[3..]) == parts[2] + rest;
    }
    assert Join(parts[2..]) == parts[2] + rest;
    assert Join(parts[1..]) == parts[1] + "/" + (parts[2] + rest);
  }

  /** A hash that carries an id has "product" as piece 1 and the id as piece 2. */
  lemma IdPieces(hash: string, id: string)
    requires ParamsOf(hash) == map["id" := id]
    ensures |Split(hash)| > 2 && Split(hash)[1] == "product" && Split(hash)[2] == id
  {
    assert "id" in ParamsOf(hash) && ParamsOf(hash)["id"] == id;
  }

  lemma ProductLinkJoin(pre: string, id: string, rest: string)
    ensures pre + "/" + ("product" + "/" + (id + rest)) == pre + "/product/" + id + rest
  {
    assert "/" + ("product" + "/" + (id + rest)) == "/product/" + (id + rest);
  }

  /** `#/product/ali-1/x` carries the id ali-1. */
  lemma TrailingPiecesIgnored()
    ensures ParamsOf("#/product/ali-1/x") == map["id" := "ali-1"]
  {
    assert "#/product/ali-1/x" == "#" + "/product/" + "ali-1" + "/x";
    ParamsOfProductLink("#", "ali-1", "/x");
  }

  /** `#/product/` with nothing after it carries no id. */
  lemma BareProductSlash()
    ensures ParamsOf("#/product/") == map[]
  {
    assert "#/product/" == "#" + "/product/" + "";
    SplitProductLink("#", "");
    SplitNoSlash("");
  }

  /** A hash of two pieces carries no id: there is no piece 2. */
  lemma TwoPiecesNoId(a: string, b: string)
    requires '/' !in a && '/' !in b
    ensures ParamsOf(a + "/" + b) == map[]
  {
    SplitCons(a, b);
    SplitNoSlash(b);
  }

  /** `#/product` carries no id. */
  lemma BareProduct()
    ensures ParamsOf("#/product") == map[]
  {
    assert "#/product" == "#" + "/" + "product";
    TwoPiecesNoId("#", "product");
  }

  /** A hash outside `#/product/...`, such as `#/quiz`, carries no id. */
  lemma QuizHasNoId()
    ensures ParamsOf("#/quiz") == map[]
  {
    assert "#/quiz" == "#" + "/" + "quiz";
    TwoPiecesNoId("#", "quiz");
  }
}
