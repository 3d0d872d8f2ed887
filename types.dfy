/** The shop's data model: the enumerations and records of the storefront.
    JavaScript numbers that hold money are modelled as exact reals, counts as integers. */
module Types {

  datatype Option<T> = None | Some(value: T)

  /** The closed set of catalog categories. */
  datatype Category = Skincare | Makeup | Tools | Hair | Body

  /** When a product is meant to be used. */
  datatype Routine = AM | PM | Both

  datatype OrderStatus = Pending | Processing | Shipped | Delivered

  datatype SkinType = Oily | Dry | Combination | Normal

  datatype Variant = Variant(id: string, name: string, price: real, stock: int)

  datatype BeforeAfterResult = BeforeAfterResult(before: string, after: string, caption: Option<string>)

  datatype Review = Review(
    id: string,
    userName: string,
    rating: int,
    comment: string,
    photoUrl: Option<string>,
    createdAt: string)

  /** A catalog entry; `ingredients`, `results` and `reviews` are optional. */
  datatype Product = Product(
    id: string,
    name: string,
    description: string,
    shortDescription: string,
    price: real,
    costPrice: real,
    category: Category,
    images: seq<string>,
    variants: seq<Variant>,
    aliExpressUrl: string,
    inventory: int,
    isAiOptimized: bool,
    benefits: seq<string>,
    routine: Routine,
    ingredients: Option<seq<string>>,
    results: Option<seq<BeforeAfterResult>>,
    reviews: Option<seq<Review>>)

  /** A cart line: every field of a product, plus the quantity and an optional variant.
      The line is identified by the product's id. */
  datatype CartItem = CartItem(product: Product, quantity: int, selectedVariantId: Option<string>)
  {
    function Id(): string { product.id }
  }

  datatype Order = Order(
    id: string,
    customerEmail: string,
    items: seq<CartItem>,
    total: real,
    status: OrderStatus,
    trackingNumber: Option<string>,
    createdAt: string)

  datatype SkinQuizResult = SkinQuizResult(skinType: SkinType, concerns: seq<string>)

  /** The string value each category carries, as shown on product cards and in the cart. */
  function CategoryName(c: Category): string
  {
    match c
    case Skincare => "Skincare"
    case Makeup => "Makeup"
    case Tools => "Tools"
    case Hair => "Hair"
    case Body => "Body"
  }

  function RoutineName(r: Routine): string
  {
    match r
    case AM => "AM"
    case PM => "PM"
    case Both => "Both"
  }

  /** The string a skin type is written as. */
  function SkinTypeName(t: SkinType): string
  {
    match t
    case Oily => "oily"
    case Dry => "dry"
    case Combination => "combination"
    case Normal => "normal"
  }

  /** Reads a skin type back from its string; any other string is not a skin type. */
  function ParseSkinType(s: string): (r: Option<SkinType>)
    ensures r.Some? ==> SkinTypeName(r.value) == s
  {
    if s == "oily" then Some(Oily)
    else if s == "dry" then Some(Dry)
    else if s == "combination" then Some(Combination)
    else if s == "normal" then Some(Normal)
    else None
  }

  lemma ParseSkinTypeName(t: SkinType)
    ensures ParseSkinType(SkinTypeName(t)) == Some(t)
  {
  }

  /** Category names are pairwise distinct, so a category is recovered from its name. */
  lemma CategoryNameInjective(a: Category, b: Category)
    ensures CategoryName(a) == CategoryName(b) ==> a == b
  {
  }
}
