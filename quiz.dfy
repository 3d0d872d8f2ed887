/** The skin quiz: two questions answered in turn, then a result stored in the shop and a
    list of recommended products taken from the catalog. */
module Quiz {
  import opened Types
  import opened Lists
  import Catalog
  import Store

  datatype AnswerOption = AnswerOption(caption: string, value: string)

  datatype Question = Question(id: string, question: string, options: seq<AnswerOption>)

  /** The two questions, in the order they are asked. */
  const Questions: seq<Question> := [
    Question("skinType", "How would you describe your skin's afternoon personality?", [
      AnswerOption("Dry & Tight", "dry"),
      AnswerOption("Shiny in the T-Zone", "combination"),
      AnswerOption("Consistently Oily", "oily"),
      AnswerOption("Balanced & Calm", "normal")]),
    Question("concern", "What is your primary skin goal right now?", [
      AnswerOption("Banish Breakouts", "acne"),
      AnswerOption("Reverse Time & Fine Lines", "aging"),
      AnswerOption("Brighten Dullness", "glow"),
      AnswerOption("Deep Clean & Detox", "cleaning")])
  ]

  /** The values the buttons of a question send. */
  function OptionValues(q: Question): (vs: seq<string>)
    ensures |vs| == |q.options|
    ensures forall i :: 0 <= i < |q.options| ==> vs[i] == q.options[i].value
  {
    Map(q.options, (o: AnswerOption) => o.value)
  }

  /** Two questions, skin type first and concern second; every skin-type button sends the
      name of a skin type and every skin type has a button; the concern buttons send acne,
      aging, glow and cleaning. */
  lemma QuestionsShape()
    ensures |Questions| == 2
    ensures Questions[0].id == "skinType" && Questions[1].id == "concern"
    ensures forall v :: v in OptionValues(Questions[0]) ==> ParseSkinType(v).Some?
    ensures forall t: SkinType :: SkinTypeName(t) in OptionValues(Questions[0])
    ensures OptionValues(Questions[1]) == ["acne", "aging", "glow", "cleaning"]
  {
    assert OptionValues(Questions[0]) == ["dry", "combination", "oily", "normal"];
  }

  /** Whether a product is recommended for a concern: the LED mask for aging, the brush
      purifier for cleaning, and every Tools product whatever the concern. */
  predicate IsRecommended(concern: string, p: Product)
  {
    if concern == "aging" && p.id == "ali-1" then true
    else if concern == "cleaning" && p.id == "ali-2" then true
    else p.category == Tools
  }

  /** The source compares the category's string value with the Tools value; comparing the
      names is the same as comparing the categories. */
  lemma RecommendedByCategoryName(concern: string, p: Product)
    ensures IsRecommended(concern, p) <==>
      || (concern == "aging" && p.id == "ali-1")
      || (concern == "cleaning" && p.id == "ali-2")
      || CategoryName(p.category) == CategoryName(Tools)
  {
    CategoryNameInjective(p.category, Tools);
  }

  function Matches(concern: string): Product -> bool
  {
    (p: Product) => IsRecommended(concern, p)
  }

  /** The recommendation: the catalog products recommended for the concern, in catalog order. */
  function Recommend(products: seq<Product>, concern: string): (r: seq<Product>)
    ensures forall p :: p in r <==> p in products && IsRecommended(concern, p)
    ensures IsSubsequence(r, products)
  {
    FilterIsSubsequence(products, Matches(concern));
    Filter(products, Matches(concern))
  }

  /** The recommendation is empty exactly when no catalog product is recommended: the quiz
      can end with nothing to show. */
  lemma RecommendEmptyIff(products: seq<Product>, concern: string)
    ensures Recommend(products, concern) == [] <==> forall p :: p in products ==> !IsRecommended(concern, p)
  {
    var r := Recommend(products, concern);
    if r != [] {
      assert r[0] in r;
    }
  }

  /** A catalog holding only the vanity organizer recommends nothing for acne. */
  lemma RecommendCanBeEmpty()
    ensures Recommend([Catalog.VanityOrganizer], "acne") == []
  {
    RecommendEmptyIff([Catalog.VanityOrganizer], "acne");
  }

  /** On the seed catalog every concern recommends the LED mask and the brush purifier, in
      that order: both are Tools, the organizer is Body. */
  lemma SeedRecommendation(concern: string)
    ensures Recommend(Catalog.InitialProducts, concern) == [Catalog.LedMask, Catalog.BrushPurifier]
  {
    var ps := Catalog.InitialProducts;
    var keep := Matches(concern);
    assert ps[..2] == [Catalog.LedMask, Catalog.BrushPurifier];
    FilterKeepsAll(ps[..2], keep);
    assert ps[..2][..1] == [Catalog.LedMask];
    assert !keep(Catalog.VanityOrganizer);
  }

  /** The quiz page's own state: the step reached, the answers so far by question id, and the
      products shown once the quiz is finished. */
  class QuizPage {
    var step: nat
    var answers: map<string, string>
    var results: Option<seq<Product>>

    /** Past the first question a skin type has been answered; once finished, results exist. */
    ghost predicate Valid()
      reads this
    {
      && step <= |Questions|
      && (step >= 1 ==> "skinType" in answers && ParseSkinType(answers["skinType"]).Some?)
      && (step == |Questions| ==> results.Some?)
    }

    /** The page shows the results, rather than a question, once every question is answered. */
    predicate Finished()
      reads this
    {
      step >= |Questions|
    }

    constructor ()
      ensures Valid()
      ensures step == 0 && answers == map[] && results == None
    {
      step := 0;
      answers := map[];
      results := None;
    }

    /** A button of the current question is pressed. The answer is recorded under the
        question's id. Before the last question the step advances by one and nothing else
        changes. On the last question the shop's quiz result becomes the recorded skin type
        with the single concern just given, the results become the recommendation for it,
        and the quiz is finished. */
    method HandleNext(shop: Store.Shop, value: string)
      requires Valid() && step < |Questions|
      requires value in OptionValues(Questions[step])
      modifies this, shop
      ensures Valid()
      ensures answers == old(answers)[Questions[old(step)].id := value]
      ensures step == old(step) + 1
      ensures old(step) < |Questions| - 1 ==>
        && results == old(results)
        && shop.skinQuizResult == old(shop.skinQuizResult)
      ensures old(step) == |Questions| - 1 ==>
        && Finished()
        && shop.skinQuizResult == Some(SkinQuizResult(ParseSkinType(answers["skinType"]).value, [value]))
        && results == Some(Recommend(shop.products, value))
      ensures shop.products == old(shop.products) && shop.cart == old(shop.cart)
      ensures shop.orders == old(shop.orders) && shop.isCartOpen == old(shop.isCartOpen)
    {
      QuestionsShape();
      var newAnswers := answers[Questions[step].id := value];
      answers := newAnswers;
      if step < |Questions| - 1 {
        step := step + 1;
      } else {
        var skinType := ParseSkinType(newAnswers["skinType"]).value;
        shop.SetQuizResult(SkinQuizResult(skinType, [newAnswers["concern"]]));
        results := Some(Recommend(shop.products, newAnswers["concern"]));
        step := step + 1;
      }
    }

    /** Start Over: back to the first question; earlier answers and results are kept. */
    method StartOver()
      requires Valid()
      modifies this
      ensures Valid()
      ensures step == 0 && answers == old(answers) && results == old(results)
    {
      step := 0;
    }
  }

  /** Answering the seed catalog's quiz with any skin type and any concern ends with the LED
      mask and the brush purifier as results. */
  method SeedQuiz(shop: Store.Shop, skin: string, concern: string) returns (quiz: QuizPage)
    requires shop.products == Catalog.InitialProducts
    requires skin in OptionValues(Questions[0]) && concern in OptionValues(Questions[1])
    modifies shop
    ensures quiz.results == Some([Catalog.LedMask, Catalog.BrushPurifier])
    ensures quiz.Finished()
    ensures shop.skinQuizResult == Some(SkinQuizResult(ParseSkinType(skin).value, [concern]))
  {
    quiz := new QuizPage();
    quiz.HandleNext(shop, skin);
    quiz.HandleNext(shop, concern);
    SeedRecommendation(concern);
  }
}
