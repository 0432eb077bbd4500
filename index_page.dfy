/**
 * The page that hosts the form and the recipe: whether a generation is in
 * progress, the recipe last generated, which of the three views is shown,
 * and the mock recipe the page builds in place of a real generation.
 */
module IndexPage {
  import opened Text
  import opened Recipes

  // ---------------------------------------------------------------------------
  // The mock recipe
  // ---------------------------------------------------------------------------

  /** What `Math.random()` returns: a number in [0, 1). */
  predicate IsDraw(d: real) {
    0.0 <= d < 1.0
  }

  /** `Math.floor(Math.random() * 3) + 1` for a draw `d`. */
  function MockQuantity(d: real): (q: int)
    requires IsDraw(d)
    ensures 1 <= q <= 3
  {
    (d * 3.0).Floor + 1
  }

  /** Each ingredient prefixed with its quantity and a space, in the order
      given, one random draw per ingredient. */
  function MockIngredients(ingredients: seq<string>, draws: seq<real>): (r: seq<string>)
    requires |draws| == |ingredients|
    requires forall k :: 0 <= k < |draws| ==> IsDraw(draws[k])
    ensures |r| == |ingredients|
  {
    if ingredients == [] then []
    else
      var q := MockQuantity(draws[0]);
      [NatToDecimal(q) + " " + ingredients[0]] + MockIngredients(ingredients[1..], draws[1..])
  }

  const MockTitle := "Mediterranean Herb Chicken"

  const MockSteps: seq<string> := [
    "Preheat your oven to 375\U{00B0}F (190\U{00B0}C).",
    "Season the main protein with herbs and spices.",
    "Heat oil in a pan over medium-high heat.",
    "Sear the protein for 3-4 minutes on each side until golden.",
    "Transfer to the oven and bake for 15 minutes.",
    "Let rest for 5 minutes before serving."
  ]

  const MockTips := "For extra flavor, marinate the ingredients for 30 minutes before cooking. Serve with fresh herbs and a squeeze of lemon."

  const MockPairing := "A crisp Sauvignon Blanc or light Pinot Grigio"

  /** The fixed nutrition values, with fewer carbs for a keto request. */
  function MockNutrition(dietary: string): (n: Nutrition)
    ensures n.calories == "320 kcal" && n.protein == "38g" && n.fat == "12g"
    ensures n.carbs == "3g" <==> dietary == "keto"
    ensures n.carbs == "15g" <==> dietary != "keto"
  {
    Nutrition("320 kcal", "38g", "12g", if dietary == "keto" then "3g" else "15g")
  }

  /** The recipe the page shows after the simulated wait. */
  function MockRecipe(ingredients: seq<string>, dietary: string, servings: int, draws: seq<real>): (r: Recipe)
    requires |draws| == |ingredients|
    requires forall k :: 0 <= k < |draws| ==> IsDraw(draws[k])
    ensures r.title == MockTitle && r.cookingTime == "25 minutes" && r.servings == servings
    ensures r.ingredients == MockIngredients(ingredients, draws) && r.steps == MockSteps
    ensures r.tips == Some(MockTips) && r.pairing == Some(MockPairing)
    ensures r.nutrition == Some(MockNutrition(dietary))
  {
    Recipe(MockTitle, "25 minutes", servings, MockIngredients(ingredients, draws), MockSteps,
           Some(MockTips), Some(MockNutrition(dietary)), Some(MockPairing))
  }

  /** Ingredient `k` of the mock is the draw's quantity, a space and input
      ingredient `k`. */
  lemma {:induction false} MockIngredientAt(ingredients: seq<string>, draws: seq<real>, k: nat)
    requires |draws| == |ingredients|
    requires forall i :: 0 <= i < |draws| ==> IsDraw(draws[i])
    requires k < |ingredients|
    ensures MockIngredients(ingredients, draws)[k]
         == NatToDecimal(MockQuantity(draws[k])) + " " + ingredients[k]
  {
    if k > 0 {
      MockIngredientAt(ingredients[1..], draws[1..], k - 1);
    }
  }

  /** Every mock ingredient is a digit from 1 to 3, a space and the input
      ingredient at the same position: the order of the input is kept. */
  lemma MockIngredientsShape(ingredients: seq<string>, draws: seq<real>)
    requires |draws| == |ingredients|
    requires forall i :: 0 <= i < |draws| ==> IsDraw(draws[i])
    ensures var r := MockIngredients(ingredients, draws);
      forall k :: 0 <= k < |r| ==>
        && |r[k]| == |ingredients[k]| + 2
        && '1' <= r[k][0] <= '3' && r[k][1] == ' '
        && r[k][2..] == ingredients[k]
  {
    var r := MockIngredients(ingredients, draws);
    forall k | 0 <= k < |r|
      ensures |r[k]| == |ingredients[k]| + 2
      ensures '1' <= r[k][0] <= '3' && r[k][1] == ' '
      ensures r[k][2..] == ingredients[k]
    {
      MockIngredientAt(ingredients, draws, k);
      var q := MockQuantity(draws[k]);
      assert NatToDecimal(q) == [DigitChar(q)];
      assert r[k] == [DigitChar(q)] + " " + ingredients[k];
    }
  }

  // ---------------------------------------------------------------------------
  // Views
  // ---------------------------------------------------------------------------

  datatype View = Form | Spinner | Display(recipe: Recipe)

  /** The three conditional blocks of the page, in order: the form when idle
      with no recipe, the spinner while loading, the recipe when idle with
      one. Exactly one of them is shown. */
  function ShownViews(recipe: Option<Recipe>, isLoading: bool): (vs: seq<View>)
    ensures |vs| == 1
    ensures vs[0] == Form <==> !isLoading && recipe.None?
    ensures vs[0] == Spinner <==> isLoading
    ensures vs[0].Display? <==> !isLoading && recipe.Some?
    ensures vs[0].Display? ==> vs[0].recipe == recipe.value
  {
    (if !isLoading && recipe.None? then [Form] else [])
    + (if isLoading then [Spinner] else [])
    + (if !isLoading && recipe.Some? then [Display(recipe.value)] else [])
  }

  // ---------------------------------------------------------------------------
  // The page
  // ---------------------------------------------------------------------------

  class Page {
    var recipe: Option<Recipe>
    var isLoading: bool

    function Views(): seq<View>
      reads this
    {
      ShownViews(recipe, isLoading)
    }

    /** The page mounts idle, without a recipe, showing the form. */
    constructor()
      ensures recipe == None && !isLoading && Views() == [Form]
    {
      recipe := None;
      isLoading := false;
    }

    /** The first two statements of `handleGenerate`: loading, no recipe. */
    method BeginGeneration()
      modifies this
      ensures isLoading && recipe == None && Views() == [Spinner]
    {
      isLoading := true;
      recipe := None;
    }

    /** The end of `handleGenerate`: the recipe when the body of the `try`
        completed, unchanged (none) when it threw; loading is over either
        way. */
    method FinishGeneration(result: Option<Recipe>)
      requires isLoading && recipe == None
      modifies this
      ensures !isLoading && recipe == result
      ensures result.None? ==> Views() == [Form]
      ensures result.Some? ==> Views() == [Display(result.value)]
    {
      if result.Some? {
        recipe := result;
      }
      isLoading := false;
    }

    /** `handleGenerate` as a whole. `draws` are the random draws, one per
        ingredient, and `completed` says whether the body of the `try` ran to
        its end. The spinner is the only view while the recipe is being
        made. */
    method HandleGenerate(ingredients: seq<string>, dietary: string, servings: int,
                          draws: seq<real>, completed: bool) returns (whileWaiting: seq<View>)
      requires |draws| == |ingredients|
      requires forall k :: 0 <= k < |draws| ==> IsDraw(draws[k])
      modifies this
      ensures whileWaiting == [Spinner]
      ensures !isLoading
      ensures completed ==> recipe == Some(MockRecipe(ingredients, dietary, servings, draws))
      ensures !completed ==> recipe == None && Views() == [Form]
    {
      BeginGeneration();
      whileWaiting := Views();
      if completed {
        FinishGeneration(Some(MockRecipe(ingredients, dietary, servings, draws)));
      } else {
        FinishGeneration(None);
      }
    }

    /** The "Generate Another Recipe" button: drop the recipe, back to the
        form. */
    method Reset()
      modifies this
      ensures recipe == None && isLoading == old(isLoading)
      ensures !isLoading ==> Views() == [Form]
    {
      recipe := None;
    }
  }
}
