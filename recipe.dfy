/** The recipe record shared by the page, the display component and the
    generation endpoint. */
module Recipes {
  import opened Text

  /** Per-serving nutrition values, each a string with its unit. */
  datatype Nutrition = Nutrition(calories: string, protein: string, fat: string, carbs: string)

  /** A recipe; the optional fields may be absent. `servings` is kept as an
      integer. */
  datatype Recipe = Recipe(
    title: string,
    cookingTime: string,
    servings: int,
    ingredients: seq<string>,
    steps: seq<string>,
    tips: Option<string>,
    nutrition: Option<Nutrition>,
    pairing: Option<string>)

  /** An optional string field is truthy in JavaScript when it is present and
      not the empty string. */
  predicate Truthy(v: Option<string>) {
    v.Some? && v.value != ""
  }
}
