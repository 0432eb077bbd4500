# AI recipe generator: a Dafny model

The application lets a user list ingredients and pick a dietary preference and
a number of servings. A serverless endpoint turns these into a prompt, asks a
language-model provider for a recipe and returns the parsed recipe or an error.
The page shows the recipe, which can be downloaded as a plain-text file or
copied to the clipboard.

The model has four parts, one per source file:

- `recipe_form.dfy` (module `RecipeForm`) models the ingredient form. Each
  handler is a function from the old form state to the new one. The class
  `IngredientForm` holds the component's four state fields (`input`,
  `ingredients`, `dietary`, `servings`), and each of its methods is proved to
  apply the matching function. It is also proved to keep the form invariant:
  a duplicate-free list of non-empty trimmed entries, a dietary value from the
  select, and at least one serving.
- `generate_recipe.dfy` (module `GenerateRecipe`) models the endpoint as a pure
  function from its inputs to the response's status, body and headers. Those
  inputs are:
  - the HTTP method;
  - the decoded request body, or the fault decoding raised;
  - the configured API key;
  - the provider, a function from the call made to what it answers;
  - `JSON.parse`, an oracle.

  It also models the prompt and the code-fence stripping applied to the
  provider's text.
- `recipe_display.dfy` (module `RecipeDisplay`) models the three exports of the
  recipe view: the downloaded plain-text document, the file name and the
  clipboard text. The document is defined exactly as the source builds it: a
  template literal, then `trim`. It is proved equal to a line-by-line
  reference layout.
- `index_page.dfy` (module `IndexPage`) models the page. The class `Page` holds
  `recipe` and `isLoading`. The mock recipe the page builds instead of calling
  the endpoint is a pure function, and so is the choice of view.

`text.dfy` (module `Text`) holds the JavaScript string operations the four
parts share:
- `trim` over the ECMAScript whitespace set;
- `join` and `split("\n")`;
- `repeat`;
- rendering an integer in decimal;
- `parseInt` without a radix.

`recipe.dfy` (module `Recipes`) holds the recipe record shared by the display
and the page.

Four behaviours of the code that the model keeps:
- The endpoint does no schema validation of the provider's output. Any text
  that `JSON.parse` accepts and that is not `null` is returned as the recipe
  with status 200. Only `null` fails, because reading `.title` on it throws
  inside the parsing `try`.
- The page never calls the endpoint. It waits, then builds a fixed mock recipe
  from the request.
- Nothing checks that a recipe's ingredient and step lists are non-empty.
- A dietary value outside the six options cannot reach the form, because the
  select only reports its options. `SetDietary` requires one of them.

## Model

| member | source | states |
|---|---|---|
| Text.Trim | src/components/RecipeForm.tsx:28 | `trim` removes exactly the leading and trailing ECMAScript whitespace: the result has none at either end and sits inside the input |
| Text.TrimIdempotent | src/components/RecipeForm.tsx:28 | trimming a trimmed string changes nothing |
| Text.Repeat | src/components/RecipeDisplay.tsx:31 | `"=".repeat(n)` has length n and holds only that character |
| Text.NatToDecimal | src/components/RecipeDisplay.tsx:37 | a number renders as a non-empty string of decimal digits with no leading zero except for 0 itself |
| Text.ParseIntDecimal | src/components/RecipeForm.tsx:144 | `parseInt` reads back every integer written in decimal |
| Text.Join | src/components/RecipeDisplay.tsx:37 | `join` of no entries is empty; otherwise the result opens with the first entry |
| Text.JoinEndsWithLast | src/components/RecipeDisplay.tsx:37 | a join closes with its last entry |
| Text.SplitLines | src/components/RecipeDisplay.tsx:29-49 | reading text line by line gives at least one line and at most one more than the text has characters, and no line holds a line break |
| Text.IntToDecimal | src/components/RecipeDisplay.tsx:34 | a number renders as a non-empty string that starts with `-` exactly when the number is negative, with decimal digits everywhere else |
| Text.ParseInt | src/components/RecipeForm.tsx:144 | `parseInt` gives NaN for text that is empty after its leading whitespace, and gives a negative number only after a leading `-` |
| Text.SplitJoin | src/components/RecipeDisplay.tsx:29-49 | splitting lines joined with line breaks gives the lines back when none holds a line break |
| RecipeForm.Without | src/components/RecipeForm.tsx:41 | filtering never lengthens the list |
| RecipeForm.WithoutMembers | src/components/RecipeForm.tsx:41 | after removing x, y is listed exactly when it was listed before and differs from x |
| RecipeForm.WithoutAppend | src/components/RecipeForm.tsx:41 | the filter distributes over concatenation, so the remaining entries keep their order |
| RecipeForm.WithoutAbsent | src/components/RecipeForm.tsx:41 | removing an entry that is not listed returns the list unchanged |
| RecipeForm.WithoutIdempotent | src/components/RecipeForm.tsx:41 | removing the same entry twice is removing it once |
| RecipeForm.WithoutDropsOne | src/components/RecipeForm.tsx:41 | in a duplicate-free list, removing entry k gives the list with exactly that position cut out |
| RecipeForm.WithoutKeepsOk | src/components/RecipeForm.tsx:41 | removal keeps the list duplicate-free and every entry non-empty and trimmed |
| RecipeForm.AppendKeepsOk | src/components/RecipeForm.tsx:31-36 | appending a trimmed non-empty entry that is not yet listed keeps the list invariant |
| RecipeForm.Initial | src/components/RecipeForm.tsx:22-25 | the form starts valid: empty input and list, `none`, two servings |
| RecipeForm.Add | src/components/RecipeForm.tsx:27-38 | an entry is added exactly when the trimmed input is non-empty and not listed; otherwise the state is unchanged; dietary and servings never change |
| RecipeForm.AddAppends | src/components/RecipeForm.tsx:36-37 | a successful add puts the trimmed input last, keeps the earlier entries in place and clears the input |
| RecipeForm.AddRejects | src/components/RecipeForm.tsx:28-34 | a blank input is refused as blank, and an exact duplicate of the trimmed input is refused as a duplicate, with the form unchanged |
| RecipeForm.AddKeepsValid | src/components/RecipeForm.tsx:27-38 | adding keeps the form invariant |
| RecipeForm.AddTwice | src/components/RecipeForm.tsx:36-37 | because the input is cleared, a second add right after a successful one is refused as blank |
| RecipeForm.Remove | src/components/RecipeForm.tsx:40-42 | removal changes only the list, and leaves exactly the entries different from the removed one |
| RecipeForm.RemoveKeepsValid | src/components/RecipeForm.tsx:40-42 | removal keeps the form invariant |
| RecipeForm.RemoveNoOp | src/components/RecipeForm.tsx:40-42 | removing a non-member, or removing twice, changes nothing more |
| RecipeForm.KeyPress | src/components/RecipeForm.tsx:44-49 | Enter is an add attempt and any other key leaves the form alone |
| RecipeForm.Decrement | src/components/RecipeForm.tsx:136 | the minus button lowers servings by one but not below 1 and changes nothing else |
| RecipeForm.Increment | src/components/RecipeForm.tsx:151 | the plus button raises servings and changes nothing else |
| RecipeForm.ServingsFromInput | src/components/RecipeForm.tsx:144 | typed servings are the parsed value when it is at least 1, and 1 otherwise (unparsable, zero or negative) |
| RecipeForm.ServingsRoundTrip | src/components/RecipeForm.tsx:144 | typing the decimal form of a positive count sets exactly that count |
| RecipeForm.TypeServings | src/components/RecipeForm.tsx:144 | typing into the servings field gives at least one serving and changes nothing else |
| RecipeForm.ChooseDietary | src/components/RecipeForm.tsx:112-124 | choosing one of the six options sets it and changes nothing else |
| RecipeForm.UpdatesKeepValid | src/components/RecipeForm.tsx:112-151 | the servings and dietary handlers keep the form invariant |
| RecipeForm.Generate | src/components/RecipeForm.tsx:51-57 | a request is produced exactly when the list is non-empty, and it carries the current list, dietary value and servings |
| RecipeForm.GenerateFromValid | src/components/RecipeForm.tsx:51-57 | a request from a valid form has a non-empty, duplicate-free list of trimmed entries, a known dietary value and at least one serving |
| RecipeForm.IngredientForm.constructor | src/components/RecipeForm.tsx:22-25 | the component mounts in the initial state |
| RecipeForm.IngredientForm.SetInput | src/components/RecipeForm.tsx:73 | typing replaces the input only, keeping the invariant |
| RecipeForm.IngredientForm.AddIngredient | src/components/RecipeForm.tsx:27-38 | the new fields and the outcome are those of `Add` on the old fields, and the invariant holds |
| RecipeForm.IngredientForm.RemoveIngredient | src/components/RecipeForm.tsx:40-42 | the new fields are those of `Remove` on the old fields, and the invariant holds |
| RecipeForm.IngredientForm.HandleKeyPress | src/components/RecipeForm.tsx:44-49 | the new fields and the outcome are those of `KeyPress` |
| RecipeForm.IngredientForm.DecrementServings | src/components/RecipeForm.tsx:136 | the new fields are those of `Decrement` |
| RecipeForm.IngredientForm.IncrementServings | src/components/RecipeForm.tsx:151 | the new fields are those of `Increment` |
| RecipeForm.IngredientForm.SetServings | src/components/RecipeForm.tsx:144 | the new fields are those of `TypeServings` |
| RecipeForm.IngredientForm.SetDietary | src/components/RecipeForm.tsx:112 | the new fields are those of `ChooseDietary` |
| RecipeForm.IngredientForm.HandleGenerate | src/components/RecipeForm.tsx:51-57 | the request is `Generate` of the current fields, none exactly when the list is empty; the form does not change |
| GenerateRecipe.FaultResponse | supabase/functions/generate-recipe/index.ts:135-141 | a thrown fault gives 500 with its message, or `Unknown error` for a value that is not an `Error`, with the JSON headers |
| GenerateRecipe.DietaryText | supabase/functions/generate-recipe/index.ts:33 | the prompt's dietary text is the request's preference unless it is missing, empty or `none`, and then `no dietary restrictions` |
| GenerateRecipe.UserPrompt | supabase/functions/generate-recipe/index.ts:55-64 | the user prompt opens with the servings and ingredients line and closes with the instruction to return only the JSON object |
| GenerateRecipe.UserPromptStart | supabase/functions/generate-recipe/index.ts:55-56 | the user prompt opens with the servings and the ingredients joined by `, `, then the dietary line |
| GenerateRecipe.StripFences | supabase/functions/generate-recipe/index.ts:119 | removing the fence markers never lengthens the text |
| GenerateRecipe.StripFencesNoFence | supabase/functions/generate-recipe/index.ts:119 | text without three backquotes in a row passes through unchanged |
| GenerateRecipe.StripFencesClosing | supabase/functions/generate-recipe/index.ts:119 | a closing line break and fence are removed and nothing else |
| GenerateRecipe.CleanText | supabase/functions/generate-recipe/index.ts:119 | the text handed to the parser has no outer whitespace |
| GenerateRecipe.CleanFencedBlock | supabase/functions/generate-recipe/index.ts:119 | a ```` ```json ```` block around fence-free text cleans to that text trimmed |
| GenerateRecipe.CleanUnfenced | supabase/functions/generate-recipe/index.ts:119 | fence-free text is only trimmed |
| GenerateRecipe.Prepare | supabase/functions/generate-recipe/index.ts:13-33 | a provider call is made only with a configured key, which it carries; every earlier answer is a 400 or 500 error with the JSON headers |
| GenerateRecipe.Interpret | supabase/functions/generate-recipe/index.ts:115-134 | status 200 with the parsed recipe exactly when the cleaned text parses to a value, and the parse-failure 500 otherwise |
| GenerateRecipe.Complete | supabase/functions/generate-recipe/index.ts:82-141 | after the provider call the status is 200, 402, 429 or 500; 200 comes exactly with a recipe body, and a recipe only comes from a successful answer whose text content parses to it |
| GenerateRecipe.Handle | supabase/functions/generate-recipe/index.ts:8-142 | OPTIONS gets 200, no body and the CORS headers; every other request gets the JSON headers and a body; the status is one of 200, 400, 402, 429 and 500; a recipe body comes exactly with status 200 on a non-OPTIONS request |
| GenerateRecipe.PreflightShortCircuit | supabase/functions/generate-recipe/index.ts:9-11 | OPTIONS gets status 200, no body and the CORS headers, whatever the rest |
| GenerateRecipe.NoIngredientsRefused | supabase/functions/generate-recipe/index.ts:17-22 | missing or empty ingredients give 400 `No ingredients provided`, whatever the key and the provider |
| GenerateRecipe.MissingKeyRefused | supabase/functions/generate-recipe/index.ts:24-31 | with ingredients but no key the answer is 500 `AI service not configured` and no call is made |
| GenerateRecipe.CallExactlyWhenReady | supabase/functions/generate-recipe/index.ts:13-80 | the provider is called exactly when the body was read, lists ingredients and the key is set, with the key, servings, ingredients and dietary text |
| GenerateRecipe.UpstreamStatusMapping | supabase/functions/generate-recipe/index.ts:82-102 | a failing provider status maps to 429, to 402, or otherwise to 500, each with its message |
| GenerateRecipe.EmptyContentFails | supabase/functions/generate-recipe/index.ts:104-113 | a successful answer with missing or empty content gives 500 `Failed to generate recipe` |
| GenerateRecipe.ParseAllOrNothing | supabase/functions/generate-recipe/index.ts:115-134 | for non-empty content, the answer is the whole parsed recipe with 200 exactly when parsing succeeds, and otherwise the parse error |
| GenerateRecipe.ResponseShape | supabase/functions/generate-recipe/index.ts:3-141 | every response carries the CORS headers, its status is one of 200, 400, 402, 429 and 500, and a recipe body appears only with 200 |
| GenerateRecipe.RecipeOnlyFromParsedContent | supabase/functions/generate-recipe/index.ts:104-134 | a recipe is returned only after a call whose successful answer's content cleans to text that parses to that recipe |
| RecipeDisplay.NumberedFrom | src/components/RecipeDisplay.tsx:37 | entry k of the numbered list is its number, `. ` and entry k |
| RecipeDisplay.Template | src/components/RecipeDisplay.tsx:29-49 | the template literal opens with the line break after the backquote and closes with the four spaces that indent the closing backquote, which is the whitespace `trim` removes |
| RecipeDisplay.Document | src/components/RecipeDisplay.tsx:29-49 | the downloaded text never begins or ends with whitespace |
| RecipeDisplay.TemplateLayout | src/components/RecipeDisplay.tsx:29-49 | the template literal is a line break, the reference lines joined, a line break and the four-space indentation |
| RecipeDisplay.DocumentIsLayout | src/components/RecipeDisplay.tsx:29-49 | for a title that starts with a non-whitespace character, the document is the reference lines joined, with trailing whitespace removed |
| RecipeDisplay.DocumentStartsWithTitle | src/components/RecipeDisplay.tsx:29-31 | the document opens with the title and a line of `=` as long as the title |
| RecipeDisplay.DocumentWithNutrition | src/components/RecipeDisplay.tsx:44-49 | when the nutrition section closes the document, nothing is trimmed from its end |
| RecipeDisplay.DocumentLinesRecovered | src/components/RecipeDisplay.tsx:29-49 | with single-line fields, splitting the document at line breaks gives exactly the reference lines |
| RecipeDisplay.IngredientLine | src/components/RecipeDisplay.tsx:36-37 | ingredient k sits on line 8 + k, numbered k + 1 |
| RecipeDisplay.StepLine | src/components/RecipeDisplay.tsx:39-40 | the steps follow the `STEPS:` heading, numbered from 1 in their order |
| RecipeDisplay.EmptyOptionalsOmitted | src/components/RecipeDisplay.tsx:42-43 | an empty tips or pairing string gives the same document as an absent one |
| RecipeDisplay.ReplaceNonAlphanumeric | src/components/RecipeDisplay.tsx:55 | every character outside the ASCII letters and digits becomes `_` and the others are kept |
| RecipeDisplay.LowerCase | src/components/RecipeDisplay.tsx:55 | each character is lower-cased in place, and the length is kept |
| RecipeDisplay.FileName | src/components/RecipeDisplay.tsx:55 | the file name is as long as the title plus `.txt`, has only lower-case letters, digits and `_` before `.txt`, and character i is the title's character i lower-cased, or `_` |
| RecipeDisplay.ClipboardText | src/components/RecipeDisplay.tsx:64 | the clipboard text is not trimmed: it opens with the title and closes with the steps joined by line breaks |
| RecipeDisplay.ClipboardLayout | src/components/RecipeDisplay.tsx:64 | the clipboard text is its header, the ingredients one per line, a blank line, `Steps:` and the steps one per line, joined by line breaks |
| RecipeDisplay.ClipboardListsRecovered | src/components/RecipeDisplay.tsx:64 | with single-line fields, the ingredients are lines 7 to 6 + n of the clipboard text, verbatim and in order, and the steps are its last lines |
| IndexPage.MockQuantity | src/pages/Index.tsx:41 | the random quantity is 1, 2 or 3 |
| IndexPage.MockIngredients | src/pages/Index.tsx:41 | there is one mock ingredient per input ingredient |
| IndexPage.MockIngredientAt | src/pages/Index.tsx:41 | mock ingredient k is the quantity from draw k, a space and input ingredient k |
| IndexPage.MockIngredientsShape | src/pages/Index.tsx:41 | each mock ingredient is a digit from 1 to 3, a space and the input ingredient at the same position |
| IndexPage.MockNutrition | src/pages/Index.tsx:51-56 | the fixed nutrition values, with carbs `3g` exactly for `keto` and `15g` otherwise |
| IndexPage.MockRecipe | src/pages/Index.tsx:37-58 | the mock recipe has the fixed title, time, steps, tips and pairing, the requested servings, and the mock ingredients and nutrition |
| IndexPage.ShownViews | src/pages/Index.tsx:94-117 | exactly one view is shown: the form when idle without a recipe, the spinner while loading, the recipe when idle with one |
| IndexPage.Page.constructor | src/pages/Index.tsx:25-26 | the page mounts idle, without a recipe, showing the form |
| IndexPage.Page.BeginGeneration | src/pages/Index.tsx:29-30 | starting a generation sets loading, clears the recipe and shows only the spinner |
| IndexPage.Page.FinishGeneration | src/pages/Index.tsx:60-67 | loading ends; the recipe is shown if one was made, and otherwise the form is back |
| IndexPage.Page.HandleGenerate | src/pages/Index.tsx:28-68 | while waiting only the spinner shows; afterwards loading is over and the recipe is the mock recipe, or none with the form shown when the wait threw |
| IndexPage.Page.Reset | src/pages/Index.tsx:110 | the reset button drops the recipe, leaves loading alone, and shows the form when idle |

## Left out

- Rendering, styling, icons and toasts are not modelled. A toast is only a side message next to a modelled outcome: the `AddOutcome` value, or the `None` request.
- The browser APIs behind the exports are not modelled: `Blob`, object URLs, the temporary anchor, and `navigator.clipboard`. The model stops at the text and the file name they receive.
- The endpoint's environment is not modelled: `serve`, `Deno.env`, `fetch` and `console`. The request body, API key and provider are parameters instead, and logging has no effect on any response.
- The system prompt's prose, the model name, the temperature and the request headers sent to the provider are left out. They influence only the provider, which is abstract here. The user prompt is modelled.
- `JSON.parse` and reading `data.choices?.[0]?.message?.content` are inputs: a parse oracle and a `Content` value.
- A non-array truthy `ingredients` and a non-string `dietary` are not modelled. The request body is taken as already holding a list and an optional string.
- A failure of `response.text()` on the error path (index.ts:96) is not modelled. It would reach the outer `catch` as another 500.
- The two-second wait is a single transition. Reset is a separate method, so the model does not interleave a reset with the wait.
- `MockQuantity`: `Math.random` is a draw supplied by the caller, in [0, 1).
- Strings are sequences of Unicode scalar values, not of UTF-16 code units. A character outside the Basic Multilingual Plane is two units in JavaScript and one `char` here. Unicode case mapping is not modelled either; no non-ASCII letter survives to the lower-casing, so that part does not matter.
- `FileName`: the regular expression at RecipeDisplay.tsx:55 has no `u` flag, so JavaScript replaces each UTF-16 unit. A title character outside the Basic Multilingual Plane therefore becomes two `_` in the source and one `_` in the model. `|name| == |title| + 4` counts characters, not `title.length`. The same difference affects `"=".repeat(title.length)` in `DocumentStartsWithTitle` for such titles.
- `ServingsFromInput`: `parseInt` returning a value beyond the safe integer range, where it loses precision, is not modelled. Integers are unbounded.
- `RecipeDisplay.DocumentIsLayout`, `DocumentStartsWithTitle`, `DocumentWithNutrition` and `DocumentLinesRecovered` assume a title that starts with a non-whitespace character. `DocumentWithNutrition` and `DocumentLinesRecovered` also assume carbs ending in one. For other recipes, `trim` would also cut into the title or the last field. `Document` itself is defined for every recipe.
