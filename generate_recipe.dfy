/**
 * The recipe-generation endpoint: the decisions the request handler takes,
 * from the incoming request to the status and body of its response. The
 * environment, the network and the JSON parser are inputs: the request body
 * as decoded (or the fault decoding raised), the configured API key, the
 * upstream provider as a function from the call it is asked to make to what
 * it answers, and `JSON.parse` as an oracle.
 */
module GenerateRecipe {
  import opened Text

  // ---------------------------------------------------------------------------
  // Inputs and responses
  // ---------------------------------------------------------------------------

  /** A value thrown by an awaited operation: an `Error` with its message, or
      anything else. */
  datatype Fault = ErrorInstance(message: string) | OtherValue

  /** The request body: what `req.json()` threw, or the three fields read from
      it. A missing or falsy `ingredients` is `None`; likewise `dietary`.
      `servings` is held as the text a template literal renders it as. */
  datatype RequestBody =
    | Unparsable(fault: Fault)
    | Body(ingredients: Option<seq<string>>, dietary: Option<string>, servings: string)

  /** `data.choices?.[0]?.message?.content`: missing or falsy, a string, or a
      truthy value that is not a string. */
  datatype Content = Missing | Str(text: string) | NonText

  /** The provider's JSON reply, or the fault reading it as JSON raised. */
  datatype Reply = NotJson(fault: Fault) | Completion(content: Content)

  /** What the `fetch` to the provider gave: a thrown fault, or an answer with
      a status and a reply. */
  datatype Upstream = Thrown(fault: Fault) | Answered(status: int, reply: Reply)

  /** The outcome of `JSON.parse` followed by reading `.title`: a syntax error,
      the value `null` (on which reading `.title` throws), or a value. */
  datatype Parsed<V> = ParseError | NullValue | Value(value: V)

  /** The call made to the provider: the bearer key and what the user prompt
      is built from; the prompt text itself is `UserMessage()`. */
  datatype ProviderCall = ProviderCall(apiKey: string, servings: string, ingredients: seq<string>,
                                       dietaryText: string)
  {
    function UserMessage(): string {
      UserPrompt(servings, ingredients, dietaryText)
    }
  }

  datatype ResponseBody<V> = NoBody | ErrorBody(error: string) | RecipeBody(recipe: V)

  datatype Response<V> = Response(status: int, body: ResponseBody<V>, headers: seq<(string, string)>)

  const CorsHeaders: seq<(string, string)> := [
    ("Access-Control-Allow-Origin", "*"),
    ("Access-Control-Allow-Headers", "authorization, x-client-info, apikey, content-type")
  ]

  const JsonHeaders: seq<(string, string)> := CorsHeaders + [("Content-Type", "application/json")]

  const NoIngredients := "No ingredients provided"
  const NotConfigured := "AI service not configured"
  const RateLimited := "Rate limit exceeded. Please try again in a moment."
  const CreditsExhausted := "AI service credits exhausted. Please contact support."
  const GenerationFailed := "Failed to generate recipe"
  const ParseFailed := "Failed to parse recipe data"

  function ErrorResponse<V>(status: int, message: string): (r: Response<V>)
    ensures r.status == status && r.body == ErrorBody(message) && r.headers == JsonHeaders
  {
    Response(status, ErrorBody(message), JsonHeaders)
  }

  /** The outer `catch`: status 500 with the error's message, or
      `Unknown error` for a thrown value that is not an `Error`. */
  function FaultResponse<V>(f: Fault): (r: Response<V>)
    ensures r.status == 500 && r.headers == JsonHeaders
    ensures f.ErrorInstance? ==> r.body == ErrorBody(f.message)
    ensures f.OtherValue? ==> r.body == ErrorBody("Unknown error")
  {
    ErrorResponse(500, match f case ErrorInstance(m) => m case OtherValue => "Unknown error")
  }

  // ---------------------------------------------------------------------------
  // The prompt
  // ---------------------------------------------------------------------------

  const NoRestrictions := "no dietary restrictions"

  /** The dietary preference put in the prompt: the requested one, unless it
      is missing, empty or `none`. */
  function DietaryText(dietary: Option<string>): (t: string)
    ensures t != ""
    ensures dietary.Some? && dietary.value != "" && dietary.value != "none" ==> t == dietary.value
    ensures dietary.None? || dietary.value in {"", "none"} ==> t == NoRestrictions
  {
    if dietary.Some? && dietary.value != "" && dietary.value != "none" then dietary.value
    else NoRestrictions
  }

  /** The opening line of the user prompt: the servings and the ingredients
      separated by `, `. */
  function PromptOpening(servings: string, ingredients: seq<string>): string {
    "Create a recipe for " + servings + " servings using these ingredients: "
      + Join(ingredients, ", ") + ". "
  }

  /** The last requirement of the user prompt. */
  const ReturnOnlyJson := "- Return ONLY the JSON object, no additional text"

  /** The requirement lines that close the user prompt. */
  function RequirementLines(dietaryText: string): seq<string> {
    ["",
     "Requirements:",
     "- Use the provided ingredients creatively",
     "- Adjust the recipe to match the " + dietaryText + " dietary preference",
     "- Provide realistic cooking times",
     "- Include specific quantities for all ingredients",
     "- Make sure nutritional info matches the dietary preference",
     ReturnOnlyJson]
  }

  /** The user prompt, one entry per source line: the opening, the dietary
      preference, then the requirements. */
  function UserPrompt(servings: string, ingredients: seq<string>, dietaryText: string): (p: string)
    ensures var o := PromptOpening(servings, ingredients); |o| <= |p| && p[..|o|] == o
    ensures |ReturnOnlyJson| <= |p| && p[|p| - |ReturnOnlyJson|..] == ReturnOnlyJson
  {
    var head := [PromptOpening(servings, ingredients), "Dietary preference: " + dietaryText + "."];
    JoinEndsWithLastOf(head, RequirementLines(dietaryText), "\n");
    Join(head + RequirementLines(dietaryText), "\n")
  }

  /** The prompt opens with the servings and the joined ingredients, then a
      line break and the dietary preference. */
  lemma UserPromptStart(servings: string, ingredients: seq<string>, dietaryText: string)
    ensures var head := PromptOpening(servings, ingredients) + "\n" + ("Dietary preference: " + dietaryText + ".") + "\n";
      |head| <= |UserPrompt(servings, ingredients, dietaryText)|
      && UserPrompt(servings, ingredients, dietaryText)[..|head|] == head
  {
    PromptHead(PromptOpening(servings, ingredients), "Dietary preference: " + dietaryText + ".",
               RequirementLines(dietaryText), "\n");
  }

  /** Joining keeps the first two entries and their separators in front. */
  lemma PromptHead(a: string, b: string, rest: seq<string>, sep: string)
    requires rest != []
    ensures var head := a + sep + b + sep;
      |head| <= |Join([a, b] + rest, sep)| && Join([a, b] + rest, sep)[..|head|] == head
  {
    assert [a, b] + rest == [a] + ([b] + rest);
    JoinCons(a, [b] + rest, sep);
    JoinCons(b, rest, sep);
    var j := Join(rest, sep);
    assert a + sep + (b + sep + j) == (a + sep + b + sep) + j;
  }

  // ---------------------------------------------------------------------------
  // Code-fence stripping
  // ---------------------------------------------------------------------------

  /** Three backquotes in a row start at position `i`. */
  predicate FenceAt(s: string, i: int) {
    0 <= i && i + 2 < |s| && s[i] == '`' && s[i + 1] == '`' && s[i + 2] == '`'
  }

  /** The word `json` starts at position `i`. */
  predicate JsonAt(s: string, i: int) {
    0 <= i && i + 3 < |s| && s[i] == 'j' && s[i + 1] == 's' && s[i + 2] == 'o' && s[i + 3] == 'n'
  }

  predicate NoFence(s: string) {
    forall i :: 0 <= i < |s| ==> !FenceAt(s, i)
  }

  /** `s.replace(/```json\n?|\n?```/g, "")`: scanning from the left, every
      ```` ```json ```` (with the line break after it, if any) and every
      ```` ``` ```` (with the line break before it, if any) is removed. */
  function StripFences(s: string): (r: string)
    ensures |r| <= |s|
  {
    if FenceAt(s, 0) then
      if JsonAt(s, 3) then
        if |s| > 7 && s[7] == '\n' then StripFences(s[8..]) else StripFences(s[7..])
      else StripFences(s[3..])
    else if s != [] && s[0] == '\n' && FenceAt(s, 1) then StripFences(s[4..])
    else if s == [] then []
    else [s[0]] + StripFences(s[1..])
  }

  /** The text handed to `JSON.parse`: fences removed, then trimmed. */
  function CleanText(s: string): (r: string)
    ensures NoOuterWhitespace(r)
  {
    Trim(StripFences(s))
  }

  lemma NoFenceTail(s: string)
    requires s != [] && NoFence(s)
    ensures NoFence(s[1..])
  {
    forall i | 0 <= i < |s| - 1 ensures !FenceAt(s[1..], i) {
      assert !FenceAt(s, i + 1);
    }
  }

  /** Text without three backquotes in a row is left as it is. */
  lemma {:induction false} StripFencesNoFence(s: string)
    requires NoFence(s)
    ensures StripFences(s) == s
  {
    if s != [] {
      assert !FenceAt(s, 0);
      assert !FenceAt(s, 1);
      NoFenceTail(s);
      StripFencesNoFence(s[1..]);
      assert s == [s[0]] + s[1..];
    }
  }

  /** Text without a fence, followed by a line break and a closing fence,
      loses exactly the closing fence. */
  lemma {:induction false} StripFencesClosing(s: string)
    requires NoFence(s)
    ensures StripFences(s + "\n```") == s
  {
    var t := s + "\n```";
    if s == [] {
      assert t == "\n```";
      assert t[0] == '\n' && FenceAt(t, 1);
      assert t[4..] == [];
    } else {
      assert t[0] == s[0] && t[|s|] == '\n';
      assert !FenceAt(t, 0) by {
        if |s| >= 3 {
          assert !FenceAt(s, 0);
        }
      }
      assert !FenceAt(t, 1) by {
        if |s| >= 4 {
          assert !FenceAt(s, 1);
        }
      }
      NoFenceTail(s);
      StripFencesClosing(s[1..]);
      assert t[1..] == s[1..] + "\n```";
      assert s == [s[0]] + s[1..];
    }
  }

  /** A fenced JSON block, ```` ```json ````, a line break, the text, a line
      break and ```` ``` ````, is cleaned to the trimmed text. */
  lemma CleanFencedBlock(s: string)
    requires NoFence(s)
    ensures CleanText("```json\n" + s + "\n```") == Trim(s)
  {
    var t := "```json\n" + s + "\n```";
    assert FenceAt(t, 0) && JsonAt(t, 3) && t[7] == '\n';
    assert t[8..] == s + "\n```";
    StripFencesClosing(s);
  }

  /** Text with no fence in it is only trimmed. */
  lemma CleanUnfenced(s: string)
    requires NoFence(s)
    ensures CleanText(s) == Trim(s)
  {
    StripFencesNoFence(s);
  }

  // ---------------------------------------------------------------------------
  // The handler
  // ---------------------------------------------------------------------------

  /** `!LOVABLE_API_KEY`: the key is missing or empty. */
  predicate Configured(apiKey: Option<string>) {
    apiKey.Some? && apiKey.value != ""
  }

  /** Before the provider is called: a response already decided, or the call
      to make. */
  datatype Step<V> = Answer(response: Response<V>) | Call(call: ProviderCall)

  /** The checks before the provider call: a body that could not be read, no
      ingredients, no API key; otherwise the call with the key and the
      prompt. */
  function Prepare<V>(body: RequestBody, apiKey: Option<string>): (step: Step<V>)
    ensures step.Call? ==> Configured(apiKey) && step.call.apiKey == apiKey.value
    ensures step.Answer? ==>
      step.response.status in {400, 500} && step.response.body.ErrorBody?
      && step.response.headers == JsonHeaders
  {
    match body
    case Unparsable(f) => Answer(FaultResponse(f))
    case Body(ingredients, dietary, servings) =>
      if ingredients.None? || |ingredients.value| == 0 then Answer(ErrorResponse(400, NoIngredients))
      else if !Configured(apiKey) then Answer(ErrorResponse(500, NotConfigured))
      else Call(ProviderCall(apiKey.value, servings, ingredients.value, DietaryText(dietary)))
  }

  /** `response.ok`: a status in 200..299. */
  predicate IsOk(status: int) {
    200 <= status <= 299
  }

  /** Parsing the cleaned content: the recipe with the default status, or the
      parse failure; nothing in between. */
  function Interpret<V>(text: string, parse: string -> Parsed<V>): (r: Response<V>)
    ensures r.headers == JsonHeaders
    ensures r.status == 200 <==> parse(CleanText(text)).Value?
    ensures r.status == 200 ==> r.body == RecipeBody(parse(CleanText(text)).value)
    ensures r.status != 200 ==> r == ErrorResponse(500, ParseFailed)
  {
    match parse(CleanText(text))
    case Value(v) => Response(200, RecipeBody(v), JsonHeaders)
    case _ => ErrorResponse(500, ParseFailed)
  }

  /** What follows the provider's answer. */
  function Complete<V>(upstream: Upstream, parse: string -> Parsed<V>): (r: Response<V>)
    ensures r.headers == JsonHeaders && r.status in {200, 402, 429, 500}
    ensures r.status == 200 <==> r.body.RecipeBody?
    ensures !r.body.RecipeBody? ==> r.body.ErrorBody?
    ensures r.body.RecipeBody? ==>
      && upstream.Answered? && IsOk(upstream.status)
      && upstream.reply.Completion? && upstream.reply.content.Str?
      && parse(CleanText(upstream.reply.content.text)) == Value(r.body.recipe)
  {
    match upstream
    case Thrown(f) => FaultResponse(f)
    case Answered(status, reply) =>
      if !IsOk(status) then
        if status == 429 then ErrorResponse(429, RateLimited)
        else if status == 402 then ErrorResponse(402, CreditsExhausted)
        else ErrorResponse(500, GenerationFailed)
      else
        match reply
        case NotJson(f) => FaultResponse(f)
        case Completion(Missing) => ErrorResponse(500, GenerationFailed)
        case Completion(NonText) => ErrorResponse(500, ParseFailed)
        case Completion(Str(t)) =>
          if t == "" then ErrorResponse(500, GenerationFailed) else Interpret(t, parse)
  }

  /** The whole handler. */
  function Handle<V>(httpMethod: string, body: RequestBody, apiKey: Option<string>,
                     provider: ProviderCall -> Upstream, parse: string -> Parsed<V>): (r: Response<V>)
    ensures httpMethod == "OPTIONS" ==> r == Response(200, NoBody, CorsHeaders)
    ensures httpMethod != "OPTIONS" ==> r.headers == JsonHeaders && r.body != NoBody
    ensures r.status in {200, 400, 402, 429, 500}
    ensures r.body.RecipeBody? <==> r.status == 200 && httpMethod != "OPTIONS"
  {
    if httpMethod == "OPTIONS" then Response(200, NoBody, CorsHeaders)
    else match Prepare(body, apiKey)
      case Answer(response) => response
      case Call(call) => Complete(provider(call), parse)
  }

  // ---------------------------------------------------------------------------
  // Properties of the handler
  // ---------------------------------------------------------------------------

  /** A preflight request gets an empty body with the CORS headers, whatever
      else is the case. */
  lemma PreflightShortCircuit<V>(body: RequestBody, apiKey: Option<string>,
                                 provider: ProviderCall -> Upstream, parse: string -> Parsed<V>)
    ensures var r := Handle("OPTIONS", body, apiKey, provider, parse);
      r.status == 200 && r.body.NoBody? && r.headers == CorsHeaders
  {
  }

  /** Missing or empty ingredients are refused with 400 before the key is
      looked at and before any provider call: the answer depends neither on
      the key nor on the provider. */
  lemma NoIngredientsRefused<V>(httpMethod: string, ingredients: Option<seq<string>>, dietary: Option<string>,
                                servings: string, apiKey: Option<string>,
                                provider: ProviderCall -> Upstream, parse: string -> Parsed<V>)
    requires httpMethod != "OPTIONS"
    requires ingredients.None? || ingredients.value == []
    ensures Prepare<V>(Body(ingredients, dietary, servings), apiKey).Answer?
    ensures Handle(httpMethod, Body(ingredients, dietary, servings), apiKey, provider, parse)
         == ErrorResponse(400, NoIngredients)
  {
  }

  /** With ingredients but no API key the answer is 500 and no call is made. */
  lemma MissingKeyRefused<V>(ingredients: seq<string>, dietary: Option<string>, servings: string,
                             apiKey: Option<string>)
    requires ingredients != [] && !Configured(apiKey)
    ensures Prepare<V>(Body(Some(ingredients), dietary, servings), apiKey)
         == Answer(ErrorResponse(500, NotConfigured))
  {
  }

  /** The provider is called exactly when the body was read, lists some
      ingredients and the key is configured; the call carries the key and a
      prompt built from the servings, ingredients and dietary preference. */
  lemma CallExactlyWhenReady<V>(body: RequestBody, apiKey: Option<string>)
    ensures Prepare<V>(body, apiKey).Call?
        <==> body.Body? && body.ingredients.Some? && body.ingredients.value != [] && Configured(apiKey)
    ensures Prepare<V>(body, apiKey).Call? ==>
      Prepare<V>(body, apiKey).call
        == ProviderCall(apiKey.value, body.servings, body.ingredients.value, DietaryText(body.dietary))
  {
  }

  /** A failing upstream status maps to 429 or 402 when it is one of those and
      to 500 otherwise. */
  lemma UpstreamStatusMapping<V>(status: int, reply: Reply, parse: string -> Parsed<V>)
    requires !IsOk(status)
    ensures var r := Complete(Answered(status, reply), parse);
      && (status == 429 ==> r == ErrorResponse(429, RateLimited))
      && (status == 402 ==> r == ErrorResponse(402, CreditsExhausted))
      && (status != 429 && status != 402 ==> r == ErrorResponse(500, GenerationFailed))
  {
  }

  /** A successful answer with no content or empty content is a 500. */
  lemma EmptyContentFails<V>(status: int, content: Content, parse: string -> Parsed<V>)
    requires IsOk(status) && (content.Missing? || content == Str(""))
    ensures Complete(Answered(status, Completion(content)), parse) == ErrorResponse(500, GenerationFailed)
  {
  }

  /** For non-empty content the outcome is all or nothing: the parsed recipe
      with status 200 exactly when the cleaned text parses to a value, and the
      parse failure otherwise. */
  lemma ParseAllOrNothing<V>(status: int, text: string, parse: string -> Parsed<V>)
    requires IsOk(status) && text != ""
    ensures var r := Complete(Answered(status, Completion(Str(text))), parse);
      && (parse(CleanText(text)).Value? <==> r.status == 200)
      && (parse(CleanText(text)).Value? ==> r.body == RecipeBody(parse(CleanText(text)).value))
      && (!parse(CleanText(text)).Value? ==> r == ErrorResponse(500, ParseFailed))
  {
  }

  /** Every response carries the CORS headers; the statuses are 200, 400,
      402, 429 and 500; and a recipe body appears only with status 200. */
  lemma ResponseShape<V>(httpMethod: string, body: RequestBody, apiKey: Option<string>,
                         provider: ProviderCall -> Upstream, parse: string -> Parsed<V>)
    ensures var r := Handle(httpMethod, body, apiKey, provider, parse);
      && r.status in {200, 400, 402, 429, 500}
      && r.headers[..2] == CorsHeaders
      && (r.body.RecipeBody? ==> r.status == 200)
      && (r.status == 200 ==> r.body.NoBody? || r.body.RecipeBody?)
  {
    assert JsonHeaders[..2] == CorsHeaders;
  }

  /** A recipe is returned only if the provider answered with a successful
      status and content that cleans to text the parser accepts. */
  lemma RecipeOnlyFromParsedContent<V>(httpMethod: string, body: RequestBody, apiKey: Option<string>,
                                       provider: ProviderCall -> Upstream, parse: string -> Parsed<V>)
    requires Handle(httpMethod, body, apiKey, provider, parse).body.RecipeBody?
    ensures httpMethod != "OPTIONS" && Prepare<V>(body, apiKey).Call?
    ensures var up := provider(Prepare<V>(body, apiKey).call);
      && up.Answered? && IsOk(up.status) && up.reply.Completion? && up.reply.content.Str?
      && parse(CleanText(up.reply.content.text))
         == Value(Handle(httpMethod, body, apiKey, provider, parse).body.recipe)
  {
  }
}
