/**
 * The ingredient form: the text being typed, the list of ingredients added
 * so far, the dietary preference and the number of servings, and the
 * handlers that change them. Each handler is specified by a function from
 * the old form state to the new one; the properties of the form are proved
 * about those functions, and the class `IngredientForm` holds the four
 * fields and applies them.
 */
module RecipeForm {
  import opened Text

  /** The values the dietary select offers, `none` first. */
  const DietaryOptions: seq<string> :=
    ["none", "vegan", "vegetarian", "keto", "gluten-free", "pescatarian"]

  /** No ingredient appears twice. */
  predicate NoDuplicates(xs: seq<string>) {
    forall i, j :: 0 <= i < |xs| && 0 <= j < |xs| && i != j ==> xs[i] != xs[j]
  }

  /** An entry the add handler can produce: non-empty and already trimmed. */
  predicate IsEntry(x: string) {
    x != "" && Trim(x) == x
  }

  /** The invariant of the ingredient list. */
  predicate IngredientsOk(xs: seq<string>) {
    NoDuplicates(xs) && forall i :: 0 <= i < |xs| ==> IsEntry(xs[i])
  }

  // ---------------------------------------------------------------------------
  // The ingredient list
  // ---------------------------------------------------------------------------

  /** `xs.filter((i) => i !== x)`: every entry different from `x`, in order. */
  function Without(xs: seq<string>, x: string): (r: seq<string>)
    ensures |r| <= |xs|
  {
    if xs == [] then []
    else (if xs[0] == x then [] else [xs[0]]) + Without(xs[1..], x)
  }

  /** What remains is exactly the entries different from `x`. */
  lemma {:induction false} WithoutMembers(xs: seq<string>, x: string)
    ensures forall y :: y in Without(xs, x) <==> y in xs && y != x
  {
    if xs != [] {
      WithoutMembers(xs[1..], x);
      assert xs == [xs[0]] + xs[1..];
    }
  }

  /** Filtering distributes over concatenation, so the entries that remain
      keep their relative order. */
  lemma {:induction false} WithoutAppend(a: seq<string>, b: seq<string>, x: string)
    ensures Without(a + b, x) == Without(a, x) + Without(b, x)
  {
    if a == [] {
      assert a + b == b;
    } else {
      assert (a + b)[0] == a[0];
      assert (a + b)[1..] == a[1..] + b;
      WithoutAppend(a[1..], b, x);
    }
  }

  /** Removing an ingredient that is not in the list changes nothing. */
  lemma {:induction false} WithoutAbsent(xs: seq<string>, x: string)
    requires x !in xs
    ensures Without(xs, x) == xs
  {
    if xs != [] {
      WithoutAbsent(xs[1..], x);
      assert xs == [xs[0]] + xs[1..];
    }
  }

  /** Removing twice is removing once. */
  lemma WithoutIdempotent(xs: seq<string>, x: string)
    ensures Without(Without(xs, x), x) == Without(xs, x)
  {
    WithoutMembers(xs, x);
    WithoutAbsent(Without(xs, x), x);
  }

  lemma NoDuplicatesCons(x: string, xs: seq<string>)
    ensures NoDuplicates([x] + xs) <==> x !in xs && NoDuplicates(xs)
  {
    var ys := [x] + xs;
    if NoDuplicates(ys) {
      forall i, j | 0 <= i < |xs| && 0 <= j < |xs| && i != j ensures xs[i] != xs[j] {
        assert xs[i] == ys[i + 1] && xs[j] == ys[j + 1];
      }
      forall k | 0 <= k < |xs| ensures xs[k] != x {
        assert ys[0] == x && ys[k + 1] == xs[k];
      }
    }
  }

  /** Filtering keeps a duplicate-free list duplicate-free. */
  lemma {:induction false} WithoutNoDuplicates(xs: seq<string>, x: string)
    requires NoDuplicates(xs)
    ensures NoDuplicates(Without(xs, x))
  {
    if xs != [] {
      assert xs == [xs[0]] + xs[1..];
      NoDuplicatesCons(xs[0], xs[1..]);
      WithoutNoDuplicates(xs[1..], x);
      WithoutMembers(xs[1..], x);
      if xs[0] != x {
        NoDuplicatesCons(xs[0], Without(xs[1..], x));
      } else {
        assert Without(xs, x) == Without(xs[1..], x);
      }
    }
  }

  /** Removing keeps the invariant of the list. */
  lemma WithoutKeepsOk(xs: seq<string>, x: string)
    requires IngredientsOk(xs)
    ensures IngredientsOk(Without(xs, x))
  {
    WithoutNoDuplicates(xs, x);
    WithoutMembers(xs, x);
    var r := Without(xs, x);
    forall i | 0 <= i < |r| ensures IsEntry(r[i]) {
      assert r[i] in xs;
    }
  }

  /** In a duplicate-free list, entry `k` occurs neither before nor after
      position `k`. */
  lemma OnlyAt(xs: seq<string>, k: nat)
    requires NoDuplicates(xs) && k < |xs|
    ensures xs[k] !in xs[..k] && xs[k] !in xs[k + 1..]
  {
  }

  lemma WithoutHead(x: string, after: seq<string>)
    ensures Without([x] + after, x) == Without(after, x)
  {
    var tail := [x] + after;
    assert tail[0] == x && tail[1..] == after;
  }

  lemma DropOne(before: seq<string>, x: string, after: seq<string>)
    requires x !in before && x !in after
    ensures Without(before + ([x] + after), x) == before + after
  {
    WithoutAppend(before, [x] + after, x);
    WithoutHead(x, after);
    WithoutAbsent(before, x);
    WithoutAbsent(after, x);
  }

  lemma SplitAt(xs: seq<string>, k: nat)
    requires k < |xs|
    ensures xs == xs[..k] + ([xs[k]] + xs[k + 1..])
  {
  }

  /** In a duplicate-free list, removing entry `k` by value drops exactly
      that entry and keeps the others in order. */
  lemma WithoutDropsOne(xs: seq<string>, k: nat)
    requires NoDuplicates(xs) && k < |xs|
    ensures Without(xs, xs[k]) == xs[..k] + xs[k + 1..]
  {
    OnlyAt(xs, k);
    SplitAt(xs, k);
    DropOne(xs[..k], xs[k], xs[k + 1..]);
  }


  lemma NoDuplicatesSnoc(xs: seq<string>, t: string)
    requires NoDuplicates(xs) && t !in xs
    ensures NoDuplicates(xs + [t])
  {
    var ys := xs + [t];
    forall i, j | 0 <= i < |ys| && 0 <= j < |ys| && i != j ensures ys[i] != ys[j] {
      if j == |xs| {
        assert ys[i] == xs[i];
      } else if i == |xs| {
        assert ys[j] == xs[j];
      } else {
        assert ys[i] == xs[i] && ys[j] == xs[j];
      }
    }
  }

  /** Appending a new trimmed, non-empty entry keeps the invariant. */
  lemma AppendKeepsOk(xs: seq<string>, t: string)
    requires IngredientsOk(xs) && IsEntry(t) && t !in xs
    ensures IngredientsOk(xs + [t])
  {
    NoDuplicatesSnoc(xs, t);
    var ys := xs + [t];
    forall i | 0 <= i < |ys| ensures IsEntry(ys[i]) {
      if i < |xs| {
        assert ys[i] == xs[i];
      }
    }
  }

  // ---------------------------------------------------------------------------
  // Servings
  // ---------------------------------------------------------------------------

  /** `Math.max(1, parseInt(v) || 1)`: the number typed into the servings
      field, or 1 when it does not parse, parses to 0 or is below 1. */
  function ServingsFromInput(v: string): (n: int)
    ensures n >= 1
    ensures ParseInt(v).Some? && ParseInt(v).value >= 1 ==> n == ParseInt(v).value
    ensures !(ParseInt(v).Some? && ParseInt(v).value >= 1) ==> n == 1
  {
    var typed := match ParseInt(v) case Some(k) => if k != 0 then k else 1 case None => 1;
    if typed < 1 then 1 else typed
  }

  /** A positive count written in decimal is read back as itself. */
  lemma ServingsRoundTrip(n: int)
    requires n >= 1
    ensures ServingsFromInput(IntToDecimal(n)) == n
  {
    ParseIntDecimal(n);
  }

  // ---------------------------------------------------------------------------
  // The form state and its handlers
  // ---------------------------------------------------------------------------

  datatype FormState = FormState(input: string, ingredients: seq<string>, dietary: string, servings: int)

  /** What every handler keeps: a well-formed list, a dietary value from the
      select, at least one serving. */
  predicate ValidState(s: FormState) {
    IngredientsOk(s.ingredients) && s.dietary in DietaryOptions && s.servings >= 1
  }

  /** The state the form mounts with. */
  function Initial(): (s: FormState)
    ensures ValidState(s) && s.ingredients == []
  {
    FormState("", [], "none", 2)
  }

  /** What an add attempt did. */
  datatype AddOutcome = Added | Blank | Duplicate

  /** `handleAddIngredient`: the trimmed input is appended and the input
      cleared, unless it is blank or already in the list. */
  function Add(s: FormState): (r: (AddOutcome, FormState))
    ensures r.1.dietary == s.dietary && r.1.servings == s.servings
    ensures r.0 == Added <==> Trim(s.input) != "" && Trim(s.input) !in s.ingredients
    ensures r.0 != Added ==> r.1 == s
  {
    var trimmed := Trim(s.input);
    if trimmed == "" then (Blank, s)
    else if trimmed in s.ingredients then (Duplicate, s)
    else (Added, s.(ingredients := s.ingredients + [trimmed], input := ""))
  }

  /** A successful add puts the trimmed input at the end of the list, leaves
      the earlier entries as they were and clears the input. */
  lemma AddAppends(s: FormState)
    requires Add(s).0 == Added
    ensures var t := Add(s).1;
      && |t.ingredients| == |s.ingredients| + 1
      && t.ingredients[..|s.ingredients|] == s.ingredients
      && t.ingredients[|s.ingredients|] == Trim(s.input)
      && t.input == ""
  {
    var t := Add(s).1;
    assert t.ingredients == s.ingredients + [Trim(s.input)];
  }

  /** Adding an entry equal to one already present (exact match) or a blank
      input leaves the whole form as it was. */
  lemma AddRejects(s: FormState)
    ensures Trim(s.input) == "" ==> Add(s) == (Blank, s)
    ensures Trim(s.input) != "" && Trim(s.input) in s.ingredients ==> Add(s) == (Duplicate, s)
  {
  }

  /** Adding keeps the invariant. */
  lemma AddKeepsValid(s: FormState)
    requires ValidState(s)
    ensures ValidState(Add(s).1)
  {
    var t := Trim(s.input);
    if t != "" && t !in s.ingredients {
      TrimIdempotent(s.input);
      AppendKeepsOk(s.ingredients, t);
    }
  }

  /** Adding the same input twice in a row adds it once: the second attempt
      sees a blank input. */
  lemma AddTwice(s: FormState)
    requires Add(s).0 == Added
    ensures Add(Add(s).1).0 == Blank && Add(Add(s).1).1 == Add(s).1
  {
    assert Trim("") == "";
  }

  /** `handleRemoveIngredient`: filter the entry out of the list. */
  function Remove(s: FormState, x: string): (r: FormState)
    ensures r.input == s.input && r.dietary == s.dietary && r.servings == s.servings
    ensures forall y :: y in r.ingredients <==> y in s.ingredients && y != x
  {
    WithoutMembers(s.ingredients, x);
    s.(ingredients := Without(s.ingredients, x))
  }

  /** Removing keeps the invariant. */
  lemma RemoveKeepsValid(s: FormState, x: string)
    requires ValidState(s)
    ensures ValidState(Remove(s, x))
  {
    WithoutKeepsOk(s.ingredients, x);
  }

  /** Removing an entry that is not listed, or removing the same entry a
      second time, changes nothing. */
  lemma RemoveNoOp(s: FormState, x: string)
    ensures x !in s.ingredients ==> Remove(s, x) == s
    ensures Remove(Remove(s, x), x) == Remove(s, x)
  {
    if x !in s.ingredients {
      WithoutAbsent(s.ingredients, x);
    }
    WithoutIdempotent(s.ingredients, x);
  }

  /** `handleKeyPress`: Enter adds; every other key leaves the state alone. */
  function KeyPress(s: FormState, key: string): (r: (Option<AddOutcome>, FormState))
    ensures key == "Enter" ==> r == (Some(Add(s).0), Add(s).1)
    ensures key != "Enter" ==> r == (None, s)
  {
    if key == "Enter" then var (o, t) := Add(s); (Some(o), t) else (None, s)
  }

  /** The minus button: one serving fewer, but never below 1. */
  function Decrement(s: FormState): (r: FormState)
    ensures r == s.(servings := if s.servings > 1 then s.servings - 1 else 1)
  {
    s.(servings := if s.servings - 1 > 1 then s.servings - 1 else 1)
  }

  /** The plus button: one serving more. */
  function Increment(s: FormState): (r: FormState)
    ensures r.servings > s.servings && r.(servings := s.servings) == s
  {
    s.(servings := s.servings + 1)
  }

  /** Typing into the servings field. */
  function TypeServings(s: FormState, v: string): (r: FormState)
    ensures r.servings >= 1 && r.(servings := s.servings) == s
  {
    s.(servings := ServingsFromInput(v))
  }

  /** The select only ever reports one of its options. */
  function ChooseDietary(s: FormState, d: string): (r: FormState)
    requires d in DietaryOptions
    ensures r.dietary == d && r.(dietary := s.dietary) == s
  {
    s.(dietary := d)
  }

  /** Every servings update keeps at least one serving; the dietary choice and
      the other handlers keep the rest of the invariant. */
  lemma UpdatesKeepValid(s: FormState, v: string, d: string)
    requires ValidState(s) && d in DietaryOptions
    ensures ValidState(Decrement(s)) && ValidState(Increment(s))
    ensures ValidState(TypeServings(s, v)) && ValidState(ChooseDietary(s, d))
  {
  }

  /** What `onGenerate` receives. */
  datatype Request = Request(ingredients: seq<string>, dietary: string, servings: int)

  /** `handleGenerate`: an empty list is refused and nothing is requested;
      otherwise the current list, dietary choice and servings are passed on
      once. */
  function Generate(s: FormState): (r: Option<Request>)
    ensures r.None? <==> s.ingredients == []
    ensures r.Some? ==> r.value == Request(s.ingredients, s.dietary, s.servings)
  {
    if |s.ingredients| == 0 then None else Some(Request(s.ingredients, s.dietary, s.servings))
  }

  /** A request from a valid form has a non-empty, duplicate-free list of
      trimmed entries and at least one serving. */
  lemma GenerateFromValid(s: FormState)
    requires ValidState(s) && Generate(s).Some?
    ensures var q := Generate(s).value;
      q.ingredients != [] && IngredientsOk(q.ingredients) && q.servings >= 1 && q.dietary in DietaryOptions
  {
  }

  // ---------------------------------------------------------------------------
  // The component
  // ---------------------------------------------------------------------------

  /** The form component and its four state fields. */
  class IngredientForm {
    var input: string
    var ingredients: seq<string>
    var dietary: string
    var servings: int

    function State(): FormState
      reads this
    {
      FormState(input, ingredients, dietary, servings)
    }

    predicate Valid()
      reads this
    {
      ValidState(State())
    }

    constructor()
      ensures State() == Initial() && Valid()
    {
      input := "";
      ingredients := [];
      dietary := "none";
      servings := 2;
    }

    /** The input's `onChange`. */
    method SetInput(v: string)
      requires Valid()
      modifies this
      ensures State() == old(State()).(input := v) && Valid()
    {
      input := v;
    }

    method AddIngredient() returns (outcome: AddOutcome)
      requires Valid()
      modifies this
      ensures (outcome, State()) == Add(old(State())) && Valid()
    {
      AddKeepsValid(State());
      var trimmed := Trim(input);
      if trimmed == "" {
        return Blank;
      }
      if trimmed in ingredients {
        return Duplicate;
      }
      ingredients := ingredients + [trimmed];
      input := "";
      outcome := Added;
    }

    method RemoveIngredient(x: string)
      requires Valid()
      modifies this
      ensures State() == Remove(old(State()), x) && Valid()
    {
      ingredients := Without(ingredients, x);
      WithoutKeepsOk(old(ingredients), x);
    }

    method HandleKeyPress(key: string) returns (outcome: Option<AddOutcome>)
      requires Valid()
      modifies this
      ensures (outcome, State()) == KeyPress(old(State()), key) && Valid()
    {
      if key == "Enter" {
        var o := AddIngredient();
        outcome := Some(o);
      } else {
        outcome := None;
      }
    }

    method DecrementServings()
      requires Valid()
      modifies this
      ensures State() == Decrement(old(State())) && Valid()
    {
      servings := if servings - 1 > 1 then servings - 1 else 1;
    }

    method IncrementServings()
      requires Valid()
      modifies this
      ensures State() == Increment(old(State())) && Valid()
    {
      servings := servings + 1;
    }

    method SetServings(v: string)
      requires Valid()
      modifies this
      ensures State() == TypeServings(old(State()), v) && Valid()
    {
      servings := ServingsFromInput(v);
    }

    method SetDietary(d: string)
      requires Valid() && d in DietaryOptions
      modifies this
      ensures State() == ChooseDietary(old(State()), d) && Valid()
    {
      dietary := d;
    }

    /** The generate button: the request handed to `onGenerate`, if any. The
        form itself does not change. */
    method HandleGenerate() returns (request: Option<Request>)
      requires Valid()
      ensures request == Generate(State())
      ensures request.None? <==> ingredients == []
    {
      if |ingredients| == 0 {
        request := None;
      } else {
        request := Some(Request(ingredients, dietary, servings));
      }
    }
  }
}
