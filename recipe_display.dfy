/** The export formats of the recipe display: the plain-text document that is
    downloaded, the name of the downloaded file, and the text copied to the
    clipboard. All three are pure functions of the recipe. */
module RecipeDisplay {
  import opened Text
  import opened Recipes

  // ---------------------------------------------------------------------------
  // Plain-text document
  // ---------------------------------------------------------------------------

  /** Each entry prefixed with its position, counting from `first`:
      `${i + first}. ${x}`. */
  function NumberedFrom(xs: seq<string>, first: nat): (r: seq<string>)
    ensures |r| == |xs|
    ensures forall k :: 0 <= k < |xs| ==> r[k] == NatToDecimal(first + k) + ". " + xs[k]
  {
    if xs == [] then [] else [NatToDecimal(first) + ". " + xs[0]] + NumberedFrom(xs[1..], first + 1)
  }

  /** `xs.map((x, i) => `${i + 1}. ${x}`)`. */
  function Numbered(xs: seq<string>): seq<string> {
    NumberedFrom(xs, 1)
  }

  /** The lines of an optional section: a heading, the value and an empty
      line, or a single empty line when the value is falsy. */
  function OptionalLines(heading: string, v: Option<string>): seq<string> {
    if Truthy(v) then [heading, v.value, ""] else [""]
  }

  /** `${v ? `HEADING\n${v}\n` : ""}`: the optional section as text. */
  function OptionalBlock(heading: string, v: Option<string>): string {
    Join(OptionalLines(heading, v), "\n")
  }

  /** The lines of the nutrition section, in the order calories, protein,
      fat, carbs; a single empty line when the recipe has no nutrition. */
  function NutritionLines(n: Option<Nutrition>): seq<string> {
    match n
    case None => [""]
    case Some(x) =>
      ["NUTRITION (per serving):", "Calories: " + x.calories, "Protein: " + x.protein,
       "Fat: " + x.fat, "Carbs: " + x.carbs]
  }

  function NutritionBlock(n: Option<Nutrition>): string {
    Join(NutritionLines(n), "\n")
  }

  /** The seven header lines: title, underline, blank, cooking time,
      servings, blank, the ingredients heading. */
  function HeaderLines(r: Recipe): seq<string> {
    [r.title, Repeat('=', |r.title|), "", "Cooking Time: " + r.cookingTime,
     "Servings: " + IntToDecimal(r.servings), "", "INGREDIENTS:"]
  }

  /** The template literal of the download handler, one entry per source
      line: a line break right after the opening backquote, the header
      lines, the joined numbered ingredients, a blank line, the steps
      heading, the joined numbered steps, a blank line, the three optional
      sections, and the four spaces that indent the closing backquote. */
  function TemplateLines(r: Recipe): seq<string> {
    [""] + HeaderLines(r)
    + [Join(Numbered(r.ingredients), "\n")]
    + ["", "STEPS:"]
    + [Join(Numbered(r.steps), "\n")]
    + [""]
    + [OptionalBlock("CHEF'S TIPS:", r.tips), OptionalBlock("WINE PAIRING:", r.pairing),
       NutritionBlock(r.nutrition), "    "]
  }

  /** The template text before `trim`. It opens with the line break after
      the opening backquote and closes with the four spaces before the
      closing one: the whitespace that `trim` removes. */
  function Template(r: Recipe): (t: string)
    ensures 5 <= |t| && t[0] == '\n' && t[|t| - 4..] == "    "
  {
    var ls := TemplateLines(r);
    assert |ls| == 17 && ls[0] == "" && ls[16] == "    ";
    FramedJoin(ls, "\n");
    Join(ls, "\n")
  }

  /** Lines that open with an empty line, joined, open with the separator
      and close with their last line. */
  lemma FramedJoin(ls: seq<string>, sep: string)
    requires |ls| >= 2 && ls[0] == []
    ensures var j := Join(ls, sep); var last := ls[|ls| - 1];
      |sep| + |last| <= |j| && j[..|sep|] == sep && j[|j| - |last|..] == last
  {
    var rest := ls[1..];
    JoinEndsWithLast(rest, sep);
    assert rest[|rest| - 1] == ls[|ls| - 1];
    assert Join(ls, sep) == "" + sep + Join(rest, sep);
  }

  /** The downloaded plain-text document: the template, trimmed. It never
      begins or ends with whitespace. */
  function Document(r: Recipe): (doc: string)
    ensures NoOuterWhitespace(doc)
  {
    Trim(Template(r))
  }

  // The document read line by line.

  /** A joined list occupies one (empty) line even when the list is empty. */
  function ListLines(xs: seq<string>): (ls: seq<string>)
    ensures ls != [] && Join(ls, "\n") == Join(xs, "\n")
  {
    if xs == [] then [""] else xs
  }

  /** The lines of the document: title, underline, the cooking-time and
      servings block, the numbered ingredients one per line, the numbered
      steps one per line, then the tips, pairing and nutrition sections,
      each only when present. */
  function DocumentLines(r: Recipe): seq<string> {
    HeaderLines(r)
    + ListLines(Numbered(r.ingredients))
    + ["", "STEPS:"]
    + ListLines(Numbered(r.steps))
    + [""]
    + OptionalLines("CHEF'S TIPS:", r.tips)
    + OptionalLines("WINE PAIRING:", r.pairing)
    + NutritionLines(r.nutrition)
  }

  /** Flattening the tail of the template: the three optional sections and
      the closing indentation `w`. */
  lemma TemplateTailLayout(t: seq<string>, p: seq<string>, n: seq<string>, w: string, sep: string)
    requires t != [] && p != [] && n != []
    ensures Join([Join(t, sep), Join(p, sep), Join(n, sep), w], sep) == Join(t + p + n + [w], sep)
  {
    var jp := [Join(p, sep)];
    var jn := [Join(n, sep)];
    assert [Join(t, sep), Join(p, sep), Join(n, sep), w] == [] + [Join(t, sep)] + (jp + jn + [w]);
    JoinFlatten([], t, jp + jn + [w], sep);
    assert [] + t + (jp + jn + [w]) == t + jp + (jn + [w]);
    JoinFlatten(t, p, jn + [w], sep);
    assert t + p + (jn + [w]) == (t + p) + jn + [w];
    JoinFlatten(t + p, n, [w], sep);
  }

  /** The front of the template: the header lines `h`, then the joined
      lists `i` and `s` around the lines `mid`, then the rest `z`. */
  lemma TemplateFrontLayout(h: seq<string>, i: seq<string>, mid: seq<string>, s: seq<string>,
                            z: seq<string>, sep: string)
    requires i != [] && s != []
    ensures Join(h + [Join(i, sep)] + mid + [Join(s, sep)] + z, sep) == Join(h + i + mid + s + z, sep)
  {
    assert h + [Join(i, sep)] + mid + [Join(s, sep)] + z == h + [Join(i, sep)] + (mid + [Join(s, sep)] + z);
    JoinFlatten(h, i, mid + [Join(s, sep)] + z, sep);
    assert h + i + (mid + [Join(s, sep)] + z) == (h + i + mid) + [Join(s, sep)] + z;
    JoinFlatten(h + i + mid, s, z, sep);
  }

  /** Joining a list between a leading empty line and a closing line `w`. */
  lemma Framed(d: seq<string>, w: string, sep: string)
    requires d != []
    ensures Join([""] + d + [w], sep) == sep + Join(d, sep) + sep + w
  {
    assert [""] + d + [w] == [""] + (d + [w]);
    JoinCons("", d + [w], sep);
    JoinAppend(d, [w], sep);
  }

  /** Lists with equal joins can be swapped at the end of a longer list. */
  lemma JoinSameTail(front: seq<string>, t1: seq<string>, t2: seq<string>, sep: string)
    requires front != [] && t1 != [] && t2 != [] && Join(t1, sep) == Join(t2, sep)
    ensures Join(front + t1, sep) == Join(front + t2, sep)
  {
    JoinAppend(front, t1, sep);
    JoinAppend(front, t2, sep);
  }

  /** The layout of the template over abstract pieces: joining the header
      lines `h`, the joined lists `i` and `s` and the joined sections `t`,
      `p` and `n` is joining all their lines at once. */
  lemma SegmentsLayout(h: seq<string>, i: seq<string>, mid: seq<string>, s: seq<string>,
                       t: seq<string>, p: seq<string>, n: seq<string>, w: string, sep: string)
    requires i != [] && s != [] && t != [] && p != [] && n != []
    ensures Join([""] + h + [Join(i, sep)] + mid + [Join(s, sep)] + [""]
                 + [Join(t, sep), Join(p, sep), Join(n, sep), w], sep)
         == sep + Join(h + i + mid + s + [""] + t + p + n, sep) + sep + w
  {
    var tail := [Join(t, sep), Join(p, sep), Join(n, sep), w];
    var front := [""] + h + i + mid + s + [""];
    SegmentsFront(h, i, mid, s, tail, sep);
    TemplateTailLayout(t, p, n, w, sep);
    var flat := t + p + n + [w];
    JoinSameTail(front, tail, flat, sep);
    var d := h + i + mid + s + [""] + t + p + n;
    SegmentsRegroup(h, i, mid, s, t, p, n, w);
    Framed(d, w, sep);
  }

  lemma SegmentsFront(h: seq<string>, i: seq<string>, mid: seq<string>, s: seq<string>,
                      tail: seq<string>, sep: string)
    requires i != [] && s != []
    ensures Join([""] + h + [Join(i, sep)] + mid + [Join(s, sep)] + [""] + tail, sep)
         == Join([""] + h + i + mid + s + [""] + tail, sep)
  {
    assert [""] + h + [Join(i, sep)] + mid + [Join(s, sep)] + [""] + tail
        == ([""] + h) + [Join(i, sep)] + mid + [Join(s, sep)] + ([""] + tail);
    TemplateFrontLayout([""] + h, i, mid, s, [""] + tail, sep);
    assert ([""] + h) + i + mid + s + ([""] + tail) == [""] + h + i + mid + s + [""] + tail;
  }

  lemma SegmentsRegroup(h: seq<string>, i: seq<string>, mid: seq<string>, s: seq<string>,
                        t: seq<string>, p: seq<string>, n: seq<string>, w: string)
    ensures [""] + h + i + mid + s + [""] + (t + p + n + [w])
         == [""] + (h + i + mid + s + [""] + t + p + n) + [w]
  {
  }

  /** The template is the document's lines joined with line breaks, between a
      leading line break and a trailing line of four spaces. */
  lemma TemplateLayout(r: Recipe)
    ensures Template(r) == "\n" + Join(DocumentLines(r), "\n") + "\n    "
  {
    SegmentsLayout(HeaderLines(r), ListLines(Numbered(r.ingredients)), ["", "STEPS:"],
                   ListLines(Numbered(r.steps)), OptionalLines("CHEF'S TIPS:", r.tips),
                   OptionalLines("WINE PAIRING:", r.pairing), NutritionLines(r.nutrition),
                   "    ", "\n");
  }

  /** Joined lines begin with the first character of the first line. */
  lemma JoinFirstChar(d: seq<string>, sep: string)
    requires d != [] && d[0] != []
    ensures Join(d, sep) != [] && Join(d, sep)[0] == d[0][0]
  {
    if |d| > 1 {
      JoinCons(d[0], d[1..], sep);
      assert d == [d[0]] + d[1..];
    }
  }

  /** Joining with one more line at the end. */
  lemma JoinSnoc(front: seq<string>, x: string, sep: string)
    requires front != []
    ensures Join(front + [x], sep) == Join(front, sep) + sep + x
  {
    JoinAppend(front, [x], sep);
  }

  /** A string that ends with a non-whitespace character has no trailing
      whitespace to trim. */
  lemma TrimEndKeeps(y: string, x: string)
    requires x != [] && !IsWhitespace(x[|x| - 1])
    ensures TrimEnd(y + x) == y + x
  {
    var s := y + x;
    assert s[|s| - 1] == x[|x| - 1];
    TrimEndKeepsPrefix(s, "");
    assert s + "" == s;
  }

  /** Trimming text framed by a leading line break and a closing line of
      whitespace, around lines that start with a non-whitespace character,
      leaves the lines with their trailing whitespace removed. */
  lemma TrimFramed(d: seq<string>, w: string)
    requires d != [] && d[0] != [] && !IsWhitespace(d[0][0]) && AllWhitespace(w)
    ensures Trim("\n" + Join(d, "\n") + "\n" + w) == TrimEnd(Join(d, "\n"))
  {
    var body := Join(d, "\n");
    JoinFirstChar(d, "\n");
    var tail := "\n" + w;
    assert "\n" + body + "\n" + w == "\n" + (body + tail);
    assert (body + tail)[0] == body[0];
    TrimStartAfterWhitespace("\n", body + tail);
    assert AllWhitespace(tail) by {
      assert forall k :: 1 <= k < |tail| ==> tail[k] == w[k - 1];
    }
    TrimEndAppendWhitespace(body, tail);
  }

  /** For a title that starts with a non-whitespace character, `trim` only
      drops the leading line break and the trailing whitespace: the document
      is its lines joined, with trailing whitespace removed. */
  lemma DocumentIsLayout(r: Recipe)
    requires r.title != [] && !IsWhitespace(r.title[0])
    ensures Document(r) == TrimEnd(Join(DocumentLines(r), "\n"))
  {
    TemplateLayout(r);
    assert DocumentLines(r)[0] == r.title;
    TrimIndentedClose(DocumentLines(r));
  }

  /** `TrimFramed` for the template's closing line of four spaces. */
  lemma TrimIndentedClose(d: seq<string>)
    requires d != [] && d[0] != [] && !IsWhitespace(d[0][0])
    ensures Trim("\n" + Join(d, "\n") + "\n    ") == TrimEnd(Join(d, "\n"))
  {
    var body := Join(d, "\n");
    assert "\n" + body + "\n    " == "\n" + body + "\n" + "    ";
    assert AllWhitespace("    ");
    TrimFramed(d, "    ");
  }

  /** Trimming the end of joined lines keeps the first two lines intact when
      a later line holds a non-whitespace character. */
  lemma TrimEndKeepsFirstLines(a: string, b: string, rest: seq<string>, sep: string, k: nat, c: char)
    requires k < |rest| && c in rest[k] && !IsWhitespace(c)
    ensures TrimEnd(Join([a, b] + rest, sep)) == a + sep + b + sep + TrimEnd(Join(rest, sep))
  {
    var j := Join(rest, sep);
    assert [a, b] + rest == [a] + ([b] + rest);
    JoinCons(a, [b] + rest, sep);
    JoinCons(b, rest, sep);
    assert a + sep + (b + sep + j) == (a + sep + b + sep) + j;
    JoinHasChar(rest, sep, k, c);
    TrimEndBeforeNonWhitespace(a + sep + b + sep, j, c);
  }

  /** Trimmed joined lines start with their first two lines when a later
      line holds a non-whitespace character. */
  lemma TrimmedHead(ls: seq<string>, k: nat, c: char)
    requires 2 + k < |ls| && c in ls[2 + k] && !IsWhitespace(c)
    ensures var head := ls[0] + "\n" + ls[1] + "\n";
      |head| <= |TrimEnd(Join(ls, "\n"))| && TrimEnd(Join(ls, "\n"))[..|head|] == head
  {
    var rest := ls[2..];
    assert ls == [ls[0], ls[1]] + rest;
    assert rest[k] == ls[2 + k];
    TrimEndKeepsFirstLines(ls[0], ls[1], rest, "\n", k, c);
  }

  /** The first line of the document is the title and the second is `=`
      repeated as many times as the title is long. */
  lemma DocumentStartsWithTitle(r: Recipe)
    requires r.title != [] && !IsWhitespace(r.title[0])
    ensures var head := r.title + "\n" + Repeat('=', |r.title|) + "\n";
      |head| <= |Document(r)| && Document(r)[..|head|] == head
  {
    DocumentHeading(r);
    TrimmedHead(DocumentLines(r), 4, 'I');
    DocumentIsLayout(r);
  }

  /** The first lines of the layout: the title, its underline, and the
      ingredients heading on line 7. */
  lemma DocumentHeading(r: Recipe)
    ensures var ls := DocumentLines(r);
      && |ls| > 6 && ls[0] == r.title && ls[1] == Repeat('=', |r.title|)
      && 'I' in ls[6]
  {
    var ls := DocumentLines(r);
    assert ls[6] == "INGREDIENTS:";
  }

  /** When the nutrition section closes the document with a non-whitespace
      character, the document is exactly its lines joined. */
  lemma DocumentWithNutrition(r: Recipe)
    requires r.title != [] && !IsWhitespace(r.title[0])
    requires r.nutrition.Some?
    requires var c := r.nutrition.value.carbs; c != [] && !IsWhitespace(c[|c| - 1])
    ensures Document(r) == Join(DocumentLines(r), "\n")
  {
    var c := r.nutrition.value.carbs;
    var last := "Carbs: " + c;
    var init := DocumentLinesBeforeCarbs(r);
    assert last[|last| - 1] == c[|c| - 1];
    JoinSnoc(init, last, "\n");
    TrimEndKeeps(Join(init, "\n") + "\n", last);
    DocumentIsLayout(r);
  }

  /** The lines before the carbs line, when there is a nutrition section. */
  function DocumentLinesBeforeCarbs(r: Recipe): (init: seq<string>)
    requires r.nutrition.Some?
    ensures init != [] && DocumentLines(r) == init + ["Carbs: " + r.nutrition.value.carbs]
  {
    var x := r.nutrition.value;
    var front := HeaderLines(r) + ListLines(Numbered(r.ingredients)) + ["", "STEPS:"]
      + ListLines(Numbered(r.steps)) + [""] + OptionalLines("CHEF'S TIPS:", r.tips)
      + OptionalLines("WINE PAIRING:", r.pairing);
    front + ["NUTRITION (per serving):", "Calories: " + x.calories, "Protein: " + x.protein,
             "Fat: " + x.fat]
  }

  lemma NoNewlineInDecimal(n: nat)
    ensures '\n' !in NatToDecimal(n)
  {
    var d := NatToDecimal(n);
    assert forall i :: 0 <= i < |d| ==> d[i] != '\n';
  }

  lemma NumberedHasNoNewline(xs: seq<string>)
    requires forall i :: 0 <= i < |xs| ==> '\n' !in xs[i]
    ensures forall i :: 0 <= i < |xs| ==> '\n' !in Numbered(xs)[i]
  {
    forall i | 0 <= i < |xs| ensures '\n' !in Numbered(xs)[i] {
      NoNewlineInDecimal(1 + i);
      assert Numbered(xs)[i] == NatToDecimal(1 + i) + ". " + xs[i];
    }
  }

  predicate NoNewline(s: string) {
    '\n' !in s
  }

  predicate NoNewlineIn(xs: seq<string>) {
    forall i :: 0 <= i < |xs| ==> NoNewline(xs[i])
  }

  /** Every text field of the recipe is a single line. */
  predicate SingleLineFields(r: Recipe) {
    && NoNewline(r.title) && NoNewline(r.cookingTime)
    && NoNewlineIn(r.ingredients) && NoNewlineIn(r.steps)
    && (r.tips.Some? ==> NoNewline(r.tips.value))
    && (r.pairing.Some? ==> NoNewline(r.pairing.value))
    && (r.nutrition.Some? ==>
          var x := r.nutrition.value;
          NoNewline(x.calories) && NoNewline(x.protein) && NoNewline(x.fat) && NoNewline(x.carbs))
  }

  lemma NoNewlineInAppend(a: seq<string>, b: seq<string>)
    requires NoNewlineIn(a) && NoNewlineIn(b)
    ensures NoNewlineIn(a + b)
  {
    assert forall i :: 0 <= i < |a + b| ==> (a + b)[i] == if i < |a| then a[i] else b[i - |a|];
  }

  lemma NumberedListSingleLine(xs: seq<string>)
    requires NoNewlineIn(xs)
    ensures NoNewlineIn(ListLines(Numbered(xs)))
  {
    NumberedHasNoNewline(xs);
  }

  lemma OptionalSingleLine(heading: string, v: Option<string>)
    requires NoNewline(heading) && (v.Some? ==> NoNewline(v.value))
    ensures NoNewlineIn(OptionalLines(heading, v))
  {
  }

  lemma HeaderSingleLine(r: Recipe)
    requires SingleLineFields(r)
    ensures NoNewlineIn(HeaderLines(r))
  {
    NoNewlineInDecimal(if r.servings < 0 then -r.servings else r.servings);
    assert NoNewline(Repeat('=', |r.title|));
    assert NoNewline("Servings: " + IntToDecimal(r.servings));
    assert NoNewline("Cooking Time: " + r.cookingTime);
  }

  lemma PiecesSingleLine(h: seq<string>, i: seq<string>, mid: seq<string>, s: seq<string>,
                         t: seq<string>, p: seq<string>, n: seq<string>)
    requires NoNewlineIn(h) && NoNewlineIn(i) && NoNewlineIn(mid) && NoNewlineIn(s)
    requires NoNewlineIn(t) && NoNewlineIn(p) && NoNewlineIn(n)
    ensures NoNewlineIn(h + i + mid + s + [""] + t + p + n)
  {
    assert NoNewlineIn([""]);
    NoNewlineInAppend(h, i);
    NoNewlineInAppend(h + i, mid);
    NoNewlineInAppend(h + i + mid, s);
    NoNewlineInAppend(h + i + mid + s, [""]);
    NoNewlineInAppend(h + i + mid + s + [""], t);
    NoNewlineInAppend(h + i + mid + s + [""] + t, p);
    NoNewlineInAppend(h + i + mid + s + [""] + t + p, n);
  }

  lemma NutritionSingleLine(n: Option<Nutrition>)
    requires n.Some? ==>
      NoNewline(n.value.calories) && NoNewline(n.value.protein)
      && NoNewline(n.value.fat) && NoNewline(n.value.carbs)
    ensures NoNewlineIn(NutritionLines(n))
  {
  }

  /** With single-line fields, every line of the layout is a single line. */
  lemma DocumentLinesSingle(r: Recipe)
    requires SingleLineFields(r)
    ensures NoNewlineIn(DocumentLines(r))
  {
    HeaderSingleLine(r);
    NumberedListSingleLine(r.ingredients);
    NumberedListSingleLine(r.steps);
    OptionalSingleLine("CHEF'S TIPS:", r.tips);
    OptionalSingleLine("WINE PAIRING:", r.pairing);
    NutritionSingleLine(r.nutrition);
    assert NoNewlineIn(["", "STEPS:"]);
    PiecesSingleLine(HeaderLines(r), ListLines(Numbered(r.ingredients)), ["", "STEPS:"],
                     ListLines(Numbered(r.steps)), OptionalLines("CHEF'S TIPS:", r.tips),
                     OptionalLines("WINE PAIRING:", r.pairing), NutritionLines(r.nutrition));
  }

  /** With single-line fields, splitting the document at line breaks gives
      back exactly its lines: ingredient k on line 8 + k as `"k. "` followed
      by the ingredient, and so on. */
  lemma DocumentLinesRecovered(r: Recipe)
    requires r.title != [] && !IsWhitespace(r.title[0])
    requires SingleLineFields(r)
    requires r.nutrition.Some?
    requires var c := r.nutrition.value.carbs; c != [] && !IsWhitespace(c[|c| - 1])
    ensures SplitLines(Document(r)) == DocumentLines(r)
  {
    DocumentWithNutrition(r);
    DocumentLinesSingle(r);
    SplitJoin(DocumentLines(r));
  }

  /** Line `8 + k` of the layout is ingredient `k` (from 0) numbered `k + 1`. */
  lemma IngredientLine(r: Recipe, k: nat)
    requires k < |r.ingredients|
    ensures DocumentLines(r)[7 + k] == NatToDecimal(k + 1) + ". " + r.ingredients[k]
  {
  }

  /** The steps follow the ingredients and a blank line and the `STEPS:`
      heading, numbered from 1 in their order. */
  lemma StepLine(r: Recipe, k: nat)
    requires k < |r.steps|
    ensures var at := 7 + |ListLines(Numbered(r.ingredients))| + 2;
      DocumentLines(r)[at - 1] == "STEPS:"
      && DocumentLines(r)[at + k] == NatToDecimal(k + 1) + ". " + r.steps[k]
  {
  }

  /** An empty tips or pairing string is treated as absent. */
  lemma EmptyOptionalsOmitted(r: Recipe)
    ensures Document(r.(tips := Some(""))) == Document(r.(tips := None))
    ensures Document(r.(pairing := Some(""))) == Document(r.(pairing := None))
  {
  }

  // ---------------------------------------------------------------------------
  // File name
  // ---------------------------------------------------------------------------

  predicate IsAsciiAlphanumeric(c: char) {
    ('a' <= c <= 'z') || ('A' <= c <= 'Z') || ('0' <= c <= '9')
  }

  /** `s.replace(/[^a-z0-9]/gi, "_")`: every character that is not an ASCII
      letter (of either case) or digit becomes `_`. */
  function ReplaceNonAlphanumeric(s: string): (r: string)
    ensures |r| == |s|
    ensures forall i :: 0 <= i < |s| ==> r[i] == if IsAsciiAlphanumeric(s[i]) then s[i] else '_'
  {
    if s == [] then []
    else [if IsAsciiAlphanumeric(s[0]) then s[0] else '_'] + ReplaceNonAlphanumeric(s[1..])
  }

  function LowerAscii(c: char): char {
    if 'A' <= c <= 'Z' then (c as int - 'A' as int + 'a' as int) as char else c
  }

  /** `toLowerCase` on a string of ASCII characters. */
  function LowerCase(s: string): (r: string)
    ensures |r| == |s|
    ensures forall i :: 0 <= i < |s| ==> r[i] == LowerAscii(s[i])
  {
    if s == [] then [] else [LowerAscii(s[0])] + LowerCase(s[1..])
  }

  predicate IsFileNameChar(c: char) {
    ('a' <= c <= 'z') || ('0' <= c <= '9') || c == '_'
  }

  /** The name of the downloaded file: the title with every character outside
      the ASCII letters and digits replaced by `_`, lower-cased, and `.txt`
      appended. */
  function FileName(title: string): (name: string)
    ensures |name| == |title| + 4
    ensures name[|title|..] == ".txt"
    ensures forall i :: 0 <= i < |title| ==>
      && IsFileNameChar(name[i])
      && name[i] == if IsAsciiAlphanumeric(title[i]) then LowerAscii(title[i]) else '_'
  {
    LowerCase(ReplaceNonAlphanumeric(title)) + ".txt"
  }

  // ---------------------------------------------------------------------------
  // Clipboard text
  // ---------------------------------------------------------------------------

  /** The first six lines of the clipboard text: title, blank, cooking time,
      servings, blank, the ingredients heading. */
  function ClipboardHeader(r: Recipe): seq<string> {
    [r.title, "", "Cooking Time: " + r.cookingTime, "Servings: " + IntToDecimal(r.servings),
     "", "Ingredients:"]
  }

  /** The text copied to the clipboard, written line by line: the header, the
      ingredients joined with line breaks, a blank line, `Steps:` and the
      steps joined with line breaks. No numbering, no optional sections and
      no trimming. */
  function ClipboardText(r: Recipe): (t: string)
    ensures |r.title| <= |t| && t[..|r.title|] == r.title
    ensures var steps := Join(r.steps, "\n"); |steps| <= |t| && t[|t| - |steps|..] == steps
  {
    var ls := ClipboardHeader(r) + [Join(r.ingredients, "\n")] + ["", "Steps:"] + [Join(r.steps, "\n")];
    assert ls[0] == r.title && ls[|ls| - 1] == Join(r.steps, "\n");
    JoinEndsWithLast(ls, "\n");
    Join(ls, "\n")
  }

  /** The lines of the clipboard text once the lists are spread out, one
      entry per line. */
  function ClipboardLines(r: Recipe): seq<string> {
    ClipboardHeader(r) + ListLines(r.ingredients) + ["", "Steps:"] + ListLines(r.steps)
  }

  lemma ClipboardLayout(r: Recipe)
    ensures ClipboardText(r) == Join(ClipboardLines(r), "\n")
  {
    var h := ClipboardHeader(r);
    var i := ListLines(r.ingredients);
    var s := ListLines(r.steps);
    var mid := ["", "Steps:"];
    TemplateFrontLayout(h, i, mid, s, [], "\n");
    assert h + [Join(i, "\n")] + mid + [Join(s, "\n")] + [] == h + [Join(i, "\n")] + mid + [Join(s, "\n")];
    assert h + i + mid + s + [] == h + i + mid + s;
  }

  /** Where the two lists sit in the spread-out lines. */
  lemma ListsAt(h: seq<string>, i: seq<string>, mid: seq<string>, s: seq<string>)
    ensures var ls := h + i + mid + s;
      && |ls| == |h| + |i| + |mid| + |s|
      && ls[|h|..|h| + |i|] == i
      && ls[|h| + |i| + |mid|..] == s
  {
  }

  lemma ClipboardHeaderSingleLine(r: Recipe)
    requires SingleLineFields(r)
    ensures NoNewlineIn(ClipboardHeader(r))
  {
    NoNewlineInDecimal(if r.servings < 0 then -r.servings else r.servings);
    assert NoNewline("Servings: " + IntToDecimal(r.servings));
    assert NoNewline("Cooking Time: " + r.cookingTime);
  }

  /** With single-line fields, the ingredients are lines 7 .. 6 + n of the
      clipboard text, verbatim and in order, and the steps are its last
      lines. */
  lemma ClipboardListsRecovered(r: Recipe)
    requires SingleLineFields(r)
    requires r.ingredients != [] && r.steps != []
    ensures var ls := SplitLines(ClipboardText(r)); var n := |r.ingredients|;
      && |ls| == 8 + n + |r.steps|
      && ls[6..6 + n] == r.ingredients
      && ls[8 + n..] == r.steps
  {
    ClipboardLayout(r);
    var h := ClipboardHeader(r);
    var mid := ["", "Steps:"];
    ClipboardHeaderSingleLine(r);
    assert NoNewlineIn(mid);
    NoNewlineInAppend(h, r.ingredients);
    NoNewlineInAppend(h + r.ingredients, mid);
    NoNewlineInAppend(h + r.ingredients + mid, r.steps);
    var ls := ClipboardLines(r);
    assert ls == h + r.ingredients + mid + r.steps;
    SplitJoin(ls);
    ListsAt(h, r.ingredients, mid, r.steps);
  }
}
