/** The TypeScript recipe generator: it builds an English prompt from a
    generation request, sends it to the model once, strips markdown code
    fences from the answer, parses it as JSON and fills every missing or
    falsy field with a default. */
module Gemini {
  import opened Wrappers
  import opened Text
  import opened Json
  import opened RecipeTypes
  import opened ModelOracle

  // ---------------------------------------------------------------------
  // The prompt

  const Intro := "Please generate a detailed recipe in JSON format with the following structure:\n"

  const Shape :=
    "{\n" +
    "    \"title\": \"Recipe name\",\n" +
    "    \"description\": \"Brief description\",\n" +
    "    \"ingredients\": [\"ingredient 1\", \"ingredient 2\", ...],\n" +
    "    \"instructions\": [\"step 1\", \"step 2\", ...],\n" +
    "    \"cookingTime\": number (in minutes),\n" +
    "    \"difficulty\": \"easy\" | \"medium\" | \"hard\",\n" +
    "    \"category\": \"main\" | \"side\" | \"dessert\" | \"appetizer\" | \"beverage\",\n" +
    "    \"tags\": [\"tag1\", \"tag2\", ...]\n" +
    "  }\n\n"

  const RequirementsTitle := "Recipe requirements:\n"

  /** Everything before the requirement lines. */
  const Header := Intro + Shape + RequirementsTitle

  const Footer := "\nPlease provide only the JSON response without any additional text or markdown formatting."

  /** The five things a request may ask for, one prompt line each. */
  datatype Requirement = Ingredients | Cuisine | DifficultyLevel | CookingTime | Dietary

  /** The order in which the requirement lines are written. */
  const Order: seq<Requirement> := [Ingredients, Cuisine, DifficultyLevel, CookingTime, Dietary]

  /** A requirement gets a line when its field is truthy: a non-empty list,
      a non-empty cuisine, any difficulty, a non-zero cooking time. */
  predicate Present(request: RecipeGenerationRequest, k: Requirement) {
    match k
    case Ingredients => request.ingredients.Some? && |request.ingredients.value| > 0
    case Cuisine => request.cuisine.Some? && request.cuisine.value != ""
    case DifficultyLevel => request.difficulty.Some?
    case CookingTime => request.cookingTime.Some? && request.cookingTime.value != 0
    case Dietary => request.dietary.Some? && |request.dietary.value| > 0
  }

  /** The line a present requirement adds; lists are joined with ", ". */
  function Line(request: RecipeGenerationRequest, k: Requirement): string
    requires Present(request, k)
  {
    match k
    case Ingredients => "- Must include these ingredients: " + Join(request.ingredients.value, ", ") + "\n"
    case Cuisine => "- Cuisine style: " + request.cuisine.value + "\n"
    case DifficultyLevel => "- Difficulty level: " + DifficultyName(request.difficulty.value) + "\n"
    case CookingTime => "- Cooking time should be around " + IntToString(request.cookingTime.value) + " minutes\n"
    case Dietary => "- Dietary restrictions: " + Join(request.dietary.value, ", ") + "\n"
  }

  /** The line of a requirement, or nothing when it is absent. */
  function LineIfPresent(request: RecipeGenerationRequest, k: Requirement): string {
    if Present(request, k) then Line(request, k) else ""
  }

  /** The contribution of each requirement, in the fixed order. */
  function Lines(request: RecipeGenerationRequest): seq<string> {
    [LineIfPresent(request, Ingredients), LineIfPresent(request, Cuisine),
     LineIfPresent(request, DifficultyLevel), LineIfPresent(request, CookingTime),
     LineIfPresent(request, Dietary)]
  }

  /** The `i`-th contribution is that of the `i`-th requirement in the order. */
  lemma LinesFollowOrder(request: RecipeGenerationRequest, i: nat)
    requires i < |Order|
    ensures |Lines(request)| == |Order| && Lines(request)[i] == LineIfPresent(request, Order[i])
  {
  }

  /** The requirement lines, in the fixed order. */
  function RequirementSection(request: RecipeGenerationRequest): string {
    Concat(Lines(request))
  }

  /** The whole prompt for a request. */
  function Prompt(request: RecipeGenerationRequest): string {
    Header + RequirementSection(request) + Footer
  }

  /** Five pieces appended one at a time to a start. */
  lemma AppendFive(start: string, a: string, b: string, c: string, d: string, e: string)
    ensures start + Concat([a, b, c, d, e]) == start + a + b + c + d + e
  {
    assert [a, b, c, d, e][..4] == [a, b, c, d];
    assert [a, b, c, d][..3] == [a, b, c];
    assert [a, b, c][..2] == [a, b];
    assert [a, b][..1] == [a];
    assert [a][..0] == [];
    assert "" + a == a;
    assert Concat([a]) == a;
    assert Concat([a, b]) == a + b;
    assert Concat([a, b, c]) == (a + b) + c;
    assert Concat([a, b, c, d]) == ((a + b) + c) + d;
    assert Concat([a, b, c, d, e]) == (((a + b) + c) + d) + e;
    AppendAssoc(start, (((a + b) + c) + d), e);
    AppendAssoc(start, ((a + b) + c), d);
    AppendAssoc(start, (a + b), c);
    AppendAssoc(start, a, b);
  }

  /** One `if (...) prompt += ...` step: the requirement's line is appended
      exactly when the request field is present. */
  method AppendIfPresent(prompt: string, request: RecipeGenerationRequest, k: Requirement) returns (p: string)
    ensures p == prompt + LineIfPresent(request, k)
  {
    p := prompt;
    if Present(request, k) {
      p := p + Line(request, k);
    } else {
      AppendEmpty(prompt);
    }
  }

  /** The five conditional `prompt +=` steps, in the fixed order. */
  method AppendRequirementLines(start: string, request: RecipeGenerationRequest) returns (prompt: string)
    ensures prompt == start + RequirementSection(request)
  {
    prompt := AppendIfPresent(start, request, Ingredients);
    prompt := AppendIfPresent(prompt, request, Cuisine);
    prompt := AppendIfPresent(prompt, request, DifficultyLevel);
    prompt := AppendIfPresent(prompt, request, CookingTime);
    prompt := AppendIfPresent(prompt, request, Dietary);
    AppendFive(start, LineIfPresent(request, Ingredients), LineIfPresent(request, Cuisine),
      LineIfPresent(request, DifficultyLevel), LineIfPresent(request, CookingTime),
      LineIfPresent(request, Dietary));
  }

  /** The prompt as the generator accumulates it, one `+=` at a time. */
  method BuildPrompt(request: RecipeGenerationRequest) returns (prompt: string)
    ensures prompt == Prompt(request)
  {
    prompt := Intro;
    prompt := prompt + Shape;
    prompt := prompt + RequirementsTitle;
    prompt := AppendRequirementLines(prompt, request);
    prompt := prompt + Footer;
  }

  /** The prompt always opens with the fixed header and closes with the
      fixed footer. */
  lemma PromptFraming(request: RecipeGenerationRequest)
    ensures HasPrefix(Prompt(request), Header)
    ensures |Footer| <= |Prompt(request)|
    ensures Prompt(request)[|Prompt(request)| - |Footer|..] == Footer
  {
    var p := Prompt(request);
    assert p[..|Header|] == Header;
    assert p[|p| - |Footer|..] == Footer;
  }

  /** Concatenating nothing but empty pieces gives the empty string. */
  lemma {:induction false} ConcatOfEmpties(xs: seq<string>)
    requires forall i :: 0 <= i < |xs| ==> xs[i] == ""
    ensures Concat(xs) == ""
  {
    if xs != [] {
      ConcatOfEmpties(xs[..|xs| - 1]);
    }
  }

  /** A request asking for nothing gets only the header and the footer. */
  lemma EmptyRequestPrompt()
    ensures Prompt(EmptyGenerationRequest) == Header + Footer
  {
    ConcatOfEmpties(Lines(EmptyGenerationRequest));
  }

  /** An empty cuisine and a zero cooking time add no line: the prompt is the
      one for a request without them. */
  lemma FalsyScalarsAddNoLine(request: RecipeGenerationRequest)
    ensures Prompt(request.(cuisine := Some(""), cookingTime := Some(0)))
         == Prompt(request.(cuisine := None, cookingTime := None))
  {
    var a := request.(cuisine := Some(""), cookingTime := Some(0));
    var b := request.(cuisine := None, cookingTime := None);
    assert Lines(a) == Lines(b);
  }

  /** Between the header and the footer, the lines of two present
      requirements come in the fixed order ingredients, cuisine, difficulty,
      cooking time, dietary. */
  lemma PromptLinesInOrder(request: RecipeGenerationRequest, i: nat, j: nat)
    returns (before: string, between: string, after: string)
    requires i < j < |Order| && Present(request, Order[i]) && Present(request, Order[j])
    ensures RequirementSection(request) == before + Line(request, Order[i]) + between + Line(request, Order[j]) + after
  {
    LinesFollowOrder(request, i);
    LinesFollowOrder(request, j);
    before, between, after := ConcatOrder(Lines(request), i, j);
  }

  /** Every present requirement's line occurs in the prompt. */
  lemma PresentLineInPrompt(request: RecipeGenerationRequest, j: nat)
    requires j < |Order| && Present(request, Order[j])
    ensures Contains(Prompt(request), Line(request, Order[j]))
  {
    var line := Line(request, Order[j]);
    var section := RequirementSection(request);
    LinesFollowOrder(request, j);
    var before, after := ConcatSplit(Lines(request), j);
    assert section[|before|..|before| + |line|] == line;
    ContainsAt(section, line, |before|);
    var p := Prompt(request);
    assert p[|Header|..|Header| + |section|] == section;
    ContainsAt(p, section, |Header|);
    ContainsTransitive(p, section, line);
  }

  // ---------------------------------------------------------------------
  // Fence cleaning

  /** `text.replace(/```json\n?|\n?```/g, '')`: scanning left to right, each
      "```json" (with one following newline when there is one) and each "```"
      (with one preceding newline when there is one) is removed. At any
      position the first alternative is tried first. */
  function StripFences(s: string): (r: string)
    ensures |r| <= |s|
    ensures (forall k :: 0 <= k < |s| ==> s[k] != '`') ==> r == s
    decreases |s|
  {
    if s == [] then ""
    else if HasPrefix(s, "```json") then
      assert s[0] == s[..7][0] == '`';
      if |s| > 7 && s[7] == '\n' then StripFences(s[8..]) else StripFences(s[7..])
    else if HasPrefix(s, "\n```") then
      assert s[1] == s[..4][1] == '`';
      StripFences(s[4..])
    else if HasPrefix(s, "```") then StripFences(s[3..])
    else [s[0]] + StripFences(s[1..])
  }

  /** The cleaned text handed to `JSON.parse`. */
  function Clean(text: string): (r: string)
    ensures IsTrimmed(r)
  {
    Trim(StripFences(text))
  }

  /** Where neither of the first two characters is a backtick, the scanner
      copies the first one. */
  lemma StripFencesCopies(s: string)
    requires s != [] && s[0] != '`' && (|s| == 1 || s[1] != '`')
    ensures StripFences(s) == [s[0]] + StripFences(s[1..])
  {
    assert !HasPrefix(s, "```json") by {
      if |s| >= 7 { assert s[..7][0] == s[0]; }
    }
    assert !HasPrefix(s, "```") by {
      if |s| >= 3 { assert s[..3][0] == s[0]; }
    }
    assert !HasPrefix(s, "\n```") by {
      if |s| >= 4 { assert s[..4][1] == s[1]; }
    }
  }

  /** An opening fence with its newline is dropped. */
  lemma StripFencesOpening(s: string)
    requires |s| >= 8 && s[..8] == "```json\n"
    ensures StripFences(s) == StripFences(s[8..])
  {
    assert s[..8][..7] == s[..7];
    assert HasPrefix(s, "```json") && s[7] == s[..8][7];
  }

  /** A closing fence with its newline is dropped. */
  lemma StripFencesClosing(s: string)
    requires |s| >= 4 && s[..4] == "\n```"
    ensures StripFences(s) == StripFences(s[4..])
  {
    assert !HasPrefix(s, "```json") by {
      assert s[..4][0] == s[0];
      if |s| >= 7 { assert s[..7][0] == s[0]; }
    }
    assert HasPrefix(s, "\n```");
  }

  /** Three backticks that do not open a ```json tag are the fourth
      alternative: the backticks go and the scan goes on right after them. */
  lemma StripFencesBare(s: string)
    requires |s| >= 3 && s[..3] == "```" && !HasPrefix(s, "```json")
    ensures StripFences(s) == StripFences(s[3..])
  {
    assert !HasPrefix(s, "\n```") by {
      assert s[..3][0] == s[0];
      if |s| >= 4 { assert s[..4][0] == s[0]; }
    }
    assert HasPrefix(s, "```");
  }

  /** A ```json tag that no newline follows loses only the seven
      characters of the tag. */
  lemma StripFencesTagOnly(s: string)
    requires |s| >= 7 && s[..7] == "```json" && (|s| == 7 || s[7] != '\n')
    ensures StripFences(s) == StripFences(s[7..])
  {
    assert HasPrefix(s, "```json");
  }

  /** Backtick-free text in front of a newline (or of nothing) passes the
      fence scanner unchanged. */
  lemma {:induction false} StripFencesKeepsPlainText(body: string, t: string)
    requires '`' !in body
    requires t == [] || t[0] == '\n'
    ensures StripFences(body + t) == body + StripFences(t)
  {
    if body != [] {
      var s := body + t;
      assert s[0] == body[0] && body[0] in body;
      assert |s| == 1 || s[1] != '`' by {
        if |body| > 1 {
          assert s[1] == body[1] && body[1] in body;
        } else if t != [] {
          assert s[1] == t[0];
        }
      }
      StripFencesCopies(s);
      assert s[1..] == body[1..] + t;
      StripFencesKeepsPlainText(body[1..], t);
      var rest := StripFences(t);
      assert [body[0]] + (body[1..] + rest) == body + rest by {
        assert [body[0]] + body[1..] == body;
        AppendAssoc([body[0]], body[1..], rest);
      }
    } else {
      assert body + t == t;
    }
  }

  /** Text without backticks is only trimmed. */
  lemma BacktickFreeOnlyTrimmed(text: string)
    requires '`' !in text
    ensures Clean(text) == Trim(text)
  {
    StripFencesKeepsPlainText(text, "");
    assert text + "" == text;
  }

  /** A body wrapped in a ```json fence comes back unwrapped and trimmed. */
  lemma FencedBodyUnwrapped(body: string)
    requires '`' !in body
    ensures Clean("```json\n" + body + "\n```") == Trim(body)
  {
    var s := "```json\n" + body + "\n```";
    assert s[..8] == "```json\n";
    StripFencesOpening(s);
    assert s[8..] == body + "\n```";
    StripFencesKeepsPlainText(body, "\n```");
    StripFencesClosing("\n```");
    assert "\n```"[4..] == "";
    assert body + "" == body;
  }

  /** A body wrapped in an untagged ``` fence comes back unwrapped and
      trimmed: the newline after the opening fence stays, and trimming
      removes it. */
  lemma BareFencedBodyUnwrapped(body: string)
    requires '`' !in body
    ensures Clean("```\n" + body + "\n```") == Trim(body)
  {
    var s := "```\n" + body + "\n```";
    assert s[..3] == "```";
    assert !HasPrefix(s, "```json") by {
      assert s[3] == '\n';
      if |s| >= 7 { assert s[..7][3] == s[3]; }
    }
    StripFencesBare(s);
    var inner := "\n" + body;
    assert s[3..] == inner + "\n```";
    assert '`' !in inner by {
      assert forall k :: 1 <= k < |inner| ==> inner[k] == body[k - 1];
    }
    StripFencesKeepsPlainText(inner, "\n```");
    StripFencesClosing("\n```");
    assert "\n```"[4..] == "";
    assert inner + "" == inner;
    assert inner == ['\n'] + body;
    TrimDropsLeadingSpace('\n', body);
  }

  /** A ```json fence that follows a newline loses the newline and the
      backticks to the second alternative, which leaves the word "json" in
      the text: "x\n```json\n1" becomes "xjson\n1". */
  lemma FenceAfterNewlineLeavesTag(before: string, after: string)
    requires '`' !in before && '`' !in after
    ensures StripFences(before + "\n```json" + after) == before + "json" + after
  {
    var fenced := "\n```json" + after;
    var tagged := "json" + after;
    assert fenced[..4] == "\n```" && fenced[4..] == tagged;
    assert '`' !in tagged;
    calc {
      StripFences(before + "\n```json" + after);
      { assert before + "\n```json" + after == before + fenced; }
      StripFences(before + fenced);
      { StripFencesKeepsPlainText(before, fenced); }
      before + StripFences(fenced);
      { StripFencesClosing(fenced); }
      before + StripFences(tagged);
      { StripFencesKeepsPlainText(tagged, ""); assert tagged + "" == tagged; }
      before + tagged;
      { AppendAssoc(before, "json", after); }
      before + "json" + after;
    }
  }

  // ---------------------------------------------------------------------
  // Normalisation

  /** The generator's result before any type check: whatever the parsed
      value held in each field, or the default. */
  datatype Generated = Generated(
    title: Json,
    description: Json,
    ingredients: Json,
    instructions: Json,
    cookingTime: Json,
    difficulty: Json,
    category: Json,
    tags: Json)

  const Keys: seq<string> :=
    ["title", "description", "ingredients", "instructions", "cookingTime", "difficulty", "category", "tags"]

  /** The field of `g` called `key`. */
  function FieldAt(g: Generated, key: string): Json {
    if key == "title" then g.title
    else if key == "description" then g.description
    else if key == "ingredients" then g.ingredients
    else if key == "instructions" then g.instructions
    else if key == "cookingTime" then g.cookingTime
    else if key == "difficulty" then g.difficulty
    else if key == "category" then g.category
    else g.tags
  }

  /** The fallback of each field. */
  const Defaults := Generated(
    JString("Generated Recipe"), JString(""), JArray([]), JArray([]),
    JNumber(30), JString("medium"), JString("main"), JArray([]))

  /** The object literal of `||` defaults over the parsed value. Reading a
      property of a parsed `null` throws, which is the only way it fails;
      any other non-object has no properties and gets every default. */
  function Normalize(data: Json): (r: Option<Generated>)
    ensures r.None? <==> data.JNull?
    ensures r.Some? ==> forall key :: key in Keys ==>
      FieldAt(r.value, key) ==
        (if Truthy(Lookup(data, key)) then Lookup(data, key).value else FieldAt(Defaults, key))
  {
    if data.JNull? then None
    else
      NormalizedFields(data);
      Some(Normalized(data))
  }

  /** The object literal itself, for a value other than `null`. */
  function Normalized(data: Json): Generated {
    Generated(
      Or(Lookup(data, "title"), JString("Generated Recipe")),
      Or(Lookup(data, "description"), JString("")),
      Or(Lookup(data, "ingredients"), JArray([])),
      Or(Lookup(data, "instructions"), JArray([])),
      Or(Lookup(data, "cookingTime"), JNumber(30)),
      Or(Lookup(data, "difficulty"), JString("medium")),
      Or(Lookup(data, "category"), JString("main")),
      Or(Lookup(data, "tags"), JArray([])))
  }

  lemma NormalizedFields(data: Json)
    ensures forall key :: key in Keys ==>
      FieldAt(Normalized(data), key) == Or(Lookup(data, key), FieldAt(Defaults, key))
  {
    var g := Normalized(data);
    assert FieldAt(g, "title") == Or(Lookup(data, "title"), FieldAt(Defaults, "title"));
    assert FieldAt(g, "description") == Or(Lookup(data, "description"), FieldAt(Defaults, "description"));
    assert FieldAt(g, "ingredients") == Or(Lookup(data, "ingredients"), FieldAt(Defaults, "ingredients"));
    assert FieldAt(g, "instructions") == Or(Lookup(data, "instructions"), FieldAt(Defaults, "instructions"));
    assert FieldAt(g, "cookingTime") == Or(Lookup(data, "cookingTime"), FieldAt(Defaults, "cookingTime"));
    assert FieldAt(g, "difficulty") == Or(Lookup(data, "difficulty"), FieldAt(Defaults, "difficulty"));
    assert FieldAt(g, "category") == Or(Lookup(data, "category"), FieldAt(Defaults, "category"));
    assert FieldAt(g, "tags") == Or(Lookup(data, "tags"), FieldAt(Defaults, "tags"));
  }

  /** The result as the JSON object the route sends back. */
  function ToJson(g: Generated): (v: Json)
    ensures v.JObject? && forall key :: key in Keys ==> Lookup(v, key) == Some(FieldAt(g, key))
  {
    JObject(map[
      "title" := g.title, "description" := g.description,
      "ingredients" := g.ingredients, "instructions" := g.instructions,
      "cookingTime" := g.cookingTime, "difficulty" := g.difficulty,
      "category" := g.category, "tags" := g.tags])
  }

  /** `v || fallback` is truthy whenever the fallback is. */
  lemma OrTruthy(v: Option<Json>, fallback: Json)
    requires Truthy(Some(fallback))
    ensures Truthy(Some(Or(v, fallback)))
  {
  }

  /** After normalisation every field but the description is truthy. */
  lemma NormalizedFieldsTruthy(data: Json)
    requires !data.JNull?
    ensures forall key :: key in Keys && key != "description" ==>
      Truthy(Some(FieldAt(Normalize(data).value, key)))
  {
    forall key | key in Keys && key != "description"
      ensures Truthy(Some(FieldAt(Normalize(data).value, key)))
    {
      OrTruthy(Lookup(data, key), FieldAt(Defaults, key));
    }
  }

  /** Normalising a normalised result changes nothing. */
  lemma NormalizeIdempotent(data: Json)
    requires !data.JNull?
    ensures Normalize(ToJson(Normalize(data).value)) == Normalize(data)
  {
    var g := Normalize(data).value;
    assert g == Normalized(data);
    OrTruthy(Lookup(data, "title"), JString("Generated Recipe"));
    OrTruthy(Lookup(data, "ingredients"), JArray([]));
    OrTruthy(Lookup(data, "instructions"), JArray([]));
    OrTruthy(Lookup(data, "cookingTime"), JNumber(30));
    OrTruthy(Lookup(data, "difficulty"), JString("medium"));
    OrTruthy(Lookup(data, "category"), JString("main"));
    OrTruthy(Lookup(data, "tags"), JArray([]));
    NormalizeKeepsSettled(g);
  }

  /** The declared response type read off a result, when every field has
      the declared shape and both enums hold one of their literals. */
  function AsResponse(g: Generated): (r: Option<RecipeGenerationResponse>)
    ensures r.Some? ==> g.title == JString(r.value.title) && g.cookingTime == JNumber(r.value.cookingTime)
    ensures r.Some? ==> g.difficulty == JString(DifficultyName(r.value.difficulty))
    ensures r.Some? ==> g.category == JString(CategoryName(r.value.category))
  {
    if g.title.JString? && g.description.JString?
       && IsStringArray(g.ingredients) && IsStringArray(g.instructions)
       && g.cookingTime.JNumber? && g.difficulty.JString? && g.category.JString?
       && IsStringArray(g.tags)
       && ParseDifficulty(g.difficulty.s).Some? && ParseCategory(g.category.s).Some?
    then Some(RecipeGenerationResponse(
      g.title.s, g.description.s, Strings(g.ingredients), Strings(g.instructions),
      g.cookingTime.n, ParseDifficulty(g.difficulty.s).value, ParseCategory(g.category.s).value,
      Strings(g.tags)))
    else None
  }

  /** A response of the declared type, field by field. */
  function ResponseFields(resp: RecipeGenerationResponse): Generated {
    Generated(
      JString(resp.title), JString(resp.description),
      StringArray(resp.ingredients), StringArray(resp.instructions),
      JNumber(resp.cookingTime), JString(DifficultyName(resp.difficulty)),
      JString(CategoryName(resp.category)), StringArray(resp.tags))
  }

  lemma StringsOfStringArray(xs: seq<string>)
    ensures Strings(StringArray(xs)) == xs
  {
  }

  /** Reading the declared type off a well-typed response gives it back. */
  lemma ResponseFieldsRoundTrip(resp: RecipeGenerationResponse)
    ensures AsResponse(ResponseFields(resp)) == Some(resp)
  {
    DifficultyRoundTrip(resp.difficulty);
    CategoryRoundTrip(resp.category);
    StringsOfStringArray(resp.ingredients);
    StringsOfStringArray(resp.instructions);
    StringsOfStringArray(resp.tags);
  }

  /** A well-typed answer with a non-empty title and a non-zero cooking time
      comes through normalisation unchanged. */
  lemma WellTypedAnswerPassesThrough(resp: RecipeGenerationResponse)
    requires resp.title != "" && resp.cookingTime != 0
    ensures Normalize(ToJson(ResponseFields(resp))) == Some(ResponseFields(resp))
    ensures AsResponse(Normalize(ToJson(ResponseFields(resp))).value) == Some(resp)
  {
    var g := ResponseFields(resp);
    NormalizeKeepsSettled(g);
    ResponseFieldsRoundTrip(resp);
  }

  /** A result whose every field is truthy, or already its default, is
      normalised to itself. */
  lemma NormalizeKeepsSettled(g: Generated)
    requires Truthy(Some(g.title)) && (Truthy(Some(g.description)) || g.description == Defaults.description)
    requires Truthy(Some(g.ingredients)) && Truthy(Some(g.instructions)) && Truthy(Some(g.cookingTime))
    requires Truthy(Some(g.difficulty)) && Truthy(Some(g.category)) && Truthy(Some(g.tags))
    ensures Normalize(ToJson(g)) == Some(g)
  {
    var data := ToJson(g);
    assert Lookup(data, "title") == Some(g.title);
    assert Lookup(data, "description") == Some(g.description);
    assert Lookup(data, "ingredients") == Some(g.ingredients);
    assert Lookup(data, "instructions") == Some(g.instructions);
    assert Lookup(data, "cookingTime") == Some(g.cookingTime);
    assert Lookup(data, "difficulty") == Some(g.difficulty);
    assert Lookup(data, "category") == Some(g.category);
    assert Lookup(data, "tags") == Some(g.tags);
  }

  /** Neither enum is checked: a difficulty outside the three literals is
      passed through, and the result is not of the declared type. */
  lemma UncheckedDifficultyPassesThrough()
    ensures Normalize(JObject(map["difficulty" := JString("extreme")])).Some?
    ensures Normalize(JObject(map["difficulty" := JString("extreme")])).value.difficulty == JString("extreme")
    ensures AsResponse(Normalize(JObject(map["difficulty" := JString("extreme")])).value).None?
  {
    var data := JObject(map["difficulty" := JString("extreme")]);
    assert Lookup(data, "difficulty") == Some(JString("extreme"));
    assert Normalized(data).difficulty == JString("extreme");
    assert ParseDifficulty("extreme").None?;
  }

  /** A zero cooking time is falsy and becomes 30. */
  lemma ZeroCookingTimeBecomesDefault(data: Json)
    requires data.JObject? && Lookup(data, "cookingTime") == Some(JNumber(0))
    ensures Normalize(data).value.cookingTime == JNumber(30)
  {
  }

  // ---------------------------------------------------------------------
  // generateRecipe

  const GenerateFailure := "Failed to generate recipe"

  /** What one model reply turns into: the model's error, a text `JSON.parse`
      rejects (`parse` yields `None`) and a parsed `null` all become the one
      error; anything else is normalised. */
  function Outcome(reply: Reply, parse: string -> Option<Json>): (r: Result<Generated, string>)
    ensures r.Success? <==>
      reply.Completion? && parse(Clean(reply.text)).Some? && !parse(Clean(reply.text)).value.JNull?
    ensures r.Success? ==> Some(r.value) == Normalize(parse(Clean(reply.text)).value)
    ensures r.Failure? ==> r.error == GenerateFailure
  {
    match reply
    case Raised(_) => Failure(GenerateFailure)
    case Completion(text) =>
      match parse(Clean(text))
      case None => Failure(GenerateFailure)
      case Some(data) =>
        match Normalize(data)
        case None => Failure(GenerateFailure)
        case Some(g) => Success(g)
  }

  /** `generateRecipe`: one model call with the built prompt, then cleaning,
      parsing and normalisation. */
  method GenerateRecipe(request: RecipeGenerationRequest, model: GenerativeModel, parse: string -> Option<Json>)
    returns (r: Result<Generated, string>)
    modifies model
    ensures model.prompts == old(model.prompts) + [Prompt(request)]
    ensures r == Outcome(model.respond(Prompt(request)), parse)
  {
    var prompt := BuildPrompt(request);
    var reply := model.GenerateContent(prompt);
    match reply {
      case Raised(_) =>
        r := Failure(GenerateFailure);
      case Completion(text) =>
        var cleaned := Clean(text);
        var parsed := parse(cleaned);
        if parsed.None? {
          r := Failure(GenerateFailure);
        } else {
          var normalized := Normalize(parsed.value);
          if normalized.None? {
            r := Failure(GenerateFailure);
          } else {
            r := Success(normalized.value);
          }
        }
    }
  }
}
