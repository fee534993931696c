/** The Django views of the recipe application: the create, AI-generate and
    edit forms, the list page's search and difficulty filters, and the two
    JSON endpoints. Form and query parameters arrive as a dictionary of
    strings; the database is the in-memory table of `DjangoModels`, and the
    clock reading and the model's answers are parameters. */
module Views {
  import opened Wrappers
  import opened Text
  import opened ModelOracle
  import opened DjangoModels
  import GeminiService

  /** `request.POST` or `request.GET`, one value per key. */
  type QueryDict = map<string, string>

  /** `.get(key)`: `None` when the key is absent. */
  function Get(q: QueryDict, key: string): Option<string> {
    if key in q then Some(q[key]) else None
  }

  /** A truthy string: present and not empty. */
  predicate Truthy(v: Option<string>) {
    v.Some? && v.value != ""
  }

  const RequiredFields := "レシピ名、材料、作り方は必須項目です。"
  const CreatedNotice := "レシピが正常に作成されました。"
  const CreateFailed := "レシピの作成中にエラーが発生しました。"
  const AiNotice := "AIがレシピを生成しました！"
  const ConfigErrorPrefix := "設定エラー: "
  const GenerationFailed := "レシピの生成中にエラーが発生しました。もう一度お試しください。"
  const UpdatedNotice := "レシピが正常に更新されました。"
  const UpdateFailed := "レシピの更新中にエラーが発生しました。"
  const DataFailed := "データの取得中にエラーが発生しました"
  const NotFound := "レシピが見つかりません"

  // ---------------------------------------------------------------------
  // Python's int() of a string

  /** Decimal digits, with single underscores allowed between two digits. */
  predicate IsDigitGroups(s: string) {
    s != [] && IsDigit(s[0]) && IsDigit(s[|s| - 1]) &&
    (forall k :: 0 <= k < |s| ==> IsDigit(s[k]) || s[k] == '_') &&
    NoDoubleUnderscore(s)
  }

  /** No two underscores stand next to each other. */
  predicate NoDoubleUnderscore(s: string)
    decreases |s|
  {
    |s| < 2 || ((s[0] != '_' || s[1] != '_') && NoDoubleUnderscore(s[1..]))
  }

  lemma {:induction false} DigitsHaveNoDoubleUnderscore(digits: string)
    requires AllDigits(digits)
    ensures NoDoubleUnderscore(digits)
    decreases |digits|
  {
    if |digits| >= 2 {
      assert IsDigit(digits[0]);
      assert AllDigits(digits[1..]) by {
        forall k | 0 <= k < |digits[1..]|
          ensures IsDigit(digits[1..][k])
        {
          assert digits[1..][k] == digits[k + 1];
        }
      }
      DigitsHaveNoDoubleUnderscore(digits[1..]);
    }
  }

  /** The digits of `s` with its underscores dropped. */
  function Ungrouped(s: string): (r: string)
    requires forall k :: 0 <= k < |s| ==> IsDigit(s[k]) || s[k] == '_'
    ensures AllDigits(r) && |r| <= |s|
    ensures AllDigits(s) ==> r == s
  {
    if s == [] then []
    else
      assert forall k :: 0 <= k < |s[1..]| ==> s[1..][k] == s[k + 1];
      (if s[0] == '_' then [] else [s[0]]) + Ungrouped(s[1..])
  }

  /** The message of the `ValueError` that `int()` raises for `s`. */
  function InvalidLiteral(s: string): string {
    "invalid literal for int() with base 10: '" + s + "'"
  }

  /** An optional sign followed by digit groups, and the number it denotes. */
  function SignedValue(t: string): (r: Option<int>)
    ensures r.Some? ==> t != "" && (r.value < 0 ==> t[0] == '-')
  {
    var negative := t != [] && t[0] == '-';
    var body := if t != [] && (t[0] == '-' || t[0] == '+') then t[1..] else t;
    if IsDigitGroups(body) then
      var m := DecimalValue(Ungrouped(body));
      Some(if negative then -(m as int) else m as int)
    else
      None
  }

  /** `int(s)`: surrounding whitespace is ignored, an optional sign is
      followed by digit groups; anything else raises `ValueError`. */
  function PyInt(s: string): (r: Result<int, Exception>)
    ensures r.Failure? ==> r.error == ValueError(InvalidLiteral(s))
    ensures r.Success? ==> Trim(s) != "" && (r.value < 0 ==> Trim(s)[0] == '-')
  {
    match SignedValue(Trim(s))
    case Some(n) => Success(n)
    case None => Failure(ValueError(InvalidLiteral(s)))
  }

  /** A run of digits is a single digit group with nothing to drop. */
  lemma DigitsAreGroups(digits: string)
    requires digits != [] && AllDigits(digits)
    ensures IsDigitGroups(digits) && Ungrouped(digits) == digits
  {
    assert IsDigit(digits[0]) && IsDigit(digits[|digits| - 1]);
    DigitsHaveNoDoubleUnderscore(digits);
  }

  /** A run of digits denotes its decimal value. */
  lemma SignedValueOfDigits(digits: string)
    requires digits != [] && AllDigits(digits)
    ensures SignedValue(digits) == Some(DecimalValue(digits) as int)
  {
    DigitsAreGroups(digits);
    assert digits[0] != '-' && digits[0] != '+';
  }

  /** A minus sign before a run of digits negates its decimal value. */
  lemma SignedValueOfNegated(digits: string)
    requires digits != [] && AllDigits(digits)
    ensures SignedValue("-" + digits) == Some(-(DecimalValue(digits) as int))
  {
    var t := "-" + digits;
    assert t[0] == '-' && t[1..] == digits;
    DigitsAreGroups(digits);
  }

  /** The decimal rendering of an integer denotes that integer. */
  lemma SignedValueOfIntToString(n: int)
    ensures SignedValue(IntToString(n)) == Some(n)
  {
    var m: nat := if n < 0 then -n else n;
    DecimalValueOfNatToString(m);
    if n < 0 {
      SignedValueOfNegated(NatToString(m));
    } else {
      SignedValueOfDigits(NatToString(m));
    }
  }

  /** `int` reads back every integer as Python prints it. */
  lemma PyIntOfIntToString(n: int)
    ensures PyInt(IntToString(n)) == Success(n)
  {
    var s := IntToString(n);
    var digits := NatToString(if n < 0 then -n else n);
    assert s[|s| - 1] == digits[|digits| - 1];
    TrimKeepsTrimmed(s);
    SignedValueOfIntToString(n);
  }

  /** Digit groups after an optional sign denote their decimal value,
      negated after a minus sign. */
  lemma SignedValueOfGroups(sign: string, groups: string)
    requires sign == "" || sign == "+" || sign == "-"
    requires IsDigitGroups(groups)
    ensures SignedValue(sign + groups) ==
      Some(if sign == "-" then -(DecimalValue(Ungrouped(groups)) as int) else DecimalValue(Ungrouped(groups)) as int)
  {
    var t := sign + groups;
    if sign == "" {
      assert t == groups && t[0] != '-' && t[0] != '+';
    } else {
      assert t[0] == sign[0] && t[1..] == groups;
    }
  }

  /** Digit groups after an optional sign start and end with no whitespace. */
  lemma SignedGroupsTrimmed(sign: string, groups: string)
    requires sign == "" || sign == "+" || sign == "-"
    requires IsDigitGroups(groups)
    ensures sign + groups != [] && IsTrimmed(sign + groups)
  {
    var t := sign + groups;
    assert t[|t| - 1] == groups[|groups| - 1];
    assert t[0] == if sign == "" then groups[0] else sign[0];
  }

  /** `int` reads digit groups with an optional sign and whitespace around
      them as their decimal value, negated after a minus sign. */
  lemma PyIntOfPadded(left: string, sign: string, groups: string, right: string)
    requires forall k :: 0 <= k < |left| ==> IsSpace(left[k])
    requires forall k :: 0 <= k < |right| ==> IsSpace(right[k])
    requires sign == "" || sign == "+" || sign == "-"
    requires IsDigitGroups(groups)
    ensures PyInt(left + sign + groups + right) ==
      Success(if sign == "-" then -(DecimalValue(Ungrouped(groups)) as int) else DecimalValue(Ungrouped(groups)) as int)
  {
    var t := sign + groups;
    var s := left + sign + groups + right;
    assert s == left + t + right;
    SignedGroupsTrimmed(sign, groups);
    TrimOfPadded(left, t, right);
    SignedValueOfGroups(sign, groups);
    assert SignedValue(Trim(s)) == SignedValue(t);
  }

  /** A character that is neither whitespace, a digit, an underscore nor a
      sign makes `int` raise, wherever it stands. */
  lemma NonNumericRaises(s: string, k: nat)
    requires k < |s| && !IsSpace(s[k]) && !IsDigit(s[k]) && s[k] != '_' && s[k] != '+' && s[k] != '-'
    ensures PyInt(s) == Failure(ValueError(InvalidLiteral(s)))
  {
    var a := TrimmedWithin(s, k);
    var t := Trim(s);
    assert t[k - a] == s[k];
    if k - a > 0 && t[0] in "+-" {
      assert t[1..][k - a - 1] == s[k];
    }
  }

  /** A character of `s` that is not whitespace lies inside `Trim(s)`, at
      offset `a` less. */
  lemma TrimmedWithin(s: string, k: nat) returns (a: nat)
    requires k < |s| && !IsSpace(s[k])
    ensures a <= k && k - a < |Trim(s)| && Trim(s)[k - a] == s[k]
  {
    var u := TrimRight(s);
    assert k < |u| && u[k] == s[k];
    var t := TrimLeft(u);
    a := |u| - |t|;
    assert t == u[a..];
    assert k >= a;
    assert t[k - a] == u[k];
  }

  /** `int(v) if v else None`. */
  function OptionalInt(v: Option<string>): (r: Result<Option<int>, Exception>)
    ensures !Truthy(v) ==> r == Success(None)
    ensures Truthy(v) ==> (r.Success? <==> PyInt(v.value).Success?)
    ensures Truthy(v) && r.Success? ==> r.value == Some(PyInt(v.value).value)
    ensures r.Failure? ==> r.error == ValueError(InvalidLiteral(v.value))
  {
    if !Truthy(v) then Success(None)
    else
      match PyInt(v.value)
      case Success(n) => Success(Some(n))
      case Failure(e) => Failure(e)
  }

  // ---------------------------------------------------------------------
  // The form views

  /** What a form view answers: a redirect to the recipe's page with a
      notice, the form shown again with an error, or the not-found page. */
  datatype PageOutcome = Redirect(pk: int, notice: string) | Page(error: string) | NotFoundPage

  /** `all([title, ingredients, instructions])` over the submitted form. */
  predicate RequiredGiven(post: QueryDict) {
    Truthy(Get(post, "title")) && Truthy(Get(post, "ingredients")) && Truthy(Get(post, "instructions"))
  }

  /** The form passes validation, both numbers convert, and the table takes
      the row: `difficulty` is NOT NULL, so it must have been submitted. */
  predicate FormAccepted(post: QueryDict) {
    RequiredGiven(post) &&
    OptionalInt(Get(post, "cooking_time")).Success? && OptionalInt(Get(post, "servings")).Success? &&
    Get(post, "difficulty").Some?
  }

  /** The row `recipe_create` stores for an accepted form. */
  function CreatedRow(post: QueryDict, pk: int, now: Timestamp): StoredRecipe
    requires FormAccepted(post)
  {
    StoredRecipe(pk, Get(post, "title").value, Get(post, "ingredients").value, Get(post, "instructions").value,
      OptionalInt(Get(post, "cooking_time")).value, OptionalInt(Get(post, "servings")).value,
      Get(post, "difficulty").value, now, now, false)
  }

  /** `recipe_create` on a POST. A form without a title, ingredients or
      instructions is refused before anything is converted; a bad number or
      a missing difficulty fails with the generic message; nothing is stored
      unless the recipe is created. */
  method RecipeCreate(post: QueryDict, db: Database, now: Timestamp) returns (outcome: PageOutcome)
    requires db.Valid()
    modifies db
    ensures db.Valid()
    ensures outcome.Redirect? <==> FormAccepted(post)
    ensures !outcome.Redirect? ==> db.rows == old(db.rows) && db.nextId == old(db.nextId)
    ensures !RequiredGiven(post) ==> outcome == Page(RequiredFields)
    ensures RequiredGiven(post) && !FormAccepted(post) ==> outcome == Page(CreateFailed)
    ensures FormAccepted(post) ==>
      outcome == Redirect(old(db.nextId), CreatedNotice) && db.nextId == old(db.nextId) + 1 &&
      db.rows == old(db.rows) + [CreatedRow(post, old(db.nextId), now)]
  {
    var title := Get(post, "title");
    var ingredients := Get(post, "ingredients");
    var instructions := Get(post, "instructions");
    var cookingTime := Get(post, "cooking_time");
    var servings := Get(post, "servings");
    var difficulty := Get(post, "difficulty");
    if !(Truthy(title) && Truthy(ingredients) && Truthy(instructions)) {
      return Page(RequiredFields);
    }
    var time := OptionalInt(cookingTime);
    if time.Failure? {
      return Page(CreateFailed);
    }
    var count := OptionalInt(servings);
    if count.Failure? {
      return Page(CreateFailed);
    }
    var recipe := new Recipe(title, ingredients, instructions, time.value, count.value, difficulty, false, now);
    var error := recipe.Save(db, now);
    if error.Some? {
      return Page(CreateFailed);
    }
    return Redirect(recipe.id.value, CreatedNotice);
  }

  /** The conditions `ai_recipe_generate` passes to the generator. */
  function AiConditions(post: QueryDict, cookingTime: Option<int>): GeminiService.Conditions {
    GeminiService.Conditions(Get(post, "ingredients"), Get(post, "cuisine_type"), Get(post, "difficulty"), cookingTime)
  }

  /** What `ai_recipe_generate` obtains: the service refuses a missing key,
      then the cooking time is converted, and only then is the model asked. */
  function AiGeneration(post: QueryDict, apiKey: Option<string>, respond: string -> Reply): (r: Result<GeminiService.ParsedRecipe, Exception>)
    ensures !Truthy(apiKey) ==> r == Failure(ValueError(GeminiService.KeyMissing))
    ensures Truthy(apiKey) && OptionalInt(Get(post, "cooking_time")).Failure? ==>
      r == Failure(ValueError(InvalidLiteral(Get(post, "cooking_time").value)))
    ensures r.Success? <==>
      Truthy(apiKey) && OptionalInt(Get(post, "cooking_time")).Success? &&
      respond(GeminiService.ServicePrompt(AiConditions(post, OptionalInt(Get(post, "cooking_time")).value))).Completion?
    ensures r.Success? ==>
      r.value == GeminiService.Parsed(respond(GeminiService.ServicePrompt(AiConditions(post, OptionalInt(Get(post, "cooking_time")).value))).text)
  {
    if !Truthy(apiKey) then Failure(ValueError(GeminiService.KeyMissing))
    else
      match OptionalInt(Get(post, "cooking_time"))
      case Failure(e) => Failure(e)
      case Success(time) => GeminiService.Generated(respond(GeminiService.ServicePrompt(AiConditions(post, time))))
  }

  /** The message shown for an exception: every `ValueError` as a
      configuration error with its own message, anything else generically. */
  function AiErrorNotice(e: Exception): string {
    if e.ValueError? then ConfigErrorPrefix + e.message else GenerationFailed
  }

  /** The row stored for a generated recipe: two servings, marked as
      generated. */
  function AiRow(data: GeminiService.ParsedRecipe, pk: int, now: Timestamp): StoredRecipe {
    StoredRecipe(pk, data.title, data.ingredients, data.instructions, data.cookingTime, Some(2),
      data.difficulty, now, now, true)
  }

  /** `ai_recipe_generate` on a POST. */
  method AiRecipeGenerate(post: QueryDict, apiKey: Option<string>, respond: string -> Reply,
                          db: Database, now: Timestamp) returns (outcome: PageOutcome)
    requires db.Valid()
    modifies db
    ensures db.Valid()
    ensures AiGeneration(post, apiKey, respond).Failure? ==>
      outcome == Page(AiErrorNotice(AiGeneration(post, apiKey, respond).error)) &&
      db.rows == old(db.rows) && db.nextId == old(db.nextId)
    ensures AiGeneration(post, apiKey, respond).Success? ==>
      outcome == Redirect(old(db.nextId), AiNotice) && db.nextId == old(db.nextId) + 1 &&
      db.rows == old(db.rows) + [AiRow(AiGeneration(post, apiKey, respond).value, old(db.nextId), now)]
  {
    var ingredients := Get(post, "ingredients");
    var cuisineType := Get(post, "cuisine_type");
    var difficulty := Get(post, "difficulty");
    var cookingTime := Get(post, "cooking_time");
    var service := GeminiService.NewService(apiKey, respond);
    if service.Failure? {
      return Page(AiErrorNotice(service.error));
    }
    var time := OptionalInt(cookingTime);
    if time.Failure? {
      return Page(AiErrorNotice(time.error));
    }
    var generated := service.value.GenerateRecipe(GeminiService.Conditions(ingredients, cuisineType, difficulty, time.value));
    if generated.Failure? {
      return Page(AiErrorNotice(generated.error));
    }
    var pk := SaveGenerated(generated.value, db, now);
    outcome := Redirect(pk, AiNotice);
  }

  /** `Recipe.objects.create` for a generated recipe: the new row takes the
      next id. */
  method SaveGenerated(data: GeminiService.ParsedRecipe, db: Database, now: Timestamp) returns (pk: int)
    requires db.Valid()
    modifies db
    ensures db.Valid()
    ensures pk == old(db.nextId) && db.nextId == old(db.nextId) + 1
    ensures db.rows == old(db.rows) + [AiRow(data, old(db.nextId), now)]
  {
    var recipe := new Recipe(Some(data.title), Some(data.ingredients), Some(data.instructions),
      data.cookingTime, Some(2), Some(data.difficulty), true, now);
    var error := recipe.Save(db, now);
    pk := recipe.id.value;
  }

  /** Without a key the page shows the configuration error naming the
      missing variable, whatever the form holds. */
  lemma MissingKeyShownAsConfigError(post: QueryDict, apiKey: Option<string>, respond: string -> Reply)
    requires !Truthy(apiKey)
    ensures AiErrorNotice(AiGeneration(post, apiKey, respond).error) == ConfigErrorPrefix + GeminiService.KeyMissing
  {
  }

  /** A cooking time that `int` refuses is also shown as a configuration
      error, and the model is never asked: the outcome is the same whatever
      it would answer. */
  lemma BadCookingTimeShownAsConfigError(post: QueryDict, apiKey: Option<string>,
                                         respond1: string -> Reply, respond2: string -> Reply)
    requires Truthy(apiKey) && Truthy(Get(post, "cooking_time"))
    requires PyInt(Get(post, "cooking_time").value).Failure?
    ensures AiGeneration(post, apiKey, respond1) == AiGeneration(post, apiKey, respond2)
    ensures AiErrorNotice(AiGeneration(post, apiKey, respond1).error) ==
      ConfigErrorPrefix + InvalidLiteral(Get(post, "cooking_time").value)
  {
  }

  /** A generated recipe always has a title, ingredients and instructions,
      and a difficulty among the choices, so storing it never fails. */
  lemma GeneratedRecipeIsComplete(post: QueryDict, apiKey: Option<string>, respond: string -> Reply, pk: int, now: Timestamp)
    requires AiGeneration(post, apiKey, respond).Success?
    ensures var row := AiRow(AiGeneration(post, apiKey, respond).value, pk, now);
      row.title != "" && row.ingredients != "" && row.instructions != "" &&
      (row.difficulty == "easy" || row.difficulty == "medium" || row.difficulty == "hard") &&
      row.servings == Some(2) && row.isAiGenerated
  {
  }

  /** The stored row after an accepted edit: the submitted fields, a fresh
      `updated_at`, and the original identity, creation time and origin. */
  function EditedRow(row: StoredRecipe, post: QueryDict, now: Timestamp): StoredRecipe
    requires FormAccepted(post)
  {
    row.(title := Get(post, "title").value, ingredients := Get(post, "ingredients").value,
      instructions := Get(post, "instructions").value,
      cookingTime := OptionalInt(Get(post, "cooking_time")).value,
      servings := OptionalInt(Get(post, "servings")).value,
      difficulty := Get(post, "difficulty").value, updatedAt := now)
  }

  /** The instance holds the stored row `row` as loaded. */
  ghost predicate HoldsRow(recipe: Recipe, row: StoredRecipe)
    reads recipe
  {
    recipe.id == Some(row.id) && recipe.title == Some(row.title) && recipe.ingredients == Some(row.ingredients) &&
    recipe.instructions == Some(row.instructions) && recipe.cookingTime == row.cookingTime &&
    recipe.servings == row.servings && recipe.difficulty == Some(row.difficulty) &&
    recipe.createdAt == row.createdAt && recipe.isAiGenerated == row.isAiGenerated
  }

  /** `recipe_edit` on a POST. The text fields and the difficulty are
      assigned to the loaded instance before validation, so the form shown
      again holds what was submitted; nothing is saved unless the whole
      edit is accepted, and an accepted edit replaces the row in place. */
  method RecipeEdit(pk: int, post: QueryDict, db: Database, now: Timestamp) returns (outcome: PageOutcome, shown: Recipe?)
    requires db.Valid()
    modifies db
    ensures db.Valid()
    ensures Find(old(db.rows), pk).None? ==> outcome == NotFoundPage && shown == null
    ensures !outcome.Redirect? ==> db.rows == old(db.rows) && db.nextId == old(db.nextId)
    ensures Find(old(db.rows), pk).Some? ==>
      shown != null && shown.id == Some(pk) &&
      shown.title == Get(post, "title") && shown.ingredients == Get(post, "ingredients") &&
      shown.instructions == Get(post, "instructions") && shown.difficulty == Get(post, "difficulty")
    ensures Find(old(db.rows), pk).Some? && !RequiredGiven(post) ==>
      outcome == Page(RequiredFields) &&
      shown.cookingTime == Find(old(db.rows), pk).value.cookingTime &&
      shown.servings == Find(old(db.rows), pk).value.servings
    ensures Find(old(db.rows), pk).Some? && RequiredGiven(post) && !FormAccepted(post) ==>
      outcome == Page(UpdateFailed)
    ensures Find(old(db.rows), pk).Some? && FormAccepted(post) ==>
      outcome == Redirect(pk, UpdatedNotice) && db.nextId == old(db.nextId) &&
      db.rows == Upsert(old(db.rows), EditedRow(Find(old(db.rows), pk).value, post, now))
  {
    var found := Find(db.rows, pk);
    if found.None? {
      return NotFoundPage, null;
    }
    var recipe := new Recipe.Loaded(found.value);
    outcome := UpdateFromForm(recipe, post, db, now, found.value);
    shown := recipe;
  }

  /** The part of `recipe_edit` after the recipe is loaded. */
  method UpdateFromForm(recipe: Recipe, post: QueryDict, db: Database, now: Timestamp, ghost row: StoredRecipe)
      returns (outcome: PageOutcome)
    requires db.Valid() && row in db.rows && HoldsRow(recipe, row)
    modifies recipe, db
    ensures db.Valid()
    ensures !outcome.Redirect? ==> db.rows == old(db.rows) && db.nextId == old(db.nextId)
    ensures recipe.id == Some(row.id) &&
      recipe.title == Get(post, "title") && recipe.ingredients == Get(post, "ingredients") &&
      recipe.instructions == Get(post, "instructions") && recipe.difficulty == Get(post, "difficulty")
    ensures !RequiredGiven(post) ==>
      outcome == Page(RequiredFields) && recipe.cookingTime == row.cookingTime && recipe.servings == row.servings
    ensures RequiredGiven(post) && !FormAccepted(post) ==> outcome == Page(UpdateFailed)
    ensures FormAccepted(post) ==>
      outcome == Redirect(row.id, UpdatedNotice) && db.nextId == old(db.nextId) &&
      db.rows == Upsert(old(db.rows), EditedRow(row, post, now))
  {
    recipe.title := Get(post, "title");
    recipe.ingredients := Get(post, "ingredients");
    recipe.instructions := Get(post, "instructions");
    var cookingTime := Get(post, "cooking_time");
    var servings := Get(post, "servings");
    recipe.difficulty := Get(post, "difficulty");
    if !(Truthy(recipe.title) && Truthy(recipe.ingredients) && Truthy(recipe.instructions)) {
      return Page(RequiredFields);
    }
    outcome := SaveEdit(recipe, cookingTime, servings, db, now, post, row);
  }

  /** The conversions and the save of a validated edit. */
  method SaveEdit(recipe: Recipe, cookingTime: Option<string>, servings: Option<string>, db: Database,
                  now: Timestamp, ghost post: QueryDict, ghost row: StoredRecipe) returns (outcome: PageOutcome)
    requires db.Valid() && row in db.rows && RequiredGiven(post)
    requires cookingTime == Get(post, "cooking_time") && servings == Get(post, "servings")
    requires recipe.id == Some(row.id) && recipe.createdAt == row.createdAt && recipe.isAiGenerated == row.isAiGenerated
    requires recipe.title == Get(post, "title") && recipe.ingredients == Get(post, "ingredients")
    requires recipe.instructions == Get(post, "instructions") && recipe.difficulty == Get(post, "difficulty")
    modifies recipe, db
    ensures db.Valid()
    ensures recipe.id == old(recipe.id) && recipe.title == old(recipe.title) && recipe.ingredients == old(recipe.ingredients)
    ensures recipe.instructions == old(recipe.instructions) && recipe.difficulty == old(recipe.difficulty)
    ensures !outcome.Redirect? ==> db.rows == old(db.rows) && db.nextId == old(db.nextId)
    ensures !FormAccepted(post) ==> outcome == Page(UpdateFailed)
    ensures FormAccepted(post) ==>
      outcome == Redirect(row.id, UpdatedNotice) && db.nextId == old(db.nextId) &&
      db.rows == Upsert(old(db.rows), EditedRow(row, post, now))
  {
    var time := OptionalInt(cookingTime);
    if time.Failure? {
      return Page(UpdateFailed);
    }
    recipe.cookingTime := time.value;
    var count := OptionalInt(servings);
    if count.Failure? {
      return Page(UpdateFailed);
    }
    recipe.servings := count.value;
    var error := recipe.Save(db, now);
    if error.Some? {
      return Page(UpdateFailed);
    }
    assert recipe.RowAt(row.id, now) == EditedRow(row, post, now);
    return Redirect(recipe.id.value, UpdatedNotice);
  }

  /** An accepted edit changes no other recipe and adds none. */
  lemma EditTouchesOneRecipe(rows: seq<StoredRecipe>, pk: int, post: QueryDict, now: Timestamp, other: int)
    requires DistinctIds(rows) && Find(rows, pk).Some? && FormAccepted(post)
    ensures |Upsert(rows, EditedRow(Find(rows, pk).value, post, now))| == |rows|
    ensures Find(Upsert(rows, EditedRow(Find(rows, pk).value, post, now)), pk) == Some(EditedRow(Find(rows, pk).value, post, now))
    ensures other != pk ==> Find(Upsert(rows, EditedRow(Find(rows, pk).value, post, now)), other) == Find(rows, other)
  {
    UpsertThenFind(rows, EditedRow(Find(rows, pk).value, post, now), other);
  }

  // ---------------------------------------------------------------------
  // Listing

  /** `.filter(...)`: the rows `keep` accepts, in their order, each as
      often as the table holds it. */
  function Filter(rows: seq<StoredRecipe>, keep: StoredRecipe -> bool): (r: seq<StoredRecipe>)
    ensures |r| <= |rows|
    ensures forall x :: x in r <==> x in rows && keep(x)
    ensures forall x :: multiset(r)[x] == if keep(x) then multiset(rows)[x] else 0
  {
    if rows == [] then []
    else
      assert rows == [rows[0]] + rows[1..];
      var head := if keep(rows[0]) then [rows[0]] else [];
      var tail := Filter(rows[1..], keep);
      assert multiset(rows) == multiset([rows[0]]) + multiset(rows[1..]);
      assert multiset(head + tail) == multiset(head) + multiset(tail);
      head + tail
  }

  /** Filtering keeps the newest-first order. */
  lemma {:induction false} FilterKeepsNewestFirst(rows: seq<StoredRecipe>, keep: StoredRecipe -> bool)
    requires NewestFirst(rows)
    ensures NewestFirst(Filter(rows, keep))
  {
    if rows != [] {
      assert NewestFirst(rows[1..]) by {
        forall i, j | 0 <= i < j < |rows[1..]|
          ensures rows[1..][i].createdAt >= rows[1..][j].createdAt
        {
          assert rows[1..][i] == rows[i + 1] && rows[1..][j] == rows[j + 1];
        }
      }
      FilterKeepsNewestFirst(rows[1..], keep);
      var tail := Filter(rows[1..], keep);
      if keep(rows[0]) {
        if tail != [] {
          assert tail[0] in rows[1..];
          var k :| 0 <= k < |rows[1..]| && rows[1..][k] == tail[0];
          assert rows[k + 1] == tail[0];
        }
        PrependNewest(rows[0], tail);
      }
    }
  }

  /** The search of both list views: the title or the ingredients contain
      the text, ignoring case. */
  predicate Mentions(r: StoredRecipe, search: string) {
    ContainsIgnoringCase(r.title, search) || ContainsIgnoringCase(r.ingredients, search)
  }

  /** A row the search keeps: every row for an empty search. */
  predicate Matches(r: StoredRecipe, search: string) {
    search == "" || Mentions(r, search)
  }

  /** The search applied when the text is not empty. */
  function Searched(rows: seq<StoredRecipe>, search: string): seq<StoredRecipe> {
    if search != "" then Filter(rows, x => Mentions(x, search)) else rows
  }

  /** The search keeps the order and exactly the rows that mention it, each
      as often as the table holds it. */
  lemma SearchedRows(rows: seq<StoredRecipe>, search: string)
    requires NewestFirst(rows)
    ensures NewestFirst(Searched(rows, search))
    ensures forall x :: x in Searched(rows, search) <==> x in rows && (search == "" || Mentions(x, search))
    ensures forall x :: multiset(Searched(rows, search))[x] == (if Matches(x, search) then multiset(rows)[x] else 0)
  {
    if search != "" {
      FilterKeepsNewestFirst(rows, x => Mentions(x, search));
    }
  }

  /** The `search` and `difficulty` parameters of the list page, `''` when absent. */
  function SearchOf(query: QueryDict): string {
    Get(query, "search").GetOr("")
  }

  function DifficultyOf(query: QueryDict): string {
    Get(query, "difficulty").GetOr("")
  }

  /** Every row is in the ordered table exactly when it is in the table. */
  lemma OrderedKeepsRows(rows: seq<StoredRecipe>)
    ensures forall x :: x in Ordered(rows) <==> x in rows
  {
    var s := Ordered(rows);
    forall x
      ensures x in s <==> x in rows
    {
      assert x in s <==> x in multiset(s);
      assert x in rows <==> x in multiset(rows);
    }
  }

  /** A row the list page shows: it matches the search and, when the
      difficulty filter is not empty, has that difficulty. */
  predicate Shown(r: StoredRecipe, query: QueryDict) {
    Matches(r, SearchOf(query)) && (DifficultyOf(query) == "" || r.difficulty == DifficultyOf(query))
  }

  /** The recipes `recipe_list` shows, before pagination: newest first, the
      rows that mention a non-empty search and have a non-empty difficulty
      filter's value; empty parameters keep every row. */
  function RecipeList(rows: seq<StoredRecipe>, query: QueryDict): (r: seq<StoredRecipe>)
    ensures NewestFirst(r)
    ensures forall x :: x in r <==>
      x in rows && (SearchOf(query) == "" || Mentions(x, SearchOf(query))) &&
      (DifficultyOf(query) == "" || x.difficulty == DifficultyOf(query))
    ensures forall x :: multiset(r)[x] == (if Shown(x, query) then multiset(rows)[x] else 0)
    ensures SearchOf(query) == "" && DifficultyOf(query) == "" ==> r == Ordered(rows)
  {
    var search := SearchOf(query);
    var difficulty := DifficultyOf(query);
    OrderedKeepsRows(rows);
    SearchedRows(Ordered(rows), search);
    var searched := Searched(Ordered(rows), search);
    if difficulty != "" then
      FilterKeepsNewestFirst(searched, (x: StoredRecipe) => x.difficulty == difficulty);
      Filter(searched, (x: StoredRecipe) => x.difficulty == difficulty)
    else
      searched
  }

  /** The rows `api_recipe_list` lists: newest first, filtered by the
      search when it is given and not empty. */
  function Listed(rows: seq<StoredRecipe>, query: QueryDict): (r: seq<StoredRecipe>)
    ensures NewestFirst(r)
    ensures forall x :: x in r <==> x in rows && (SearchOf(query) == "" || Mentions(x, SearchOf(query)))
    ensures forall x :: multiset(r)[x] == (if Matches(x, SearchOf(query)) then multiset(rows)[x] else 0)
    ensures SearchOf(query) == "" ==> r == Ordered(rows)
  {
    OrderedKeepsRows(rows);
    SearchedRows(Ordered(rows), SearchOf(query));
    Searched(Ordered(rows), SearchOf(query))
  }

  // ---------------------------------------------------------------------
  // The JSON endpoints

  /** A JSON answer: `status: 'success'` with data, or `status: 'error'`
      with an HTTP status and a message. */
  datatype ApiReply<T> = ApiSuccess(data: T) | ApiError(status: int, message: string)

  /** One entry of the list endpoint. `created_at` is the clock reading;
      its ISO rendering is not modelled. */
  datatype ApiRecipe = ApiRecipe(
    id: int,
    title: string,
    ingredients: string,
    instructions: string,
    cookingTime: Option<int>,
    servings: Option<int>,
    difficulty: string,
    isAiGenerated: bool,
    createdAt: Timestamp)

  /** The entry for a row, with the difficulty's label. */
  function ListItem(r: StoredRecipe): (e: ApiRecipe)
    ensures e.id == r.id && e.title == r.title && e.ingredients == r.ingredients && e.instructions == r.instructions
    ensures e.cookingTime == r.cookingTime && e.servings == r.servings
    ensures e.isAiGenerated == r.isAiGenerated && e.createdAt == r.createdAt
    ensures e.difficulty == DisplayLabel(r.difficulty)
  {
    ApiRecipe(r.id, r.title, r.ingredients, r.instructions, r.cookingTime, r.servings,
      DisplayLabel(r.difficulty), r.isAiGenerated, r.createdAt)
  }

  /** `api_recipe_list`: the entry of every listed row, in order. */
  method ApiRecipeList(db: Database, query: QueryDict) returns (reply: ApiReply<seq<ApiRecipe>>)
    ensures reply.ApiSuccess?
    ensures |reply.data| == |Listed(db.rows, query)|
    ensures forall i :: 0 <= i < |reply.data| ==> reply.data[i] == ListItem(Listed(db.rows, query)[i])
  {
    var recipes := Listed(db.rows, query);
    var list: seq<ApiRecipe> := [];
    var i := 0;
    while i < |recipes|
      invariant i <= |recipes| && |list| == i
      invariant forall k :: 0 <= k < i ==> list[k] == ListItem(recipes[k])
    {
      list := list + [ListItem(recipes[i])];
      i := i + 1;
    }
    reply := ApiSuccess(list);
  }

  /** A recipe stored with the default difficulty is listed as "普通". */
  lemma DefaultDifficultyListedAsNormal(r: StoredRecipe)
    requires r.difficulty == DefaultDifficulty
    ensures ListItem(r).difficulty == "普通"
  {
  }

  /** The detail endpoint's entry: the list entry's fields plus `updated_at`. */
  datatype DetailEntry = DetailEntry(
    id: int,
    title: string,
    ingredients: string,
    instructions: string,
    cookingTime: Option<int>,
    servings: Option<int>,
    difficulty: string,
    isAiGenerated: bool,
    createdAt: Timestamp,
    updatedAt: Timestamp)

  /** The detail entry for a row: its list entry and `updated_at`. */
  function DetailItem(r: StoredRecipe): (e: DetailEntry)
    ensures ApiRecipe(e.id, e.title, e.ingredients, e.instructions, e.cookingTime, e.servings,
      e.difficulty, e.isAiGenerated, e.createdAt) == ListItem(r)
    ensures e.updatedAt == r.updatedAt
  {
    DetailEntry(r.id, r.title, r.ingredients, r.instructions, r.cookingTime, r.servings,
      DisplayLabel(r.difficulty), r.isAiGenerated, r.createdAt, r.updatedAt)
  }

  /** `get_object_or_404(Recipe, pk=pk)`: the row, or `Http404` when there
      is none (the lookup's `DoesNotExist` is turned into `Http404`). */
  function GetObjectOr404(rows: seq<StoredRecipe>, pk: int): (r: Result<StoredRecipe, Exception>)
    ensures r.Failure? <==> !HasId(rows, pk)
    ensures r.Failure? ==> r.error == Http404
    ensures r.Success? ==> r.value in rows && r.value.id == pk
  {
    match Find(rows, pk)
    case Some(row) => Success(row)
    case None => Failure(Http404)
  }

  /** `api_recipe_detail` as written: its not-found branch catches only
      `DoesNotExist`, so the `Http404` of a missing recipe reaches the
      generic handler. */
  function ApiRecipeDetailAsWritten(rows: seq<StoredRecipe>, pk: int): (reply: ApiReply<DetailEntry>)
    ensures reply.ApiError? <==> !HasId(rows, pk)
    ensures reply.ApiError? ==> reply == ApiError(500, DataFailed)
    ensures reply.ApiSuccess? ==> reply.data == DetailItem(Find(rows, pk).value) && reply.data.id == pk
  {
    match GetObjectOr404(rows, pk)
    case Success(row) => ApiSuccess(DetailItem(row))
    case Failure(e) => if e == DoesNotExist then ApiError(404, NotFound) else ApiError(500, DataFailed)
  }

  /** As written, a missing recipe is answered with 500 and the generic
      message, and the not-found answer is never given. */
  lemma MissingRecipeAnswers500(rows: seq<StoredRecipe>, pk: int)
    requires !HasId(rows, pk)
    ensures ApiRecipeDetailAsWritten(rows, pk) == ApiError(500, DataFailed)
    ensures forall p :: ApiRecipeDetailAsWritten(rows, p) != ApiError(404, NotFound)
  {
  }

  /** `api_recipe_detail` as intended: a missing recipe is answered with 404
      and the not-found message, an existing one with its entry. */
  function ApiRecipeDetail(rows: seq<StoredRecipe>, pk: int): (reply: ApiReply<DetailEntry>)
    ensures reply.ApiError? <==> !HasId(rows, pk)
    ensures reply.ApiError? ==> reply == ApiError(404, NotFound)
    ensures reply.ApiSuccess? ==> reply.data == DetailItem(Find(rows, pk).value) && reply.data.id == pk
  {
    match GetObjectOr404(rows, pk)
    case Success(row) => ApiSuccess(DetailItem(row))
    case Failure(_) => ApiError(404, NotFound)
  }
}
