/** The state of the AI recipe form: the request being put together, the two
    text inputs whose contents become list entries, the cuisine selector with
    its free-text alternative, and the flags shown while a generation runs.
    Each handler of the component is a method of the class. */
module RecipeGenerator {
  import opened Wrappers
  import opened Text
  import opened RecipeTypes

  /** The selector value that switches to free-text cuisine entry. */
  const OtherOption := "その他"

  const GenerationFailed := "レシピの生成に失敗しました。もう一度お試しください。"

  /** The form's starting request. */
  const InitialRequest := RecipeGenerationRequest(Some([]), Some(""), Some(Medium), Some(30), Some([]))

  /** The cuisine the request should carry for a selector value and a
      free-text input: the text for the "other" choice, else the value. */
  function EffectiveCuisine(selected: string, custom: string): string {
    if selected == OtherOption then custom else selected
  }

  /** A list entry as the add handlers produce it. */
  predicate IsEntry(s: string) {
    s != "" && IsTrimmed(s)
  }

  predicate AllEntries(xs: seq<string>) {
    forall i :: 0 <= i < |xs| ==> IsEntry(xs[i])
  }

  /** `xs.filter((_, i) => i !== index)`. */
  function RemoveAt(xs: seq<string>, index: int): (r: seq<string>)
    ensures 0 <= index < |xs| ==> r == xs[..index] + xs[index + 1..]
    ensures !(0 <= index < |xs|) ==> r == xs
  {
    if xs == [] then []
    else (if index == 0 then [] else [xs[0]]) + RemoveAt(xs[1..], index - 1)
  }

  /** `xs.indexOf(v)`: the first position holding `v`, or -1. */
  function IndexOf(xs: seq<string>, v: string): (i: int)
    ensures -1 <= i < |xs|
    ensures i == -1 <==> v !in xs
    ensures i >= 0 ==> xs[i] == v && forall k :: 0 <= k < i ==> xs[k] != v
  {
    if xs == [] then -1
    else if xs[0] == v then 0
    else
      var j := IndexOf(xs[1..], v);
      assert forall k :: 1 <= k < |xs| ==> xs[k] == xs[1..][k - 1];
      if j == -1 then -1 else j + 1
  }

  /** Removing a value by its first position takes away exactly one copy of
      it, and leaves the list alone when the value is not in it. */
  lemma RemoveFirstOccurrence(xs: seq<string>, v: string)
    ensures v in xs ==> multiset(RemoveAt(xs, IndexOf(xs, v))) == multiset(xs) - multiset{v}
    ensures v !in xs ==> RemoveAt(xs, IndexOf(xs, v)) == xs
  {
    var i := IndexOf(xs, v);
    if i >= 0 {
      RemoveAtTakesOne(xs, i);
    }
  }

  /** Removing a position takes away one copy of what it held. */
  lemma RemoveAtTakesOne(xs: seq<string>, i: nat)
    requires i < |xs|
    ensures multiset(RemoveAt(xs, i)) == multiset(xs) - multiset{xs[i]}
  {
    var a, b := xs[..i], xs[i + 1..];
    assert xs == a + [xs[i]] + b;
    MultisetWithout(a, xs[i], b);
  }

  lemma MultisetWithout(a: seq<string>, x: string, b: seq<string>)
    ensures multiset(a + b) == multiset(a + [x] + b) - multiset{x}
  {
    assert multiset(a + [x] + b) == multiset(a) + multiset{x} + multiset(b);
    assert multiset(a + b) == multiset(a) + multiset(b);
  }

  /** Removing a position keeps every entry, so the form's entry invariant
      survives a removal. */
  lemma RemoveAtKeepsEntries(xs: seq<string>, index: int)
    requires AllEntries(xs)
    ensures AllEntries(RemoveAt(xs, index))
  {
    if 0 <= index < |xs| {
      var r := RemoveAt(xs, index);
      forall k | 0 <= k < |r|
        ensures IsEntry(r[k])
      {
        if k < index {
          assert r[k] == xs[k];
        } else {
          assert r[k] == xs[k + 1];
        }
      }
    }
  }

  /** Appending an entry keeps the form's entry invariant. */
  lemma AppendKeepsEntries(xs: seq<string>, entry: string)
    requires AllEntries(xs) && IsEntry(entry)
    ensures AllEntries(xs + [entry])
  {
    var r := xs + [entry];
    forall k | 0 <= k < |r|
      ensures IsEntry(r[k])
    {
      if k < |xs| {
        assert r[k] == xs[k];
      }
    }
  }

  // ---------------------------------------------------------------------
  // parseInt

  /** The value of `c` as a digit in base `radix` (10 or 16), if it is one. */
  function RadixDigit(c: char, radix: nat): Option<nat> {
    if '0' <= c <= '9' then Some(c as int - '0' as int)
    else if radix == 16 && 'a' <= c <= 'f' then Some(c as int - 'a' as int + 10)
    else if radix == 16 && 'A' <= c <= 'F' then Some(c as int - 'A' as int + 10)
    else None
  }

  /** The length of the leading run of base-`radix` digits of `s`. */
  function RadixRun(s: string, radix: nat): (n: nat)
    ensures n <= |s|
    ensures forall k :: 0 <= k < n ==> RadixDigit(s[k], radix).Some?
    ensures n < |s| ==> RadixDigit(s[n], radix).None?
  {
    if s != [] && RadixDigit(s[0], radix).Some? then 1 + RadixRun(s[1..], radix) else 0
  }

  /** The value of a run of base-`radix` digits. */
  function RadixValue(ds: string, radix: nat): nat
    requires forall k :: 0 <= k < |ds| ==> RadixDigit(ds[k], radix).Some?
  {
    if ds == [] then 0
    else RadixValue(ds[..|ds| - 1], radix) * radix + RadixDigit(ds[|ds| - 1], radix).value
  }

  /** The leading number of `s` in base `radix`, `None` when `s` does not
      start with a digit. */
  function LeadingNumber(s: string, radix: nat): (r: Option<nat>)
    ensures r.Some? <==> s != [] && RadixDigit(s[0], radix).Some?
  {
    var n := RadixRun(s, radix);
    if n == 0 then None else Some(RadixValue(s[..n], radix))
  }

  /** JavaScript's `parseInt(s)` without a radix, on ASCII text: leading
      whitespace, an optional sign, then a hexadecimal number after "0x" or a
      decimal one; `None` stands for `NaN`. */
  function JsParseInt(s: string): (r: Option<int>)
    ensures TrimLeft(s) == [] ==> r.None?
    ensures (TrimLeft(s) != [] && '0' <= TrimLeft(s)[0] <= '9' &&
      (|TrimLeft(s)| == 1 || (TrimLeft(s)[1] != 'x' && TrimLeft(s)[1] != 'X'))) ==> r.Some? && r.value >= 0
    ensures r.Some? && r.value < 0 ==> TrimLeft(s)[0] == '-'
  {
    var t := TrimLeft(s);
    var negative := t != [] && t[0] == '-';
    var u := if t != [] && (t[0] == '-' || t[0] == '+') then t[1..] else t;
    var magnitude :=
      if |u| >= 2 && u[0] == '0' && (u[1] == 'x' || u[1] == 'X') then LeadingNumber(u[2..], 16)
      else LeadingNumber(u, 10);
    match magnitude
    case None => None
    case Some(m) => Some(if negative then -(m as int) else m as int)
  }

  /** `parseInt(value) || 30`: `NaN` and 0 both give 30. */
  function CookingTimeFrom(value: string): (n: int)
    ensures n != 0
    ensures JsParseInt(value).Some? && JsParseInt(value).value != 0 ==> n == JsParseInt(value).value
    ensures (JsParseInt(value).None? || JsParseInt(value).value == 0) ==> n == 30
  {
    match JsParseInt(value)
    case Some(m) => if m != 0 then m else 30
    case None => 30
  }

  /** In base 10 a run of decimal digits has its decimal value. */
  lemma {:induction false} RadixValueIsDecimal(ds: string)
    requires AllDigits(ds)
    ensures forall k :: 0 <= k < |ds| ==> RadixDigit(ds[k], 10).Some?
    ensures RadixValue(ds, 10) == DecimalValue(ds)
    decreases |ds|
  {
    if ds != [] {
      RadixValueIsDecimal(ds[..|ds| - 1]);
    }
  }

  /** A whole string of decimal digits is one run. */
  lemma {:induction false} DigitsAreOneRun(ds: string)
    requires AllDigits(ds)
    ensures RadixRun(ds, 10) == |ds|
    decreases |ds|
  {
    if ds != [] {
      DigitsAreOneRun(ds[1..]);
    }
  }

  /** A whole string of decimal digits is read as its decimal value. */
  lemma LeadingNumberOfDigits(ds: string)
    requires ds != [] && AllDigits(ds)
    ensures LeadingNumber(ds, 10) == Some(DecimalValue(ds))
  {
    DigitsAreOneRun(ds);
    RadixValueIsDecimal(ds);
    assert ds[..|ds|] == ds;
  }

  /** `parseInt` of a string of decimal digits. */
  lemma JsParseIntOfDigits(ds: string)
    requires ds != [] && AllDigits(ds)
    ensures JsParseInt(ds) == Some(DecimalValue(ds) as int)
  {
    LeadingNumberOfDigits(ds);
    assert IsDigit(ds[0]) && !IsSpace(ds[0]);
    assert TrimLeft(ds) == ds;
    if |ds| >= 2 {
      assert IsDigit(ds[1]);
    }
  }

  /** `parseInt` of a minus sign and a string of decimal digits. */
  lemma JsParseIntOfNegated(ds: string)
    requires ds != [] && AllDigits(ds)
    ensures JsParseInt("-" + ds) == Some(-(DecimalValue(ds) as int))
  {
    var s := "-" + ds;
    assert s[0] == '-' && !IsSpace(s[0]) && s[1..] == ds;
    assert TrimLeft(s) == s;
    LeadingNumberOfDigits(ds);
    assert IsDigit(ds[0]);
  }

  /** Whatever integer the form once displayed, reading it back with
      `parseInt` gives that integer. */
  lemma ParseIntOfIntToString(n: int)
    ensures JsParseInt(IntToString(n)) == Some(n)
  {
    var m: nat := if n < 0 then -n else n;
    DecimalValueOfNatToString(m);
    if n < 0 {
      JsParseIntOfNegated(NatToString(m));
    } else {
      JsParseIntOfDigits(NatToString(m));
    }
  }

  // ---------------------------------------------------------------------
  // The component state

  /** How the fetch in `handleSubmit` ended. */
  datatype SubmitOutcome =
    | Received(recipe: RecipeGenerationResponse)  // an ok response whose body was read
    | NotOk                                       // a response that was not ok
    | Thrown                                      // the fetch or the body read threw

  class RecipeGeneratorForm {
    var isGenerating: bool
    var formData: RecipeGenerationRequest
    var ingredientInput: string
    var dietaryInput: string
    var errorMessage: string
    var selectedCuisineType: string
    var customCuisineInput: string

    /** What every handler keeps: all fields of the request are set, the
        cooking time is non-zero, all list entries are trimmed and non-empty,
        and the cuisine is the one the selector and the free-text input
        determine. */
    predicate Valid()
      reads this
    {
      formData.ingredients.Some? && formData.dietary.Some? && formData.cuisine.Some? &&
      formData.difficulty.Some? && formData.cookingTime.Some? && formData.cookingTime.value != 0 &&
      AllEntries(formData.ingredients.value) && AllEntries(formData.dietary.value) &&
      formData.cuisine.value == EffectiveCuisine(selectedCuisineType, customCuisineInput) &&
      (selectedCuisineType != OtherOption ==> customCuisineInput == "")
    }

    constructor ()
      ensures Valid()
      ensures formData == InitialRequest
      ensures !isGenerating && errorMessage == "" && ingredientInput == "" && dietaryInput == ""
      ensures selectedCuisineType == "" && customCuisineInput == ""
    {
      isGenerating := false;
      formData := InitialRequest;
      ingredientInput := "";
      dietaryInput := "";
      errorMessage := "";
      selectedCuisineType := "";
      customCuisineInput := "";
    }

    method SetIngredientInput(value: string)
      requires Valid()
      modifies this
      ensures Valid()
      ensures ingredientInput == value
      ensures formData == old(formData) && dietaryInput == old(dietaryInput)
      ensures selectedCuisineType == old(selectedCuisineType) && customCuisineInput == old(customCuisineInput)
      ensures isGenerating == old(isGenerating) && errorMessage == old(errorMessage)
    {
      ingredientInput := value;
    }

    method SetDietaryInput(value: string)
      requires Valid()
      modifies this
      ensures Valid()
      ensures dietaryInput == value
      ensures formData == old(formData) && ingredientInput == old(ingredientInput)
      ensures selectedCuisineType == old(selectedCuisineType) && customCuisineInput == old(customCuisineInput)
      ensures isGenerating == old(isGenerating) && errorMessage == old(errorMessage)
    {
      dietaryInput := value;
    }

    /** `handleAddIngredient`: a non-blank input is trimmed, appended and
        cleared; a blank one changes nothing. */
    method AddIngredient()
      requires Valid()
      modifies this
      ensures Valid()
      ensures Trim(old(ingredientInput)) != "" ==>
        formData == old(formData).(ingredients := Some(old(formData.ingredients.value) + [Trim(old(ingredientInput))])) &&
        ingredientInput == ""
      ensures Trim(old(ingredientInput)) == "" ==> formData == old(formData) && ingredientInput == old(ingredientInput)
      ensures dietaryInput == old(dietaryInput) && selectedCuisineType == old(selectedCuisineType)
      ensures customCuisineInput == old(customCuisineInput)
      ensures isGenerating == old(isGenerating) && errorMessage == old(errorMessage)
    {
      var entry := Trim(ingredientInput);
      if entry != "" {
        AppendKeepsEntries(formData.ingredients.value, entry);
        formData := formData.(ingredients := Some(formData.ingredients.GetOr([]) + [entry]));
        ingredientInput := "";
      }
    }

    /** `handleAddDietary`, the same for dietary restrictions. */
    method AddDietary()
      requires Valid()
      modifies this
      ensures Valid()
      ensures Trim(old(dietaryInput)) != "" ==>
        formData == old(formData).(dietary := Some(old(formData.dietary.value) + [Trim(old(dietaryInput))])) &&
        dietaryInput == ""
      ensures Trim(old(dietaryInput)) == "" ==> formData == old(formData) && dietaryInput == old(dietaryInput)
      ensures ingredientInput == old(ingredientInput) && selectedCuisineType == old(selectedCuisineType)
      ensures customCuisineInput == old(customCuisineInput)
      ensures isGenerating == old(isGenerating) && errorMessage == old(errorMessage)
    {
      var entry := Trim(dietaryInput);
      if entry != "" {
        AppendKeepsEntries(formData.dietary.value, entry);
        formData := formData.(dietary := Some(formData.dietary.GetOr([]) + [entry]));
        dietaryInput := "";
      }
    }

    /** `handleCuisineTypeChange`: the selector takes the value, the cuisine
        becomes the value unless it is empty or "other", and the free-text
        input is cleared. */
    method HandleCuisineTypeChange(value: string)
      requires Valid()
      modifies this
      ensures Valid()
      ensures selectedCuisineType == value && customCuisineInput == ""
      ensures formData == old(formData).(cuisine := Some(if value == OtherOption then "" else value))
      ensures ingredientInput == old(ingredientInput) && dietaryInput == old(dietaryInput)
      ensures isGenerating == old(isGenerating) && errorMessage == old(errorMessage)
    {
      selectedCuisineType := value;
      if value == OtherOption {
        formData := formData.(cuisine := Some(""));
        customCuisineInput := "";
      } else if value != "" {
        formData := formData.(cuisine := Some(value));
        customCuisineInput := "";
      } else {
        formData := formData.(cuisine := Some(""));
        customCuisineInput := "";
      }
    }

    /** `handleCustomCuisineChange`. The free-text input is only shown while
        "other" is selected. */
    method HandleCustomCuisineChange(value: string)
      requires Valid() && selectedCuisineType == OtherOption
      modifies this
      ensures Valid()
      ensures customCuisineInput == value && formData == old(formData).(cuisine := Some(value))
      ensures selectedCuisineType == old(selectedCuisineType)
      ensures ingredientInput == old(ingredientInput) && dietaryInput == old(dietaryInput)
      ensures isGenerating == old(isGenerating) && errorMessage == old(errorMessage)
    {
      customCuisineInput := value;
      formData := formData.(cuisine := Some(value));
    }

    /** `removeIngredient(index)`. */
    method RemoveIngredient(index: int)
      requires Valid()
      modifies this
      ensures Valid()
      ensures formData == old(formData).(ingredients := Some(RemoveAt(old(formData.ingredients.value), index)))
      ensures ingredientInput == old(ingredientInput) && dietaryInput == old(dietaryInput)
      ensures selectedCuisineType == old(selectedCuisineType) && customCuisineInput == old(customCuisineInput)
      ensures isGenerating == old(isGenerating) && errorMessage == old(errorMessage)
    {
      RemoveAtKeepsEntries(formData.ingredients.value, index);
      formData := formData.(ingredients := Some(RemoveAt(formData.ingredients.value, index)));
    }

    /** `removeDietary(index)`. */
    method RemoveDietary(index: int)
      requires Valid()
      modifies this
      ensures Valid()
      ensures formData == old(formData).(dietary := Some(RemoveAt(old(formData.dietary.value), index)))
      ensures ingredientInput == old(ingredientInput) && dietaryInput == old(dietaryInput)
      ensures selectedCuisineType == old(selectedCuisineType) && customCuisineInput == old(customCuisineInput)
      ensures isGenerating == old(isGenerating) && errorMessage == old(errorMessage)
    {
      RemoveAtKeepsEntries(formData.dietary.value, index);
      formData := formData.(dietary := Some(RemoveAt(formData.dietary.value, index)));
    }

    /** The click on a dietary chip: its value is looked up with `indexOf`
        and removed there when found. */
    method RemoveDietaryValue(value: string)
      requires Valid()
      modifies this
      ensures Valid()
      ensures formData == old(formData).(dietary := Some(RemoveAt(old(formData.dietary.value), IndexOf(old(formData.dietary.value), value))))
      ensures ingredientInput == old(ingredientInput) && dietaryInput == old(dietaryInput)
      ensures selectedCuisineType == old(selectedCuisineType) && customCuisineInput == old(customCuisineInput)
      ensures isGenerating == old(isGenerating) && errorMessage == old(errorMessage)
    {
      var index := IndexOf(formData.dietary.value, value);
      if index != -1 {
        RemoveDietary(index);
      }
    }

    /** The difficulty selector; it only offers the three levels. */
    method SetDifficulty(difficulty: Difficulty)
      requires Valid()
      modifies this
      ensures Valid()
      ensures formData == old(formData).(difficulty := Some(difficulty))
      ensures ingredientInput == old(ingredientInput) && dietaryInput == old(dietaryInput)
      ensures selectedCuisineType == old(selectedCuisineType) && customCuisineInput == old(customCuisineInput)
      ensures isGenerating == old(isGenerating) && errorMessage == old(errorMessage)
    {
      formData := formData.(difficulty := Some(difficulty));
    }

    /** The cooking-time input's `onChange`. */
    method SetCookingTime(value: string)
      requires Valid()
      modifies this
      ensures Valid()
      ensures formData == old(formData).(cookingTime := Some(CookingTimeFrom(value)))
      ensures ingredientInput == old(ingredientInput) && dietaryInput == old(dietaryInput)
      ensures selectedCuisineType == old(selectedCuisineType) && customCuisineInput == old(customCuisineInput)
      ensures isGenerating == old(isGenerating) && errorMessage == old(errorMessage)
    {
      formData := formData.(cookingTime := Some(CookingTimeFrom(value)));
    }

    /** `handleSubmit` up to the request: the flag goes up, the error is
        cleared, and the request to send is the current form. */
    method StartSubmit() returns (request: RecipeGenerationRequest)
      requires Valid()
      modifies this
      ensures Valid()
      ensures isGenerating && errorMessage == ""
      ensures request == formData && formData == old(formData)
      ensures ingredientInput == old(ingredientInput) && dietaryInput == old(dietaryInput)
      ensures selectedCuisineType == old(selectedCuisineType) && customCuisineInput == old(customCuisineInput)
    {
      isGenerating := true;
      errorMessage := "";
      request := formData;
    }

    /** `handleSubmit` after the request: the flag comes down whatever the
        outcome; the error message is set only for a failed request, and a
        received recipe is handed on. */
    method FinishSubmit(outcome: SubmitOutcome) returns (generated: Option<RecipeGenerationResponse>)
      requires Valid()
      modifies this
      ensures Valid()
      ensures !isGenerating
      ensures outcome.Received? ==> generated == Some(outcome.recipe) && errorMessage == old(errorMessage)
      ensures !outcome.Received? ==> generated == None && errorMessage == GenerationFailed
      ensures formData == old(formData)
      ensures ingredientInput == old(ingredientInput) && dietaryInput == old(dietaryInput)
      ensures selectedCuisineType == old(selectedCuisineType) && customCuisineInput == old(customCuisineInput)
    {
      match outcome {
        case Received(recipe) =>
          generated := Some(recipe);
        case NotOk =>
          generated := None;
          errorMessage := GenerationFailed;
        case Thrown =>
          generated := None;
          errorMessage := GenerationFailed;
      }
      isGenerating := false;
    }
  }

  /** A whole submission: start, then finish. The flag is down again
      afterwards, and the error message is empty exactly when a recipe was
      received. */
  method Submit(form: RecipeGeneratorForm, outcome: SubmitOutcome)
    returns (request: RecipeGenerationRequest, generated: Option<RecipeGenerationResponse>)
    requires form.Valid()
    modifies form
    ensures form.Valid() && !form.isGenerating
    ensures request == old(form.formData) && form.formData == old(form.formData)
    ensures form.errorMessage == "" <==> outcome.Received?
    ensures generated.Some? <==> outcome.Received?
  {
    request := form.StartSubmit();
    generated := form.FinishSubmit(outcome);
  }
}
