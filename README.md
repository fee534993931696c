# recipper in Dafny

recipper is a recipe application built twice. One half is a Next.js/TypeScript app. The other half is a Django/Python app. Both can ask a generative model for a recipe. This project models the logic at the centre of both halves and proves properties of it.

Modules, one per source file (helper modules last):

- `Gemini` models `src/lib/gemini.ts`.
  - The prompt is built by successive appends in a method, proved equal to a prompt function.
  - The code-fence cleaning regex is written as a left-to-right scan.
  - The `||`-default normalisation is written over loose JSON values.
  - All of it is combined into `generateRecipe`.
- `GeminiService` models `recipes/gemini_service.py`.
  - Covers the key check in the constructor, `_build_prompt`, and `generate_recipe`.
  - Covers `_parse_response`, the line-by-line section state machine. It is a loop method proved against a declarative reading of the answer, section by section.
- `RecipesRoute` models `src/app/api/recipes/route.ts` (`GET` and `POST`). `Json` holds the `JSON.stringify`/`JSON.parse` codec for string arrays that the route relies on.
- `Prisma` models `src/lib/prisma.ts`: the stored record shape and the mock client's CRUD results.
- `RecipeTypes` models `src/types/recipe.ts`: the shared types and their enums.
- `GenerateRoute` models `src/app/api/generate/route.ts`.
- `Auth` models `src/lib/auth.ts`.
  - `authorize` is a function.
  - The `jwt` and `session` callbacks are methods that update the token and session objects in place.
- `RecipeGenerator` models the state handlers of `src/components/RecipeGenerator.tsx` as a class. It has the component's state variables as fields and one method per handler.
- `DjangoModels` models `recipes/models.py`.
  - The difficulty choices, the default ordering and `__str__`.
  - The database is an in-memory table. It is a class holding the rows and the next primary key.
  - `Recipe` is a class whose `save()` writes into that table.
- `Views` models `recipes/views.py`: the create, AI-generate and edit forms, the list filters, and the two JSON endpoints. It includes Python's `int()` on strings.
- `ModelOracle` is the generative model seen from outside. The model's answers are a fixed, arbitrary function of the prompt. The object records every prompt sent to it.
- `Http` holds the route handlers' response shape.
- `Text` holds string helpers: strip, split, digits, substring search and ASCII lower-casing.
- `Wrappers` holds `Option` and `Result`.

Clock readings, environment variables, request bodies and the model's replies are all parameters. The bcrypt comparison and `JSON.parse` of the model's answer are parameters too.

## Model

| member | source | states |
|---|---|---|
| Gemini.LinesFollowOrder | src/lib/gemini.ts:26-44 | There are five requirement slots. Slot i holds the line of the i-th requirement in the fixed order ingredients, cuisine, difficulty, cooking time, dietary, or nothing when that requirement is absent. |
| Gemini.AppendIfPresent | src/lib/gemini.ts:26-44 | One `if` of the prompt builder. It appends exactly that requirement's line when the requirement is present: a non-empty list or a truthy scalar. Otherwise it appends nothing. |
| Gemini.AppendRequirementLines | src/lib/gemini.ts:26-44 | The five `if` blocks in sequence append exactly the requirement section after what came before. |
| Gemini.BuildPrompt | src/lib/gemini.ts:12-46 | The prompt built by successive `prompt +=` is the header, then the requirement section, then the footer. |
| Gemini.PromptFraming | src/lib/gemini.ts:12-46 | Every prompt starts with the JSON-shape header plus "Recipe requirements:\n". Every prompt ends with the "provide only the JSON response" line. |
| Gemini.EmptyRequestPrompt | src/lib/gemini.ts:12-46 | A request with no fields produces exactly the header followed by the footer. |
| Gemini.FalsyScalarsAddNoLine | src/lib/gemini.ts:30-40 | An empty cuisine and a cooking time of 0 give the same prompt as leaving them out. |
| Gemini.PromptLinesInOrder | src/lib/gemini.ts:26-44 | Of two present requirements, the one earlier in the fixed order has its line earlier in the prompt. |
| Gemini.PresentLineInPrompt | src/lib/gemini.ts:26-44 | Every present requirement's line occurs in the prompt. Its lists are joined by ", " in their given order. |
| Gemini.Clean | src/lib/gemini.ts:54 | The cleaned text has no leading or trailing whitespace. |
| Gemini.StripFences | src/lib/gemini.ts:54 | Removing the fences never lengthens the text. Text without backticks is returned unchanged. |
| Gemini.StripFencesOpening | src/lib/gemini.ts:54 | A "```json" fence is removed together with the newline that follows it. |
| Gemini.StripFencesClosing | src/lib/gemini.ts:54 | A "```" fence is removed together with the newline that precedes it. |
| Gemini.StripFencesBare | src/lib/gemini.ts:54 | Three backticks that do not start "```json" are removed alone, and removal continues right after them. |
| Gemini.StripFencesTagOnly | src/lib/gemini.ts:54 | A "```json" tag that no newline follows is removed alone (seven characters), and removal continues right after it. |
| Gemini.StripFencesKeepsPlainText | src/lib/gemini.ts:54 | Backtick-free text followed by a newline, or by the end of the text, is copied unchanged. Fence removal then continues at that newline. |
| Gemini.BacktickFreeOnlyTrimmed | src/lib/gemini.ts:54 | Cleaning text without backticks only trims it. |
| Gemini.FencedBodyUnwrapped | src/lib/gemini.ts:54 | A backtick-free body wrapped in "```json\n" … "\n```" is cleaned to the trimmed body. |
| Gemini.BareFencedBodyUnwrapped | src/lib/gemini.ts:54 | A backtick-free body wrapped in an untagged "```\n" … "\n```" fence is cleaned to the trimmed body. |
| Gemini.FenceAfterNewlineLeavesTag | src/lib/gemini.ts:54 | For "\n```json", the `\n?` ``` alternative matches first (at the newline), so the word "json" stays in the cleaned text. |
| Gemini.Normalize | src/lib/gemini.ts:57-66 | Normalisation fails exactly when the parsed value is `null`, because reading a field of `null` throws. Otherwise every field is the parsed field if truthy, else its default ('Generated Recipe', '', [], [], 30, 'medium', 'main', []). |
| Gemini.NormalizedFieldsTruthy | src/lib/gemini.ts:57-66 | After normalisation every field except the description is truthy. |
| Gemini.NormalizeIdempotent | src/lib/gemini.ts:57-66 | Normalising an already normalised object changes nothing. |
| Gemini.NormalizeKeepsSettled | src/lib/gemini.ts:57-66 | Truthy fields pass through unchanged. |
| Gemini.WellTypedAnswerPassesThrough | src/lib/gemini.ts:57-66 | An answer that is a well-typed response with a non-empty title and a non-zero cooking time is returned unchanged. |
| Gemini.UncheckedDifficultyPassesThrough | src/lib/gemini.ts:63 | A difficulty of "extreme" passes normalisation unchanged. The result is then not a valid response of the declared type. |
| Gemini.ZeroCookingTimeBecomesDefault | src/lib/gemini.ts:62 | A cooking time of 0 is falsy and becomes 30. |
| Gemini.AsResponse | src/types/recipe.ts:34-43 | A normalised object is read as a typed response only when every field has the declared type. The response's fields then agree with the object's. |
| Gemini.ResponseFieldsRoundTrip | src/types/recipe.ts:34-43 | Every typed response, written out as fields and read back, is itself. |
| Gemini.Outcome | src/lib/gemini.ts:48-70 | `generateRecipe` succeeds exactly when the model answers, the cleaned text parses, and the parsed value is not `null`. The result is then the normalised value. Every failure is the single error 'Failed to generate recipe'. |
| Gemini.GenerateRecipe | src/lib/gemini.ts:6-71 | Exactly one prompt is sent to the model: the built one. The result is the outcome of the model's reply to it. |
| ModelOracle.GenerativeModel.GenerateContent | src/lib/gemini.ts:49-51 | One model call: the prompt is recorded and the reply is the model's answer to it. |
| GeminiService.NewService | recipes/gemini_service.py:11-16 | A `ValueError` with the fixed message exactly when the key is unset or empty. Otherwise a fresh service whose model has been sent nothing. |
| GeminiService.ConditionLinesFollowOrder | recipes/gemini_service.py:51-58 | There are four condition slots. Slot i holds the line of the i-th condition in the order ingredients, cuisine type, difficulty, cooking time, or nothing when it is falsy. |
| GeminiService.AppendIfPresent | recipes/gemini_service.py:51-58 | One `if` of `_build_prompt` appends exactly that condition's line when it is truthy, and nothing otherwise. |
| GeminiService.AppendConditionLines | recipes/gemini_service.py:51-58 | The four `if` blocks append exactly the condition section. |
| GeminiService.BuildPrompt | recipes/gemini_service.py:47-86 | The prompt built by `+=` is the fixed header, then the condition section, then the answer template. |
| GeminiService.ServicePromptFraming | recipes/gemini_service.py:49-84 | Every prompt starts with the fixed header and ends with the answer template. |
| GeminiService.ConditionLinesInOrder | recipes/gemini_service.py:51-58 | Of two truthy conditions, the earlier one in the fixed order has its line first. |
| GeminiService.PresentConditionInPrompt | recipes/gemini_service.py:51-58 | Every truthy condition's line occurs in the prompt. The cooking time's line reads "調理時間の目安: {n}分以内". |
| GeminiService.FalsyConditionsAddNoLine | recipes/gemini_service.py:51-58 | Empty strings and a cooking time of 0 give the same prompt as no conditions. |
| GeminiService.FirstKeyword | recipes/gemini_service.py:110-127 | The section a line opens is given by the first keyword in the precedence table that the line contains. There is none exactly when it contains no keyword. |
| GeminiService.KindOf | recipes/gemini_service.py:105-127 | A line is blank exactly when it strips to nothing. A content line's text is the stripped line and is not empty. |
| GeminiService.HeaderLinesAreNotContent | recipes/gemini_service.py:110-127 | A line opens a section exactly when its stripped text contains a keyword. A content line contains none, so a header is never stored as content. |
| GeminiService.NothingBeforeFirstHeader | recipes/gemini_service.py:101-127 | Lines before the first section header belong to no section and are discarded. |
| GeminiService.TimeOfIsLastNumber | recipes/gemini_service.py:136-141 | The cooking time is None exactly when no cooking-time line has a digit. Otherwise it is the first digit run of the last cooking-time line that has one. |
| GeminiService.LevelOfLine | recipes/gemini_service.py:142-148 | A difficulty line containing '簡単' gives easy. Otherwise one containing '難しい' gives hard. Anything else gives medium. |
| GeminiService.LevelOf | recipes/gemini_service.py:142-148 | The difficulty is always easy, medium or hard. It is medium without a difficulty section, and otherwise decided by the section's last line. |
| GeminiService.StripTerminated | recipes/gemini_service.py:161-163 | Stripping the accumulated "line\n" text gives the lines joined by "\n" with no trailing newline. That text is empty exactly when there are no lines. |
| GeminiService.Parsed | recipes/gemini_service.py:88-165 | The parsed title, ingredients and instructions are never empty. The difficulty is one of the three levels. |
| GeminiService.ReadLine | recipes/gemini_service.py:104-150 | One loop iteration over a classified line keeps the current section and the fields equal to the declarative reading of the lines read so far. |
| GeminiService.ReadLines | recipes/gemini_service.py:104-150 | After the loop over all classified lines, the current section and the fields are the declarative reading of the whole answer. |
| GeminiService.Finish | recipes/gemini_service.py:152-165 | Applying the Japanese defaults and stripping gives exactly the declarative fields: the first title line, the joined ingredient, instruction and tip lines, the cooking time and the level. |
| GeminiService.ParseResponse | recipes/gemini_service.py:88-165 | The imperative `_parse_response` returns the declarative reading of the answer text. |
| GeminiService.Generated | recipes/gemini_service.py:36-45 | `generate_recipe` succeeds exactly when the model answers, and then returns the parsed answer. A model error is re-raised unchanged. |
| GeminiService.Service.GenerateRecipe | recipes/gemini_service.py:18-45 | Exactly one prompt is sent to the model: the built one. The result is what its reply gives. |
| RecipeTypes.ParseDifficulty | src/types/recipe.ts:8 | A string names a difficulty exactly when it is 'easy', 'medium' or 'hard'. The difficulty's name is that string. |
| RecipeTypes.DifficultyRoundTrip | src/types/recipe.ts:8 | Every difficulty is read back from its name. |
| RecipeTypes.ParseCategory | src/types/recipe.ts:9 | A string names a category exactly when it is one of the five category names. The category's name is that string. |
| RecipeTypes.CategoryRoundTrip | src/types/recipe.ts:9 | Every category is read back from its name. |
| RecipeTypes.RecipeIsRequestPlusIdentity | src/types/recipe.ts:1-24 | A `Recipe` is a `CreateRecipeRequest` plus an id and two timestamps, in both directions. |
| Json.EscapeCharParses | src/app/api/recipes/route.ts:39-53 | Every character as `JSON.stringify` escapes it is parsed back to that character. |
| Json.EscapeStringParses | src/app/api/recipes/route.ts:39-53 | The escaped body of every string, followed by the closing quote, parses back to the string. The rest of the text is left over. |
| Json.EncodeItemsParse | src/app/api/recipes/route.ts:39-53 | A non-empty list of encoded strings separated by commas, followed by "]", parses back to the list. |
| Json.EncodeDecode | src/app/api/recipes/route.ts:39-53 | `JSON.parse(JSON.stringify(xs))` gives back xs for every string array. |
| Json.EncodeStringArray | src/app/api/recipes/route.ts:39-44 | `JSON.stringify` of a string array is bracketed text: it starts with '[' and ends with ']'. |
| Json.DecodeStringArray | src/app/api/recipes/route.ts:16-18 | `JSON.parse` yields a string array only for text that opens with '[' after leading whitespace. Json.EncodeDecode is its round trip with Json.EncodeStringArray. |
| Json.LowSurrogate | src/app/api/recipes/route.ts:16-18 | After a high-surrogate escape, decoding goes on exactly when a `\uDC00`-`\uDFFF` escape follows. The pair stands for the pair's character, and both escapes are consumed. |
| Json.PairChar | src/app/api/recipes/route.ts:16-18 | The character of a UTF-16 surrogate pair lies above U+FFFF, and the high and low halves give back its upper and lower ten bits. |
| Json.SurrogatePairParses | src/app/api/recipes/route.ts:16-18 | Inside a literal, a high-surrogate escape followed by a low-surrogate escape reads as the one character of the pair, and reading continues after both. |
| Json.SurrogatePairArray | src/app/api/recipes/route.ts:16-18 | An array holding one string written as a surrogate pair of escapes decodes to that one-character string. |
| Json.SurrogatePairDecodes | src/app/api/recipes/route.ts:16-18 | The stored text ["\ud83c\udf45"] decodes to a one-element array holding U+1F345, as `JSON.parse` reads it. |
| RecipesRoute.DecodeTags | src/app/api/recipes/route.ts:18 | Stored tags are parsed when the stored text is truthy. `null` and "" become an empty list. |
| RecipesRoute.Decode | src/app/api/recipes/route.ts:14-19 | Decoding a row succeeds exactly when both lists and the tags parse. Every other field passes through the spread unchanged. |
| RecipesRoute.DecodeAll | src/app/api/recipes/route.ts:14-19 | `map` decodes every row, keeping count and order. It fails exactly when some row fails. |
| RecipesRoute.Get | src/app/api/recipes/route.ts:5-29 | `GET` asks for newest first, then answers either 200 or 500 with 'Failed to fetch recipes'. 200 comes exactly when the query and every decode succeed, with one decoded item per row in the store's order. |
| RecipesRoute.ToData | src/app/api/recipes/route.ts:35-46 | `POST` stores both lists JSON-encoded. It stores the tags encoded when given (even when empty) and `null` when absent. |
| RecipesRoute.Post | src/app/api/recipes/route.ts:31-64 | `POST` answers either 201 with the decoded stored row or 500 with 'Failed to create recipe'. 201 comes exactly when the body, the insert and the decode succeed. |
| RecipesRoute.TagsRoundTrip | src/app/api/recipes/route.ts:44-53 | Tags written and read back are the given tags, or an empty list when none were given. |
| RecipesRoute.StoredRequestDecodes | src/app/api/recipes/route.ts:35-54 | A row stored for a request always decodes. It gives back the request's ingredients and instructions, and its tags or []. |
| RecipesRoute.MockCreateEchoes | src/app/api/recipes/route.ts:31-64 | Over the mock store, `POST` answers 201 with id 'mock-id' and the two clock readings as `createdAt` and `updatedAt`, echoing the request's title, description, lists and tags ([] when absent). |
| RecipesRoute.MockListIsEmpty | src/app/api/recipes/route.ts:5-21 | Over the mock store, `GET` answers 200 with an empty list. |
| RecipesRoute.EmptyTagsStoredAsEmptyArray | src/app/api/recipes/route.ts:44 | An empty tag list is truthy, so it is stored as "[]" rather than `null`. |
| Prisma.MockFindMany | src/lib/prisma.ts:70 | The mock `findMany` returns [] for every option. |
| Prisma.MockFindUnique | src/lib/prisma.ts:71 | The mock `findUnique` returns `null` for every id. |
| Prisma.MockCreate | src/lib/prisma.ts:72-77 | The mock `create` returns id 'mock-id' and the supplied data unchanged. `createdAt` and `updatedAt` are the first and second clock readings. |
| Prisma.MockUpdate | src/lib/prisma.ts:78-83 | The mock `update` returns the requested id and the supplied data, for any id. `createdAt` and `updatedAt` are the first and second clock readings. |
| Prisma.MockDelete | src/lib/prisma.ts:84 | The mock `delete` returns an empty object. |
| Prisma.MockForgetsCreates | src/lib/prisma.ts:70-77 | After a create, the mock still lists nothing and does not find the created id. |
| Prisma.MockUpdateIgnoresHistory | src/lib/prisma.ts:78-83 | An update's result depends only on the id, the data and its own two clock readings, never on an earlier creation time. |
| GenerateRoute.Post | src/app/api/generate/route.ts:5-26 | There are three cases. (1) A body that fails to parse gives 500 'Failed to generate recipe' before the key check. (2) A missing or empty key gives 500 'Gemini API key not configured' without calling the model. (3) Otherwise one prompt is sent and the answer is mapped. |
| GenerateRoute.ResponsesAreOkOrServerError | src/app/api/generate/route.ts:16-25 | After the key check, the response is 200 with exactly the generator's result, or 500 with 'Failed to generate recipe'. |
| Auth.Authorize | src/lib/auth.ts:13-45 | Sign-in succeeds exactly when all four hold: both credentials are given, both environment variables are set, the username equals `AUTH_USER`, and the hash comparison accepts. The user is then id '1' with name `AUTH_USER` and no e-mail. |
| Auth.CompareReachedLast | src/lib/auth.ts:14-37 | While any earlier check fails, the result is `null` whatever the hash comparison would answer. |
| Auth.WrongUserRefused | src/lib/auth.ts:28-30 | A username other than `AUTH_USER` is refused even when the password matches. |
| Auth.Jwt | src/lib/auth.ts:52-57 | The token takes the user's id when a user is given and is unchanged otherwise. The same token is returned. |
| Auth.SessionCallback | src/lib/auth.ts:58-63 | The session user's id becomes the token's id only when both a token and a session user exist. The name and everything else are unchanged. |
| RecipeGenerator.RemoveAt | src/components/RecipeGenerator.tsx:87-92 | Removing by index drops exactly that position and keeps the others in order. An index out of range changes nothing. |
| RecipeGenerator.IndexOf | src/components/RecipeGenerator.tsx:288 | `indexOf` returns the first position holding the value, or -1 exactly when the value is absent. |
| RecipeGenerator.RemoveFirstOccurrence | src/components/RecipeGenerator.tsx:287-290 | Removing at `indexOf(v)` takes away exactly one occurrence of v, as a multiset. An absent v leaves the list as it was. |
| RecipeGenerator.RemoveAtKeepsEntries | src/components/RecipeGenerator.tsx:87-99 | Removing by index keeps every entry trimmed and non-empty. |
| RecipeGenerator.CookingTimeFrom | src/components/RecipeGenerator.tsx:243 | `parseInt(value) \|\| 30`: the parsed number when it parses and is not 0, else 30. It is never 0. |
| RecipeGenerator.JsParseInt | src/components/RecipeGenerator.tsx:243 | `parseInt` of blank text is `NaN`. Text starting with a decimal digit, after leading whitespace and outside the "0x" form, gives a non-negative number. A negative result means the trimmed text starts with '-'. RecipeGenerator.JsParseIntOfDigits pins the value. |
| RecipeGenerator.ParseIntOfIntToString | src/components/RecipeGenerator.tsx:243 | `parseInt` reads back the decimal text of every integer. |
| RecipeGenerator.RecipeGeneratorForm.constructor | src/components/RecipeGenerator.tsx:14-27 | The initial form is ingredients [], cuisine '', difficulty 'medium', cooking time 30 and dietary []. All inputs and the error are empty, and nothing is being generated. |
| RecipeGenerator.RecipeGeneratorForm.SetIngredientInput | src/components/RecipeGenerator.tsx:152 | Typing sets only the ingredient input. |
| RecipeGenerator.RecipeGeneratorForm.SetDietaryInput | src/components/RecipeGenerator.tsx:260 | Typing sets only the dietary input. |
| RecipeGenerator.RecipeGeneratorForm.AddIngredient | src/components/RecipeGenerator.tsx:43-51 | When the trimmed input is non-empty, it is appended to the ingredients and the input is cleared. Whitespace-only input changes nothing. |
| RecipeGenerator.RecipeGeneratorForm.AddDietary | src/components/RecipeGenerator.tsx:53-61 | The same as adding an ingredient, for the dietary list and its input. |
| RecipeGenerator.RecipeGeneratorForm.HandleCuisineTypeChange | src/components/RecipeGenerator.tsx:64-79 | The selection always becomes the value and the custom input is cleared. The cuisine becomes the value, or '' for '' and 'その他'. |
| RecipeGenerator.RecipeGeneratorForm.HandleCustomCuisineChange | src/components/RecipeGenerator.tsx:82-85 | Typing a custom cuisine sets both the custom input and the cuisine to the typed text. |
| RecipeGenerator.RecipeGeneratorForm.RemoveIngredient | src/components/RecipeGenerator.tsx:87-92 | The ingredients lose exactly the given position. Nothing else changes. |
| RecipeGenerator.RecipeGeneratorForm.RemoveDietary | src/components/RecipeGenerator.tsx:94-99 | The dietary list loses exactly the given position. Nothing else changes. |
| RecipeGenerator.RecipeGeneratorForm.RemoveDietaryValue | src/components/RecipeGenerator.tsx:287-290 | Clicking a dietary chip removes the first occurrence of its value. |
| RecipeGenerator.RecipeGeneratorForm.SetDifficulty | src/components/RecipeGenerator.tsx:225 | The difficulty select sets only the difficulty. |
| RecipeGenerator.RecipeGeneratorForm.SetCookingTime | src/components/RecipeGenerator.tsx:243 | The cooking-time input stores `parseInt(value) \|\| 30`. Nothing else changes. |
| RecipeGenerator.RecipeGeneratorForm.StartSubmit | src/components/RecipeGenerator.tsx:101-111 | Submitting sets the generating flag, clears the error, and sends the current form unchanged. |
| RecipeGenerator.RecipeGeneratorForm.FinishSubmit | src/components/RecipeGenerator.tsx:113-125 | The flag goes down whatever happened. The error message is set only for a response that is not ok or throws. A received recipe is handed on. |
| RecipeGenerator.Submit | src/components/RecipeGenerator.tsx:101-126 | After a whole submission the flag is down. The error message is empty exactly when a recipe was received. |
| DjangoModels.ChoiceLabel | recipes/models.py:12-21 | A value has a label exactly when it is one of the choices' values. The label is the one paired with it. |
| DjangoModels.DisplayLabel | recipes/models.py:14-18 | `get_difficulty_display()` gives 簡単/普通/難しい for easy/medium/hard. Any other stored value is shown as itself. |
| DjangoModels.LabelsIdentifyChoices | recipes/models.py:14-18 | Two values share a display label only when they are equal, or one of them is the other's label text. |
| DjangoModels.InsertByDate | recipes/models.py:29 | Inserting by creation time keeps the rows newest first and adds exactly that row. |
| DjangoModels.Ordered | recipes/models.py:29 | The default ordering is newest `created_at` first, and it is a permutation of the table. |
| DjangoModels.Find | recipes/views.py:148 | Looking up a primary key finds nothing exactly when no row has it. Otherwise it finds a row of the table with that key. |
| DjangoModels.Upsert | recipes/views.py:166 | Writing a row replaces the row with its key, in place, when there is one. Otherwise it appends the row. |
| DjangoModels.UpsertThenFind | recipes/views.py:166 | After a write, keys stay distinct, the written row is found under its key, and every other key finds what it found before. |
| DjangoModels.FindIsUnique | recipes/views.py:148 | With distinct keys, looking up a row's key finds that row. |
| DjangoModels.Database.constructor | recipes/models.py:5-24 | A new table is empty and its next key is 1. |
| DjangoModels.Database.Put | recipes/views.py:166 | One table write. The rows are the upsert of the row. The next key moves past the written key. The row is then found under its key. |
| DjangoModels.Recipe.constructor | recipes/views.py:81-89 | A new instance holds the given fields, has no key, and was created now. |
| DjangoModels.Recipe.Loaded | recipes/views.py:148 | An instance loaded from a row holds exactly that row's fields. |
| DjangoModels.Recipe.RowAt | recipes/models.py:22-32 | The row saved from an instance has its key and `created_at`, and `updated_at` set to the save time. Its `__str__` is the title. |
| DjangoModels.Recipe.Save | recipes/models.py:7-24 | After `save()`, `updated_at` is refreshed and the fields are kept. A `None` in a NOT NULL column is refused and nothing is written. Otherwise a new instance is inserted under the next key and a saved one replaces its row. |
| Views.PyInt | recipes/views.py:85-86 | `int(s)` raises `ValueError` "invalid literal for int() with base 10" quoting s, or succeeds on non-blank text. A negative result means the stripped text starts with '-'. Views.PyIntOfPadded gives the value. |
| Views.PyIntOfIntToString | recipes/views.py:85-86 | `int(str(n)) == n` for every integer. |
| Views.SignedValueOfGroups | recipes/views.py:85-86 | Digit groups after an optional '+' or '-' denote their decimal value, underscores dropped, negated after '-'. |
| Views.PyIntOfPadded | recipes/views.py:85-86 | `int` of whitespace, an optional sign, digit groups and whitespace is the groups' decimal value, with underscores dropped and negated after '-'. |
| Views.NonNumericRaises | recipes/views.py:85-86 | Text with any non-space character that is not a digit, an underscore or a sign raises `ValueError`. |
| Views.OptionalInt | recipes/views.py:85-86 | `int(v) if v else None`: None for a missing or empty value. Otherwise it converts exactly when `int()` does, and raises `int()`'s error when it does not. |
| Views.RecipeCreate | recipes/views.py:64-100 | There are three outcomes. (1) Without a title, ingredients or instructions, the required-fields message, checked before any conversion. (2) A bad number or a missing difficulty gives the generic message. (3) Otherwise one row is added with `is_ai_generated` false, followed by a redirect to it. |
| Views.AiRecipeGenerate | recipes/views.py:103-143 | Every `ValueError` is shown as the configuration error with its message, and other errors generically, with nothing stored. On success one row is stored, followed by a redirect to it. |
| Views.AiGeneration | recipes/views.py:111-119 | A missing key raises the service's `ValueError` before anything else. A cooking time `int` rejects raises its `ValueError` before the model is asked. Otherwise the result is the model's parsed answer to the service prompt, and it fails exactly when the model raises. |
| Views.SaveGenerated | recipes/views.py:122-130 | The generated recipe is stored under the next key with 2 servings and `is_ai_generated` true, and its fields copied. |
| Views.MissingKeyShownAsConfigError | recipes/views.py:135-136 | A missing API key is shown as the configuration error with the service's message. |
| Views.BadCookingTimeShownAsConfigError | recipes/views.py:113-136 | A non-numeric cooking time is also shown as a configuration error (the `int()` message), and whatever the model would answer. |
| Views.GeneratedRecipeIsComplete | recipes/views.py:122-130 | A stored generated recipe always has a title, ingredients and instructions, a valid difficulty, 2 servings and the AI flag. |
| Views.RecipeEdit | recipes/views.py:146-178 | An unknown key gives the not-found page. Otherwise the loaded recipe takes the submitted fields before validation. It is saved only when the form is accepted, and then only its own row changes. |
| Views.UpdateFromForm | recipes/views.py:150-173 | The fields are assigned first. A missing required field leaves the numbers and the table untouched. A bad number gives the generic message. |
| Views.SaveEdit | recipes/views.py:164-169 | Converting both numbers then `save()` replaces the recipe's row with the edited row. A failed conversion writes nothing. |
| Views.EditTouchesOneRecipe | recipes/views.py:164-166 | An edit keeps the table's size, stores the edited row under its key, and leaves every other key's row as it was. |
| Views.Filter | recipes/views.py:33-41 | A filter keeps every row that satisfies its condition exactly as often as the table holds it, and no other row. It is never longer than the table. |
| Views.FilterKeepsNewestFirst | recipes/views.py:33-41 | Filtering keeps the newest-first order. |
| Views.SearchedRows | recipes/views.py:33-37 | A non-empty search keeps, in order, every row whose title or ingredients contain it, ignoring case, exactly as often as the table holds it, and no other row. |
| Views.OrderedKeepsRows | recipes/models.py:29 | Ordering neither adds nor loses a row. |
| Views.RecipeList | recipes/views.py:25-46 | The list page shows newest first every row that matches a non-empty search and equals a non-empty difficulty, exactly as often as the table holds it, and no other row. With both parameters empty it shows the whole ordered table. |
| Views.Listed | recipes/views.py:203-210 | The API list has newest first every row that matches a non-empty search, exactly as often as the table holds it, and no other row. With an empty search it is the whole ordered table. |
| Views.ApiRecipeList | recipes/views.py:198-229 | The loop appends one entry per listed row, in order, with the difficulty as its display label. |
| Views.ListItem | recipes/views.py:213-222 | A list entry carries the row's id, title, texts, cooking time, servings, AI flag and creation time unchanged, and the difficulty's display label. |
| Views.DetailItem | recipes/views.py:246-257 | A detail entry is the row's list entry plus its `updated_at`. |
| Views.DefaultDifficultyListedAsNormal | recipes/views.py:221 | A recipe with the default difficulty is listed as '普通'. |
| Views.GetObjectOr404 | recipes/views.py:244 | `get_object_or_404` gives the row with the key, or `Http404` exactly when there is none. |
| Views.MissingRecipeAnswers500 | recipes/views.py:244-274 | As written, a missing recipe is answered with 500 and the generic message. The 404 answer is never given. |
| Views.ApiRecipeDetailAsWritten | recipes/views.py:239-274 | As written, the detail endpoint fails exactly when the key has no row. It then answers 500 with the generic message. Otherwise it answers with that row's entry. |
| Views.ApiRecipeDetail | recipes/views.py:239-274 | As intended, a missing recipe is answered with 404 and 'レシピが見つかりません'. An existing one is answered with its entry. |
| Text.FirstDigitRun | recipes/gemini_service.py:139-141 | `re.search(r'(\d+)')` finds nothing exactly when the line has no digit. Text.DigitRunFoundAfterText gives the value found. |
| Text.NumberFoundAfterText | recipes/gemini_service.py:139-141 | For a line "text without digits, a number, a non-digit", the first digit run is that number. |
| Text.DigitRunFoundAfterText | recipes/gemini_service.py:139-141 | For a line "text without digits, a digit run, a non-digit", the first digit run found has that run's decimal value. |
| Text.TrimDropsLeadingSpace | recipes/gemini_service.py:105 | A leading whitespace character makes no difference to stripping. |
| Text.TrimOfPadded | recipes/gemini_service.py:105 | Stripping removes exactly the whitespace around a non-empty text with none at its ends. |

## Left out

- The generative-model SDK (`GoogleGenerativeAI`, `genai.configure`, `generate_content`) is a network service. `ModelOracle` stands in for it: the model's answer is a function of the prompt, and the object records every prompt.
- `JSON.parse` of the model's answer is a library parser. Gemini.Outcome takes it as a parameter that yields a loose JSON value, or `None` when it throws. Only the string-array codec is written out (`Json`).
- GenerateRoute.Post and RecipesRoute.Post: `request.json()` yields the request typed as the declared interface (`RecipeGenerationRequest`, `CreateRecipeRequest`), or `None` when the body is not JSON. Bodies that do not match the interface are not represented: a `null` body, which makes `request.ingredients` throw (500), a missing `ingredients` or `instructions`, where `JSON.stringify(undefined)` is stored and the later `JSON.parse` throws (500), and a difficulty outside the three values.
- RecipesRoute.MockCreateEchoes: it holds for bodies that match `CreateRecipeRequest`. A body without `ingredients` would answer 500 instead.
- Gemini.BuildPrompt, Gemini.Prompt and RecipeGenerator.CookingTimeFrom: JavaScript numbers are modelled as integers. A fractional cooking time such as 20.5 prints as "20.5" in the prompt, 10^21 prints as "1e+21", and `parseInt` of a very long digit run is `Infinity`; none of these is represented.
- RecipesRoute.Decode: it treats stored text that is valid JSON but not a string array as a parse failure. `JSON.parse` would return such a value and the route would pass it on untyped.
- Json.DecodeStringArray and RecipesRoute.Decode: a `\uD800`-`\uDFFF` escape that is not half of a high-low pair makes the decode fail. `JSON.parse` yields a string holding that lone surrogate, which a Dafny string cannot hold. Paired escapes are decoded (Json.LowSurrogate).
- `bcrypt.compare` is a parameter. scripts/generate-password-hash.js is a command-line wrapper around `bcrypt.hashSync` and is not part of this model.
- The Prisma client selection (`eval('require')` and the `globalThis` singleton, src/lib/prisma.ts:88-107) depends on module loading and the environment.
- The by-id recipe endpoints in src/app/api/recipes/[id]/route.ts are not part of this model.
- Django's ORM is an in-memory table.
  - Covered: collation and `icontains`, using ASCII case folding only.
  - Not enforced: `max_length` and `choices`; `objects.create` does not check them either.
  - Database errors while `api_recipe_list` reads the table are not modelled.
- `Paginator` (recipes/views.py:44-46), `render`, `redirect`, `messages` and recipes/urls.py routing are framework machinery. The views return an outcome value instead.
- The `index`, `recipe_detail` and `recipe_delete` views only fetch rows and render templates.
- `isoformat()` of the timestamps: entries carry the timestamp value itself.
- Views.PyInt: the message quotes the text between plain quotes. Python uses `repr`, which would escape quotes and backslashes inside it.
- A `QueryDict` holds one value per key here. `.get` returns the last value of a repeated key, which is not modelled.
- Whitespace is space, tab, newline, vertical tab, form feed and carriage return (Text.IsSpace), and digits are ASCII. Python's `str.strip` and `int()` also strip the ASCII separators \x1c-\x1f, which Text.IsSpace leaves in, and both, like `\d`, accept Unicode whitespace and digits. JavaScript's `trim` and `parseInt` accept Unicode whitespace too.
- GeminiService.TimeOf and GeminiService.ParseResponse: Python's `int()` refuses a digit string longer than 4300 digits with a `ValueError`. At recipes/gemini_service.py:141 that reaches the `except` fallback of `_parse_response` (recipes/gemini_service.py:167-177). The model reads digit runs of any length, so it never takes that fallback.
- Views.PyInt and Views.OptionalInt: they accept digit strings of any length. Python's `int()` raises `ValueError` beyond 4300 digits.
- Views.RecipeCreate, Views.SaveEdit and DjangoModels.Recipe.Save: `cooking_time` and `servings` are `IntegerField`s (recipes/models.py:10-11), whose range the database bounds (32-bit on PostgreSQL and MySQL, 64-bit on SQLite). An out-of-range value makes `save()` raise and the view shows the generic error. The model stores any integer and redirects.
- Views.RecipeCreate, Views.AiRecipeGenerate, Views.SaveGenerated and DjangoModels.Recipe.Save: `default=timezone.now` (recipes/models.py:22) is read when the instance is built, and `auto_now` (recipes/models.py:23) is read by `save()`. These are two clock readings; the views pass the one reading `now` to the constructor and to `save()`.
- `async`/`await` ordering, logging and `console.error` are not modelled.
- RecipeGenerator.RecipeGeneratorForm.HandleCustomCuisineChange: it requires the 'その他' selection, because the custom input is rendered only then (src/components/RecipeGenerator.tsx:206-209).
- RecipeGenerator.RecipeGeneratorForm.SetDifficulty: it takes a typed difficulty, because the select offers only the three options.
- JSX rendering, src/app/page.tsx, the other components, the theme context, middleware.ts and recipes/admin.py are UI or configuration.

## Findings

| source | as written | input that shows it | evidently intended | confidence | as-written member | corrected member |
|---|---|---|---|---|---|---|
| recipes/views.py:244-268 | `api_recipe_detail` fetches with `get_object_or_404`, which raises `Http404` for a missing key. Its not-found branch catches only `Recipe.DoesNotExist`. | GET of the detail endpoint for a key with no row: the generic handler answers 500 'データの取得中にエラーが発生しました'. | A missing recipe is answered with 404 'レシピが見つかりません'. | not executed | Views.MissingRecipeAnswers500 | Views.ApiRecipeDetail |
