/** The `GET` and `POST` handlers of `/api/recipes`: lists are written to
    the store as JSON text and read back as arrays, and every failure is
    answered with a 500 response. */
module RecipesRoute {
  import opened Wrappers
  import opened Json
  import opened RecipeTypes
  import opened Prisma
  import opened Http

  const FetchFailure := "Failed to fetch recipes"
  const CreateFailure := "Failed to create recipe"

  /** A stored row as the API returns it: the row spread out, with its
      three lists decoded. */
  datatype ApiRecipe = ApiRecipe(
    id: string,
    title: string,
    description: Option<string>,
    ingredients: seq<string>,
    instructions: seq<string>,
    cookingTime: Option<int>,
    difficulty: Option<string>,
    category: Option<string>,
    tags: seq<string>,
    createdAt: Timestamp,
    updatedAt: Timestamp)

  /** The stored tags read back: parsed when the stored text is truthy, an
      empty list when it is `null` or empty. */
  function DecodeTags(tags: Option<string>): (r: Option<seq<string>>)
    ensures (tags.None? || tags.value == "") ==> r == Some([])
    ensures tags.Some? && tags.value != "" ==> r == DecodeStringArray(tags.value)
  {
    if tags.Some? && tags.value != "" then DecodeStringArray(tags.value) else Some([])
  }

  /** The `map` callback of both handlers; `None` where a `JSON.parse`
      throws. */
  function Decode(r: PrismaRecipe): (a: Option<ApiRecipe>)
    ensures a.Some? <==>
      DecodeStringArray(r.ingredients).Some? && DecodeStringArray(r.instructions).Some? && DecodeTags(r.tags).Some?
    ensures a.Some? ==>
      a.value.id == r.id && a.value.title == r.title && a.value.description == r.description &&
      a.value.cookingTime == r.cookingTime && a.value.difficulty == r.difficulty &&
      a.value.category == r.category && a.value.createdAt == r.createdAt && a.value.updatedAt == r.updatedAt
    ensures a.Some? ==>
      Some(a.value.ingredients) == DecodeStringArray(r.ingredients) &&
      Some(a.value.instructions) == DecodeStringArray(r.instructions) &&
      Some(a.value.tags) == DecodeTags(r.tags)
  {
    match (DecodeStringArray(r.ingredients), DecodeStringArray(r.instructions), DecodeTags(r.tags))
    case (Some(ingredients), Some(instructions), Some(tags)) =>
      Some(ApiRecipe(r.id, r.title, r.description, ingredients, instructions,
        r.cookingTime, r.difficulty, r.category, tags, r.createdAt, r.updatedAt))
    case _ => None
  }

  /** `recipes.map(...)`: every row decoded, in order, or `None` when any
      one of them fails. */
  function DecodeAll(rows: seq<PrismaRecipe>): (r: Option<seq<ApiRecipe>>)
    ensures r.None? <==> exists i :: 0 <= i < |rows| && Decode(rows[i]).None?
    ensures r.Some? ==> |r.value| == |rows| && forall i :: 0 <= i < |rows| ==> Decode(rows[i]) == Some(r.value[i])
  {
    if rows == [] then Some([])
    else
      var first := Decode(rows[0]);
      var rest := DecodeAll(rows[1..]);
      if first.None? then None
      else if rest.None? then
        var i :| 0 <= i < |rows[1..]| && Decode(rows[1..][i]).None?;
        assert rows[i + 1] == rows[1..][i];
        None
      else
        assert forall i :: 1 <= i < |rows| ==> rows[i] == rows[1..][i - 1];
        Some([first.value] + rest.value)
  }

  /** The options `GET` passes to `findMany`. */
  const NewestFirst := FindManyOptions(Some(Desc))

  /** `GET`. `findMany` is the store's query, `None` when it throws. */
  function Get(findMany: FindManyOptions -> Option<seq<PrismaRecipe>>): (response: Response<seq<ApiRecipe>>)
    ensures response.status == 200 || response == ServerError(FetchFailure)
    ensures response.status == 200 <==>
      findMany(NewestFirst).Some? && DecodeAll(findMany(NewestFirst).value).Some?
    ensures response.status == 200 ==>
      var rows := findMany(NewestFirst).value;
      response.body.Payload? && |response.body.value| == |rows| &&
      forall i :: 0 <= i < |rows| ==> Decode(rows[i]) == Some(response.body.value[i])
  {
    match findMany(NewestFirst)
    case None => ServerError(FetchFailure)
    case Some(rows) =>
      match DecodeAll(rows)
      case None => ServerError(FetchFailure)
      case Some(recipes) => Ok(recipes)
  }

  /** The `data` `POST` stores for a request: both lists encoded, the tags
      encoded when given (an empty list is truthy) and `null` otherwise. */
  function ToData(body: CreateRecipeRequest): (d: RecipeData)
    ensures d.ingredients == EncodeStringArray(body.ingredients)
    ensures d.instructions == EncodeStringArray(body.instructions)
    ensures d.tags.Some? <==> body.tags.Some?
    ensures body.tags.Some? ==> d.tags.value == EncodeStringArray(body.tags.value)
  {
    RecipeData(
      body.title, body.description,
      EncodeStringArray(body.ingredients), EncodeStringArray(body.instructions),
      body.cookingTime,
      if body.difficulty.Some? then Some(DifficultyName(body.difficulty.value)) else None,
      if body.category.Some? then Some(CategoryName(body.category.value)) else None,
      if body.tags.Some? then Some(EncodeStringArray(body.tags.value)) else None)
  }

  /** `POST`. `body` is `request.json()` (`None` when it throws) and `create`
      is the store's insert (`None` when it throws). */
  function Post(body: Option<CreateRecipeRequest>, create: RecipeData -> Option<PrismaRecipe>): (response: Response<ApiRecipe>)
    ensures response.status == 201 || response == ServerError(CreateFailure)
    ensures response.status == 201 <==>
      body.Some? && create(ToData(body.value)).Some? && Decode(create(ToData(body.value)).value).Some?
    ensures response.status == 201 ==>
      response.body.Payload? && Some(response.body.value) == Decode(create(ToData(body.value)).value)
  {
    match body
    case None => ServerError(CreateFailure)
    case Some(request) =>
      match create(ToData(request))
      case None => ServerError(CreateFailure)
      case Some(row) =>
        match Decode(row)
        case None => ServerError(CreateFailure)
        case Some(recipe) => Response(201, Payload(recipe))
  }

  /** What the API returns for given tags: the list itself, or an empty list
      when none were given. Tags never come back as `null`. */
  lemma TagsRoundTrip(tags: Option<seq<string>>)
    ensures DecodeTags(if tags.Some? then Some(EncodeStringArray(tags.value)) else None) == Some(tags.GetOr([]))
  {
    if tags.Some? {
      EncodeDecode(tags.value);
    }
  }

  /** A stored row written from a request decodes back to the request's
      lists, and keeps every other field of the row. */
  lemma StoredRequestDecodes(body: CreateRecipeRequest, row: PrismaRecipe)
    requires DataOf(row) == ToData(body)
    ensures Decode(row).Some?
    ensures Decode(row).value.ingredients == body.ingredients
    ensures Decode(row).value.instructions == body.instructions
    ensures Decode(row).value.tags == body.tags.GetOr([])
  {
    EncodeDecode(body.ingredients);
    EncodeDecode(body.instructions);
    TagsRoundTrip(body.tags);
  }

  /** Creating through the mock answers 201 with id "mock-id", the two clock
      readings as timestamps, and the request's title and lists echoed back. */
  lemma MockCreateEchoes(body: CreateRecipeRequest, created: Timestamp, updated: Timestamp, create: RecipeData -> Option<PrismaRecipe>)
    requires forall d :: create(d) == Some(MockCreate(d, created, updated))
    ensures var response := Post(Some(body), create);
      response.status == 201 && response.body.Payload? &&
      response.body.value.id == "mock-id" &&
      response.body.value.createdAt == created && response.body.value.updatedAt == updated &&
      response.body.value.title == body.title &&
      response.body.value.description == body.description &&
      response.body.value.ingredients == body.ingredients &&
      response.body.value.instructions == body.instructions &&
      response.body.value.tags == body.tags.GetOr([])
  {
    StoredRequestDecodes(body, MockCreate(ToData(body), created, updated));
  }

  /** Listing through the mock answers 200 with an empty list. */
  lemma MockListIsEmpty()
    ensures Get(MockFindMany) == Ok([])
  {
  }

  /** An empty tag list is stored as "[]", not as `null`. */
  lemma EmptyTagsStoredAsEmptyArray(body: CreateRecipeRequest)
    requires body.tags == Some([])
    ensures ToData(body).tags == Some("[]")
  {
    assert EncodeItems([]) == "";
    assert EncodeStringArray([]) == "[]";
  }
}
