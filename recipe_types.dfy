/** The shared recipe types of the TypeScript application: the two string
    enums, the in-memory recipe, the create request, and the request and
    response of AI generation. */
module RecipeTypes {
  import opened Wrappers

  /** A clock reading (a JavaScript `Date`). */
  type Timestamp = int

  /** `'easy' | 'medium' | 'hard'`. */
  datatype Difficulty = Easy | Medium | Hard

  /** `'main' | 'side' | 'dessert' | 'appetizer' | 'beverage'`. */
  datatype Category = Main | Side | Dessert | Appetizer | Beverage

  function DifficultyName(d: Difficulty): string {
    match d
    case Easy => "easy"
    case Medium => "medium"
    case Hard => "hard"
  }

  /** The difficulty a string literal denotes, if any. */
  function ParseDifficulty(s: string): (r: Option<Difficulty>)
    ensures r.Some? <==> s == "easy" || s == "medium" || s == "hard"
    ensures r.Some? ==> DifficultyName(r.value) == s
  {
    if s == "easy" then Some(Easy)
    else if s == "medium" then Some(Medium)
    else if s == "hard" then Some(Hard)
    else None
  }

  /** Every difficulty is written as one of the three literals and reads back
      as itself. */
  lemma DifficultyRoundTrip(d: Difficulty)
    ensures ParseDifficulty(DifficultyName(d)) == Some(d)
  {
  }

  function CategoryName(c: Category): string {
    match c
    case Main => "main"
    case Side => "side"
    case Dessert => "dessert"
    case Appetizer => "appetizer"
    case Beverage => "beverage"
  }

  /** The category a string literal denotes, if any. */
  function ParseCategory(s: string): (r: Option<Category>)
    ensures r.Some? <==>
      s == "main" || s == "side" || s == "dessert" || s == "appetizer" || s == "beverage"
    ensures r.Some? ==> CategoryName(r.value) == s
  {
    if s == "main" then Some(Main)
    else if s == "side" then Some(Side)
    else if s == "dessert" then Some(Dessert)
    else if s == "appetizer" then Some(Appetizer)
    else if s == "beverage" then Some(Beverage)
    else None
  }

  /** Every category is written as one of the five literals and reads back
      as itself. */
  lemma CategoryRoundTrip(c: Category)
    ensures ParseCategory(CategoryName(c)) == Some(c)
  {
  }

  /** A recipe as the client holds it; optional fields are `Option`s. */
  datatype Recipe = Recipe(
    id: string,
    title: string,
    description: Option<string>,
    ingredients: seq<string>,
    instructions: seq<string>,
    cookingTime: Option<int>,
    difficulty: Option<Difficulty>,
    category: Option<Category>,
    tags: Option<seq<string>>,
    createdAt: Timestamp,
    updatedAt: Timestamp)

  /** The request body for creating a recipe. */
  datatype CreateRecipeRequest = CreateRecipeRequest(
    title: string,
    description: Option<string>,
    ingredients: seq<string>,
    instructions: seq<string>,
    cookingTime: Option<int>,
    difficulty: Option<Difficulty>,
    category: Option<Category>,
    tags: Option<seq<string>>)

  /** The content fields of a recipe, which are exactly a create request. */
  function ContentOf(r: Recipe): CreateRecipeRequest {
    CreateRecipeRequest(r.title, r.description, r.ingredients, r.instructions,
      r.cookingTime, r.difficulty, r.category, r.tags)
  }

  /** A create request given an identity and its two timestamps. */
  function WithIdentity(req: CreateRecipeRequest, id: string, createdAt: Timestamp, updatedAt: Timestamp): (r: Recipe)
    ensures r.id == id && r.createdAt == createdAt && r.updatedAt == updatedAt
  {
    Recipe(id, req.title, req.description, req.ingredients, req.instructions,
      req.cookingTime, req.difficulty, req.category, req.tags, createdAt, updatedAt)
  }

  /** A recipe is its create request's fields plus an identity and two
      timestamps, nothing more and nothing less. */
  lemma RecipeIsRequestPlusIdentity(req: CreateRecipeRequest, r: Recipe, id: string, c: Timestamp, u: Timestamp)
    ensures ContentOf(WithIdentity(req, id, c, u)) == req
    ensures WithIdentity(ContentOf(r), r.id, r.createdAt, r.updatedAt) == r
  {
  }

  /** What the generator may be asked for; every field is optional. */
  datatype RecipeGenerationRequest = RecipeGenerationRequest(
    ingredients: Option<seq<string>>,
    cuisine: Option<string>,
    difficulty: Option<Difficulty>,
    cookingTime: Option<int>,
    dietary: Option<seq<string>>)

  /** A request with nothing asked for. */
  const EmptyGenerationRequest := RecipeGenerationRequest(None, None, None, None, None)

  /** What the generator promises to return; every field is required. */
  datatype RecipeGenerationResponse = RecipeGenerationResponse(
    title: string,
    description: string,
    ingredients: seq<string>,
    instructions: seq<string>,
    cookingTime: int,
    difficulty: Difficulty,
    category: Category,
    tags: seq<string>)
}
