/** The stored recipe shape and the mock database client the application
    falls back to when the real client cannot be loaded. Stored records keep
    their lists as JSON text; `null` and an absent field are both `None`. */
module Prisma {
  import opened Wrappers
  import opened Json
  import opened RecipeTypes

  /** A stored recipe row. */
  datatype PrismaRecipe = PrismaRecipe(
    id: string,
    title: string,
    description: Option<string>,
    ingredients: string,
    instructions: string,
    cookingTime: Option<int>,
    difficulty: Option<string>,
    category: Option<string>,
    tags: Option<string>,
    createdAt: Timestamp,
    updatedAt: Timestamp)

  /** The `data` of a create or update call. */
  datatype RecipeData = RecipeData(
    title: string,
    description: Option<string>,
    ingredients: string,
    instructions: string,
    cookingTime: Option<int>,
    difficulty: Option<string>,
    category: Option<string>,
    tags: Option<string>)

  datatype SortOrder = Asc | Desc

  /** `{ orderBy: { createdAt } }`, every part optional. */
  datatype FindManyOptions = FindManyOptions(createdAt: Option<SortOrder>)

  /** The content fields of a stored row. */
  function DataOf(r: PrismaRecipe): RecipeData {
    RecipeData(r.title, r.description, r.ingredients, r.instructions,
      r.cookingTime, r.difficulty, r.category, r.tags)
  }

  /** A row built from an identity, two clock readings and the data spread
      over them. */
  function Row(id: string, createdAt: Timestamp, updatedAt: Timestamp, data: RecipeData): (r: PrismaRecipe)
    ensures DataOf(r) == data
    ensures r.id == id && r.createdAt == createdAt && r.updatedAt == updatedAt
  {
    PrismaRecipe(id, data.title, data.description, data.ingredients, data.instructions,
      data.cookingTime, data.difficulty, data.category, data.tags, createdAt, updatedAt)
  }

  // ---------------------------------------------------------------------
  // The mock client. It keeps no state: its answers depend only on the
  // arguments of the one call (and on the clock).

  /** Mock `findMany`: nothing, whatever the options. */
  function MockFindMany(options: FindManyOptions): (r: Option<seq<PrismaRecipe>>)
    ensures r == Some([])
  {
    Some([])
  }

  /** Mock `findUnique`: `null` for every id. */
  function MockFindUnique(id: string): (r: Option<PrismaRecipe>)
    ensures r.None?
  {
    None
  }

  /** Mock `create`: id "mock-id", the two clock readings as `createdAt`
      and `updatedAt`, and every supplied field unchanged. */
  function MockCreate(data: RecipeData, created: Timestamp, updated: Timestamp): (r: PrismaRecipe)
    ensures r.id == "mock-id" && DataOf(r) == data
    ensures r.createdAt == created && r.updatedAt == updated
  {
    Row("mock-id", created, updated, data)
  }

  /** Mock `update`: the id asked for, a fresh `createdAt` rather than the
      original one, and every supplied field unchanged. It never fails. */
  function MockUpdate(id: string, data: RecipeData, created: Timestamp, updated: Timestamp): (r: PrismaRecipe)
    ensures r.id == id && DataOf(r) == data
    ensures r.createdAt == created && r.updatedAt == updated
  {
    Row(id, created, updated, data)
  }

  /** Mock `delete`: an empty object for every id. */
  function MockDelete(id: string): (r: Json)
    ensures r == JObject(map[])
  {
    JObject(map[])
  }

  /** Creating and then listing through the mock lists nothing: the created
      row is not kept. */
  lemma MockForgetsCreates(data: RecipeData, created: Timestamp, updated: Timestamp, options: FindManyOptions)
    ensures MockCreate(data, created, updated).id == "mock-id"
    ensures MockFindMany(options) == Some([])
    ensures MockFindUnique(MockCreate(data, created, updated).id).None?
  {
  }

  /** Updating twice with the same data at different times gives rows that
      differ only in their timestamps, each the clock readings of its own
      call. */
  lemma MockUpdateIgnoresHistory(id: string, data: RecipeData, c1: Timestamp, u1: Timestamp, c2: Timestamp, u2: Timestamp)
    ensures DataOf(MockUpdate(id, data, c1, u1)) == DataOf(MockUpdate(id, data, c2, u2))
    ensures MockUpdate(id, data, c1, u1) == MockUpdate(id, data, c2, u2).(createdAt := c1, updatedAt := u1)
  {
  }
}
