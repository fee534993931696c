/** The Django recipe model: its fields, the difficulty choices and their
    display labels, the default newest-first ordering, and saving an
    instance into the recipe table. The table is held in memory as a
    sequence of rows with an identity counter; the database enforces only
    its NOT NULL columns, not the choices or the maximum lengths. */
module DjangoModels {
  import opened Wrappers
  import RecipeTypes
  import opened ModelOracle

  type Timestamp = RecipeTypes.Timestamp

  // ---------------------------------------------------------------------
  // Difficulty choices

  /** The stored values of `difficulty` with their labels, in declaration order. */
  const DifficultyChoices: seq<(string, string)> := [("easy", "簡単"), ("medium", "普通"), ("hard", "難しい")]

  const DefaultDifficulty := "medium"

  /** The label `choices` gives `value`, `None` when no choice has that value. */
  function ChoiceLabel(value: string, choices: seq<(string, string)>): (r: Option<string>)
    ensures r.None? <==> forall k :: 0 <= k < |choices| ==> choices[k].0 != value
    ensures r.Some? ==> exists k :: 0 <= k < |choices| && choices[k] == (value, r.value)
  {
    if choices == [] then None
    else if choices[0].0 == value then Some(choices[0].1)
    else
      var rest := ChoiceLabel(value, choices[1..]);
      if rest.Some? then
        var k :| 0 <= k < |choices[1..]| && choices[1..][k] == (value, rest.value);
        assert choices[k + 1] == choices[1..][k];
        rest
      else
        assert forall k :: 1 <= k < |choices| ==> choices[k] == choices[1..][k - 1];
        rest
  }

  /** `get_difficulty_display()`: the label of a known value, and the value
      itself for anything else. */
  function DisplayLabel(value: string): (shown: string)
    ensures value == "easy" ==> shown == "簡単"
    ensures value == "medium" ==> shown == "普通"
    ensures value == "hard" ==> shown == "難しい"
    ensures value != "easy" && value != "medium" && value != "hard" ==> shown == value
  {
    ChoiceLabel(value, DifficultyChoices).GetOr(value)
  }

  /** Distinct choices are shown with distinct labels, and a label of a
      choice is shown only for that choice or for a stored value that
      already is the label. */
  lemma LabelsIdentifyChoices(v: string, w: string)
    requires v == "easy" || v == "medium" || v == "hard"
    ensures DisplayLabel(w) == DisplayLabel(v) <==> w == v || w == DisplayLabel(v)
  {
  }

  // ---------------------------------------------------------------------
  // Rows and the default ordering

  /** A row of the recipe table. The NOT NULL columns hold strings. */
  datatype StoredRecipe = StoredRecipe(
    id: int,
    title: string,
    ingredients: string,
    instructions: string,
    cookingTime: Option<int>,
    servings: Option<int>,
    difficulty: string,
    createdAt: Timestamp,
    updatedAt: Timestamp,
    isAiGenerated: bool)

  /** `__str__`. */
  function Str(r: StoredRecipe): string {
    r.title
  }

  /** `ordering = ['-created_at']`: later creation times first. */
  ghost predicate NewestFirst(rows: seq<StoredRecipe>) {
    forall i, j :: 0 <= i < j < |rows| ==> rows[i].createdAt >= rows[j].createdAt
  }

  /** `r` placed into newest-first `rows` before the first row that is not newer. */
  function InsertByDate(r: StoredRecipe, rows: seq<StoredRecipe>): (s: seq<StoredRecipe>)
    requires NewestFirst(rows)
    ensures NewestFirst(s)
    ensures multiset(s) == multiset(rows) + multiset{r}
  {
    if rows == [] || r.createdAt >= rows[0].createdAt then
      PrependNewest(r, rows);
      [r] + rows
    else
      var tail := InsertByDate(r, rows[1..]);
      assert rows == [rows[0]] + rows[1..];
      NotNewerThanFirst(r, rows, tail);
      PrependNewest(rows[0], tail);
      [rows[0]] + tail
  }

  /** A row no older than any of newest-first `rows` can go in front of them. */
  lemma PrependNewest(x: StoredRecipe, rows: seq<StoredRecipe>)
    requires NewestFirst(rows)
    requires rows == [] || rows[0].createdAt <= x.createdAt
    ensures NewestFirst([x] + rows)
  {
    var s := [x] + rows;
    forall i, j | 0 <= i < j < |s|
      ensures s[i].createdAt >= s[j].createdAt
    {
      if i == 0 {
        assert s[j] == rows[j - 1] && s[1] == rows[0];
      } else {
        assert s[i] == rows[i - 1] && s[j] == rows[j - 1];
      }
    }
  }

  /** What is inserted behind the first row is no newer than it. */
  lemma NotNewerThanFirst(r: StoredRecipe, rows: seq<StoredRecipe>, tail: seq<StoredRecipe>)
    requires NewestFirst(rows) && rows != [] && r.createdAt < rows[0].createdAt
    requires multiset(tail) == multiset(rows[1..]) + multiset{r}
    ensures forall j :: 0 <= j < |tail| ==> tail[j].createdAt <= rows[0].createdAt
  {
    forall j | 0 <= j < |tail|
      ensures tail[j].createdAt <= rows[0].createdAt
    {
      assert tail[j] in multiset(tail);
      if tail[j] != r {
        assert tail[j] in multiset(rows[1..]);
        var k :| 0 <= k < |rows[1..]| && rows[1..][k] == tail[j];
        assert rows[k + 1] == tail[j];
      }
    }
  }

  /** The rows as `Recipe.objects.all()` returns them: newest first, and
      every row kept exactly once. */
  function Ordered(rows: seq<StoredRecipe>): (s: seq<StoredRecipe>)
    ensures NewestFirst(s)
    ensures multiset(s) == multiset(rows)
  {
    if rows == [] then []
    else
      assert rows == [rows[0]] + rows[1..];
      InsertByDate(rows[0], Ordered(rows[1..]))
  }

  // ---------------------------------------------------------------------
  // The table

  /** Some row has identity `id`. */
  predicate HasId(rows: seq<StoredRecipe>, id: int) {
    exists i :: 0 <= i < |rows| && rows[i].id == id
  }

  /** No two rows share an identity. */
  ghost predicate DistinctIds(rows: seq<StoredRecipe>) {
    forall i, j :: 0 <= i < j < |rows| ==> rows[i].id != rows[j].id
  }

  /** The row with identity `id` (`Recipe.objects.get(pk=id)`), `None` when
      there is none. */
  function Find(rows: seq<StoredRecipe>, id: int): (r: Option<StoredRecipe>)
    ensures r.None? <==> !HasId(rows, id)
    ensures r.Some? ==> r.value in rows && r.value.id == id
  {
    if rows == [] then None
    else if rows[0].id == id then Some(rows[0])
    else
      var rest := Find(rows[1..], id);
      assert forall i :: 1 <= i < |rows| ==> rows[i] == rows[1..][i - 1];
      if rest.None? then rest
      else
        assert rest.value in rows[1..];
        rest
  }

  /** What saving `row` makes of the table: the row with the same identity
      is replaced, or `row` is inserted at the end when there is none. */
  function Upsert(rows: seq<StoredRecipe>, row: StoredRecipe): (r: seq<StoredRecipe>)
    ensures !HasId(rows, row.id) ==> r == rows + [row]
    ensures HasId(rows, row.id) ==> |r| == |rows| && forall i :: 0 <= i < |rows| && rows[i].id != row.id ==> r[i] == rows[i]
    ensures HasId(rows, row.id) ==> forall i :: 0 <= i < |rows| && rows[i].id == row.id ==> r[i] == row
  {
    if HasId(rows, row.id) then seq(|rows|, i requires 0 <= i < |rows| => if rows[i].id == row.id then row else rows[i])
    else rows + [row]
  }

  /** After saving, the saved row is what a lookup of its identity finds,
      every other identity finds what it found before, and no two rows
      share an identity. */
  lemma {:induction false} UpsertThenFind(rows: seq<StoredRecipe>, row: StoredRecipe, id: int)
    requires DistinctIds(rows)
    ensures DistinctIds(Upsert(rows, row))
    ensures Find(Upsert(rows, row), row.id) == Some(row)
    ensures id != row.id ==> Find(Upsert(rows, row), id) == Find(rows, id)
  {
    var r := Upsert(rows, row);
    if HasId(rows, row.id) {
      var k :| 0 <= k < |rows| && rows[k].id == row.id;
      assert r[k] == row;
      FindIsUnique(r, k);
      if id != row.id {
        FindAgrees(r, rows, id);
      }
    } else {
      assert r[|rows|] == row;
      FindIsUnique(r, |rows|);
      if id != row.id {
        FindSkipsLast(rows, row, id);
      }
    }
  }

  /** In a table with distinct identities, looking up the identity of the
      row at `k` finds that row. */
  lemma {:induction false} FindIsUnique(rows: seq<StoredRecipe>, k: nat)
    requires k < |rows| && DistinctIds(rows)
    ensures Find(rows, rows[k].id) == Some(rows[k])
  {
    if k > 0 {
      assert rows[0].id != rows[k].id;
      assert rows[1..][k - 1] == rows[k];
      assert DistinctIds(rows[1..]) by {
        forall i, j | 0 <= i < j < |rows[1..]|
          ensures rows[1..][i].id != rows[1..][j].id
        {
          assert rows[1..][i] == rows[i + 1] && rows[1..][j] == rows[j + 1];
        }
      }
      FindIsUnique(rows[1..], k - 1);
    }
  }

  /** Two tables that agree at every position holding identity `id`
      answer a lookup of `id` alike. */
  lemma {:induction false} FindAgrees(a: seq<StoredRecipe>, b: seq<StoredRecipe>, id: int)
    requires |a| == |b|
    requires forall i :: 0 <= i < |a| && (a[i].id == id || b[i].id == id) ==> a[i] == b[i]
    ensures Find(a, id) == Find(b, id)
  {
    if a != [] {
      assert forall i :: 0 <= i < |a[1..]| ==> a[1..][i] == a[i + 1] && b[1..][i] == b[i + 1];
      FindAgrees(a[1..], b[1..], id);
    }
  }

  lemma {:induction false} FindSkipsLast(rows: seq<StoredRecipe>, row: StoredRecipe, id: int)
    requires id != row.id
    ensures Find(rows + [row], id) == Find(rows, id)
  {
    if rows != [] {
      assert (rows + [row])[1..] == rows[1..] + [row];
      FindSkipsLast(rows[1..], row, id);
    } else {
      assert ([] + [row])[1..] == [];
    }
  }

  /** Every identity is below `bound`. */
  ghost predicate IdsBelow(rows: seq<StoredRecipe>, bound: int) {
    forall i :: 0 <= i < |rows| ==> rows[i].id < bound
  }

  /** Saving a row whose identity is below the new bound keeps every
      identity below it. */
  lemma UpsertIdsBelow(rows: seq<StoredRecipe>, row: StoredRecipe, bound: int, newBound: int)
    requires IdsBelow(rows, bound) && bound <= newBound && row.id < newBound
    ensures IdsBelow(Upsert(rows, row), newBound)
  {
    var r := Upsert(rows, row);
    forall i | 0 <= i < |r|
      ensures r[i].id < newBound
    {
      if i < |rows| && rows[i].id != row.id {
        assert r[i] == rows[i];
      } else {
        assert r[i] == row;
      }
    }
  }

  /** The recipe table: its rows in insertion order and the identity the
      next inserted row receives. */
  class Database {
    var rows: seq<StoredRecipe>
    var nextId: int

    /** Every identity is below the counter and no two rows share one. */
    ghost predicate Valid()
      reads this
    {
      IdsBelow(rows, nextId) && DistinctIds(rows)
    }

    /** Writing `row`: it replaces the row with its identity, or is
        appended, and the counter moves past its identity. */
    method Put(row: StoredRecipe)
      requires Valid()
      modifies this
      ensures Valid()
      ensures rows == Upsert(old(rows), row)
      ensures nextId == if row.id < old(nextId) then old(nextId) else row.id + 1
      ensures Find(rows, row.id) == Some(row)
    {
      var next := if row.id >= nextId then row.id + 1 else nextId;
      UpsertThenFind(rows, row, row.id);
      UpsertIdsBelow(rows, row, nextId, next);
      rows := Upsert(rows, row);
      nextId := next;
    }

    /** An empty table. */
    constructor ()
      ensures rows == [] && nextId == 1 && Valid()
    {
      rows := [];
      nextId := 1;
    }
  }

  const NotNullFailed := "NOT NULL constraint failed"

  /** A model instance. Unsaved instances have no identity; text fields may
      hold `None` in memory, which the table refuses. */
  class Recipe {
    var id: Option<int>
    var title: Option<string>
    var ingredients: Option<string>
    var instructions: Option<string>
    var cookingTime: Option<int>
    var servings: Option<int>
    var difficulty: Option<string>
    var createdAt: Timestamp
    var updatedAt: Option<Timestamp>
    var isAiGenerated: bool

    /** `Recipe(...)` with every field given: `created_at` takes its default,
        the clock reading `now`, and `updated_at` is set only by a save. */
    constructor (title: Option<string>, ingredients: Option<string>, instructions: Option<string>,
                 cookingTime: Option<int>, servings: Option<int>, difficulty: Option<string>,
                 isAiGenerated: bool, now: Timestamp)
      ensures this.id == None && this.title == title && this.ingredients == ingredients
      ensures this.instructions == instructions && this.cookingTime == cookingTime
      ensures this.servings == servings && this.difficulty == difficulty
      ensures this.createdAt == now && this.updatedAt == None && this.isAiGenerated == isAiGenerated
    {
      id := None;
      this.title := title;
      this.ingredients := ingredients;
      this.instructions := instructions;
      this.cookingTime := cookingTime;
      this.servings := servings;
      this.difficulty := difficulty;
      createdAt := now;
      updatedAt := None;
      this.isAiGenerated := isAiGenerated;
    }

    /** The instance a query returns for a stored row. */
    constructor Loaded(row: StoredRecipe)
      ensures id == Some(row.id) && title == Some(row.title) && ingredients == Some(row.ingredients)
      ensures instructions == Some(row.instructions) && cookingTime == row.cookingTime
      ensures servings == row.servings && difficulty == Some(row.difficulty)
      ensures createdAt == row.createdAt && updatedAt == Some(row.updatedAt) && isAiGenerated == row.isAiGenerated
    {
      id := Some(row.id);
      title := Some(row.title);
      ingredients := Some(row.ingredients);
      instructions := Some(row.instructions);
      cookingTime := row.cookingTime;
      servings := row.servings;
      difficulty := Some(row.difficulty);
      createdAt := row.createdAt;
      updatedAt := Some(row.updatedAt);
      isAiGenerated := row.isAiGenerated;
    }

    /** Every NOT NULL column has a value. */
    predicate NotNullsSet()
      reads this
    {
      title.Some? && ingredients.Some? && instructions.Some? && difficulty.Some?
    }

    /** The row this instance is written as, under identity `pk`, at clock
        reading `now`. */
    function RowAt(pk: int, now: Timestamp): (r: StoredRecipe)
      reads this
      requires NotNullsSet()
      ensures r.id == pk && Str(r) == title.value && r.createdAt == createdAt && r.updatedAt == now
    {
      StoredRecipe(pk, title.value, ingredients.value, instructions.value, cookingTime, servings,
        difficulty.value, createdAt, now, isAiGenerated)
    }

    /** `save()`. `updated_at` takes the clock reading first, whatever
        follows. A NOT NULL column without a value makes the table refuse
        the row. Otherwise an unsaved instance is inserted under the next
        identity, and a saved one replaces the row with its identity (or is
        inserted under it when that row is gone). */
    method Save(db: Database, now: Timestamp) returns (error: Option<Exception>)
      requires db.Valid()
      modifies this, db
      ensures db.Valid()
      ensures updatedAt == Some(now)
      ensures title == old(title) && ingredients == old(ingredients) && instructions == old(instructions)
      ensures cookingTime == old(cookingTime) && servings == old(servings) && difficulty == old(difficulty)
      ensures createdAt == old(createdAt) && isAiGenerated == old(isAiGenerated)
      ensures error.Some? <==> !NotNullsSet()
      ensures error.Some? ==>
        error.value == IntegrityError(NotNullFailed) && id == old(id) &&
        db.rows == old(db.rows) && db.nextId == old(db.nextId)
      ensures error.None? ==> id.Some? && Find(db.rows, id.value) == Some(RowAt(id.value, now))
      ensures error.None? && old(id).None? ==>
        id == Some(old(db.nextId)) && db.rows == old(db.rows) + [RowAt(id.value, now)] &&
        db.nextId == old(db.nextId) + 1
      ensures error.None? && old(id).Some? ==>
        id == old(id) && db.rows == Upsert(old(db.rows), RowAt(id.value, now)) &&
        db.nextId == if id.value < old(db.nextId) then old(db.nextId) else id.value + 1
    {
      updatedAt := Some(now);
      if !NotNullsSet() {
        return Some(IntegrityError(NotNullFailed));
      }
      var pk: int;
      if id.None? {
        pk := db.nextId;
        assert !HasId(db.rows, pk);
      } else {
        pk := id.value;
      }
      db.Put(RowAt(pk, now));
      id := Some(pk);
      error := None;
    }
  }
}
