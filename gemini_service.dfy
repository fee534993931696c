/** The Python recipe generator: it refuses to start without an API key,
    builds a Japanese prompt from up to four conditions, sends it to the
    model once, and reads the answer line by line into a recipe, section by
    section, with fixed Japanese defaults for what the answer lacks. */
module GeminiService {
  import opened Wrappers
  import opened Text
  import opened ModelOracle

  const KeyMissing := "GEMINI_API_KEY環境変数が設定されていません"

  // ---------------------------------------------------------------------
  // The prompt

  const Intro := "あなたは経験豊富な料理人です。以下の条件に基づいて、美味しいレシピを1つ提案してください。\n\n"

  /** The answer template written after the conditions. */
  const AnswerFormat :=
    "\n以下の形式で回答してください：\n\n" +
    "【レシピ名】\n（具体的で魅力的なレシピ名）\n\n" +
    "【材料】（2人分）\n・材料1: 分量\n・材料2: 分量\n（必要な材料をすべて列挙）\n\n" +
    "【作り方】\n1. 手順1の詳細な説明\n2. 手順2の詳細な説明\n（完成まで順序立てて説明）\n\n" +
    "【調理時間】\n○分\n\n" +
    "【難易度】\n簡単/普通/難しい\n\n" +
    "【コツ・ポイント】\n料理を美味しく作るためのコツやポイント\n"

  /** The arguments of `generate_recipe`; each may be `None`. */
  datatype Conditions = Conditions(
    ingredients: Option<string>,
    cuisineType: Option<string>,
    difficulty: Option<string>,
    cookingTime: Option<int>)

  /** The four conditions, in the order their lines are written. */
  datatype Condition = WithIngredients | WithCuisine | WithDifficulty | WithCookingTime

  const ConditionOrder: seq<Condition> := [WithIngredients, WithCuisine, WithDifficulty, WithCookingTime]

  /** A condition gets a line when its argument is truthy: a non-empty
      string, a non-zero number. */
  predicate Present(c: Conditions, k: Condition) {
    match k
    case WithIngredients => c.ingredients.Some? && c.ingredients.value != ""
    case WithCuisine => c.cuisineType.Some? && c.cuisineType.value != ""
    case WithDifficulty => c.difficulty.Some? && c.difficulty.value != ""
    case WithCookingTime => c.cookingTime.Some? && c.cookingTime.value != 0
  }

  function ConditionLine(c: Conditions, k: Condition): string
    requires Present(c, k)
  {
    match k
    case WithIngredients => "使用したい材料: " + c.ingredients.value + "\n"
    case WithCuisine => "料理の種類: " + c.cuisineType.value + "\n"
    case WithDifficulty => "難易度: " + c.difficulty.value + "\n"
    case WithCookingTime => "調理時間の目安: " + IntToString(c.cookingTime.value) + "分以内\n"
  }

  function ConditionLineIfPresent(c: Conditions, k: Condition): string {
    if Present(c, k) then ConditionLine(c, k) else ""
  }

  function ConditionLines(c: Conditions): seq<string> {
    [ConditionLineIfPresent(c, WithIngredients), ConditionLineIfPresent(c, WithCuisine),
     ConditionLineIfPresent(c, WithDifficulty), ConditionLineIfPresent(c, WithCookingTime)]
  }

  /** The `i`-th contribution is that of the `i`-th condition in the order. */
  lemma ConditionLinesFollowOrder(c: Conditions, i: nat)
    requires i < |ConditionOrder|
    ensures |ConditionLines(c)| == |ConditionOrder| && ConditionLines(c)[i] == ConditionLineIfPresent(c, ConditionOrder[i])
  {
  }

  function ConditionSection(c: Conditions): string {
    Concat(ConditionLines(c))
  }

  /** The whole prompt for the conditions. */
  function ServicePrompt(c: Conditions): string {
    Intro + ConditionSection(c) + AnswerFormat
  }

  lemma AppendFour(start: string, a: string, b: string, c: string, d: string)
    ensures start + Concat([a, b, c, d]) == start + a + b + c + d
  {
    assert [a, b, c, d][..3] == [a, b, c];
    assert [a, b, c][..2] == [a, b];
    assert [a, b][..1] == [a];
    assert [a][..0] == [];
    assert "" + a == a;
    assert Concat([a]) == a;
    assert Concat([a, b]) == a + b;
    assert Concat([a, b, c]) == (a + b) + c;
    assert Concat([a, b, c, d]) == ((a + b) + c) + d;
    AppendAssoc(start, ((a + b) + c), d);
    AppendAssoc(start, (a + b), c);
    AppendAssoc(start, a, b);
  }

  /** One `if ...: prompt += ...` step. */
  method AppendIfPresent(prompt: string, c: Conditions, k: Condition) returns (p: string)
    ensures p == prompt + ConditionLineIfPresent(c, k)
  {
    p := prompt;
    if Present(c, k) {
      p := p + ConditionLine(c, k);
    } else {
      AppendEmpty(prompt);
    }
  }

  method AppendConditionLines(start: string, c: Conditions) returns (prompt: string)
    ensures prompt == start + ConditionSection(c)
  {
    prompt := AppendIfPresent(start, c, WithIngredients);
    prompt := AppendIfPresent(prompt, c, WithCuisine);
    prompt := AppendIfPresent(prompt, c, WithDifficulty);
    prompt := AppendIfPresent(prompt, c, WithCookingTime);
    AppendFour(start, ConditionLineIfPresent(c, WithIngredients), ConditionLineIfPresent(c, WithCuisine),
      ConditionLineIfPresent(c, WithDifficulty), ConditionLineIfPresent(c, WithCookingTime));
  }

  /** `_build_prompt`, one `+=` at a time. */
  method BuildPrompt(c: Conditions) returns (prompt: string)
    ensures prompt == ServicePrompt(c)
  {
    prompt := Intro;
    prompt := AppendConditionLines(prompt, c);
    prompt := prompt + AnswerFormat;
  }

  /** The prompt opens with the fixed introduction and closes with the fixed
      answer template. */
  lemma ServicePromptFraming(c: Conditions)
    ensures HasPrefix(ServicePrompt(c), Intro)
    ensures |AnswerFormat| <= |ServicePrompt(c)|
    ensures ServicePrompt(c)[|ServicePrompt(c)| - |AnswerFormat|..] == AnswerFormat
  {
    var p := ServicePrompt(c);
    assert p[..|Intro|] == Intro;
    assert p[|p| - |AnswerFormat|..] == AnswerFormat;
  }

  /** The lines of two present conditions come in the fixed order
      ingredients, cuisine, difficulty, cooking time. */
  lemma ConditionLinesInOrder(c: Conditions, i: nat, j: nat)
    returns (before: string, between: string, after: string)
    requires i < j < |ConditionOrder| && Present(c, ConditionOrder[i]) && Present(c, ConditionOrder[j])
    ensures ConditionSection(c) == before + ConditionLine(c, ConditionOrder[i]) + between + ConditionLine(c, ConditionOrder[j]) + after
  {
    ConditionLinesFollowOrder(c, i);
    ConditionLinesFollowOrder(c, j);
    before, between, after := ConcatOrder(ConditionLines(c), i, j);
  }

  /** Every present condition's line occurs in the prompt. */
  lemma PresentConditionInPrompt(c: Conditions, j: nat)
    requires j < |ConditionOrder| && Present(c, ConditionOrder[j])
    ensures Contains(ServicePrompt(c), ConditionLine(c, ConditionOrder[j]))
  {
    var line := ConditionLine(c, ConditionOrder[j]);
    var section := ConditionSection(c);
    ConditionLinesFollowOrder(c, j);
    var before, after := ConcatSplit(ConditionLines(c), j);
    assert section[|before|..|before| + |line|] == line;
    ContainsAt(section, line, |before|);
    var p := ServicePrompt(c);
    assert p[|Intro|..|Intro| + |section|] == section;
    ContainsAt(p, section, |Intro|);
    ContainsTransitive(p, section, line);
  }

  /** Empty strings and a zero cooking time are falsy: they add no line. */
  lemma FalsyConditionsAddNoLine()
    ensures ServicePrompt(Conditions(Some(""), Some(""), Some(""), Some(0))) == ServicePrompt(Conditions(None, None, None, None))
  {
    var a := Conditions(Some(""), Some(""), Some(""), Some(0));
    var b := Conditions(None, None, None, None);
    assert ConditionLines(a) == ConditionLines(b);
  }

  // ---------------------------------------------------------------------
  // Reading the answer

  /** The sections of the answer. */
  datatype Section = Title | Ingredients | Instructions | CookingTime | DifficultyLevel | Tips

  /** The section keywords in the order they are checked, each with the
      section it opens. A bracketed keyword is checked before the bare word. */
  const Keywords: seq<(string, Section)> := [
    ("【レシピ名】", Title), ("レシピ名", Title),
    ("【材料】", Ingredients), ("材料", Ingredients),
    ("【作り方】", Instructions), ("作り方", Instructions),
    ("【調理時間】", CookingTime), ("調理時間", CookingTime),
    ("【難易度】", DifficultyLevel), ("難易度", DifficultyLevel),
    ("【コツ】", Tips), ("【ポイント】", Tips), ("コツ", Tips), ("ポイント", Tips)]

  /** The section of the first keyword in `table` that occurs in `line`. */
  function FirstKeyword(line: string, table: seq<(string, Section)>): (r: Option<Section>)
    ensures r.None? <==> forall k :: 0 <= k < |table| ==> !Contains(line, table[k].0)
    ensures r.Some? ==> exists k :: 0 <= k < |table| && Contains(line, table[k].0) && table[k].1 == r.value &&
                                    (forall m :: 0 <= m < k ==> !Contains(line, table[m].0))
  {
    if table == [] then None
    else if Contains(line, table[0].0) then Some(table[0].1)
    else
      var r := FirstKeyword(line, table[1..]);
      assert forall k :: 1 <= k < |table| ==> table[k] == table[1..][k - 1];
      r
  }

  /** The section a stripped line opens, or `None` for a line that
      mentions no keyword. */
  function HeaderOf(line: string): Option<Section> {
    FirstKeyword(line, Keywords)
  }

  /** The answer's lines: the text stripped, then split at line feeds. */
  function AnswerLines(text: string): seq<string> {
    Split(Trim(text), '\n')
  }

  /** What the loop makes of one line: blank lines are skipped, header lines
      switch the section, and every other line is content, stripped. */
  datatype LineKind = Blank | Opens(section: Section) | Text(content: string)

  function KindOf(line: string): (k: LineKind)
    ensures k.Blank? <==> Trim(line) == ""
    ensures k.Text? ==> k.content == Trim(line) && k.content != ""
  {
    var t := Trim(line);
    if t == "" then Blank
    else
      match HeaderOf(t)
      case Some(s) => Opens(s)
      case None => Text(t)
  }

  /** A line that mentions a section keyword only switches the section: it
      is never content. */
  lemma HeaderLinesAreNotContent(line: string)
    ensures KindOf(line).Opens? <==> Trim(line) != "" && HeaderOf(Trim(line)).Some?
    ensures KindOf(line).Opens? ==> HeaderOf(Trim(line)) == Some(KindOf(line).section)
    ensures KindOf(line).Text? ==> HeaderOf(KindOf(line).content).None?
  {
  }

  /** Every line of the answer, classified. */
  function Classify(lines: seq<string>): (kinds: seq<LineKind>)
    ensures |kinds| == |lines| && forall i :: 0 <= i < |lines| ==> kinds[i] == KindOf(lines[i])
  {
    seq(|lines|, i requires 0 <= i < |lines| => KindOf(lines[i]))
  }

  /** The section in effect after the first `n` lines: the one the last
      header among them opened, `None` before the first header. */
  function SectionAfter(kinds: seq<LineKind>, n: nat): Option<Section>
    requires n <= |kinds|
  {
    if n == 0 then None
    else if kinds[n - 1].Opens? then Some(kinds[n - 1].section)
    else SectionAfter(kinds, n - 1)
  }

  /** The content lines that fall into section `s` among the first `n`
      lines, in order. */
  function ContentIn(kinds: seq<LineKind>, n: nat, s: Section): seq<string>
    requires n <= |kinds|
  {
    if n == 0 then []
    else
      ContentIn(kinds, n - 1, s) +
      (if kinds[n - 1].Text? && SectionAfter(kinds, n - 1) == Some(s) then [kinds[n - 1].content] else [])
  }

  /** A line as the loop stores it: stripped and not blank. */
  predicate IsStored(x: string) {
    x != "" && IsTrimmed(x)
  }

  /** Every content line found among classified lines is stored stripped
      and not blank. */
  lemma {:induction false} ContentLinesAreStored(kinds: seq<LineKind>, n: nat, s: Section)
    requires n <= |kinds|
    requires forall i :: 0 <= i < |kinds| && kinds[i].Text? ==> IsStored(kinds[i].content)
    ensures forall i :: 0 <= i < |ContentIn(kinds, n, s)| ==> IsStored(ContentIn(kinds, n, s)[i])
  {
    if n > 0 {
      ContentLinesAreStored(kinds, n - 1, s);
      var prev := ContentIn(kinds, n - 1, s);
      var xs := ContentIn(kinds, n, s);
      forall i | 0 <= i < |xs|
        ensures IsStored(xs[i])
      {
        if i < |prev| {
          assert xs[i] == prev[i];
        } else {
          assert xs[i] == kinds[n - 1].content;
        }
      }
    }
  }

  /** Classifying strips every content line. */
  lemma ClassifiedTextIsStored(lines: seq<string>)
    ensures forall i :: 0 <= i < |Classify(lines)| && Classify(lines)[i].Text? ==> IsStored(Classify(lines)[i].content)
  {
  }

  /** Lines before the first header are never stored. */
  lemma {:induction false} NothingBeforeFirstHeader(kinds: seq<LineKind>, n: nat, s: Section)
    requires n <= |kinds| && forall i :: 0 <= i < n ==> !kinds[i].Opens?
    ensures SectionAfter(kinds, n) == None && ContentIn(kinds, n, s) == []
  {
    if n > 0 {
      NothingBeforeFirstHeader(kinds, n - 1, s);
    }
  }

  /** Each line followed by a line feed, as `+= line + '\n'` accumulates. */
  function Terminated(xs: seq<string>): string {
    if xs == [] then "" else Terminated(xs[..|xs| - 1]) + xs[|xs| - 1] + "\n"
  }

  // The fixed fallbacks.
  const DefaultTitle := "美味しいレシピ"
  const DefaultIngredients := "材料情報が取得できませんでした"
  const DefaultInstructions := "作り方の情報が取得できませんでした"

  /** The first content line, or `fallback` when there is none. */
  function FirstOr(xs: seq<string>, fallback: string): (r: string)
    ensures xs != [] ==> r == xs[0]
    ensures xs == [] ==> r == fallback
  {
    if xs == [] then fallback else xs[0]
  }

  /** The lines joined with line feeds, or `fallback` when there are none. */
  function JoinedOr(xs: seq<string>, fallback: string): (r: string)
    ensures xs != [] ==> r == Join(xs, "\n")
    ensures xs == [] ==> r == fallback
  {
    if xs == [] then fallback else Join(xs, "\n")
  }

  /** The cooking time: the first number on the last line that has one. */
  function TimeOf(xs: seq<string>): Option<nat>
  {
    if xs == [] then None
    else if FirstDigitRun(xs[|xs| - 1]).Some? then FirstDigitRun(xs[|xs| - 1])
    else TimeOf(xs[..|xs| - 1])
  }

  /** The cooking time is `None` exactly when no line has a digit, and
      otherwise the number on a line after which no line has one. */
  lemma {:induction false} TimeOfIsLastNumber(xs: seq<string>) returns (i: int)
    ensures TimeOf(xs).None? <==> forall k :: 0 <= k < |xs| ==> FirstDigitRun(xs[k]).None?
    ensures TimeOf(xs).Some? ==>
      0 <= i < |xs| && FirstDigitRun(xs[i]) == TimeOf(xs) && forall k :: i < k < |xs| ==> FirstDigitRun(xs[k]).None?
    decreases |xs|
  {
    i := -1;
    if xs != [] {
      var last := |xs| - 1;
      if FirstDigitRun(xs[last]).Some? {
        i := last;
      } else {
        var init := xs[..last];
        var j := TimeOfIsLastNumber(init);
        assert forall k :: 0 <= k < |init| ==> init[k] == xs[k];
        i := j;
      }
    }
  }

  /** The level one difficulty line names. */
  function LevelOfLine(line: string): (level: string)
    ensures level == "easy" || level == "medium" || level == "hard"
    ensures level == "easy" <==> Contains(line, "簡単")
    ensures level == "hard" <==> !Contains(line, "簡単") && Contains(line, "難しい")
  {
    if Contains(line, "簡単") then "easy" else if Contains(line, "難しい") then "hard" else "medium"
  }

  /** The difficulty: decided by the last difficulty line, medium without one. */
  function LevelOf(xs: seq<string>): (level: string)
    ensures level == "easy" || level == "medium" || level == "hard"
    ensures xs == [] ==> level == "medium"
    ensures xs != [] ==> level == LevelOfLine(xs[|xs| - 1])
  {
    if xs == [] then "medium" else LevelOfLine(xs[|xs| - 1])
  }

  /** The dictionary `_parse_response` returns. */
  datatype ParsedRecipe = ParsedRecipe(
    title: string,
    ingredients: string,
    instructions: string,
    cookingTime: Option<int>,
    difficulty: string,
    tips: string)

  function AsInt(n: Option<nat>): (r: Option<int>)
    ensures r.Some? <==> n.Some?
    ensures r.Some? ==> r.value == n.value && r.value >= 0
  {
    match n
    case None => None
    case Some(v) => Some(v)
  }

  /** Joining one more line. */
  lemma {:induction false} JoinSnoc(xs: seq<string>, x: string, sep: string)
    ensures Join(xs + [x], sep) == if xs == [] then x else Join(xs, sep) + sep + x
    decreases |xs|
  {
    if |xs| >= 2 {
      assert (xs + [x])[1..] == xs[1..] + [x];
      JoinSnoc(xs[1..], x, sep);
    } else if |xs| == 1 {
      assert (xs + [x])[1..] == [x];
    }
  }

  /** Joining trimmed, non-empty lines gives a trimmed, non-empty text. */
  lemma JoinTrimmed(xs: seq<string>, sep: string)
    requires xs != [] && forall i :: 0 <= i < |xs| ==> IsStored(xs[i])
    ensures Join(xs, sep) != "" && IsTrimmed(Join(xs, sep))
  {
    var init := xs[..|xs| - 1];
    var last := xs[|xs| - 1];
    assert xs == init + [last];
    JoinSnoc(init, last, sep);
    var j := Join(xs, sep);
    assert j[|j| - 1] == last[|last| - 1];
    if |xs| >= 2 {
      assert j == xs[0] + sep + Join(xs[1..], sep);
    }
    assert j[0] == xs[0][0];
  }

  /** A non-empty fallback or non-empty lines give a non-empty field. */
  lemma JoinedNonEmpty(xs: seq<string>, fallback: string)
    requires fallback != "" && forall i :: 0 <= i < |xs| ==> IsStored(xs[i])
    ensures JoinedOr(xs, fallback) != ""
  {
    if xs != [] {
      JoinTrimmed(xs, "\n");
    }
  }

  /** The recipe the classified lines make up: the first title line, the
      ingredient and instruction lines joined (each with a fixed fallback),
      the last cooking-time number, the last difficulty line's level, and
      the tip lines joined. */
  function Fields(kinds: seq<LineKind>): ParsedRecipe {
    var n := |kinds|;
    ParsedRecipe(
      FirstOr(ContentIn(kinds, n, Title), DefaultTitle),
      JoinedOr(ContentIn(kinds, n, Ingredients), DefaultIngredients),
      JoinedOr(ContentIn(kinds, n, Instructions), DefaultInstructions),
      AsInt(TimeOf(ContentIn(kinds, n, CookingTime))),
      LevelOf(ContentIn(kinds, n, DifficultyLevel)),
      Join(ContentIn(kinds, n, Tips), "\n"))
  }

  /** What the answer `text` is read as. Title, ingredients and
      instructions are never empty, and the difficulty is one of the three
      levels. */
  function Parsed(text: string): (r: ParsedRecipe)
    ensures r.title != "" && r.ingredients != "" && r.instructions != ""
    ensures r.difficulty == "easy" || r.difficulty == "medium" || r.difficulty == "hard"
  {
    var lines := AnswerLines(text);
    ClassifiedTextIsStored(lines);
    FieldsComplete(Classify(lines));
    Fields(Classify(lines))
  }

  /** Lines that are stored stripped and non-empty give a recipe with a
      title, ingredients and instructions. */
  lemma FieldsComplete(kinds: seq<LineKind>)
    requires forall j :: 0 <= j < |kinds| && kinds[j].Text? ==> IsStored(kinds[j].content)
    ensures Fields(kinds).title != "" && Fields(kinds).ingredients != "" && Fields(kinds).instructions != ""
  {
    var n := |kinds|;
    ContentLinesAreStored(kinds, n, Title);
    ContentLinesAreStored(kinds, n, Ingredients);
    ContentLinesAreStored(kinds, n, Instructions);
    JoinedNonEmpty(ContentIn(kinds, n, Ingredients), DefaultIngredients);
    JoinedNonEmpty(ContentIn(kinds, n, Instructions), DefaultInstructions);
  }

  /** The accumulated text is the joined lines plus one final line feed. */
  lemma {:induction false} TerminatedIsJoined(xs: seq<string>)
    requires xs != []
    ensures Terminated(xs) == Join(xs, "\n") + "\n"
    decreases |xs|
  {
    var init := xs[..|xs| - 1];
    var last := xs[|xs| - 1];
    assert xs == init + [last];
    JoinSnoc(init, last, "\n");
    assert Terminated(xs) == Terminated(init) + last + "\n";
    if init == [] {
      assert Join(xs, "\n") == last;
    } else {
      TerminatedIsJoined(init);
      calc {
        Terminated(xs);
        Join(init, "\n") + "\n" + last + "\n";
        { assert Join(xs, "\n") == Join(init, "\n") + "\n" + last; }
        Join(xs, "\n") + "\n";
      }
    }
  }

  /** Stripping a trimmed text with a line feed added gives the text back. */
  lemma StripFinalNewline(s: string)
    requires s != "" && IsTrimmed(s)
    ensures Trim(s + "\n") == s
  {
    var t := s + "\n";
    assert t[..|t| - 1] == s;
    assert TrimRight(t) == TrimRight(s);
    assert TrimRight(s) == s;
  }

  /** Stripping `+= line + '\n'` text gives the lines joined, with no
      trailing line feed. */
  lemma StripTerminated(xs: seq<string>)
    requires forall i :: 0 <= i < |xs| ==> IsStored(xs[i])
    ensures Trim(Terminated(xs)) == Join(xs, "\n")
    ensures xs != [] <==> Terminated(xs) != ""
  {
    if xs != [] {
      TerminatedIsJoined(xs);
      JoinTrimmed(xs, "\n");
      StripFinalNewline(Join(xs, "\n"));
    }
  }

  /** The fallback texts have no whitespace at their ends. */
  lemma DefaultsTrimmed()
    ensures Trim(DefaultIngredients) == DefaultIngredients
    ensures Trim(DefaultInstructions) == DefaultInstructions
  {
    TrimKeepsTrimmed(DefaultIngredients);
    TrimKeepsTrimmed(DefaultInstructions);
  }

  lemma TerminatedSnoc(xs: seq<string>, x: string)
    ensures Terminated(xs + [x]) == Terminated(xs) + x + "\n"
  {
    assert (xs + [x])[..|xs|] == xs;
  }

  lemma TimeOfSnoc(xs: seq<string>, x: string)
    ensures TimeOf(xs + [x]) == if FirstDigitRun(x).Some? then FirstDigitRun(x) else TimeOf(xs)
  {
    assert (xs + [x])[..|xs|] == xs;
  }

  /** The variables of the loop in `_parse_response`. */
  datatype Accumulators = Accumulators(
    section: Option<Section>,
    title: string,
    ingredients: string,
    instructions: string,
    cookingTime: Option<nat>,
    difficulty: string,
    tips: string)

  /** What the variables hold after the first `n` lines. */
  ghost predicate AccumulatedAfter(acc: Accumulators, kinds: seq<LineKind>, n: nat)
    requires n <= |kinds|
  {
    acc.section == SectionAfter(kinds, n) &&
    acc.title == FirstOr(ContentIn(kinds, n, Title), "") &&
    (acc.title == "" <==> ContentIn(kinds, n, Title) == []) &&
    acc.ingredients == Terminated(ContentIn(kinds, n, Ingredients)) &&
    acc.instructions == Terminated(ContentIn(kinds, n, Instructions)) &&
    acc.cookingTime == TimeOf(ContentIn(kinds, n, CookingTime)) &&
    acc.difficulty == LevelOf(ContentIn(kinds, n, DifficultyLevel)) &&
    acc.tips == Terminated(ContentIn(kinds, n, Tips))
  }

  /** A blank or header line adds no content anywhere. */
  lemma ContentSkips(kinds: seq<LineKind>, i: nat)
    requires i < |kinds| && !kinds[i].Text?
    ensures forall s :: ContentIn(kinds, i + 1, s) == ContentIn(kinds, i, s)
  {
  }

  /** A content line keeps the section and is added to that section only. */
  lemma ContentGrows(kinds: seq<LineKind>, i: nat)
    requires i < |kinds| && kinds[i].Text?
    ensures SectionAfter(kinds, i + 1) == SectionAfter(kinds, i)
    ensures forall s :: SectionAfter(kinds, i) == Some(s) ==> ContentIn(kinds, i + 1, s) == ContentIn(kinds, i, s) + [kinds[i].content]
    ensures forall s :: SectionAfter(kinds, i) != Some(s) ==> ContentIn(kinds, i + 1, s) == ContentIn(kinds, i, s)
  {
    forall s | SectionAfter(kinds, i) != Some(s)
      ensures ContentIn(kinds, i + 1, s) == ContentIn(kinds, i, s)
    {
      assert ContentIn(kinds, i, s) + [] == ContentIn(kinds, i, s);
    }
  }

  /** The body of the loop for the line at `i`, already classified. */
  method ReadLine(acc: Accumulators, kind: LineKind, ghost kinds: seq<LineKind>, ghost i: nat) returns (next: Accumulators)
    requires i < |kinds| && kinds[i] == kind && AccumulatedAfter(acc, kinds, i)
    requires kind.Text? ==> kind.content != ""
    ensures AccumulatedAfter(next, kinds, i + 1)
  {
    next := acc;
    match kind {
      case Blank =>
        ContentSkips(kinds, i);
      case Opens(s) =>
        ContentSkips(kinds, i);
        next := next.(section := Some(s));
      case Text(line) =>
        ContentGrows(kinds, i);
        ghost var content := ContentIn(kinds, i, acc.section.GetOr(Title));
        if acc.section == Some(Title) && acc.title == "" {
          next := next.(title := line);
        } else if acc.section == Some(Ingredients) {
          TerminatedSnoc(content, line);
          next := next.(ingredients := acc.ingredients + line + "\n");
        } else if acc.section == Some(Instructions) {
          TerminatedSnoc(content, line);
          next := next.(instructions := acc.instructions + line + "\n");
        } else if acc.section == Some(CookingTime) {
          TimeOfSnoc(content, line);
          var found := FirstDigitRun(line);
          if found.Some? {
            next := next.(cookingTime := found);
          }
        } else if acc.section == Some(DifficultyLevel) {
          if Contains(line, "簡単") {
            next := next.(difficulty := "easy");
          } else if Contains(line, "難しい") {
            next := next.(difficulty := "hard");
          } else {
            next := next.(difficulty := "medium");
          }
        } else if acc.section == Some(Tips) {
          TerminatedSnoc(content, line);
          next := next.(tips := acc.tips + line + "\n");
        }
    }
  }

  lemma InitiallyNothing(kinds: seq<LineKind>)
    ensures AccumulatedAfter(Accumulators(None, "", "", "", None, "medium", ""), kinds, 0)
  {
  }

  /** The loop of `_parse_response` over the answer's lines. */
  method ReadLines(kinds: seq<LineKind>) returns (acc: Accumulators)
    requires forall i :: 0 <= i < |kinds| && kinds[i].Text? ==> kinds[i].content != ""
    ensures AccumulatedAfter(acc, kinds, |kinds|)
  {
    acc := Accumulators(None, "", "", "", None, "medium", "");
    InitiallyNothing(kinds);
    var i := 0;
    while i < |kinds|
      invariant i <= |kinds|
      invariant AccumulatedAfter(acc, kinds, i)
    {
      acc := ReadLine(acc, kinds[i], kinds, i);
      i := i + 1;
    }
  }

  /** After the loop: the fallbacks for an empty title, ingredients or
      instructions, then the strips. */
  method Finish(acc: Accumulators, ghost kinds: seq<LineKind>) returns (data: ParsedRecipe)
    requires AccumulatedAfter(acc, kinds, |kinds|)
    requires forall j :: 0 <= j < |kinds| && kinds[j].Text? ==> IsStored(kinds[j].content)
    ensures data == Fields(kinds)
  {
    ghost var n := |kinds|;
    var title := acc.title;
    var ingredients := acc.ingredients;
    var instructions := acc.instructions;
    if title == "" {
      title := DefaultTitle;
    }
    if ingredients == "" {
      ingredients := DefaultIngredients;
    }
    if instructions == "" {
      instructions := DefaultInstructions;
    }
    ContentLinesAreStored(kinds, n, Title);
    ContentLinesAreStored(kinds, n, Ingredients);
    ContentLinesAreStored(kinds, n, Instructions);
    ContentLinesAreStored(kinds, n, Tips);
    StripTerminated(ContentIn(kinds, n, Ingredients));
    StripTerminated(ContentIn(kinds, n, Instructions));
    StripTerminated(ContentIn(kinds, n, Tips));
    DefaultsTrimmed();
    data := ParsedRecipe(title, Trim(ingredients), Trim(instructions), AsInt(acc.cookingTime),
      acc.difficulty, Trim(acc.tips));
  }

  /** The loop and the fallbacks over the classified lines. */
  method ReadKinds(kinds: seq<LineKind>) returns (data: ParsedRecipe)
    requires forall j :: 0 <= j < |kinds| && kinds[j].Text? ==> IsStored(kinds[j].content)
    ensures data == Fields(kinds)
  {
    var acc := ReadLines(kinds);
    data := Finish(acc, kinds);
  }

  /** `_parse_response`. */
  method ParseResponse(responseText: string) returns (data: ParsedRecipe)
    ensures data == Parsed(responseText)
  {
    var lines := AnswerLines(responseText);
    var kinds := Classify(lines);
    ClassifiedTextIsStored(lines);
    data := ReadKinds(kinds);
  }

  // ---------------------------------------------------------------------
  // The service

  /** What `generate_recipe` returns for one reply of the model: the parsed
      answer, or the model's exception raised again unchanged. */
  function Generated(reply: Reply): (r: Result<ParsedRecipe, Exception>)
    ensures r.Success? <==> reply.Completion?
    ensures reply.Completion? ==> r.value == Parsed(reply.text)
    ensures reply.Raised? ==> r.error == reply.error
  {
    match reply
    case Completion(text) => Success(Parsed(text))
    case Raised(e) => Failure(e)
  }

  class Service {
    const model: GenerativeModel

    constructor (model: GenerativeModel)
      ensures this.model == model
    {
      this.model := model;
    }

    /** `generate_recipe`: one prompt sent, and the reply read or re-raised. */
    method GenerateRecipe(c: Conditions) returns (r: Result<ParsedRecipe, Exception>)
      modifies model
      ensures model.prompts == old(model.prompts) + [ServicePrompt(c)]
      ensures r == Generated(model.respond(ServicePrompt(c)))
    {
      var prompt := BuildPrompt(c);
      var reply := model.GenerateContent(prompt);
      match reply {
        case Completion(text) =>
          var data := ParseResponse(text);
          r := Success(data);
        case Raised(e) =>
          r := Failure(e);
      }
    }
  }

  /** `GeminiService()`: a `ValueError` when the key is unset or empty, before
      any model is set up; otherwise a service over a model that has been
      sent nothing. */
  method NewService(apiKey: Option<string>, respond: string -> Reply) returns (r: Result<Service, Exception>)
    ensures r.Failure? <==> apiKey.None? || apiKey.value == ""
    ensures r.Failure? ==> r.error == ValueError(KeyMissing)
    ensures r.Success? ==>
      fresh(r.value) && fresh(r.value.model) && r.value.model.respond == respond && r.value.model.prompts == []
  {
    if apiKey.None? || apiKey.value == "" {
      return Failure(ValueError(KeyMissing));
    }
    var model := new GenerativeModel(respond);
    var service := new Service(model);
    return Success(service);
  }
}
