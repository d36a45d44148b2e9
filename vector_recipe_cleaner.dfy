/**
 * `scripts/vector/clean_recipe_data.py`: the embedding text of a recipe and the loop that
 * turns every raw recipe into an index record.
 *
 * The text is the line `Recipe: <title>` followed by the optional description, ingredients,
 * instructions, tags and stats lines, in that order, joined by single newlines. A line is
 * present only when its raw value is truthy; the joins raise TypeError on a value that is not
 * iterable or holds a non-string, and a truthy `stats` that is not a dict raises AttributeError
 * at its first `.get`.
 */
module VectorRecipeCleaner {
  import opened Wrappers
  import opened Text
  import opened Json
  import opened CommonUtils
  import opened Batch
  import opened IndexedDocuments

  function Optional(line: Option<string>): seq<string> {
    if line.Some? then [line.value] else []
  }

  /** One more conditional `parts.append`, unless an earlier step or this one raised. */
  function Then(acc: Result<seq<string>>, line: Result<Option<string>>): (r: Result<seq<string>>)
    ensures acc.Ok? && line.Ok? ==> r == Ok(acc.value + Optional(line.value))
    ensures acc.Ok? && line == Ok(None) ==> r == acc
    ensures acc.Ok? && line.Ok? && line.value.Some? ==> r == Ok(acc.value + [line.value.value])
    ensures acc.Raised? ==> r == acc
    ensures acc.Ok? && line.Raised? ==> r == Raised(line.error)
    ensures r.Ok? ==> acc.Ok? && acc.value <= r.value
  {
    match acc
    case Raised(e) => Raised(e)
    case Ok(ps) =>
      match line
      case Raised(e) => Raised(e)
      case Ok(o) =>
        assert ps + [] == ps;
        if o.Some? then Ok(ps + [o.value]) else Ok(ps)
  }

  function DescriptionLine(description: Json): (r: Option<string>)
    ensures r.Some? <==> Truthy(description)
    ensures r.Some? ==> r.value == "Description: " + Show(description)
  {
    if Truthy(description) then Some("Description: " + Show(description)) else None
  }

  /** `caption + sep.join(v)` when `v` is truthy; the join raises TypeError on anything but strings. */
  function JoinedLine(caption: string, sep: string, v: Json): (r: Result<Option<string>>)
    ensures r == Ok(None) <==> !Truthy(v)
    ensures v.JList? && v.items != [] && AllStr(v.items) ==> r == Ok(Some(caption + Join(Strs(v.items), sep)))
    ensures v.JList? && !AllStr(v.items) ==> r == Raised(TypeError)
    ensures Truthy(v) && !(v.JList? || v.JStr? || v.JObj?) ==> r == Raised(TypeError)
  {
    if !Truthy(v) then Ok(None)
    else match JoinValues(sep, v)
      case Raised(e) => Raised(e)
      case Ok(s) => Ok(Some(caption + s))
  }

  /** `stats.get(key, '')` rendered by the f-string. */
  function StatValue(fields: seq<Member>, key: string): string {
    Show(Lookup(fields, key).GetOr(JStr("")))
  }

  function StatsText(fields: seq<Member>): string {
    "Prep time: " + StatValue(fields, "prep_time") + ", Cook time: " + StatValue(fields, "cook_time") +
    ", Total time: " + StatValue(fields, "total_time") + ", Servings: " + StatValue(fields, "servings")
  }

  function StatsLine(stats: Json): (r: Result<Option<string>>)
    ensures r == Ok(None) <==> !Truthy(stats)
    ensures Truthy(stats) && !stats.JObj? ==> r == Raised(AttributeError)
    ensures Truthy(stats) && stats.JObj? ==> r == Ok(Some("Stats: " + StatsText(stats.fields)))
  {
    if !Truthy(stats) then Ok(None)
    else if !stats.JObj? then Raised(AttributeError)
    else Ok(Some("Stats: " + StatsText(stats.fields)))
  }

  function Head(title: Json): string {
    "Recipe: " + Show(title)
  }

  /** The parts from the title line and the outcome of each optional line, in the order the source appends them. */
  function Assemble(head: string, description: Option<string>, ingredients: Result<Option<string>>,
      instructions: Result<Option<string>>, tags: Result<Option<string>>, stats: Result<Option<string>>): Result<seq<string>> {
    Then(Then(Then(Then(Ok([head] + Optional(description)), ingredients), instructions), tags), stats)
  }

  /** The `parts` of `build_content`, or the exception raised while building them. */
  function Parts(title: Json, description: Json, ingredients: Json, instructions: Json, tags: Json, stats: Json): Result<seq<string>> {
    Assemble(Head(title), DescriptionLine(description), JoinedLine("Ingredients: ", ", ", ingredients),
      JoinedLine("Instructions: ", " ", instructions), JoinedLine("Tags: ", ", ", tags), StatsLine(stats))
  }

  /** `"\n".join(parts)`, once the parts are built. */
  function Joined(parts: Result<seq<string>>): Result<string> {
    match parts
    case Raised(e) => Raised(e)
    case Ok(ps) => Ok(Join(ps, "\n"))
  }

  function Content(title: Json, description: Json, ingredients: Json, instructions: Json, tags: Json, stats: Json): Result<string> {
    Joined(Parts(title, description, ingredients, instructions, tags, stats))
  }

  /** The four appends of `build_content`, one after the other, give its content. */
  lemma ContentSteps(title: Json, description: Json, ingredients: Json, instructions: Json, tags: Json, stats: Json,
      withIngredients: Result<seq<string>>, withInstructions: Result<seq<string>>, withTags: Result<seq<string>>,
      withStats: Result<seq<string>>)
    requires withIngredients == Then(Ok([Head(title)] + Optional(DescriptionLine(description))),
      JoinedLine("Ingredients: ", ", ", ingredients))
    requires withInstructions == Then(withIngredients, JoinedLine("Instructions: ", " ", instructions))
    requires withTags == Then(withInstructions, JoinedLine("Tags: ", ", ", tags))
    requires withStats == Then(withTags, StatsLine(stats))
    ensures Content(title, description, ingredients, instructions, tags, stats) == Joined(withStats)
  {
  }

  /** `build_content`, appending to `parts` as the source does. */
  method BuildContent(title: Json, description: Json, ingredients: Json, instructions: Json, tags: Json, stats: Json)
    returns (r: Result<string>)
    ensures r == Content(title, description, ingredients, instructions, tags, stats)
  {
    var parts := ["Recipe: " + Show(title)];
    if Truthy(description) {
      parts := parts + ["Description: " + Show(description)];
    }
    assert parts == [Head(title)] + Optional(DescriptionLine(description));
    var next := AppendJoined(parts, "Ingredients: ", ", ", ingredients);
    ghost var withIngredients := next;
    if next.Ok? {
      next := AppendJoined(next.value, "Instructions: ", " ", instructions);
    }
    ghost var withInstructions := next;
    if next.Ok? {
      next := AppendJoined(next.value, "Tags: ", ", ", tags);
    }
    ghost var withTags := next;
    if next.Ok? {
      next := AppendStats(next.value, stats);
    }
    ContentSteps(title, description, ingredients, instructions, tags, stats, withIngredients, withInstructions, withTags, next);
    r := if next.Ok? then Ok(Join(next.value, "\n")) else Raised(next.error);
  }

  /** `if stats: parts.append(f"Stats: {stats_str}")`; a `.get` on a truthy non-dict raises. */
  method AppendStats(parts: seq<string>, stats: Json) returns (r: Result<seq<string>>)
    ensures r == Then(Ok(parts), StatsLine(stats))
  {
    if !Truthy(stats) {
      return Ok(parts);
    }
    if !stats.JObj? {
      return Raised(AttributeError);
    }
    var statsStr := "Prep time: " + Show(FieldOr(stats, "prep_time", JStr(""))) +
      ", Cook time: " + Show(FieldOr(stats, "cook_time", JStr(""))) +
      ", Total time: " + Show(FieldOr(stats, "total_time", JStr(""))) +
      ", Servings: " + Show(FieldOr(stats, "servings", JStr("")));
    assert statsStr == StatsText(stats.fields);
    return Ok(parts + ["Stats: " + statsStr]);
  }

  /** One `if v: parts.append(caption + sep.join(v))`. */
  method AppendJoined(parts: seq<string>, caption: string, sep: string, v: Json) returns (r: Result<seq<string>>)
    ensures r == Then(Ok(parts), JoinedLine(caption, sep, v))
  {
    if !Truthy(v) {
      return Ok(parts);
    }
    var joined := JoinValues(sep, v);
    if joined.Raised? {
      return Raised(joined.error);
    }
    return Ok(parts + [caption + joined.value]);
  }

  /**
   * When every step succeeds, the parts are the title line followed by each optional line
   * that is present, in the fixed order description, ingredients, instructions, tags, stats.
   */
  lemma PartsOrder(title: Json, description: Json, ingredients: Json, instructions: Json, tags: Json, stats: Json,
      ing: Option<string>, ins: Option<string>, tg: Option<string>, st: Option<string>)
    requires JoinedLine("Ingredients: ", ", ", ingredients) == Ok(ing)
    requires JoinedLine("Instructions: ", " ", instructions) == Ok(ins)
    requires JoinedLine("Tags: ", ", ", tags) == Ok(tg)
    requires StatsLine(stats) == Ok(st)
    ensures Parts(title, description, ingredients, instructions, tags, stats) ==
      Ok([Head(title)] + Optional(DescriptionLine(description)) + Optional(ing) + Optional(ins) + Optional(tg) + Optional(st))
  {
  }

  /** The parts are built exactly when every present line can be built. */
  lemma PartsSucceed(title: Json, description: Json, ingredients: Json, instructions: Json, tags: Json, stats: Json)
    ensures Parts(title, description, ingredients, instructions, tags, stats).Ok? <==>
      JoinedLine("Ingredients: ", ", ", ingredients).Ok? && JoinedLine("Instructions: ", " ", instructions).Ok? &&
      JoinedLine("Tags: ", ", ", tags).Ok? && (!Truthy(stats) || stats.JObj?)
  {
  }

  /** The text always begins with the title line, followed by a newline when anything else is present. */
  lemma ContentStartsWithTitle(title: Json, description: Json, ingredients: Json, instructions: Json, tags: Json, stats: Json, c: string)
    requires Content(title, description, ingredients, instructions, tags, stats) == Ok(c)
    ensures StartsWith(c, "Recipe: " + Show(title))
    ensures c == "Recipe: " + Show(title) || StartsWith(c, "Recipe: " + Show(title) + "\n")
  {
    AssembleHead(Head(title), DescriptionLine(description), JoinedLine("Ingredients: ", ", ", ingredients),
      JoinedLine("Instructions: ", " ", instructions), JoinedLine("Tags: ", ", ", tags), StatsLine(stats));
    JoinHead(Parts(title, description, ingredients, instructions, tags, stats).value, "\n");
  }

  /** The title line stays first whatever follows it. */
  lemma AssembleHead(head: string, description: Option<string>, ingredients: Result<Option<string>>,
      instructions: Result<Option<string>>, tags: Result<Option<string>>, stats: Result<Option<string>>)
    ensures var r := Assemble(head, description, ingredients, instructions, tags, stats);
      r.Ok? ==> |r.value| >= 1 && r.value[0] == head
  {
  }

  /** The skill level, whatever it holds, never changes the stats line. */
  lemma SkillIgnored(fields: seq<Member>, skill: Json)
    ensures StatsText([Member("skill", skill)] + fields) == StatsText(fields)
  {
    var fs := [Member("skill", skill)] + fields;
    assert fs[1..] == fields;
    assert Lookup(fs, "prep_time") == Lookup(fields, "prep_time");
    assert Lookup(fs, "cook_time") == Lookup(fields, "cook_time");
    assert Lookup(fs, "total_time") == Lookup(fields, "total_time");
    assert Lookup(fs, "servings") == Lookup(fields, "servings");
  }

  /** A missing stats key is rendered as empty text. */
  lemma MissingStatEmpty(fields: seq<Member>, key: string)
    requires Lookup(fields, key).None?
    ensures StatValue(fields, key) == ""
  {
  }

  /** The arguments `main` passes to `build_content`. */
  function RecipeContent(recipe: Json, title: Json): Result<string> {
    Content(title, FieldOr(recipe, "description", JStr("")), FieldOr(recipe, "ingredients", JList([])),
      FieldOr(recipe, "instructions", JList([])), FieldOr(recipe, "tags", JList([])), FieldOr(recipe, "stats", JObj([])))
  }

  /** The raw values `main` passes to the record for one recipe. */
  function RecipeFields(recipe: Json, title: Json, brand: Json, image: Json, url: Json): RawFields {
    RawFields(title, brand, image, Field(recipe, "created_at"), url, FieldOr(recipe, "tags", JList([])),
      JNull, JNull, JNull, JNull, JNull, JNull)
  }

  /**
   * The body of the `try` in `main` for one recipe, in the order the source evaluates it:
   * `recipe["brand"]`, `recipe["title"]`, the identifier, the content, the image, `recipe["url"]`,
   * then the record's validation.
   */
  function Process(recipe: Json): Result<IndexedDocument> {
    match Subscript(recipe, "brand")
    case Raised(e) => Raised(e)
    case Ok(brand) =>
      match Subscript(recipe, "title")
      case Raised(e) => Raised(e)
      case Ok(title) =>
        match GenerateIdOf(brand, title)
        case Raised(e) => Raised(e)
        case Ok(id) =>
          Finish(recipe, brand, title, id, RecipeContent(recipe, title))
  }

  /** The steps after the identifier: the content, the image, `recipe["url"]`, the record. */
  function Finish(recipe: Json, brand: Json, title: Json, id: string, content: Result<string>): Result<IndexedDocument> {
    match content
    case Raised(e) => Raised(e)
    case Ok(c) =>
      match FirstIfTruthy(recipe, "images")
      case Raised(e) => Raised(e)
      case Ok(image) =>
        match Subscript(recipe, "url")
        case Raised(e) => Raised(e)
        case Ok(url) => Make(id, "recipe", c, RecipeFields(recipe, title, brand, image, url))
  }

  /** One pass of the loop in `main`. */
  method ProcessOne(recipe: Json) returns (r: Result<IndexedDocument>)
    ensures r == Process(recipe)
  {
    var brand := Subscript(recipe, "brand");
    if brand.Raised? {
      return Raised(brand.error);
    }
    var title := Subscript(recipe, "title");
    if title.Raised? {
      return Raised(title.error);
    }
    var id := GenerateIdOf(brand.value, title.value);
    if id.Raised? {
      return Raised(id.error);
    }
    var content := BuildContent(title.value, FieldOr(recipe, "description", JStr("")),
      FieldOr(recipe, "ingredients", JList([])), FieldOr(recipe, "instructions", JList([])),
      FieldOr(recipe, "tags", JList([])), FieldOr(recipe, "stats", JObj([])));
    if content.Raised? {
      return Raised(content.error);
    }
    var image := FirstIfTruthy(recipe, "images");
    if image.Raised? {
      return Raised(image.error);
    }
    var url := Subscript(recipe, "url");
    if url.Raised? {
      return Raised(url.error);
    }
    r := Make(id.value, "recipe", content.value, RecipeFields(recipe, title.value, brand.value, image.value, url.value));
  }

  /** Only a dict can be processed. */
  lemma ProcessNeedsDict(recipe: Json)
    ensures Process(recipe).Ok? ==> recipe.JObj?
  {
  }

  /** The loop of `main` over this script's `Process`. */
  method ProcessAll(recipes: seq<Json>) returns (r: Result<seq<IndexedDocument>>)
    ensures r == Run(Process, recipes)
  {
    forall x: Json
      ensures Process(x).Ok? ==> x.JObj?
    {
      ProcessNeedsDict(x);
    }
    r := RunLoop(Process, recipes);
  }

  /** A recipe missing `brand`, `title` or `url` is not processed. */
  lemma MissingKeyFails(recipe: Json)
    requires recipe.JObj?
    requires Lookup(recipe.fields, "brand").None? || Lookup(recipe.fields, "title").None? ||
      Lookup(recipe.fields, "url").None?
    ensures Process(recipe).Raised?
  {
    var brand := Subscript(recipe, "brand");
    var title := Subscript(recipe, "title");
    if brand.Ok? && title.Ok? && GenerateIdOf(brand.value, title.value).Ok? {
      FinishNeedsUrl(recipe, brand.value, title.value, GenerateIdOf(brand.value, title.value).value,
        RecipeContent(recipe, title.value));
    }
  }

  lemma FinishNeedsUrl(recipe: Json, brand: Json, title: Json, id: string, content: Result<string>)
    requires recipe.JObj? && Lookup(recipe.fields, "url").None?
    ensures Finish(recipe, brand, title, id, content).Raised?
  {
  }

  lemma ProcessSteps(recipe: Json, brand: string, title: string)
    requires Subscript(recipe, "brand") == Ok(JStr(brand)) && Subscript(recipe, "title") == Ok(JStr(title))
    ensures Process(recipe) ==
      Finish(recipe, JStr(brand), JStr(title), GenerateId(brand, title), RecipeContent(recipe, JStr(title)))
  {
  }

  /**
   * The record built after the identifier, whatever the content: the recipe's tags (`[]` when
   * it has none), its first image or `None`, its `url`, and no product or article fields.
   */
  lemma FinishFields(recipe: Json, brand: string, title: string, id: string, content: Result<string>, d: IndexedDocument)
    requires Finish(recipe, JStr(brand), JStr(title), id, content) == Ok(d)
    ensures d.kind == "recipe" && d.id == id && d.title == title && d.brand == Some(brand) && content == Ok(d.content)
    ensures ValidOptStrList(FieldOr(recipe, "tags", JList([]))) == Ok(d.recipeTags)
    ensures !Truthy(Field(recipe, "tags")) && FieldOr(recipe, "tags", JList([])) == JList([]) ==> d.recipeTags == Some([])
    ensures !Truthy(Field(recipe, "images")) ==> d.image == None
    ensures Subscript(recipe, "url").Ok? && ValidOptStr(Subscript(recipe, "url").value) == Ok(d.sourcepage)
    ensures d.productCategory == None && d.productLabel == None && d.productLine == None
    ensures d.articleTheme == None && d.articleCategory == None && d.publishedAt == None
  {
    var f := RecipeFields(recipe, JStr(title), JStr(brand), FirstIfTruthy(recipe, "images").value, Subscript(recipe, "url").value);
    MakeValues(id, "recipe", content.value, f, d);
    assert ValidOptStr(JStr(brand)) == Ok(Some(brand));
    assert ValidOptStrList(JList([])) == Ok(Some([]));
  }

  /** A recipe's record: its tags, `[]` when it has none; its image and `url`; its content from `build_content`. */
  lemma ProcessTags(recipe: Json, brand: string, title: string, d: IndexedDocument)
    requires Subscript(recipe, "brand") == Ok(JStr(brand)) && Subscript(recipe, "title") == Ok(JStr(title))
    requires Process(recipe) == Ok(d)
    ensures recipe.JObj? && Subscript(recipe, "url").Ok?
    ensures d.kind == "recipe" && d.id == GenerateId(brand, title) && d.title == title && d.brand == Some(brand)
    ensures RecipeContent(recipe, JStr(title)) == Ok(d.content)
    ensures ValidOptStrList(FieldOr(recipe, "tags", JList([]))) == Ok(d.recipeTags)
    ensures Lookup(recipe.fields, "tags").None? ==> d.recipeTags == Some([])
    ensures !Truthy(Field(recipe, "images")) ==> d.image == None
    ensures ValidOptStr(Subscript(recipe, "url").value) == Ok(d.sourcepage)
  {
    ProcessSteps(recipe, brand, title);
    FinishFields(recipe, brand, title, GenerateId(brand, title), RecipeContent(recipe, JStr(title)), d);
  }
}
