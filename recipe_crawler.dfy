/**
 * `scraper/crawlers/recipe_crawler.py`: the recipe brands of the sitemap to recipe records.
 * Each brand's recipe listing (paginated with the "More" control) gives recipe cards, and each
 * card's detail page gives one recipe, or nothing when anything about the card fails. The site
 * is a parameter: the cards of each listing page after pagination and the detail page at each
 * URL; the timestamp is a parameter too.
 */
module RecipeCrawler {
  import opened Wrappers
  import opened Text
  import opened Json
  import opened Batch
  import opened BaseCrawler
  import opened CommonUtils

  // ---------------------------------------------------------------------------------------------
  // The pages

  /** A card of a listing page: its first `a[href]`. */
  datatype RecipeCard = RecipeCard(link: Option<Anchor>)

  /** An `img.coh-image` of the image carousel: its `data-src` and `src` attributes. */
  datatype Img = Img(dataSrc: Option<string>, src: Option<string>)

  /** What the crawler selects on a recipe's detail page; a page that failed to load selects nothing. */
  datatype RecipeDetail = RecipeDetail(
    h1: Option<Tag>,
    description: Option<Tag>,
    prepTime: Option<Tag>,
    cookTime: Option<Tag>,
    totalTime: Option<Tag>,
    serving: Option<Tag>,
    skillLevel: Option<Tag>,
    images: seq<Img>,
    ingredients: seq<Tag>,
    instructions: seq<Tag>,
    paragraphs: seq<Tag>,
    tags: seq<Tag>)

  /** The site as the crawler sees it. */
  datatype Web = Web(listing: string -> seq<RecipeCard>, detail: string -> RecipeDetail)

  // ---------------------------------------------------------------------------------------------
  // The records (`scraper/models.py`)

  datatype RecipeStats = RecipeStats(
    prepTime: Option<string>,
    cookTime: Option<string>,
    totalTime: Option<string>,
    servings: Option<string>,
    skill: Option<string>)

  /**
   * A recipe. The images are `list(image_set)`: which order a set gives its elements in is not
   * specified, so the record holds the set.
   */
  datatype Recipe = Recipe(
    brand: string,
    title: string,
    url: string,
    images: set<string>,
    description: Option<string>,
    stats: RecipeStats,
    ingredients: seq<string>,
    instructions: seq<string>,
    tags: seq<string>,
    createdAt: string)

  // ---------------------------------------------------------------------------------------------
  // The images

  /** `img.get("data-src") or img.get("src")`: a missing or empty `data-src` falls back to `src`. */
  function ImageSource(img: Img): Option<string> {
    if img.dataSrc.Some? && img.dataSrc.value != "" then img.dataSrc else img.src
  }

  /** `src` is there and not empty. */
  predicate Usable(src: Option<string>) {
    src.Some? && src.value != ""
  }

  /** The carousel image shows `u`: its `data-src`, or its `src` when it has no usable `data-src`. */
  predicate Shows(img: Img, u: string) {
    u != "" && (img.dataSrc == Some(u) || ((img.dataSrc == None || img.dataSrc == Some("")) && img.src == Some(u)))
  }

  /** The set of image sources of the carousel. */
  function ImageSet(imgs: seq<Img>): (s: set<string>)
    ensures |s| <= |imgs|
    decreases |imgs|
  {
    if imgs == [] then {}
    else
      var s := ImageSet(imgs[..|imgs| - 1]);
      var src := ImageSource(imgs[|imgs| - 1]);
      if Usable(src) then s + {src.value} else s
  }

  /** An image is kept exactly when some carousel image shows it; nothing else is kept. */
  lemma {:induction false} ImageSetMember(imgs: seq<Img>, u: string)
    ensures u in ImageSet(imgs) <==> exists i :: 0 <= i < |imgs| && Shows(imgs[i], u)
    decreases |imgs|
  {
    if imgs != [] {
      var init := imgs[..|imgs| - 1];
      ImageSetMember(init, u);
      if u in ImageSet(init) {
        var i :| 0 <= i < |init| && Shows(init[i], u);
        assert imgs[i] == init[i];
      }
      forall i | 0 <= i < |init| && Shows(imgs[i], u)
        ensures u in ImageSet(init)
      {
        assert init[i] == imgs[i];
      }
    }
  }

  /** The loop over the carousel images, adding each usable source not seen yet. */
  method CollectImageSet(imgs: seq<Img>) returns (imageSet: set<string>)
    ensures imageSet == ImageSet(imgs)
  {
    imageSet := {};
    for i := 0 to |imgs|
      invariant imageSet == ImageSet(imgs[..i])
    {
      assert imgs[..i + 1][..i] == imgs[..i];
      var src := ImageSource(imgs[i]);
      if Usable(src) && src.value !in imageSet {
        imageSet := imageSet + {src.value};
      }
    }
    assert imgs[..|imgs|] == imgs;
  }

  // ---------------------------------------------------------------------------------------------
  // The other fields

  /** The heading's text, `"Untitled"` when the page has no `h1`. */
  function Title(h1: Option<Tag>): (r: string)
    ensures h1.None? ==> r == "Untitled"
    ensures h1.Some? ==> r == StrippedText(h1.value.fragments)
  {
    if h1.Some? then GetText(h1.value) else "Untitled"
  }

  /** `clean_text(self._text(soup, selector))`. */
  function Stat(tag: Option<Tag>): Option<string> {
    CleanText(TextOf(tag))
  }

  /** A statistic is missing exactly when its element is, or its text is blank; otherwise it is clean. */
  lemma StatSpec(tag: Option<Tag>)
    ensures Stat(tag).None? <==> tag.None? || GetText(tag.value) == ""
    ensures Stat(tag).Some? ==> Trimmed(Stat(tag).value, Space) && Collapsed(Stat(tag).value, Space, ' ')
    ensures Stat(tag).Some? ==> Stat(tag).value == Join(Words(GetText(tag.value), Space), " ")
  {
  }

  function StatsOf(d: RecipeDetail): RecipeStats {
    RecipeStats(Stat(d.prepTime), Stat(d.cookTime), Stat(d.totalTime), Stat(d.serving), Stat(d.skillLevel))
  }

  /**
   * The instruction paragraphs after the "Instructions" heading; when there are none, the
   * paragraphs of the article's columns instead.
   */
  function Instructions(d: RecipeDetail): (r: seq<string>)
    ensures d.instructions != [] ==> r == Texts(d.instructions)
    ensures d.instructions == [] ==> r == Texts(d.paragraphs)
    ensures r == [] <==> d.instructions == [] && d.paragraphs == []
  {
    if d.instructions != [] then Texts(d.instructions) else Texts(d.paragraphs)
  }

  /** The recipe a detail page gives, once the brand and the detail URL are known. */
  function Assemble(brand: string, url: string, d: RecipeDetail, now: string): Recipe {
    Recipe(brand, Title(d.h1), url, ImageSet(d.images), TextOf(d.description), StatsOf(d),
      Texts(d.ingredients), Instructions(d), Texts(d.tags), now)
  }

  // ---------------------------------------------------------------------------------------------
  // One recipe

  /**
   * `parse_recipe_page(card, brand)`. A card without a link makes the subscript of `None` raise
   * before `recipe_url` is bound, and then the handler's own message raises UnboundLocalError.
   * A brand that is not a string does not validate, and the handler returns `None`.
   */
  function ParseRecipe(card: RecipeCard, brand: Json, web: Web, now: string): (r: Result<Option<Recipe>>)
    ensures r.Raised? <==> card.link.None?
    ensures r.Raised? ==> r.error == UnboundLocalError
    ensures r == Ok(None) <==> card.link.Some? && !brand.JStr?
    ensures r.Ok? && r.value.Some? ==>
      && r.value.value.url == Resolve(card.link.value.href)
      && r.value.value.brand == brand.s
      && r.value.value.createdAt == now
  {
    match card.link
    case None => Raised(UnboundLocalError)
    case Some(a) =>
      var url := Resolve(a.href);
      if brand.JStr? then Ok(Some(Assemble(brand.s, url, web.detail(url), now))) else Ok(None)
  }

  /** What the fields of a parsed recipe come from on its detail page. */
  lemma RecipeFields(card: RecipeCard, brand: Json, web: Web, now: string, u: string)
    requires ParseRecipe(card, brand, web, now).Ok? && ParseRecipe(card, brand, web, now).value.Some?
    ensures var r, d := ParseRecipe(card, brand, web, now).value.value, web.detail(Resolve(card.link.value.href));
      && (d.h1.None? ==> r.title == "Untitled")
      && (u in r.images <==> exists i :: 0 <= i < |d.images| && Shows(d.images[i], u))
      && (r.description.None? <==> d.description.None?)
      && |r.ingredients| == |d.ingredients| && |r.tags| == |d.tags|
      && (r.instructions == [] <==> d.instructions == [] && d.paragraphs == [])
  {
    ImageSetMember(web.detail(Resolve(card.link.value.href)).images, u);
  }

  /** The body of `parse_recipe_page`, with its image loop. */
  method ParseRecipePage(card: RecipeCard, brand: Json, web: Web, now: string) returns (r: Result<Option<Recipe>>)
    ensures r == ParseRecipe(card, brand, web, now)
  {
    if card.link.None? {
      return Raised(UnboundLocalError);
    }
    var url := Resolve(card.link.value.href);
    var d := web.detail(url);
    var title := if d.h1.Some? then GetText(d.h1.value) else "Untitled";
    var description := TextOf(d.description);
    var stats := RecipeStats(Stat(d.prepTime), Stat(d.cookTime), Stat(d.totalTime), Stat(d.serving), Stat(d.skillLevel));
    var images := CollectImageSet(d.images);
    var ingredients := Texts(d.ingredients);
    var instructions := Texts(d.instructions);
    if instructions == [] {
      instructions := Texts(d.paragraphs);
    }
    var tags := Texts(d.tags);
    if !brand.JStr? {
      return Ok(None);
    }
    r := Ok(Some(Recipe(brand.s, title, url, images, description, stats, ingredients, instructions, tags, now)));
  }

  // ---------------------------------------------------------------------------------------------
  // One recipe brand

  /** The outcomes of the cards' tasks, in card order. */
  function Outcomes(cards: seq<RecipeCard>, brand: Json, web: Web, now: string): (rs: seq<Result<Option<Recipe>>>)
    ensures |rs| == |cards| && forall i :: 0 <= i < |cards| ==> rs[i] == ParseRecipe(cards[i], brand, web, now)
  {
    Map((c: RecipeCard) => ParseRecipe(c, brand, web, now), cards)
  }

  /** `[r for r in results if isinstance(r, Recipe)]`: exceptions and `None` are dropped. */
  function CardRecipes(cards: seq<RecipeCard>, brand: Json, web: Web, now: string): seq<Recipe> {
    Present(Successes(Outcomes(cards, brand, web, now)))
  }

  /** A recipe is kept exactly when some card gives it. */
  lemma CardRecipesMember(cards: seq<RecipeCard>, brand: Json, web: Web, now: string, r: Recipe)
    ensures r in CardRecipes(cards, brand, web, now) <==> exists i :: 0 <= i < |cards| && ParseRecipe(cards[i], brand, web, now) == Ok(Some(r))
  {
    var rs := Outcomes(cards, brand, web, now);
    PresentMember(Successes(rs), r);
    SuccessesMember(rs, Some(r));
  }

  /** A brand whose name is not a string gives no recipes at all. */
  lemma NoStringBrandNoRecipes(cards: seq<RecipeCard>, brand: Json, web: Web, now: string)
    requires !brand.JStr?
    ensures CardRecipes(cards, brand, web, now) == []
  {
    if CardRecipes(cards, brand, web, now) != [] {
      var r := CardRecipes(cards, brand, web, now)[0];
      CardRecipesMember(cards, brand, web, now, r);
    }
  }

  /** One more card: its recipe, if it gives one, comes last. */
  lemma CardRecipesSnoc(cards: seq<RecipeCard>, i: nat, brand: Json, web: Web, now: string, p: Result<Option<Recipe>>)
    requires i < |cards| && p == ParseRecipe(cards[i], brand, web, now)
    ensures CardRecipes(cards[..i + 1], brand, web, now) ==
      CardRecipes(cards[..i], brand, web, now) + (if p.Ok? && p.value.Some? then [p.value.value] else [])
  {
    var rs, rs1 := Outcomes(cards[..i], brand, web, now), Outcomes(cards[..i + 1], brand, web, now);
    assert rs1 == rs + [p];
    SuccessesConcat(rs, [p]);
    var one := [p];
    assert one[..0] == [];
    var kept := Successes(one);
    assert kept == if p.Ok? then [p.value] else [];
    PresentConcat(Successes(rs), kept);
    if p.Ok? {
      var k := [p.value];
      assert k[..0] == [];
    }
  }

  /** The tasks of one listing page (gathered concurrently in the source, one after another here). */
  method ParseCards(cards: seq<RecipeCard>, brand: Json, web: Web, now: string) returns (found: seq<Recipe>)
    ensures found == CardRecipes(cards, brand, web, now)
  {
    found := [];
    for i := 0 to |cards|
      invariant found == CardRecipes(cards[..i], brand, web, now)
    {
      var p := ParseRecipePage(cards[i], brand, web, now);
      CardRecipesSnoc(cards, i, brand, web, now, p);
      if p.Ok? && p.value.Some? {
        found := found + [p.value.value];
      }
    }
    assert cards[..|cards|] == cards;
  }

  /**
   * The cards of a brand's listing. A URL that is not a string makes the browser's navigation
   * raise inside `load_page_content`, which then returns the empty page: no cards.
   */
  function Listing(url: Json, web: Web): seq<RecipeCard> {
    if url.JStr? then web.listing(url.s) else []
  }

  /** One entry of the sitemap's recipes: `recipe["brand"]`, `recipe["url"]`, then its cards. */
  function SeedRecipes(seed: Json, web: Web, now: string): (r: Result<seq<Recipe>>)
    ensures r.Ok? <==> Subscript(seed, "brand").Ok? && Subscript(seed, "url").Ok?
    ensures r.Ok? ==> r.value == CardRecipes(Listing(Field(seed, "url"), web), Field(seed, "brand"), web, now)
  {
    match Subscript(seed, "brand")
    case Raised(e) => Raised(e)
    case Ok(brand) =>
      match Subscript(seed, "url")
      case Raised(e) => Raised(e)
      case Ok(url) => Ok(CardRecipes(Listing(url, web), brand, web, now))
  }

  /** The body of the loop of `run` for one entry. */
  method CrawlSeed(seed: Json, web: Web, now: string) returns (r: Result<seq<Recipe>>)
    ensures r == SeedRecipes(seed, web, now)
  {
    var brand := Subscript(seed, "brand");
    if brand.Raised? {
      return Raised(brand.error);
    }
    var url := Subscript(seed, "url");
    if url.Raised? {
      return Raised(url.error);
    }
    var cards := Listing(url.value, web);
    var found := ParseCards(cards, brand.value, web, now);
    r := Ok(found);
  }

  // ---------------------------------------------------------------------------------------------
  // The run

  /** The loop body of `run` for each entry. */
  function SeedStep(web: Web, now: string): Json -> Result<seq<Recipe>> {
    (seed: Json) => SeedRecipes(seed, web, now)
  }

  /** `all_recipes`: each entry's recipes in turn, up to the first entry that raises. */
  function AllRecipes(seeds: seq<Json>, web: Web, now: string): Result<seq<Recipe>> {
    Chain(SeedStep(web, now), seeds)
  }

  /** The run gets through exactly when every entry has a brand and a URL. */
  lemma AllRecipesOk(seeds: seq<Json>, web: Web, now: string)
    ensures AllRecipes(seeds, web, now).Ok? <==>
      forall i :: 0 <= i < |seeds| ==> Subscript(seeds[i], "brand").Ok? && Subscript(seeds[i], "url").Ok?
  {
    ChainOk(SeedStep(web, now), seeds);
  }

  /** The recipes of consecutive entries come one after the other, in entry order. */
  lemma AllRecipesConcat(a: seq<Json>, b: seq<Json>, web: Web, now: string)
    requires AllRecipes(a, web, now).Ok? && AllRecipes(b, web, now).Ok?
    ensures AllRecipes(a + b, web, now) == Ok(AllRecipes(a, web, now).value + AllRecipes(b, web, now).value)
  {
    ChainConcat(SeedStep(web, now), a, b);
  }

  /** The first entry without a brand or a URL ends the run with its exception. */
  lemma AllRecipesFirstFailure(seeds: seq<Json>, web: Web, now: string, i: nat)
    requires i < |seeds| && SeedRecipes(seeds[i], web, now).Raised?
    requires forall j :: 0 <= j < i ==> SeedRecipes(seeds[j], web, now).Ok?
    ensures AllRecipes(seeds, web, now) == Raised(SeedRecipes(seeds[i], web, now).error)
  {
    ChainFirstFailure(SeedStep(web, now), seeds, i);
  }

  /** A saved recipe is one some entry's cards give. */
  lemma AllRecipesMember(seeds: seq<Json>, web: Web, now: string, r: Recipe)
    requires AllRecipes(seeds, web, now).Ok?
    ensures r in AllRecipes(seeds, web, now).value <==>
      exists i :: 0 <= i < |seeds| && SeedRecipes(seeds[i], web, now).Ok? && r in SeedRecipes(seeds[i], web, now).value
  {
    ChainMember(SeedStep(web, now), seeds, r);
  }

  /**
   * `run()` on the sitemap read from its file: `sitemap.get("recipes", [])`, its entries in order,
   * and the recipes file only when some recipe was found. An exception ends the run with nothing written.
   */
  function Crawl(sitemap: Json, web: Web, now: string): (r: Result<Option<seq<Recipe>>>)
    ensures r.Ok? && r.value.Some? ==> r.value.value != []
  {
    match Get(sitemap, "recipes", JList([]))
    case Raised(e) => Raised(e)
    case Ok(recipes) =>
      match Iterate(recipes)
      case Raised(e) => Raised(e)
      case Ok(seeds) =>
        match AllRecipes(seeds, web, now)
        case Raised(e) => Raised(e)
        case Ok(all) => Ok(SaveIfAny(all))
  }

  /** A sitemap without recipe entries writes nothing and raises nothing. */
  lemma NoSeedsNothingSaved(fields: seq<Member>, web: Web, now: string)
    requires Lookup(fields, "recipes").None?
    ensures Crawl(JObj(fields), web, now) == Ok(None)
  {
  }

  /**
   * With a list of entries that all get through, the file is written exactly when some recipe
   * was found, and it holds exactly the recipes some entry's cards give.
   */
  lemma SavedRecipes(fields: seq<Member>, seeds: seq<Json>, web: Web, now: string, r: Recipe)
    requires Lookup(fields, "recipes") == Some(JList(seeds)) && AllRecipes(seeds, web, now).Ok?
    ensures Crawl(JObj(fields), web, now).Ok?
    ensures Crawl(JObj(fields), web, now).value.None? <==> AllRecipes(seeds, web, now).value == []
    ensures Crawl(JObj(fields), web, now).value.Some? ==>
      (r in Crawl(JObj(fields), web, now).value.value <==>
        exists i :: 0 <= i < |seeds| && SeedRecipes(seeds[i], web, now).Ok? && r in SeedRecipes(seeds[i], web, now).value)
  {
    AllRecipesMember(seeds, web, now, r);
  }

  /** The loop of `run` over the recipe entries, extending `all_recipes`. */
  method CrawlAll(seeds: seq<Json>, web: Web, now: string) returns (r: Result<seq<Recipe>>)
    ensures r == AllRecipes(seeds, web, now)
  {
    var all: seq<Recipe> := [];
    for i := 0 to |seeds|
      invariant AllRecipes(seeds[..i], web, now) == Ok(all)
    {
      var more := CrawlSeed(seeds[i], web, now);
      assert more == SeedStep(web, now)(seeds[i]);
      ChainSnoc(SeedStep(web, now), seeds, i, all);
      if more.Raised? {
        ChainStops(SeedStep(web, now), seeds, i);
        return Raised(more.error);
      }
      all := all + more.value;
    }
    assert seeds[..|seeds|] == seeds;
    r := Ok(all);
  }

  /** `run()`: the sitemap's recipe entries, then the recipes file. */
  method Run(sitemap: Json, web: Web, now: string) returns (r: Result<Option<seq<Recipe>>>)
    ensures r == Crawl(sitemap, web, now)
  {
    var recipes := Get(sitemap, "recipes", JList([]));
    if recipes.Raised? {
      return Raised(recipes.error);
    }
    var seeds := Iterate(recipes.value);
    if seeds.Raised? {
      return Raised(seeds.error);
    }
    var all := CrawlAll(seeds.value, web, now);
    if all.Raised? {
      return Raised(all.error);
    }
    r := Ok(SaveIfAny(all.value));
  }
}
