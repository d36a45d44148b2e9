/**
 * `scraper/crawlers/article_crawler.py`: the article categories of the sitemap to article
 * records. Each category's listing (paginated with the "More" control) gives article cards, and
 * each card's detail page gives one article, or nothing when anything about the card fails. The
 * site is a parameter: the cards of each listing page after pagination and the detail page at
 * each URL; the timestamp is a parameter too.
 */
module ArticleCrawler {
  import opened Wrappers
  import opened Text
  import opened Json
  import opened Batch
  import opened BaseCrawler
  import opened CommonUtils

  // ---------------------------------------------------------------------------------------------
  // The pages

  /** A card of a listing page: its first `a[href]`. */
  datatype ArticleCard = ArticleCard(link: Option<Anchor>)

  /**
   * The page's first `h1`, and the `<p>` children of its nearest enclosing `div`
   * (`None` when no `div` encloses it).
   */
  datatype Heading = Heading(text: Tag, divParagraphs: Option<seq<Tag>>)

  /** What the crawler selects on an article's detail page; a page that failed to load selects nothing. */
  datatype ArticleDetail = ArticleDetail(h1: Option<Heading>, date: Option<Tag>)

  /** The site as the crawler sees it. */
  datatype Web = Web(listing: string -> seq<ArticleCard>, detail: string -> ArticleDetail)

  /**
   * The record of `scraper/models.py`. The publication date is stored under the field name
   * `punlished_at`, spelled as the record spells it.
   */
  datatype Article = Article(
    title: string,
    url: string,
    category: Option<string>,
    content: Option<string>,
    punlishedAt: Option<string>,
    createdAt: string)

  // ---------------------------------------------------------------------------------------------
  // The content

  predicate NonBlank(p: Tag) {
    GetText(p) != ""
  }

  /** The texts of the paragraphs that are not blank, in document order. */
  function Paragraphs(ps: seq<Tag>): (r: seq<string>)
    ensures r == [] <==> forall i :: 0 <= i < |ps| ==> !NonBlank(ps[i])
  {
    MapFilter(NonBlank, GetText, ps)
  }

  /** `clean_text("\n".join(paragraphs))`. */
  function Content(ps: seq<Tag>): Option<string> {
    CleanText(Some(Join(Paragraphs(ps), "\n")))
  }

  /** The non-blank characters of the parts, in order. */
  function Solids(parts: seq<string>): seq<char> {
    FlatMap((p: string) => Outside(p, Space), parts)
  }

  /** Joining with a blank separator keeps exactly the non-blank characters of the parts, in order. */
  lemma {:induction false} OutsideJoin(parts: seq<string>, sep: string)
    requires Outside(sep, Space) == []
    ensures Outside(Join(parts, sep), Space) == Solids(parts)
    decreases |parts|
  {
    var f := (p: string) => Outside(p, Space);
    if |parts| == 1 {
      assert parts == [] + [parts[0]];
      FlatMapSnoc(f, [], parts[0]);
    } else if |parts| > 1 {
      var init, x := parts[..|parts| - 1], parts[|parts| - 1];
      assert parts == init + [x];
      JoinSnoc(init, x, sep);
      OutsideJoin(init, sep);
      OutsideConcat(Join(init, sep) + sep, x, Space);
      OutsideConcat(Join(init, sep), sep, Space);
      FlatMapSnoc(f, init, x);
    }
  }

  /**
   * The content is missing exactly when no paragraph has text; otherwise it is clean, and it
   * holds exactly the non-blank characters of the non-blank paragraphs, in order.
   */
  lemma ContentSpec(ps: seq<Tag>)
    ensures Content(ps).None? <==> forall i :: 0 <= i < |ps| ==> !NonBlank(ps[i])
    ensures Content(ps).Some? ==>
      && Trimmed(Content(ps).value, Space) && Collapsed(Content(ps).value, Space, ' ')
      && Outside(Content(ps).value, Space) == Solids(Paragraphs(ps))
    ensures Content(ps).Some? ==> Content(ps).value == Join(Words(Join(Paragraphs(ps), "\n"), Space), " ")
  {
    ContentMissing(ps);
    var j := Join(Paragraphs(ps), "\n");
    assert Content(ps) == CleanText(Some(j));
    if Content(ps).Some? {
      JoinedSolids(Paragraphs(ps));
    }
  }

  /** The newline separator adds no non-blank character. */
  lemma JoinedSolids(paras: seq<string>)
    ensures Outside(Join(paras, "\n"), Space) == Solids(paras)
  {
    assert Outside("\n", Space) == [] by {
      OutsideAllIn("\n", Space);
    }
    OutsideJoin(paras, "\n");
  }

  /** Every kept paragraph has text, so the joined text is empty only when none is kept. */
  lemma ContentMissing(ps: seq<Tag>)
    ensures Content(ps).None? <==> Paragraphs(ps) == []
  {
    var paras := Paragraphs(ps);
    if paras != [] {
      MapFilterMember(NonBlank, GetText, ps, paras[0]);
      JoinEnds(paras, "\n");
    }
  }

  // ---------------------------------------------------------------------------------------------
  // One article

  /** The article a detail page with a heading inside a `div` gives. */
  function Assemble(heading: Tag, ps: seq<Tag>, date: Option<Tag>, url: string, category: Option<string>, now: string): Article {
    Article(GetText(heading), url, category, Content(ps), TextOf(date), now)
  }

  /**
   * `parse_article_page(card, category)`. A card without a link makes the subscript of `None`
   * raise before `article_url` is bound, and then the handler's own message raises
   * UnboundLocalError. A page without an `h1`, or whose `h1` is in no `div`, makes the
   * paragraph lookup raise, and a category that is neither `None` nor a string does not
   * validate: in both cases the handler returns `None`.
   */
  function ParseArticle(card: ArticleCard, category: Json, web: Web, now: string): (r: Result<Option<Article>>)
    ensures r.Raised? <==> card.link.None?
    ensures r.Raised? ==> r.error == UnboundLocalError
    ensures r.Ok? && r.value.Some? ==>
      var d := web.detail(Resolve(card.link.value.href));
      && d.h1.Some? && d.h1.value.divParagraphs.Some?
      && (category.JNull? || category.JStr?)
      && r.value.value.url == Resolve(card.link.value.href)
      && r.value.value.createdAt == now
  {
    match card.link
    case None => Raised(UnboundLocalError)
    case Some(a) =>
      var url := Resolve(a.href);
      var d := web.detail(url);
      if d.h1.None? || d.h1.value.divParagraphs.None? then Ok(None)
      else
        match ValidOptStr(category)
        case Raised(_) => Ok(None)
        case Ok(c) => Ok(Some(Assemble(d.h1.value.text, d.h1.value.divParagraphs.value, d.date, url, c, now)))
  }

  /** A card with a link gives an article exactly when its page has a heading in a `div` and the category validates. */
  lemma ArticleGiven(card: ArticleCard, category: Json, web: Web, now: string)
    requires card.link.Some?
    ensures var d := web.detail(Resolve(card.link.value.href));
      ParseArticle(card, category, web, now).value.Some? <==>
        d.h1.Some? && d.h1.value.divParagraphs.Some? && (category.JNull? || category.JStr?)
  {
  }

  /** The fields of an article: the heading's text, the seed's category, the date's text. */
  lemma ArticleFields(card: ArticleCard, category: Json, web: Web, now: string)
    requires ParseArticle(card, category, web, now).Ok? && ParseArticle(card, category, web, now).value.Some?
    ensures var r, d := ParseArticle(card, category, web, now).value.value, web.detail(Resolve(card.link.value.href));
      && r.title == GetText(d.h1.value.text)
      && r.category == (if category.JStr? then Some(category.s) else None)
      && (r.punlishedAt.None? <==> d.date.None?)
      && r.content == Content(d.h1.value.divParagraphs.value)
  {
    var url := Resolve(card.link.value.href);
    var d := web.detail(url);
    var c := ValidOptStr(category);
    assert c.Ok?;
    assert ParseArticle(card, category, web, now).value.value ==
      Assemble(d.h1.value.text, d.h1.value.divParagraphs.value, d.date, url, c.value, now);
    CategoryValue(category);
  }

  /** A category that validates is kept as its string, or as `None` for JSON `null`. */
  lemma CategoryValue(category: Json)
    requires ValidOptStr(category).Ok?
    ensures ValidOptStr(category).value == (if category.JStr? then Some(category.s) else None)
  {
  }

  /** The body of `parse_article_page`, with its paragraph filter. */
  method ParseArticlePage(card: ArticleCard, category: Json, web: Web, now: string) returns (r: Result<Option<Article>>)
    ensures r == ParseArticle(card, category, web, now)
  {
    if card.link.None? {
      return Raised(UnboundLocalError);
    }
    var url := Resolve(card.link.value.href);
    var d := web.detail(url);
    if d.h1.None? || d.h1.value.divParagraphs.None? {
      return Ok(None);
    }
    var title := GetText(d.h1.value.text);
    var date := TextOf(d.date);
    var content := Content(d.h1.value.divParagraphs.value);
    var c := ValidOptStr(category);
    if c.Raised? {
      return Ok(None);
    }
    r := Ok(Some(Article(title, url, c.value, content, date, now)));
  }

  // ---------------------------------------------------------------------------------------------
  // One category

  /** The outcomes of the cards' tasks, in card order. */
  function Outcomes(cards: seq<ArticleCard>, category: Json, web: Web, now: string): (rs: seq<Result<Option<Article>>>)
    ensures |rs| == |cards| && forall i :: 0 <= i < |cards| ==> rs[i] == ParseArticle(cards[i], category, web, now)
  {
    Map((c: ArticleCard) => ParseArticle(c, category, web, now), cards)
  }

  /** `[r for r in results if isinstance(r, Article)]`: exceptions and `None` are dropped. */
  function CardArticles(cards: seq<ArticleCard>, category: Json, web: Web, now: string): seq<Article> {
    Present(Successes(Outcomes(cards, category, web, now)))
  }

  /** An article is kept exactly when some card gives it. */
  lemma CardArticlesMember(cards: seq<ArticleCard>, category: Json, web: Web, now: string, a: Article)
    ensures a in CardArticles(cards, category, web, now) <==> exists i :: 0 <= i < |cards| && ParseArticle(cards[i], category, web, now) == Ok(Some(a))
  {
    var rs := Outcomes(cards, category, web, now);
    PresentMember(Successes(rs), a);
    SuccessesMember(rs, Some(a));
  }

  /** A category that is neither `None` nor a string gives no articles at all. */
  lemma InvalidCategoryNoArticles(cards: seq<ArticleCard>, category: Json, web: Web, now: string)
    requires !category.JNull? && !category.JStr?
    ensures CardArticles(cards, category, web, now) == []
  {
    if CardArticles(cards, category, web, now) != [] {
      var a := CardArticles(cards, category, web, now)[0];
      CardArticlesMember(cards, category, web, now, a);
    }
  }

  /** One more card: its article, if it gives one, comes last. */
  lemma CardArticlesSnoc(cards: seq<ArticleCard>, i: nat, category: Json, web: Web, now: string, p: Result<Option<Article>>)
    requires i < |cards| && p == ParseArticle(cards[i], category, web, now)
    ensures CardArticles(cards[..i + 1], category, web, now) ==
      CardArticles(cards[..i], category, web, now) + (if p.Ok? && p.value.Some? then [p.value.value] else [])
  {
    var rs, rs1 := Outcomes(cards[..i], category, web, now), Outcomes(cards[..i + 1], category, web, now);
    assert rs1 == rs + [p];
    SuccessesConcat(rs, [p]);
    var one := [p];
    assert one[..0] == [];
    var kept := Successes(one);
    assert kept == if p.Ok? then [p.value] else [];
    PresentConcat(Successes(rs), kept);
    if p.Ok? {
      var k := [p.value];
      assert k[..0] == [];
    }
  }

  /** The tasks of one listing page (gathered concurrently in the source, one after another here). */
  method ParseCards(cards: seq<ArticleCard>, category: Json, web: Web, now: string) returns (found: seq<Article>)
    ensures found == CardArticles(cards, category, web, now)
  {
    found := [];
    for i := 0 to |cards|
      invariant found == CardArticles(cards[..i], category, web, now)
    {
      var p := ParseArticlePage(cards[i], category, web, now);
      CardArticlesSnoc(cards, i, category, web, now, p);
      if p.Ok? && p.value.Some? {
        found := found + [p.value.value];
      }
    }
    assert cards[..|cards|] == cards;
  }

  /**
   * The cards of a category's listing. A URL that is not a string makes the browser's
   * navigation raise inside `load_page_content`, which then returns the empty page: no cards.
   */
  function Listing(url: Json, web: Web): seq<ArticleCard> {
    if url.JStr? then web.listing(url.s) else []
  }

  /** One entry of the sitemap's articles: `article["title"]`, `article["url"]`, then its cards. */
  function SeedArticles(seed: Json, web: Web, now: string): (r: Result<seq<Article>>)
    ensures r.Ok? <==> Subscript(seed, "title").Ok? && Subscript(seed, "url").Ok?
    ensures r.Ok? ==> r.value == CardArticles(Listing(Field(seed, "url"), web), Field(seed, "title"), web, now)
  {
    match Subscript(seed, "title")
    case Raised(e) => Raised(e)
    case Ok(category) =>
      match Subscript(seed, "url")
      case Raised(e) => Raised(e)
      case Ok(url) => Ok(CardArticles(Listing(url, web), category, web, now))
  }

  /** Every article of an entry carries the entry's title as its category. */
  lemma SeedCategory(seed: Json, web: Web, now: string, a: Article)
    requires SeedArticles(seed, web, now).Ok? && a in SeedArticles(seed, web, now).value
    ensures a.category == (if Field(seed, "title").JStr? then Some(Field(seed, "title").s) else None)
  {
    var cards := Listing(Field(seed, "url"), web);
    CardArticlesMember(cards, Field(seed, "title"), web, now, a);
    var i :| 0 <= i < |cards| && ParseArticle(cards[i], Field(seed, "title"), web, now) == Ok(Some(a));
    ArticleFields(cards[i], Field(seed, "title"), web, now);
  }

  /** The body of the loop of `run` for one entry. */
  method CrawlSeed(seed: Json, web: Web, now: string) returns (r: Result<seq<Article>>)
    ensures r == SeedArticles(seed, web, now)
  {
    var category := Subscript(seed, "title");
    if category.Raised? {
      return Raised(category.error);
    }
    var url := Subscript(seed, "url");
    if url.Raised? {
      return Raised(url.error);
    }
    var cards := Listing(url.value, web);
    var found := ParseCards(cards, category.value, web, now);
    r := Ok(found);
  }

  // ---------------------------------------------------------------------------------------------
  // The run

  /** The loop body of `run` for each entry. */
  function SeedStep(web: Web, now: string): Json -> Result<seq<Article>> {
    (seed: Json) => SeedArticles(seed, web, now)
  }

  /** `all_articles`: each entry's articles in turn, up to the first entry that raises. */
  function AllArticles(seeds: seq<Json>, web: Web, now: string): Result<seq<Article>> {
    Chain(SeedStep(web, now), seeds)
  }

  /** The run gets through exactly when every entry has a title and a URL. */
  lemma AllArticlesOk(seeds: seq<Json>, web: Web, now: string)
    ensures AllArticles(seeds, web, now).Ok? <==>
      forall i :: 0 <= i < |seeds| ==> Subscript(seeds[i], "title").Ok? && Subscript(seeds[i], "url").Ok?
  {
    ChainOk(SeedStep(web, now), seeds);
  }

  /** The articles of consecutive entries come one after the other, in entry order. */
  lemma AllArticlesConcat(a: seq<Json>, b: seq<Json>, web: Web, now: string)
    requires AllArticles(a, web, now).Ok? && AllArticles(b, web, now).Ok?
    ensures AllArticles(a + b, web, now) == Ok(AllArticles(a, web, now).value + AllArticles(b, web, now).value)
  {
    ChainConcat(SeedStep(web, now), a, b);
  }

  /** The first entry without a title or a URL ends the run with its exception. */
  lemma AllArticlesFirstFailure(seeds: seq<Json>, web: Web, now: string, i: nat)
    requires i < |seeds| && SeedArticles(seeds[i], web, now).Raised?
    requires forall j :: 0 <= j < i ==> SeedArticles(seeds[j], web, now).Ok?
    ensures AllArticles(seeds, web, now) == Raised(SeedArticles(seeds[i], web, now).error)
  {
    ChainFirstFailure(SeedStep(web, now), seeds, i);
  }

  /** A saved article is one some entry's cards give. */
  lemma AllArticlesMember(seeds: seq<Json>, web: Web, now: string, a: Article)
    requires AllArticles(seeds, web, now).Ok?
    ensures a in AllArticles(seeds, web, now).value <==>
      exists i :: 0 <= i < |seeds| && SeedArticles(seeds[i], web, now).Ok? && a in SeedArticles(seeds[i], web, now).value
  {
    ChainMember(SeedStep(web, now), seeds, a);
  }

  /**
   * `run()` on the sitemap read from its file: `sitemap.get("articles", [])`, its entries in
   * order, and the articles file only when some article was found. An exception ends the run
   * with nothing written.
   */
  function Crawl(sitemap: Json, web: Web, now: string): (r: Result<Option<seq<Article>>>)
    ensures r.Ok? && r.value.Some? ==> r.value.value != []
  {
    match Get(sitemap, "articles", JList([]))
    case Raised(e) => Raised(e)
    case Ok(articles) =>
      match Iterate(articles)
      case Raised(e) => Raised(e)
      case Ok(seeds) =>
        match AllArticles(seeds, web, now)
        case Raised(e) => Raised(e)
        case Ok(all) => Ok(SaveIfAny(all))
  }

  /** A sitemap without article entries writes nothing and raises nothing. */
  lemma NoSeedsNothingSaved(fields: seq<Member>, web: Web, now: string)
    requires Lookup(fields, "articles").None?
    ensures Crawl(JObj(fields), web, now) == Ok(None)
  {
  }

  /**
   * With a list of entries that all get through, the file is written exactly when some article
   * was found, and it holds exactly the articles some entry's cards give.
   */
  lemma SavedArticles(fields: seq<Member>, seeds: seq<Json>, web: Web, now: string, a: Article)
    requires Lookup(fields, "articles") == Some(JList(seeds)) && AllArticles(seeds, web, now).Ok?
    ensures Crawl(JObj(fields), web, now).Ok?
    ensures Crawl(JObj(fields), web, now).value.None? <==> AllArticles(seeds, web, now).value == []
    ensures Crawl(JObj(fields), web, now).value.Some? ==>
      (a in Crawl(JObj(fields), web, now).value.value <==>
        exists i :: 0 <= i < |seeds| && SeedArticles(seeds[i], web, now).Ok? && a in SeedArticles(seeds[i], web, now).value)
  {
    AllArticlesMember(seeds, web, now, a);
  }

  /** The loop of `run` over the article entries, extending `all_articles`. */
  method CrawlAll(seeds: seq<Json>, web: Web, now: string) returns (r: Result<seq<Article>>)
    ensures r == AllArticles(seeds, web, now)
  {
    var all: seq<Article> := [];
    for i := 0 to |seeds|
      invariant AllArticles(seeds[..i], web, now) == Ok(all)
    {
      var more := CrawlSeed(seeds[i], web, now);
      assert more == SeedStep(web, now)(seeds[i]);
      ChainSnoc(SeedStep(web, now), seeds, i, all);
      if more.Raised? {
        ChainStops(SeedStep(web, now), seeds, i);
        return Raised(more.error);
      }
      all := all + more.value;
    }
    assert seeds[..|seeds|] == seeds;
    r := Ok(all);
  }

  /** `run()`: the sitemap's article entries, then the articles file. */
  method Run(sitemap: Json, web: Web, now: string) returns (r: Result<Option<seq<Article>>>)
    ensures r == Crawl(sitemap, web, now)
  {
    var articles := Get(sitemap, "articles", JList([]));
    if articles.Raised? {
      return Raised(articles.error);
    }
    var seeds := Iterate(articles.value);
    if seeds.Raised? {
      return Raised(seeds.error);
    }
    var all := CrawlAll(seeds.value, web, now);
    if all.Raised? {
      return Raised(all.error);
    }
    r := Ok(SaveIfAny(all.value));
  }
}
