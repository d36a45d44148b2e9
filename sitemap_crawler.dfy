/**
 * `scraper/crawlers/sitemap_crawler.py`: the link triage of `SitemapCrawler.run`. The sitemap page
 * and the "All Recipes" page arrive already parsed, as the elements the selectors of `run` match;
 * `BASE_URL` is `BaseCrawler.Origin`. Four passes fill the four lists of the sitemap: the brand
 * links of every category block, the recipe brands of the brand facet, the feed links, and the
 * legal pages of every section. The feed and legal passes share one set of the `about` URLs seen
 * so far, so that `about` never lists a URL twice.
 */
module SitemapCrawler {
  import opened Wrappers
  import opened Text
  import opened Json
  import opened Batch
  import opened BaseCrawler

  // ---------------------------------------------------------------------------------------------
  // The pages

  /** An `<a>` of a category block: `a.get("href")` (the selector does not ask for one) and its element. */
  datatype Link = Link(href: Option<string>, text: Tag)

  /** One `ul.sitemap-list > li` of the brand section: its first `<strong>` and its `li.sitemap-sublist-item > a` links. */
  datatype CategoryBlock = CategoryBlock(strong: Option<Tag>, links: seq<Link>)

  /**
   * The sitemap page: the category blocks of `.sitemap-section.brands-section` (when there is
   * one), the `a[href]` of `.sitemap-list.feeds-section` (when there is one), and the `a[href]`
   * of every `.sitemap-section`, section by section.
   */
  datatype SitemapPage = SitemapPage(brandSection: Option<seq<CategoryBlock>>, feeds: Option<seq<Anchor>>, sections: seq<seq<Anchor>>)

  /** The "All Recipes" page: for each `li.facet-item` of the brand facet (when there is one), its first `a[href]`. */
  datatype RecipesPage = RecipesPage(facet: Option<seq<Option<Anchor>>>)

  /** `{"title": title, "url": url, "category": category_name}`. */
  datatype BrandLink = BrandLink(title: string, url: Option<string>, category: string)

  /** `{"brand": brand_name, "url": brand_url}`. */
  datatype RecipeBrand = RecipeBrand(brand: string, url: string)

  /** `{"title": title, "url": full_url}`, an entry of `articles` or `about`. */
  datatype Page = Page(title: string, url: string)

  // ---------------------------------------------------------------------------------------------
  // Brands

  /** `category.get_text(strip=True) if category else "Uncategorized"`. */
  function CategoryName(strong: Option<Tag>): (r: string)
    ensures strong.None? ==> r == "Uncategorized"
    ensures strong.Some? ==> r == GetText(strong.value)
  {
    if strong.Some? then GetText(strong.value) else "Uncategorized"
  }

  /** The entry of one brand link of a block. */
  function BrandLinkOf(a: Link, category: string): BrandLink {
    BrandLink(GetText(a.text), a.href, category)
  }

  /** The entries of one category block, in document order, each with the block's category. */
  function BlockLinks(b: CategoryBlock): (r: seq<BrandLink>)
    ensures |r| == |b.links| && forall j :: 0 <= j < |r| ==> r[j] == BrandLinkOf(b.links[j], CategoryName(b.strong))
  {
    seq(|b.links|, j requires 0 <= j < |b.links| => BrandLinkOf(b.links[j], CategoryName(b.strong)))
  }

  /** The entries of the category blocks, block after block. */
  function BrandLinks(blocks: seq<CategoryBlock>): seq<BrandLink> {
    FlatMap(BlockLinks, blocks)
  }

  /**
   * Every brand entry comes from one link of one block and carries that block's category, and
   * every link of every block has its entry (no link is dropped and none is deduplicated).
   */
  lemma BrandLinksMember(blocks: seq<CategoryBlock>, e: BrandLink)
    ensures e in BrandLinks(blocks) <==>
      exists i, j :: 0 <= i < |blocks| && 0 <= j < |blocks[i].links| && e == BlockLinks(blocks[i])[j]
  {
    FlatMapMember(BlockLinks, blocks, e);
  }

  /** The inner loop of the brand pass: the links of one block, with its category. */
  method CollectBlock(block: CategoryBlock) returns (entries: seq<BrandLink>)
    ensures entries == BlockLinks(block)
  {
    var category := if block.strong.Some? then GetText(block.strong.value) else "Uncategorized";
    assert category == CategoryName(block.strong);
    ghost var all := BlockLinks(block);
    entries := [];
    for j := 0 to |block.links|
      invariant entries == all[..j]
    {
      var a := block.links[j];
      entries := entries + [BrandLink(GetText(a.text), a.href, category)];
      TakeSnoc(all, j);
    }
    assert all[..|block.links|] == all;
  }

  lemma TakeSnoc<T>(s: seq<T>, j: nat)
    requires j < |s|
    ensures s[..j + 1] == s[..j] + [s[j]]
  {
  }

  /** The brand pass: every link of every category block, with the block's category. */
  method CollectBrands(section: Option<seq<CategoryBlock>>) returns (brands: seq<BrandLink>)
    ensures section.None? ==> brands == []
    ensures section.Some? ==> brands == BrandLinks(section.value)
  {
    brands := [];
    if section.None? {
      return;
    }
    var blocks := section.value;
    for i := 0 to |blocks|
      invariant brands == BrandLinks(blocks[..i])
    {
      var entries := CollectBlock(blocks[i]);
      brands := brands + entries;
      assert blocks[..i + 1] == blocks[..i] + [blocks[i]];
      FlatMapSnoc(BlockLinks, blocks[..i], blocks[i]);
    }
    assert blocks[..|blocks|] == blocks;
  }

  // ---------------------------------------------------------------------------------------------
  // Recipe brands

  /** `s.rsplit(c, 1)[0]`: what precedes the last `c`, or all of `s` when there is none. */
  function BeforeLast(s: string, c: char): string
    decreases |s|
  {
    if c !in s then s
    else if s[|s| - 1] == c then s[..|s| - 1]
    else BeforeLast(s[..|s| - 1], c)
  }

  /** Without a `c` the string is kept whole; otherwise the cut is just before a `c` with none after it. */
  lemma {:induction false} BeforeLastSpec(s: string, c: char)
    ensures var r := BeforeLast(s, c);
      && (c !in s ==> r == s)
      && (c in s ==> |r| < |s| && s[..|r| + 1] == r + [c] && c !in s[|r| + 1..])
    decreases |s|
  {
    if c in s && s[|s| - 1] != c {
      var init := s[..|s| - 1];
      assert c in init by {
        var j :| 0 <= j < |s| && s[j] == c;
        assert init[j] == c;
      }
      BeforeLastSpec(init, c);
      var r := BeforeLast(init, c);
      assert s[..|r| + 1] == init[..|r| + 1];
      assert s[|r| + 1..] == init[|r| + 1..] + [s[|s| - 1]];
    }
  }

  /** `a_tag.get_text(strip=True).rsplit("(", 1)[0].strip()`: the name without its "(count)". */
  function BrandName(text: string): string {
    Strip(BeforeLast(text, '('))
  }

  /** A facet link such as "Aero (12)" names the brand "Aero": the cut falls on the last "(". */
  lemma BrandNameDropsCount(name: string, count: string)
    requires '(' !in count
    ensures BeforeLast(name + "(" + count, '(') == name
  {
    var s := name + "(" + count;
    var r := BeforeLast(s, '(');
    assert s[|name|] == '(';
    BeforeLastSpec(s, '(');
    assert s[|r|] == '(' by {
      assert s[..|r| + 1][|r|] == '(';
    }
    assert forall j :: |r| < j < |s| ==> s[j] != '(' by {
      forall j | |r| < j < |s| ensures s[j] != '(' {
        assert s[j] == s[|r| + 1..][j - |r| - 1];
      }
    }
    assert forall j :: |name| < j < |s| ==> s[j] != '(' by {
      forall j | |name| < j < |s| ensures s[j] != '(' {
        assert s[j] == count[j - |name| - 1];
      }
    }
    assert |r| == |name|;
    assert r == s[..|r| + 1][..|r|] == s[..|name|] == name;
  }

  /** The entry of a facet link. */
  function RecipeBrandOf(a: Anchor): RecipeBrand {
    RecipeBrand(BrandName(GetText(a.text)), Resolve(a.href))
  }

  /** The facet pass: the entry of every facet item with a link, in order; items without one are skipped. */
  function RecipeBrands(items: seq<Option<Anchor>>): seq<RecipeBrand> {
    Map(RecipeBrandOf, Present(items))
  }

  /** The recipe brands are exactly the entries of the facet items that have a link. */
  lemma RecipeBrandsMember(items: seq<Option<Anchor>>, e: RecipeBrand)
    ensures e in RecipeBrands(items) <==> exists a :: Some(a) in items && e == RecipeBrandOf(a)
  {
    MapPresentMember(RecipeBrandOf, items, e);
  }

  /** No more recipe brands than facet items, and none at all when no item has a link. */
  lemma RecipeBrandsCount(items: seq<Option<Anchor>>)
    ensures |RecipeBrands(items)| <= |items|
    ensures (forall i :: 0 <= i < |items| ==> items[i].None?) ==> RecipeBrands(items) == []
  {
    if forall i :: 0 <= i < |items| ==> items[i].None? {
      if RecipeBrands(items) != [] {
        var v := Present(items)[0];
        PresentMember(items, v);
      }
    }
  }

  /** The recipe brand pass. */
  method CollectRecipeBrands(facet: Option<seq<Option<Anchor>>>) returns (recipes: seq<RecipeBrand>)
    ensures facet.None? ==> recipes == []
    ensures facet.Some? ==> recipes == RecipeBrands(facet.value)
  {
    recipes := [];
    if facet.None? {
      return;
    }
    var items := facet.value;
    for i := 0 to |items|
      invariant recipes == RecipeBrands(items[..i])
    {
      MapPresentSnoc(RecipeBrandOf, items, i);
      var aTag := items[i];
      if aTag.None? {
        continue;
      }
      var brandUrl := Resolve(aTag.value.href);
      var brandName := Strip(BeforeLast(GetText(aTag.value.text), '('));
      recipes := recipes + [RecipeBrand(brandName, brandUrl)];
    }
    assert items[..|items|] == items;
  }

  // ---------------------------------------------------------------------------------------------
  // Articles and about pages

  /** `urljoin(BASE_URL, href) if href.startswith("/") else href`. */
  function FullUrl(href: string): string {
    if StartsWith(href, "/") then Resolve(href) else href
  }

  /** What the feed and legal loops read off a link before they decide: `href`, `title`, `full_url`. */
  datatype Entry = Entry(href: string, title: string, url: string)

  function EntryOf(a: Anchor): Entry {
    Entry(a.href, GetText(a.text), FullUrl(a.href))
  }

  /** The entries of the links of one section. */
  function Entries(links: seq<Anchor>): (es: seq<Entry>)
    ensures |es| == |links| && forall i :: 0 <= i < |links| ==> es[i] == EntryOf(links[i])
  {
    Map(EntryOf, links)
  }

  const CategoryFeedPrefix := "/articles?field_category_target_id="
  const ArticlesPrefix := "/articles"

  /** The keys of the legal pass. */
  const LegalKeys: seq<string> := ["terms", "privacy", "cookie", "contact", "policy", "contest"]

  /** `any(key in href for key in [...])`. */
  predicate IsLegal(href: string) {
    exists k :: 0 <= k < |LegalKeys| && Contains(href, LegalKeys[k])
  }

  /** A feed link that goes to `about`. */
  predicate AboutFeed(href: string) {
    !StartsWith(href, CategoryFeedPrefix) && !StartsWith(href, ArticlesPrefix)
  }

  /** The `articles` and `about` lists so far, and `seen_about_urls`. */
  datatype Pages = Pages(articles: seq<Page>, about: seq<Page>, seen: set<string>)

  /** Nothing collected yet. */
  const NoPages := Pages([], [], {})

  /** The URLs of a list of pages, as a set. */
  function UrlSet(ps: seq<Page>): (r: set<string>)
    ensures forall u :: u in r <==> exists i :: 0 <= i < |ps| && ps[i].url == u
    decreases |ps|
  {
    if ps == [] then {}
    else
      var init := ps[..|ps| - 1];
      assert forall i :: 0 <= i < |init| ==> init[i] == ps[i];
      UrlSet(init) + {ps[|ps| - 1].url}
  }

  /** No URL twice in a list of pages. */
  predicate DistinctUrls(ps: seq<Page>) {
    forall i, j :: 0 <= i < j < |ps| ==> ps[i].url != ps[j].url
  }

  /** The seen-set is the set of the `about` URLs, and `about` lists each URL once. */
  predicate Indexed(st: Pages) {
    st.seen == UrlSet(st.about) && DistinctUrls(st.about)
  }

  /** Adds a page to `about` unless its URL was seen. */
  function AddAbout(st: Pages, p: Page): Pages {
    if p.url in st.seen then st else st.(about := st.about + [p], seen := st.seen + {p.url})
  }

  /** `st` is `st0` with some pages appended to `about`, and its seen-set grown. */
  predicate Extends(st0: Pages, st: Pages) {
    st.seen >= st0.seen && |st.about| >= |st0.about| && st.about[..|st0.about|] == st0.about
  }

  /** Adding to `about` keeps it indexed, records the URL, and touches nothing else. */
  lemma AddAboutIndexed(st: Pages, p: Page)
    requires Indexed(st)
    ensures var st' := AddAbout(st, p); Indexed(st') && p.url in st'.seen && st'.articles == st.articles && Extends(st, st')
  {
    if p.url !in st.seen {
      var about := st.about + [p];
      assert about[..|about| - 1] == st.about;
      assert forall i :: 0 <= i < |st.about| ==> about[i] == st.about[i];
    }
  }

  /** Extending is transitive. */
  lemma ExtendsTrans(a: Pages, b: Pages, c: Pages)
    requires Extends(a, b) && Extends(b, c)
    ensures Extends(a, c)
  {
    assert c.about[..|a.about|] == c.about[..|b.about|][..|a.about|];
  }

  /** One feed link: a category feed goes to `articles`; a link outside `/articles` goes to `about` once. */
  function FeedStep(st: Pages, e: Entry): Pages {
    if StartsWith(e.href, CategoryFeedPrefix) then st.(articles := st.articles + [Page(e.title, e.url)])
    else if !StartsWith(e.href, ArticlesPrefix) then AddAbout(st, Page(e.title, e.url))
    else st
  }

  /** The feed pass over its links, in order. */
  function Feeds(st: Pages, es: seq<Entry>): Pages
    decreases |es|
  {
    if es == [] then st else FeedStep(Feeds(st, es[..|es| - 1]), es[|es| - 1])
  }

  /** One legal link: to `about` once. */
  function LegalStep(st: Pages, e: Entry): Pages {
    if IsLegal(e.href) then AddAbout(st, Page(e.title, e.url)) else st
  }

  /** The legal pass over the links of one section. */
  function LegalLinks(st: Pages, es: seq<Entry>): Pages
    decreases |es|
  {
    if es == [] then st else LegalStep(LegalLinks(st, es[..|es| - 1]), es[|es| - 1])
  }

  /** The legal pass over every section, in order. */
  function Legal(st: Pages, sections: seq<seq<Entry>>): Pages
    decreases |sections|
  {
    if sections == [] then st else LegalLinks(Legal(st, sections[..|sections| - 1]), sections[|sections| - 1])
  }

  /** The category feeds among the feed links, in order and with repeats. */
  function CategoryFeeds(es: seq<Entry>): seq<Page>
    decreases |es|
  {
    if es == [] then []
    else
      var e := es[|es| - 1];
      CategoryFeeds(es[..|es| - 1]) + if StartsWith(e.href, CategoryFeedPrefix) then [Page(e.title, e.url)] else []
  }

  /** One feed link keeps `about` indexed and only appends to it, and records its URL when it goes to `about`. */
  lemma FeedStepSpec(st: Pages, e: Entry)
    requires Indexed(st)
    ensures var st' := FeedStep(st, e);
      Indexed(st') && Extends(st, st') && (AboutFeed(e.href) ==> e.url in st'.seen)
  {
    AddAboutIndexed(st, Page(e.title, e.url));
  }

  /** What a pass so far recorded stays recorded after one more link, which adds its own URL. */
  lemma SeenGrows(keep: string -> bool, st: Pages, mid: Pages, st': Pages, init: seq<Entry>, e: Entry)
    requires Extends(st, mid) && Extends(mid, st')
    requires forall i :: 0 <= i < |init| && keep(init[i].href) ==> init[i].url in mid.seen
    requires keep(e.href) ==> e.url in st'.seen
    ensures Extends(st, st')
    ensures forall i :: 0 <= i < |init + [e]| && keep((init + [e])[i].href) ==> (init + [e])[i].url in st'.seen
  {
    ExtendsTrans(st, mid, st');
    forall i | 0 <= i < |init + [e]| && keep((init + [e])[i].href)
      ensures (init + [e])[i].url in st'.seen
    {
      if i < |init| {
        assert (init + [e])[i] == init[i];
      }
    }
  }

  /**
   * `p` is the page of link `j`, the first link of `es` that the pass keeps with that URL,
   * whose URL had not been seen before the pass.
   */
  predicate FirstAt(keep: string -> bool, seen: set<string>, es: seq<Entry>, j: int, p: Page) {
    0 <= j < |es| && keep(es[j].href) && p == Page(es[j].title, es[j].url) && es[j].url !in seen &&
    forall i :: 0 <= i < j && keep(es[i].href) ==> es[i].url != es[j].url
  }

  /** `p` comes from the first kept link of `es` with its URL. */
  ghost predicate FromFirst(keep: string -> bool, seen: set<string>, es: seq<Entry>, p: Page) {
    exists j :: FirstAt(keep, seen, es, j, p)
  }

  /** Every page the pass appended to `about` comes from the first kept link with its URL. */
  ghost predicate AddedFromFirst(keep: string -> bool, st: Pages, st': Pages, es: seq<Entry>)
    requires |st.about| <= |st'.about|
  {
    forall n :: |st.about| <= n < |st'.about| ==> FromFirst(keep, st.seen, es, st'.about[n])
  }

  /** More links after the first one with a URL do not change which one is first. */
  lemma FirstPrefix(keep: string -> bool, seen: set<string>, a: seq<Entry>, b: seq<Entry>, j: int, p: Page)
    requires FirstAt(keep, seen, a, j, p)
    ensures FirstAt(keep, seen, a + b, j, p)
  {
    assert forall i :: 0 <= i <= j ==> (a + b)[i] == a[i];
  }

  /**
   * A first link of `b` is still first after links `a` in front of it, when every kept link of
   * `a` has its URL in the seen-set that `b`'s link avoided; a smaller seen-set is avoided too.
   */
  lemma FirstShift(keep: string -> bool, seen0: set<string>, seen1: set<string>, a: seq<Entry>, b: seq<Entry>, j: int, p: Page)
    requires FirstAt(keep, seen1, b, j, p) && seen0 <= seen1
    requires forall i :: 0 <= i < |a| && keep(a[i].href) ==> a[i].url in seen1
    ensures FirstAt(keep, seen0, a + b, |a| + j, p)
  {
    var ab := a + b;
    assert ab[|a| + j] == b[j];
    forall i | 0 <= i < |a| + j && keep(ab[i].href)
      ensures ab[i].url != ab[|a| + j].url
    {
      if i < |a| {
        assert ab[i] == a[i];
      } else {
        assert ab[i] == b[i - |a|];
      }
    }
  }

  /** One more link: the pages appended so far keep their first links, and a new page comes from this link. */
  lemma AddedStep(keep: string -> bool, st: Pages, mid: Pages, st': Pages, init: seq<Entry>, e: Entry)
    requires Extends(st, mid) && Extends(mid, st')
    requires AddedFromFirst(keep, st, mid, init)
    requires forall i :: 0 <= i < |init| && keep(init[i].href) ==> init[i].url in mid.seen
    requires st'.about == if keep(e.href) && e.url !in mid.seen then mid.about + [Page(e.title, e.url)] else mid.about
    ensures AddedFromFirst(keep, st, st', init + [e])
  {
    forall n | |st.about| <= n < |st'.about|
      ensures FromFirst(keep, st.seen, init + [e], st'.about[n])
    {
      if n < |mid.about| {
        assert st'.about[n] == mid.about[n];
        var j :| FirstAt(keep, st.seen, init, j, mid.about[n]);
        FirstPrefix(keep, st.seen, init, [e], j, mid.about[n]);
      } else {
        var p := Page(e.title, e.url);
        assert st'.about[n] == p;
        assert FirstAt(keep, mid.seen, [e], 0, p);
        FirstShift(keep, st.seen, mid.seen, init, [e], 0, p);
      }
    }
  }

  /** A pass over `a` then a pass over `b`: what each appended stays traced to its first link in `a + b`. */
  lemma AddedConcat(keep: string -> bool, st: Pages, mid: Pages, st': Pages, a: seq<Entry>, b: seq<Entry>)
    requires Extends(st, mid) && Extends(mid, st')
    requires AddedFromFirst(keep, st, mid, a) && AddedFromFirst(keep, mid, st', b)
    requires forall i :: 0 <= i < |a| && keep(a[i].href) ==> a[i].url in mid.seen
    ensures AddedFromFirst(keep, st, st', a + b)
  {
    forall n | |st.about| <= n < |st'.about|
      ensures FromFirst(keep, st.seen, a + b, st'.about[n])
    {
      if n < |mid.about| {
        assert st'.about[n] == mid.about[n];
        var j :| FirstAt(keep, st.seen, a, j, mid.about[n]);
        FirstPrefix(keep, st.seen, a, b, j, mid.about[n]);
      } else {
        var j :| FirstAt(keep, mid.seen, b, j, st'.about[n]);
        FirstShift(keep, st.seen, mid.seen, a, b, j, st'.about[n]);
      }
    }
  }

  /** What two passes recorded is recorded after both. */
  lemma SeenConcat(keep: string -> bool, mid: Pages, st': Pages, a: seq<Entry>, b: seq<Entry>)
    requires mid.seen <= st'.seen
    requires forall i :: 0 <= i < |a| && keep(a[i].href) ==> a[i].url in mid.seen
    requires forall i :: 0 <= i < |b| && keep(b[i].href) ==> b[i].url in st'.seen
    ensures forall i :: 0 <= i < |a + b| && keep((a + b)[i].href) ==> (a + b)[i].url in st'.seen
  {
    forall i | 0 <= i < |a + b| && keep((a + b)[i].href)
      ensures (a + b)[i].url in st'.seen
    {
      if i < |a| {
        assert (a + b)[i] == a[i];
      } else {
        assert (a + b)[i] == b[i - |a|];
      }
    }
  }

  /** The links of all sections, one section after another. */
  function AllEntries(sections: seq<seq<Entry>>): (es: seq<Entry>)
    decreases |sections|
  {
    if sections == [] then [] else AllEntries(sections[..|sections| - 1]) + sections[|sections| - 1]
  }

  /**
   * The feed pass keeps `about` indexed and only appends to it, and records the URL of every
   * link outside `/articles`.
   */
  lemma {:induction false} FeedsSpec(st: Pages, es: seq<Entry>)
    requires Indexed(st)
    ensures var st' := Feeds(st, es);
      && Indexed(st') && Extends(st, st')
      && (forall i :: 0 <= i < |es| && AboutFeed(es[i].href) ==> es[i].url in st'.seen)
      && AddedFromFirst(AboutFeed, st, st', es)
    decreases |es|
  {
    if es != [] {
      var init, e := es[..|es| - 1], es[|es| - 1];
      FeedsSpec(st, init);
      var mid := Feeds(st, init);
      assert es == init + [e];
      FeedsSnoc(st, init, e);
      FeedStepSpec(mid, e);
      SeenGrows(AboutFeed, st, mid, FeedStep(mid, e), init, e);
      AddedStep(AboutFeed, st, mid, FeedStep(mid, e), init, e);
    }
  }

  /** The feed pass adds to `articles` exactly the category feeds, in order and with repeats. */
  lemma {:induction false} FeedsArticles(st: Pages, es: seq<Entry>)
    ensures Feeds(st, es).articles == st.articles + CategoryFeeds(es)
    decreases |es|
  {
    if es != [] {
      FeedsArticles(st, es[..|es| - 1]);
    }
  }

  /** A link under `/articles` that is not a category feed is dropped by the feed pass. */
  lemma OtherArticleLinksDropped(st: Pages, e: Entry)
    requires StartsWith(e.href, ArticlesPrefix) && !StartsWith(e.href, CategoryFeedPrefix)
    ensures FeedStep(st, e) == st
  {
  }

  /**
   * The legal pass over one section keeps `about` indexed and only appends to it, leaves
   * `articles` alone, and records the URL of every legal link.
   */
  lemma {:induction false} LegalLinksSpec(st: Pages, es: seq<Entry>)
    requires Indexed(st)
    ensures var st' := LegalLinks(st, es);
      && Indexed(st') && Extends(st, st') && st'.articles == st.articles
      && (forall i :: 0 <= i < |es| && IsLegal(es[i].href) ==> es[i].url in st'.seen)
      && AddedFromFirst(IsLegal, st, st', es)
    decreases |es|
  {
    if es != [] {
      var init, e := es[..|es| - 1], es[|es| - 1];
      LegalLinksSpec(st, init);
      var mid := LegalLinks(st, init);
      assert es == init + [e];
      LegalLinksSnoc(st, init, e);
      AddAboutIndexed(mid, Page(e.title, e.url));
      SeenGrows(IsLegal, st, mid, LegalStep(mid, e), init, e);
      AddedStep(IsLegal, st, mid, LegalStep(mid, e), init, e);
    }
  }

  /** The legal pass over every section: the same, for every legal link of every section. */
  lemma {:induction false} LegalSpec(st: Pages, sections: seq<seq<Entry>>)
    requires Indexed(st)
    ensures var st' := Legal(st, sections);
      && Indexed(st') && Extends(st, st') && st'.articles == st.articles
      && (forall k, i :: 0 <= k < |sections| && 0 <= i < |sections[k]| && IsLegal(sections[k][i].href) ==> sections[k][i].url in st'.seen)
      && (forall i :: 0 <= i < |AllEntries(sections)| && IsLegal(AllEntries(sections)[i].href) ==> AllEntries(sections)[i].url in st'.seen)
      && AddedFromFirst(IsLegal, st, st', AllEntries(sections))
    decreases |sections|
  {
    if sections != [] {
      var init, last := sections[..|sections| - 1], sections[|sections| - 1];
      LegalSpec(st, init);
      var mid := Legal(st, init);
      var st' := Legal(st, sections);
      LegalLinksSpec(mid, last);
      ExtendsTrans(st, mid, st');
      assert AllEntries(sections) == AllEntries(init) + last;
      SeenConcat(IsLegal, mid, st', AllEntries(init), last);
      AddedConcat(IsLegal, st, mid, st', AllEntries(init), last);
    }
    SectionsSeen(sections, Legal(st, sections).seen);
  }

  /** A URL recorded for every legal link of all sections together is recorded for each section's. */
  lemma {:induction false} SectionsSeen(sections: seq<seq<Entry>>, seen: set<string>)
    requires forall i :: 0 <= i < |AllEntries(sections)| && IsLegal(AllEntries(sections)[i].href) ==> AllEntries(sections)[i].url in seen
    ensures forall k, i :: 0 <= k < |sections| && 0 <= i < |sections[k]| && IsLegal(sections[k][i].href) ==> sections[k][i].url in seen
    decreases |sections|
  {
    if sections != [] {
      var init, last := sections[..|sections| - 1], sections[|sections| - 1];
      var all := AllEntries(init);
      assert AllEntries(sections) == all + last;
      forall i | 0 <= i < |all| && IsLegal(all[i].href)
        ensures all[i].url in seen
      {
        assert AllEntries(sections)[i] == all[i];
      }
      SectionsSeen(init, seen);
      forall k, i | 0 <= k < |sections| && 0 <= i < |sections[k]| && IsLegal(sections[k][i].href)
        ensures sections[k][i].url in seen
      {
        if k < |init| {
          assert sections[k] == init[k];
        } else {
          assert sections[k] == last;
          assert AllEntries(sections)[|all| + i] == last[i];
        }
      }
    }
  }

  /** A legal link whose URL is already in `about` adds nothing. */
  lemma LegalSeenAddsNothing(st: Pages, e: Entry)
    requires e.url in st.seen
    ensures LegalStep(st, e) == st
  {
  }

  /** The entries of one more link. */
  lemma EntriesSnoc(links: seq<Anchor>, i: nat)
    requires i < |links|
    ensures Entries(links[..i + 1]) == Entries(links[..i]) + [EntryOf(links[i])]
  {
    assert links[..i + 1] == links[..i] + [links[i]];
    MapSnoc(EntryOf, links[..i], links[i]);
  }

  /** The feed pass over one more link is one more step. */
  lemma FeedsSnoc(st: Pages, es: seq<Entry>, e: Entry)
    ensures Feeds(st, es + [e]) == FeedStep(Feeds(st, es), e)
  {
    assert (es + [e])[..|es|] == es;
  }

  /** The legal pass over one more link is one more step. */
  lemma LegalLinksSnoc(st: Pages, es: seq<Entry>, e: Entry)
    ensures LegalLinks(st, es + [e]) == LegalStep(LegalLinks(st, es), e)
  {
    assert (es + [e])[..|es|] == es;
  }

  /** The feed pass. */
  method CollectFeeds(feeds: Option<seq<Anchor>>) returns (articles: seq<Page>, about: seq<Page>, seen: set<string>)
    ensures feeds.None? ==> Pages(articles, about, seen) == NoPages
    ensures feeds.Some? ==> Pages(articles, about, seen) == Feeds(NoPages, Entries(feeds.value))
  {
    articles, about, seen := [], [], {};
    if feeds.None? {
      return;
    }
    var links := feeds.value;
    for i := 0 to |links|
      invariant Pages(articles, about, seen) == Feeds(NoPages, Entries(links[..i]))
    {
      var a := links[i];
      var href := a.href;
      var title := GetText(a.text);
      var fullUrl := if StartsWith(href, "/") then Resolve(href) else href;
      EntriesSnoc(links, i);
      FeedsSnoc(NoPages, Entries(links[..i]), EntryOf(a));
      if StartsWith(href, CategoryFeedPrefix) {
        articles := articles + [Page(title, fullUrl)];
      } else if !StartsWith(href, ArticlesPrefix) && fullUrl !in seen {
        about := about + [Page(title, fullUrl)];
        seen := seen + {fullUrl};
      }
    }
    assert links[..|links|] == links;
  }

  /** `any(key in href for key in LegalKeys)`, key by key. */
  method AnyLegalKey(href: string) returns (legal: bool)
    ensures legal == IsLegal(href)
  {
    legal := false;
    for key := 0 to |LegalKeys|
      invariant legal <==> exists k :: 0 <= k < key && Contains(href, LegalKeys[k])
    {
      if Contains(href, LegalKeys[key]) {
        legal := true;
      }
    }
  }

  /** The legal pass over one section, continuing `about` and the seen-set. */
  method CollectLegalSection(section: seq<Anchor>, about0: seq<Page>, seen0: set<string>) returns (about: seq<Page>, seen: set<string>)
    ensures Pages([], about, seen) == LegalLinks(Pages([], about0, seen0), Entries(section))
  {
    about, seen := about0, seen0;
    for i := 0 to |section|
      invariant Pages([], about, seen) == LegalLinks(Pages([], about0, seen0), Entries(section[..i]))
    {
      var a := section[i];
      var href := a.href;
      var title := GetText(a.text);
      var fullUrl := if StartsWith(href, "/") then Resolve(href) else href;
      EntriesSnoc(section, i);
      LegalLinksSnoc(Pages([], about0, seen0), Entries(section[..i]), EntryOf(a));
      var legal := AnyLegalKey(href);
      if legal && fullUrl !in seen {
        about := about + [Page(title, fullUrl)];
        seen := seen + {fullUrl};
      }
    }
    assert section[..|section|] == section;
  }

  /** The entries of every section. */
  function SectionEntries(sections: seq<seq<Anchor>>): (ss: seq<seq<Entry>>)
    ensures |ss| == |sections| && forall k :: 0 <= k < |sections| ==> ss[k] == Entries(sections[k])
  {
    Map(Entries, sections)
  }

  /** The legal pass over every section. */
  method CollectLegal(sections: seq<seq<Anchor>>, about0: seq<Page>, seen0: set<string>) returns (about: seq<Page>, seen: set<string>)
    ensures Pages([], about, seen) == Legal(Pages([], about0, seen0), SectionEntries(sections))
  {
    about, seen := about0, seen0;
    for k := 0 to |sections|
      invariant Pages([], about, seen) == Legal(Pages([], about0, seen0), SectionEntries(sections[..k]))
    {
      assert sections[..k + 1] == sections[..k] + [sections[k]];
      MapSnoc(Entries, sections[..k], sections[k]);
      assert SectionEntries(sections[..k + 1])[..k] == SectionEntries(sections[..k]);
      about, seen := CollectLegalSection(sections[k], about, seen);
    }
    assert sections[..|sections|] == sections;
  }

  /** The legal pass reads only `about` and the seen-set: what `articles` holds does not matter. */
  lemma {:induction false} LegalIgnoresArticles(articles: seq<Page>, about: seq<Page>, seen: set<string>, sections: seq<seq<Entry>>)
    ensures var a, b := Legal(Pages(articles, about, seen), sections), Legal(Pages([], about, seen), sections);
      a.about == b.about && a.seen == b.seen && a.articles == articles
    decreases |sections|
  {
    if sections != [] {
      LegalIgnoresArticles(articles, about, seen, sections[..|sections| - 1]);
      LinksIgnoreArticles(Legal(Pages(articles, about, seen), sections[..|sections| - 1]),
        Legal(Pages([], about, seen), sections[..|sections| - 1]), sections[|sections| - 1]);
    }
  }

  /** The same, for one section. */
  lemma {:induction false} LinksIgnoreArticles(a: Pages, b: Pages, es: seq<Entry>)
    requires a.about == b.about && a.seen == b.seen
    ensures LegalLinks(a, es).about == LegalLinks(b, es).about && LegalLinks(a, es).seen == LegalLinks(b, es).seen
    ensures LegalLinks(a, es).articles == a.articles
    decreases |es|
  {
    if es != [] {
      LinksIgnoreArticles(a, b, es[..|es| - 1]);
    }
  }

  // ---------------------------------------------------------------------------------------------
  // The sitemap

  function BrandJson(b: BrandLink): Json {
    JObj([Member("title", JStr(b.title)), Member("url", if b.url.Some? then JStr(b.url.value) else JNull), Member("category", JStr(b.category))])
  }

  function RecipeJson(r: RecipeBrand): Json {
    JObj([Member("brand", JStr(r.brand)), Member("url", JStr(r.url))])
  }

  function PageJson(p: Page): Json {
    JObj([Member("title", JStr(p.title)), Member("url", JStr(p.url))])
  }

  /** The four lists as the `sitemap` dict, each list in order. */
  function SitemapJson(brands: seq<BrandLink>, recipes: seq<RecipeBrand>, articles: seq<Page>, about: seq<Page>): (j: Json)
    ensures j.JObj? && Keys(j.fields) == ["brands", "recipes", "articles", "about"]
    ensures j.fields[0].val == JList(Map(BrandJson, brands))
    ensures j.fields[1].val == JList(Map(RecipeJson, recipes))
    ensures j.fields[2].val == JList(Map(PageJson, articles))
    ensures j.fields[3].val == JList(Map(PageJson, about))
  {
    JObj([
      Member("brands", JList(Map(BrandJson, brands))),
      Member("recipes", JList(Map(RecipeJson, recipes))),
      Member("articles", JList(Map(PageJson, articles))),
      Member("about", JList(Map(PageJson, about)))])
  }

  /** What the feed and legal passes leave. */
  function AllPages(page: SitemapPage): Pages {
    var afterFeeds := if page.feeds.Some? then Feeds(NoPages, Entries(page.feeds.value)) else NoPages;
    Legal(afterFeeds, SectionEntries(page.sections))
  }

  /** What `run` returns and saves. */
  function Sitemap(page: SitemapPage, recipesPage: RecipesPage): Json {
    var brands := if page.brandSection.Some? then BrandLinks(page.brandSection.value) else [];
    var recipes := if recipesPage.facet.Some? then RecipeBrands(recipesPage.facet.value) else [];
    var st := AllPages(page);
    SitemapJson(brands, recipes, st.articles, st.about)
  }

  /**
   * After both passes `about` never lists a URL twice, it holds the URL of every feed link
   * outside `/articles` and of every legal link of every section, and `articles` holds exactly
   * the category feeds.
   */
  lemma AllPagesSpec(page: SitemapPage)
    ensures var st := AllPages(page);
      && DistinctUrls(st.about)
      && st.articles == (if page.feeds.Some? then CategoryFeeds(Entries(page.feeds.value)) else [])
      && (page.feeds.Some? ==> forall i :: 0 <= i < |page.feeds.value| && AboutFeed(page.feeds.value[i].href) ==>
            FullUrl(page.feeds.value[i].href) in UrlSet(st.about))
      && (forall k, i :: 0 <= k < |page.sections| && 0 <= i < |page.sections[k]| && IsLegal(page.sections[k][i].href) ==>
            FullUrl(page.sections[k][i].href) in UrlSet(st.about))
      && forall n :: 0 <= n < |st.about| ==>
           FromFirst(AboutFeed, {}, FeedEntries(page), st.about[n]) ||
           (FromFirst(IsLegal, {}, AllEntries(SectionEntries(page.sections)), st.about[n]) &&
            forall i :: 0 <= i < |FeedEntries(page)| && AboutFeed(FeedEntries(page)[i].href) ==>
              FeedEntries(page)[i].url != st.about[n].url)
  {
    assert Indexed(NoPages);
    var afterFeeds := if page.feeds.Some? then Feeds(NoPages, Entries(page.feeds.value)) else NoPages;
    if page.feeds.Some? {
      FeedsSpec(NoPages, Entries(page.feeds.value));
      FeedsArticles(NoPages, Entries(page.feeds.value));
    }
    LegalSpec(afterFeeds, SectionEntries(page.sections));
    AboutFromFirst(page, afterFeeds, Legal(afterFeeds, SectionEntries(page.sections)));
  }

  /** Each `about` page is traced to its first feed link, or to its first legal link when no feed link had its URL. */
  lemma AboutFromFirst(page: SitemapPage, afterFeeds: Pages, st: Pages)
    requires |afterFeeds.about| <= |st.about| && st.about[..|afterFeeds.about|] == afterFeeds.about
    requires AddedFromFirst(AboutFeed, NoPages, afterFeeds, FeedEntries(page))
    requires forall i :: 0 <= i < |FeedEntries(page)| && AboutFeed(FeedEntries(page)[i].href) ==>
      FeedEntries(page)[i].url in afterFeeds.seen
    requires AddedFromFirst(IsLegal, afterFeeds, st, AllEntries(SectionEntries(page.sections)))
    ensures forall n :: 0 <= n < |st.about| ==>
      FromFirst(AboutFeed, {}, FeedEntries(page), st.about[n]) ||
      (FromFirst(IsLegal, {}, AllEntries(SectionEntries(page.sections)), st.about[n]) &&
       forall i :: 0 <= i < |FeedEntries(page)| && AboutFeed(FeedEntries(page)[i].href) ==>
         FeedEntries(page)[i].url != st.about[n].url)
  {
    var fe := FeedEntries(page);
    var es := AllEntries(SectionEntries(page.sections));
    forall n | 0 <= n < |st.about|
      ensures FromFirst(AboutFeed, {}, fe, st.about[n]) ||
        (FromFirst(IsLegal, {}, es, st.about[n]) &&
         forall i :: 0 <= i < |fe| && AboutFeed(fe[i].href) ==> fe[i].url != st.about[n].url)
    {
      if n < |afterFeeds.about| {
        assert st.about[n] == afterFeeds.about[n];
      } else {
        LegalAfterFeeds(fe, afterFeeds.seen, es, st.about[n]);
      }
    }
  }

  /** The feed links of the page, none when it has no feed section. */
  function FeedEntries(page: SitemapPage): seq<Entry> {
    if page.feeds.Some? then Entries(page.feeds.value) else []
  }

  /** A page the legal pass added has a URL that no feed link put in `about` before it. */
  lemma LegalAfterFeeds(fe: seq<Entry>, seen: set<string>, es: seq<Entry>, p: Page)
    requires FromFirst(IsLegal, seen, es, p)
    requires forall i :: 0 <= i < |fe| && AboutFeed(fe[i].href) ==> fe[i].url in seen
    ensures FromFirst(IsLegal, {}, es, p)
    ensures forall i :: 0 <= i < |fe| && AboutFeed(fe[i].href) ==> fe[i].url != p.url
  {
    var j :| FirstAt(IsLegal, seen, es, j, p);
    assert FirstAt(IsLegal, {}, es, j, p);
  }

  /** `SitemapCrawler.run` once both pages are loaded: the four passes, then the dict. */
  method Run(page: SitemapPage, recipesPage: RecipesPage) returns (sitemap: Json)
    ensures sitemap == Sitemap(page, recipesPage)
  {
    var brands := CollectBrands(page.brandSection);
    var recipes := CollectRecipeBrands(recipesPage.facet);
    var articles, about, seen := CollectFeeds(page.feeds);
    ghost var afterFeeds := Pages(articles, about, seen);
    about, seen := CollectLegal(page.sections, about, seen);
    LegalIgnoresArticles(articles, afterFeeds.about, afterFeeds.seen, SectionEntries(page.sections));
    sitemap := SitemapJson(brands, recipes, articles, about);
  }
}
