/**
 * `scraper/crawlers/product_crawler.py`: brand pages to product records. Every brand of the
 * sitemap is classified first (external, redirected off the site, broken, or crawled); the
 * ones the crawler skips are recorded on the crawler's side lists. A crawled brand's listing
 * pages give product cards, and each card's detail page gives one product, or nothing when
 * anything about the card fails. The site is a parameter: what each probe gives, the cards of
 * each listing page after pagination, and the detail page at each URL.
 */
module ProductCrawler {
  import opened Wrappers
  import opened Text
  import opened Json
  import opened Batch
  import opened BaseCrawler

  // ---------------------------------------------------------------------------------------------
  // The pages

  /** A product card of a listing page: its first `a[href]`, its subtitle and its highlight labels. */
  datatype Card = Card(link: Option<Anchor>, subtitle: Option<Tag>, highlightLabels: seq<Tag>)

  /** A nutrition row: `row-depth-0` (a top-level nutrient) or `row-depth-1`, and its three cells. */
  datatype Row = Row(depth0: bool, heading: Option<Tag>, amount: Option<Tag>, dv: Option<Tag>)

  /** What the crawler selects on a product's detail page; a page that failed to load selects nothing. */
  datatype Detail = Detail(
    h1: Option<Tag>,
    descriptionParagraph: Option<Tag>,
    inlineParagraph: Option<Tag>,
    size: Option<Tag>,
    imageSrcs: seq<Option<string>>,
    subtitle: Option<Tag>,
    highlights: seq<Tag>,
    features: seq<Tag>,
    serving: Option<Tag>,
    rows: seq<Row>,
    ingredientSection: Option<Option<Tag>>,
    recyclability: Option<Tag>)

  /** The site as the crawler sees it. */
  datatype Web = Web(
    landing: string -> Landing,
    navigation: string -> Navigation,
    listing: string -> seq<Card>,
    detail: string -> Detail)

  // ---------------------------------------------------------------------------------------------
  // The records (`scraper/models.py`)

  datatype NutritionItem = NutritionItem(name: string, amount: Option<string>, dv: Option<string>, subItems: Option<seq<NutritionItem>>)

  datatype Nutrition = Nutrition(servingSize: Option<string>, items: seq<NutritionItem>)

  datatype ProductContent = ProductContent(features: seq<string>, nutrition: Option<Nutrition>, ingredients: Option<string>, recyclability: Option<string>)

  datatype Product = Product(
    name: string,
    url: string,
    brand: string,
    category: string,
    images: seq<string>,
    productSize: Option<string>,
    productLine: Option<string>,
    description: Option<string>,
    labels: seq<string>,
    contents: ProductContent,
    createdAt: string)

  // ---------------------------------------------------------------------------------------------
  // Appending what is not there yet

  /**
   * `for x in xs: if x not in acc: acc.append(x)`: `acc` stays in front, nothing is lost, and
   * what is added is new and added once.
   */
  function AppendNew(acc: seq<string>, xs: seq<string>): (r: seq<string>)
    ensures |acc| <= |r| && r[..|acc|] == acc
    ensures forall x :: x in r <==> x in acc || x in xs
    ensures forall k :: |acc| <= k < |r| ==> r[k] !in acc
    ensures forall k1, k2 :: |acc| <= k1 < k2 < |r| ==> r[k1] != r[k2]
    decreases |xs|
  {
    if xs == [] then acc
    else
      var r := AppendNew(acc, xs[..|xs| - 1]);
      var x := xs[|xs| - 1];
      assert xs == xs[..|xs| - 1] + [x];
      if x in r then r else r + [x]
  }

  /** The position of the first occurrence of `x`. */
  function IndexOf(xs: seq<string>, x: string): (i: nat)
    requires x in xs
    ensures i < |xs| && xs[i] == x && x !in xs[..i]
    decreases |xs|
  {
    if xs[0] == x then 0
    else
      assert xs[1..][..IndexOf(xs[1..], x)] == xs[1..1 + IndexOf(xs[1..], x)];
      assert xs[..1 + IndexOf(xs[1..], x)] == [xs[0]] + xs[1..][..IndexOf(xs[1..], x)];
      1 + IndexOf(xs[1..], x)
  }

  /** An element of a prefix is first found inside that prefix. */
  lemma IndexOfPrefix(xs: seq<string>, x: string, n: nat)
    requires n <= |xs| && x in xs[..n]
    ensures IndexOf(xs, x) == IndexOf(xs[..n], x)
  {
    var i, j := IndexOf(xs, x), IndexOf(xs[..n], x);
    assert xs[..n][..j] == xs[..j];
  }

  /** What is added comes in the order of first occurrence in `xs`. */
  lemma {:induction false} AppendNewOrder(acc: seq<string>, xs: seq<string>, k1: nat, k2: nat)
    requires |acc| <= k1 < k2 < |AppendNew(acc, xs)|
    ensures var r := AppendNew(acc, xs); r[k1] in xs && r[k2] in xs && IndexOf(xs, r[k1]) < IndexOf(xs, r[k2])
    decreases |xs|
  {
    var r := AppendNew(acc, xs);
    var init, x := xs[..|xs| - 1], xs[|xs| - 1];
    var r0 := AppendNew(acc, init);
    assert xs == init + [x];
    if k2 < |r0| {
      AppendNewOrder(acc, init, k1, k2);
      IndexOfPrefix(xs, r[k1], |init|);
      IndexOfPrefix(xs, r[k2], |init|);
    } else {
      assert r == r0 + [x] && r[k2] == x && x !in r0;
      assert r[k1] == r0[k1] && r0[k1] !in acc;
      assert r0[k1] in init;
      IndexOfPrefix(xs, r[k1], |init|);
      assert x !in init && xs[..|init|] == init;
    }
  }

  // ---------------------------------------------------------------------------------------------
  // The fields of one product

  /** The detail URL: an `href` starting with `http` is kept, anything else is put under the origin. */
  function DetailUrl(href: string): (u: string)
    ensures StartsWith(u, "http")
    ensures StartsWith(href, "http") <==> u == href
  {
    if StartsWith(href, "http") then href
    else
      assert (Origin + href)[..4] == "http";
      assert |Origin + href| > |href|;
      Origin + href
  }

  /** Fixing up a detail URL twice changes nothing more. */
  lemma DetailUrlIdempotent(href: string)
    ensures DetailUrl(DetailUrl(href)) == DetailUrl(href)
  {
  }

  /** `src` is there and not empty. */
  predicate ImageSource(src: Option<string>) {
    src.Some? && src.value != ""
  }

  /** The image URLs of the carousel: the non-empty `src` values, joined to the origin. */
  function ImageUrls(srcs: seq<Option<string>>): (us: seq<string>)
    ensures |us| <= |srcs|
    decreases |srcs|
  {
    if srcs == [] then []
    else
      var us := ImageUrls(srcs[..|srcs| - 1]);
      var src := srcs[|srcs| - 1];
      if ImageSource(src) then us + [Resolve(src.value)] else us
  }

  /** `u` is the URL a carousel `src` gives. */
  predicate FromSource(src: Option<string>, u: string) {
    ImageSource(src) && u == Resolve(src.value)
  }

  /** Every image URL comes from a non-empty `src`, and every non-empty `src` gives one. */
  lemma {:induction false} ImageUrlsMember(srcs: seq<Option<string>>, u: string)
    ensures u in ImageUrls(srcs) <==> exists i :: 0 <= i < |srcs| && FromSource(srcs[i], u)
    decreases |srcs|
  {
    if srcs != [] {
      var init, last := srcs[..|srcs| - 1], srcs[|srcs| - 1];
      ImageUrlsMember(init, u);
      assert u in ImageUrls(srcs) <==> u in ImageUrls(init) || FromSource(last, u);
      assert srcs == init + [last];
      SourcesSnoc(init, last, u);
    }
  }

  lemma SourcesSnoc(init: seq<Option<string>>, last: Option<string>, u: string)
    ensures (exists i :: 0 <= i < |init + [last]| && FromSource((init + [last])[i], u)) <==>
      (exists i :: 0 <= i < |init| && FromSource(init[i], u)) || FromSource(last, u)
  {
    var srcs := init + [last];
    if exists i :: 0 <= i < |srcs| && FromSource(srcs[i], u) {
      var i :| 0 <= i < |srcs| && FromSource(srcs[i], u);
      if i < |init| {
        assert init[i] == srcs[i];
      }
    }
    if exists i :: 0 <= i < |init| && FromSource(init[i], u) {
      var i :| 0 <= i < |init| && FromSource(init[i], u);
      assert srcs[i] == init[i];
    }
    assert srcs[|init|] == last;
  }

  /** The loop over the carousel images. */
  method CollectImages(srcs: seq<Option<string>>) returns (images: seq<string>)
    ensures images == AppendNew([], ImageUrls(srcs))
  {
    images := [];
    for i := 0 to |srcs|
      invariant images == AppendNew([], ImageUrls(srcs[..i]))
    {
      assert srcs[..i + 1][..i] == srcs[..i];
      var src := srcs[i];
      if !ImageSource(src) {
        continue;
      }
      var fullUrl := Resolve(src.value);
      assert ImageUrls(srcs[..i + 1]) == ImageUrls(srcs[..i]) + [fullUrl];
      assert (ImageUrls(srcs[..i]) + [fullUrl])[..|ImageUrls(srcs[..i])|] == ImageUrls(srcs[..i]);
      if fullUrl !in images {
        images := images + [fullUrl];
      }
    }
    assert srcs[..|srcs|] == srcs;
  }

  /** The images of a product: each once, only from non-empty sources, in order of first appearance. */
  lemma ImagesSpec(srcs: seq<Option<string>>, u: string)
    ensures var images := AppendNew([], ImageUrls(srcs));
      && (forall k1, k2 :: 0 <= k1 < k2 < |images| ==> images[k1] != images[k2])
      && (u in images <==> exists i :: 0 <= i < |srcs| && FromSource(srcs[i], u))
      && (forall k1, k2 :: 0 <= k1 < k2 < |images| ==>
            IndexOf(ImageUrls(srcs), images[k1]) < IndexOf(ImageUrls(srcs), images[k2]))
  {
    ImageUrlsMember(srcs, u);
    var urls := ImageUrls(srcs);
    forall k1, k2 | 0 <= k1 < k2 < |AppendNew([], urls)|
      ensures IndexOf(urls, AppendNew([], urls)[k1]) < IndexOf(urls, AppendNew([], urls)[k2])
    {
      AppendNewOrder([], urls, k1, k2);
    }
  }

  /** The loop that adds the detail page's labels to the card's. */
  method MergeLabels(cardLabels: seq<string>, detailLabels: seq<string>) returns (labels: seq<string>)
    ensures labels == AppendNew(cardLabels, detailLabels)
  {
    labels := cardLabels;
    for i := 0 to |detailLabels|
      invariant labels == AppendNew(cardLabels, detailLabels[..i])
    {
      assert detailLabels[..i + 1][..i] == detailLabels[..i];
      if detailLabels[i] !in labels {
        labels := labels + [detailLabels[i]];
      }
    }
    assert detailLabels[..|detailLabels|] == detailLabels;
  }

  /**
   * The labels: the card's labels in order (repeats included), then each detail label the list
   * does not have yet, once, in the order the detail page shows them.
   */
  lemma LabelsSpec(cardLabels: seq<string>, detailLabels: seq<string>, l: string)
    ensures var labels := AppendNew(cardLabels, detailLabels);
      && labels[..|cardLabels|] == cardLabels
      && (l in labels <==> l in cardLabels || l in detailLabels)
      && (forall k :: |cardLabels| <= k < |labels| ==> labels[k] !in cardLabels && labels[k] in detailLabels)
  {
  }

  /** The product lines the URL can name, in the order they are tried. */
  const Keywords: seq<string> := ["liquid", "powder", "plant-based", "classics", "layers", "extraaz", "tubs", "minis", "featured-cones"]

  /** The first keyword from position `i` on that the lowercased URL contains. */
  function KeywordFrom(lowered: string, i: nat): (r: Option<string>)
    requires i <= |Keywords|
    ensures r.Some? ==> exists j :: i <= j < |Keywords| && Keywords[j] == r.value && Contains(lowered, r.value)
                          && forall j' :: i <= j' < j ==> !Contains(lowered, Keywords[j'])
    ensures r.None? <==> forall j :: i <= j < |Keywords| ==> !Contains(lowered, Keywords[j])
  {
    FirstContained(Keywords, lowered, i)
  }

  /** The first of `ks[i..]` that `s` contains. */
  function FirstContained(ks: seq<string>, s: string, i: nat): (r: Option<string>)
    requires i <= |ks|
    ensures r.Some? ==> exists j :: i <= j < |ks| && ks[j] == r.value && Contains(s, r.value)
                          && forall j' :: i <= j' < j ==> !Contains(s, ks[j'])
    ensures r.None? <==> forall j :: i <= j < |ks| ==> !Contains(s, ks[j])
    decreases |ks| - i
  {
    if i == |ks| then None
    else if Contains(s, ks[i]) then Some(ks[i])
    else FirstContained(ks, s, i + 1)
  }

  /** The keyword loop, which stops at the first match. */
  method FindKeyword(lowered: string) returns (r: Option<string>)
    ensures r == KeywordFrom(lowered, 0)
  {
    var i := 0;
    while i < |Keywords|
      invariant i <= |Keywords| && KeywordFrom(lowered, i) == KeywordFrom(lowered, 0)
    {
      if Contains(lowered, Keywords[i]) {
        return Some(Keywords[i]);
      }
      i := i + 1;
    }
    return None;
  }

  /**
   * `product_line`: the detail subtitle's text when the detail page has one, the card
   * subtitle's otherwise; when that is missing or empty, the first keyword in the lowercased
   * URL, if any.
   */
  function ProductLine(cardSubtitle: Option<Tag>, detailSubtitle: Option<Tag>, detailUrl: string): (r: Option<string>)
    ensures detailSubtitle.Some? && GetText(detailSubtitle.value) != "" ==> r == Some(GetText(detailSubtitle.value))
    ensures detailSubtitle.None? && cardSubtitle.Some? && GetText(cardSubtitle.value) != "" ==> r == Some(GetText(cardSubtitle.value))
  {
    Fallback(SubtitleLine(cardSubtitle, detailSubtitle), KeywordFrom(Lower(detailUrl), 0))
  }

  /** `subtitle_from_detail.get_text(strip=True) if subtitle_from_detail else sub_brand`. */
  function SubtitleLine(cardSubtitle: Option<Tag>, detailSubtitle: Option<Tag>): Option<string> {
    if detailSubtitle.Some? then TextOf(detailSubtitle) else TextOf(cardSubtitle)
  }

  /** `if not product_line:` take the keyword, when there is one. */
  function Fallback(line: Option<string>, keyword: Option<string>): Option<string> {
    if (line.None? || line.value == "") && keyword.Some? then keyword else line
  }

  /**
   * Without a subtitle text, the product line is the first keyword in the URL; with no such
   * keyword it stays as it was: `None` without any subtitle element, `""` when an element was
   * there with blank text.
   */
  lemma ProductLineFallback(cardSubtitle: Option<Tag>, detailSubtitle: Option<Tag>, detailUrl: string)
    requires var line := SubtitleLine(cardSubtitle, detailSubtitle); line.None? || line.value == ""
    ensures var r, k := ProductLine(cardSubtitle, detailSubtitle, detailUrl), KeywordFrom(Lower(detailUrl), 0);
      && (k.Some? ==> r == k && r.value in Keywords && Contains(Lower(detailUrl), r.value))
      && (r == None <==> detailSubtitle.None? && cardSubtitle.None? && k.None?)
      && (r == Some("") <==> (detailSubtitle.Some? || cardSubtitle.Some?) && k.None?)
  {
    var k := KeywordFrom(Lower(detailUrl), 0);
    if k.Some? {
      var j :| 0 <= j < |Keywords| && Keywords[j] == k.value;
      assert Keywords[j] != "";
    }
  }

  /** The product line code's own search: the function and the loop agree on where it stops. */
  lemma KeywordOrder(lowered: string, j: nat)
    requires j < |Keywords| && Contains(lowered, Keywords[j])
    requires forall j' :: 0 <= j' < j ==> !Contains(lowered, Keywords[j'])
    ensures KeywordFrom(lowered, 0) == Some(Keywords[j])
  {
    var r := KeywordFrom(lowered, 0);
    var i :| 0 <= i < |Keywords| && Keywords[i] == r.value && Contains(lowered, r.value)
      && forall j' :: 0 <= j' < i ==> !Contains(lowered, Keywords[j']);
  }

  // ---------------------------------------------------------------------------------------------
  // Nutrition

  /** The item of a labelled row; a top-level item starts with an empty list of sub-items. */
  function RowItem(r: Row, top: bool): NutritionItem
    requires r.heading.Some?
  {
    NutritionItem(GetText(r.heading.value), TextOf(r.amount), TextOf(r.dv), if top then Some([]) else None)
  }

  /** Adds a sub-item to the last top-level item. */
  function Attach(items: seq<NutritionItem>, sub: NutritionItem): (r: seq<NutritionItem>)
    requires items != [] && forall k :: 0 <= k < |items| ==> items[k].subItems.Some?
    ensures |r| == |items| && r[..|r| - 1] == items[..|items| - 1]
    ensures forall k :: 0 <= k < |r| ==> r[k].subItems.Some?
  {
    var last := items[|items| - 1];
    items[..|items| - 1] + [last.(subItems := Some(last.subItems.value + [sub]))]
  }

  /**
   * The items the row loop builds: a labelled depth-0 row starts a new item, a labelled depth-1
   * row becomes a sub-item of the latest one, and every other row is dropped.
   */
  function NutritionItems(rows: seq<Row>): (items: seq<NutritionItem>)
    ensures forall k :: 0 <= k < |items| ==> items[k].subItems.Some?
    decreases |rows|
  {
    if rows == [] then [] else NutritionStep(NutritionItems(rows[..|rows| - 1]), rows[|rows| - 1])
  }

  /** One row of the loop: a new item, a sub-item of the latest one, or nothing. */
  function NutritionStep(items: seq<NutritionItem>, r: Row): (items': seq<NutritionItem>)
    requires forall k :: 0 <= k < |items| ==> items[k].subItems.Some?
    ensures forall k :: 0 <= k < |items'| ==> items'[k].subItems.Some?
  {
    if r.heading.None? then items
    else if r.depth0 then items + [RowItem(r, true)]
    else if items != [] then Attach(items, RowItem(r, false))
    else items
  }

  /** The loop over the nutrition rows; `parent`, the latest top-level item, is always the last one. */
  method BuildNutritionItems(rows: seq<Row>) returns (items: seq<NutritionItem>)
    ensures items == NutritionItems(rows)
  {
    items := [];
    for i := 0 to |rows|
      invariant items == NutritionItems(rows[..i])
    {
      assert rows[..i + 1][..i] == rows[..i];
      var row := rows[i];
      ghost var next := NutritionStep(items, row);
      if row.heading.None? {
        continue;
      }
      if row.depth0 {
        items := items + [RowItem(row, true)];
      } else if items != [] {
        var parent := items[|items| - 1];
        items := items[..|items| - 1] + [parent.(subItems := Some(parent.subItems.value + [RowItem(row, false)]))];
      }
      assert items == next;
    }
    assert rows[..|rows|] == rows;
  }

  /** The rows that start a top-level item. */
  predicate StartsItem(r: Row) {
    r.heading.Some? && r.depth0
  }

  /** The sub-items of a run of rows: its labelled rows, in order. */
  function SubItems(rows: seq<Row>): (subs: seq<NutritionItem>)
    ensures |subs| <= |rows|
    decreases |rows|
  {
    if rows == [] then []
    else
      var subs := SubItems(rows[..|rows| - 1]);
      var r := rows[|rows| - 1];
      if r.heading.Some? then subs + [RowItem(r, false)] else subs
  }

  /** Rows before the first top-level row are dropped. */
  lemma {:induction false} OrphanRowsDropped(rows: seq<Row>)
    requires forall i :: 0 <= i < |rows| ==> !StartsItem(rows[i])
    ensures NutritionItems(rows) == []
    decreases |rows|
  {
    if rows != [] {
      var init := rows[..|rows| - 1];
      assert forall i :: 0 <= i < |init| ==> init[i] == rows[i];
      OrphanRowsDropped(init);
    }
  }

  /**
   * A top-level row followed by rows that start nothing: one more item, whose sub-items are
   * exactly the labelled rows after it, in order.
   */
  lemma {:induction false} NutritionGroup(before: seq<Row>, top: Row, after: seq<Row>)
    requires StartsItem(top)
    requires forall i :: 0 <= i < |after| ==> !StartsItem(after[i])
    ensures NutritionItems(before + [top] + after) == NutritionItems(before) + [Group(top, after)]
    decreases |after|
  {
    if after == [] {
      assert before + [top] + after == before + [top];
      NutritionGroupStart(before, top);
    } else {
      var init, r := after[..|after| - 1], after[|after| - 1];
      assert forall i :: 0 <= i < |init| ==> !StartsItem(init[i]) by {
        assert forall i :: 0 <= i < |init| ==> init[i] == after[i];
      }
      NutritionGroup(before, top, init);
      NutritionGroupStep(before, top, init, r);
      SnocRegroup(before + [top], init, r, after);
    }
  }

  /** A top-level row starts a new group. */
  lemma NutritionGroupStart(before: seq<Row>, top: Row)
    requires StartsItem(top)
    ensures NutritionItems(before + [top]) == NutritionItems(before) + [Group(top, [])]
  {
    DropLast(before, top);
    assert Group(top, []) == RowItem(top, true);
  }

  /** The item a top-level row and the rows after it make. */
  function Group(top: Row, after: seq<Row>): NutritionItem
    requires top.heading.Some?
  {
    RowItem(top, true).(subItems := Some(SubItems(after)))
  }

  /** One more row after a group: a labelled one joins the group's sub-items, an unlabelled one is dropped. */
  lemma NutritionGroupStep(before: seq<Row>, top: Row, init: seq<Row>, r: Row)
    requires StartsItem(top) && !StartsItem(r)
    requires NutritionItems(before + [top] + init) == NutritionItems(before) + [Group(top, init)]
    ensures NutritionItems(before + [top] + init + [r]) == NutritionItems(before) + [Group(top, init + [r])]
  {
    var front := before + [top] + init;
    DropLast(front, r);
    DropLast(init, r);
  }

  lemma SnocRegroup<T>(a: seq<T>, init: seq<T>, x: T, c: seq<T>)
    requires c != [] && init == c[..|c| - 1] && x == c[|c| - 1]
    ensures init + [x] == c && a + init + [x] == a + c
  {
    assert init + [x] == c;
  }

  lemma DropLast<T>(a: seq<T>, x: T)
    ensures (a + [x])[..|a|] == a && (a + [x])[|a|] == x
  {
  }

  /** `nutrition if nutrition.items else None`. */
  function NutritionOf(serving: Option<Tag>, rows: seq<Row>): (n: Option<Nutrition>)
    ensures n.None? <==> NutritionItems(rows) == []
    ensures n.Some? ==> n.value.items == NutritionItems(rows) && n.value.servingSize == TextOf(serving)
  {
    var items := NutritionItems(rows);
    if items != [] then Some(Nutrition(TextOf(serving), items)) else None
  }

  /** A page without any top-level nutrition row has no nutrition. */
  lemma NoTopRowNoNutrition(serving: Option<Tag>, rows: seq<Row>)
    requires forall i :: 0 <= i < |rows| ==> !StartsItem(rows[i])
    ensures NutritionOf(serving, rows).None?
  {
    OrphanRowsDropped(rows);
  }

  // ---------------------------------------------------------------------------------------------
  // One product

  /** `.product-description p`, else `.coh-inline-element + p`. */
  function DescriptionTag(d: Detail): Option<Tag> {
    if d.descriptionParagraph.Some? then d.descriptionParagraph else d.inlineParagraph
  }

  /** The first `<p>` of the ingredient section, if both are there. */
  function IngredientsOf(section: Option<Option<Tag>>): (r: Option<string>)
    ensures r.Some? <==> section.Some? && section.value.Some?
  {
    match section
    case None => None
    case Some(p) => TextOf(p)
  }

  /** The contents of a product. */
  function ContentsOf(d: Detail): ProductContent {
    ProductContent(Texts(d.features), NutritionOf(d.serving, d.rows), IngredientsOf(d.ingredientSection), TextOf(d.recyclability))
  }

  /** The product a card gives, once its detail URL and link text are known. */
  function Assemble(card: Card, title: string, url: string, brand: string, category: string, d: Detail, now: string): Product {
    Product(
      if d.h1.Some? then GetText(d.h1.value) else title,
      url, brand, category,
      AppendNew([], ImageUrls(d.imageSrcs)),
      TextOf(d.size),
      ProductLine(card.subtitle, d.subtitle, url),
      TextOf(DescriptionTag(d)),
      AppendNew(Texts(card.highlightLabels), Texts(d.highlights)),
      ContentsOf(d),
      now)
  }

  /**
   * `parse_product_page(card, brand_name, category)`: `None` when the card has no link (the
   * subscript of `None` raises) or when the brand's name or category is not a string (the record
   * does not validate); otherwise the product of the card's detail page. `now` is the timestamp.
   */
  function ParseProduct(card: Card, brandName: Json, category: Json, web: Web, now: string): (r: Option<Product>)
    ensures r.Some? <==> card.link.Some? && brandName.JStr? && category.JStr?
    ensures r.Some? ==> r.value.url == DetailUrl(card.link.value.href) && r.value.brand == brandName.s && r.value.category == category.s
  {
    match card.link
    case None => None
    case Some(a) =>
      var url := DetailUrl(a.href);
      if brandName.JStr? && category.JStr? then
        Some(Assemble(card, GetText(a.text), url, brandName.s, category.s, web.detail(url), now))
      else None
  }

  /** The name is the detail page's heading, else the link text; every text field is stripped. */
  lemma ProductFields(card: Card, brandName: Json, category: Json, web: Web, now: string)
    requires ParseProduct(card, brandName, category, web, now).Some?
    ensures var p, d := ParseProduct(card, brandName, category, web, now).value, web.detail(DetailUrl(card.link.value.href));
      && p.name == (if d.h1.Some? then GetText(d.h1.value) else GetText(card.link.value.text))
      && Trimmed(p.name, Space)
      && (p.description.Some? <==> d.descriptionParagraph.Some? || d.inlineParagraph.Some?)
      && (p.contents.nutrition.Some? <==> NutritionItems(d.rows) != [])
      && p.createdAt == now
  {
  }

  /** The product line code, with its keyword loop. */
  method FindProductLine(cardSubtitle: Option<Tag>, detailSubtitle: Option<Tag>, detailUrl: string) returns (line: Option<string>)
    ensures line == ProductLine(cardSubtitle, detailSubtitle, detailUrl)
  {
    var sub := SubtitleLine(cardSubtitle, detailSubtitle);
    var keyword: Option<string> := None;
    if sub.None? || sub.value == "" {
      keyword := FindKeyword(Lower(detailUrl));
    }
    line := Fallback(sub, keyword);
  }

  /** The nutrition code: the row loop, then `nutrition if nutrition.items else None`. */
  method FindNutrition(serving: Option<Tag>, rows: seq<Row>) returns (n: Option<Nutrition>)
    ensures n == NutritionOf(serving, rows)
  {
    var items := BuildNutritionItems(rows);
    n := if items != [] then Some(Nutrition(TextOf(serving), items)) else None;
  }

  /** The body of `parse_product_page`, with its loops. */
  method ParseProductPage(card: Card, brandName: Json, category: Json, web: Web, now: string) returns (r: Option<Product>)
    ensures r == ParseProduct(card, brandName, category, web, now)
  {
    if card.link.None? {
      return None;
    }
    var a := card.link.value;
    var url := DetailUrl(a.href);
    var title := GetText(a.text);
    var d := web.detail(url);
    var name := if d.h1.Some? then GetText(d.h1.value) else title;
    var images := CollectImages(d.imageSrcs);
    var line := FindProductLine(card.subtitle, d.subtitle, url);
    var labels := MergeLabels(Texts(card.highlightLabels), Texts(d.highlights));
    var nutrition := FindNutrition(d.serving, d.rows);
    var contents := ProductContent(Texts(d.features), nutrition, IngredientsOf(d.ingredientSection), TextOf(d.recyclability));
    if !brandName.JStr? || !category.JStr? {
      return None;
    }
    r := Some(Product(name, url, brandName.s, category.s, images, TextOf(d.size), line, TextOf(DescriptionTag(d)), labels, contents, now));
  }

  /** The products of one listing page: the cards that give a product, in card order. */
  function CardProducts(cards: seq<Card>, brandName: Json, category: Json, web: Web, now: string): (ps: seq<Product>)
    ensures |ps| <= |cards|
    decreases |cards|
  {
    if cards == [] then []
    else
      var ps := CardProducts(cards[..|cards| - 1], brandName, category, web, now);
      match ParseProduct(cards[|cards| - 1], brandName, category, web, now)
      case Some(p) => ps + [p]
      case None => ps
  }

  /** A card that gives nothing is dropped without affecting the others. */
  lemma {:induction false} CardProductsConcat(a: seq<Card>, b: seq<Card>, brandName: Json, category: Json, web: Web, now: string)
    ensures CardProducts(a + b, brandName, category, web, now) == CardProducts(a, brandName, category, web, now) + CardProducts(b, brandName, category, web, now)
    decreases |b|
  {
    if b == [] {
      assert a + b == a;
    } else {
      assert (a + b)[..|a + b| - 1] == a + b[..|b| - 1];
      CardProductsConcat(a, b[..|b| - 1], brandName, category, web, now);
    }
  }

  /** With a valid brand, every card with a link gives one product, and only those do. */
  lemma {:induction false} CardProductsCount(cards: seq<Card>, brandName: Json, category: Json, web: Web, now: string)
    requires brandName.JStr? && category.JStr?
    ensures |CardProducts(cards, brandName, category, web, now)| == |LinkedCards(cards)|
    decreases |cards|
  {
    if cards != [] {
      CardProductsCount(cards[..|cards| - 1], brandName, category, web, now);
    }
  }

  /** The cards that have a link. */
  function LinkedCards(cards: seq<Card>): (r: seq<Card>)
    ensures |r| <= |cards|
    decreases |cards|
  {
    if cards == [] then []
    else LinkedCards(cards[..|cards| - 1]) + if cards[|cards| - 1].link.Some? then [cards[|cards| - 1]] else []
  }

  /** One more card: its product, if it gives one, comes last. */
  lemma CardProductsSnoc(cards: seq<Card>, i: nat, brandName: Json, category: Json, web: Web, now: string, p: Option<Product>)
    requires i < |cards| && p == ParseProduct(cards[i], brandName, category, web, now)
    ensures CardProducts(cards[..i + 1], brandName, category, web, now) == CardProducts(cards[..i], brandName, category, web, now) + (if p.Some? then [p.value] else [])
  {
    assert cards[..i + 1][..i] == cards[..i];
  }

  /** The loop over the cards of one listing page (run concurrently in the source, sequentially here). */
  method ParseCards(cards: seq<Card>, brandName: Json, category: Json, web: Web, now: string) returns (ps: seq<Product>)
    ensures ps == CardProducts(cards, brandName, category, web, now)
  {
    ps := [];
    for i := 0 to |cards|
      invariant ps == CardProducts(cards[..i], brandName, category, web, now)
    {
      var p := ParseProductPage(cards[i], brandName, category, web, now);
      CardProductsSnoc(cards, i, brandName, category, web, now, p);
      if p.Some? {
        ps := ps + [p.value];
      }
    }
    assert cards[..|cards|] == cards;
  }

  /** The products of a crawled brand: its listing pages in order, each page's products in order. */
  function BrandProducts(urls: seq<string>, brandName: Json, category: Json, web: Web, now: string): seq<Product>
    decreases |urls|
  {
    if urls == [] then []
    else BrandProducts(urls[..|urls| - 1], brandName, category, web, now) + CardProducts(web.listing(urls[|urls| - 1]), brandName, category, web, now)
  }

  /** The loop over a brand's listing pages. */
  method CrawlUrls(urls: seq<string>, brandName: Json, category: Json, web: Web, now: string) returns (ps: seq<Product>)
    ensures ps == BrandProducts(urls, brandName, category, web, now)
  {
    ps := [];
    for i := 0 to |urls|
      invariant ps == BrandProducts(urls[..i], brandName, category, web, now)
    {
      assert urls[..i + 1][..i] == urls[..i];
      var cards := web.listing(urls[i]);
      var more := ParseCards(cards, brandName, category, web, now);
      ps := ps + more;
    }
    assert urls[..|urls|] == urls;
  }

  // ---------------------------------------------------------------------------------------------
  // Classifying a brand

  /** An entry of the side lists: `{"title": name, "url": url, "category": category}`. */
  datatype LinkRecord = LinkRecord(title: Json, url: string, category: Json)

  /** The outcome of `classify_brand`: skipped as external, skipped as broken, or the URLs to crawl. */
  datatype Verdict = External(entry: LinkRecord) | Broken(entry: LinkRecord) | Crawl(urls: seq<string>)

  /** `SPECIAL_BRAND_URLS`: the brands whose products are spread over several listing pages. */
  function SpecialUrls(name: string): (r: Option<seq<string>>)
    ensures r.Some? ==> r.value != []
  {
    if name == "Coffee Mate" then Some([Origin + "/coffee-mate-liquid", Origin + "/coffee-mate-powder"])
    else if name == "NESCAFÉ" then Some([Origin + "/nescafe/coffee"])
    else if name == "Drumstick" then
      Some([Origin + "/drumstick/tubs", Origin + "/drumstick/classics", Origin + "/drumstick/minis",
            Origin + "/drumstick/featured-cones", Origin + "/drumstick/plant-based"])
    else if name == "Boost" then Some([Origin + "/boost/products"])
    else None
  }

  /** `name in SPECIAL_BRAND_URLS`: a string is looked up, a list or a dict cannot be hashed. */
  function SpecialLookup(name: Json): (r: Result<Option<seq<string>>>)
    ensures r.Raised? <==> name.JList? || name.JObj?
    ensures r.Ok? && r.value.Some? ==> name.JStr? && r.value == SpecialUrls(name.s)
  {
    match name
    case JStr(s) => Ok(SpecialUrls(s))
    case JList(_) => Raised(TypeError)
    case JObj(_) => Raised(TypeError)
    case _ => Ok(None)
  }

  /** The tests after the URL is known, in the order the source makes them. */
  function Triage(name: Json, url: string, category: Json, web: Web): Result<Verdict> {
    var entry := LinkRecord(name, url, category);
    if !IsInternalUrl(url) then Ok(External(entry))
    else if IsRedirectToExternal(web.landing(url)) then Ok(External(entry))
    else if IsBrokenLink(web.navigation(url)) then Ok(Broken(entry))
    else
      match SpecialLookup(name)
      case Raised(e) => Raised(e)
      case Ok(special) => Ok(Crawl(special.GetOr([url])))
  }

  /**
   * `classify_brand(brand)`: `brand["title"]`, `brand["url"].strip()`, `brand["category"]`,
   * each of which can raise, then the triage.
   */
  function Classify(brand: Json, web: Web): Result<Verdict> {
    match Subscript(brand, "title")
    case Raised(e) => Raised(e)
    case Ok(name) =>
      match Subscript(brand, "url")
      case Raised(e) => Raised(e)
      case Ok(url) =>
        if !url.JStr? then Raised(AttributeError)
        else
          match Subscript(brand, "category")
          case Raised(e) => Raised(e)
          case Ok(category) => Triage(name, Strip(url.s), category, web)
  }

  /**
   * The triage: a URL off the domain is external before any probe; one that redirects off it is
   * external; one that is broken is broken; only a URL that passes all three is crawled, and then
   * a special brand's own pages replace it.
   */
  lemma TriageSpec(name: Json, url: string, category: Json, web: Web)
    ensures var r := Triage(name, url, category, web);
      && (r.Ok? && r.value.External? <==> !IsInternalUrl(url) || IsRedirectToExternal(web.landing(url)))
      && (r.Ok? && r.value.Broken? <==> IsInternalUrl(url) && !IsRedirectToExternal(web.landing(url)) && IsBrokenLink(web.navigation(url)))
      && (r.Ok? && !r.value.Crawl? ==> r.value.entry == LinkRecord(name, url, category))
      && (r.Ok? && r.value.Crawl? ==> r.value.urls == (if name.JStr? && SpecialUrls(name.s).Some? then SpecialUrls(name.s).value else [url]))
      && (r.Raised? <==> IsInternalUrl(url) && !IsRedirectToExternal(web.landing(url)) && !IsBrokenLink(web.navigation(url)) && (name.JList? || name.JObj?))
  {
  }

  /** An external URL is recorded without opening it: the probes' answers make no difference. */
  lemma ExternalNeedsNoProbe(name: Json, url: string, category: Json, web: Web, other: Web)
    requires !IsInternalUrl(url)
    ensures Triage(name, url, category, web) == Triage(name, url, category, other) == Ok(External(LinkRecord(name, url, category)))
  {
  }

  /** A special brand is crawled on its own pages only when its URL passes every test first. */
  lemma SpecialBrandStillClassified(url: string, category: Json, web: Web)
    requires !IsInternalUrl(url) || IsRedirectToExternal(web.landing(url)) || IsBrokenLink(web.navigation(url))
    ensures !Triage(JStr("Boost"), url, category, web).Ok? || !Triage(JStr("Boost"), url, category, web).value.Crawl?
  {
  }

  // ---------------------------------------------------------------------------------------------
  // The run

  /** Where the loop over the brands stands: products so far, the side lists' new entries, and the exception that ended it. */
  datatype Progress = Progress(products: seq<Product>, external: seq<LinkRecord>, broken: seq<LinkRecord>, failure: Option<PyError>)

  /**
   * One brand of the loop, given what reading its title, reading its category and classifying
   * it gave: the first exception ends the loop; otherwise the brand's products or its side-list entry.
   */
  function Step(p: Progress, name: Result<Json>, category: Result<Json>, verdict: Result<Verdict>, web: Web, now: string): Progress {
    if name.Raised? then p.(failure := Some(name.error))
    else if category.Raised? then p.(failure := Some(category.error))
    else
      match verdict
      case Raised(e) => p.(failure := Some(e))
      case Ok(External(entry)) => p.(external := p.external + [entry])
      case Ok(Broken(entry)) => p.(broken := p.broken + [entry])
      case Ok(Crawl(urls)) => p.(products := p.products + BrandProducts(urls, name.value, category.value, web, now))
  }

  /** One brand: `brand["title"]`, `brand["category"]`, `classify_brand(brand)`. */
  function BrandStep(p: Progress, brand: Json, web: Web, now: string): Progress {
    Step(p, Subscript(brand, "title"), Subscript(brand, "category"), Classify(brand, web), web, now)
  }

  /** The loop over the brands; the first exception ends it. */
  function CrawlBrands(brands: seq<Json>, web: Web, now: string): (p: Progress)
    decreases |brands|
  {
    if brands == [] then Start
    else
      var p := CrawlBrands(brands[..|brands| - 1], web, now);
      if p.failure.Some? then p else BrandStep(p, brands[|brands| - 1], web, now)
  }

  /** Nothing raised yet. */
  const Start := Progress([], [], [], None)

  /**
   * A brand adds to the progress so far exactly what it adds to a fresh one: its products, its
   * side-list entry, or the exception that ends the loop.
   */
  lemma BrandStepShift(p: Progress, brand: Json, web: Web, now: string)
    requires p.failure.None?
    ensures var q, q0 := BrandStep(p, brand, web, now), BrandStep(Start, brand, web, now);
      q == Progress(p.products + q0.products, p.external + q0.external, p.broken + q0.broken, q0.failure)
  {
    StepShift(p, Subscript(brand, "title"), Subscript(brand, "category"), Classify(brand, web), web, now);
  }

  /** A brand that raises nothing adds its products or its side-list entry, and nothing else. */
  lemma StepOk(name: Result<Json>, category: Result<Json>, verdict: Result<Verdict>, web: Web, now: string)
    requires name.Ok? && category.Ok? && verdict.Ok?
    ensures var q := Step(Start, name, category, verdict, web, now);
      && q.failure.None?
      && q.external == (if verdict.value.External? then [verdict.value.entry] else [])
      && q.broken == (if verdict.value.Broken? then [verdict.value.entry] else [])
      && q.products == (if verdict.value.Crawl? then BrandProducts(verdict.value.urls, name.value, category.value, web, now) else [])
  {
  }

  lemma StepShift(p: Progress, name: Result<Json>, category: Result<Json>, verdict: Result<Verdict>, web: Web, now: string)
    requires p.failure.None?
    ensures var q, q0 := Step(p, name, category, verdict, web, now), Step(Start, name, category, verdict, web, now);
      q == Progress(p.products + q0.products, p.external + q0.external, p.broken + q0.broken, q0.failure)
  {
    assert p.products + [] == p.products && p.external + [] == p.external && p.broken + [] == p.broken;
  }

  /** The loop over the first `i + 1` brands is the loop over the first `i`, then brand `i`. */
  lemma CrawlBrandsSnoc(brands: seq<Json>, web: Web, now: string, i: nat)
    requires i < |brands| && CrawlBrands(brands[..i], web, now).failure.None?
    ensures CrawlBrands(brands[..i + 1], web, now) == BrandStep(CrawlBrands(brands[..i], web, now), brands[i], web, now)
  {
    assert brands[..i + 1][..i] == brands[..i];
  }

  lemma {:induction false} CrawlStopsAtFailure(brands: seq<Json>, web: Web, now: string, i: nat)
    requires i < |brands| && CrawlBrands(brands[..i], web, now).failure.None?
    requires BrandStep(CrawlBrands(brands[..i], web, now), brands[i], web, now).failure.Some?
    ensures CrawlBrands(brands, web, now) == BrandStep(CrawlBrands(brands[..i], web, now), brands[i], web, now)
    decreases |brands|
  {
    if i + 1 == |brands| {
      assert brands[..|brands| - 1] == brands[..i];
    } else {
      var init := brands[..|brands| - 1];
      assert init[..i] == brands[..i] && init[i] == brands[i];
      CrawlStopsAtFailure(init, web, now, i);
    }
  }

  /** The products found so far are `all`, and each side list has grown by the entries of the progress. */
  predicate Tracks(p: Progress, all: seq<Product>, external0: seq<LinkRecord>, external: seq<LinkRecord>,
                   broken0: seq<LinkRecord>, broken: seq<LinkRecord>) {
    all == p.products && external == external0 + p.external && broken == broken0 + p.broken
  }

  /** One more brand keeps the lists in step with the progress. */
  lemma TracksStep(p: Progress, q: Progress, all: seq<Product>, external0: seq<LinkRecord>, external1: seq<LinkRecord>,
                   external2: seq<LinkRecord>, broken0: seq<LinkRecord>, broken1: seq<LinkRecord>, broken2: seq<LinkRecord>,
                   all2: seq<Product>)
    requires Tracks(p, all, external0, external1, broken0, broken1)
    requires external2 == external1 + q.external && broken2 == broken1 + q.broken
    requires q.failure.None? ==> all2 == all + q.products
    ensures var r := Progress(p.products + q.products, p.external + q.external, p.broken + q.broken, q.failure);
      external2 == external0 + r.external && broken2 == broken0 + r.broken
      && (q.failure.None? ==> Tracks(r, all2, external0, external2, broken0, broken2))
  {
    assert external0 + p.external + q.external == external0 + (p.external + q.external);
    assert broken0 + p.broken + q.broken == broken0 + (p.broken + q.broken);
  }

  /** The files `run` writes: each list only when it has entries. */
  datatype Saved = Saved(products: Option<seq<Product>>, external: Option<seq<LinkRecord>>, broken: Option<seq<LinkRecord>>)

  /** The crawler with its two side lists. */
  class Crawler {
    var externalLinks: seq<LinkRecord>
    var brokenLinks: seq<LinkRecord>

    /** `ProductCrawler()`: both side lists empty. */
    constructor()
      ensures externalLinks == [] && brokenLinks == []
    {
      externalLinks := [];
      brokenLinks := [];
    }

    /** `classify_brand(brand)`, with its appends to the side lists. */
    method ClassifyBrand(brand: Json, web: Web) returns (r: Result<Verdict>)
      modifies this
      ensures r == Classify(brand, web)
      ensures externalLinks == old(externalLinks) + (if r.Ok? && r.value.External? then [r.value.entry] else [])
      ensures brokenLinks == old(brokenLinks) + (if r.Ok? && r.value.Broken? then [r.value.entry] else [])
    {
      var name := Subscript(brand, "title");
      if name.Raised? {
        return Raised(name.error);
      }
      var raw := Subscript(brand, "url");
      if raw.Raised? {
        return Raised(raw.error);
      }
      if !raw.value.JStr? {
        return Raised(AttributeError);
      }
      var category := Subscript(brand, "category");
      if category.Raised? {
        return Raised(category.error);
      }
      r := TriageBrand(name.value, Strip(raw.value.s), category.value, web);
    }

    /** The tests of `classify_brand` once the title, the stripped URL and the category are read. */
    method TriageBrand(name: Json, url: string, category: Json, web: Web) returns (r: Result<Verdict>)
      modifies this
      ensures r == Triage(name, url, category, web)
      ensures externalLinks == old(externalLinks) + (if r.Ok? && r.value.External? then [r.value.entry] else [])
      ensures brokenLinks == old(brokenLinks) + (if r.Ok? && r.value.Broken? then [r.value.entry] else [])
    {
      var entry := LinkRecord(name, url, category);
      if !IsInternalUrl(url) {
        externalLinks := externalLinks + [entry];
        return Ok(External(entry));
      }
      if IsRedirectToExternal(web.landing(url)) {
        externalLinks := externalLinks + [entry];
        return Ok(External(entry));
      }
      if IsBrokenLink(web.navigation(url)) {
        brokenLinks := brokenLinks + [entry];
        return Ok(Broken(entry));
      }
      var special := SpecialLookup(name);
      if special.Raised? {
        return Raised(special.error);
      }
      r := Ok(Crawl(special.value.GetOr([url])));
    }

    /**
     * One brand of `run`: its title and category, then `classify_brand`, then the products of a
     * brand to crawl. The side lists grow as `classify_brand` says; `failure` is the exception that
     * ends the loop.
     */
    method CrawlBrand(brand: Json, web: Web, now: string) returns (failure: Option<PyError>, more: seq<Product>)
      modifies this
      ensures var q := BrandStep(Start, brand, web, now);
        && failure == q.failure && more == q.products
        && externalLinks == old(externalLinks) + q.external && brokenLinks == old(brokenLinks) + q.broken
    {
      var name := Subscript(brand, "title");
      if name.Raised? {
        return Some(name.error), [];
      }
      var category := Subscript(brand, "category");
      if category.Raised? {
        return Some(category.error), [];
      }
      var verdict := ClassifyBrand(brand, web);
      if verdict.Raised? {
        return Some(verdict.error), [];
      }
      StepOk(name, category, verdict, web, now);
      assert BrandStep(Start, brand, web, now) == Step(Start, name, category, verdict, web, now);
      failure, more := None, [];
      if verdict.value.Crawl? {
        more := CrawlUrls(verdict.value.urls, name.value, category.value, web, now);
      }
    }

    /** The loop of `run` over the brands, up to the first exception. */
    method CrawlAll(brands: seq<Json>, web: Web, now: string) returns (failure: Option<PyError>, all: seq<Product>)
      modifies this
      ensures var p := CrawlBrands(brands, web, now);
        && failure == p.failure && (failure.None? ==> all == p.products)
        && externalLinks == old(externalLinks) + p.external && brokenLinks == old(brokenLinks) + p.broken
    {
      all := [];
      ghost var external0, broken0 := externalLinks, brokenLinks;
      for i := 0 to |brands|
        invariant Tracks(CrawlBrands(brands[..i], web, now), all, external0, externalLinks, broken0, brokenLinks)
        invariant CrawlBrands(brands[..i], web, now).failure.None?
      {
        ghost var before := CrawlBrands(brands[..i], web, now);
        ghost var q0 := BrandStep(Start, brands[i], web, now);
        ghost var external1, broken1 := externalLinks, brokenLinks;
        var stop, more := CrawlBrand(brands[i], web, now);
        BrandStepShift(before, brands[i], web, now);
        if stop.Some? {
          CrawlStopsAtFailure(brands, web, now, i);
          TracksStep(before, q0, all, external0, external1, externalLinks, broken0, broken1, brokenLinks, all);
          return stop, all;
        }
        CrawlBrandsSnoc(brands, web, now, i);
        TracksStep(before, q0, all, external0, external1, externalLinks, broken0, broken1, brokenLinks, all + more);
        all := all + more;
      }
      assert brands[..|brands|] == brands;
      failure := None;
    }

    /**
     * `run()` on the sitemap read from its file: the brands in order, then the three files.
     * An exception inside the loop ends the run with nothing written.
     */
    method Run(sitemap: Json, web: Web, now: string) returns (r: Result<Saved>)
      modifies this
      ensures var brands := Get(sitemap, "brands", JList([]));
        brands.Ok? && Iterate(brands.value).Ok? ==>
          var p := CrawlBrands(Iterate(brands.value).value, web, now);
          && externalLinks == old(externalLinks) + p.external
          && brokenLinks == old(brokenLinks) + p.broken
          && r == (if p.failure.Some? then Raised(p.failure.value)
                   else Ok(Saved(SaveIfAny(p.products), SaveIfAny(externalLinks), SaveIfAny(brokenLinks))))
      ensures var brands := Get(sitemap, "brands", JList([]));
        !(brands.Ok? && Iterate(brands.value).Ok?) ==> r.Raised? && externalLinks == old(externalLinks) && brokenLinks == old(brokenLinks)
    {
      var got := Get(sitemap, "brands", JList([]));
      if got.Raised? {
        return Raised(got.error);
      }
      var items := Iterate(got.value);
      if items.Raised? {
        return Raised(items.error);
      }
      var failure, all := CrawlAll(items.value, web, now);
      if failure.Some? {
        return Raised(failure.value);
      }
      r := Ok(Saved(SaveIfAny(all), SaveIfAny(externalLinks), SaveIfAny(brokenLinks)));
    }
  }
}
