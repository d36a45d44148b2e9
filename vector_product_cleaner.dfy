/**
 * `scripts/vector/clean_product_data.py`: the embedding text of a scraped product and the loop
 * that turns raw products into index records.
 *
 * The text is made of sections in a fixed order (title, brand, category, description, size,
 * line, label, then from `contents`: features, ingredients, nutrition), each present only when
 * its stripped value is truthy, joined by blank lines.
 */
module VectorProductCleaner {
  import opened Wrappers
  import opened Text
  import opened Json
  import opened CommonUtils
  import opened Batch
  import opened IndexedDocuments

  const NoContent := "No content available for this product."

  /** A section that is present only when its value is truthy. */
  function Section(value: Json, before: string, after: string): seq<string> {
    if Truthy(value) then [before + Show(value) + after] else []
  }

  /** The seven sections read straight from the product, in order. */
  function HeadParts(product: Json): seq<string> {
    Section(SafeStrip(Field(product, "title")), "**", "**") +
    Section(SafeStrip(Field(product, "brand")), "*Brand: ", "*") +
    Section(SafeStrip(Field(product, "category")), "*Category: ", "*") +
    Section(SafeStrip(Field(product, "description")), "Description: ", "") +
    Section(SafeStrip(Field(product, "product_size")), "Product Size: ", "") +
    Section(SafeStrip(Field(product, "product_line")), "Product Line: ", "") +
    Section(SafeFirst(Field(product, "labels")), "Product Label: ", "")
  }

  /** A feature with text once stripped. */
  predicate HasText(f: Json) {
    Truthy(SafeStrip(f))
  }

  /** The line of a feature: `- ` and its stripped text. */
  function FeatureLine(f: Json): string {
    "- " + Show(SafeStrip(f))
  }

  /** `[f"- {safe_strip(f)}" for f in features if safe_strip(f)]`: one line per feature with text, in order. */
  function FeatureLines(features: seq<Json>): (ls: seq<string>)
    ensures |ls| <= |features|
    ensures ls == [] <==> forall i :: 0 <= i < |features| ==> !HasText(features[i])
  {
    MapFilter(HasText, FeatureLine, features)
  }

  /** A line is listed exactly when some feature with text renders to it. */
  lemma FeatureLinesMember(features: seq<Json>, line: string)
    ensures line in FeatureLines(features) <==>
      exists i :: 0 <= i < |features| && HasText(features[i]) && line == FeatureLine(features[i])
  {
    MapFilterMember(HasText, FeatureLine, features, line);
  }

  /** One nutrition line: `indent- name`, then `: amount` when present, then ` (dv% DV)` when present. */
  function EntryText(indent: string, name: Json, amount: Json, dv: Json): string {
    Grow(Grow(indent + "- " + Show(name), Truthy(amount), ": " + Show(amount)), Truthy(dv), " (" + Show(dv) + "% DV)")
  }

  /** `line += tail` when a condition holds. */
  function Grow(line: string, cond: bool, tail: string): string {
    if cond then line + tail else line
  }

  function EntryName(entry: Json): Json {
    SafeStrip(Field(SafeDict(entry), "name"))
  }

  /** The line of one nutrition entry, or nothing when it has no name. */
  function Entry(indent: string, entry: Json): Option<string> {
    var d := SafeDict(entry);
    if !Truthy(EntryName(entry)) then None
    else Some(EntryText(indent, EntryName(entry), SafeStrip(Field(d, "amount")), SafeStrip(Field(d, "dv"))))
  }

  /** The lines of the named sub-items, in order. */
  function SubLines(subs: seq<Json>): seq<string>
    decreases |subs|
  {
    if subs == [] then []
    else SubLines(subs[..|subs| - 1]) + Present([Entry("  ", subs[|subs| - 1])])
  }

  /** `item.get("sub_items", [])`. */
  function SubItems(item: Json): Json {
    FieldOr(SafeDict(item), "sub_items", JList([]))
  }

  /**
   * The lines of one nutrition item: nothing when it has no name (its sub-items are skipped
   * with it), else its own line followed by its sub-items' lines. Iterating truthy `sub_items`
   * that is not iterable raises.
   */
  function ItemLines(item: Json): Result<seq<string>> {
    if !Truthy(EntryName(item)) then Ok([])
    else
      var line := Entry("", item).value;
      if !Truthy(SubItems(item)) then Ok([line])
      else match Iterate(SubItems(item))
        case Raised(e) => Raised(e)
        case Ok(subs) => Ok([line] + SubLines(subs))
  }

  /** The nutrition lines of all items, in order; the first failing item's error otherwise. */
  function NutritionLines(items: seq<Json>): Result<seq<string>>
    decreases |items|
  {
    if items == [] then Ok([])
    else match NutritionLines(items[..|items| - 1])
      case Raised(e) => Raised(e)
      case Ok(ls) =>
        match ItemLines(items[|items| - 1])
        case Raised(e) => Raised(e)
        case Ok(more) => Ok(ls + more)
  }

  /** `contents.get("features", [])`. */
  function Features(contents: Json): Json {
    FieldOr(contents, "features", JList([]))
  }

  function Nutrition(contents: Json): Json {
    SafeDict(Field(contents, "nutrition"))
  }

  /** `nutrition_dict.get("items", [])`. */
  function Items(contents: Json): Json {
    FieldOr(Nutrition(contents), "items", JList([]))
  }

  function NutritionHeader(serving: Json): string {
    "Nutrition" + (if Truthy(serving) then " (" + Show(serving) + ")" else "") + ":\n"
  }

  function NutritionSection(serving: Json, lines: seq<string>): seq<string> {
    if lines == [] then [] else [NutritionHeader(serving) + Join(lines, "\n")]
  }

  /** The features and ingredients sections of the `contents` dict. */
  function ContentsHead(contents: Json): seq<string> {
    FeaturesPart(Features(contents)) + Section(SafeStrip(Field(contents, "ingredients")), "Ingredients: ", "")
  }

  /** The features section: present only when some feature yields a line. */
  function FeaturesPart(features: Json): seq<string> {
    var fl := if features.JList? then FeatureLines(features.items) else [];
    if fl != [] then ["Features:\n" + Join(fl, "\n")] else []
  }

  /** The nutrition section of the `contents` dict; iterating a truthy non-iterable `items` raises. */
  function NutritionPart(contents: Json): Result<seq<string>> {
    var serving := SafeStrip(Field(Nutrition(contents), "serving_size"));
    if !Truthy(Items(contents)) then Ok([])
    else match Iterate(Items(contents))
      case Raised(e) => Raised(e)
      case Ok(items) =>
        match NutritionLines(items)
        case Raised(e) => Raised(e)
        case Ok(nl) => Ok(NutritionSection(serving, nl))
  }

  /** The sections taken from the `contents` dict: features, ingredients, nutrition. */
  function ContentsParts(contents: Json): Result<seq<string>> {
    match NutritionPart(contents)
    case Raised(e) => Raised(e)
    case Ok(n) => Ok(ContentsHead(contents) + n)
  }

  /** All sections of a product, in order; `build_content` on a non-dict raises at the first `.get`. */
  function Parts(product: Json): Result<seq<string>> {
    if !product.JObj? then Raised(AttributeError)
    else
      var contents := SafeDict(Field(product, "contents"));
      if !Truthy(contents) then Ok(HeadParts(product))
      else match ContentsParts(contents)
        case Raised(e) => Raised(e)
        case Ok(cs) => Ok(HeadParts(product) + cs)
  }

  /** What `build_content` returns. */
  function Content(product: Json): Result<string> {
    match Parts(product)
    case Raised(e) => Raised(e)
    case Ok(ps) => if ps == [] then Ok(NoContent) else Ok(Strip(Join(ps, "\n\n")))
  }

  /** `build_content`, step by step as the source builds `parts` and `nutrition_lines`. */
  method BuildContent(product: Json) returns (r: Result<string>)
    ensures r == Content(product)
  {
    if !product.JObj? {
      return Raised(AttributeError);
    }
    var parts := CollectHeadParts(product);
    var contents := SafeDict(Field(product, "contents"));
    if Truthy(contents) {
      var more := CollectContentsParts(contents);
      if more.Raised? {
        return Raised(more.error);
      }
      parts := parts + more.value;
    }
    assert Parts(product) == Ok(parts);
    if parts == [] {
      return Ok(NoContent);
    }
    return Ok(Strip(Join(parts, "\n\n")));
  }

  /** The sections of `build_content` taken from the product itself, appended in turn. */
  method CollectHeadParts(product: Json) returns (parts: seq<string>)
    requires product.JObj?
    ensures parts == HeadParts(product)
  {
    parts := [];
    var title := SafeStrip(Field(product, "title"));
    var brand := SafeStrip(Field(product, "brand"));
    var category := SafeStrip(Field(product, "category"));
    parts := parts + Section(title, "**", "**");
    assert parts == Section(title, "**", "**");
    parts := parts + Section(brand, "*Brand: ", "*");
    parts := parts + Section(category, "*Category: ", "*");
    var desc := SafeStrip(Field(product, "description"));
    var size := SafeStrip(Field(product, "product_size"));
    var productLine := SafeStrip(Field(product, "product_line"));
    var firstLabel := SafeFirst(Field(product, "labels"));
    parts := parts + Section(desc, "Description: ", "");
    parts := parts + Section(size, "Product Size: ", "");
    parts := parts + Section(productLine, "Product Line: ", "");
    parts := parts + Section(firstLabel, "Product Label: ", "");
  }

  /** The part of `build_content` under `if contents:`, appending to an empty `parts`. */
  method CollectContentsParts(contents: Json) returns (r: Result<seq<string>>)
    ensures r == ContentsParts(contents)
  {
    var parts := CollectContentsHead(contents);
    var nutrition := CollectNutritionPart(contents);
    if nutrition.Raised? {
      return Raised(nutrition.error);
    }
    return Ok(parts + nutrition.value);
  }

  /** The features and ingredients sections of `build_content`, appended in turn. */
  method CollectContentsHead(contents: Json) returns (parts: seq<string>)
    ensures parts == ContentsHead(contents)
  {
    parts := [];
    var features := Features(contents);
    if features.JList? {
      var featureLines := FeatureLines(features.items);
      if featureLines != [] {
        parts := parts + ["Features:\n" + Join(featureLines, "\n")];
      }
    }
    assert parts == FeaturesPart(features);
    var ingredients := SafeStrip(Field(contents, "ingredients"));
    parts := parts + Section(ingredients, "Ingredients: ", "");
  }

  /** The nutrition part of `build_content`: the lines of the items, then their section. */
  method CollectNutritionPart(contents: Json) returns (r: Result<seq<string>>)
    ensures r == NutritionPart(contents)
  {
    var servingSize := SafeStrip(Field(Nutrition(contents), "serving_size"));
    var items := Items(contents);
    var nutritionLines: seq<string> := [];
    if Truthy(items) {
      var all := Iterate(items);
      if all.Raised? {
        return Raised(all.error);
      }
      var more := CollectNutritionLines(all.value);
      if more.Raised? {
        return Raised(more.error);
      }
      nutritionLines := more.value;
    }
    var part: seq<string> := [];
    if nutritionLines != [] {
      part := part + [NutritionHeader(servingSize) + Join(nutritionLines, "\n")];
    }
    assert part == NutritionSection(servingSize, nutritionLines);
    return Ok(part);
  }

  /** Appending one item to the list of items. */
  lemma NutritionLinesSnoc(xs: seq<Json>, x: Json)
    ensures NutritionLines(xs + [x]) ==
      if NutritionLines(xs).Raised? then NutritionLines(xs)
      else if ItemLines(x).Raised? then Raised(ItemLines(x).error)
      else Ok(NutritionLines(xs).value + ItemLines(x).value)
  {
    assert (xs + [x])[..|xs|] == xs;
  }

  /** The first failing item decides the outcome: nothing after it is looked at. */
  lemma {:induction false} NutritionLinesFailFast(items: seq<Json>, i: nat)
    requires i <= |items|
    requires NutritionLines(items[..i]).Raised?
    ensures NutritionLines(items) == NutritionLines(items[..i])
    decreases |items| - i
  {
    if i < |items| {
      assert items[..i + 1] == items[..i] + [items[i]];
      NutritionLinesSnoc(items[..i], items[i]);
      NutritionLinesFailFast(items, i + 1);
    } else {
      assert items[..i] == items;
    }
  }

  /** The `for item in items` loop. */
  method CollectNutritionLines(items: seq<Json>) returns (r: Result<seq<string>>)
    ensures r == NutritionLines(items)
  {
    var nutritionLines: seq<string> := [];
    for i := 0 to |items|
      invariant NutritionLines(items[..i]) == Ok(nutritionLines)
    {
      assert items[..i + 1] == items[..i] + [items[i]];
      NutritionLinesSnoc(items[..i], items[i]);
      var more := CollectItemLines(items[i]);
      if more.Raised? {
        NutritionLinesFailFast(items, i + 1);
        return Raised(more.error);
      }
      nutritionLines := nutritionLines + more.value;
    }
    assert items[..|items|] == items;
    return Ok(nutritionLines);
  }

  /** One pass of that loop: the item's own line, then the lines of its named sub-items. */
  method CollectItemLines(item: Json) returns (r: Result<seq<string>>)
    ensures r == ItemLines(item)
  {
    var line := EntryLine("", item);
    if line == None {
      return Ok([]);
    }
    var lines := [line.value];
    var subItems := SubItems(item);
    if Truthy(subItems) {
      var all := Iterate(subItems);
      if all.Raised? {
        return Raised(all.error);
      }
      var subLines := CollectSubLines(all.value);
      lines := lines + subLines;
    }
    return Ok(lines);
  }

  /** The `for sub in sub_items` loop. */
  method CollectSubLines(subs: seq<Json>) returns (lines: seq<string>)
    ensures lines == SubLines(subs)
  {
    lines := [];
    for j := 0 to |subs|
      invariant lines == SubLines(subs[..j])
    {
      assert subs[..j + 1][..j] == subs[..j];
      var subLine := EntryLine("  ", subs[j]);
      assert SubLines(subs[..j + 1]) == lines + Present([subLine]);
      if subLine == None {
        continue;
      }
      assert Present([subLine]) == [subLine.value];
      lines := lines + [subLine.value];
    }
    assert subs[..|subs|] == subs;
  }

  /** One entry's line, grown with `+=` as the source does; nothing when the entry has no name. */
  method EntryLine(indent: string, entry: Json) returns (line: Option<string>)
    ensures line == Entry(indent, entry)
  {
    var d := SafeDict(entry);
    var name := SafeStrip(Field(d, "name"));
    var amount := SafeStrip(Field(d, "amount"));
    var dv := SafeStrip(Field(d, "dv"));
    if !Truthy(name) {
      return None;
    }
    var text := indent + "- " + Show(name);
    if Truthy(amount) {
      text := text + (": " + Show(amount));
    }
    if Truthy(dv) {
      text := text + (" (" + Show(dv) + "% DV)");
    }
    return Some(text);
  }

  /** The raw values `main` passes to the record for one product. */
  function ProductFields(product: Json, title: Json, brand: Json): RawFields {
    RawFields(title, brand, SafeFirst(Field(product, "images")), Field(product, "created_at"),
      Field(product, "url"), JList([]), SafeStrip(Field(product, "category")),
      SafeFirst(Field(product, "labels")), Field(product, "product_line"), JNull, JNull, JNull)
  }

  /**
   * The body of the `try` in `main` for one product: `product["brand"]`, `product["title"]`,
   * the identifier, the content, then the record's validation, failing at the first step that raises.
   */
  function Process(product: Json): Result<IndexedDocument> {
    match Subscript(product, "brand")
    case Raised(e) => Raised(e)
    case Ok(brand) =>
      match Subscript(product, "title")
      case Raised(e) => Raised(e)
      case Ok(title) =>
        match GenerateIdOf(brand, title)
        case Raised(e) => Raised(e)
        case Ok(id) =>
          Finish(product, brand, title, id, Content(product))
  }

  /** The steps after the identifier: the content, then the record's validation. */
  function Finish(product: Json, brand: Json, title: Json, id: string, content: Result<string>): Result<IndexedDocument> {
    match content
    case Raised(e) => Raised(e)
    case Ok(c) => Make(id, "product", c, ProductFields(product, title, brand))
  }

  /** One pass of the loop in `main`. */
  method ProcessOne(product: Json) returns (r: Result<IndexedDocument>)
    ensures r == Process(product)
  {
    var brand := Subscript(product, "brand");
    if brand.Raised? {
      return Raised(brand.error);
    }
    var title := Subscript(product, "title");
    if title.Raised? {
      return Raised(title.error);
    }
    var id := GenerateIdOf(brand.value, title.value);
    if id.Raised? {
      return Raised(id.error);
    }
    var content := BuildContent(product);
    if content.Raised? {
      return Raised(content.error);
    }
    r := Make(id.value, "product", content.value, ProductFields(product, title.value, brand.value));
  }

  /** Only a dict can be processed. */
  lemma ProcessNeedsDict(product: Json)
    ensures Process(product).Ok? ==> product.JObj?
  {
  }

  /** The loop of `main` over this script's `Process`. */
  method ProcessAll(products: seq<Json>) returns (r: Result<seq<IndexedDocument>>)
    ensures r == Run(Process, products)
  {
    forall x: Json
      ensures Process(x).Ok? ==> x.JObj?
    {
      ProcessNeedsDict(x);
    }
    r := RunLoop(Process, products);
  }

  /** A product missing `brand` or `title` fails with a KeyError, and so is dropped. */
  lemma MissingKeyFails(product: Json)
    requires product.JObj?
    requires Lookup(product.fields, "brand").None? || Lookup(product.fields, "title").None?
    ensures Process(product) == Raised(KeyError)
  {
  }

  /** A product is processed exactly when its brand and title are strings, its content builds and the record validates. */
  lemma ProcessSucceeds(product: Json)
    ensures Process(product).Ok? <==>
      Subscript(product, "brand").Ok? && Subscript(product, "brand").value.JStr? &&
      Subscript(product, "title").Ok? && Subscript(product, "title").value.JStr? &&
      Content(product).Ok? &&
      Valid(ProductFields(product, Subscript(product, "title").value, Subscript(product, "brand").value))
  {
  }

  /** With string `brand` and `title`, a product's outcome is its content's, then its record's. */
  lemma ProcessSteps(product: Json, brand: string, title: string)
    requires Subscript(product, "brand") == Ok(JStr(brand)) && Subscript(product, "title") == Ok(JStr(title))
    ensures Process(product) == Finish(product, JStr(brand), JStr(title), GenerateId(brand, title), Content(product))
  {
  }

  /**
   * The record built after the identifier, whatever the content: the first image and the first
   * label when they are strings, `None` otherwise, no recipe or article fields.
   */
  lemma FinishFields(product: Json, brand: string, title: string, id: string, content: Result<string>, d: IndexedDocument)
    requires Finish(product, JStr(brand), JStr(title), id, content) == Ok(d)
    ensures d.kind == "product" && d.id == id && d.title == title && d.brand == Some(brand) && content == Ok(d.content)
    ensures ValidOptStr(SafeFirst(Field(product, "images"))) == Ok(d.image)
    ensures ValidOptStr(SafeFirst(Field(product, "labels"))) == Ok(d.productLabel)
    ensures var images := Field(product, "images");
      if images.JList? && images.items != [] && images.items[0].JStr? then d.image == Some(images.items[0].s)
      else d.image == None
    ensures d.recipeTags == Some([]) && d.articleTheme == None && d.articleCategory == None && d.publishedAt == None
  {
    var f := ProductFields(product, JStr(title), JStr(brand));
    assert f.brand == JStr(brand) && f.recipeTags == JList([]);
    MakeValues(id, "product", content.value, f, d);
    assert ValidOptStr(JStr(brand)) == Ok(Some(brand));
    assert ValidOptStrList(JList([])) == Ok(Some([]));
    var images := Field(product, "images");
    if images.JList? && images.items != [] && images.items[0].JStr? {
      assert ValidOptStr(images.items[0]) == Ok(Some(images.items[0].s));
    }
  }

  /** A section opens with two non-blank characters other than `No`. */
  predicate Lead(part: string) {
    |part| >= 2 && !IsSpace(part[0]) && !IsSpace(part[1]) && !(part[0] == 'N' && part[1] == 'o')
  }

  predicate AllLead(parts: seq<string>) {
    forall i :: 0 <= i < |parts| ==> Lead(parts[i])
  }

  lemma PrefixLead(before: string, rest: string)
    requires Lead(before)
    ensures Lead(before + rest)
  {
    assert (before + rest)[0] == before[0] && (before + rest)[1] == before[1];
  }

  lemma SectionLead(v: Json, before: string, after: string)
    requires Lead(before)
    ensures AllLead(Section(v, before, after))
  {
    if Truthy(v) {
      PrefixLead(before, Show(v) + after);
      assert before + Show(v) + after == before + (Show(v) + after);
    }
  }

  lemma AllLeadConcat(a: seq<string>, b: seq<string>)
    requires AllLead(a) && AllLead(b)
    ensures AllLead(a + b)
  {
    forall i | 0 <= i < |a + b| ensures Lead((a + b)[i]) {
      if i < |a| {
        assert (a + b)[i] == a[i];
      } else {
        assert (a + b)[i] == b[i - |a|];
      }
    }
  }

  lemma LiteralLeads()
    ensures Lead("**") && Lead("*Brand: ") && Lead("*Category: ") && Lead("Description: ")
    ensures Lead("Product Size: ") && Lead("Product Line: ") && Lead("Product Label: ")
    ensures Lead("Features:\n") && Lead("Ingredients: ") && Lead("Nutrition")
  {
  }

  lemma HeadLead(product: Json)
    ensures AllLead(HeadParts(product))
  {
    LiteralLeads();
    var s1 := Section(SafeStrip(Field(product, "title")), "**", "**");
    var s2 := Section(SafeStrip(Field(product, "brand")), "*Brand: ", "*");
    var s3 := Section(SafeStrip(Field(product, "category")), "*Category: ", "*");
    var s4 := Section(SafeStrip(Field(product, "description")), "Description: ", "");
    var s5 := Section(SafeStrip(Field(product, "product_size")), "Product Size: ", "");
    var s6 := Section(SafeStrip(Field(product, "product_line")), "Product Line: ", "");
    var s7 := Section(SafeFirst(Field(product, "labels")), "Product Label: ", "");
    SectionLead(SafeStrip(Field(product, "title")), "**", "**");
    SectionLead(SafeStrip(Field(product, "brand")), "*Brand: ", "*");
    SectionLead(SafeStrip(Field(product, "category")), "*Category: ", "*");
    SectionLead(SafeStrip(Field(product, "description")), "Description: ", "");
    SectionLead(SafeStrip(Field(product, "product_size")), "Product Size: ", "");
    SectionLead(SafeStrip(Field(product, "product_line")), "Product Line: ", "");
    SectionLead(SafeFirst(Field(product, "labels")), "Product Label: ", "");
    AllLeadConcat(s1, s2);
    AllLeadConcat(s1 + s2, s3);
    AllLeadConcat(s1 + s2 + s3, s4);
    AllLeadConcat(s1 + s2 + s3 + s4, s5);
    AllLeadConcat(s1 + s2 + s3 + s4 + s5, s6);
    AllLeadConcat(s1 + s2 + s3 + s4 + s5 + s6, s7);
    assert HeadParts(product) == s1 + s2 + s3 + s4 + s5 + s6 + s7;
  }

  lemma ContentsLead(contents: Json)
    requires ContentsParts(contents).Ok?
    ensures AllLead(ContentsParts(contents).value)
  {
    LiteralLeads();
    var features := Features(contents);
    var fl := if features.JList? then FeatureLines(features.items) else [];
    PrefixLead("Features:\n", Join(fl, "\n"));
    var f := FeaturesPart(features);
    var ingredients := Section(SafeStrip(Field(contents, "ingredients")), "Ingredients: ", "");
    SectionLead(SafeStrip(Field(contents, "ingredients")), "Ingredients: ", "");
    AllLeadConcat(f, ingredients);
    assert ContentsHead(contents) == f + ingredients;
    var n := NutritionPart(contents).value;
    NutritionLead(contents);
    AllLeadConcat(f + ingredients, n);
  }

  lemma NutritionLead(contents: Json)
    requires NutritionPart(contents).Ok?
    ensures AllLead(NutritionPart(contents).value)
  {
    LiteralLeads();
    var serving := SafeStrip(Field(Nutrition(contents), "serving_size"));
    var n := NutritionPart(contents).value;
    if n != [] {
      var items := Iterate(Items(contents)).value;
      var lines := NutritionLines(items).value;
      assert n == NutritionSection(serving, lines);
      var header := NutritionHeader(serving);
      assert header == "Nutrition" + header[9..];
      PrefixLead("Nutrition", header[9..] + Join(lines, "\n"));
      assert n == [header + Join(lines, "\n")];
    }
  }

  lemma NoContentHead()
    ensures |NoContent| >= 2 && NoContent[0] == 'N' && NoContent[1] == 'o'
  {
  }

  /** `build_content` gives the fixed placeholder exactly when the product has no section at all. */
  lemma {:induction false} NoContentExactly(product: Json)
    requires Parts(product).Ok?
    ensures Content(product) == Ok(NoContent) <==> Parts(product).value == []
  {
    var ps := Parts(product).value;
    PartsLead(product);
    if ps != [] {
      JoinedLead(ps);
      assert Content(product) == Ok(Strip(Join(ps, "\n\n")));
    }
  }

  /** Every section of a product opens with two non-blank characters other than `No`. */
  lemma PartsLead(product: Json)
    requires Parts(product).Ok?
    ensures AllLead(Parts(product).value)
  {
    HeadLead(product);
    var contents := SafeDict(Field(product, "contents"));
    if Truthy(contents) {
      ContentsLead(contents);
      AllLeadConcat(HeadParts(product), ContentsParts(contents).value);
    }
  }

  /** Joined and stripped, such sections cannot give the placeholder. */
  lemma JoinedLead(ps: seq<string>)
    requires ps != [] && AllLead(ps)
    ensures Strip(Join(ps, "\n\n")) != NoContent
  {
    var j := Join(ps, "\n\n");
    JoinEnds(ps, "\n\n");
    assert Lead(ps[0]);
    assert j[0] == ps[0][0] && j[1] == ps[0][1];
    StripKeepsHead(j);
    NoContentHead();
  }

  /** The nutrition lines of two runs of items are those of the first followed by those of the second. */
  lemma {:induction false} NutritionLinesConcat(a: seq<Json>, b: seq<Json>)
    ensures NutritionLines(a + b) ==
      if NutritionLines(a).Raised? then NutritionLines(a)
      else if NutritionLines(b).Raised? then NutritionLines(b)
      else Ok(NutritionLines(a).value + NutritionLines(b).value)
    decreases |b|
  {
    if b == [] {
      assert a + b == a;
      assert NutritionLines(a).Ok? ==> NutritionLines(a).value + [] == NutritionLines(a).value;
    } else {
      var init := b[..|b| - 1];
      var x := b[|b| - 1];
      assert b == init + [x];
      assert a + b == (a + init) + [x];
      NutritionLinesConcat(a, init);
      NutritionLinesSnoc(a + init, x);
      NutritionLinesSnoc(init, x);
      if NutritionLines(a).Ok? && NutritionLines(init).Ok? && ItemLines(x).Ok? {
        var la, lb, lx := NutritionLines(a).value, NutritionLines(init).value, ItemLines(x).value;
        ConcatAssoc(la, lb, lx);
      }
    }
  }

  lemma ConcatAssoc<T>(a: seq<T>, b: seq<T>, c: seq<T>)
    ensures a + b + c == a + (b + c)
  {
  }

  /** An item without a name is skipped together with its sub-items: removing it changes nothing. */
  lemma UnnamedItemSkipped(a: seq<Json>, item: Json, b: seq<Json>)
    requires !Truthy(EntryName(item))
    ensures NutritionLines(a + [item] + b) == NutritionLines(a + b)
  {
    NutritionLinesConcat(a + [item], b);
    NutritionLinesConcat(a, b);
    NutritionLinesSnoc(a, item);
    assert ItemLines(item) == Ok([]);
    if NutritionLines(a).Ok? {
      assert NutritionLines(a).value + [] == NutritionLines(a).value;
    }
  }

  /** A named item's own line comes first, followed by exactly the lines of its named sub-items. */
  lemma NamedItemLines(item: Json)
    requires Truthy(EntryName(item)) && Truthy(SubItems(item)) && Iterate(SubItems(item)).Ok?
    ensures var subs := Iterate(SubItems(item)).value;
      ItemLines(item) == Ok([Entry("", item).value] + SubLines(subs)) &&
      |SubLines(subs)| <= |subs| &&
      forall k :: 0 <= k < |subs| ==> (Entry("  ", subs[k]).Some? <==> Truthy(EntryName(subs[k])))
  {
    var subs := Iterate(SubItems(item)).value;
    SubLinesLength(subs);
  }

  lemma {:induction false} SubLinesLength(subs: seq<Json>)
    ensures |SubLines(subs)| <= |subs|
    decreases |subs|
  {
    if subs != [] {
      SubLinesLength(subs[..|subs| - 1]);
    }
  }

  /**
   * An entry has a line exactly when its stripped name is truthy. The line is the indent, `- `
   * and the name, followed by `: amount` exactly when an amount is present and then by
   * ` (dv% DV)` exactly when a daily value is present.
   */
  lemma EntryShape(indent: string, entry: Json)
    ensures Entry(indent, entry).Some? <==> Truthy(EntryName(entry))
    ensures Entry(indent, entry).Some? ==>
      var line := Entry(indent, entry).value;
      var d := SafeDict(entry);
      var head := indent + "- " + Show(EntryName(entry));
      var amount := SafeStrip(Field(d, "amount"));
      var dv := SafeStrip(Field(d, "dv"));
      (Truthy(amount) && Truthy(dv) ==> line == head + ": " + Show(amount) + " (" + Show(dv) + "% DV)") &&
      (Truthy(amount) && !Truthy(dv) ==> line == head + ": " + Show(amount)) &&
      (!Truthy(amount) && Truthy(dv) ==> line == head + " (" + Show(dv) + "% DV)") &&
      (!Truthy(amount) && !Truthy(dv) ==> line == head)
  {
    if Truthy(EntryName(entry)) {
      var d := SafeDict(entry);
      EntryTextShape(indent, EntryName(entry), SafeStrip(Field(d, "amount")), SafeStrip(Field(d, "dv")));
    }
  }

  /** The four shapes of `indent- name[: amount][ (dv% DV)]`. */
  lemma EntryTextShape(indent: string, name: Json, amount: Json, dv: Json)
    ensures var line := EntryText(indent, name, amount, dv);
      var head := indent + "- " + Show(name);
      (Truthy(amount) && Truthy(dv) ==> line == head + ": " + Show(amount) + " (" + Show(dv) + "% DV)") &&
      (Truthy(amount) && !Truthy(dv) ==> line == head + ": " + Show(amount)) &&
      (!Truthy(amount) && Truthy(dv) ==> line == head + " (" + Show(dv) + "% DV)") &&
      (!Truthy(amount) && !Truthy(dv) ==> line == head)
  {
    GrowShape(indent + "- " + Show(name), Truthy(amount), ": " + Show(amount), Truthy(dv), " (" + Show(dv) + "% DV)");
  }

  /** Two conditional `+=`: the head, then each tail whose condition holds, in order. */
  lemma GrowShape(head: string, c1: bool, t1: string, c2: bool, t2: string)
    ensures var line := Grow(Grow(head, c1, t1), c2, t2);
      (c1 && c2 ==> line == head + t1 + t2) &&
      (c1 && !c2 ==> line == head + t1) &&
      (!c1 && c2 ==> line == head + t2) &&
      (!c1 && !c2 ==> line == head)
  {
  }

  /** The header, spelled out. */
  lemma HeaderText(serving: Json)
    ensures Truthy(serving) ==> NutritionHeader(serving) == "Nutrition (" + Show(serving) + "):\n"
    ensures !Truthy(serving) ==> NutritionHeader(serving) == "Nutrition:\n"
  {
    var v := Show(serving);
    assert "Nutrition" + (" (" + v + ")") + ":\n" == "Nutrition (" + v + "):\n";
  }

  /** The nutrition section is absent without lines; otherwise it is one part headed `Nutrition`, with the serving size in parentheses when present. */
  lemma NutritionSectionShape(serving: Json, lines: seq<string>)
    ensures NutritionSection(serving, lines) == [] <==> lines == []
    ensures lines != [] ==>
      var part := NutritionSection(serving, lines)[0];
      |NutritionSection(serving, lines)| == 1 &&
      (Truthy(serving) ==> StartsWith(part, "Nutrition (" + Show(serving) + "):\n")) &&
      (!Truthy(serving) ==> StartsWith(part, "Nutrition:\n")) &&
      EndsWith(part, lines[|lines| - 1])
  {
    if lines != [] {
      var header, j := NutritionHeader(serving), Join(lines, "\n");
      assert NutritionSection(serving, lines) == [header + j];
      HeaderText(serving);
      StartsWithConcat(header, j);
      JoinEndsWith(lines, "\n");
      EndsWithConcat(header, j, lines[|lines| - 1]);
    }
  }
}
