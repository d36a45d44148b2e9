/**
 * `scripts/clean_product_data.py`: the older embedding text of a product and its processing loop.
 *
 * Unlike the current builder it merges description and size into one section, keeps only string
 * features, reads nutrition items and sub-items only when they are lists, and mentions the title
 * and brand only as a fallback when no other section exists.
 */
module LegacyProductCleaner {
  import opened Wrappers
  import opened Text
  import opened Json
  import opened CommonUtils
  import opened Batch
  import opened IndexedDocuments
  import V = VectorProductCleaner

  /**
   * The description-and-size line. `desc_line += desc` raises a TypeError when the description is
   * truthy but not a string; the size is rendered by an f-string and never raises.
   */
  function DescLine(desc: Json, size: Json): Result<string> {
    if Truthy(desc) && !desc.JStr? then Raised(TypeError)
    else
      var d := if Truthy(desc) then desc.s else "";
      if !Truthy(size) then Ok(d)
      else if d != "" then Ok(d + " (Size: " + Show(size) + ")")
      else Ok("Size: " + Show(size))
  }

  /** The four ways description and size combine. */
  lemma DescLineCases(desc: Json, size: Json)
    requires Truthy(desc) ==> desc.JStr?
    ensures Truthy(desc) && Truthy(size) ==> DescLine(desc, size) == Ok(desc.s + " (Size: " + Show(size) + ")")
    ensures !Truthy(desc) && Truthy(size) ==> DescLine(desc, size) == Ok("Size: " + Show(size))
    ensures Truthy(desc) && !Truthy(size) ==> DescLine(desc, size) == Ok(desc.s)
    ensures !Truthy(desc) && !Truthy(size) ==> DescLine(desc, size) == Ok("")
    ensures DescLine(desc, size) == Ok("") <==> !Truthy(desc) && !Truthy(size)
  {
  }

  /** `isinstance(f, str) and f.strip()`. */
  predicate NonBlank(f: Json) {
    f.JStr? && Truthy(SafeStrip(f))
  }

  /** The line of a non-blank string feature. */
  function FeatureLine(f: Json): string {
    "- " + Show(SafeStrip(f))
  }

  /** `[f"- {safe_strip(f)}" for f in features if isinstance(f, str) and f.strip()]`. */
  function FeatureLines(features: seq<Json>): (ls: seq<string>)
    ensures |ls| <= |features|
    ensures ls == [] <==> forall i :: 0 <= i < |features| ==> !NonBlank(features[i])
  {
    MapFilter(NonBlank, FeatureLine, features)
  }

  /** A line is listed exactly when some string feature with non-blank text renders to it. */
  lemma FeatureLinesMember(features: seq<Json>, line: string)
    ensures line in FeatureLines(features) <==>
      exists i :: 0 <= i < |features| && NonBlank(features[i]) && line == FeatureLine(features[i])
  {
    MapFilterMember(NonBlank, FeatureLine, features, line);
  }

  /** The `Features:` section, absent when no feature is a non-blank string. */
  function FeaturesSection(contents: Json): seq<string> {
    var features := V.Features(contents);
    var fl := if features.JList? then FeatureLines(features.items) else [];
    if fl != [] then ["Features:\n" + Join(fl, "\n")] else []
  }

  /** The lines of one item; sub-items count only when `sub_items` is a list. */
  function ItemLines(item: Json): seq<string> {
    if !Truthy(V.EntryName(item)) then []
    else
      var subs := Field(SafeDict(item), "sub_items");
      [V.Entry("", item).value] + (if subs.JList? then V.SubLines(subs.items) else [])
  }

  function NutritionLines(items: seq<Json>): seq<string>
    decreases |items|
  {
    if items == [] then []
    else NutritionLines(items[..|items| - 1]) + ItemLines(items[|items| - 1])
  }

  /** The features, ingredients and nutrition sections of a non-empty `contents` dict. */
  function ContentsParts(contents: Json): seq<string> {
    var items := V.Items(contents);
    var nl := if items.JList? then NutritionLines(items.items) else [];
    FeaturesSection(contents) +
    V.Section(SafeStrip(Field(contents, "ingredients")), "Ingredients: ", "") +
    V.NutritionSection(SafeStrip(Field(V.Nutrition(contents), "serving_size")), nl)
  }

  /** The sections before the fallback: the description line, then those from `contents`. */
  function BodyParts(product: Json): Result<seq<string>> {
    if !product.JObj? then Raised(AttributeError)
    else
      match DescLine(SafeStrip(Field(product, "description")), SafeStrip(Field(product, "product_size")))
      case Raised(e) => Raised(e)
      case Ok(dl) =>
        var head := if dl != "" then [dl] else [];
        var contents := SafeDict(Field(product, "contents"));
        if !Truthy(contents) then Ok(head) else Ok(head + ContentsParts(contents))
  }

  /**
   * The fallback: `#fallback title by brand`, or the title alone without a brand, or nothing without
   * a title. A bare title that is not a string makes the final `"\n\n".join` raise a TypeError.
   */
  function Fallback(product: Json): Result<seq<string>> {
    var title := SafeStrip(Field(product, "title"));
    var brand := SafeStrip(Field(product, "brand"));
    if !Truthy(title) then Ok([])
    else if Truthy(brand) then Ok(["#fallback " + Show(title) + " by " + Show(brand)])
    else if title.JStr? then Ok([title.s])
    else Raised(TypeError)
  }

  function Parts(product: Json): Result<seq<string>> {
    match BodyParts(product)
    case Raised(e) => Raised(e)
    case Ok(b) => if b != [] then Ok(b) else Fallback(product)
  }

  /** What `build_content` returns: the parts joined by blank lines, stripped. */
  function Content(product: Json): Result<string> {
    match Parts(product)
    case Raised(e) => Raised(e)
    case Ok(ps) => Ok(Strip(Join(ps, "\n\n")))
  }

  /** Title and brand appear only in the fallback, and the fallback is used exactly when nothing else is there. */
  lemma FallbackOnlyWhenEmpty(product: Json)
    requires BodyParts(product).Ok?
    ensures BodyParts(product).value != [] ==> Parts(product) == BodyParts(product)
    ensures BodyParts(product).value == [] ==> Parts(product) == Fallback(product)
    ensures Parts(product).Ok? && BodyParts(product).value == [] ==> |Parts(product).value| <= 1
  {
  }

  /**
   * The fallback's shape: nothing without a title; with a brand `#fallback title by brand`;
   * without one the title alone, which the later `join` refuses unless it is a string.
   */
  lemma FallbackShape(product: Json)
    ensures var title := SafeStrip(Field(product, "title"));
      var brand := SafeStrip(Field(product, "brand"));
      (Fallback(product) == Ok([]) <==> !Truthy(title)) &&
      (Truthy(title) && Truthy(brand) ==>
        Fallback(product) == Ok(["#fallback " + Show(title) + " by " + Show(brand)])) &&
      (Truthy(title) && !Truthy(brand) && title.JStr? ==> Fallback(product) == Ok([title.s])) &&
      (Truthy(title) && !Truthy(brand) && !title.JStr? ==> Fallback(product) == Raised(TypeError))
  {
  }

  /** With no section and no title the content is the empty string. */
  lemma NoPartsNoTitle(product: Json)
    requires BodyParts(product) == Ok([]) && !Truthy(SafeStrip(Field(product, "title")))
    ensures Content(product) == Ok("")
  {
    assert Strip("") == "";
  }

  /** Nutrition items are read only from a list: anything else gives no nutrition section. */
  lemma ItemsOnlyFromList(contents: Json)
    requires !V.Items(contents).JList?
    ensures ContentsParts(contents) ==
      FeaturesSection(contents) + V.Section(SafeStrip(Field(contents, "ingredients")), "Ingredients: ", "")
  {
    var serving := SafeStrip(Field(V.Nutrition(contents), "serving_size"));
    assert V.NutritionSection(serving, []) == [];
  }

  /** Sub-items are read only from a list: a named item with anything else has just its own line. */
  lemma SubItemsOnlyFromList(item: Json)
    requires Truthy(V.EntryName(item)) && !Field(SafeDict(item), "sub_items").JList?
    ensures ItemLines(item) == [V.Entry("", item).value]
  {
  }

  lemma {:induction false} NutritionLinesConcat(a: seq<Json>, b: seq<Json>)
    ensures NutritionLines(a + b) == NutritionLines(a) + NutritionLines(b)
    decreases |b|
  {
    if b == [] {
      assert a + b == a;
    } else {
      var init := b[..|b| - 1];
      assert (a + b)[..|a + b| - 1] == a + init;
      NutritionLinesConcat(a, init);
      V.ConcatAssoc(NutritionLines(a), NutritionLines(init), ItemLines(b[|b| - 1]));
    }
  }

  /** An unnamed item is skipped with all of its sub-items: removing it changes nothing. */
  lemma UnnamedItemSkipped(a: seq<Json>, item: Json, b: seq<Json>)
    requires !Truthy(V.EntryName(item))
    ensures NutritionLines(a + [item] + b) == NutritionLines(a + b)
  {
    NutritionLinesConcat(a + [item], b);
    NutritionLinesConcat(a, [item]);
    NutritionLinesConcat(a, b);
    NutritionLinesOne(item);
    var na := NutritionLines(a);
    assert na + [] == na;
  }

  /** The lines of a single unnamed item: none. */
  lemma NutritionLinesOne(item: Json)
    requires !Truthy(V.EntryName(item))
    ensures NutritionLines([item]) == []
  {
    assert [item][..0] == [];
  }

  /** `build_content`, step by step. */
  method BuildContent(product: Json) returns (r: Result<string>)
    ensures r == Content(product)
  {
    if !product.JObj? {
      return Raised(AttributeError);
    }
    var parts: seq<string> := [];
    var desc := SafeStrip(Field(product, "description"));
    var size := SafeStrip(Field(product, "product_size"));
    var descLine := BuildDescLine(desc, size);
    if descLine.Raised? {
      return Raised(descLine.error);
    }
    if descLine.value != "" {
      parts := parts + [descLine.value];
    }
    assert parts == if descLine.value != "" then [descLine.value] else [];
    var contents := SafeDict(Field(product, "contents"));
    if Truthy(contents) {
      var more := CollectContentsParts(contents);
      parts := parts + more;
    }
    assert BodyParts(product) == Ok(parts);
    if parts == [] {
      var fallback := BuildFallback(product);
      if fallback.Raised? {
        return Raised(fallback.error);
      }
      parts := fallback.value;
    }
    assert Parts(product) == Ok(parts);
    return Ok(Strip(Join(parts, "\n\n")));
  }

  /** `desc_line`, grown with `+=`. */
  method BuildDescLine(desc: Json, size: Json) returns (r: Result<string>)
    ensures r == DescLine(desc, size)
  {
    var descLine := "";
    if Truthy(desc) {
      if !desc.JStr? {
        return Raised(TypeError);
      }
      descLine := descLine + desc.s;
      assert descLine == desc.s;
    }
    if Truthy(size) {
      if descLine != "" {
        descLine := descLine + " (Size: " + Show(size) + ")";
      } else {
        descLine := "Size: " + Show(size);
      }
    }
    return Ok(descLine);
  }

  /** The fallback appended to an empty `parts`, and the TypeError of joining a non-string title. */
  method BuildFallback(product: Json) returns (r: Result<seq<string>>)
    ensures r == Fallback(product)
  {
    var parts: seq<string> := [];
    var title := SafeStrip(Field(product, "title"));
    var brand := SafeStrip(Field(product, "brand"));
    if Truthy(title) {
      if Truthy(brand) {
        parts := parts + ["#fallback " + Show(title) + " by " + Show(brand)];
        assert parts == ["#fallback " + Show(title) + " by " + Show(brand)];
        assert Fallback(product) == Ok(parts);
      } else if title.JStr? {
        parts := parts + [title.s];
        assert parts == [title.s];
        assert Fallback(product) == Ok(parts);
      } else {
        return Raised(TypeError);
      }
    } else {
      assert Fallback(product) == Ok([]);
    }
    return Ok(parts);
  }

  /** The part of `build_content` under `if isinstance(contents, dict) and contents:`. */
  method CollectContentsParts(contents: Json) returns (parts: seq<string>)
    ensures parts == ContentsParts(contents)
  {
    parts := [];
    var features := V.Features(contents);
    if features.JList? {
      var lines := CollectFeatureLines(features.items);
      if lines != [] {
        parts := parts + ["Features:\n" + Join(lines, "\n")];
      }
    }
    assert parts == FeaturesSection(contents);
    var ingredients := SafeStrip(Field(contents, "ingredients"));
    parts := parts + V.Section(ingredients, "Ingredients: ", "");
    ghost var head := parts;
    var servingSize := SafeStrip(Field(V.Nutrition(contents), "serving_size"));
    var items := V.Items(contents);
    var nutritionLines: seq<string> := [];
    if items.JList? {
      nutritionLines := CollectNutritionLines(items.items);
    }
    if nutritionLines != [] {
      parts := parts + [V.NutritionHeader(servingSize) + Join(nutritionLines, "\n")];
    } else {
      assert parts == parts + [];
    }
    assert parts == head + V.NutritionSection(servingSize, nutritionLines);
  }

  /** The feature comprehension as a loop over `features`. */
  method CollectFeatureLines(features: seq<Json>) returns (lines: seq<string>)
    ensures lines == FeatureLines(features)
  {
    lines := [];
    var i := |features|;
    assert features[i..] == [];
    while i > 0
      invariant 0 <= i <= |features|
      invariant lines == FeatureLines(features[i..])
    {
      i := i - 1;
      lines := FeatureStep(features, i, lines);
    }
    assert features[0..] == features;
  }

  /** One step of the comprehension, from the back: the feature at `i` in front of the rest. */
  method FeatureStep(features: seq<Json>, i: nat, rest: seq<string>) returns (lines: seq<string>)
    requires i < |features| && rest == FeatureLines(features[i + 1..])
    ensures lines == FeatureLines(features[i..])
  {
    FeatureLinesCons(features, i);
    lines := rest;
    if NonBlank(features[i]) {
      lines := [FeatureLine(features[i])] + lines;
    }
  }

  lemma FeatureLinesCons(features: seq<Json>, i: nat)
    requires i < |features|
    ensures FeatureLines(features[i..]) ==
      (if NonBlank(features[i]) then [FeatureLine(features[i])] else []) + FeatureLines(features[i + 1..])
  {
    var xs := features[i..];
    assert xs[0] == features[i] && xs[1..] == features[i + 1..];
    assert MapFilter(NonBlank, FeatureLine, xs) ==
      (if NonBlank(xs[0]) then [FeatureLine(xs[0])] else []) + MapFilter(NonBlank, FeatureLine, xs[1..]);
  }


  /** The `for item in items` loop. */
  method CollectNutritionLines(items: seq<Json>) returns (nutritionLines: seq<string>)
    ensures nutritionLines == NutritionLines(items)
  {
    nutritionLines := [];
    for i := 0 to |items|
      invariant nutritionLines == NutritionLines(items[..i])
    {
      assert items[..i + 1][..i] == items[..i];
      var more := CollectItemLines(items[i]);
      nutritionLines := nutritionLines + more;
    }
    assert items[..|items|] == items;
  }

  method CollectItemLines(item: Json) returns (lines: seq<string>)
    ensures lines == ItemLines(item)
  {
    var line := V.EntryLine("", item);
    if line == None {
      return [];
    }
    lines := [line.value];
    var subItems := Field(SafeDict(item), "sub_items");
    if subItems.JList? {
      var subLines := V.CollectSubLines(subItems.items);
      lines := lines + subLines;
    }
  }

  function ProductFields(product: Json, title: Json, brand: Json, image: Json, firstLabel: Json): RawFields {
    RawFields(title, brand, image, Field(product, "created_at"), Field(product, "url"), JList([]),
      Field(product, "category"), firstLabel, Field(product, "product_line"), JNull, JNull, JNull)
  }

  /** One pass of the `try` in `main`, in the order the source evaluates it. */
  function Process(product: Json): Result<IndexedDocument> {
    match Subscript(product, "brand")
    case Raised(e) => Raised(e)
    case Ok(brand) =>
      match Subscript(product, "title")
      case Raised(e) => Raised(e)
      case Ok(title) =>
        match GenerateIdOf(brand, title)
        case Raised(e) => Raised(e)
        case Ok(id) =>
          match Content(product)
          case Raised(e) => Raised(e)
          case Ok(content) =>
            match FirstIfTruthy(product, "images")
            case Raised(e) => Raised(e)
            case Ok(image) =>
              match FirstIfTruthy(product, "labels")
              case Raised(e) => Raised(e)
              case Ok(firstLabel) => Make(id, "product", content, ProductFields(product, title, brand, image, firstLabel))
  }

  method ProcessOne(product: Json) returns (r: Result<IndexedDocument>)
    ensures r == Process(product)
  {
    var brand := Subscript(product, "brand");
    if brand.Raised? {
      return Raised(brand.error);
    }
    var title := Subscript(product, "title");
    if title.Raised? {
      return Raised(title.error);
    }
    var id := GenerateIdOf(brand.value, title.value);
    if id.Raised? {
      return Raised(id.error);
    }
    var content := BuildContent(product);
    if content.Raised? {
      return Raised(content.error);
    }
    var image := FirstIfTruthy(product, "images");
    if image.Raised? {
      return Raised(image.error);
    }
    var firstLabel := FirstIfTruthy(product, "labels");
    if firstLabel.Raised? {
      return Raised(firstLabel.error);
    }
    r := Make(id.value, "product", content.value, ProductFields(product, title.value, brand.value, image.value, firstLabel.value));
  }

  /** Only a dict can be processed. */
  lemma ProcessNeedsDict(product: Json)
    ensures Process(product).Ok? ==> product.JObj?
  {
  }

  /** The loop of `main` over this script's `Process`. */
  method ProcessAll(products: seq<Json>) returns (r: Result<seq<IndexedDocument>>)
    ensures r == Run(Process, products)
  {
    forall x: Json
      ensures Process(x).Ok? ==> x.JObj?
    {
      ProcessNeedsDict(x);
    }
    r := RunLoop(Process, products);
  }

  lemma ProcessSteps(product: Json, brand: string, title: string)
    requires Subscript(product, "brand") == Ok(JStr(brand)) && Subscript(product, "title") == Ok(JStr(title))
    requires Process(product).Ok?
    ensures Content(product).Ok? && FirstIfTruthy(product, "images").Ok? && FirstIfTruthy(product, "labels").Ok?
    ensures Process(product) ==
      Make(GenerateId(brand, title), "product", Content(product).value,
        ProductFields(product, JStr(title), JStr(brand), FirstIfTruthy(product, "images").value,
          FirstIfTruthy(product, "labels").value))
  {
  }

  /** The image and label of a record: the first list element, or `None` for an empty or missing list. */
  lemma ProcessImageLabel(product: Json, brand: string, title: string, d: IndexedDocument)
    requires Subscript(product, "brand") == Ok(JStr(brand)) && Subscript(product, "title") == Ok(JStr(title))
    requires Process(product) == Ok(d)
    ensures d.kind == "product" && d.id == GenerateId(brand, title) && Content(product) == Ok(d.content)
    ensures ValidOptStr(FirstIfTruthy(product, "images").value) == Ok(d.image)
    ensures ValidOptStr(FirstIfTruthy(product, "labels").value) == Ok(d.productLabel)
    ensures !Truthy(Field(product, "images")) ==> d.image == None
    ensures !Truthy(Field(product, "labels")) ==> d.productLabel == None
    ensures d.articleCategory == None && d.publishedAt == None && d.recipeTags == Some([])
  {
    ProcessSteps(product, brand, title);
    var f := ProductFields(product, JStr(title), JStr(brand), FirstIfTruthy(product, "images").value,
      FirstIfTruthy(product, "labels").value);
    assert f.recipeTags == JList([]);
    MakeValues(GenerateId(brand, title), "product", Content(product).value, f, d);
    assert ValidOptStrList(JList([])) == Ok(Some([]));
  }
}
