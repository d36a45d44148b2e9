/**
 * `scripts/graph/clean_graph_data.py` and the node and edge records of `scripts/graph/schema.py`:
 * the raw products become one brand node per distinct brand, one product node per product with a
 * brand, and one `HAS_PRODUCT` edge per product node. The loop has no `try`: the first item that
 * raises ends the whole run.
 */
module GraphCleaner {
  import opened Wrappers
  import opened Json

  /** `BrandNode`; the cleaner never sets `url` or `image`. */
  datatype BrandNode = BrandNode(name: string, url: Option<string>, image: Option<string>)

  /** `ProductNode`. */
  datatype ProductNode = ProductNode(
    name: string,
    brand: string,
    url: Option<string>,
    image: Option<string>,
    description: Option<string>,
    productSize: Option<string>,
    productLine: Option<string>,
    productLabel: Option<string>)

  /** `HasProductEdge`; `kind` is the model's `type`, always `"HAS_PRODUCT"`. */
  datatype HasProductEdge = HasProductEdge(fromBrand: string, toProduct: string, kind: string)

  /** The three lists the script saves; `brands` is the brand dict's values in insertion order. */
  datatype Graph = Graph(brands: seq<BrandNode>, products: seq<ProductNode>, edges: seq<HasProductEdge>)

  function Names(bs: seq<BrandNode>): (ns: seq<string>)
    ensures |ns| == |bs| && forall i :: 0 <= i < |bs| ==> ns[i] == bs[i].name
  {
    seq(|bs|, i requires 0 <= i < |bs| => bs[i].name)
  }

  /**
   * `ProductNode(...)` for an item with the string brand `brand`. The image and label
   * expressions are evaluated first and may raise; then every field is validated.
   */
  function ProductOf(item: Json, brand: string): (r: Result<ProductNode>)
    ensures r.Ok? ==> r.value.brand == brand && Field(item, "title") == JStr(r.value.name)
  {
    match FirstIfTruthy(item, "images")
    case Raised(e) => Raised(e)
    case Ok(image) =>
      match FirstIfTruthy(item, "labels")
      case Raised(e) => Raised(e)
      case Ok(firstLabel) =>
        var name, url, description := Field(item, "title"), Field(item, "url"), Field(item, "description");
        var size, line := Field(item, "product_size"), Field(item, "product_line");
        if name.JStr? && ValidOptStr(url).Ok? && ValidOptStr(image).Ok? && ValidOptStr(description).Ok? &&
          ValidOptStr(size).Ok? && ValidOptStr(line).Ok? && ValidOptStr(firstLabel).Ok?
        then
          Ok(ProductNode(name.s, brand, ValidOptStr(url).value, ValidOptStr(image).value,
            ValidOptStr(description).value, ValidOptStr(size).value, ValidOptStr(line).value,
            ValidOptStr(firstLabel).value))
        else Raised(ValidationError)
  }

  /**
   * One pass of the loop: an item with a falsy brand changes nothing; a brand that cannot be a
   * dict key (a list or a dict) raises TypeError; any other brand that is not a string fails
   * the `BrandNode` validation.
   */
  function Step(g: Graph, item: Json): Result<Graph> {
    if !item.JObj? then Raised(AttributeError)
    else
      var b := Field(item, "brand");
      if !Truthy(b) then Ok(g)
      else if b.JList? || b.JObj? then Raised(TypeError)
      else if !b.JStr? then Raised(ValidationError)
      else
        var brands := if b.s in Names(g.brands) then g.brands else g.brands + [BrandNode(b.s, None, None)];
        match ProductOf(item, b.s)
        case Raised(e) => Raised(e)
        case Ok(p) => Ok(Graph(brands, g.products + [p], g.edges + [HasProductEdge(b.s, p.name, "HAS_PRODUCT")]))
  }

  /** `clean_graph_data` on the loaded items: the loop over every item, stopping at the first that raises. */
  function CleanGraph(items: seq<Json>): Result<Graph>
    decreases |items|
  {
    if items == [] then Ok(Graph([], [], []))
    else
      match CleanGraph(items[..|items| - 1])
      case Raised(e) => Raised(e)
      case Ok(g) => Step(g, items[|items| - 1])
  }

  /** The loop of `clean_graph_data`, growing the brand dict and the product and edge lists. */
  method CleanGraphData(items: seq<Json>) returns (r: Result<Graph>)
    ensures r == CleanGraph(items)
  {
    var brands: seq<BrandNode> := [];
    var products: seq<ProductNode> := [];
    var edges: seq<HasProductEdge> := [];
    for i := 0 to |items|
      invariant CleanGraph(items[..i]) == Ok(Graph(brands, products, edges))
    {
      var item := items[i];
      assert items[..i + 1][..i] == items[..i];
      if !item.JObj? {
        FailureSticks(items, i + 1);
        return Raised(AttributeError);
      }
      var brandName := Field(item, "brand");
      if !Truthy(brandName) {
        continue;
      }
      if brandName.JList? || brandName.JObj? {
        FailureSticks(items, i + 1);
        return Raised(TypeError);
      }
      // Only strings become keys, so any other brand misses the dict and fails `BrandNode` validation.
      if !brandName.JStr? {
        FailureSticks(items, i + 1);
        return Raised(ValidationError);
      }
      if brandName.s !in Names(brands) {
        brands := brands + [BrandNode(brandName.s, None, None)];
      }
      var product := ProductOf(item, brandName.s);
      if product.Raised? {
        FailureSticks(items, i + 1);
        return Raised(product.error);
      }
      products := products + [product.value];
      edges := edges + [HasProductEdge(brandName.s, product.value.name, "HAS_PRODUCT")];
    }
    assert items[..|items|] == items;
    return Ok(Graph(brands, products, edges));
  }

  /** Once a prefix of the items has raised, the run raises the same error. */
  lemma {:induction false} FailureSticks(items: seq<Json>, n: nat)
    requires n <= |items| && CleanGraph(items[..n]).Raised?
    ensures CleanGraph(items) == CleanGraph(items[..n])
    decreases |items| - n
  {
    if n < |items| {
      assert items[..n + 1][..n] == items[..n];
      FailureSticks(items, n + 1);
    } else {
      assert items[..n] == items;
    }
  }

  /** An item that aborts the run: not a dict, or a truthy brand that is not a string, or a product that fails. */
  predicate Fails(item: Json) {
    !item.JObj? ||
    (Truthy(Field(item, "brand")) &&
      (!Field(item, "brand").JStr? || ProductOf(item, Field(item, "brand").s).Raised?))
  }

  /** The run fails exactly when some item fails. */
  lemma {:induction false} CleanFails(items: seq<Json>)
    ensures CleanGraph(items).Raised? <==> exists i :: 0 <= i < |items| && Fails(items[i])
    decreases |items|
  {
    if items != [] {
      var init := items[..|items| - 1];
      CleanFails(init);
      assert forall i :: 0 <= i < |init| ==> init[i] == items[i];
    }
  }

  /** A product with a brand but no string `title` fails validation, and the whole run with it. */
  lemma MissingTitleAborts(items: seq<Json>, i: nat)
    requires i < |items| && items[i].JObj? && Field(items[i], "brand").JStr? && Field(items[i], "brand").s != []
    requires !Field(items[i], "title").JStr?
    ensures CleanGraph(items).Raised?
  {
    assert Fails(items[i]);
    CleanFails(items);
  }

  /** The items that become product nodes: those with a truthy brand, in input order. */
  function Kept(items: seq<Json>): (ks: seq<Json>)
    ensures |ks| <= |items|
    decreases |items|
  {
    if items == [] then []
    else Kept(items[..|items| - 1]) + (if Truthy(Field(items[|items| - 1], "brand")) then [items[|items| - 1]] else [])
  }

  /** `xs` with every repeat removed, keeping the first occurrence of each value. */
  function Dedup<T(==)>(xs: seq<T>): (ys: seq<T>)
    ensures forall i :: 0 <= i < |xs| ==> xs[i] in ys
    ensures forall i :: 0 <= i < |ys| ==> ys[i] in xs
    ensures forall i, j :: 0 <= i < j < |ys| ==> ys[i] != ys[j]
    decreases |xs|
  {
    if xs == [] then []
    else
      var init := Dedup(xs[..|xs| - 1]);
      assert xs == xs[..|xs| - 1] + [xs[|xs| - 1]];
      if xs[|xs| - 1] in init then init else init + [xs[|xs| - 1]]
  }

  /** The position of the first occurrence of `x` in `xs`. */
  function IndexOf<T(==)>(xs: seq<T>, x: T): (k: nat)
    requires x in xs
    ensures k < |xs| && xs[k] == x && x !in xs[..k]
  {
    if xs[0] == x then 0
    else
      assert xs == [xs[0]] + xs[1..];
      var k := IndexOf(xs[1..], x);
      assert xs[..k + 1] == [xs[0]] + xs[1..][..k];
      k + 1
  }

  /** The kept values appear in the order of their first occurrences. */
  lemma {:induction false} DedupOrder<T>(xs: seq<T>)
    ensures forall i, j :: 0 <= i < j < |Dedup(xs)| ==> IndexOf(xs, Dedup(xs)[i]) < IndexOf(xs, Dedup(xs)[j])
    decreases |xs|
  {
    if xs != [] {
      var init := xs[..|xs| - 1];
      var last := xs[|xs| - 1];
      assert xs == init + [last];
      DedupOrder(init);
      var ys0 := Dedup(init);
      var ys := Dedup(xs);
      assert ys == if last in ys0 then ys0 else ys0 + [last];
      forall i, j | 0 <= i < j < |ys|
        ensures IndexOf(xs, ys[i]) < IndexOf(xs, ys[j])
      {
        assert ys[i] == ys0[i];
        IndexOfPrefix(init, last, ys[i]);
        if j < |ys0| {
          assert ys[j] == ys0[j];
          IndexOfPrefix(init, last, ys[j]);
        } else {
          IndexOfLast(init, last);
        }
      }
    }
  }

  lemma IndexOfPrefix<T>(xs: seq<T>, x: T, y: T)
    requires y in xs
    ensures IndexOf(xs + [x], y) == IndexOf(xs, y)
  {
    var k := IndexOf(xs, y);
    var s := xs + [x];
    assert s[k] == y;
    assert s[..k] == xs[..k];
    IndexOfUnique(s, y, k);
  }

  lemma IndexOfLast<T>(xs: seq<T>, x: T)
    requires x !in xs
    ensures IndexOf(xs + [x], x) == |xs|
  {
    var s := xs + [x];
    assert s[..|xs|] == xs;
    IndexOfUnique(s, x, |xs|);
  }

  /** The first occurrence is the only position holding `x` with no `x` before it. */
  lemma IndexOfUnique<T>(xs: seq<T>, x: T, k: nat)
    requires k < |xs| && xs[k] == x && x !in xs[..k]
    ensures IndexOf(xs, x) == k
  {
    var j := IndexOf(xs, x);
    assert forall m :: 0 <= m < k ==> xs[..k][m] == xs[m];
    assert forall m :: 0 <= m < j ==> xs[..j][m] == xs[m];
  }


  /** The brands of a list of product nodes, in order. */
  function Brands(ps: seq<ProductNode>): (bs: seq<string>)
    ensures |bs| == |ps| && forall i :: 0 <= i < |ps| ==> bs[i] == ps[i].brand
  {
    seq(|ps|, i requires 0 <= i < |ps| => ps[i].brand)
  }

  /** What one successful pass adds to the graph. */
  lemma StepFacts(g: Graph, item: Json)
    requires Step(g, item).Ok?
    ensures item.JObj?
    ensures !Truthy(Field(item, "brand")) ==> Step(g, item).value == g
    ensures Truthy(Field(item, "brand")) ==> StepAdds(g, item, Step(g, item).value)
  {
  }

  /** `g1` is `g` with the product of `item` and its edge appended, and its brand if new. */
  predicate StepAdds(g: Graph, item: Json, g1: Graph) {
    var b := Field(item, "brand");
    b.JStr? && ProductOf(item, b.s).Ok? &&
    g1.products == g.products + [ProductOf(item, b.s).value] &&
    g1.edges == g.edges + [HasProductEdge(b.s, ProductOf(item, b.s).value.name, "HAS_PRODUCT")] &&
    g1.brands == if b.s in Names(g.brands) then g.brands else g.brands + [BrandNode(b.s, None, None)]
  }

  /** One more value keeps the deduplicated list, or adds the value at its end when it is new. */
  lemma DedupSnoc<T>(ns: seq<T>, bs: seq<T>, b: T)
    requires ns == Dedup(bs)
    ensures Dedup(bs + [b]) == if b in ns then ns else ns + [b]
  {
    assert (bs + [b])[..|bs|] == bs;
    if b in bs {
      var i :| 0 <= i < |bs| && bs[i] == b;
      assert bs[i] in ns;
    }
  }

  /**
   * What a successful run saves as products and edges: one product node per item with a truthy
   * brand, in input order and with names not deduplicated, and edge `i` from the brand of
   * product `i` to its name.
   */
  lemma {:induction false} ProductsShape(items: seq<Json>)
    requires CleanGraph(items).Ok?
    ensures var g := CleanGraph(items).value; var kept := Kept(items);
      |g.products| == |kept| && |g.edges| == |kept| &&
      (forall i :: 0 <= i < |kept| ==>
        Field(kept[i], "brand").JStr? && ProductOf(kept[i], Field(kept[i], "brand").s) == Ok(g.products[i])) &&
      (forall i :: 0 <= i < |kept| ==>
        g.edges[i] == HasProductEdge(g.products[i].brand, g.products[i].name, "HAS_PRODUCT"))
    decreases |items|
  {
    if items != [] {
      var init := items[..|items| - 1];
      var item := items[|items| - 1];
      ProductsShape(init);
      StepFacts(CleanGraph(init).value, item);
    }
  }

  /** A successful run's brand nodes: one per distinct product brand, in order of first appearance, with no `url` or `image`. */
  lemma {:induction false} BrandsShape(items: seq<Json>)
    requires CleanGraph(items).Ok?
    ensures var g := CleanGraph(items).value;
      Names(g.brands) == Dedup(Brands(g.products)) &&
      (forall i :: 0 <= i < |g.brands| ==> g.brands[i].url == None && g.brands[i].image == None)
    decreases |items|
  {
    if items != [] {
      var init := items[..|items| - 1];
      var item := items[|items| - 1];
      BrandsShape(init);
      var g0 := CleanGraph(init).value;
      StepFacts(g0, item);
      if Truthy(Field(item, "brand")) {
        BrandsStep(g0, ProductOf(item, Field(item, "brand").s).value, CleanGraph(items).value);
      }
    }
  }

  /** Appending a product keeps the brand nodes the deduplicated product brands. */
  lemma BrandsStep(g0: Graph, p: ProductNode, g: Graph)
    requires Names(g0.brands) == Dedup(Brands(g0.products))
    requires g.products == g0.products + [p]
    requires g.brands == if p.brand in Names(g0.brands) then g0.brands else g0.brands + [BrandNode(p.brand, None, None)]
    ensures Names(g.brands) == Dedup(Brands(g.products))
  {
    var ns, bs := Names(g0.brands), Brands(g0.products);
    assert Brands(g.products) == bs + [p.brand];
    DedupSnoc(ns, bs, p.brand);
    NamesSnoc(g0.brands, BrandNode(p.brand, None, None));
  }

  lemma NamesSnoc(bs: seq<BrandNode>, b: BrandNode)
    ensures Names(bs + [b]) == Names(bs) + [b.name]
  {
  }

  /** Every edge leaves an existing brand node and reaches an existing product node; brand names are distinct. */
  lemma GraphConsistent(items: seq<Json>)
    requires CleanGraph(items).Ok?
    ensures var g := CleanGraph(items).value;
      |g.products| == |g.edges| &&
      (forall i, j :: 0 <= i < j < |g.brands| ==> g.brands[i].name != g.brands[j].name) &&
      (forall i :: 0 <= i < |g.edges| ==> g.edges[i].fromBrand in Names(g.brands)) &&
      (forall i :: 0 <= i < |g.edges| ==> g.edges[i].toProduct == g.products[i].name) &&
      (forall b :: b in Names(g.brands) ==> b in Brands(g.products))
  {
    ProductsShape(items);
    BrandsShape(items);
    var g := CleanGraph(items).value;
    forall i, j | 0 <= i < j < |g.brands| ensures g.brands[i].name != g.brands[j].name {
      assert Names(g.brands)[i] == g.brands[i].name && Names(g.brands)[j] == g.brands[j].name;
    }
    forall i | 0 <= i < |g.edges| ensures g.edges[i].fromBrand in Names(g.brands) {
      assert Brands(g.products)[i] == g.edges[i].fromBrand;
    }
  }

  /** An item with a falsy brand contributes no product and no edge. */
  lemma SkipFalsyBrand(g: Graph, item: Json)
    requires item.JObj? && !Truthy(Field(item, "brand"))
    ensures Step(g, item) == Ok(g)
  {
  }

  /** A product node's image and label: the first element when the list is truthy, otherwise `None`. */
  lemma ProductFields(item: Json, brand: string, p: ProductNode)
    requires ProductOf(item, brand) == Ok(p)
    ensures Field(item, "title") == JStr(p.name) && p.brand == brand
    ensures Field(item, "images").JList? && Field(item, "images").items != [] ==>
      ValidOptStr(Field(item, "images").items[0]) == Ok(p.image)
    ensures !Truthy(Field(item, "images")) ==> p.image == None
    ensures Field(item, "labels").JList? && Field(item, "labels").items != [] ==>
      ValidOptStr(Field(item, "labels").items[0]) == Ok(p.productLabel)
    ensures !Truthy(Field(item, "labels")) ==> p.productLabel == None
    ensures ValidOptStr(Field(item, "url")) == Ok(p.url) && ValidOptStr(Field(item, "description")) == Ok(p.description)
    ensures ValidOptStr(Field(item, "product_size")) == Ok(p.productSize)
    ensures ValidOptStr(Field(item, "product_line")) == Ok(p.productLine)
  {
  }
}
