/**
 * `backend/services/hybrid_rag_service.py`: the hybrid retrieval service. From the vector
 * search's documents it picks the most frequent brand (or, failing that, product name), asks the
 * product graph for matching products, keeps those that share a word with the question ranked by
 * how many, renders them as text blocks and appends them to the vector context.
 * Documents and graph records are dicts; the graph queries are parameters.
 */
module HybridRag {
  import opened Wrappers
  import opened Text
  import opened Json
  import opened Batch
  import R = RagService
  import V = VectorRagService

  // ---------------------------------------------------------------------------------------------
  // The most frequent brand or name

  /** `xs.count(x)`. */
  function Count(xs: seq<Json>, x: Json): nat
    decreases |xs|
  {
    if xs == [] then 0 else (if xs[0] == x then 1 else 0) + Count(xs[1..], x)
  }

  lemma {:induction false} CountPositive(xs: seq<Json>, x: Json)
    ensures Count(xs, x) > 0 <==> x in xs
    decreases |xs|
  {
    if xs != [] {
      CountPositive(xs[1..], x);
      assert x in xs <==> xs[0] == x || x in xs[1..];
    }
  }

  /**
   * `max(cs, key=xs.count)`: a candidate whose count in `xs` no other candidate exceeds. Of
   * several such candidates this picks the first; the source iterates a set, whose order is
   * unspecified.
   */
  function MostCommonOf(cs: seq<Json>, xs: seq<Json>): (m: Json)
    requires cs != []
    ensures m in cs
    ensures forall c :: c in cs ==> Count(xs, c) <= Count(xs, m)
    decreases |cs|
  {
    if |cs| == 1 then cs[0]
    else
      var m := MostCommonOf(cs[1..], xs);
      assert forall c :: c in cs ==> c == cs[0] || c in cs[1..];
      if Count(xs, cs[0]) >= Count(xs, m) then cs[0] else m
  }

  /** Some document has a truthy value under `key`. */
  predicate AnyTruthy(docs: seq<Json>, key: string) {
    exists i :: 0 <= i < |docs| && Truthy(Field(docs[i], key))
  }

  /** `[doc.get(key) for doc in docs if doc.get(key)]`. */
  function TruthyValues(docs: seq<Json>, key: string): seq<Json>
    decreases |docs|
  {
    if docs == [] then []
    else (if Truthy(Field(docs[0], key)) then [Field(docs[0], key)] else []) + TruthyValues(docs[1..], key)
  }

  lemma {:induction false} TruthyValuesMember(docs: seq<Json>, key: string, v: Json)
    ensures v in TruthyValues(docs, key) <==>
      exists i :: 0 <= i < |docs| && Truthy(Field(docs[i], key)) && Field(docs[i], key) == v
    decreases |docs|
  {
    if docs != [] {
      var tail := docs[1..];
      TruthyValuesMember(tail, key, v);
      if v in TruthyValues(tail, key) {
        var i :| 0 <= i < |tail| && Truthy(Field(tail[i], key)) && Field(tail[i], key) == v;
        assert docs[i + 1] == tail[i];
      }
      forall i | 1 <= i < |docs| && Truthy(Field(docs[i], key)) && Field(docs[i], key) == v
        ensures v in TruthyValues(tail, key)
      {
        assert tail[i - 1] == docs[i];
      }
    }
  }

  /**
   * `extract_brand_from_docs` (key "brand") and `extract_top_name_from_docs` (key "name"):
   * nothing when no document has a truthy value under the key; otherwise a value some document
   * has, no value occurring more often among the truthy ones.
   */
  function MostCommonField(docs: seq<Json>, key: string): (r: Option<Json>)
    ensures r.None? <==> !AnyTruthy(docs, key)
    ensures r.Some? ==> Truthy(r.value) && exists i :: 0 <= i < |docs| && Field(docs[i], key) == r.value
    ensures r.Some? ==> forall i :: 0 <= i < |docs| && Truthy(Field(docs[i], key)) ==>
      Count(TruthyValues(docs, key), Field(docs[i], key)) <= Count(TruthyValues(docs, key), r.value)
  {
    var vs := TruthyValues(docs, key);
    forall i | 0 <= i < |docs| && Truthy(Field(docs[i], key))
      ensures Field(docs[i], key) in vs
    {
      TruthyValuesMember(docs, key, Field(docs[i], key));
    }
    if vs == [] then None
    else
      var m := MostCommonOf(vs, vs);
      TruthyValuesMember(docs, key, m);
      Some(m)
  }

  /** Where `answer_question` looks in the graph. */
  datatype Lookup = ByBrand(brand: Json) | ByName(name: Json) | NoLookup

  /** `if brand: … elif name: … else: …` over the two extracted values. */
  function ChooseLookup(brand: Option<Json>, name: Option<Json>): Lookup {
    if brand.Some? then ByBrand(brand.value)
    else if name.Some? then ByName(name.value)
    else NoLookup
  }

  /**
   * The graph is searched by the most frequent brand when any document has one, by the most
   * frequent name when none has a brand but some has a name, and not at all otherwise.
   */
  lemma LookupChoice(docs: seq<Json>, brandKey: string, nameKey: string)
    ensures var l := ChooseLookup(MostCommonField(docs, brandKey), MostCommonField(docs, nameKey));
      && (l.ByBrand? <==> AnyTruthy(docs, brandKey))
      && (l.ByBrand? ==> Some(l.brand) == MostCommonField(docs, brandKey))
      && (l.ByName? <==> !AnyTruthy(docs, brandKey) && AnyTruthy(docs, nameKey))
      && (l.ByName? ==> Some(l.name) == MostCommonField(docs, nameKey))
      && (l.NoLookup? <==> !AnyTruthy(docs, brandKey) && !AnyTruthy(docs, nameKey))
  {
    ChooseLookupCases(MostCommonField(docs, brandKey), MostCommonField(docs, nameKey),
      AnyTruthy(docs, brandKey), AnyTruthy(docs, nameKey));
  }

  /** The choice over two extracted values, each present exactly when its flag is set. */
  lemma ChooseLookupCases(brand: Option<Json>, name: Option<Json>, hasBrand: bool, hasName: bool)
    requires brand.Some? <==> hasBrand
    requires name.Some? <==> hasName
    ensures var l := ChooseLookup(brand, name);
      && (l.ByBrand? <==> hasBrand) && (l.ByBrand? ==> Some(l.brand) == brand)
      && (l.ByName? <==> !hasBrand && hasName) && (l.ByName? ==> Some(l.name) == name)
      && (l.NoLookup? <==> !hasBrand && !hasName)
  {
  }

  /**
   * The products the lookup returns: all products of the brand, or the product of that name
   * when one is found (`[graph_product] if graph_product else []`), or none.
   */
  function GraphProducts(l: Lookup, byBrand: Json -> seq<Json>, byName: Json -> Json): (ps: seq<Json>)
    ensures l.NoLookup? ==> ps == []
    ensures l.ByBrand? ==> ps == byBrand(l.brand)
    ensures l.ByName? ==> |ps| <= 1 && (ps == [] <==> !Truthy(byName(l.name)))
    ensures l.ByName? && ps != [] ==> ps[0] == byName(l.name)
  {
    match l
    case ByBrand(b) => byBrand(b)
    case ByName(n) => var p := byName(n); if Truthy(p) then [p] else []
    case NoLookup => []
  }

  // ---------------------------------------------------------------------------------------------
  // Keyword relevance and the stable rerank

  /** `" ".join([str(p.get("name", "")), str(p.get("description", "")), str(p.get("label", ""))]).lower()`. */
  function SearchText(p: Json): string {
    Lower(Join([Show(FieldOr(p, "name", JStr(""))), Show(FieldOr(p, "description", JStr(""))),
                Show(FieldOr(p, "label", JStr("")))], " "))
  }

  /** How many of `words`, repeats counted, occur in `text` as substrings. */
  function Matches(words: seq<string>, text: string): (n: nat)
    ensures n <= |words|
    ensures n > 0 <==> exists i :: 0 <= i < |words| && Contains(text, words[i])
    ensures n == |words| <==> forall i :: 0 <= i < |words| ==> Contains(text, words[i])
    decreases |words|
  {
    if words == [] then 0
    else
      var rest := Matches(words[1..], text);
      assert forall i :: 1 <= i < |words| ==> words[i] == words[1..][i - 1];
      assert forall i :: 0 <= i < |words[1..]| ==> words[1..][i] == words[i + 1];
      (if Contains(text, words[0]) then 1 else 0) + rest
  }

  /** `relevance_score(p)`. */
  function Score(question: string, p: Json): nat {
    Matches(Words(Lower(question), Space), SearchText(p))
  }

  /** Sorted by non-increasing key. */
  predicate Descending<T>(key: T -> int, s: seq<T>) {
    forall i, j :: 0 <= i < j < |s| ==> key(s[i]) >= key(s[j])
  }

  /** The elements of `s` whose key is `k`, in their order in `s`. */
  function WithKey<T>(key: T -> int, s: seq<T>, k: int): seq<T>
    decreases |s|
  {
    if s == [] then [] else (if key(s[0]) == k then [s[0]] else []) + WithKey(key, s[1..], k)
  }

  /** Puts `x` in front of the first element whose key is not larger. */
  function Insert<T>(key: T -> int, x: T, s: seq<T>): (r: seq<T>)
    ensures multiset(r) == multiset(s) + multiset{x}
    ensures r != [] && (r[0] == x || (s != [] && r[0] == s[0]))
    decreases |s|
  {
    if s == [] || key(s[0]) <= key(x) then [x] + s
    else
      var r := Insert(key, x, s[1..]);
      assert s == [s[0]] + s[1..];
      [s[0]] + r
  }

  /** Inserting into a descending sequence keeps it descending. */
  lemma {:induction false} InsertDescending<T>(key: T -> int, x: T, s: seq<T>)
    requires Descending(key, s)
    ensures Descending(key, Insert(key, x, s))
    decreases |s|
  {
    if s != [] && key(s[0]) > key(x) {
      var r := Insert(key, x, s[1..]);
      InsertDescending(key, x, s[1..]);
      assert Insert(key, x, s) == [s[0]] + r;
      assert multiset(r) == multiset(s[1..]) + multiset{x};
      forall j | 0 <= j < |r| ensures key(s[0]) >= key(r[j]) {
        assert r[j] in multiset(r);
        if r[j] != x {
          assert r[j] in multiset(s[1..]);
          var m :| 0 <= m < |s[1..]| && s[1..][m] == r[j];
          assert s[m + 1] == r[j];
        }
      }
    }
  }

  lemma WithKeyCons<T>(key: T -> int, y: T, r: seq<T>, k: int)
    ensures WithKey(key, [y] + r, k) == (if key(y) == k then [y] else []) + WithKey(key, r, k)
  {
    assert ([y] + r)[1..] == r;
  }

  lemma {:induction false} InsertWithKey<T>(key: T -> int, x: T, s: seq<T>, k: int)
    ensures WithKey(key, Insert(key, x, s), k) == (if key(x) == k then [x] else []) + WithKey(key, s, k)
    decreases |s|
  {
    if s == [] || key(s[0]) <= key(x) {
      assert Insert(key, x, s) == [x] + s;
      WithKeyCons(key, x, s, k);
    } else {
      var y, t := s[0], s[1..];
      var r := Insert(key, x, t);
      assert Insert(key, x, s) == [y] + r;
      assert s == [y] + t;
      WithKeyCons(key, y, r, k);
      WithKeyCons(key, y, t, k);
      InsertWithKey(key, x, t, k);
      var a, b, w := if key(y) == k then [y] else [], if key(x) == k then [x] else [], WithKey(key, t, k);
      assert a == [] || b == [];
      assert a + (b + w) == b + (a + w);
    }
  }

  /**
   * `sorted(xs, key=key, reverse=True)`: in order of non-increasing key, a permutation of `xs`
   * in which the elements sharing a key keep their relative order (the sort is stable).
   */
  function SortDescending<T>(key: T -> int, xs: seq<T>): (r: seq<T>)
    ensures multiset(r) == multiset(xs)
    ensures Descending(key, r)
    ensures forall k :: WithKey(key, r, k) == WithKey(key, xs, k)
    decreases |xs|
  {
    if xs == [] then []
    else
      var s := SortDescending(key, xs[1..]);
      assert xs == [xs[0]] + xs[1..];
      forall k ensures WithKey(key, Insert(key, xs[0], s), k) == WithKey(key, xs, k) {
        InsertWithKey(key, xs[0], s, k);
      }
      InsertDescending(key, xs[0], s);
      Insert(key, xs[0], s)
  }

  /** A stable descending order is unique: any arrangement with both properties is the sort's. */
  lemma {:induction false} StableDescendingUnique<T>(key: T -> int, a: seq<T>, b: seq<T>)
    requires Descending(key, a) && Descending(key, b)
    requires forall k :: WithKey(key, a, k) == WithKey(key, b, k)
    ensures a == b
    decreases |a| + |b|
  {
    if a != [] {
      WithKeyHead(key, a, key(a[0]));
      WithKeyTop(key, b, key(a[0]));
    }
    if b != [] {
      WithKeyHead(key, b, key(b[0]));
      WithKeyTop(key, a, key(b[0]));
    }
    if a != [] && b != [] {
      assert key(a[0]) == key(b[0]);
      assert a[0] == WithKey(key, a, key(a[0]))[0] == b[0];
      forall k ensures WithKey(key, a[1..], k) == WithKey(key, b[1..], k) {
        assert WithKey(key, a, k) == (if key(a[0]) == k then [a[0]] else []) + WithKey(key, a[1..], k);
        assert WithKey(key, b, k) == (if key(b[0]) == k then [b[0]] else []) + WithKey(key, b[1..], k);
        assert WithKey(key, a, k) == WithKey(key, b, k);
        if key(a[0]) == k {
          assert WithKey(key, a, k)[1..] == WithKey(key, a[1..], k);
          assert WithKey(key, b, k)[1..] == WithKey(key, b[1..], k);
        } else {
          assert [] + WithKey(key, a[1..], k) == WithKey(key, a[1..], k);
          assert [] + WithKey(key, b[1..], k) == WithKey(key, b[1..], k);
        }
      }
      StableDescendingUnique(key, a[1..], b[1..]);
    }
  }

  /** The head of a sequence leads the elements sharing its key. */
  lemma WithKeyHead<T>(key: T -> int, s: seq<T>, k: int)
    requires s != [] && key(s[0]) == k
    ensures WithKey(key, s, k) != [] && WithKey(key, s, k)[0] == s[0]
  {
  }

  /** A descending sequence holding an element of key `k` starts with a key at least `k`. */
  lemma {:induction false} WithKeyTop<T>(key: T -> int, s: seq<T>, k: int)
    requires Descending(key, s) && WithKey(key, s, k) != []
    ensures s != [] && key(s[0]) >= k
    decreases |s|
  {
    if s != [] && key(s[0]) != k {
      assert WithKey(key, s, k) == WithKey(key, s[1..], k);
      WithKeyTop(key, s[1..], k);
      assert key(s[0]) >= key(s[1]);
    }
  }

  /** Keeping the elements with a positive key leaves the groups of positive keys as they were. */
  lemma {:induction false} WithKeyPositive<T>(key: T -> int, s: seq<T>, k: int)
    ensures WithKey(key, MapFilter(x => key(x) > 0, x => x, s), k) == if k > 0 then WithKey(key, s, k) else []
    decreases |s|
  {
    if s != [] {
      var m := MapFilter(x => key(x) > 0, x => x, s[1..]);
      WithKeyPositive(key, s[1..], k);
      if key(s[0]) > 0 {
        assert MapFilter(x => key(x) > 0, x => x, s) == [s[0]] + m;
        assert ([s[0]] + m)[1..] == m;
      } else {
        assert MapFilter(x => key(x) > 0, x => x, s) == m;
      }
    }
  }

  /** The elements with a positive key, sorted stably by non-increasing key. */
  function RankPositive<T>(key: T -> int, xs: seq<T>): seq<T> {
    SortDescending(key, MapFilter(x => key(x) > 0, x => x, xs))
  }

  lemma RankPositiveSpec<T>(key: T -> int, xs: seq<T>)
    ensures var r := RankPositive(key, xs);
      && (forall x :: x in r <==> x in xs && key(x) > 0)
      && Descending(key, r)
      && forall k :: WithKey(key, r, k) == if k > 0 then WithKey(key, xs, k) else []
  {
    var kept := MapFilter(x => key(x) > 0, x => x, xs);
    var r := RankPositive(key, xs);
    forall x ensures x in r <==> x in xs && key(x) > 0 {
      assert x in r <==> x in multiset(r);
      assert x in kept <==> x in multiset(kept);
      MapFilterMember(x => key(x) > 0, x => x, xs, x);
    }
    forall k ensures WithKey(key, r, k) == if k > 0 then WithKey(key, xs, k) else [] {
      WithKeyPositive(key, xs, k);
    }
  }

  /** `relevance_score` as a key function. */
  function ScoreOf(question: string): Json -> int {
    p => Score(question, p)
  }

  /** `_filter_and_rerank_products(question, products)`. */
  function FilterAndRerank(question: string, products: seq<Json>): seq<Json> {
    RankPositive(ScoreOf(question), products)
  }

  /**
   * The products kept are exactly those sharing a word with the question, each as often as it
   * was given; they come in order of non-increasing score, and products of equal score keep
   * their input order. These properties determine the result.
   */
  lemma RerankSpec(question: string, products: seq<Json>)
    ensures var r := FilterAndRerank(question, products);
      && (forall p :: p in r <==> p in products && Score(question, p) > 0)
      && Descending(ScoreOf(question), r)
      && forall k :: WithKey(ScoreOf(question), r, k) == if k > 0 then WithKey(ScoreOf(question), products, k) else []
  {
    RankPositiveSpec(ScoreOf(question), products);
  }

  /** A product is kept exactly when one of the question's words occurs in its text. */
  lemma ScoreSpec(question: string, p: Json)
    ensures Score(question, p) > 0 <==>
      exists i :: 0 <= i < |Words(Lower(question), Space)| && Contains(SearchText(p), Words(Lower(question), Space)[i])
    ensures Score(question, p) <= |Words(Lower(question), Space)|
  {
  }

  // ---------------------------------------------------------------------------------------------
  // The graph context

  /** The six lines rendered for one product. */
  function Lines(name: string, productLabel: string, size: string, line: string, description: string, url: string): seq<string> {
    ["Product: " + name, "Label: " + productLabel, "Size: " + size, "Product Line: " + line,
     "Description: " + description, "URL: " + url]
  }

  /** The lines of one graph product, each field through `p.get(key, '')`. */
  function ProductLines(p: Json): seq<string> {
    Lines(Show(FieldOr(p, "name", JStr(""))), Show(FieldOr(p, "label", JStr(""))),
          Show(FieldOr(p, "product_size", JStr(""))), Show(FieldOr(p, "product_line", JStr(""))),
          Show(FieldOr(p, "description", JStr(""))), Show(FieldOr(p, "url", JStr(""))))
  }

  /** `"\n".join(lines).strip()` for one product. */
  function Block(p: Json): string {
    Strip(Join(ProductLines(p), "\n"))
  }

  /** What `build_graph_context` returns. */
  function GraphContext(ps: seq<Json>): string {
    if ps == [] then "" else Strip(Join(seq(|ps|, i requires 0 <= i < |ps| => Block(ps[i])), "\n\n"))
  }

  /** `build_graph_context`: the loop collecting one block per product. */
  method BuildGraphContext(ps: seq<Json>) returns (r: string)
    ensures r == GraphContext(ps)
  {
    if ps == [] {
      return "";
    }
    var parts: seq<string> := [];
    for i := 0 to |ps|
      invariant |parts| == i
      invariant forall j :: 0 <= j < i ==> parts[j] == Block(ps[j])
    {
      parts := parts + [Block(ps[i])];
    }
    assert parts == seq(|ps|, i requires 0 <= i < |ps| => Block(ps[i]));
    r := Strip(Join(parts, "\n\n"));
  }

  /**
   * A product's block is its six lines in order; stripping loses only the blanks at the end of
   * the URL line, so the block opens with the first five lines and "URL:".
   */
  lemma LinesBlock(name: string, productLabel: string, size: string, line: string, description: string, url: string)
    ensures var ls := Lines(name, productLabel, size, line, description, url);
      Strip(Join(ls, "\n")) == RStrip(Join(ls, "\n"), Space) &&
      StartsWith(Strip(Join(ls, "\n")), Join(ls[..5], "\n") + "\nURL:") &&
      Solid(Strip(Join(ls, "\n")))
  {
    var ls := Lines(name, productLabel, size, line, description, url);
    var j := Join(ls, "\n");
    JoinHead(ls, "\n");
    assert j[0] == 'P';
    assert LStrip(j, Space) == j;
    assert ls == ls[..5] + [ls[5]];
    JoinSnoc(ls[..5], ls[5], "\n");
    var head := Join(ls[..5], "\n") + "\nURL:";
    assert j == head + (" " + url);
    RStripConcat(head, " " + url, Space);
    assert Strip(j) == head + RStrip(" " + url, Space);
    var s := Strip(j);
    assert s[..|head|] == head;
    assert s[0] == 'P';
    assert RStrip(" " + url, Space) == [] ==> s[|s| - 1] == ':';
    assert RStrip(" " + url, Space) != [] ==> s[|s| - 1] == RStrip(" " + url, Space)[|RStrip(" " + url, Space)| - 1];
  }

  lemma BlockShape(p: Json)
    ensures Block(p) == RStrip(Join(ProductLines(p), "\n"), Space)
    ensures StartsWith(Block(p), Join(ProductLines(p)[..5], "\n") + "\nURL:")
    ensures Solid(Block(p))
  {
    LinesBlock(Show(FieldOr(p, "name", JStr(""))), Show(FieldOr(p, "label", JStr(""))),
          Show(FieldOr(p, "product_size", JStr(""))), Show(FieldOr(p, "product_line", JStr(""))),
          Show(FieldOr(p, "description", JStr(""))), Show(FieldOr(p, "url", JStr(""))));
  }

  /**
   * No products give the empty context; otherwise the context is the products' blocks, one per
   * product in order, separated by a blank line (the final strip changes nothing).
   */
  lemma GraphContextShape(ps: seq<Json>)
    ensures ps == [] <==> GraphContext(ps) == ""
    ensures ps != [] ==> GraphContext(ps) == Join(seq(|ps|, i requires 0 <= i < |ps| => Block(ps[i])), "\n\n")
  {
    if ps != [] {
      var bs := seq(|ps|, i requires 0 <= i < |ps| => Block(ps[i]));
      forall i | 0 <= i < |bs| ensures Solid(bs[i]) {
        BlockShape(ps[i]);
      }
      JoinSolidParts(bs, "\n\n");
      assert Solid(bs[0]) && Solid(bs[|bs| - 1]);
      SolidJoin(bs, "\n\n");
    }
  }

  // ---------------------------------------------------------------------------------------------
  // Merging the two contexts

  const GraphHeader := "\n\n[Graph Knowledge from Neo4j]\n"

  /**
   * `merge_contexts`: the vector context first and the graph context last, empty only when both
   * are; when both are present the graph header sits between them.
   */
  function MergeContexts(vector: string, graph: string): (r: string)
    ensures StartsWith(r, vector) && EndsWith(r, graph)
    ensures r == "" <==> vector == "" && graph == ""
    ensures graph == "" ==> r == vector
    ensures vector == "" ==> r == graph
    ensures vector != "" && graph != "" ==>
      |r| == |vector| + |GraphHeader| + |graph| && r[|vector|..|vector| + |GraphHeader|] == GraphHeader
  {
    if graph == "" then vector
    else if vector == "" then graph
    else vector + GraphHeader + graph
  }

  /**
   * The graph half of the hybrid context: `build_graph_context` of the reranked products when the
   * lookup found any, else "".
   */
  function GraphPart(question: string, products: seq<Json>): string {
    if products != [] then GraphContext(FilterAndRerank(question, products)) else ""
  }

  /**
   * The graph half is empty exactly when no product shares a word with the question: the guard
   * on an empty lookup result gives what the rendering would give anyway.
   */
  lemma GraphPartEmpty(question: string, products: seq<Json>)
    ensures GraphPart(question, products) == GraphContext(FilterAndRerank(question, products))
    ensures GraphPart(question, products) == "" <==> forall i :: 0 <= i < |products| ==> Score(question, products[i]) == 0
  {
    RerankSpec(question, products);
    var r := FilterAndRerank(question, products);
    GraphContextShape(r);
    if r != [] {
      assert r[0] in r;
    } else {
      forall i | 0 <= i < |products| ensures Score(question, products[i]) == 0 {
        assert products[i] in products;
      }
    }
  }

  // ---------------------------------------------------------------------------------------------
  // The whole answer

  /**
   * `HybridRAGService.answer_question`: the vector search's documents give the numbered context
   * and the sources; their most frequent brand or name chooses the graph lookup, whose products
   * are reranked and rendered after the vector context; the model answers the merged context.
   * `byBrand` and `byName` stand for `get_products_by_brand` and `get_product_by_name`.
   */
  function AnswerQuestion(question: string, search: string -> seq<Json>, byBrand: Json -> seq<Json>,
                          byName: Json -> Json, chat: seq<R.Message> -> string): (r: Result<R.Answer>)
    ensures r.Ok? <==> R.PrepareSources(search(question)).Ok?
    ensures r.Ok? ==> r.value.sources == R.PrepareSources(search(question)).value
  {
    var docs := search(question);
    var vectorContext := R.BuildContext(docs);
    match R.PrepareSources(docs)
    case Raised(e) => Raised(e)
    case Ok(sources) =>
      var lookup := ChooseLookup(MostCommonField(docs, "brand"), MostCommonField(docs, "name"));
      var graphContext := GraphPart(question, GraphProducts(lookup, byBrand, byName));
      Ok(R.Answer(V.GetAnswer(question, MergeContexts(vectorContext, graphContext), chat), sources))
  }

  /** The context the model sees: the vector context, then any graph knowledge. */
  function HybridContext(question: string, docs: seq<Json>, byBrand: Json -> seq<Json>, byName: Json -> Json): string {
    MergeContexts(R.BuildContext(docs),
      GraphPart(question, GraphProducts(ChooseLookup(MostCommonField(docs, "brand"), MostCommonField(docs, "name")), byBrand, byName)))
  }

  /**
   * The answer is the model's reply to the hybrid context; it starts with the vector service's
   * context, and when the graph adds nothing the hybrid service answers exactly as the vector
   * service does.
   */
  lemma HybridAnswer(question: string, search: string -> seq<Json>, byBrand: Json -> seq<Json>,
                     byName: Json -> Json, chat: seq<R.Message> -> string)
    requires AnswerQuestion(question, search, byBrand, byName, chat).Ok?
    ensures var ctx := HybridContext(question, search(question), byBrand, byName);
      && AnswerQuestion(question, search, byBrand, byName, chat).value.answer == V.GetAnswer(question, ctx, chat)
      && StartsWith(ctx, R.BuildContext(search(question)))
    ensures GraphPart(question, GraphProducts(ChooseLookup(MostCommonField(search(question), "brand"),
                MostCommonField(search(question), "name")), byBrand, byName)) == "" ==>
      AnswerQuestion(question, search, byBrand, byName, chat) == V.AnswerQuestion(question, search, chat)
  {
  }
}
