/**
 * `scripts/vector/clean_article_data.py`: the embedding text of an article and the loop that
 * turns raw articles into records. An article without content is skipped; the content is the
 * bold title, the theme and the body, each present only when it is non-empty after stripping.
 */
module VectorArticleCleaner {
  import opened Wrappers
  import opened Text
  import opened Json
  import opened CommonUtils
  import opened Batch
  import opened IndexedDocuments

  /** The bold title line, `f"**{title}**"`. */
  function TitleLine(title: Json): string {
    "**" + Show(title) + "**"
  }

  /** The theme line, `f"Theme: {theme}"`. */
  function ThemeLine(theme: Json): string {
    "Theme: " + Show(theme)
  }

  /** The one-element list when `present`, the empty list otherwise. */
  function Opt<T>(present: bool, x: T): seq<T> {
    if present then [x] else []
  }

  /** The parts `build_content` appends, from the stripped title, theme and body. */
  function Sections(title: Json, theme: Json, body: Json): seq<Json> {
    Opt(Truthy(title), JStr(TitleLine(title))) + Opt(Truthy(theme), JStr(ThemeLine(theme))) + Opt(Truthy(body), body)
  }

  /**
   * `build_content` on the raw title, theme and content: a TypeError from the join when the body
   * is truthy but not a string, and otherwise the parts joined by blank lines and stripped.
   */
  function Content(title: Json, theme: Json, content: Json): Result<string> {
    match JoinValues("\n\n", JList(Sections(SafeStrip(title), SafeStrip(theme), SafeStrip(content))))
    case Raised(e) => Raised(e)
    case Ok(j) => Ok(Strip(j))
  }

  method BuildContent(title: Json, theme: Json, content: Json) returns (r: Result<string>)
    ensures r == Content(title, theme, content)
  {
    var parts: seq<Json> := [];
    var t := SafeStrip(title);
    var th := SafeStrip(theme);
    var body := SafeStrip(content);
    if Truthy(t) {
      parts := parts + [JStr(TitleLine(t))];
    }
    assert parts == Opt(Truthy(t), JStr(TitleLine(t)));
    if Truthy(th) {
      parts := parts + [JStr(ThemeLine(th))];
    }
    assert parts == Opt(Truthy(t), JStr(TitleLine(t))) + Opt(Truthy(th), JStr(ThemeLine(th)));
    if Truthy(body) {
      parts := parts + [body];
    }
    assert parts == Sections(t, th, body);
    var joined := JoinValues("\n\n", JList(parts));
    if joined.Raised? {
      return Raised(joined.error);
    }
    r := Ok(Strip(joined.value));
  }

  /** The sections as strings, when the body is a string or left out. */
  function Texts(title: Json, theme: Json, body: Json): seq<string>
    requires !Truthy(body) || body.JStr?
  {
    Opt(Truthy(title), TitleLine(title)) + Opt(Truthy(theme), ThemeLine(theme)) + (if Truthy(body) then [body.s] else [])
  }

  /** Three optional parts of which only the last may be a non-string: all strings exactly when it is one. */
  lemma {:induction false} OptStrs(a: bool, x: string, b: bool, y: string, c: bool, z: Json)
    ensures var ps := Opt(a, JStr(x)) + Opt(b, JStr(y)) + Opt(c, z);
      (AllStr(ps) <==> !c || z.JStr?) &&
      (AllStr(ps) ==> Strs(ps) == Opt(a, x) + Opt(b, y) + (if c then [z.s] else []))
  {
    var ps := Opt(a, JStr(x)) + Opt(b, JStr(y)) + Opt(c, z);
    if c {
      assert ps[|ps| - 1] == z;
    }
  }

  /** Three optional parts, each solid when present, keep every element solid. */
  lemma {:induction false} OptSolid(a: bool, x: string, b: bool, y: string, c: bool, z: string)
    requires (a ==> Solid(x)) && (b ==> Solid(y)) && (c ==> Solid(z))
    ensures forall i :: 0 <= i < |Opt(a, x) + Opt(b, y) + Opt(c, z)| ==> Solid((Opt(a, x) + Opt(b, y) + Opt(c, z))[i])
  {
  }

  /** The bold title line of a truthy, stripped title has no blank at either end. */
  lemma TitleLineSolid(t: Json)
    requires Truthy(t) && (t.JStr? ==> Trimmed(t.s, Space))
    ensures Solid(TitleLine(t))
  {
    ShowSolid(t);
    SolidBetween("**", Show(t), "**");
  }

  lemma ThemeLineSolid(t: Json)
    requires Truthy(t) && (t.JStr? ==> Trimmed(t.s, Space))
    ensures Solid(ThemeLine(t))
  {
    ShowSolid(t);
    assert ThemeLine(t) == "Theme: " + Show(t) + "";
    SolidBetween("Theme: ", Show(t), "");
  }

  /** `build_content` fails exactly when the stripped body is truthy but not a string, and then with a TypeError. */
  lemma ContentFails(title: Json, theme: Json, content: Json)
    ensures Content(title, theme, content).Raised? <==> Truthy(content) && !content.JStr?
    ensures Content(title, theme, content).Raised? ==> Content(title, theme, content).error == TypeError
  {
    var t, th, body := SafeStrip(title), SafeStrip(theme), SafeStrip(content);
    OptStrs(Truthy(t), TitleLine(t), Truthy(th), ThemeLine(th), Truthy(body), body);
  }

  /**
   * The content is the title line, the theme line and the body, in that order, each present
   * exactly when its stripped value is non-empty, joined by blank lines; the final strip never
   * changes it, since every section starts and ends with a non-blank.
   */
  lemma ContentExactly(title: Json, theme: Json, content: Json)
    requires !Truthy(content) || content.JStr?
    ensures Content(title, theme, content) ==
      Ok(Join(Texts(SafeStrip(title), SafeStrip(theme), SafeStrip(content)), "\n\n"))
  {
    var t, th, body := SafeStrip(title), SafeStrip(theme), SafeStrip(content);
    OptStrs(Truthy(t), TitleLine(t), Truthy(th), ThemeLine(th), Truthy(body), body);
    var ts := Texts(t, th, body);
    if Truthy(t) {
      TitleLineSolid(t);
    }
    if Truthy(th) {
      ThemeLineSolid(th);
    }
    OptSolid(Truthy(t), TitleLine(t), Truthy(th), ThemeLine(th), Truthy(body), if Truthy(body) then body.s else "");
    assert ts == Opt(Truthy(t), TitleLine(t)) + Opt(Truthy(th), ThemeLine(th)) +
      Opt(Truthy(body), if Truthy(body) then body.s else "");
    JoinSolidParts(ts, "\n\n");
  }

  /** An article whose title, theme and body are all empty after stripping gets the empty content. */
  lemma EmptyContent(title: Json, theme: Json, content: Json)
    requires !Truthy(SafeStrip(title)) && !Truthy(SafeStrip(theme)) && !Truthy(SafeStrip(content))
    ensures Content(title, theme, content) == Ok("")
  {
    ContentExactly(title, theme, content);
  }

  /** With a title, the content opens with it in bold, followed by a blank line when more follows. */
  lemma ContentStartsWithTitle(title: string, theme: Json, content: Json)
    requires Strip(title) != [] && (!Truthy(content) || content.JStr?)
    ensures Content(JStr(title), theme, content).Ok?
    ensures StartsWith(Content(JStr(title), theme, content).value, "**" + Strip(title) + "**")
  {
    ContentExactly(JStr(title), theme, content);
    var t := SafeStrip(JStr(title));
    assert t == JStr(Strip(title));
    TitleFirst(t, SafeStrip(theme), SafeStrip(content));
    JoinHeadText(Texts(t, SafeStrip(theme), SafeStrip(content)), "**" + Strip(title) + "**");
  }

  /** A present title is the first section. */
  lemma TitleFirst(t: Json, th: Json, b: Json)
    requires t.JStr? && t.s != [] && (!Truthy(b) || b.JStr?)
    ensures Texts(t, th, b) != [] && Texts(t, th, b)[0] == "**" + t.s + "**"
  {
    assert Opt(Truthy(t), TitleLine(t)) == ["**" + t.s + "**"];
  }

  lemma JoinHeadText(ts: seq<string>, h: string)
    requires ts != [] && ts[0] == h
    ensures StartsWith(Join(ts, "\n\n"), h)
  {
    JoinHead(ts, "\n\n");
  }

  /** With a body, the content closes with the stripped body. */
  lemma ContentEndsWithBody(title: Json, theme: Json, body: string)
    requires Strip(body) != []
    ensures Content(title, theme, JStr(body)).Ok?
    ensures EndsWith(Content(title, theme, JStr(body)).value, Strip(body))
  {
    var t, th, b := SafeStrip(title), SafeStrip(theme), SafeStrip(JStr(body));
    assert b == JStr(Strip(body)) && Truthy(b);
    ContentExactly(title, theme, JStr(body));
    var front := Opt(Truthy(t), TitleLine(t)) + Opt(Truthy(th), ThemeLine(th));
    var ts := Texts(t, th, b);
    assert ts == front + [Strip(body)];
    LastOfSnoc(front, Strip(body));
    JoinEndsWith(ts, "\n\n");
  }

  lemma LastOfSnoc<T>(a: seq<T>, x: T)
    ensures a + [x] != [] && (a + [x])[|a + [x]| - 1] == x
  {
  }

  /** The `build_content` arguments `main` passes for one article. */
  function ArticleContent(article: Json): Result<string> {
    Content(Field(article, "title"), Field(article, "theme"), Field(article, "content"))
  }

  /** The raw values `main` passes to the record for one article. */
  function ArticleFields(article: Json, title: Json): RawFields {
    RawFields(title, JNull, JNull, Field(article, "created_at"), Field(article, "url"), JList([]),
      JNull, JNull, JNull, Field(article, "theme"), JNull, Field(article, "published_at"))
  }

  /**
   * The body of the `try` in `main` for one article: `Ok(None)` when the article is skipped for
   * having no content; otherwise `article["title"]`, the identifier, the content, the record.
   */
  function Process(article: Json): Result<Option<IndexedDocument>> {
    if !article.JObj? then Raised(AttributeError)
    else if !Truthy(Field(article, "content")) then Ok(None)
    else
      match Subscript(article, "title")
      case Raised(e) => Raised(e)
      case Ok(title) =>
        match GenerateIdOf(JStr("article"), title)
        case Raised(e) => Raised(e)
        case Ok(id) => Finish(article, title, id, ArticleContent(article))
  }

  /** The steps after the identifier: the content, then the record. */
  function Finish(article: Json, title: Json, id: string, content: Result<string>): Result<Option<IndexedDocument>> {
    match content
    case Raised(e) => Raised(e)
    case Ok(c) =>
      match Make(id, "article", c, ArticleFields(article, title))
      case Raised(e) => Raised(e)
      case Ok(d) => Ok(Some(d))
  }

  /** One pass of the loop in `main`. */
  method ProcessOne(article: Json) returns (r: Result<Option<IndexedDocument>>)
    ensures r == Process(article)
  {
    if !article.JObj? {
      return Raised(AttributeError);
    }
    if !Truthy(Field(article, "content")) {
      return Ok(None);
    }
    var title := Subscript(article, "title");
    if title.Raised? {
      return Raised(title.error);
    }
    var id := GenerateIdOf(JStr("article"), title.value);
    if id.Raised? {
      return Raised(id.error);
    }
    var content := BuildContent(Field(article, "title"), Field(article, "theme"), Field(article, "content"));
    if content.Raised? {
      return Raised(content.error);
    }
    var doc := Make(id.value, "article", content.value, ArticleFields(article, title.value));
    if doc.Raised? {
      return Raised(doc.error);
    }
    r := Ok(Some(doc.value));
  }

  lemma ProcessNeedsDict(article: Json)
    ensures Process(article).Ok? ==> article.JObj?
  {
  }

  /** The loop of `main` over this script's `Process`. */
  method ProcessAll(articles: seq<Json>) returns (r: Result<seq<IndexedDocument>>)
    ensures r == RunSkipping(Process, articles)
  {
    forall x: Json
      ensures Process(x).Ok? ==> x.JObj?
    {
      ProcessNeedsDict(x);
    }
    r := RunSkipLoop(Process, articles);
  }

  /** An article is skipped exactly when it has no truthy `content`; a skipped article is never saved. */
  lemma SkipExactly(article: Json)
    requires article.JObj?
    ensures Process(article) == Ok(None) <==> !Truthy(Field(article, "content"))
  {
    if Truthy(Field(article, "content")) {
      var title := Subscript(article, "title");
      if title.Ok? {
        var id := GenerateIdOf(JStr("article"), title.value);
        if id.Ok? {
          FinishNeverSkips(article, title.value, id.value, ArticleContent(article));
        }
      }
    }
  }

  lemma FinishNeverSkips(article: Json, title: Json, id: string, content: Result<string>)
    ensures Finish(article, title, id, content) != Ok(None)
  {
  }

  /** An article with content but no `title` is not processed. */
  lemma MissingTitleFails(article: Json)
    requires article.JObj? && Truthy(Field(article, "content")) && Lookup(article.fields, "title").None?
    ensures Process(article) == Raised(KeyError)
  {
  }

  /** Identifiers of articles all begin `recipe_article_`, since the brand passed in is `"article"`. */
  lemma ArticleIdPrefix(title: string)
    ensures StartsWith(GenerateId("article", title), "recipe_article_")
  {
    var b := "article";
    assert forall i :: 0 <= i < |b| ==> IsSlugChar(b[i]);
    IdPrefix(b, title);
    PrefixText(b);
  }

  lemma PrefixText(b: string)
    requires b == "article"
    ensures "recipe_" + b + "_" == "recipe_article_"
  {
  }

  lemma ProcessSteps(article: Json, title: string)
    requires article.JObj? && Truthy(Field(article, "content")) && Subscript(article, "title") == Ok(JStr(title))
    ensures Process(article) == Finish(article, JStr(title), GenerateId("article", title), ArticleContent(article))
  {
  }

  /** The record built after the identifier: no brand or image, the article's own dates, `url` and theme. */
  lemma FinishFields(article: Json, title: string, id: string, content: Result<string>, d: IndexedDocument)
    requires Finish(article, JStr(title), id, content) == Ok(Some(d))
    ensures d.kind == "article" && d.id == id && d.title == title && content == Ok(d.content)
    ensures d.brand == None && d.image == None && d.recipeTags == Some([])
    ensures ValidOptStr(Field(article, "theme")) == Ok(d.articleTheme)
    ensures ValidOptStr(Field(article, "url")) == Ok(d.sourcepage)
    ensures ValidOptStr(Field(article, "created_at")) == Ok(d.createdAt)
    ensures ValidOptStr(Field(article, "published_at")) == Ok(d.publishedAt)
    ensures d.productCategory == None && d.productLabel == None && d.productLine == None && d.articleCategory == None
  {
    MakeValues(id, "article", content.value, ArticleFields(article, JStr(title)), d);
    assert ValidOptStrList(JList([])) == Ok(Some([]));
  }

  /** A saved article's record: its identifier from the title, its content from `build_content`, its own fields. */
  lemma ProcessFields(article: Json, title: string, d: IndexedDocument)
    requires article.JObj? && Subscript(article, "title") == Ok(JStr(title))
    requires Process(article) == Ok(Some(d))
    ensures d.kind == "article" && d.title == title
    ensures d.id == GenerateId("article", title) && StartsWith(d.id, "recipe_article_")
    ensures ArticleContent(article) == Ok(d.content)
    ensures d.brand == None && d.image == None && d.recipeTags == Some([])
    ensures ValidOptStr(Field(article, "theme")) == Ok(d.articleTheme)
    ensures ValidOptStr(Field(article, "url")) == Ok(d.sourcepage)
  {
    ProcessSteps(article, title);
    FinishFields(article, title, GenerateId("article", title), ArticleContent(article), d);
    ArticleIdPrefix(title);
  }
}
