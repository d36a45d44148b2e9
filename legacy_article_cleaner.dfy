/**
 * `scripts/clean_article_data.py`: the older article loop. The embedding text is the article's
 * content stripped and nothing else; the record carries the article's `category` rather than
 * its theme.
 */
module LegacyArticleCleaner {
  import opened Wrappers
  import opened Text
  import opened Json
  import opened CommonUtils
  import opened Batch
  import opened IndexedDocuments
  import V = VectorArticleCleaner

  /** `build_content(text)`, that is `text.strip()`: an AttributeError unless the content is a string. */
  function Content(text: Json): (r: Result<string>)
    ensures r.Ok? <==> text.JStr?
    ensures r.Raised? ==> r.error == AttributeError
    ensures r.Ok? ==> Trimmed(r.value, Space) && Outside(r.value, Space) == Outside(text.s, Space)
    ensures r.Ok? ==> StrippedOf(r.value, text.s, Space)
  {
    if text.JStr? then
      StripClassShape(text.s, Space);
      StripStripped(text.s, Space);
      StripKeepsOutside(text.s, Space);
      Ok(Strip(text.s))
    else Raised(AttributeError)
  }

  /** The raw values `main` passes to the record for one article. */
  function ArticleFields(article: Json, title: Json): RawFields {
    RawFields(title, JNull, JNull, Field(article, "created_at"), Field(article, "url"), JList([]),
      JNull, JNull, JNull, JNull, Field(article, "category"), Field(article, "published_at"))
  }

  /**
   * The body of the `try` in `main` for one article: `Ok(None)` when the article is skipped for
   * having no content; otherwise `article["title"]`, the identifier, `article["content"]`
   * stripped, the record.
   */
  function Process(article: Json): Result<Option<IndexedDocument>> {
    if !article.JObj? then Raised(AttributeError)
    else if !Truthy(Field(article, "content")) then Ok(None)
    else
      match Subscript(article, "title")
      case Raised(e) => Raised(e)
      case Ok(title) =>
        match GenerateIdOf(JStr("article"), title)
        case Raised(e) => Raised(e)
        case Ok(id) => Finish(article, title, id, Content(Field(article, "content")))
  }

  /** The steps after the identifier: the content, then the record. */
  function Finish(article: Json, title: Json, id: string, content: Result<string>): Result<Option<IndexedDocument>> {
    match content
    case Raised(e) => Raised(e)
    case Ok(c) =>
      match Make(id, "article", c, ArticleFields(article, title))
      case Raised(e) => Raised(e)
      case Ok(d) => Ok(Some(d))
  }

  /** One pass of the loop in `main`. */
  method ProcessOne(article: Json) returns (r: Result<Option<IndexedDocument>>)
    ensures r == Process(article)
  {
    if !article.JObj? {
      return Raised(AttributeError);
    }
    if !Truthy(Field(article, "content")) {
      return Ok(None);
    }
    var title := Subscript(article, "title");
    if title.Raised? {
      return Raised(title.error);
    }
    var id := GenerateIdOf(JStr("article"), title.value);
    if id.Raised? {
      return Raised(id.error);
    }
    var text := Subscript(article, "content");
    var content := Content(text.value);
    if content.Raised? {
      return Raised(content.error);
    }
    var doc := Make(id.value, "article", content.value, ArticleFields(article, title.value));
    if doc.Raised? {
      return Raised(doc.error);
    }
    r := Ok(Some(doc.value));
  }

  lemma ProcessNeedsDict(article: Json)
    ensures Process(article).Ok? ==> article.JObj?
  {
  }

  /** The loop of `main` over this script's `Process`. */
  method ProcessAll(articles: seq<Json>) returns (r: Result<seq<IndexedDocument>>)
    ensures r == RunSkipping(Process, articles)
  {
    forall x: Json
      ensures Process(x).Ok? ==> x.JObj?
    {
      ProcessNeedsDict(x);
    }
    r := RunSkipLoop(Process, articles);
  }

  lemma FinishNeverSkips(article: Json, title: Json, id: string, content: Result<string>)
    ensures Finish(article, title, id, content) != Ok(None)
  {
  }

  /** An article is skipped exactly when it has no truthy `content`. */
  lemma SkipExactly(article: Json)
    requires article.JObj?
    ensures Process(article) == Ok(None) <==> !Truthy(Field(article, "content"))
  {
    if Truthy(Field(article, "content")) {
      var title := Subscript(article, "title");
      if title.Ok? {
        var id := GenerateIdOf(JStr("article"), title.value);
        if id.Ok? {
          FinishNeverSkips(article, title.value, id.value, Content(Field(article, "content")));
        }
      }
    }
  }

  /** Content that is not a string cannot be stripped, and the article is not processed. */
  lemma NonStringContentFails(article: Json)
    requires article.JObj? && Truthy(Field(article, "content")) && !Field(article, "content").JStr?
    ensures Process(article).Raised?
  {
  }

  lemma ProcessSteps(article: Json, title: string)
    requires article.JObj? && Truthy(Field(article, "content")) && Subscript(article, "title") == Ok(JStr(title))
    ensures Process(article) == Finish(article, JStr(title), GenerateId("article", title), Content(Field(article, "content")))
  {
    assert GenerateIdOf(JStr("article"), JStr(title)) == Ok(GenerateId("article", title));
  }

  /** The record built after the identifier: no brand, image or theme; the article's own dates, `url` and category. */
  lemma FinishFields(article: Json, title: string, id: string, content: Result<string>, d: IndexedDocument)
    requires Finish(article, JStr(title), id, content) == Ok(Some(d))
    ensures d.kind == "article" && d.id == id && d.title == title && content == Ok(d.content)
    ensures d.brand == None && d.image == None && d.recipeTags == Some([]) && d.articleTheme == None
    ensures ValidOptStr(Field(article, "category")) == Ok(d.articleCategory)
    ensures ValidOptStr(Field(article, "url")) == Ok(d.sourcepage)
    ensures ValidOptStr(Field(article, "created_at")) == Ok(d.createdAt)
    ensures ValidOptStr(Field(article, "published_at")) == Ok(d.publishedAt)
    ensures d.productCategory == None && d.productLabel == None && d.productLine == None
  {
    MakeValues(id, "article", content.value, ArticleFields(article, JStr(title)), d);
    assert ValidOptStrList(JList([])) == Ok(Some([]));
  }

  /**
   * A saved article's record: its identifier from the title (the same as the current cleaner's),
   * its content the stripped `content`, its category.
   */
  lemma ProcessFields(article: Json, title: string, d: IndexedDocument)
    requires article.JObj? && Subscript(article, "title") == Ok(JStr(title))
    requires Process(article) == Ok(Some(d))
    ensures d.kind == "article" && d.title == title
    ensures d.id == GenerateId("article", title) && StartsWith(d.id, "recipe_article_")
    ensures Field(article, "content").JStr? && d.content == Strip(Field(article, "content").s)
    ensures d.brand == None && d.image == None && d.articleTheme == None
    ensures ValidOptStr(Field(article, "category")) == Ok(d.articleCategory)
  {
    ProcessSteps(article, title);
    FinishFields(article, title, GenerateId("article", title), Content(Field(article, "content")), d);
    V.ArticleIdPrefix(title);
  }

  /** Stripping text made only of blanks leaves nothing. */
  lemma StripBlank(s: string)
    requires forall i :: 0 <= i < |s| ==> IsSpace(s[i])
    ensures Strip(s) == ""
  {
    var c := Strip(s);
    StripClassShape(s, Space);
    var o := StripOffset(s, Space);
    assert forall i :: 0 <= i < |c| ==> c[i] == s[o + i];
  }

  /**
   * Content made only of blanks is truthy, so the article is not skipped; when it is saved, its
   * content is the empty string.
   */
  lemma BlankContentKept(article: Json)
    requires article.JObj? && Field(article, "content").JStr? && Field(article, "content").s != []
    requires forall i :: 0 <= i < |Field(article, "content").s| ==> IsSpace(Field(article, "content").s[i])
    ensures Process(article) != Ok(None)
    ensures Process(article).Ok? ==> Process(article).value.Some? && Process(article).value.value.content == ""
  {
    SkipExactly(article);
    if Process(article).Ok? {
      var d := Process(article).value.value;
      var title := Subscript(article, "title").value;
      ProcessFields(article, title.s, d);
      StripBlank(Field(article, "content").s);
    }
  }
}
