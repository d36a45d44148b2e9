/**
 * The record the cleaners produce for the search index (`scripts/vector/indexed_document.py`),
 * and the pydantic validation that builds it from the raw values the cleaners pass in.
 *
 * `embedding` is always `None` when a cleaner builds a record and is not a field here.
 * The legacy cleaners import a model from `models/indexed_document.py`, which is not part of
 * this model; the record below assumes it has the same fields and types plus an
 * `article_category: Optional[str]`. The current cleaners never set `articleCategory` and the
 * legacy cleaners never set `articleTheme`; both are then `None`.
 */
module IndexedDocuments {
  import opened Wrappers
  import opened Json

  datatype IndexedDocument = IndexedDocument(
    id: string,
    kind: string,
    title: string,
    brand: Option<string>,
    content: string,
    image: Option<string>,
    createdAt: Option<string>,
    sourcepage: Option<string>,
    recipeTags: Option<seq<string>>,
    productCategory: Option<string>,
    productLabel: Option<string>,
    productLine: Option<string>,
    articleTheme: Option<string>,
    articleCategory: Option<string>,
    publishedAt: Option<string>)

  /** The raw values passed to the record constructor, one per field that takes a raw value. */
  datatype RawFields = RawFields(
    title: Json,
    brand: Json,
    image: Json,
    createdAt: Json,
    sourcepage: Json,
    recipeTags: Json,
    productCategory: Json,
    productLabel: Json,
    productLine: Json,
    articleTheme: Json,
    articleCategory: Json,
    publishedAt: Json)

  /** Every raw value has the type its field declares: `str`, `Optional[str]` or `Optional[List[str]]`. */
  predicate Valid(f: RawFields) {
    f.title.JStr? &&
    ValidOptStr(f.brand).Ok? && ValidOptStr(f.image).Ok? && ValidOptStr(f.createdAt).Ok? &&
    ValidOptStr(f.sourcepage).Ok? && ValidOptStrList(f.recipeTags).Ok? &&
    ValidOptStr(f.productCategory).Ok? && ValidOptStr(f.productLabel).Ok? &&
    ValidOptStr(f.productLine).Ok? && ValidOptStr(f.articleTheme).Ok? && ValidOptStr(f.articleCategory).Ok? &&
    ValidOptStr(f.publishedAt).Ok?
  }

  /** `IndexedDocument(...)`: a ValidationError unless every field validates; otherwise the values, unchanged. */
  function Make(id: string, kind: string, content: string, f: RawFields): (r: Result<IndexedDocument>)
    ensures r.Ok? <==> Valid(f)
    ensures r.Ok? ==>
      r.value.id == id && r.value.kind == kind && r.value.content == content &&
      r.value.title == f.title.s && ValidOptStr(f.brand) == Ok(r.value.brand) &&
      ValidOptStr(f.image) == Ok(r.value.image) && ValidOptStr(f.createdAt) == Ok(r.value.createdAt) &&
      ValidOptStr(f.sourcepage) == Ok(r.value.sourcepage) &&
      ValidOptStrList(f.recipeTags) == Ok(r.value.recipeTags) &&
      ValidOptStr(f.productCategory) == Ok(r.value.productCategory) &&
      ValidOptStr(f.productLabel) == Ok(r.value.productLabel) &&
      ValidOptStr(f.productLine) == Ok(r.value.productLine) &&
      ValidOptStr(f.articleTheme) == Ok(r.value.articleTheme) &&
      ValidOptStr(f.articleCategory) == Ok(r.value.articleCategory) &&
      ValidOptStr(f.publishedAt) == Ok(r.value.publishedAt)
  {
    if !Valid(f) then Raised(ValidationError)
    else Ok(IndexedDocument(id, kind, f.title.s, ValidOptStr(f.brand).value, content,
      ValidOptStr(f.image).value, ValidOptStr(f.createdAt).value, ValidOptStr(f.sourcepage).value,
      ValidOptStrList(f.recipeTags).value, ValidOptStr(f.productCategory).value,
      ValidOptStr(f.productLabel).value, ValidOptStr(f.productLine).value,
      ValidOptStr(f.articleTheme).value, ValidOptStr(f.articleCategory).value,
      ValidOptStr(f.publishedAt).value))
  }

  /** The values of a record that validated, read back from its raw fields. */
  lemma MakeValues(id: string, kind: string, content: string, f: RawFields, d: IndexedDocument)
    requires Make(id, kind, content, f) == Ok(d)
    ensures d.id == id && d.kind == kind && d.content == content && f.title == JStr(d.title)
    ensures ValidOptStr(f.brand) == Ok(d.brand) && ValidOptStr(f.image) == Ok(d.image)
    ensures ValidOptStr(f.productLabel) == Ok(d.productLabel) && ValidOptStrList(f.recipeTags) == Ok(d.recipeTags)
    ensures ValidOptStr(f.articleTheme) == Ok(d.articleTheme) && ValidOptStr(f.articleCategory) == Ok(d.articleCategory)
    ensures ValidOptStr(f.publishedAt) == Ok(d.publishedAt) && ValidOptStr(f.createdAt) == Ok(d.createdAt)
    ensures ValidOptStr(f.sourcepage) == Ok(d.sourcepage) && ValidOptStr(f.productCategory) == Ok(d.productCategory)
    ensures ValidOptStr(f.productLine) == Ok(d.productLine)
  {
  }
}
