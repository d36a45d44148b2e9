/**
 * `backend/api/graph_editing.py`: the three endpoints that add a brand, a product or a
 * `HAS_PRODUCT` edge to the graph. Each refuses a blank name with a 400 before touching the
 * database, sends the request's values (unstripped) in one query, and turns the query's summary
 * counters into a status message, or any database failure into a 500.
 * The database is a parameter from query to outcome.
 */
module GraphEditing {
  import opened Wrappers
  import opened Text
  import opened GraphCleaner

  /** The counters of a query's summary. */
  datatype Counters = Counters(nodesCreated: int, propertiesSet: int, relationshipsCreated: int)

  /** Running a query: its summary, or an exception with `str(e)`. */
  datatype DbOutcome = Summary(counters: Counters) | DbFailed(message: string)

  /** The query each endpoint sends, with its parameters. */
  datatype Query =
    | MergeBrand(brand: BrandNode)
    | MergeProduct(product: ProductNode)
    | MatchAndMergeEdge(fromBrand: string, toProduct: string)

  /** `GraphStats`: the counters a response reports; those not passed are absent. */
  datatype GraphStats = GraphStats(nodesCreated: Option<int>, propertiesSet: Option<int>, relationshipsCreated: Option<int>)

  /** `GraphAddResponse`. */
  datatype AddResponse = AddResponse(status: string, stats: GraphStats)

  /** An endpoint's reply. */
  datatype Reply = Added(response: AddResponse) | HttpError(status: nat, detail: string)

  /** The reply together with the query sent, if any. */
  datatype Handled = Handled(reply: Reply, query: Option<Query>)

  const BadRequest: nat := 400
  const ServerError: nat := 500

  const NodeCreated := "Node created."
  const NodeUpdated := "Node updated."
  const NodeUnchanged := "No change (already exists with same data)."
  const EdgeCreated := "Relationship created."
  const EdgeUnchanged := "No change (relationship already exists)."

  /** `_build_node_response(summary)`. */
  function NodeResponse(c: Counters): (r: AddResponse)
    ensures r.status == NodeCreated <==> c.nodesCreated == 1
    ensures r.status == NodeUpdated <==> c.nodesCreated != 1 && c.propertiesSet > 0
    ensures r.status == NodeUnchanged <==> c.nodesCreated != 1 && c.propertiesSet <= 0
    ensures r.stats == GraphStats(Some(c.nodesCreated), Some(c.propertiesSet), None)
  {
    var status :=
      if c.nodesCreated == 1 then NodeCreated
      else if c.propertiesSet > 0 then NodeUpdated
      else NodeUnchanged;
    AddResponse(status, GraphStats(Some(c.nodesCreated), Some(c.propertiesSet), None))
  }

  /** `_build_edge_response(summary)`. */
  function EdgeResponse(c: Counters): (r: AddResponse)
    ensures r.status == EdgeCreated <==> c.relationshipsCreated == 1
    ensures r.status == EdgeUnchanged <==> c.relationshipsCreated != 1
    ensures r.stats == GraphStats(None, None, Some(c.relationshipsCreated))
  {
    var status := if c.relationshipsCreated == 1 then EdgeCreated else EdgeUnchanged;
    AddResponse(status, GraphStats(None, None, Some(c.relationshipsCreated)))
  }

  /** The start of a 500's detail: `f"Failed to add {what}: …"`. */
  function FailureDetail(what: string): string {
    "Failed to add " + what + ": "
  }

  /** The `try` shared by the endpoints: run the query, then build the response or a 500. */
  function RunQuery(q: Query, db: Query -> DbOutcome, what: string, build: Counters -> AddResponse): (h: Handled)
    ensures h.query == Some(q)
    ensures db(q).DbFailed? ==> h.reply == HttpError(ServerError, FailureDetail(what) + db(q).message)
    ensures db(q).DbFailed? ==> StartsWith(h.reply.detail, FailureDetail(what))
    ensures db(q).Summary? ==> h.reply == Added(build(db(q).counters))
  {
    match db(q)
    case DbFailed(m) =>
      StartsWithConcat(FailureDetail(what), m);
      Handled(HttpError(ServerError, FailureDetail(what) + m), Some(q))
    case Summary(c) => Handled(Added(build(c)), Some(q))
  }

  /** `add_brand_node(data)`. */
  function AddBrand(data: BrandNode, db: Query -> DbOutcome): (h: Handled)
    ensures h.query.None? <==> Strip(data.name) == ""
    ensures h.query.None? ==> h.reply == HttpError(BadRequest, "Brand name is required")
    ensures h.query.Some? ==> h.query.value == MergeBrand(data)
    ensures h.query.Some? ==> (h.reply.HttpError? <==> db(MergeBrand(data)).DbFailed?)
    ensures h.query.Some? && h.reply.HttpError? ==> h.reply.status == ServerError && StartsWith(h.reply.detail, FailureDetail("brand"))
    ensures h.query.Some? && h.reply.Added? ==> h.reply.response == NodeResponse(db(MergeBrand(data)).counters)
  {
    if Strip(data.name) == "" then Handled(HttpError(BadRequest, "Brand name is required"), None)
    else RunQuery(MergeBrand(data), db, "brand", NodeResponse)
  }

  /** `add_product_node(data)`. */
  function AddProduct(data: ProductNode, db: Query -> DbOutcome): (h: Handled)
    ensures h.query.None? <==> Strip(data.name) == ""
    ensures h.query.None? ==> h.reply == HttpError(BadRequest, "Product name is required")
    ensures h.query.Some? ==> h.query.value == MergeProduct(data)
    ensures h.query.Some? ==> (h.reply.HttpError? <==> db(MergeProduct(data)).DbFailed?)
    ensures h.query.Some? && h.reply.HttpError? ==> h.reply.status == ServerError && StartsWith(h.reply.detail, FailureDetail("product"))
    ensures h.query.Some? && h.reply.Added? ==> h.reply.response == NodeResponse(db(MergeProduct(data)).counters)
  {
    if Strip(data.name) == "" then Handled(HttpError(BadRequest, "Product name is required"), None)
    else RunQuery(MergeProduct(data), db, "product", NodeResponse)
  }

  /** `add_product_edge(data)`: the edge's `type` is not sent; the relationship is always `HAS_PRODUCT`. */
  function AddEdge(data: HasProductEdge, db: Query -> DbOutcome): (h: Handled)
    ensures h.query.None? <==> Strip(data.fromBrand) == "" || Strip(data.toProduct) == ""
    ensures h.query.None? ==> h.reply == HttpError(BadRequest, "Both brand and product names are required")
    ensures h.query.Some? ==> h.query.value == MatchAndMergeEdge(data.fromBrand, data.toProduct)
    ensures h.query.Some? ==> (h.reply.HttpError? <==> db(MatchAndMergeEdge(data.fromBrand, data.toProduct)).DbFailed?)
    ensures h.query.Some? && h.reply.HttpError? ==> h.reply.status == ServerError && StartsWith(h.reply.detail, FailureDetail("edge"))
    ensures h.query.Some? && h.reply.Added? ==> h.reply.response == EdgeResponse(db(MatchAndMergeEdge(data.fromBrand, data.toProduct)).counters)
  {
    if Strip(data.fromBrand) == "" || Strip(data.toProduct) == "" then
      Handled(HttpError(BadRequest, "Both brand and product names are required"), None)
    else RunQuery(MatchAndMergeEdge(data.fromBrand, data.toProduct), db, "edge", EdgeResponse)
  }

  /** The edge's `type` field makes no difference to the edge endpoint. */
  lemma EdgeIgnoresKind(fromBrand: string, toProduct: string, k1: string, k2: string, db: Query -> DbOutcome)
    ensures AddEdge(HasProductEdge(fromBrand, toProduct, k1), db) == AddEdge(HasProductEdge(fromBrand, toProduct, k2), db)
  {
  }

  /** A blank name is refused whatever the database would have said. */
  lemma BlankNameNoQuery(data: BrandNode, db1: Query -> DbOutcome, db2: Query -> DbOutcome)
    requires Strip(data.name) == ""
    ensures AddBrand(data, db1) == AddBrand(data, db2) && AddBrand(data, db1).query == None
  {
  }
}
