/**
 * `backend/api/chat.py`: the `/chat` endpoint's decisions. The question is stripped and refused
 * when blank; every failure inside the `try` (the service raising, the answer missing or blank,
 * and the 422 raised for that) ends as a 500 whose detail starts with "RAG failed: ". A result
 * with a non-blank answer is returned, and FastAPI then checks it against `response_model=ChatResponse`
 * (`backend/models/response_models.py`): one that passes is sent as the dumped `ChatResponse`,
 * one that fails raises after the endpoint has returned, outside its `try`.
 */
module ChatApi {
  import opened Wrappers
  import opened Text
  import opened Json

  /** What `rag_service.answer_question(question)` does: return a result, or raise with `str(e)`. */
  datatype ServiceOutcome = Returned(result: Json) | Failed(message: string)

  /**
   * The endpoint's reply: the dumped `ChatResponse`, an `HTTPException`, or `InvalidResponse`
   * when the returned value fails the response model. FastAPI then raises a
   * `ResponseValidationError` that no handler catches, and the server answers a bare 500
   * `Internal Server Error` without the "RAG failed: " prefix.
   */
  datatype Response = Success(body: Json) | HttpError(status: nat, detail: string) | InvalidResponse

  const BadRequest: nat := 400
  const Unprocessable: nat := 422
  const ServerError: nat := 500

  const EmptyQuestion := "Question cannot be empty"
  const NoAnswer := "No answer generated for the given question."
  const FailurePrefix := "RAG failed: "

  /** `str(exc)` of an `HTTPException`, as Starlette renders it: the status, ": ", the detail. */
  function HttpExceptionText(status: nat, detail: string): string {
    IntToString(status) + ": " + detail
  }

  /** The message of the AttributeError raised by looking up `attribute` on `v`. */
  function NoAttribute(v: Json, attribute: string): string {
    "'" + TypeName(v) + "' object has no attribute '" + attribute + "'"
  }

  /**
   * `result.get("answer", "").strip()`: the stripped answer, or the message of the
   * AttributeError raised when the result is not a dict or the answer is not text.
   */
  function AnswerText(result: Json): (r: Outcome)
    ensures r.Text? <==> result.JObj? && FieldOr(result, "answer", JStr("")).JStr?
    ensures r.Text? ==> r.text == Strip(FieldOr(result, "answer", JStr("")).s)
  {
    if !result.JObj? then Error(NoAttribute(result, "get"))
    else
      var a := FieldOr(result, "answer", JStr(""));
      if a.JStr? then Text(Strip(a.s)) else Error(NoAttribute(a, "strip"))
  }

  datatype Outcome = Text(text: string) | Error(message: string)

  // ---------------------------------------------------------------------------------------------
  // The response model

  /** The fields of `Source`, in declaration order. */
  const SourceFields: seq<string> := ["title", "url", "image", "content"]

  /**
   * An item of `sources` that `Source` accepts: a dict whose `title` is text and whose `url`,
   * `image` and `content` are each missing, `None` or text.
   */
  predicate ValidSource(v: Json) {
    v.JObj? && ValidStr(Field(v, "title")).Ok? && ValidOptStr(Field(v, "url")).Ok?
    && ValidOptStr(Field(v, "image")).Ok? && ValidOptStr(Field(v, "content")).Ok?
  }

  /** A returned value that `ChatResponse` accepts: a dict with a text `answer` and a list of valid sources. */
  predicate ValidResponse(result: Json) {
    result.JObj? && ValidStr(Field(result, "answer")).Ok? && Field(result, "sources").JList?
    && forall i :: 0 <= i < |Field(result, "sources").items| ==> ValidSource(Field(result, "sources").items[i])
  }

  /** The items of `sources`, or none when it is not a list. */
  function SourceItems(result: Json): seq<Json> {
    if Field(result, "sources").JList? then Field(result, "sources").items else []
  }

  /** A `Source` as dumped into the reply: its four fields in order, a missing one as `None`. */
  function SourceBody(v: Json): Json {
    JObj([Member("title", Field(v, "title")), Member("url", Field(v, "url")),
          Member("image", Field(v, "image")), Member("content", Field(v, "content"))])
  }

  /**
   * The `ChatResponse` dumped from a returned value: `answer`, then `sources`, each source
   * with exactly the four fields of `Source`; every other key of the value is dropped.
   */
  function ResponseBody(result: Json): (body: Json)
    ensures body.JObj? && |body.fields| == 2
    ensures body.fields[0].key == "answer" && body.fields[1].key == "sources"
    ensures Field(body, "answer") == Field(result, "answer")
    ensures Field(body, "sources").JList? && |Field(body, "sources").items| == |SourceItems(result)|
    ensures forall i, k :: 0 <= i < |SourceItems(result)| && k in SourceFields ==>
              Field(Field(body, "sources").items[i], k) == Field(SourceItems(result)[i], k)
    ensures ValidResponse(result) ==> ValidResponse(body)
  {
    var xs := SourceItems(result);
    var ss := seq(|xs|, i requires 0 <= i < |xs| => SourceBody(xs[i]));
    var body := JObj([Member("answer", Field(result, "answer")), Member("sources", JList(ss))]);
    assert Lookup(body.fields, "sources") == Some(JList(ss)) by { assert body.fields[1..] == [Member("sources", JList(ss))]; }
    assert Field(body, "sources") == JList(ss);
    SourcesDumped(xs, ss);
    body
  }

  /** The dumped list of sources keeps each item's `Source` fields, and keeps every item valid. */
  lemma SourcesDumped(xs: seq<Json>, ss: seq<Json>)
    requires ss == seq(|xs|, i requires 0 <= i < |xs| => SourceBody(xs[i]))
    ensures forall i, k :: 0 <= i < |xs| && k in SourceFields ==> Field(ss[i], k) == Field(xs[i], k)
    ensures forall i :: 0 <= i < |xs| && ValidSource(xs[i]) ==> ValidSource(ss[i])
  {
    forall i, k | 0 <= i < |xs| && k in SourceFields ensures Field(ss[i], k) == Field(xs[i], k) {
      SourceBodyField(xs[i], k);
    }
    forall i | 0 <= i < |xs| && ValidSource(xs[i]) ensures ValidSource(ss[i]) {
      SourceBodyField(xs[i], "title");
      SourceBodyField(xs[i], "url");
      SourceBodyField(xs[i], "image");
      SourceBodyField(xs[i], "content");
    }
  }

  /** Each field of `Source` reads the same in the dumped source as in the item. */
  lemma SourceBodyField(v: Json, k: string)
    requires k in SourceFields
    ensures Field(SourceBody(v), k) == Field(v, k)
  {
    var f := SourceBody(v).fields;
    assert forall i :: 0 <= i < |f| ==> f[i].key == SourceFields[i] && f[i].val == Field(v, SourceFields[i]);
    FieldsDistinct();
    var j :| 0 <= j < |SourceFields| && SourceFields[j] == k;
    LookupDistinct(f, j);
  }

  /** The four field names differ from one another. */
  lemma FieldsDistinct()
    ensures forall a, b :: 0 <= a < b < |SourceFields| ==> SourceFields[a] != SourceFields[b]
  {
    assert SourceFields[0][0] != SourceFields[2][0];
  }

  /** In an object whose keys differ, each key finds its own binding. */
  lemma LookupDistinct(fields: seq<Member>, j: nat)
    requires j < |fields|
    requires forall a, b :: 0 <= a < b < |fields| ==> fields[a].key != fields[b].key
    ensures Lookup(fields, fields[j].key) == Some(fields[j].val)
  {
    var r := Lookup(fields, fields[j].key);
    assert r.Some?;
  }

  // ---------------------------------------------------------------------------------------------
  // The endpoint

  /** `chat_endpoint(request)` for `request.question == question`, followed by FastAPI's response check. */
  function ChatEndpoint(question: string, service: string -> ServiceOutcome): (r: Response)
    ensures r.HttpError? ==> r.status == BadRequest || r.status == ServerError
    ensures r.HttpError? && r.status == BadRequest <==> Strip(question) == ""
    ensures r.HttpError? && r.status == BadRequest ==> r.detail == EmptyQuestion
    ensures r.HttpError? && r.status == ServerError ==> StartsWith(r.detail, FailurePrefix)
    ensures r.Success? || r.InvalidResponse? <==>
              Strip(question) != "" && service(Strip(question)).Returned?
              && AnswerText(service(Strip(question)).result).Text?
              && AnswerText(service(Strip(question)).result).text != ""
    ensures r.Success? ==> ValidResponse(service(Strip(question)).result)
    ensures r.InvalidResponse? ==> !ValidResponse(service(Strip(question)).result)
    ensures r.Success? ==> r.body == ResponseBody(service(Strip(question)).result) && ValidResponse(r.body)
  {
    var q := Strip(question);
    if q == "" then HttpError(BadRequest, EmptyQuestion)
    else
      match service(q)
      case Failed(m) => HttpError(ServerError, FailurePrefix + m)
      case Returned(result) =>
        match AnswerText(result)
        case Error(m) => HttpError(ServerError, FailurePrefix + m)
        case Text(a) =>
          if a == "" then HttpError(ServerError, FailurePrefix + HttpExceptionText(Unprocessable, NoAnswer))
          else if ValidResponse(result) then Success(ResponseBody(result))
          else InvalidResponse
  }

  /** A blank question is refused before the service is asked: no service changes the reply. */
  lemma BlankQuestionRefused(question: string, s1: string -> ServiceOutcome, s2: string -> ServiceOutcome)
    requires Strip(question) == ""
    ensures ChatEndpoint(question, s1) == ChatEndpoint(question, s2) == HttpError(BadRequest, EmptyQuestion)
  {
  }

  /** The service sees only the stripped question: services agreeing on it give the same reply. */
  lemma ServiceGetsStrippedQuestion(question: string, s1: string -> ServiceOutcome, s2: string -> ServiceOutcome)
    requires s1(Strip(question)) == s2(Strip(question))
    ensures ChatEndpoint(question, s1) == ChatEndpoint(question, s2)
  {
  }

  /** The service's failure message follows the prefix unchanged. */
  lemma ServiceFailure(question: string, service: string -> ServiceOutcome, m: string)
    requires Strip(question) != "" && service(Strip(question)) == Failed(m)
    ensures ChatEndpoint(question, service) == HttpError(ServerError, FailurePrefix + m)
  {
  }

  /**
   * A blank answer raises the 422 inside the `try`; the generic handler turns it into a 500
   * whose detail carries the 422's text.
   */
  lemma BlankAnswerIsServerError(question: string, service: string -> ServiceOutcome, result: Json)
    requires Strip(question) != "" && service(Strip(question)) == Returned(result)
    requires AnswerText(result) == Text("")
    ensures ChatEndpoint(question, service) == HttpError(ServerError, FailurePrefix + HttpExceptionText(Unprocessable, NoAnswer))
  {
  }

  /** The 422's text starts with its status written in decimal. */
  lemma StatusDigits(n: nat)
    requires n == Unprocessable
    ensures IntToString(n) == "422"
  {
    assert NatToString(n) == NatToString(42) + ['2'];
    assert NatToString(42) == NatToString(4) + ['2'];
  }

  /** A valid result whose answer has text is sent as its dump: its answer is not stripped. */
  lemma ResultSent(question: string, service: string -> ServiceOutcome, result: Json)
    requires Strip(question) != "" && service(Strip(question)) == Returned(result)
    requires AnswerText(result).Text? && AnswerText(result).text != "" && ValidResponse(result)
    ensures ChatEndpoint(question, service) == Success(ResponseBody(result))
    ensures Field(ChatEndpoint(question, service).body, "answer") == Field(result, "answer")
  {
  }

  /**
   * A result with a non-blank answer that fails the response model, for example one without
   * `sources` or with a source whose title is `None`, gets no "RAG failed: " detail.
   */
  lemma InvalidResultEscapes(question: string, service: string -> ServiceOutcome, result: Json)
    requires Strip(question) != "" && service(Strip(question)) == Returned(result)
    requires AnswerText(result).Text? && AnswerText(result).text != "" && !ValidResponse(result)
    ensures ChatEndpoint(question, service) == InvalidResponse
  {
  }

  /** A source whose title is `None` or missing fails `Source`, and so does its whole response. */
  lemma NullTitleInvalid(result: Json, i: nat)
    requires i < |SourceItems(result)| && Field(SourceItems(result)[i], "title") == JNull
    ensures !ValidResponse(result)
  {
    assert !ValidSource(Field(result, "sources").items[i]);
  }

  /** Dumping is idempotent: a dumped reply dumps to itself. */
  lemma {:induction false} ResponseBodyIdempotent(result: Json)
    ensures ResponseBody(ResponseBody(result)) == ResponseBody(result)
  {
    var b := ResponseBody(result);
    var xs, ys := SourceItems(result), SourceItems(b);
    assert |ys| == |xs|;
    forall i | 0 <= i < |ys| ensures SourceBody(ys[i]) == ys[i] {
      assert ys[i] == SourceBody(xs[i]);
      SourceBodyIdempotent(xs[i]);
    }
    assert Field(ResponseBody(b), "answer") == Field(b, "answer");
    assert Field(ResponseBody(b), "sources").items == Field(b, "sources").items;
  }

  /** A dumped source dumps to itself. */
  lemma SourceBodyIdempotent(v: Json)
    ensures SourceBody(SourceBody(v)) == SourceBody(v)
  {
    SourceBodyField(v, "title");
    SourceBodyField(v, "url");
    SourceBodyField(v, "image");
    SourceBodyField(v, "content");
  }

  /** No key other than `answer` and `sources` survives into the reply. */
  lemma ExtraKeysDropped(result: Json, key: string)
    requires key != "answer" && key != "sources"
    ensures Lookup(ResponseBody(result).fields, key).None?
  {
  }
}
