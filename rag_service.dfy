/**
 * `backend/services/rag_service.py`: the retrieval-augmented answer. The retrieved documents are
 * numbered by their position in the search result, the ones with content become the context,
 * and every document, content or not, becomes one source, so that `[k]` in the context and the
 * k-th source describe the same document. The search client and the chat model are parameters.
 * (`backend/services/vector_rag_service.py` repeats `build_context` and `prepare_sources` word
 * for word; the definitions here model both.)
 */
module RagService {
  import opened Wrappers
  import opened Text
  import opened Json

  // ---------------------------------------------------------------------------------------------
  // The numbered context

  /** `doc.get("content")` is truthy. */
  predicate HasContent(doc: Json) {
    Truthy(Field(doc, "content"))
  }

  /** The positions of the documents with content, in increasing order. */
  function ContentIndices(docs: seq<Json>): (ix: seq<nat>)
    ensures forall j :: 0 <= j < |ix| ==> ix[j] < |docs| && HasContent(docs[ix[j]])
    ensures forall j, k :: 0 <= j < k < |ix| ==> ix[j] < ix[k]
    decreases |docs|
  {
    if docs == [] then []
    else
      var init := docs[..|docs| - 1];
      var ix := ContentIndices(init);
      assert forall j :: 0 <= j < |ix| ==> docs[ix[j]] == init[ix[j]];
      ix + if HasContent(docs[|docs| - 1]) then [|docs| - 1] else []
  }

  /** Every document with content is listed. */
  lemma {:induction false} ContentIndicesComplete(docs: seq<Json>, i: nat)
    requires i < |docs| && HasContent(docs[i])
    ensures i in ContentIndices(docs)
    decreases |docs|
  {
    if i < |docs| - 1 {
      var init := docs[..|docs| - 1];
      assert init[i] == docs[i];
      ContentIndicesComplete(init, i);
    }
  }

  /** `f"[{n}] {content}"`. */
  function Entry(n: nat, content: Json): string {
    "[" + NatToString(n) + "] " + Show(content)
  }

  /** The entries of the context: one per document with content, numbered from 1 by position. */
  function Entries(docs: seq<Json>): seq<string> {
    var ix := ContentIndices(docs);
    seq(|ix|, j requires 0 <= j < |ix| => Entry(ix[j] + 1, Field(docs[ix[j]], "content")))
  }

  /**
   * `build_context(docs)`. Inside the generator `doc['content']` is read only after
   * `doc.get("content")` was truthy, so it is that same value. The documents are dicts.
   */
  function BuildContext(docs: seq<Json>): (r: string)
    ensures r == "" <==> forall i :: 0 <= i < |docs| ==> !HasContent(docs[i])
  {
    var es := Entries(docs);
    if es != [] then
      JoinEnds(es, "\n\n");
      assert es[0][0] == '[';
      Join(es, "\n\n")
    else
      assert forall i :: 0 <= i < |docs| ==> !HasContent(docs[i]) by {
        forall i | 0 <= i < |docs| && HasContent(docs[i]) ensures i in ContentIndices(docs) {
          ContentIndicesComplete(docs, i);
        }
      }
      Join(es, "\n\n")
  }

  /**
   * The context lists the documents with content in their order, each under the number of its
   * position in the whole search result; the others are left out and their numbers skipped.
   */
  lemma EntriesSpec(docs: seq<Json>, e: string)
    ensures e in Entries(docs) <==>
      exists i :: 0 <= i < |docs| && HasContent(docs[i]) && e == Entry(i + 1, Field(docs[i], "content"))
  {
    if e in Entries(docs) {
      EntryNumbered(docs, e);
    }
    if exists i :: 0 <= i < |docs| && HasContent(docs[i]) && e == Entry(i + 1, Field(docs[i], "content")) {
      var i :| 0 <= i < |docs| && HasContent(docs[i]) && e == Entry(i + 1, Field(docs[i], "content"));
      EntryListed(docs, i);
    }
  }

  lemma EntryNumbered(docs: seq<Json>, e: string)
    requires e in Entries(docs)
    ensures exists i :: 0 <= i < |docs| && HasContent(docs[i]) && e == Entry(i + 1, Field(docs[i], "content"))
  {
    var es := Entries(docs);
    var ix := ContentIndices(docs);
    var j :| 0 <= j < |es| && es[j] == e;
    var i := ix[j];
    assert 0 <= i < |docs| && HasContent(docs[i]) && e == Entry(i + 1, Field(docs[i], "content"));
  }

  lemma EntryListed(docs: seq<Json>, i: nat)
    requires i < |docs| && HasContent(docs[i])
    ensures Entry(i + 1, Field(docs[i], "content")) in Entries(docs)
  {
    var ix := ContentIndices(docs);
    ContentIndicesComplete(docs, i);
    var j :| 0 <= j < |ix| && ix[j] == i;
    assert Entries(docs)[j] == Entry(i + 1, Field(docs[i], "content"));
  }

  /** An empty search result gives the empty context. */
  lemma NoDocsNoContext()
    ensures BuildContext([]) == ""
  {
  }

  // ---------------------------------------------------------------------------------------------
  // The sources

  /** One source for the front end. */
  datatype Source = Source(title: Json, url: Json, image: Json, content: Json)

  /** The source of one document: `doc["title"]`, `doc["sourcepage"]`, `doc["image"]`, `doc["content"]`. */
  function SourceOf(doc: Json): (r: Result<Source>)
    ensures r.Ok? <==> doc.JObj? && Subscript(doc, "title").Ok? && Subscript(doc, "sourcepage").Ok?
                       && Subscript(doc, "image").Ok? && Subscript(doc, "content").Ok?
    ensures r.Ok? ==> r.value == Source(Field(doc, "title"), Field(doc, "sourcepage"), Field(doc, "image"), Field(doc, "content"))
  {
    match Subscript(doc, "title")
    case Raised(e) => Raised(e)
    case Ok(title) =>
      match Subscript(doc, "sourcepage")
      case Raised(e) => Raised(e)
      case Ok(url) =>
        match Subscript(doc, "image")
        case Raised(e) => Raised(e)
        case Ok(image) =>
          match Subscript(doc, "content")
          case Raised(e) => Raised(e)
          case Ok(content) => Ok(Source(title, url, image, content))
  }

  /**
   * `prepare_sources(docs)`: one source per document, content or not, in the same order; the
   * first document missing a key raises, and then there are no sources at all.
   */
  function PrepareSources(docs: seq<Json>): (r: Result<seq<Source>>)
    ensures r.Ok? <==> forall i :: 0 <= i < |docs| ==> SourceOf(docs[i]).Ok?
    ensures r.Ok? ==> |r.value| == |docs| && forall i :: 0 <= i < |docs| ==> Ok(r.value[i]) == SourceOf(docs[i])
    ensures r.Raised? ==> r.error == KeyError || r.error == TypeError
    decreases |docs|
  {
    if docs == [] then Ok([])
    else
      SourcesCons(docs);
      match SourceOf(docs[0])
      case Raised(e) => Raised(e)
      case Ok(s) =>
        match PrepareSources(docs[1..])
        case Raised(e) => Raised(e)
        case Ok(rest) => SourcesConsValues(docs, s, rest); Ok([s] + rest)
  }

  /** Every document has a source exactly when the first one does and so does every later one. */
  lemma SourcesCons(docs: seq<Json>)
    requires docs != []
    ensures (forall i :: 0 <= i < |docs| ==> SourceOf(docs[i]).Ok?) <==>
      SourceOf(docs[0]).Ok? && forall i :: 0 <= i < |docs[1..]| ==> SourceOf(docs[1..][i]).Ok?
  {
    assert forall i :: 1 <= i < |docs| ==> docs[1..][i - 1] == docs[i];
  }

  /** The first document's source in front of the later documents' sources gives every document's. */
  lemma SourcesConsValues(docs: seq<Json>, s: Source, rest: seq<Source>)
    requires docs != [] && Ok(s) == SourceOf(docs[0])
    requires |rest| == |docs[1..]| && forall i :: 0 <= i < |rest| ==> Ok(rest[i]) == SourceOf(docs[1..][i])
    ensures forall i :: 0 <= i < |docs| ==> Ok(([s] + rest)[i]) == SourceOf(docs[i])
  {
    var all := [s] + rest;
    forall i | 0 <= i < |docs|
      ensures Ok(all[i]) == SourceOf(docs[i])
    {
      if i > 0 {
        assert all[i] == rest[i - 1] && docs[1..][i - 1] == docs[i];
      }
    }
  }

  /**
   * Every citation the context offers points at the right source: the j-th entry is numbered k
   * and shows the content of source k - 1, which is document k - 1.
   */
  lemma CitationsAligned(docs: seq<Json>, sources: seq<Source>, j: nat)
    requires PrepareSources(docs) == Ok(sources)
    requires j < |Entries(docs)|
    ensures var k := ContentIndices(docs)[j] + 1;
      && 1 <= k <= |sources|
      && Entries(docs)[j] == Entry(k, sources[k - 1].content)
      && sources[k - 1].content == Field(docs[k - 1], "content")
      && Truthy(sources[k - 1].content)
  {
    var i := ContentIndices(docs)[j];
    EntryAt(docs, j);
    assert sources[i].content == Field(docs[i], "content") by {
      assert Ok(sources[i]) == SourceOf(docs[i]);
    }
  }

  lemma EntryAt(docs: seq<Json>, j: nat)
    requires j < |Entries(docs)|
    ensures var i := ContentIndices(docs)[j]; Entries(docs)[j] == Entry(i + 1, Field(docs[i], "content"))
  {
  }

  // ---------------------------------------------------------------------------------------------
  // The prompt

  /** One chat message. */
  datatype Message = Message(role: string, content: string)

  const Separator := "\n\nContext:\n"

  /** The system prompt of `RAGService.get_answer`. */
  const SystemPrompt := "You are a helpful assistant. Use only the information provided in the context. "
    + "Use the reference numbers like [1], [2], exactly as shown in the context. "

  /** `[{"role": "system", …}, {"role": "user", "content": f"{question}\n\nContext:\n{context}"}]`. */
  function Messages(system: string, question: string, context: string): (ms: seq<Message>)
    ensures |ms| == 2 && ms[0] == Message("system", system) && ms[1].role == "user"
    ensures StartsWith(ms[1].content, question + Separator) && EndsWith(ms[1].content, context)
    ensures |ms[1].content| == |question| + |Separator| + |context|
  {
    [Message("system", system), Message("user", question + Separator + context)]
  }

  /** The question and the context can be read back out of the user message. */
  lemma MessagesRecover(system: string, question: string, context: string)
    ensures var c := Messages(system, question, context)[1].content;
      c[..|question|] == question && c[|question| + |Separator|..] == context
  {
    var c := Messages(system, question, context)[1].content;
    assert c == question + Separator + context;
  }

  /** What `answer_question` returns. */
  datatype Answer = Answer(answer: string, sources: seq<Source>)

  /**
   * `RAGService.answer_question`: search, number the context, ask the model with this service's
   * prompt (its reply is returned as it is), and list the sources.
   */
  function AnswerQuestion(question: string, search: string -> seq<Json>, chat: seq<Message> -> string): (r: Result<Answer>)
    ensures r.Ok? <==> PrepareSources(search(question)).Ok?
    ensures r.Ok? ==> r.value.sources == PrepareSources(search(question)).value
    ensures r.Ok? ==> r.value.answer == chat(Messages(SystemPrompt, question, BuildContext(search(question))))
  {
    var docs := search(question);
    var context := BuildContext(docs);
    var answer := chat(Messages(SystemPrompt, question, context));
    match PrepareSources(docs)
    case Raised(e) => Raised(e)
    case Ok(sources) => Ok(Answer(answer, sources))
  }

  /**
   * In an answered question, each numbered entry of the context the model saw shows the content
   * of the source under that number.
   */
  lemma AnswerCitesSources(question: string, search: string -> seq<Json>, chat: seq<Message> -> string, j: nat)
    requires AnswerQuestion(question, search, chat).Ok?
    requires j < |Entries(search(question))|
    ensures var docs, a := search(question), AnswerQuestion(question, search, chat).value;
      var k := ContentIndices(docs)[j] + 1;
      1 <= k <= |a.sources| && Entries(docs)[j] == Entry(k, a.sources[k - 1].content)
  {
    CitationsAligned(search(question), AnswerQuestion(question, search, chat).value.sources, j);
  }
}
