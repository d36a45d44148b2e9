/**
 * `backend/services/vector_rag_service.py` with the `get_answer` it inherits from
 * `backend/services/base_rag_service.py`: the same numbered context and sources as
 * `RagService`, a different system prompt, and the model's reply stripped.
 */
module VectorRagService {
  import opened Text
  import opened Json
  import opened RagService

  /** The system prompt of `BaseRAGService.get_answer`. */
  const BaseSystemPrompt := "You are Nestlé's official AI assistant. Only answer questions related to Nestlé. "
    + "Answer customer questions using only the provided content from semantic and graph-based retrieval. "
    + "Cite reference numbers like [1], [2] **only if** those numbers correspond to the provided "
    + "sources. "
    + "Do not invent references or refer to content not included. "

  /** `BaseRAGService.get_answer`: the reply to the two messages, stripped. */
  function GetAnswer(question: string, context: string, chat: seq<Message> -> string): (a: string)
    ensures Trimmed(a, Space)
    ensures Outside(a, Space) == Outside(chat(Messages(BaseSystemPrompt, question, context)), Space)
    ensures StrippedOf(a, chat(Messages(BaseSystemPrompt, question, context)), Space)
  {
    var reply := chat(Messages(BaseSystemPrompt, question, context));
    StripClassShape(reply, Space);
    StripStripped(reply, Space);
    StripKeepsOutside(reply, Space);
    Strip(reply)
  }

  /**
   * `VectorRAGService.answer_question`: the context and the sources are `RagService`'s, the
   * answer is `get_answer`'s.
   */
  function AnswerQuestion(question: string, search: string -> seq<Json>, chat: seq<Message> -> string): (r: Result<Answer>)
    ensures r.Ok? <==> PrepareSources(search(question)).Ok?
    ensures r.Ok? ==> r.value.sources == PrepareSources(search(question)).value
    ensures r.Ok? ==> r.value.answer == GetAnswer(question, BuildContext(search(question)), chat)
  {
    var docs := search(question);
    var context := BuildContext(docs);
    var answer := GetAnswer(question, context, chat);
    match PrepareSources(docs)
    case Raised(e) => Raised(e)
    case Ok(sources) => Ok(Answer(answer, sources))
  }

  /** This service and `RagService` fail on the same searches and list the same sources. */
  lemma SameSourcesAsRagService(question: string, search: string -> seq<Json>, chat: seq<Message> -> string)
    ensures AnswerQuestion(question, search, chat).Ok? <==> RagService.AnswerQuestion(question, search, chat).Ok?
    ensures AnswerQuestion(question, search, chat).Ok? ==>
      AnswerQuestion(question, search, chat).value.sources == RagService.AnswerQuestion(question, search, chat).value.sources
  {
  }
}
