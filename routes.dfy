/**
 * The HTTP routes of the backend (server/main.py): each handler calls the
 * session logic and turns its result, or the exception it raises, into a
 * JSON body or an HTTP error.
 */
module Routes {
  import opened Outcomes
  import opened Firestore
  import opened Chatbot

  const UploadStatus := "PDF indexed successfully"

  datatype JsonValue = JString(text: string) | JStringList(items: seq<string>)

  /** A JSON body (status 200) or a raised `HTTPException`. */
  datatype Response = JsonBody(fields: map<string, JsonValue>) | HttpException(statusCode: nat, detail: string)

  function StatusOf(resp: Response): nat {
    if resp.JsonBody? then 200 else resp.statusCode
  }

  /**
   * `ask`: the reply with `answer` renamed to `response`; a `ValueError`
   * becomes 404 and any other exception 500, with the message as detail.
   */
  function AskResponse(r: Result<Reply, Error>): (resp: Response)
    ensures StatusOf(resp) == 200 <==> r.Ok?
    ensures StatusOf(resp) == 404 <==> r.Err? && r.error.ValueError?
    ensures StatusOf(resp) == 500 <==> r.Err? && r.error.OtherError?
    ensures r.Err? ==> resp.HttpException? && resp.detail == r.error.message
    ensures r.Ok? ==> resp.JsonBody? && resp.fields.Keys == {"response", "sources"}
    ensures r.Ok? ==> resp.fields["response"] == JString(r.value.answer) && resp.fields["sources"] == JStringList(r.value.sources)
  {
    match r
    case Ok(reply) => JsonBody(map["response" := JString(reply.answer), "sources" := JStringList(reply.sources)])
    case Err(ValueError(message)) => HttpException(404, message)
    case Err(OtherError(message)) => HttpException(500, message)
  }

  /** `new_chat`: the new session's id under `chat_id`. */
  function NewChatResponse(chatId: string): (resp: Response)
    ensures resp.JsonBody? && resp.fields.Keys == {"chat_id"} && resp.fields["chat_id"] == JString(chatId)
  {
    JsonBody(map["chat_id" := JString(chatId)])
  }

  /** `upload_pdf`: the new session's id with the success status, or 500 with the failure's message. */
  function UploadResponse(r: Result<string, string>): (resp: Response)
    ensures StatusOf(resp) == 200 <==> r.Ok?
    ensures r.Ok? ==> resp.JsonBody? && resp.fields.Keys == {"chat_id", "status"}
    ensures r.Ok? ==> resp.fields["chat_id"] == JString(r.value) && resp.fields["status"] == JString(UploadStatus)
    ensures r.Err? ==> resp == HttpException(500, r.error)
  {
    match r
    case Ok(chatId) => JsonBody(map["chat_id" := JString(chatId), "status" := JString(UploadStatus)])
    case Err(message) => HttpException(500, message)
  }

  /** Asking about an uncached chat whose stored log is empty or missing yields 404. */
  lemma UnknownChatIs404(s: Server, chatId: string, question: string, chainCall: (Chain, string) -> ChainOutcome)
    requires ServerValid(s) && chatId !in s.active && LoadMessages(s.docs, chatId) == []
    ensures AskResponse(AnswerStep(s, chatId, question, chainCall).result) == HttpException(404, NotFoundMessage)
  {
    UnknownChatNotFound(s, chatId, question, chainCall);
  }

  /**
   * A `ValueError` raised inside the chain is reported as 404 too, so a 404
   * does not by itself mean that the chat is unknown.
   */
  lemma ChainValueErrorIs404(s: Server, chatId: string, question: string, chainCall: (Chain, string) -> ChainOutcome, message: string)
    requires ServerValid(s) && ChainUsed(s, chatId).Some?
    requires chainCall(ChainUsed(s, chatId).value, question) == Raised(ValueError(message))
    ensures AskResponse(AnswerStep(s, chatId, question, chainCall).result) == HttpException(404, message)
  {
    FailedChainAppendsNothing(s, chatId, question, chainCall, ValueError(message));
  }

  /** The `/ask/{chat_id}` handler. */
  method Ask(service: ChatService, chatId: string, question: string, chainCall: (Chain, string) -> ChainOutcome)
    returns (resp: Response)
    requires service.Valid()
    modifies service, service.store
    ensures service.Valid()
    ensures resp == AskResponse(AnswerStep(old(service.State()), chatId, question, chainCall).result)
    ensures service.State() == AnswerStep(old(service.State()), chatId, question, chainCall).after
  {
    var result := service.AnswerQuestion(chatId, question, chainCall);
    resp := AskResponse(result);
  }

  /** The `/new` handler; `freshId` is the id uuid4 produced. */
  method NewChat(service: ChatService, freshId: string) returns (resp: Response)
    requires service.Valid()
    modifies service, service.store
    ensures service.Valid()
    ensures resp == NewChatResponse(freshId)
    ensures service.active == old(service.active)[freshId := Chain([], PineconeIndex)]
    ensures service.store.docs == old(service.store.docs)[freshId := NewChatDoc(freshId)]
  {
    var chatId := service.CreateChatSession(freshId, None);
    resp := NewChatResponse(chatId);
  }

  /**
   * The `/upload-pdf` handler. `indexing` is what saving and indexing the
   * uploaded file produced: the new vector store, or the message of the
   * exception it raised.
   */
  method UploadPdf(service: ChatService, freshId: string, indexing: Result<VectorStore, string>) returns (resp: Response)
    requires service.Valid()
    modifies service, service.store
    ensures service.Valid()
    ensures indexing.Err? ==> resp == UploadResponse(Err(indexing.error))
    ensures indexing.Err? ==> service.State() == old(service.State())
    ensures indexing.Ok? ==> resp == UploadResponse(Ok(freshId))
    ensures indexing.Ok? ==> service.active == old(service.active)[freshId := Chain([], indexing.value)]
    ensures indexing.Ok? ==> service.store.docs == old(service.store.docs)[freshId := NewChatDoc(freshId)]
  {
    match indexing
    case Err(message) =>
      resp := UploadResponse(Err(message));
    case Ok(vectorStore) =>
      var chatId := service.CreateChatSession(freshId, Some(vectorStore));
      resp := UploadResponse(Ok(chatId));
  }
}
