/**
 * The chat-session lifecycle of the backend (server/chatbot.py): an
 * in-memory cache of conversation chains keyed by chat id, in front of the
 * per-chat message log kept in Firestore. The retrieval chain itself is
 * foreign and is passed in as a function from (chain, question) to what the
 * chain returns or raises.
 */
module Chatbot {
  import opened Outcomes
  import opened Firestore

  const UserRole := "user"
  const AssistantRole := "assistant"
  const NotFoundMessage := "Chat ID not found in memory or Firestore."
  const UnknownSource := "Unknown Source"
  const UnknownPage := "?"

  /** A message of the chain's conversation memory. */
  datatype ChatMessage = HumanMessage(content: string) | AiMessage(content: string)

  /** The vector store a chain retrieves from: the shared index, or one built from an uploaded PDF. */
  datatype VectorStore = PineconeIndex | IndexedPdf(path: string)

  /** A conversational retrieval chain, as far as the session logic sees it. */
  datatype Chain = Chain(memory: seq<ChatMessage>, vectorStore: VectorStore)

  /** A retrieved document; only its metadata is used here (metadata values already rendered as text). */
  datatype SourceDoc = SourceDoc(metadata: map<string, string>)

  /** The exceptions the session logic tells apart. */
  datatype Error = ValueError(message: string) | OtherError(message: string)

  /** What a call of the chain does: return an answer with its source documents, or raise. */
  datatype ChainOutcome = Returned(answer: string, sourceDocuments: seq<SourceDoc>) | Raised(error: Error)

  /** The dictionary `answer_question` returns. */
  datatype Reply = Reply(answer: string, sources: seq<string>)

  /** How `answer_question` finds the chain for a chat id. */
  datatype Resolution = Cached(chain: Chain) | Rehydrated(chain: Chain) | NotFound

  /** The whole server state: the chain cache and the Firestore collection. */
  datatype Server = Server(active: map<string, Chain>, docs: Docs)

  /** An answer call's result together with the server state after it. */
  datatype Outcome = Outcome(result: Result<Reply, Error>, after: Server)

  /** Every cached chat has a stored document, and documents record their own id. */
  ghost predicate ServerValid(s: Server) {
    DocsValid(s.docs) && s.active.Keys <= s.docs.Keys
  }

  /** `create_chain` with its defaults: a fresh empty memory, the shared index. */
  function CreateChain(memory: Option<seq<ChatMessage>>, vectorStore: Option<VectorStore>): Chain {
    Chain(memory.GetOr([]), vectorStore.GetOr(PineconeIndex))
  }

  /** How one stored message enters the conversation memory. */
  function ToChatMessage(m: StoredMessage): ChatMessage {
    if m.role == UserRole then HumanMessage(m.content) else AiMessage(m.content)
  }

  /**
   * The memory rebuilt from a stored log: same length and order; the role
   * `user` gives a human message, every other role an AI message.
   */
  function Rehydrate(messages: seq<StoredMessage>): (memory: seq<ChatMessage>)
    ensures |memory| == |messages|
    ensures forall i :: 0 <= i < |messages| && messages[i].role == UserRole ==> memory[i] == HumanMessage(messages[i].content)
    ensures forall i :: 0 <= i < |messages| && messages[i].role != UserRole ==> memory[i] == AiMessage(messages[i].content)
  {
    if messages == [] then []
    else Rehydrate(messages[..|messages| - 1]) + [ToChatMessage(messages[|messages| - 1])]
  }

  /** Rebuilding a concatenated log rebuilds each part. */
  lemma RehydrateConcat(a: seq<StoredMessage>, b: seq<StoredMessage>)
    ensures Rehydrate(a + b) == Rehydrate(a) + Rehydrate(b)
  {
    var left, right := Rehydrate(a + b), Rehydrate(a) + Rehydrate(b);
    forall i | 0 <= i < |a + b|
      ensures left[i] == right[i]
    {
      if i < |a| {
        assert (a + b)[i] == a[i];
      } else {
        assert (a + b)[i] == b[i - |a|];
      }
    }
  }

  function MetadataGet(metadata: map<string, string>, key: string, default: string): string {
    if key in metadata then metadata[key] else default
  }

  /** The citation label `"{source} (page {page})"` of one source document. */
  function SourceLabel(doc: SourceDoc): string {
    MetadataGet(doc.metadata, "source", UnknownSource) + " (page " + MetadataGet(doc.metadata, "page", UnknownPage) + ")"
  }

  /** The labels of all source documents, in order. */
  function Labels(docs: seq<SourceDoc>): seq<string> {
    seq(|docs|, i requires 0 <= i < |docs| => SourceLabel(docs[i]))
  }

  /** A document with neither key is cited as "Unknown Source (page ?)". */
  lemma SourceLabelDefaults(doc: SourceDoc)
    requires "source" !in doc.metadata && "page" !in doc.metadata
    ensures SourceLabel(doc) == "Unknown Source (page ?)"
  {
  }

  /** A document with a source but no page is cited with page "?". */
  lemma SourceLabelWithoutPage(doc: SourceDoc)
    requires "source" in doc.metadata && "page" !in doc.metadata
    ensures SourceLabel(doc) == doc.metadata["source"] + " (page ?)"
  {
  }

  /** A document with a page but no source is cited as an unknown source. */
  lemma SourceLabelWithoutSource(doc: SourceDoc)
    requires "source" !in doc.metadata && "page" in doc.metadata
    ensures SourceLabel(doc) == "Unknown Source (page " + doc.metadata["page"] + ")"
  {
  }

  /** A document with both keys is cited by their values. */
  lemma SourceLabelOfMetadata(doc: SourceDoc)
    requires "source" in doc.metadata && "page" in doc.metadata
    ensures SourceLabel(doc) == doc.metadata["source"] + " (page " + doc.metadata["page"] + ")"
  {
  }

  /**
   * The loop of `answer_question` that formats the source documents'
   * citation labels: one label per document, in the same order.
   */
  method FormatSources(sourceDocuments: seq<SourceDoc>) returns (sources: seq<string>)
    ensures |sources| == |sourceDocuments|
    ensures forall i :: 0 <= i < |sourceDocuments| ==> sources[i] == SourceLabel(sourceDocuments[i])
  {
    sources := [];
    for k := 0 to |sourceDocuments|
      invariant |sources| == k
      invariant forall i :: 0 <= i < k ==> sources[i] == SourceLabel(sourceDocuments[i])
    {
      var metadata := sourceDocuments[k].metadata;
      var src := if "source" in metadata then metadata["source"] else UnknownSource;
      var page := if "page" in metadata then metadata["page"] else UnknownPage;
      sources := sources + [src + " (page " + page + ")"];
    }
  }

  /**
   * The three rules by which `answer_question` finds a chain: the cached
   * one; else one rebuilt from a non-empty stored log; else not found.
   */
  function Resolve(active: map<string, Chain>, stored: seq<StoredMessage>, chatId: string): (res: Resolution)
    ensures res.Cached? <==> chatId in active
    ensures res.Cached? ==> res.chain == active[chatId]
    ensures res.NotFound? <==> chatId !in active && stored == []
    ensures res.Rehydrated? ==> res.chain == Chain(Rehydrate(stored), PineconeIndex)
  {
    if chatId in active then Cached(active[chatId])
    else if stored != [] then Rehydrated(CreateChain(Some(Rehydrate(stored)), None))
    else NotFound
  }

  /** The question as it is stored: a user message without sources. */
  function QuestionMessage(question: string): StoredMessage {
    StoredMessage(UserRole, question, [])
  }

  /** The answer as it is stored: an assistant message without sources. */
  function AnswerMessage(answer: string): StoredMessage {
    StoredMessage(AssistantRole, answer, [])
  }

  /** What happens once the chain has been called for a cached chat. */
  function AfterChainCall(s: Server, chatId: string, question: string, outcome: ChainOutcome): (o: Outcome)
    requires ServerValid(s) && chatId in s.active
    ensures ServerValid(o.after) && o.after.active == s.active && o.after.docs.Keys == s.docs.Keys
  {
    match outcome
    case Raised(e) => Outcome(Err(e), s)
    case Returned(answer, sourceDocuments) =>
      var withQuestion := AppendedDocs(s.docs, chatId, QuestionMessage(question));
      var withAnswer := AppendedDocs(withQuestion, chatId, AnswerMessage(answer));
      Outcome(Ok(Reply(answer, Labels(sourceDocuments))), s.(docs := withAnswer))
  }

  /**
   * `answer_question(chatId, question)` on the server state `s`, when the
   * chain answers as `chainCall` says. The cache only grows and no document
   * is created or removed.
   */
  function AnswerStep(s: Server, chatId: string, question: string, chainCall: (Chain, string) -> ChainOutcome): (o: Outcome)
    requires ServerValid(s)
    ensures ServerValid(o.after)
    ensures s.active.Keys <= o.after.active.Keys
    ensures o.after.docs.Keys == s.docs.Keys
  {
    match Resolve(s.active, LoadMessages(s.docs, chatId), chatId)
    case NotFound => Outcome(Err(ValueError(NotFoundMessage)), s)
    case Cached(chain) => AfterChainCall(s, chatId, question, chainCall(chain, question))
    case Rehydrated(chain) =>
      AfterChainCall(s.(active := s.active[chatId := chain]), chatId, question, chainCall(chain, question))
  }

  /** The chain `AnswerStep` calls, when it finds one. */
  function ChainUsed(s: Server, chatId: string): Option<Chain> {
    match Resolve(s.active, LoadMessages(s.docs, chatId), chatId)
    case NotFound => None
    case Cached(chain) => Some(chain)
    case Rehydrated(chain) => Some(chain)
  }

  /** A cached chat is answered by its cached chain and the cache is left as it was. */
  lemma CachedChatKeepsCache(s: Server, chatId: string, question: string, chainCall: (Chain, string) -> ChainOutcome)
    requires ServerValid(s) && chatId in s.active
    ensures ChainUsed(s, chatId) == Some(s.active[chatId])
    ensures AnswerStep(s, chatId, question, chainCall).after.active == s.active
  {
  }

  /**
   * An uncached chat with a non-empty stored log is answered by a chain
   * rebuilt from that log, which is then cached, even when the chain raises.
   */
  lemma StoredChatIsRehydrated(s: Server, chatId: string, question: string, chainCall: (Chain, string) -> ChainOutcome)
    requires ServerValid(s) && chatId !in s.active && LoadMessages(s.docs, chatId) != []
    ensures ChainUsed(s, chatId) == Some(Chain(Rehydrate(LoadMessages(s.docs, chatId)), PineconeIndex))
    ensures AnswerStep(s, chatId, question, chainCall).after.active
         == s.active[chatId := Chain(Rehydrate(LoadMessages(s.docs, chatId)), PineconeIndex)]
  {
  }

  /** An uncached chat with an empty or missing log is not found, and nothing changes. */
  lemma UnknownChatNotFound(s: Server, chatId: string, question: string, chainCall: (Chain, string) -> ChainOutcome)
    requires ServerValid(s) && chatId !in s.active && LoadMessages(s.docs, chatId) == []
    ensures AnswerStep(s, chatId, question, chainCall) == Outcome(Err(ValueError(NotFoundMessage)), s)
  {
  }

  /**
   * When the chain answers, the reply carries that answer and one label per
   * source document, and the log is unioned with the question and then the
   * answer; no other document changes.
   */
  lemma AnsweredChatAppendsExchange(s: Server, chatId: string, question: string, chainCall: (Chain, string) -> ChainOutcome,
                                    answer: string, sourceDocuments: seq<SourceDoc>)
    requires ServerValid(s) && ChainUsed(s, chatId).Some?
    requires chainCall(ChainUsed(s, chatId).value, question) == Returned(answer, sourceDocuments)
    ensures var o := AnswerStep(s, chatId, question, chainCall);
      && o.result.Ok? && o.result.value.answer == answer
      && |o.result.value.sources| == |sourceDocuments|
      && (forall i :: 0 <= i < |sourceDocuments| ==> o.result.value.sources[i] == SourceLabel(sourceDocuments[i]))
      && LoadMessages(o.after.docs, chatId)
         == ArrayUnion(ArrayUnion(LoadMessages(s.docs, chatId), [QuestionMessage(question)]), [AnswerMessage(answer)])
      && (forall id :: id in s.docs && id != chatId ==> o.after.docs[id] == s.docs[id])
  {
  }

  /** When the chain raises, its exception is the result and the log is untouched. */
  lemma FailedChainAppendsNothing(s: Server, chatId: string, question: string, chainCall: (Chain, string) -> ChainOutcome, e: Error)
    requires ServerValid(s) && ChainUsed(s, chatId).Some?
    requires chainCall(ChainUsed(s, chatId).value, question) == Raised(e)
    ensures AnswerStep(s, chatId, question, chainCall).result == Err(e)
    ensures AnswerStep(s, chatId, question, chainCall).after.docs == s.docs
  {
  }

  /**
   * When neither message is stored yet, a successful answer grows the log by
   * exactly two messages: the question, then the answer.
   */
  lemma AnswerGrowsLogByTwo(s: Server, chatId: string, question: string, chainCall: (Chain, string) -> ChainOutcome,
                            answer: string, sourceDocuments: seq<SourceDoc>)
    requires ServerValid(s) && ChainUsed(s, chatId).Some?
    requires chainCall(ChainUsed(s, chatId).value, question) == Returned(answer, sourceDocuments)
    requires QuestionMessage(question) !in LoadMessages(s.docs, chatId)
    requires AnswerMessage(answer) !in LoadMessages(s.docs, chatId)
    ensures LoadMessages(AnswerStep(s, chatId, question, chainCall).after.docs, chatId)
         == LoadMessages(s.docs, chatId) + [QuestionMessage(question), AnswerMessage(answer)]
  {
    var log := LoadMessages(s.docs, chatId);
    AnsweredChatAppendsExchange(s, chatId, question, chainCall, answer, sourceDocuments);
    ArrayUnionOne(log, QuestionMessage(question));
    ArrayUnionOne(log + [QuestionMessage(question)], AnswerMessage(answer));
  }

  /**
   * Because the log is appended through `ArrayUnion`, asking a question
   * whose stored user message is already in the log does not record it
   * again: the log grows by at most the answer.
   */
  lemma RepeatedQuestionNotRecorded(s: Server, chatId: string, question: string, chainCall: (Chain, string) -> ChainOutcome,
                                    answer: string, sourceDocuments: seq<SourceDoc>)
    requires ServerValid(s) && ChainUsed(s, chatId).Some?
    requires chainCall(ChainUsed(s, chatId).value, question) == Returned(answer, sourceDocuments)
    requires QuestionMessage(question) in LoadMessages(s.docs, chatId)
    ensures LoadMessages(AnswerStep(s, chatId, question, chainCall).after.docs, chatId)
         == ArrayUnion(LoadMessages(s.docs, chatId), [AnswerMessage(answer)])
  {
    AnsweredChatAppendsExchange(s, chatId, question, chainCall, answer, sourceDocuments);
    ArrayUnionOne(LoadMessages(s.docs, chatId), QuestionMessage(question));
  }

  /** The memory rebuilt after such an exchange ends with the question and then the answer. */
  lemma RehydrateAfterExchange(log: seq<StoredMessage>, question: string, answer: string)
    ensures Rehydrate(log + [QuestionMessage(question), AnswerMessage(answer)])
         == Rehydrate(log) + [HumanMessage(question), AiMessage(answer)]
  {
    RehydrateConcat(log, [QuestionMessage(question), AnswerMessage(answer)]);
  }

  /**
   * A chat that was created but never asked has an empty stored log, so once
   * the process restarts (which empties the cache) it is reported as not found.
   */
  lemma CreatedChatNotFoundAfterRestart(s: Server, chatId: string, question: string, chainCall: (Chain, string) -> ChainOutcome)
    requires ServerValid(s) && chatId !in s.active
    ensures ServerValid(s.(docs := s.docs[chatId := NewChatDoc(chatId)]))
    ensures AnswerStep(s.(docs := s.docs[chatId := NewChatDoc(chatId)]), chatId, question, chainCall).result
         == Err(ValueError(NotFoundMessage))
  {
    var t := s.(docs := s.docs[chatId := NewChatDoc(chatId)]);
    LoadAfterCreate(s.docs, chatId, chatId);
    UnknownChatNotFound(t, chatId, question, chainCall);
  }

  /** A chat that was just rebuilt is a cache hit on the next question. */
  lemma RehydratedChatIsCachedNext(s: Server, chatId: string, q1: string, q2: string, chainCall: (Chain, string) -> ChainOutcome)
    requires ServerValid(s) && chatId !in s.active && LoadMessages(s.docs, chatId) != []
    ensures var after := AnswerStep(s, chatId, q1, chainCall).after;
      ChainUsed(after, chatId) == Some(Chain(Rehydrate(LoadMessages(s.docs, chatId)), PineconeIndex))
  {
  }

  /**
   * The server side of chat sessions: the module-level `active_chats`
   * dictionary and the Firestore collection it sits on.
   */
  class ChatService {
    var active: map<string, Chain>
    const store: ChatStore

    ghost predicate Valid()
      reads this, store
    {
      ServerValid(State())
    }

    function State(): Server
      reads this, store
    {
      Server(active, store.docs)
    }

    /** The service as the module loads: an empty cache over the given collection. */
    constructor (store: ChatStore)
      requires store.Valid()
      ensures Valid() && this.store == store && active == map[]
    {
      this.store := store;
      active := map[];
    }

    /**
     * `create_chat_session`: caches a new chain (with the given vector store,
     * or the shared index) under `freshId`, the id uuid4 produced, and writes
     * an empty chat document for it.
     */
    method CreateChatSession(freshId: string, vectorStore: Option<VectorStore>) returns (chatId: string)
      requires Valid()
      modifies this, store
      ensures Valid()
      ensures chatId == freshId
      ensures active == old(active)[chatId := Chain([], vectorStore.GetOr(PineconeIndex))]
      ensures store.docs == old(store.docs)[chatId := NewChatDoc(chatId)]
      ensures chatId in active && LoadMessages(store.docs, chatId) == []
    {
      chatId := freshId;
      active := active[chatId := CreateChain(None, vectorStore)];
      store.CreateChatDoc(chatId);
    }

    /** `answer_question`: behaves as `AnswerStep` says. */
    method AnswerQuestion(chatId: string, question: string, chainCall: (Chain, string) -> ChainOutcome)
      returns (r: Result<Reply, Error>)
      requires Valid()
      modifies this, store
      ensures Valid()
      ensures Outcome(r, State()) == AnswerStep(old(State()), chatId, question, chainCall)
    {
      var chain: Chain;
      if chatId in active {
        chain := active[chatId];
      } else {
        var oldMessages := LoadMessages(store.docs, chatId);
        if oldMessages != [] {
          var memory := PreloadOldMessages(chatId);
          chain := CreateChain(Some(memory), None);
          active := active[chatId := chain];
        } else {
          return Err(ValueError(NotFoundMessage));
        }
      }
      var outcome := chainCall(chain, question);
      match outcome
      case Raised(e) =>
        return Err(e);
      case Returned(answer, sourceDocuments) =>
        var sources := FormatSources(sourceDocuments);
        assert sources == Labels(sourceDocuments);
        var questionStored := store.AppendMessage(chatId, UserRole, question, None);
        var answerStored := store.AppendMessage(chatId, AssistantRole, answer, None);
        return Ok(Reply(answer, sources));
    }

    /** `preload_old_messages`: rebuilds conversation memory from the chat's stored log. */
    method PreloadOldMessages(chatId: string) returns (memory: seq<ChatMessage>)
      ensures memory == Rehydrate(LoadMessages(store.docs, chatId))
    {
      var messages := LoadMessages(store.docs, chatId);
      memory := [];
      for k := 0 to |messages|
        invariant memory == Rehydrate(messages[..k])
      {
        assert messages[..k + 1][..k] == messages[..k];
        var role := messages[k].role;
        var content := messages[k].content;
        if role == UserRole {
          memory := memory + [HumanMessage(content)];
        } else {
          memory := memory + [AiMessage(content)];
        }
      }
      assert messages[..|messages|] == messages;
    }
  }
}
