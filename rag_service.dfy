/** `RAGService`: the setup wizard of a RAG project (model, vector store and embedding, documents,
    prompt template), the checks made before a project's vector store is built or queried, and the
    naming of a chat session on its first message.

    The SQLite repository is represented by what it answers: `get_rag` by an `Option<Rag>`,
    `get_documents` by the list of (type, path) rows, and the chat tables by the `ChatSessions`
    class. Missing columns (SQL NULL) are written as "" for text and 0 for numbers, which Python
    treats alike as falsy. */
module RagSetup {
  import opened Wrappers
  import Retrieval

  /** A row of the `rag` table, as far as the service reads it. */
  datatype Rag = Rag(modelType: string, modelName: string, apiKey: string, vectorDb: string,
                     chunkSize: int, promptTemplate: string)

  /** A row of `get_documents`: the document type and its link or file path. */
  type DocRow = (string, string)

  datatype Status = Incomplete | Ready

  /** The pages of the setup wizard `get_next_step_url` sends to, by their Flask endpoints:
      `main.panel`, then `rag_creator.model_selection`, `rag_creator.db_embedding_selection`,
      `rag_creator.documentation_upload`, `rag_creator.prompt_template` and
      `rag_creator.rag_details`. */
  datatype Step = Panel | ModelSelection | DbEmbeddingSelection | DocumentationUpload | TemplateStep | Details

  /** The four setup steps, in the order the wizard goes through them. */
  const SetupSteps: seq<Step> := [ModelSelection, DbEmbeddingSelection, DocumentationUpload, TemplateStep]

  /** Whether a project has completed a setup step. */
  predicate Done(step: Step, rag: Rag, documents: seq<DocRow>) {
    match step
    case ModelSelection => rag.modelType != "" && rag.modelName != ""
    case DbEmbeddingSelection => rag.vectorDb != "" && rag.chunkSize != 0
    case DocumentationUpload => documents != []
    case TemplateStep => rag.promptTemplate != ""
    case _ => true
  }

  /** `_compute_status`: ready exactly when every setup step is done. */
  function ComputeStatus(rag: Rag, documents: seq<DocRow>): (s: Status)
    ensures s == Ready <==> forall i :: 0 <= i < |SetupSteps| ==> Done(SetupSteps[i], rag, documents)
  {
    if rag.modelType == "" || rag.modelName == "" then
      assert !Done(SetupSteps[0], rag, documents);
      Incomplete
    else if rag.vectorDb == "" || rag.chunkSize == 0 then
      assert !Done(SetupSteps[1], rag, documents);
      Incomplete
    else if documents == [] then
      assert !Done(SetupSteps[2], rag, documents);
      Incomplete
    else if rag.promptTemplate == "" then
      assert !Done(SetupSteps[3], rag, documents);
      Incomplete
    else Ready
  }

  /** `get_next_step_url`: the panel for an unknown project, otherwise the first setup step not
      done, or the details page once all are done. */
  function NextStep(rag: Option<Rag>, documents: seq<DocRow>): (s: Step)
    ensures rag.None? <==> s == Panel
    ensures rag.Some? && s == Details <==> rag.Some? && forall i :: 0 <= i < |SetupSteps| ==> Done(SetupSteps[i], rag.value, documents)
    ensures rag.Some? && s != Details ==> exists i :: 0 <= i < |SetupSteps| && s == SetupSteps[i] && FirstUndone(i, rag.value, documents)
  {
    if rag.None? then Panel
    else if rag.value.modelType == "" || rag.value.modelName == "" then
      assert FirstUndone(0, rag.value, documents);
      ModelSelection
    else if rag.value.vectorDb == "" || rag.value.chunkSize == 0 then
      assert FirstUndone(1, rag.value, documents);
      DbEmbeddingSelection
    else if documents == [] then
      assert FirstUndone(2, rag.value, documents);
      DocumentationUpload
    else if rag.value.promptTemplate == "" then
      assert FirstUndone(3, rag.value, documents);
      TemplateStep
    else Details
  }

  /** Step `i` is not done while every step before it is. */
  predicate FirstUndone(i: nat, rag: Rag, documents: seq<DocRow>)
    requires i < |SetupSteps|
  {
    !Done(SetupSteps[i], rag, documents) && forall k :: 0 <= k < i ==> Done(SetupSteps[k], rag, documents)
  }

  /** The wizard lands on the details page exactly when the project's status is ready: both run
      the same checks in the same order. */
  lemma {:induction false} DetailsIffReady(rag: Rag, documents: seq<DocRow>)
    ensures NextStep(Some(rag), documents) == Details <==> ComputeStatus(rag, documents) == Ready
  {
    var s := NextStep(Some(rag), documents);
    if s == Details {
      assert forall i :: 0 <= i < |SetupSteps| ==> Done(SetupSteps[i], rag, documents);
    } else {
      var i :| 0 <= i < |SetupSteps| && s == SetupSteps[i] && FirstUndone(i, rag, documents);
      assert !Done(SetupSteps[i], rag, documents);
    }
  }

  /** The decimal digits of `n`. */
  function Digits(n: nat): (r: string)
    ensures r != [] && forall k :: 0 <= k < |r| ==> '0' <= r[k] <= '9'
    decreases n
  {
    var d := ['0' + (n % 10) as char];
    if n < 10 then d else Digits(n / 10) + d
  }

  /** Python's `str(i)` for an integer. */
  function IntToString(i: int): (r: string)
    ensures r != [] && (r[0] == '-' <==> i < 0)
  {
    if i < 0 then "-" + Digits(-i) else Digits(i)
  }

  lemma {:induction false} DigitsInjective(a: nat, b: nat)
    requires Digits(a) == Digits(b)
    ensures a == b
    decreases a
  {
    var da, db := Digits(a), Digits(b);
    assert da[|da| - 1] == '0' + (a % 10) as char;
    assert db[|db| - 1] == '0' + (b % 10) as char;
    assert a % 10 == b % 10;
    if a >= 10 && b >= 10 {
      assert Digits(a / 10) == da[..|da| - 1] == db[..|db| - 1] == Digits(b / 10);
      DigitsInjective(a / 10, b / 10);
    }
  }

  lemma IntToStringInjective(a: int, b: int)
    requires IntToString(a) == IntToString(b)
    ensures a == b
  {
    var sa, sb := IntToString(a), IntToString(b);
    assert a < 0 <==> b < 0;
    if a < 0 {
      assert Digits(-a) == sa[1..] == sb[1..] == Digits(-b);
      DigitsInjective(-a, -b);
    } else {
      DigitsInjective(a, b);
    }
  }

  /** `f"rag_{rag_id}"`: the name of a project's vector store collection. */
  function CollectionName(ragId: int): string {
    "rag_" + IntToString(ragId)
  }

  /** Different projects never share a vector store collection. */
  lemma {:induction false} CollectionNamesDistinct(a: int, b: int)
    requires a != b
    ensures CollectionName(a) != CollectionName(b)
  {
    if CollectionName(a) == CollectionName(b) {
      assert IntToString(a) == CollectionName(a)[4..] == CollectionName(b)[4..] == IntToString(b);
      IntToStringInjective(a, b);
    }
  }

  datatype RagError = RagNotFound | NoDocuments(ragId: int)

  /** `create_vector_database`: refused for an unknown project or one without documents; otherwise
      the store `build` makes from the documents, the project's vector database choice and chunk
      size, under the project's collection name. */
  function CreateVectorDatabase<S>(ragId: int, rag: Option<Rag>, documents: seq<DocRow>,
                                   build: (seq<DocRow>, string, int, string) -> S): (r: Result<S, RagError>)
    ensures rag.None? ==> r == Err(RagNotFound)
    ensures rag.Some? && documents == [] ==> r == Err(NoDocuments(ragId))
    ensures r.Ok? <==> rag.Some? && documents != []
    ensures r.Ok? ==> r.value == build(documents, rag.value.vectorDb, rag.value.chunkSize, CollectionName(ragId))
  {
    if rag.None? then Err(RagNotFound)
    else if documents == [] then Err(NoDocuments(ragId))
    else Ok(build(documents, rag.value.vectorDb, rag.value.chunkSize, CollectionName(ragId)))
  }

  /** The conversational retrieval chain `query_rag` asks for: the project's stored vector
      database and language model, its prompt template, and reranking of 20 retrieved documents
      down to 5. */
  datatype ChainSettings = ChainSettings(collection: string, vectorDb: string, modelName: string, apiKey: string,
                                         modelType: string, promptTemplate: string, useReranking: bool,
                                         topKRetrieval: int, topKReranked: int)

  type Exchange = (string, string)

  /** `query_rag`: refused for an unknown project; otherwise the answer `ask` gives for the
      project's chain, the question and the chat history (none meaning an empty history). */
  function QueryRag<A>(ragId: int, rag: Option<Rag>, query: string, chatHistory: Option<seq<Exchange>>,
                       ask: (ChainSettings, string, seq<Exchange>) -> A): (r: Result<A, RagError>)
    ensures r.Err? <==> rag.None?
    ensures r.Err? ==> r.error == RagNotFound
    ensures r.Ok? ==> exists c: ChainSettings ::
      && c.collection == CollectionName(ragId)
      && c.useReranking
      && c.topKRetrieval == Retrieval.DefaultTopKRetrieval
      && c.topKReranked == Retrieval.DefaultTopKReranked
      && c == ChainSettings(c.collection, rag.value.vectorDb, rag.value.modelName, rag.value.apiKey,
                            rag.value.modelType, rag.value.promptTemplate, true, 20, 5)
      && r.value == ask(c, query, if chatHistory.Some? then chatHistory.value else [])
  {
    if rag.None? then Err(RagNotFound)
    else
      var settings := ChainSettings(CollectionName(ragId), rag.value.vectorDb, rag.value.modelName, rag.value.apiKey,
                                    rag.value.modelType, rag.value.promptTemplate, true, 20, 5);
      Ok(ask(settings, query, if chatHistory.Some? then chatHistory.value else []))
  }

  /** `llm_service.generate_name(model_type, model_name, message, api_key)`. */
  type Namer = (string, string, string, string) -> string

  /** Whether `add_chat_message` names the session: on its first message, for a given project id,
      when the project has a model type and a model name. */
  predicate NamesSession(history: seq<Exchange>, ragId: int, rag: Option<Rag>) {
    |history| == 0 && ragId != 0 && rag.Some? && rag.value.modelType != "" && rag.value.modelName != ""
  }

  /** The chat tables: each session's name and project, its messages in insertion order, and the
      id the table's AUTOINCREMENT hands out next. */
  class ChatSessions {
    var names: map<int, string>
    var sessionRag: map<int, int>
    var messages: map<int, seq<Exchange>>
    var nextId: int

    /** Every session has a project and an id below the next one; ids start at 1. */
    predicate Valid()
      reads this
    {
      names.Keys == sessionRag.Keys && 0 < nextId && forall id :: id in names ==> 0 < id < nextId
    }

    /** The freshly created tables: no sessions and no messages. */
    constructor ()
      ensures Valid()
      ensures names == map[] && sessionRag == map[] && messages == map[] && nextId == 1
    {
      names := map[];
      sessionRag := map[];
      messages := map[];
      nextId := 1;
    }

    /** `create_chat_session`: a session under a new id, never used before, with the given name
        and project; no message changes. */
    method CreateChatSession(ragId: int, sessionName: string) returns (id: int)
      requires Valid()
      modifies this
      ensures Valid()
      ensures id == old(nextId) && id !in old(names) && nextId == id + 1
      ensures names == old(names)[id := sessionName] && sessionRag == old(sessionRag)[id := ragId]
      ensures messages == old(messages)
    {
      id := nextId;
      names := names[id := sessionName];
      sessionRag := sessionRag[id := ragId];
      nextId := nextId + 1;
    }

    /** `get_chat_history`: the session's messages, none for an unknown session. */
    function History(sessionId: int): (h: seq<Exchange>)
      reads this
      ensures sessionId !in messages ==> h == []
      ensures sessionId in messages ==> h == messages[sessionId]
    {
      if sessionId in messages then messages[sessionId] else []
    }

    /** `add_chat_message`: the exchange is always appended; the session is renamed first, with
        the name the project's model suggests for the message, exactly when `NamesSession` holds
        (on an unknown session the rename updates no row). `rag` is what `get_rag(rag_id)`
        answers. */
    method AddChatMessage(sessionId: int, userMessage: string, botResponse: string, ragId: int,
                          rag: Option<Rag>, generateName: Namer)
      requires Valid()
      modifies this
      ensures Valid() && sessionRag == old(sessionRag) && nextId == old(nextId)
      ensures messages == old(messages)[sessionId := old(History(sessionId)) + [(userMessage, botResponse)]]
      ensures NamesSession(old(History(sessionId)), ragId, rag) && sessionId in old(names) ==>
        names == old(names)[sessionId := generateName(rag.value.modelType, rag.value.modelName, userMessage, rag.value.apiKey)]
      ensures !(NamesSession(old(History(sessionId)), ragId, rag) && sessionId in old(names)) ==> names == old(names)
    {
      var history := History(sessionId);
      if |history| == 0 && ragId != 0 {
        if rag.Some? && rag.value.modelType != "" && rag.value.modelName != "" {
          var suggested := generateName(rag.value.modelType, rag.value.modelName, userMessage, rag.value.apiKey);
          if sessionId in names {
            names := names[sessionId := suggested];
          }
        }
      }
      messages := messages[sessionId := history + [(userMessage, botResponse)]];
    }
  }
}
