/**
  The RAG system as a workflow (core/src/rag/rag_workflow.py): a first step
  checks what the router retriever found for relevance and emits the context,
  and a second step answers with a custom simple chat engine whose memory is
  the user's chat history in the shared chat store.
 */
module ChatWorkflow {
  import opened Wrappers
  import opened PyStr
  import opened Schema
  import opened Services
  import opened Relevance
  import opened CustomChatEngine

  /** The start event's arguments; a missing one is `None`. */
  datatype StartEvent = StartEvent(userQuery: Option<string>, userName: Option<string>, userId: Option<string>)

  /** A truthy argument: present and not empty. */
  predicate Given(v: Option<string>)
  {
    v.Some? && v.value != ""
  }

  /** What a step ends in: no event (`None`), an emitted relevance event, or an exception. */
  datatype StepOutcome = NoEvent | Emit(context: ContextPayload) | Raised(fault: Fault)

  function OutcomeOf(r: Result<ContextPayload, Fault>): StepOutcome
  {
    match r
    case Ok(p) => Emit(p)
    case Err(f) => Raised(f)
  }

  /** The run's context, with its key-value store. */
  class Context {
    var store: map<string, string>

    constructor ()
      ensures store == map[]
    {
      store := map[];
    }
  }

  /** The chat store key of a user's memory, `f"user_{user_id}"`. */
  function MemoryKey(userId: string): string
  {
    "user_" + userId
  }

  /** Different users never share a memory. */
  lemma MemoryKeysDistinct(a: string, b: string)
    requires a != b
    ensures MemoryKey(a) != MemoryKey(b)
  {
    assert MemoryKey(a)[5..] == a && MemoryKey(b)[5..] == b;
  }

  class RagChatWorkflow {
    const routerLlm: CompletionLlm
    const chatLlm: ChatLlm
    const redisChatStore: ChatStore
    const routerRetriever: RouterRetriever?
    /** `SYSTEM_PROMPT_WORKFLOW`, configuration text. */
    const systemPromptWorkflow: string
    /** The token counter and the history window of a `ChatMemoryBuffer`, library behaviour. */
    const memoryTokenizer: string -> nat
    const memoryWindow: (seq<ChatMessage>, Fetch) -> seq<ChatMessage>

    constructor (routerLlm: CompletionLlm, chatLlm: ChatLlm, redisChatStore: ChatStore, routerRetriever: RouterRetriever?,
                 systemPromptWorkflow: string, memoryTokenizer: string -> nat,
                 memoryWindow: (seq<ChatMessage>, Fetch) -> seq<ChatMessage>)
      ensures this.routerLlm == routerLlm && this.chatLlm == chatLlm && this.redisChatStore == redisChatStore
      ensures this.routerRetriever == routerRetriever && this.systemPromptWorkflow == systemPromptWorkflow
      ensures this.memoryTokenizer == memoryTokenizer && this.memoryWindow == memoryWindow
    {
      this.routerLlm := routerLlm;
      this.chatLlm := chatLlm;
      this.redisChatStore := redisChatStore;
      this.routerRetriever := routerRetriever;
      this.systemPromptWorkflow := systemPromptWorkflow;
      this.memoryTokenizer := memoryTokenizer;
      this.memoryWindow := memoryWindow;
    }

    /** The guard of the first step: every argument given, and a router retriever. */
    predicate Ready(ev: StartEvent)
    {
      Given(ev.userQuery) && routerRetriever != null && Given(ev.userName) && Given(ev.userId)
    }

    /**
      `_is_retrieval_relevant`. Without its arguments the step returns `None`
      and touches nothing. Otherwise it stores the query, the name and the id,
      asks the router retriever once, and ends in what the relevance check
      yields: no context when retrieval raised, else the filter LLM, asked once
      about the listing, decides; a fault in reading its reply escapes.
     */
    method IsRetrievalRelevant(ctx: Context, ev: StartEvent) returns (out: StepOutcome)
      modifies ctx, routerRetriever, routerLlm
      ensures !Ready(ev) ==> out == NoEvent && ctx.store == old(ctx.store) && routerLlm.prompts == old(routerLlm.prompts)
      ensures !Ready(ev) && routerRetriever != null ==> routerRetriever.queries == old(routerRetriever.queries)
      ensures Ready(ev) ==>
        var query := ev.userQuery.value;
        var retrieved := routerRetriever.answer(query);
        && ctx.store == old(ctx.store)["user_query" := query]["user_name" := ev.userName.value]["user_id" := ev.userId.value]
        && routerRetriever.queries == old(routerRetriever.queries) + [query]
        && out == OutcomeOf(RelevanceOf(retrieved, routerLlm.answer, query))
        && routerLlm.prompts == old(routerLlm.prompts)
             + (if retrieved.Retrieved? then [RelevancePrompt(query, CandidateListing(retrieved.nodes))] else [])
    {
      if !Given(ev.userQuery) || routerRetriever == null || !Given(ev.userName) || !Given(ev.userId) {
        return NoEvent;
      }
      var userQuery := ev.userQuery.value;
      ctx.store := ctx.store["user_query" := userQuery];
      ctx.store := ctx.store["user_name" := ev.userName.value];
      ctx.store := ctx.store["user_id" := ev.userId.value];

      var retrieved := routerRetriever.ARetrieve(userQuery);
      if retrieved.RetrievalValueError? {
        return Emit(NoContext);
      }
      var nodes := retrieved.nodes;
      var listing := BuildCandidateListing(nodes);
      var reply := routerLlm.AComplete(RelevancePrompt(userQuery, listing));
      out := OutcomeOf(ContextFromReply(nodes, reply));
    }

    /** The prefix of the workflow's chat engine: its system prompt. */
    function Prefix(): seq<ChatMessage>
    {
      [ChatMessage(System, Some(systemPromptWorkflow))]
    }

    /**
      `_synthesize`, on the emitted context (which may be `False`: the step
      answers anyway). A memory over the store key of the stored user id and a
      chat engine with the workflow's system prompt are built, and the stored
      question is answered; the result is the engine's response text. Only
      that user's chat history changes: it gains the question and the reply.
     */
    method Synthesize(ctx: Context, context: ContextPayload) returns (result: string)
      requires "user_query" in ctx.store && "user_name" in ctx.store && "user_id" in ctx.store
      modifies redisChatStore, chatLlm
      ensures var key := MemoryKey(ctx.store["user_id"]);
              var history := old(redisChatStore.Get(key));
              var sent := SentMessages(Prefix(), Some(memoryTokenizer), memoryWindow, history,
                                       ctx.store["user_name"], ctx.store["user_query"], context);
              && chatLlm.calls == old(chatLlm.calls) + [sent]
              && redisChatStore.chats
                   == old(redisChatStore.chats)[key := history + [ChatMessage(User, Some(ctx.store["user_query"])), chatLlm.answer(sent)]]
              && result == ContentText(chatLlm.answer(sent).content)
    {
      var userQuery := ctx.store["user_query"];
      var userName := ctx.store["user_name"];
      var userId := ctx.store["user_id"];
      var memory := new Memory(redisChatStore, MemoryKey(userId), ChatMemoryTokenLimit, Some(memoryTokenizer), memoryWindow);
      var chatEngine := new CustomSimpleChatEngine(chatLlm, memory, Some(systemPromptWorkflow));
      result := chatEngine.AChat(userQuery, userName, context, None);
    }
  }
}
