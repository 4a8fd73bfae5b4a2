/**
  The RAG system as a plain class (core/src/rag_workflow.py): a relevance
  check over what the router retriever found, a cache of one library chat
  engine per user, and `query`, which answers from the context or apologises.
 */
module ClassicRag {
  import opened Wrappers
  import opened Schema
  import opened Services
  import opened Relevance
  import opened Seqs

  /** What follows the user's name in the apology. */
  const ApologyText: string := ", I am sorry, but it seems that I don't have an answer to your question in my knowledge base, or it might be irrelevant."

  /** The reply when no relevant context was found. */
  function Apology(userName: string): string
  {
    userName + ApologyText
  }

  /** `SYSTEM_PROMPT.format(user_name = ..., question = ..., context = ...)`. */
  function AnswerPrompt(userName: string, query: string, context: string): Prompt
  {
    Prompt(SystemPrompt, [("user_name", userName), ("question", query), ("context", context)])
  }

  class RagSystem {
    const routerLlm: CompletionLlm
    const chatLlm: ChatLlm?
    const routerRetriever: RouterRetriever
    /** How the library's memory and chat engine behave, given when the system is built. */
    const memoryTokenizer: Option<string -> nat>
    const memoryWindow: (seq<ChatMessage>, Fetch) -> seq<ChatMessage>
    const engineRespond: (seq<Prompt>, Prompt) -> string
    var chatEnginesCached: map<string, SimpleChatEngine>

    /** Every cached engine was built by this system: its LLM, its answers, and a memory with the test session id. */
    ghost predicate Valid()
      reads this
    {
      forall u :: u in chatEnginesCached ==>
        var e := chatEnginesCached[u];
        && e.llm == chatLlm && e.systemPrompt == None && e.respond == engineRespond
        && e.memory.key == TestSessionId && e.memory.tokenLimit == ChatMemoryTokenLimit
    }

    constructor (routerLlm: CompletionLlm, chatLlm: ChatLlm?, routerRetriever: RouterRetriever,
                 memoryTokenizer: Option<string -> nat>, memoryWindow: (seq<ChatMessage>, Fetch) -> seq<ChatMessage>,
                 engineRespond: (seq<Prompt>, Prompt) -> string)
      ensures this.routerLlm == routerLlm && this.chatLlm == chatLlm && this.routerRetriever == routerRetriever
      ensures this.memoryTokenizer == memoryTokenizer && this.memoryWindow == memoryWindow
      ensures this.engineRespond == engineRespond && chatEnginesCached == map[]
      ensures Valid()
    {
      this.routerLlm := routerLlm;
      this.chatLlm := chatLlm;
      this.routerRetriever := routerRetriever;
      this.memoryTokenizer := memoryTokenizer;
      this.memoryWindow := memoryWindow;
      this.engineRespond := engineRespond;
      chatEnginesCached := map[];
    }

    /**
      `_is_retrieval_relevant`: the router retriever is asked once; when it
      raised, there is no context; otherwise the filter LLM is asked once about
      the listing, and its reply decides. A fault in reading the reply escapes.
     */
    method IsRetrievalRelevant(query: string) returns (r: Result<ContextPayload, Fault>)
      modifies routerRetriever, routerLlm
      ensures var retrieved := routerRetriever.answer(query);
              && r == RelevanceOf(retrieved, routerLlm.answer, query)
              && routerRetriever.queries == old(routerRetriever.queries) + [query]
              && routerLlm.prompts == old(routerLlm.prompts)
                   + (if retrieved.Retrieved? then [RelevancePrompt(query, CandidateListing(retrieved.nodes))] else [])
    {
      var retrieved := routerRetriever.ARetrieve(query);
      if retrieved.RetrievalValueError? {
        return Ok(NoContext);
      }
      var nodes := retrieved.nodes;
      var listing := BuildCandidateListing(nodes);
      var reply := routerLlm.AComplete(RelevancePrompt(query, listing));
      r := ContextFromReply(nodes, reply);
    }

    /**
      `_get_or_create_chat_engine`: a cached engine is returned and the cache
      is left as it is; otherwise a new engine, over a new memory with the
      test session id and a 2000-token limit, is stored under the user id and
      returned. The other users' entries never change.
     */
    method GetOrCreateChatEngine(userId: string) returns (engine: SimpleChatEngine)
      requires Valid()
      modifies this
      ensures Valid()
      ensures userId in old(chatEnginesCached) ==> engine == old(chatEnginesCached)[userId] && chatEnginesCached == old(chatEnginesCached)
      ensures userId !in old(chatEnginesCached) ==>
        && fresh(engine) && fresh(engine.memory) && fresh(engine.memory.store)
        && chatEnginesCached == old(chatEnginesCached)[userId := engine]
        && engine.llm == chatLlm && engine.systemPrompt == None && engine.respond == engineRespond && engine.prompts == []
        && engine.memory.key == TestSessionId && engine.memory.tokenLimit == ChatMemoryTokenLimit
        && engine.memory.store.chats == map[]
      ensures chatEnginesCached[userId] == engine
    {
      if userId in chatEnginesCached {
        return chatEnginesCached[userId];
      }
      var store := new ChatStore();
      var memory := new Memory(store, TestSessionId, ChatMemoryTokenLimit, memoryTokenizer, memoryWindow);
      engine := new SimpleChatEngine(chatLlm, memory, None, engineRespond);
      chatEnginesCached := chatEnginesCached[userId := engine];
    }

    /** The prompts each cached engine has been sent so far. */
    ghost function PromptLogs(): map<SimpleChatEngine, seq<Prompt>>
      reads this, chatEnginesCached.Values
    {
      map e | e in chatEnginesCached.Values :: e.prompts
    }

    /**
      The user's engine, the cached one or else a new one now cached, was sent
      `prompt` and answered `response`; no other engine was sent anything.
      `cache` and `logs` are the cache and the prompt logs before.
     */
    ghost predicate Consulted(userId: string, prompt: Prompt, response: string,
                              cache: map<string, SimpleChatEngine>, logs: map<SimpleChatEngine, seq<Prompt>>)
      reads this, chatEnginesCached.Values
    {
      && userId in chatEnginesCached
      && var engine := chatEnginesCached[userId];
         var before := if engine in logs then logs[engine] else [];
         && chatEnginesCached == cache[userId := engine]
         && (userId in cache ==> engine == cache[userId])
         && (userId !in cache ==> engine !in logs)
         && PromptLogs() == logs[engine := before + [prompt]]
         && response == engineRespond(before, prompt)
    }

    /**
      What `query` answers once the relevance check ended in `relevance`: a
      fault escapes; with no truthy context, the apology; in both cases no
      engine is created or sent anything. Otherwise the user's engine was
      sent the answer prompt, and its response is the answer.
     */
    ghost predicate Answered(userName: string, userId: string, userQuery: string, relevance: Result<ContextPayload, Fault>,
                             r: Result<string, Fault>,
                             cache: map<string, SimpleChatEngine>, logs: map<SimpleChatEngine, seq<Prompt>>)
      reads this, chatEnginesCached.Values
    {
      match relevance
      case Err(f) => r == Err(f) && chatEnginesCached == cache && PromptLogs() == logs
      case Ok(context) =>
        if ContextTruthy(context) then r.Ok? && Consulted(userId, AnswerPrompt(userName, userQuery, context.text), r.value, cache, logs)
        else r == Ok(Apology(userName)) && chatEnginesCached == cache && PromptLogs() == logs
    }

    /** The user's engine, cached or new, is sent the prompt, and its response is returned. */
    method AskEngine(userId: string, prompt: Prompt) returns (response: string)
      requires Valid()
      modifies this, chatEnginesCached.Values
      ensures Valid()
      ensures Consulted(userId, prompt, response, old(chatEnginesCached), old(PromptLogs()))
      ensures userId !in old(chatEnginesCached) ==> fresh(chatEnginesCached[userId])
    {
      ghost var logs := PromptLogs();
      ghost var cache := chatEnginesCached;
      var chatEngine := GetOrCreateChatEngine(userId);
      if userId !in cache {
        UpdateValues(cache, userId, chatEngine);
      }
      ghost var before := if chatEngine in logs then logs[chatEngine] else [];
      assert chatEngine.prompts == before;
      response := chatEngine.AChat(prompt);
      assert PromptLogs() == logs[chatEngine := before + [prompt]];
    }

    /**
      The answering half of `query`, given what the relevance check ended in:
      a fault escapes; with no truthy context the user gets the apology, and
      no chat engine is created or used; otherwise the user's engine (cached
      or new) is sent the answer prompt, and its response is the answer.
     */
    method Answer(userName: string, userId: string, userQuery: string, relevance: Result<ContextPayload, Fault>)
      returns (r: Result<string, Fault>)
      requires Valid()
      modifies this, chatEnginesCached.Values
      ensures Valid()
      ensures Answered(userName, userId, userQuery, relevance, r, old(chatEnginesCached), old(PromptLogs()))
      ensures userId !in old(chatEnginesCached) && userId in chatEnginesCached ==> fresh(chatEnginesCached[userId])
    {
      match relevance
      case Err(f) =>
        r := Err(f);
      case Ok(context) =>
        if !ContextTruthy(context) {
          r := Ok(Apology(userName));
        } else {
          var response := AskEngine(userId, AnswerPrompt(userName, userQuery, context.text));
          r := Ok(response);
        }
    }

    /** What the relevance check of `query` ends in, the retriever and the filter LLM being what they are. */
    function RelevanceFor(query: string): Result<ContextPayload, Fault>
    {
      RelevanceOf(routerRetriever.answer(query), routerLlm.answer, query)
    }

    /**
      `query`: the relevance check over the router retriever, then the answer
      it allows; a fault of the relevance check escapes, and then no engine is
      created or used.
     */
    method Query(userName: string, userId: string, userQuery: string) returns (r: Result<string, Fault>)
      requires Valid()
      modifies this, routerRetriever, routerLlm, chatEnginesCached.Values
      ensures Valid()
      ensures routerRetriever.queries == old(routerRetriever.queries) + [userQuery]
      ensures var retrieved := routerRetriever.answer(userQuery);
              routerLlm.prompts == old(routerLlm.prompts)
                + (if retrieved.Retrieved? then [RelevancePrompt(userQuery, CandidateListing(retrieved.nodes))] else [])
      ensures Answered(userName, userId, userQuery, RelevanceFor(userQuery), r, old(chatEnginesCached), old(PromptLogs()))
      ensures userId !in old(chatEnginesCached) && userId in chatEnginesCached ==> fresh(chatEnginesCached[userId])
    {
      ghost var logs := PromptLogs();
      var relevance := IsRetrievalRelevant(userQuery);
      assert PromptLogs() == logs;
      r := Answer(userName, userId, userQuery, relevance);
    }
  }
}
