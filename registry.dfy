/**
  The chat engine registry the workflow is given (core/src/chat_engine_registry.py):
  one library chat engine per user id, created on first use with the
  workflow's system prompt and a memory of its own, and cached from then on.
 */
module Registry {
  import opened Wrappers
  import opened Schema
  import opened Services

  class ChatEngineRegistry {
    /** The chat LLM, or `None`. */
    const chatLlm: ChatLlm?
    /** `SYSTEM_PROMPT_WORKFLOW`, configuration text. */
    const systemPromptWorkflow: string
    /** How the library's memory and chat engine behave. */
    const memoryTokenizer: Option<string -> nat>
    const memoryWindow: (seq<ChatMessage>, Fetch) -> seq<ChatMessage>
    const engineRespond: (seq<Prompt>, Prompt) -> string
    var chatEnginesCached: map<string, SimpleChatEngine>

    /** Every cached engine was made by `GetOrCreateChatEngine`: the same LLM and prompt, the test session, the token limit. */
    ghost predicate Valid()
      reads this
    {
      forall u :: u in chatEnginesCached ==>
        var e := chatEnginesCached[u];
        && e.llm == chatLlm && e.systemPrompt == Some(systemPromptWorkflow) && e.respond == engineRespond
        && e.memory.key == TestSessionId && e.memory.tokenLimit == ChatMemoryTokenLimit
    }

    constructor (chatLlm: ChatLlm?, systemPromptWorkflow: string, memoryTokenizer: Option<string -> nat>,
                 memoryWindow: (seq<ChatMessage>, Fetch) -> seq<ChatMessage>, engineRespond: (seq<Prompt>, Prompt) -> string)
      ensures this.chatLlm == chatLlm && this.systemPromptWorkflow == systemPromptWorkflow
      ensures this.memoryTokenizer == memoryTokenizer && this.memoryWindow == memoryWindow && this.engineRespond == engineRespond
      ensures chatEnginesCached == map[] && Valid()
    {
      this.chatLlm := chatLlm;
      this.systemPromptWorkflow := systemPromptWorkflow;
      this.memoryTokenizer := memoryTokenizer;
      this.memoryWindow := memoryWindow;
      this.engineRespond := engineRespond;
      chatEnginesCached := map[];
    }

    /**
      `get_or_create_chat_engine`: a cached engine is returned and the cache
      is left as it is; otherwise a new engine over a new, empty memory (the
      test session id and a 2000-token limit, whatever the user) is stored
      under the user id and returned. Entries of other users never change.
     */
    method GetOrCreateChatEngine(userId: string) returns (engine: SimpleChatEngine)
      requires Valid()
      modifies this
      ensures Valid()
      ensures userId in old(chatEnginesCached) ==> engine == old(chatEnginesCached)[userId] && chatEnginesCached == old(chatEnginesCached)
      ensures userId !in old(chatEnginesCached) ==>
        && fresh(engine) && fresh(engine.memory) && fresh(engine.memory.store)
        && chatEnginesCached == old(chatEnginesCached)[userId := engine]
        && engine.prompts == [] && engine.memory.store.chats == map[]
      ensures userId in chatEnginesCached && chatEnginesCached[userId] == engine
      ensures forall u :: u in old(chatEnginesCached) && u != userId ==> u in chatEnginesCached && chatEnginesCached[u] == old(chatEnginesCached)[u]
      ensures engine.llm == chatLlm && engine.systemPrompt == Some(systemPromptWorkflow)
      ensures engine.memory.key == TestSessionId && engine.memory.tokenLimit == ChatMemoryTokenLimit
    {
      if userId in chatEnginesCached {
        return chatEnginesCached[userId];
      }
      var store := new ChatStore();
      var memory := new Memory(store, TestSessionId, ChatMemoryTokenLimit, memoryTokenizer, memoryWindow);
      engine := new SimpleChatEngine(chatLlm, memory, Some(systemPromptWorkflow), engineRespond);
      chatEnginesCached := chatEnginesCached[userId := engine];
    }

    /** Two calls in a row for the same user give the very same engine, and the second changes nothing. */
    method GetTwice(userId: string) returns (first: SimpleChatEngine, second: SimpleChatEngine)
      requires Valid()
      modifies this
      ensures Valid()
      ensures first == second
      ensures userId in old(chatEnginesCached) ==> first == old(chatEnginesCached)[userId] && chatEnginesCached == old(chatEnginesCached)
    {
      first := GetOrCreateChatEngine(userId);
      second := GetOrCreateChatEngine(userId);
    }
  }
}
