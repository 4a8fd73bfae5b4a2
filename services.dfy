/**
  The services the pipeline calls but does not implement: retrievers, the two
  LLMs, the chat store behind a memory, and the library's plain chat engine.
  What each one answers is a function fixed when it is built (an oracle); what
  makes a call observable is the log each object keeps of the calls it got.
 */
module Services {
  import opened Wrappers
  import opened Schema

  /** What the router retriever's `aretrieve` does: return nodes, or raise a `ValueError`. */
  datatype Retrieved = Retrieved(nodes: seq<NodeWithScore>) | RetrievalValueError

  /** The router retriever of the RAG system (LLM-selected collection retrievers). */
  class RouterRetriever {
    const answer: string -> Retrieved
    /** The queries it was asked, in order. */
    var queries: seq<string>

    constructor (answer: string -> Retrieved)
      ensures this.answer == answer && queries == []
    {
      this.answer := answer;
      queries := [];
    }

    method ARetrieve(query: string) returns (r: Retrieved)
      modifies this
      ensures r == answer(query) && queries == old(queries) + [query]
    {
      r := answer(query);
      queries := queries + [query];
    }
  }

  /** A plain retriever, as a context chat engine holds one; it cannot fail. */
  class Retriever {
    const answer: string -> seq<NodeWithScore>
    var queries: seq<string>

    constructor (answer: string -> seq<NodeWithScore>)
      ensures this.answer == answer && queries == []
    {
      this.answer := answer;
      queries := [];
    }

    method ARetrieve(query: string) returns (r: seq<NodeWithScore>)
      modifies this
      ensures r == answer(query) && queries == old(queries) + [query]
    {
      r := answer(query);
      queries := queries + [query];
    }
  }

  /** A completion LLM: a prompt in, the text of the completion out. */
  class CompletionLlm {
    const answer: Prompt -> string
    var prompts: seq<Prompt>

    constructor (answer: Prompt -> string)
      ensures this.answer == answer && prompts == []
    {
      this.answer := answer;
      prompts := [];
    }

    method AComplete(prompt: Prompt) returns (text: string)
      modifies this
      ensures text == answer(prompt) && prompts == old(prompts) + [prompt]
    {
      text := answer(prompt);
      prompts := prompts + [prompt];
    }
  }

  /** A chat LLM: a list of messages in, the reply message out. */
  class ChatLlm {
    const answer: seq<ChatMessage> -> ChatMessage
    var calls: seq<seq<ChatMessage>>

    constructor (answer: seq<ChatMessage> -> ChatMessage)
      ensures this.answer == answer && calls == []
    {
      this.answer := answer;
      calls := [];
    }

    method AChat(messages: seq<ChatMessage>) returns (reply: ChatMessage)
      modifies this
      ensures reply == answer(messages) && calls == old(calls) + [messages]
    {
      reply := answer(messages);
      calls := calls + [messages];
    }
  }

  /** A chat store: the chat history kept under each key (Redis, or in memory). */
  class ChatStore {
    var chats: map<string, seq<ChatMessage>>

    constructor ()
      ensures chats == map[]
    {
      chats := map[];
    }

    /** The history under `key`; a key never written holds none. */
    function Get(key: string): seq<ChatMessage>
      reads this
    {
      if key in chats then chats[key] else []
    }
  }

  /** What a memory is asked for when it is read: a window after a token count, or the window for an input. */
  datatype Fetch = AfterTokens(initialTokenCount: nat) | ForInput(input: string)

  /**
    A chat memory over one key of a chat store. Which part of the history a
    read returns (trimmed to the token limit) is the library's business, so
    it is the oracle `window`; `tokenizer` is the length of the tokenizer's
    output, when the memory has a tokenizer.
   */
  class Memory {
    const store: ChatStore
    const key: string
    const tokenLimit: nat
    const tokenizer: Option<string -> nat>
    const window: (seq<ChatMessage>, Fetch) -> seq<ChatMessage>

    constructor (store: ChatStore, key: string, tokenLimit: nat, tokenizer: Option<string -> nat>,
                 window: (seq<ChatMessage>, Fetch) -> seq<ChatMessage>)
      ensures this.store == store && this.key == key && this.tokenLimit == tokenLimit
      ensures this.tokenizer == tokenizer && this.window == window
    {
      this.store := store;
      this.key := key;
      this.tokenLimit := tokenLimit;
      this.tokenizer := tokenizer;
      this.window := window;
    }

    function History(): seq<ChatMessage>
      reads store
    {
      store.Get(key)
    }

    /** `aset`: replace the history. */
    method ASet(history: seq<ChatMessage>)
      modifies store
      ensures store.chats == old(store.chats)[key := history]
    {
      store.chats := store.chats[key := history];
    }

    /** `aget`: read a window of the history. */
    method AGet(fetch: Fetch) returns (messages: seq<ChatMessage>)
      ensures messages == window(History(), fetch)
    {
      messages := window(History(), fetch);
    }

    /** `aput`: append one message to the history. */
    method APut(message: ChatMessage)
      modifies store
      ensures store.chats == old(store.chats)[key := old(History()) + [message]]
    {
      store.chats := store.chats[key := History() + [message]];
    }
  }

  /**
    The library's `SimpleChatEngine`, used as it is: how its `achat` answers
    is not part of the model, so the answer is the oracle `respond`, given
    the prompts the engine was sent before.
   */
  class SimpleChatEngine {
    /** The chat LLM, or `None` for the library's default. */
    const llm: ChatLlm?
    const memory: Memory
    const systemPrompt: Option<string>
    const respond: (seq<Prompt>, Prompt) -> string
    var prompts: seq<Prompt>

    constructor (llm: ChatLlm?, memory: Memory, systemPrompt: Option<string>, respond: (seq<Prompt>, Prompt) -> string)
      ensures this.llm == llm && this.memory == memory && this.systemPrompt == systemPrompt
      ensures this.respond == respond && prompts == []
    {
      this.llm := llm;
      this.memory := memory;
      this.systemPrompt := systemPrompt;
      this.respond := respond;
      prompts := [];
    }

    method AChat(prompt: Prompt) returns (response: string)
      modifies this
      ensures response == respond(old(prompts), prompt) && prompts == old(prompts) + [prompt]
    {
      response := respond(prompts, prompt);
      prompts := prompts + [prompt];
    }
  }
}
