/**
  The chat engine of the workflow version (core/src/rag/custom_chat_engine.py):
  a simple chat engine whose `achat` wraps the question in a prompt that names
  the user and, when there is one, carries the context; the memory keeps the
  raw question and the reply.
 */
module CustomChatEngine {
  import opened Wrappers
  import opened PyStr
  import opened Schema
  import opened Services
  import opened Relevance
  import opened Seqs

  /** `str(content)` of a message content: a missing content prints as `None`. */
  function ContentText(content: Option<string>): string
  {
    match content
    case Some(s) => s
    case None => "None"
  }

  /** The string contents of `messages`, in order; a message with no content is skipped. */
  function TextContents(messages: seq<ChatMessage>): (r: seq<string>)
    ensures |r| <= |messages|
    ensures (forall k :: 0 <= k < |messages| ==> messages[k].content.Some?) ==>
              |r| == |messages| && forall k :: 0 <= k < |messages| ==> r[k] == messages[k].content.value
  {
    if messages == [] then []
    else
      var rest := TextContents(messages[1..]);
      match messages[0].content
      case Some(s) => [s] + rest
      case None => rest
  }

  /** The contents of one message: its content when it has one, and nothing otherwise. */
  function ContentsOf(m: ChatMessage): seq<string>
  {
    if m.content.Some? then [m.content.value] else []
  }

  /**
    The filter keeps order across concatenation: the contents of `a + b` are
    those of `a` followed by those of `b`.
   */
  lemma {:induction false} TextContentsAppend(a: seq<ChatMessage>, b: seq<ChatMessage>)
    ensures TextContents(a + b) == TextContents(a) + TextContents(b)
  {
    if a == [] {
      assert a + b == b;
    } else {
      assert (a + b)[0] == a[0] && (a + b)[1..] == a[1..] + b;
      TextContentsAppend(a[1..], b);
    }
  }

  /**
    One more message adds its content, or nothing when it has none: a message
    with a missing content is skipped and the others are kept in order.
   */
  lemma TextContentsSnoc(messages: seq<ChatMessage>, m: ChatMessage)
    ensures TextContents(messages + [m]) == TextContents(messages) + ContentsOf(m)
  {
    TextContentsAppend(messages, [m]);
  }

  function Indent(n: nat): (r: string)
    ensures |r| == n && forall k :: 0 <= k < n ==> r[k] == ' '
  {
    if n == 0 then "" else " " + Indent(n - 1)
  }

  /** The context paragraph of the wrapped question: only for a truthy context. */
  function ContextBlock(context: ContextPayload): string
  {
    if ContextTruthy(context) then ContextIntro + ("<context>\n" + context.text)
    else ""
  }

  const ContextIntro: string := "Use the context information below to answer user's question.\n"

  /** The first line of the wrapped question, after its leading newline: the user's name. */
  function NameLine(userName: string): string
  {
    "\n" + Indent(12) + ("User's name: " + userName)
  }

  /** The second line: the question. */
  function QuestionLine(message: string): string
  {
    "\n" + Indent(12) + ("Question: " + message)
  }

  /** A blank line, the context paragraph's line, and the closing indentation. */
  function ContextLines(context: ContextPayload): string
  {
    "\n\n" + Indent(12) + ContextBlock(context) + ("\n" + Indent(8))
  }

  /** The wrapped question, `query_full`, with the indentation of the source's triple-quoted f-string. */
  function QueryFull(userName: string, message: string, context: ContextPayload): string
  {
    NameLine(userName) + QuestionLine(message) + ContextLines(context)
  }

  /** The wrapped question names the user. */
  lemma QueryNamesUser(userName: string, message: string, context: ContextPayload)
    ensures Contains(QueryFull(userName, message, context), "User's name: " + userName)
  {
    AppendAssoc(NameLine(userName), QuestionLine(message), ContextLines(context));
    OccursBetween("\n" + Indent(12), "User's name: " + userName, QuestionLine(message) + ContextLines(context));
  }

  /** The wrapped question holds the question. */
  lemma QueryHoldsQuestion(userName: string, message: string, context: ContextPayload)
    ensures Contains(QueryFull(userName, message, context), "Question: " + message)
  {
    var lead := "\n" + Indent(12);
    AppendAssoc(NameLine(userName), lead, "Question: " + message);
    OccursBetween(NameLine(userName) + lead, "Question: " + message, ContextLines(context));
  }

  /** A truthy context stands in the wrapped question after its `<context>` line. */
  lemma QueryCarriesContext(userName: string, message: string, context: ContextPayload)
    requires ContextTruthy(context)
    ensures Contains(QueryFull(userName, message, context), "<context>\n" + context.text)
  {
    var lines := NameLine(userName) + QuestionLine(message);
    var gap := "\n\n" + Indent(12);
    var block := "<context>\n" + context.text;
    var close := "\n" + Indent(8);
    AppendAssoc(gap, ContextIntro, block);
    AppendAssoc(lines, gap + ContextIntro + block, close);
    AppendAssoc(lines, gap + ContextIntro, block);
    OccursBetween(lines + (gap + ContextIntro), block, close);
  }

  /** A falsy context, `False` or `""`, leaves the paragraph out: the question ends after the blank line. */
  lemma QueryWithoutContext(userName: string, message: string, context: ContextPayload)
    requires !ContextTruthy(context)
    ensures QueryFull(userName, message, context)
      == NameLine(userName) + QuestionLine(message) + "\n\n" + Indent(12) + "\n" + Indent(8)
  {
    var lines := NameLine(userName) + QuestionLine(message);
    var gap := "\n\n" + Indent(12);
    assert ContextLines(context) == gap + ("\n" + Indent(8));
    AppendAssoc(lines, gap, "\n" + Indent(8));
    AppendAssoc(lines, "\n\n", Indent(12));
    AppendAssoc(lines + "\n\n" + Indent(12), "\n", Indent(8));
  }

  /**
    `initial_token_count`: the number of tokens of the prefix messages' string
    contents joined by spaces, or 0 when the memory has no tokenizer.
   */
  function InitialTokenCount(prefix: seq<ChatMessage>, tokenizer: Option<string -> nat>): nat
  {
    match tokenizer
    case Some(tokens) => tokens(Join(" ", TextContents(prefix)))
    case None => 0
  }

  /**
    The messages `achat` sends: the prefix, then the memory window read with
    the initial token count, then the wrapped question, last.
   */
  function SentMessages(prefix: seq<ChatMessage>, tokenizer: Option<string -> nat>,
                        window: (seq<ChatMessage>, Fetch) -> seq<ChatMessage>, history: seq<ChatMessage>,
                        userName: string, message: string, context: ContextPayload): seq<ChatMessage>
  {
    prefix + window(history, AfterTokens(InitialTokenCount(prefix, tokenizer)))
    + [ChatMessage(User, Some(QueryFull(userName, message, context)))]
  }

  /** The prefix comes first, the memory window next, and the wrapped question last. */
  lemma SentOrder(prefix: seq<ChatMessage>, tokenizer: Option<string -> nat>,
                  window: (seq<ChatMessage>, Fetch) -> seq<ChatMessage>, history: seq<ChatMessage>,
                  userName: string, message: string, context: ContextPayload)
    ensures var r := SentMessages(prefix, tokenizer, window, history, userName, message, context);
            var w := window(history, AfterTokens(InitialTokenCount(prefix, tokenizer)));
            && |r| == |prefix| + |w| + 1
            && r[..|prefix|] == prefix
            && r[|prefix|..|r| - 1] == w
            && r[|r| - 1] == ChatMessage(User, Some(QueryFull(userName, message, context)))
  {
  }

  class CustomSimpleChatEngine {
    const llm: ChatLlm
    const memory: Memory
    const prefixMessages: seq<ChatMessage>

    /** `from_defaults(llm, memory, system_prompt)`: a system prompt becomes the one prefix message. */
    constructor (llm: ChatLlm, memory: Memory, systemPrompt: Option<string>)
      ensures this.llm == llm && this.memory == memory
      ensures prefixMessages == if systemPrompt.Some? then [ChatMessage(System, systemPrompt)] else []
    {
      this.llm := llm;
      this.memory := memory;
      prefixMessages := if systemPrompt.Some? then [ChatMessage(System, systemPrompt)] else [];
    }

    /**
      `achat`: a given chat history first replaces the memory; the LLM gets the
      prefix, the memory window and the wrapped question, last; the memory
      then gains the raw question and the reply, in that order, and nothing
      else changes; the response is the reply's content as a string.
     */
    method AChat(message: string, userName: string, context: ContextPayload, chatHistory: Option<seq<ChatMessage>>)
      returns (response: string)
      modifies memory.store, llm
      ensures var history := if chatHistory.Some? then chatHistory.value else old(memory.History());
              var sent := SentMessages(prefixMessages, memory.tokenizer, memory.window, history, userName, message, context);
              && llm.calls == old(llm.calls) + [sent]
              && memory.store.chats == old(memory.store.chats)[memory.key := history + [ChatMessage(User, Some(message)), llm.answer(sent)]]
              && response == ContentText(llm.answer(sent).content)
    {
      if chatHistory.Some? {
        memory.ASet(chatHistory.value);
      }
      ghost var history := memory.History();
      assert history == if chatHistory.Some? then chatHistory.value else old(memory.History());
      var initialTokenCount := if memory.tokenizer.Some? then memory.tokenizer.value(Join(" ", TextContents(prefixMessages))) else 0;
      assert initialTokenCount == InitialTokenCount(prefixMessages, memory.tokenizer);
      var queryWrapped := ChatMessage(User, Some(QueryFull(userName, message, context)));
      var window := memory.AGet(AfterTokens(initialTokenCount));
      var allMessages := prefixMessages + window + [queryWrapped];
      assert allMessages == SentMessages(prefixMessages, memory.tokenizer, memory.window, history, userName, message, context);
      var aiMessage := llm.AChat(allMessages);
      ghost var chats := memory.store.chats;
      var userMessage := ChatMessage(User, Some(message));
      memory.APut(userMessage);
      memory.APut(aiMessage);
      AppendPair(history, userMessage, aiMessage);
      UpdateTwice(chats, memory.key, history + [userMessage], history + [userMessage, aiMessage]);
      if chatHistory.Some? {
        UpdateTwice(old(memory.store.chats), memory.key, chatHistory.value, history + [userMessage, aiMessage]);
      }
      response := ContentText(aiMessage.content);
    }
  }
}
