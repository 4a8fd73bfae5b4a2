/**
  The context chat engine (core/src/chat_engine.py): nodes are retrieved for
  the message and run through the postprocessors in order; with no nodes
  there is no answer, otherwise the response synthesizer answers from the
  nodes and the memory gains the message and the answer.
 */
module ContextEngine {
  import opened Wrappers
  import opened Schema
  import opened Services
  import opened Seqs

  /** A node postprocessor: the nodes in, the nodes kept out, given the query. */
  type Postprocessor = (seq<NodeWithScore>, string) -> seq<NodeWithScore>

  /** The postprocessors run in list order, each on the previous one's output. */
  function Pipeline(nodes: seq<NodeWithScore>, ps: seq<Postprocessor>, message: string): seq<NodeWithScore>
  {
    if ps == [] then nodes
    else ps[|ps| - 1](Pipeline(nodes, ps[..|ps| - 1], message), message)
  }

  /** Running two lists of postprocessors one after the other is running their concatenation. */
  lemma {:induction false} PipelineAppend(nodes: seq<NodeWithScore>, ps: seq<Postprocessor>, qs: seq<Postprocessor>, message: string)
    ensures Pipeline(nodes, ps + qs, message) == Pipeline(Pipeline(nodes, ps, message), qs, message)
  {
    if qs == [] {
      assert ps + qs == ps;
    } else {
      var init := qs[..|qs| - 1];
      AppendDropLast(ps, qs);
      PipelineAppend(nodes, ps, init, message);
    }
  }

  /** The first postprocessor sees the retrieved nodes. */
  lemma {:induction false} PipelineFirst(nodes: seq<NodeWithScore>, p: Postprocessor, ps: seq<Postprocessor>, message: string)
    ensures Pipeline(nodes, [p] + ps, message) == Pipeline(p(nodes, message), ps, message)
  {
    PipelineAppend(nodes, [p], ps, message);
    assert [p][..0] == [];
  }

  /** A retrieval tool's output, as a response lists it. */
  datatype ToolOutput = ToolOutput(toolName: string, rawInput: string, rawOutput: seq<NodeWithScore>)

  /** `AgentChatResponse`: the response text, its sources and the nodes it came from. */
  datatype ChatResponse = ChatResponse(response: string, sources: seq<ToolOutput>, sourceNodes: seq<NodeWithScore>)

  class CustomContextChatEngine {
    const retriever: Retriever
    const postprocessors: seq<Postprocessor>
    const memory: Memory
    /** The response synthesizer built over a chat history, answering a message from nodes (library behaviour). */
    const synthesize: (seq<ChatMessage>, string, seq<NodeWithScore>) -> string
    /** How many postprocessor runs there have been. */
    ghost var postprocessorRuns: nat

    constructor (retriever: Retriever, postprocessors: seq<Postprocessor>, memory: Memory,
                 synthesize: (seq<ChatMessage>, string, seq<NodeWithScore>) -> string)
      ensures this.retriever == retriever && this.postprocessors == postprocessors
      ensures this.memory == memory && this.synthesize == synthesize && postprocessorRuns == 0
    {
      this.retriever := retriever;
      this.postprocessors := postprocessors;
      this.memory := memory;
      this.synthesize := synthesize;
      postprocessorRuns := 0;
    }

    /** The nodes `_aget_nodes` ends with for `message`. */
    function NodesFor(message: string): seq<NodeWithScore>
    {
      var retrieved := retriever.answer(message);
      if retrieved == [] then [] else Pipeline(retrieved, postprocessors, message)
    }

    /**
      `_aget_nodes`: the retriever is asked once; an empty retrieval is
      returned as it is and no postprocessor runs; otherwise every
      postprocessor runs once, in order, each on the previous one's output.
     */
    method AGetNodes(message: string) returns (nodes: seq<NodeWithScore>)
      modifies retriever, this
      ensures nodes == NodesFor(message)
      ensures retriever.queries == old(retriever.queries) + [message]
      ensures retriever.answer(message) == [] ==> postprocessorRuns == old(postprocessorRuns)
      ensures retriever.answer(message) != [] ==> postprocessorRuns == old(postprocessorRuns) + |postprocessors|
    {
      nodes := retriever.ARetrieve(message);
      if nodes == [] {
        return [];
      }
      var i := 0;
      while i < |postprocessors|
        invariant 0 <= i <= |postprocessors|
        invariant nodes == Pipeline(retriever.answer(message), postprocessors[..i], message)
        invariant postprocessorRuns == old(postprocessorRuns) + i
        invariant retriever.queries == old(retriever.queries) + [message]
      {
        assert postprocessors[..i + 1][..i] == postprocessors[..i];
        nodes := postprocessors[i](nodes, message);
        postprocessorRuns := postprocessorRuns + 1;
        i := i + 1;
      }
      assert postprocessors[..i] == postprocessors;
    }

    /**
      `achat`: a given chat history first replaces the memory. Without nodes
      there is no response and the memory is not appended to. Otherwise the
      synthesizer, over the memory's window for the message, answers from the
      nodes; the memory gains the message and then the answer, and the
      response carries the answer and exactly those nodes.
     */
    method AChat(message: string, chatHistory: Option<seq<ChatMessage>>, prevChunks: Option<seq<NodeWithScore>>)
      returns (r: Option<ChatResponse>)
      modifies memory.store, retriever, this
      ensures retriever.queries == old(retriever.queries) + [message]
      ensures var history := if chatHistory.Some? then chatHistory.value else old(memory.History());
              var nodes := NodesFor(message);
              var answer := synthesize(memory.window(history, ForInput(message)), message, nodes);
              && (nodes == [] ==>
                    && r == None
                    && memory.store.chats == if chatHistory.Some? then old(memory.store.chats)[memory.key := history] else old(memory.store.chats))
              && (nodes != [] ==>
                    && r == Some(ChatResponse(answer, [ToolOutput("retriever", message, nodes)], nodes))
                    && memory.store.chats == old(memory.store.chats)[memory.key :=
                         history + [ChatMessage(User, Some(message)), ChatMessage(Assistant, Some(answer))]])
    {
      if chatHistory.Some? {
        memory.ASet(chatHistory.value);
      }
      ghost var history := memory.History();
      var nodes := AGetNodes(message);
      if nodes == [] {
        return None;
      }
      if |nodes| == 0 && prevChunks.Some? {
        // unreachable: `nodes` is not empty here
        assert false;
      }
      var chatHistoryNow := memory.AGet(ForInput(message));
      var response := synthesize(chatHistoryNow, message, nodes);
      var userMessage := ChatMessage(User, Some(message));
      var aiMessage := ChatMessage(Assistant, Some(response));
      ghost var chats := memory.store.chats;
      memory.APut(userMessage);
      memory.APut(aiMessage);
      AppendPair(history, userMessage, aiMessage);
      UpdateTwice(chats, memory.key, history + [userMessage], history + [userMessage, aiMessage]);
      if chatHistory.Some? {
        UpdateTwice(old(memory.store.chats), memory.key, chatHistory.value, history + [userMessage, aiMessage]);
      }
      r := Some(ChatResponse(response, [ToolOutput("retriever", message, nodes)], nodes));
    }
  }
}
