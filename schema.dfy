/**
  The values the RAG pipeline passes around: text nodes as a vector store
  returns them, chat messages, and prompts built from templates.
 */
module Schema {
  import opened Wrappers
  import opened Json

  /** `Config.CHAT_MEMORY_TOKEN_LIMIT`. */
  const ChatMemoryTokenLimit: nat := 2000

  /** The session id every library chat memory is created with. */
  const TestSessionId: string := "Test_session_id"

  /** A similarity score or an embedding coordinate; the model never computes with one. */
  type Score = real

  /** A text node: its id, its text, its metadata and its embedding, if any. */
  datatype TextNode = TextNode(id: string, text: string, metadata: map<string, Json>, embedding: Option<seq<Score>>)

  /** A node as a retriever returns it, with the score of the match, if any. */
  datatype NodeWithScore = NodeWithScore(node: TextNode, score: Option<Score>)

  datatype Role = System | User | Assistant

  /** A chat message; its content may be missing (`None`). */
  datatype ChatMessage = ChatMessage(role: Role, content: Option<string>)

  /** The prompt templates of the system, whose text is configuration. */
  datatype Template = RelevanceCheckPrompt | SystemPrompt

  /**
    `template.format(**fields)`: the text of a template is not part of the
    model, so the formatted prompt is the template together with its fields,
    in the order the call passes them.
   */
  datatype Prompt = Prompt(template: Template, fields: seq<(string, string)>)

  /**
    `str(v)` of a decoded JSON value, as an f-string would insert it: a string
    is itself; every other value is rendered by `repr`, Python's own
    formatting, which is not part of the model.
   */
  function Str(v: Json, repr: Json -> string): string
  {
    if v.JStr? then v.s else repr(v)
  }
}
