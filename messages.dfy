/** The message log shared by the graph's nodes: human questions, assistant
    replies carrying structured tool calls, and tool results. */
module Messages {
  import opened Wrappers

  /** The opaque identifier the model layer gives a structured call. */
  type CallId = string

  /** One search query string. */
  type Query = string

  /** The raw payload the search tool returns for one query. */
  type SearchOutput = string

  /** A structured call as the output parser returns it: its id and the
      `search_queries` entry of its arguments, `None` when the arguments have
      no such key (the `ReviseAnswer` shape of schemas.py has none). */
  datatype ParsedCall = ParsedCall(name: string, id: CallId, searchQueries: Option<seq<Query>>)

  /** A tool message carries the merged mapping query -> output itself
      (`mapped_output` in tool_executor.py), in place of its JSON encoding. */
  datatype Message =
    | Human(content: string)
    | AI(content: string, toolCalls: seq<ParsedCall>)
    | Tool(mappedOutput: map<Query, SearchOutput>, toolCallId: CallId)
}
