/** The value types the tool-server layer exchanges: server status, tool
    schemas, call results, the model's tool calls and the tool messages that
    answer them. */
module McpTypes {
  import opened Common
  import opened Json

  /** The lifecycle states of one tool-server connection. */
  datatype Status = Idle | Starting | Ready | Error | Stopped

  datatype ServerInfo = ServerInfo(name: string, version: string)

  /** How to launch one tool server: command, optional arguments and extra
      environment variables. */
  datatype ServerConfig = ServerConfig(
    command: string,
    args: Option<seq<string>>,
    env: Option<map<string, string>>)

  datatype InputSchema = InputSchema(properties: Option<Json>, required: Option<seq<string>>)

  /** A tool as a server lists it. */
  datatype ToolSchema = ToolSchema(name: string, description: Option<string>, inputSchema: InputSchema)

  /** The `type` tag of a content item; anything other than the three known
      tags is kept as `OtherKind`. */
  datatype ContentKind = TextKind | ImageKind | ResourceKind | OtherKind(tag: string)

  datatype ContentItem = ContentItem(
    kind: ContentKind,
    text: Option<string>,
    data: Option<string>,
    mimeType: Option<string>)

  /** What a tool server answers to a call; a missing `content` is None. */
  datatype ToolCallResult = ToolCallResult(content: Option<seq<ContentItem>>, isError: bool)

  /** The request sent to a server: the tool name and its arguments object. */
  datatype ToolRequest = ToolRequest(name: string, arguments: Json)

  /** A tool call issued by the model; `arguments` is a JSON text. */
  datatype ToolCall = ToolCall(id: string, name: string, arguments: string)

  /** The message that answers one tool call. */
  datatype ToolMessage = ToolMessage(role: string, content: string, toolCallId: string)

  /** How a server's `tools/call` request ends: rejected with a message, a
      reply that is not an object, or a reply object. */
  datatype CallReply = CallRejected(message: string) | NotAnObject | Replied(result: ToolCallResult)

  /** `args ?? {}`: a missing or null arguments value becomes the empty object. */
  function ArgumentsOrEmpty(args: Option<Json>): (r: Json)
    ensures r != JNull
    ensures args.Some? && args.value != JNull ==> r == args.value
  {
    if args.None? || args.value == JNull then JObj([]) else args.value
  }
}
