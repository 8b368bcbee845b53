/** The bridge between the model's function calling and the tool servers:
    catalogue conversion, running the model's tool calls against the
    registry, and flattening a call result into the text of a tool message. */
module ToolConverter {
  import opened Common
  import opened Json
  import opened McpTypes
  import opened McpClient
  import opened McpManager

  /** A function-calling tool declaration (`type: 'function'`, parameters of
      `type: 'object'`). */
  datatype FunctionTool = FunctionTool(
    name: string,
    description: string,
    properties: Json,
    required: seq<string>)

  const EmptyResultText := "(工具返回空结果)"
  const UnreadableResultText := "(工具返回无可读内容)"
  const ErrorPrefix := "[错误] "
  const FailurePrefix := "[执行失败] "
  const ArgumentsErrorPrefix := "工具参数解析失败: "

  function DefaultDescription(name: string): string {
    "MCP工具: " + name
  }

  /** `convertMcpToolToOpenAiFunction()`: the tool's name, its description or
      a default naming the tool, and its properties and required list with
      empty defaults. */
  function ConvertTool(tool: ToolSchema): (f: FunctionTool)
    ensures f.name == tool.name
    ensures tool.description.Some? ==> f.description == tool.description.value
    ensures tool.description.None? ==> f.description == DefaultDescription(tool.name)
    ensures tool.inputSchema.properties.Some? ==> f.properties == tool.inputSchema.properties.value
    ensures tool.inputSchema.properties.None? ==> f.properties == JObj([])
    ensures f.required == tool.inputSchema.required.GetOr([])
  {
    FunctionTool(
      tool.name,
      tool.description.GetOr(DefaultDescription(tool.name)),
      tool.inputSchema.properties.GetOr(JObj([])),
      tool.inputSchema.required.GetOr([]))
  }

  /** `getAllMcpToolsAsOpenAiFunctions()`: one declaration per catalogue
      entry, in catalogue order. */
  method AllToolsAsFunctions(m: Manager) returns (fs: seq<FunctionTool>)
    requires m.Valid()
    ensures |fs| == |AllTools(m.View())|
    ensures forall i :: 0 <= i < |fs| ==> fs[i] == ConvertTool(AllTools(m.View())[i].1)
  {
    var all := m.GetAllTools();
    if |all| == 0 {
      return [];
    }
    fs := seq(|all|, i requires 0 <= i < |all| => ConvertTool(all[i].1));
  }

  /** The text one content item contributes, if any: a truthy text, a
      resource's truthy text marked as a resource, or a note naming the
      MIME type of an image with truthy data. */
  function ItemText(item: ContentItem): Option<string> {
    if item.kind == TextKind && item.text.Some? && item.text.value != "" then Some(item.text.value)
    else if item.kind == ResourceKind && item.text.Some? && item.text.value != "" then Some("[资源] " + item.text.value)
    else if item.kind == ImageKind && item.data.Some? && item.data.value != "" then
      Some("[图片数据: " + item.mimeType.GetOr("unknown") + "]")
    else None
  }

  /** The readable parts of a result, in item order; none is empty. */
  function ReadableParts(items: seq<ContentItem>): (parts: seq<string>)
    ensures |parts| <= |items|
    ensures forall k :: 0 <= k < |parts| ==> parts[k] != []
  {
    if items == [] then []
    else
      var t := ItemText(items[|items| - 1]);
      ReadableParts(items[..|items| - 1]) + (if t.Some? then [t.value] else [])
  }

  /** A part comes from a readable item, and every readable item gives a part. */
  lemma {:induction false} ReadablePartsMembership(items: seq<ContentItem>)
    ensures forall p :: p in ReadableParts(items) <==> exists i :: 0 <= i < |items| && ItemText(items[i]) == Some(p)
  {
    if items != [] {
      var init := items[..|items| - 1];
      ReadablePartsMembership(init);
      assert forall i :: 0 <= i < |init| ==> init[i] == items[i];
    }
  }

  /** `extractTextFromMcpResult()` as a value: a fixed text for a missing or
      empty content list, otherwise the readable parts joined by blank lines,
      or a second fixed text when no part is readable. */
  function ExtractedText(result: ToolCallResult): string {
    if result.content.None? || result.content.value == [] then EmptyResultText
    else
      var joined := Join(ReadableParts(result.content.value), "\n\n");
      if joined == [] then UnreadableResultText else joined
  }

  lemma {:induction false} JoinOfNonEmptyParts(parts: seq<string>, sep: string)
    requires parts != [] && parts[0] != []
    ensures Join(parts, sep) != []
    ensures StartsWith(Join(parts, sep), parts[0])
  {
    if |parts| > 1 {
      assert Join(parts, sep) == parts[0] + (sep + Join(parts[1..], sep));
    }
  }

  /** The extracted text is never empty. The "unreadable" text appears
      exactly when a non-empty content list has no readable item; otherwise
      the text is the readable parts joined by blank lines and begins with
      the first of them. */
  lemma ExtractedTextCases(result: ToolCallResult)
    ensures ExtractedText(result) != []
    ensures result.content.None? || result.content.value == [] ==> ExtractedText(result) == EmptyResultText
    ensures result.content.Some? && result.content.value != [] && ReadableParts(result.content.value) == [] ==>
      ExtractedText(result) == UnreadableResultText
    ensures result.content.Some? && ReadableParts(result.content.value) != [] ==>
      ExtractedText(result) == Join(ReadableParts(result.content.value), "\n\n") &&
      StartsWith(ExtractedText(result), ReadableParts(result.content.value)[0])
  {
    if result.content.Some? && ReadableParts(result.content.value) != [] {
      JoinOfNonEmptyParts(ReadableParts(result.content.value), "\n\n");
    }
  }

  /** `extractTextFromMcpResult()`: collects the readable parts item by item. */
  method ExtractText(result: ToolCallResult) returns (text: string)
    ensures text == ExtractedText(result)
  {
    if result.content.None? || |result.content.value| == 0 {
      return EmptyResultText;
    }
    var items := result.content.value;
    var parts: seq<string> := [];
    var i := 0;
    while i < |items|
      invariant 0 <= i <= |items|
      invariant parts == ReadableParts(items[..i])
    {
      assert items[..i + 1][..i] == items[..i];
      var item := items[i];
      if item.kind == TextKind && item.text.Some? && item.text.value != "" {
        parts := parts + [item.text.value];
      } else if item.kind == ResourceKind && item.text.Some? && item.text.value != "" {
        parts := parts + ["[资源] " + item.text.value];
      } else if item.kind == ImageKind && item.data.Some? && item.data.value != "" {
        parts := parts + ["[图片数据: " + item.mimeType.GetOr("unknown") + "]"];
      }
      i := i + 1;
    }
    assert items[..i] == items;
    text := Join(parts, "\n\n");
    if text == "" {
      text := UnreadableResultText;
    }
  }

  /** The content of the tool message that answers a call: the argument
      parse error, the routing or call error, or the extracted text, marked
      as an error when the server flags one. */
  function ToolCallContent(views: seq<ServerView>, call: ToolCall, parse: string -> Result<Json, string>,
                           provider: (string, ToolRequest) -> CallReply): string
  {
    match parse(call.arguments)
    case Failure(e) => FailurePrefix + ArgumentsErrorPrefix + e
    case Success(args) =>
      match CallOutcome(views, call.name, Some(args), provider)
      case Failure(e) => FailurePrefix + e
      case Success(result) => if result.isError then ErrorPrefix + ExtractedText(result) else ExtractedText(result)
  }

  /** Every way a call can go wrong shows in the content: a bad argument
      text, a tool no healthy server lists, a rejected call, and a result
      the server flags as an error each get their own marker, and a
      successful call carries the non-empty extracted text. */
  lemma ToolCallContentCases(views: seq<ServerView>, call: ToolCall, parse: string -> Result<Json, string>,
                             provider: (string, ToolRequest) -> CallReply)
    ensures parse(call.arguments).Failure? ==>
      ToolCallContent(views, call, parse, provider) == FailurePrefix + ArgumentsErrorPrefix + parse(call.arguments).error
    ensures parse(call.arguments).Success? && (forall j :: 0 <= j < |views| ==> !Provides(views[j], call.name)) ==>
      ToolCallContent(views, call, parse, provider) == FailurePrefix + NoProviderMessage(call.name)
    ensures parse(call.arguments).Success? && CallOutcome(views, call.name, Some(parse(call.arguments).value), provider).Failure? ==>
      StartsWith(ToolCallContent(views, call, parse, provider), FailurePrefix)
    ensures parse(call.arguments).Success? && CallOutcome(views, call.name, Some(parse(call.arguments).value), provider).Success? ==>
      var result := CallOutcome(views, call.name, Some(parse(call.arguments).value), provider).value;
      ToolCallContent(views, call, parse, provider) ==
        (if result.isError then ErrorPrefix + ExtractedText(result) else ExtractedText(result)) &&
      ToolCallContent(views, call, parse, provider) != []
  {
    FindProviderIsFirstMatch(views, call.name);
    match parse(call.arguments)
    case Failure(_) =>
    case Success(args) =>
      match CallOutcome(views, call.name, Some(args), provider)
      case Failure(e) =>
        assert (FailurePrefix + e)[..|FailurePrefix|] == FailurePrefix;
      case Success(result) =>
        ExtractedTextCases(result);
  }

  /** `executeSingleToolCall()`: never fails; it answers the call with a
      tool message carrying the call's id. */
  method ExecuteSingleToolCall(m: Manager, call: ToolCall, parse: string -> Result<Json, string>,
                               provider: (string, ToolRequest) -> CallReply)
    returns (msg: ToolMessage)
    requires m.Valid()
    ensures msg == ToolMessage("tool", ToolCallContent(m.View(), call, parse, provider), call.id)
  {
    var parsed := parse(call.arguments);
    if parsed.Failure? {
      return ToolMessage("tool", FailurePrefix + ArgumentsErrorPrefix + parsed.error, call.id);
    }
    var result := m.CallTool(call.name, Some(parsed.value), provider);
    if result.Failure? {
      return ToolMessage("tool", FailurePrefix + result.error, call.id);
    }
    var text := ExtractText(result.value);
    var content := if result.value.isError then ErrorPrefix + text else text;
    return ToolMessage("tool", content, call.id);
  }

  /** `executeMcpToolCalls()`: one tool message per call, in call order,
      each answering the call at the same position. */
  method ExecuteToolCalls(m: Manager, calls: seq<ToolCall>, parse: string -> Result<Json, string>,
                          provider: (string, ToolRequest) -> CallReply)
    returns (msgs: seq<ToolMessage>)
    requires m.Valid()
    ensures |msgs| == |calls|
    ensures forall i :: 0 <= i < |calls| ==>
      msgs[i].role == "tool" && msgs[i].toolCallId == calls[i].id &&
      msgs[i].content == ToolCallContent(m.View(), calls[i], parse, provider)
  {
    if |calls| == 0 {
      return [];
    }
    msgs := [];
    var i := 0;
    while i < |calls|
      invariant 0 <= i <= |calls|
      invariant |msgs| == i
      invariant forall j :: 0 <= j < i ==>
        msgs[j] == ToolMessage("tool", ToolCallContent(m.View(), calls[j], parse, provider), calls[j].id)
    {
      var msg := ExecuteSingleToolCall(m, calls[i], parse, provider);
      msgs := msgs + [msg];
      i := i + 1;
    }
  }
}
