/** The Markdown rendering of a tool-calling conversation: one numbered
    round per assistant message that issued tool calls, and for each call
    its arguments and, when the history holds one, its result. */
module ToolCallsFormatter {
  import opened Common
  import opened Json
  import opened McpTypes
  import ToolConverter

  /** One message of the conversation history: an assistant message may
      carry tool calls, a tool message carries the id of the call it answers. */
  datatype HistoryMessage = HistoryMessage(
    role: string,
    toolCalls: Option<seq<ToolCall>>,
    toolCallId: Option<string>,
    content: string)

  /** `'tool_calls' in message && message.tool_calls && message.tool_calls.length > 0` */
  predicate IssuesCalls(m: HistoryMessage) {
    m.toolCalls.Some? && |m.toolCalls.value| > 0
  }

  /** The arguments value shown for a call: the parsed arguments, or an
      object holding the raw text under `raw` when they do not parse. */
  function ShownArguments(arguments: string, parse: string -> Result<Json, string>): (v: Json)
    ensures parse(arguments).Failure? ==> v == JObj([("raw", JStr(arguments))])
    ensures parse(arguments).Success? ==> v == parse(arguments).value
  {
    match parse(arguments)
    case Success(args) => args
    case Failure(_) => JObj([("raw", JStr(arguments))])
  }

  /** `Object.entries(value)` as the code has it: the fields of an object,
      index keys of an array or string, nothing for a number or boolean, and
      a TypeError for null. */
  function EntriesAsWritten(value: Json): Result<seq<(string, Json)>, string> {
    match value
    case JNull => Failure("Cannot convert undefined or null to object")
    case JBool(_) => Success([])
    case JNum(_) => Success([])
    case JStr(s) => Success(IndexKeys(s, (c: char) => JStr([c])))
    case JArr(items) => Success(IndexKeys(items, (x: Json) => x))
    case JObj(fields) => Success(fields)
  }

  /** The corrected entries agree with `Object.entries` wherever that does
      not throw, and it throws only for null. */
  lemma EntriesAgree(value: Json)
    ensures EntriesAsWritten(value).Failure? <==> value == JNull
    ensures EntriesAsWritten(value).Success? ==> EntriesAsWritten(value).value == Entries(value)
  {
  }

  /** One `  - **key**: <JSON>` line per entry. */
  function EntryLines(entries: seq<(string, Json)>, stringify: Json -> string): (lines: seq<string>)
    ensures |lines| == |entries|
    ensures forall i :: 0 <= i < |entries| ==> lines[i] == "  - **" + entries[i].0 + "**: " + stringify(entries[i].1)
  {
    seq(|entries|, i requires 0 <= i < |entries| => "  - **" + entries[i].0 + "**: " + stringify(entries[i].1))
  }

  function CallHeading(name: string): string {
    "### 🔧 工具调用: `" + name + "`\n\n"
  }

  function ArgumentsSection(argsText: string): string {
    "<details>\n<summary><strong>📋 查看参数</strong></summary>\n\n" + argsText + "\n\n</details>\n\n"
  }

  function FailureSection(content: string): string {
    "<details>\n<summary><strong>❌ 执行失败 - 点击查看详情</strong></summary>\n\n```\n" + content + "\n```\n\n</details>\n\n"
  }

  function SuccessSection(content: string): string {
    "<details>\n<summary><strong>✅ 执行成功 - 点击查看结果</strong></summary>\n\n```\n" + content + "\n```\n\n</details>\n\n"
  }

  /** A tool result counts as a failure when its content starts with either
      failure marker. */
  predicate IsFailureResult(content: string) {
    StartsWith(content, "[错误]") || StartsWith(content, "[执行失败]")
  }

  /** The contents the tool-call executor writes for an argument, routing or
      call failure, or for a result the server flags as an error, are
      classified as failures. */
  lemma ExecutorFailuresAreFailures(content: string)
    requires StartsWith(content, ToolConverter.FailurePrefix) || StartsWith(content, ToolConverter.ErrorPrefix)
    ensures IsFailureResult(content)
  {
    if StartsWith(content, ToolConverter.FailurePrefix) {
      assert content[..|"[执行失败]"|] == ToolConverter.FailurePrefix[..|"[执行失败]"|];
    } else {
      assert content[..|"[错误]"|] == ToolConverter.ErrorPrefix[..|"[错误]"|];
    }
  }

  function ArgumentsText(call: ToolCall, parse: string -> Result<Json, string>, stringify: Json -> string): string {
    Join(EntryLines(Entries(ShownArguments(call.arguments, parse)), stringify), "\n")
  }

  /** `formatSingleToolCall()` as written: it throws when the arguments
      parse to null. */
  function FormatSingleToolCallAsWritten(call: ToolCall, result: Option<HistoryMessage>,
                                         parse: string -> Result<Json, string>, stringify: Json -> string)
    : Result<string, string>
  {
    match EntriesAsWritten(ShownArguments(call.arguments, parse))
    case Failure(e) => Failure(e)
    case Success(entries) =>
      var head := CallHeading(call.name) + ArgumentsSection(Join(EntryLines(entries, stringify), "\n"));
      Success(
        if result.None? then head
        else if IsFailureResult(result.value.content) then head + FailureSection(result.value.content)
        else head + SuccessSection(result.value.content))
  }

  /** A call whose arguments are the JSON text `null` makes the code as
      written throw, and with it the whole history rendering. */
  lemma NullArgumentsThrow(call: ToolCall, result: Option<HistoryMessage>,
                           parse: string -> Result<Json, string>, stringify: Json -> string)
    requires parse(call.arguments) == Success(JNull)
    ensures FormatSingleToolCallAsWritten(call, result, parse, stringify).Failure?
  {
  }

  /** `formatSingleToolCall()`: the heading, the folded argument list, and
      a folded result section only when a result exists, headed as a
      failure or a success by its content's marker. */
  function FormatSingleToolCall(call: ToolCall, result: Option<HistoryMessage>,
                                parse: string -> Result<Json, string>, stringify: Json -> string): string
  {
    var head := CallHeading(call.name) + ArgumentsSection(ArgumentsText(call, parse, stringify));
    if result.None? then head
    else if IsFailureResult(result.value.content) then head + FailureSection(result.value.content)
    else head + SuccessSection(result.value.content)
  }

  /** The corrected rendering equals the code's wherever the code does not
      throw. */
  lemma FormatSingleToolCallAgrees(call: ToolCall, result: Option<HistoryMessage>,
                                   parse: string -> Result<Json, string>, stringify: Json -> string)
    ensures FormatSingleToolCallAsWritten(call, result, parse, stringify).Success? ==>
      FormatSingleToolCallAsWritten(call, result, parse, stringify).value == FormatSingleToolCall(call, result, parse, stringify)
  {
    EntriesAgree(ShownArguments(call.arguments, parse));
  }

  /** Arguments that do not parse are listed as the single entry `raw`
      holding the original text. */
  lemma UnparsableArgumentsShownRaw(call: ToolCall, parse: string -> Result<Json, string>, stringify: Json -> string)
    requires parse(call.arguments).Failure?
    ensures ArgumentsText(call, parse, stringify) == "  - **raw**: " + stringify(JStr(call.arguments))
  {
    var lines := EntryLines(Entries(ShownArguments(call.arguments, parse)), stringify);
    assert |lines| == 1;
  }

  /** The first message of `ms` that answers the call with id `id`. */
  function FindResult(ms: seq<HistoryMessage>, id: string): (r: Option<HistoryMessage>)
    ensures r.Some? ==> exists k :: 0 <= k < |ms| && ms[k] == r.value
  {
    if ms == [] then None
    else if ms[0].toolCallId == Some(id) then Some(ms[0])
    else
      var r := FindResult(ms[1..], id);
      assert r.Some? ==> exists k :: 0 <= k < |ms[1..]| && ms[1..][k] == r.value;
      r
  }

  /** The lookup finds the first message answering the id, and finds none
      exactly when no message answers it. */
  lemma {:induction false} FindResultIsFirst(ms: seq<HistoryMessage>, id: string)
    ensures FindResult(ms, id).None? <==> forall k :: 0 <= k < |ms| ==> ms[k].toolCallId != Some(id)
    ensures FindResult(ms, id).Some? ==>
      exists k :: 0 <= k < |ms| && ms[k] == FindResult(ms, id).value &&
        ms[k].toolCallId == Some(id) && forall j :: 0 <= j < k ==> ms[j].toolCallId != Some(id)
  {
    if ms != [] && ms[0].toolCallId != Some(id) {
      FindResultIsFirst(ms[1..], id);
      assert forall k :: 0 < k < |ms| ==> ms[k] == ms[1..][k - 1];
      if FindResult(ms, id).Some? {
        var k :| 0 <= k < |ms[1..]| && ms[1..][k] == FindResult(ms, id).value &&
          ms[1..][k].toolCallId == Some(id) && forall j :: 0 <= j < k ==> ms[1..][j].toolCallId != Some(id);
        assert ms[k + 1] == ms[1..][k];
      }
    }
  }

  /** The number of messages among the first `n` that issue tool calls. */
  function RoundsUpTo(ms: seq<HistoryMessage>, n: nat): (k: nat)
    requires n <= |ms|
    ensures k <= n
  {
    if n == 0 then 0 else RoundsUpTo(ms, n - 1) + (if IssuesCalls(ms[n - 1]) then 1 else 0)
  }

  /** The heading of round `k`, with a rule before every round but the first. */
  function RoundHeading(k: nat): string {
    (if k > 1 then "---\n\n" else "") + "## 🔄 第 " + NatToString(k) + " 轮工具调用\n\n"
  }

  /** The rendered calls of the message at `i`, each with the first result
      that follows that message. */
  function CallsText(ms: seq<HistoryMessage>, i: nat, calls: seq<ToolCall>,
                     parse: string -> Result<Json, string>, stringify: Json -> string): string
    requires i < |ms|
  {
    if calls == [] then ""
    else
      var call := calls[|calls| - 1];
      CallsText(ms, i, calls[..|calls| - 1], parse, stringify) +
      FormatSingleToolCall(call, FindResult(ms[i + 1..], call.id), parse, stringify)
  }

  /** The history text produced by the first `n` messages. */
  function HistoryUpTo(ms: seq<HistoryMessage>, n: nat, parse: string -> Result<Json, string>, stringify: Json -> string): string
    requires n <= |ms|
  {
    if n == 0 then ""
    else
      var prev := HistoryUpTo(ms, n - 1, parse, stringify);
      var m := ms[n - 1];
      if IssuesCalls(m) then prev + RoundHeading(RoundsUpTo(ms, n)) + CallsText(ms, n - 1, m.toolCalls.value, parse, stringify)
      else prev
  }

  /** `formatToolCallsHistory()`: walks the messages, opening a numbered
      round for each one that issues calls and rendering its calls. */
  method FormatToolCallsHistory(ms: seq<HistoryMessage>, parse: string -> Result<Json, string>, stringify: Json -> string)
    returns (output: string)
    ensures output == HistoryUpTo(ms, |ms|, parse, stringify)
  {
    output := "";
    var round := 0;
    var i := 0;
    while i < |ms|
      invariant 0 <= i <= |ms|
      invariant round == RoundsUpTo(ms, i)
      invariant output == HistoryUpTo(ms, i, parse, stringify)
    {
      var message := ms[i];
      if message.toolCalls.Some? && |message.toolCalls.value| > 0 {
        round := round + 1;
        ghost var before := output;
        if round > 1 {
          output := output + "---\n\n";
        }
        output := output + "## 🔄 第 " + NatToString(round) + " 轮工具调用\n\n";
        HeadingAppended(before, round);
        var text := RenderCalls(ms, i, message.toolCalls.value, parse, stringify);
        output := output + text;
      }
      HistoryStep(ms, i, parse, stringify);
      i := i + 1;
    }
  }

  lemma HeadingAppended(s: string, k: nat)
    ensures (if k > 1 then s + "---\n\n" else s) + "## 🔄 第 " + NatToString(k) + " 轮工具调用\n\n" == s + RoundHeading(k)
  {
  }

  lemma HistoryStep(ms: seq<HistoryMessage>, i: nat, parse: string -> Result<Json, string>, stringify: Json -> string)
    requires i < |ms|
    ensures RoundsUpTo(ms, i + 1) == RoundsUpTo(ms, i) + (if IssuesCalls(ms[i]) then 1 else 0)
    ensures HistoryUpTo(ms, i + 1, parse, stringify) ==
      if IssuesCalls(ms[i]) then
        HistoryUpTo(ms, i, parse, stringify) + RoundHeading(RoundsUpTo(ms, i + 1)) + CallsText(ms, i, ms[i].toolCalls.value, parse, stringify)
      else HistoryUpTo(ms, i, parse, stringify)
  {
  }

  /** The calls of one round, appended one by one. */
  method RenderCalls(ms: seq<HistoryMessage>, i: nat, calls: seq<ToolCall>,
                     parse: string -> Result<Json, string>, stringify: Json -> string)
    returns (text: string)
    requires i < |ms|
    ensures text == CallsText(ms, i, calls, parse, stringify)
  {
    text := "";
    var j := 0;
    while j < |calls|
      invariant 0 <= j <= |calls|
      invariant text == CallsText(ms, i, calls[..j], parse, stringify)
    {
      assert calls[..j + 1][..j] == calls[..j];
      var toolResult := FindResult(ms[i + 1..], calls[j].id);
      text := text + FormatSingleToolCall(calls[j], toolResult, parse, stringify);
      j := j + 1;
    }
    assert calls[..j] == calls;
  }

  /** The rendering is empty exactly when no message issues tool calls. */
  lemma {:induction false} HistoryEmptyIffNoCalls(ms: seq<HistoryMessage>, n: nat,
                                                  parse: string -> Result<Json, string>, stringify: Json -> string)
    requires n <= |ms|
    ensures HistoryUpTo(ms, n, parse, stringify) == [] <==> forall k :: 0 <= k < n ==> !IssuesCalls(ms[k])
  {
    if n > 0 {
      HistoryEmptyIffNoCalls(ms, n - 1, parse, stringify);
      if IssuesCalls(ms[n - 1]) {
        assert |RoundHeading(RoundsUpTo(ms, n))| > 0;
      }
    }
  }

  /** Before the first message that issues calls no round is counted. */
  lemma {:induction false} NoRoundsWithoutCalls(ms: seq<HistoryMessage>, n: nat)
    requires n <= |ms|
    requires forall k :: 0 <= k < n ==> !IssuesCalls(ms[k])
    ensures RoundsUpTo(ms, n) == 0
  {
    if n > 0 {
      NoRoundsWithoutCalls(ms, n - 1);
    }
  }

  /** No round is counted exactly while no message has issued calls. */
  lemma {:induction false} NoRoundsIffNoCalls(ms: seq<HistoryMessage>, n: nat)
    requires n <= |ms|
    ensures RoundsUpTo(ms, n) == 0 <==> forall k :: 0 <= k < n ==> !IssuesCalls(ms[k])
  {
    if n > 0 {
      NoRoundsIffNoCalls(ms, n - 1);
    }
  }

  /** Each message that issues calls opens the next round: its number is one
      more than the rounds before it, and it is round 1 exactly when no
      earlier message issued calls. */
  lemma RoundNumbering(ms: seq<HistoryMessage>, n: nat)
    requires n < |ms| && IssuesCalls(ms[n])
    ensures RoundsUpTo(ms, n + 1) == RoundsUpTo(ms, n) + 1
    ensures RoundsUpTo(ms, n + 1) == 1 <==> forall k :: 0 <= k < n ==> !IssuesCalls(ms[k])
  {
    NoRoundsIffNoCalls(ms, n);
  }

  /** The rule `---` precedes every round heading except the first. */
  lemma RuleBeforeLaterRounds(k: nat)
    requires k >= 1
    ensures StartsWith(RoundHeading(k), "---\n\n") <==> k > 1
  {
    if k == 1 {
      assert RoundHeading(k)[0] == '#';
    } else {
      assert RoundHeading(k)[..5] == "---\n\n";
    }
  }

  /** `hasToolCalls()`: false for a missing or empty list, otherwise whether
      some message issues tool calls. */
  function HasToolCalls(messages: Option<seq<HistoryMessage>>): (r: bool)
    ensures r <==> messages.Some? && exists k :: 0 <= k < |messages.value| && IssuesCalls(messages.value[k])
  {
    if messages.None? || |messages.value| == 0 then false
    else exists k :: 0 <= k < |messages.value| && IssuesCalls(messages.value[k])
  }

  /** The history has something to render exactly when `hasToolCalls()`
      holds for it. */
  lemma HasToolCallsIffHistory(ms: seq<HistoryMessage>, parse: string -> Result<Json, string>, stringify: Json -> string)
    ensures HasToolCalls(Some(ms)) <==> HistoryUpTo(ms, |ms|, parse, stringify) != []
  {
    HistoryEmptyIffNoCalls(ms, |ms|, parse, stringify);
  }
}
