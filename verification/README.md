# SimpleAIAPI gateway core in Dafny

This project models the logic of the SimpleAIAPI gateway in Dafny. The
gateway is a TypeScript service. It authenticates a request with a bearer
token, parses the proxy payload into chat messages, and forwards them to an
OpenAI-style upstream with rotating API keys. It then renders or publishes
the answer. Along the way it can run the model's tool calls against MCP
tool servers (the Model Context Protocol: child processes that list and
run tools).

There is one Dafny module per source file, plus two shared modules:

- `Common`: Option/Result and the JavaScript string built-ins the code
  uses (`trim`, `split`, `join`, `startsWith`, `lastIndexOf`, decimal
  rendering);
- `Json`: JSON values as `JSON.parse` returns them, with objects as ordered
  field lists.

Code that updates state in place is modelled as classes:

- the MCP client (`McpClient.Client`) and the registry
  (`McpManager.Manager`);
- the key pool of the upstream client (`UpstreamClient.KeyPool`);
- the protected-image set (`ProtectedImages.ProtectedStore`);
- the markdown-it inline and block states of the math rules
  (`MarkdownKatex.InlineState`, `MarkdownKatex.BlockState`).

Each such method is proved against a specification function over the old
state. Pure code is modelled as functions with lemmas. Process, network,
file-system, clock and random-id steps become parameters: an outcome
datatype or a function argument. Examples are `Handshake`, `StopOutcome`,
`CallReply`, `StoreRead`, `McpJson`, `parse`, `render`, `getLines`,
`imageSources` and `send`.

## Model

| member | source | states |
|---|---|---|
| Auth.ParseBearerMatchesPattern | src/middleware/auth.ts:5-12 | The parse fails exactly when `^Bearer\s+(.+)$` (case-insensitive) matches with no count of white-space characters. Otherwise the pattern matches with the greedy count, no larger count matches, and the result is the trimmed capture. |
| Auth.ParseBearerOfToken | src/middleware/auth.ts:9-11 | `Bearer` in any letter case, one space and a token with visible ends and no line terminator parses back to that token. |
| Auth.ParseBearerBlankCapture | src/middleware/auth.ts:9-11 | When the white space after the scheme runs to the end of the header, `.+` takes one space and the token is the empty string. |
| Auth.AuthenticateDecision | src/middleware/auth.ts:14-23 | A request is passed on exactly when the header matches, the trimmed capture is non-empty, and the capture is a configured token. Every other request gets 401 with `Bad auth token`. |
| Auth.AuthenticateConfiguredToken | src/middleware/auth.ts:14-23 | A configured token sent as `Bearer <token>` is accepted. A header that does not start with the scheme is rejected. |
| Auth.GreediestMatchUnique | src/middleware/auth.ts:9 | The greediest match of the pattern is unique. |
| UrlBuilder.RawBase | src/utils/urlBuilder.ts:5 | The base is the configured public URL when one is set, and otherwise `protocol://host`, with an empty host when none is given. |
| UrlBuilder.NormalizedPath | src/utils/urlBuilder.ts:6 | The path always starts with `/`. The slash is added only when it is missing. |
| UrlBuilder.BuildPublicAssetUrlShape | src/utils/urlBuilder.ts:4-8 | The URL is the base with at most one trailing `/` removed, then a `/`, and it ends with the relative path. |
| MessageExtractor.ExtractAssistantMessage | src/utils/messageExtractor.ts:7-24 | The result is never padded with white space. Missing content gives `""` and a string gives its trimmed form. Parts give their non-empty texts, with a missing text counted as empty, joined by a blank line and trimmed. |
| MessageExtractor.PartsAnswerChars | src/utils/messageExtractor.ts:16-22 | Every character of a parts answer comes from some part's text or from the separator. |
| MessageExtractor.PartsAnswerOfTrimmedTexts | src/utils/messageExtractor.ts:16-22 | When every part text is already trimmed, the answer is exactly the non-empty texts joined by a blank line. |
| MessageExtractor.SinglePartAnswer | src/utils/messageExtractor.ts:16-22 | A single part yields its trimmed text. |
| QuestionRenderer.EscapeHtmlIsEscapeAll | src/services/questionRenderer.ts:4-10 | The five chained replacements (`&` first) equal escaping each character on its own, so no entity is escaped twice. |
| QuestionRenderer.EscapeHtmlSafe | src/services/questionRenderer.ts:4-10 | The output holds no raw `<`, `>`, `"` or `'`. A text with none of the five special characters is unchanged. |
| QuestionRenderer.EscapeHtmlChar | src/services/questionRenderer.ts:4-10 | On one character, the chain gives that character's entity, or the character itself. |
| QuestionRenderer.BuildQuestionHtml | src/services/questionRenderer.ts:12-29 | The result is the placeholder paragraph exactly when there are no messages. Otherwise it opens with a question section. |
| QuestionRenderer.QuestionSectionAt | src/services/questionRenderer.ts:16-28 | For every message `i`, the panel is the sections before `i` joined by `\n`, then `\n` if `i > 0`, then section `i` labelled `内容 i+1` (the header and rendered markdown for text, the header and `<img>` for an image), then `\n` and the later sections if any. |
| QuestionRenderer.ImageSectionShape | src/services/questionRenderer.ts:23-26 | An image section starts with its header, `<img src="`, the escaped URL and a closing `"`. The escaped URL holds no `"`, so it cannot end the `src` attribute early. |
| ProtectedImages.NormalizeImageName | src/utils/protectedImages.ts:33-44 | There is no name exactly when the trimmed input is empty. Otherwise the name is the last `/` segment of the trimmed input: the whole trimmed input when it has no `/`, and otherwise the slash-free suffix right after its last `/`. |
| Common.LastSegmentIsSuffix | src/utils/protectedImages.ts:41 | The last piece of a split ends the text. It is the whole text when the separator is absent, and otherwise it is shorter than the text and directly preceded by the separator. |
| ProtectedImages.NormalizePlainName | src/utils/protectedImages.ts:33-44 | A plain file name, and `/img/` followed by it, both normalise to that name. |
| ProtectedImages.NamesOfComplete | src/utils/protectedImages.ts:50-60 | Every path with a non-empty normalised name contributes that name. |
| ProtectedImages.NamesOfSound | src/utils/protectedImages.ts:50-60 | Every contributed name comes from some path. |
| ProtectedImages.Loaded | src/utils/protectedImages.ts:19-29 | The loaded set holds exactly the stored names, and it is empty when the store file is missing. |
| ProtectedImages.ProtectedStore.Init | src/utils/protectedImages.ts:15-31 | Initialisation runs at most once. A missing store gives an empty set. A read failure other than a missing file is reported and leaves the store uninitialised. |
| ProtectedImages.ProtectedStore.AddNames | src/utils/protectedImages.ts:50-60 | The set grows by exactly the normalised names. The changed flag is set exactly when some name was new. |
| ProtectedImages.ProtectedStore.MarkImagesProtected | src/utils/protectedImages.ts:46-64 | The store is initialised on demand. The set becomes the loaded set plus the names. The set is written out exactly when it grew, so a repeated call writes nothing. Every marked name is then protected. |
| ProtectedImages.ProtectedStore.constructor | src/utils/protectedImages.ts:7-8 | The store starts uninitialised and empty, with nothing written. |
| MessageBuilder.AbsoluteImageUrl | src/services/messageBuilder.ts:33-35 | A URL starting with `/` becomes exactly the public base (the configured base, else protocol and host) with its trailing `/` removed, followed by the URL. Any other URL is kept. |
| MessageBuilder.ToOpenAiContent | src/services/messageBuilder.ts:29-42 | Text passes through unchanged. An image becomes a single `image_url` part with the absolute URL. |
| MessageBuilder.BuildChatCompletionRequest | src/services/messageBuilder.ts:44-81 | A system message comes first exactly when the payload has one. Then there is one user message per parsed message, in order. The model is copied, and each sampling field equals the configured value, present exactly when configured. |
| PagePublisher.BuildHtmlDocument | src/services/pagePublisher.ts:15-63 | The title defaults to `AI 回复预览`. The question panel is present exactly when question HTML is given. The share button and copy script are present exactly when a share link is given, and the button carries the link. |
| PagePublisher.ImageFileOf | src/services/pagePublisher.ts:491-499 | A `src` yields a file exactly when it starts with `/img/` and its last `/` segment is non-empty. That file is that segment: slash-free, ending the `src` and directly preceded by a `/`. |
| PagePublisher.LocalImageFiles | src/services/pagePublisher.ts:487-502 | The files have no duplicates, and none is empty or contains `/`. |
| PagePublisher.LocalImageFilesMembership | src/services/pagePublisher.ts:487-502 | A file is listed exactly when some captured `src` yields it. |
| PagePublisher.LocalImageFilesOrder | src/services/pagePublisher.ts:497-501 | Files appear in the order of their first occurrence. |
| PagePublisher.ExtractLocalImageFiles | src/services/pagePublisher.ts:487-502 | The loop that fills the set computes `LocalImageFiles`. |
| PagePublisher.PublishRenderedPage | src/services/pagePublisher.ts:515-546 | The share path is `/share/<id>` and both URLs go through the URL builder. The preview has the share link and copy script but no question. The share page has no share link, and has a question panel exactly when the question is non-empty. The metadata lists the local images of the question followed by the content. |
| PayloadParser.ParseRenderMode | src/services/payloadParser.ts:15-38 | `true` and the html synonyms give inline HTML. The page synonyms give a hosted page. Everything else gives text: `false`, a missing value, null, the text synonyms and any other value. |
| PayloadParser.IsStandaloneImageUrl | src/services/payloadParser.ts:6-13 | A URL is an image URL exactly when it starts with `http://` or `https://` and ends, in any letter case, with `.` and one of the listed extensions. |
| PayloadParser.ImageExtensionSuffix | src/services/payloadParser.ts:6 | Checking the text after the last dot agrees with the anchored extension pattern. |
| PayloadParser.NormalizeMessageValue | src/services/payloadParser.ts:40-56 | A string gives its trimmed form when it is non-blank, and nothing otherwise. An array gives the trimmed string entries that are non-empty, joined by `\n`. An object gives its trimmed `content` when that is a string, and nothing otherwise. null, booleans and numbers give nothing. Every text is trimmed. |
| PayloadParser.NormalizeArrayLines | src/services/payloadParser.ts:45-50 | For an array of non-empty, trimmed, single-line strings, splitting the result on `\n` gives back exactly those strings in order. |
| PayloadParser.NormalizeArrayBlank | src/services/payloadParser.ts:45-50 | An array with no non-blank string entry gives the empty text. |
| PayloadParser.NormalizeArrayAppend | src/services/payloadParser.ts:46-48 | The kept entries of two concatenated arrays are the kept entries of the first followed by those of the second. |
| PayloadParser.NumericKeys | src/services/payloadParser.ts:70 | The keys are exactly the all-digit keys of the body, sorted by numeric value. |
| PayloadParser.SortByValue | src/services/payloadParser.ts:70 | The result is a sorted permutation of the keys. |
| PayloadParser.SortByValueStable | src/services/payloadParser.ts:70 | The sort is stable: for every value, the keys with that value appear in the result in their original order. |
| PayloadParser.Classify | src/services/payloadParser.ts:78-86 | A data URI becomes an image at the saved path. A standalone image URL becomes an image at that URL. Anything else is text. |
| PayloadParser.SlotMessagesEmpty | src/services/payloadParser.ts:73-91 | No message is collected exactly when no numeric slot normalises to a non-empty text. |
| PayloadParser.SlotMessagesKinds | src/services/payloadParser.ts:73-87 | Each text message comes from a slot's normalised text. Each image is a standalone URL or a stored `/img/` path. |
| PayloadParser.ModelOf | src/services/payloadParser.ts:66 | The model is the body's model when it is a non-blank string, and otherwise the default. |
| PayloadParser.SystemOf | src/services/payloadParser.ts:67 | The system prompt is set, trimmed, only when it is a non-blank string. |
| PayloadParser.ProxyPayload | src/services/payloadParser.ts:65-102 | Parsing fails, with the missing-messages error, exactly when no slot yields a message. Otherwise the message list is non-empty. |
| PayloadParser.CollectMessages | src/services/payloadParser.ts:73-87 | The loop over the sorted keys collects the slot messages in order. |
| PayloadParser.ParseProxyPayload | src/services/payloadParser.ts:65-102 | The method computes `ProxyPayload`. |
| ImageStore.ExtensionFor | src/utils/imageStore.ts:9-16 | The extension comes from the six-entry MIME table, and it is `bin` exactly for a MIME type outside the table. |
| ImageStore.MatchDataUri | src/utils/imageStore.ts:18 | A match yields a subtype and payload that satisfy the anchored data-URI pattern. |
| ImageStore.MatchDataUriComplete | src/utils/imageStore.ts:18 | Every text that satisfies the pattern is matched, with that subtype and payload. |
| ImageStore.StripWhitespace | src/utils/imageStore.ts:32 | All white space is removed and every other character is kept. A text without white space is returned unchanged. |
| ImageStore.StripWhitespaceAppend | src/utils/imageStore.ts:32 | Removing white space works character by character: it distributes over concatenation. |
| ImageStore.SaveDataUriImage | src/utils/imageStore.ts:26-39 | The result fails with `Invalid data URI` exactly when the trimmed value is not a data-URI image. Otherwise the path is `/img/<id>.<ext>`. |
| Config.ToList | src/config.ts:7-11 | Every item is non-empty, trimmed and comma-free. |
| Config.ToListUnset | src/config.ts:7-11 | An unset variable gives the empty list. |
| Config.ToListJoin | src/config.ts:7-11 | Listing the comma-join of trimmed, non-empty, comma-free items gives those items back. |
| Config.ToListBlank | src/config.ts:7-11 | A value made only of commas and white space gives the empty list. |
| Config.ToBoolean | src/config.ts:21-33 | Unset gives the fallback. A true word gives true and a false word gives false, in any case and padding. Any other result equals the fallback. |
| Config.ToNumber | src/config.ts:13-19 | Unset or non-finite input gives the fallback. Otherwise the result is the parsed number. |
| Config.ReadOptionalNumbers | src/config.ts:68-91 | Each sampling number is set exactly when its variable parses. |
| Config.ReadImageSchedule | src/config.ts:93-98 | Retention days are kept only when positive. The cleanup interval falls back to 60 unless positive. |
| Config.ReadSettings | src/config.ts:65-117 | Every setting is read with its default. Retention days are kept only when positive. The cleanup interval falls back to 60 unless positive. The public base URL is kept only when non-empty. |
| Config.LoadConfig | src/config.ts:55-117 | Loading fails, naming the variable, when no auth token or no API key is listed. Otherwise it holds both lists and the settings, with a positive cleanup interval and a positive retention period when one is set. |
| McpLoader.CommandOf | src/utils/mcpLoader.ts:8-10 | The command of a valid server is a non-blank string. |
| McpLoader.SanitizeToolValid | src/utils/mcpLoader.ts:26-33 | Sanitising keeps a tool valid and trims its server name and command. |
| McpLoader.SanitizeToolIdempotent | src/utils/mcpLoader.ts:26-33 | Sanitising twice is the same as sanitising once. |
| McpLoader.ValidToolsMembership | src/utils/mcpLoader.ts:16-25 | The filter keeps exactly the valid entries. |
| McpLoader.ValidToolsAllValid | src/utils/mcpLoader.ts:16-25 | A list of valid tools passes the filter whole. |
| McpLoader.SanitizeToolList | src/utils/mcpLoader.ts:12-15 | Anything that is not an array gives no tools. |
| McpLoader.SanitizedToolsValid | src/utils/mcpLoader.ts:12-34 | Every sanitised tool is valid, with a trimmed server name and command. |
| McpLoader.SanitizedToolsIdempotent | src/utils/mcpLoader.ts:12-34 | Sanitising a sanitised list changes nothing. |
| McpLoader.ServerToolShape | src/utils/mcpLoader.ts:46-53 | An emitted entry has type `mcp`, carries the server key as its name, and has the trimmed command. |
| McpLoader.ServerToolsComplete | src/utils/mcpLoader.ts:41-54 | Every server with a valid command gets an entry. |
| McpLoader.ServerToolsSound | src/utils/mcpLoader.ts:41-54 | Every entry comes from a server with a valid command. |
| McpLoader.BuildToolsFromServers | src/utils/mcpLoader.ts:36-56 | A missing or falsy map gives nothing. Otherwise the loop emits one entry per valid server, in map order. |
| McpLoader.LoadMcpTools | src/utils/mcpLoader.ts:58-83 | A missing or unparsable file gives nothing. A non-empty explicit tool list wins. Otherwise the tools derived from the servers are used. |
| UpstreamClient.BaseUrl | src/services/upstreamClient.ts:20 | Exactly one trailing `/` is removed, if there is one. |
| UpstreamClient.FailureMessage | src/services/upstreamClient.ts:48-61 | The upstream's error message is used when present. Otherwise the message is `Upstream request failed with status <status or unknown>`. Other errors are rethrown with their own message. |
| UpstreamClient.NextIndex | src/services/upstreamClient.ts:27 | The index advances by one modulo the number of keys and stays in range. |
| UpstreamClient.FullCycle | src/services/upstreamClient.ts:25-32 | After as many picks as there are keys, the index is back where it started. |
| UpstreamClient.PicksInOrder | src/services/upstreamClient.ts:25-32 | The j-th pick from index `start` is the key at `start + j` modulo the number of keys. |
| UpstreamClient.PicksAreRotation | src/services/upstreamClient.ts:25-32 | One full cycle of picks is the key list rotated to start at the current index. |
| UpstreamClient.KeyPool.PickApiKey | src/services/upstreamClient.ts:25-32 | The method returns the key at the current index, or fails when that key is empty. Either way it advances the index. |
| UpstreamClient.AuthorizationHeader | src/services/upstreamClient.ts:38-41 | The header is `Bearer ` followed by exactly the key. |
| UpstreamClient.ReadChoicesLength | src/services/upstreamClient.ts:43-46 | Reading `choices.length` succeeds exactly when the reply is an object whose `choices` is present and not null. A null reply, a missing `choices` and a null `choices` each fail with the matching TypeError message. |
| UpstreamClient.KeyPool.RequestChatCompletion | src/services/upstreamClient.ts:34-62 | Exactly one key is picked, and the request is sent with the `Bearer <key>` header. A failed request gives the selected error message. A reply whose `choices` cannot be read fails with the TypeError message. Any other reply is returned and has readable `choices`. |
| MarkdownKatex.IsValidDelim | src/services/markdownKatex.ts:13-29 | A delimiter cannot open before a space or tab. It cannot close after a space or tab or before a digit. |
| MarkdownKatex.ClosingFrom | src/services/markdownKatex.ts:49-60 | The closer is the first `$` at or after the start preceded by an even run of backslashes, or -1 when there is none. |
| MarkdownKatex.FindCloser | src/services/markdownKatex.ts:49-60 | The nested scanning loops find that closer. |
| MarkdownKatex.InlineRule | src/services/markdownKatex.ts:31-95 | The rule matches exactly at a `$`, and every match moves the cursor forward. |
| MarkdownKatex.InlineRuleConsumes | src/services/markdownKatex.ts:62-93 | Plain text is exactly the consumed characters. A math span is `$`, then non-empty content with no earlier closer, then a closing `$`. |
| MarkdownKatex.Flushed | src/services/markdownKatex.ts:88 | Pushing a token first turns non-empty pending text into one text token holding it, and empty pending text into nothing. |
| MarkdownKatex.InlineState.Push | src/services/markdownKatex.ts:88 | After a push the pending text is empty. The tokens gain the flushed pending text, then the pushed token. |
| MarkdownKatex.InlineState.MathInline | src/services/markdownKatex.ts:31-95 | The cursor, pending text and tokens change as the rule says. A math span flushes the pending text into a text token before its math token. Silent mode moves the cursor in the same way but adds nothing. |
| MarkdownKatex.BlockState.BlockRule | src/services/markdownKatex.ts:97-174 | A block is recognised exactly on a line with marks that starts with `$$` after its indentation. The new line is past `start`. The token's map is `[start, line]`. |
| MarkdownKatex.BlockState.ScanClosing | src/services/markdownKatex.ts:132-158 | The closing-line loop computes the specified scan. |
| MarkdownKatex.BlockState.MathBlock | src/services/markdownKatex.ts:97-174 | In silent mode, or when the rule is rejected, nothing changes. Otherwise the line moves past the block and its token is pushed. |
| McpClient.DefinedEnvMeaning | src/mcp/client.ts:69-76 | Only the process variables with a value are copied, each with its last value. |
| McpClient.MergeEnv | src/mcp/client.ts:69-81 | The merged environment holds the defined process variables and the configured ones, and configured values win on clashes. |
| McpClient.Client.constructor | src/mcp/client.ts:18-28 | A new client is idle with no tools, no server info and no handles. |
| McpClient.Client.IsHealthy | src/mcp/client.ts:274-276 | A client is healthy when it is ready and holds both handles. Between calls that is the same as being ready. |
| McpClient.Client.Start | src/mcp/client.ts:54-154 | Starting when ready or starting is a no-op. Otherwise a successful handshake ends ready with the listed tools, even when listing fails. A failed handshake step ends in error and reports the failure. |
| McpClient.Client.RefreshTools | src/mcp/client.ts:159-187 | Without a session, refreshing fails. Otherwise the tools become the listed ones, or `[]` on a missing field or a failure. |
| McpClient.Client.CallTool | src/mcp/client.ts:192-234 | A call fails with "not ready" unless the client is ready with a session. It sends `arguments ?? {}`, rejects a non-object reply, and never changes the status. |
| McpClient.Client.Stop | src/mcp/client.ts:239-269 | Stopping from stopped or idle is a no-op. A clean stop leaves the client stopped and empty. A failing close leaves it in error, without throwing. |
| McpManager.ExpectedViewsMeaning | src/mcp/manager.ts:46-72 | Start-up keeps at most the configured servers. Each one it keeps has a command and a successful handshake and is healthy. |
| McpManager.Manager.Initialize | src/mcp/manager.ts:18-92 | A second call is a no-op. Otherwise the registry holds exactly the commanded servers whose start succeeded, in order. `initialized` is set on every exit, and a read failure is reported. |
| McpManager.StartAll | src/mcp/manager.ts:44-69 | The start loop registers the expected connections. |
| McpManager.AllToolsMembership | src/mcp/manager.ts:97-114 | A tagged tool is listed exactly when a healthy server of that name lists the tool. |
| McpManager.Manager.GetAllTools | src/mcp/manager.ts:97-114 | The loop computes the flattened catalogue of the healthy servers, in map order. |
| McpManager.FindProviderIsFirstMatch | src/mcp/manager.ts:119-132 | The provider is the first healthy server whose catalogue has the tool. There is none exactly when no healthy server has it. |
| McpManager.FindProviderDeterministic | src/mcp/manager.ts:119-132 | The provider depends only on health and catalogues. |
| McpManager.Manager.FindServerByToolName | src/mcp/manager.ts:119-132 | The scan returns that provider, healthy and listing the tool. |
| McpManager.Manager.CallTool | src/mcp/manager.ts:139-152 | The call fails when there is no provider. Otherwise it is delegated to the provider with `args ?? {}`. |
| McpManager.HealthyNamesMembership | src/mcp/manager.ts:157-161 | The healthy names are exactly the names of the healthy servers. |
| McpManager.Manager.GetHealthyServers | src/mcp/manager.ts:157-161 | The function lists the healthy servers' names, and there are no more of them than servers. |
| McpManager.Manager.GetStats | src/mcp/manager.ts:166-172 | `total` is the registry size, `healthy` is at most `total`, and `toolCount` is the catalogue length. |
| McpManager.Manager.Shutdown | src/mcp/manager.ts:177-198 | Every connection is stopped and none is left ready. The registry is emptied and `initialized` is cleared. |
| McpTypes.ArgumentsOrEmpty | src/mcp/manager.ts:148 | A missing or null argument value becomes `{}`, and any other value is kept. |
| ToolConverter.ConvertTool | src/mcp/toolConverter.ts:8-21 | The name is kept. The description defaults to `MCP工具: <name>`. Properties default to `{}` and required to `[]`. |
| ToolConverter.AllToolsAsFunctions | src/mcp/toolConverter.ts:26-42 | There is one declaration per catalogue entry, in the same order. |
| ToolConverter.ReadablePartsMembership | src/mcp/toolConverter.ts:113-121 | A part is listed exactly when some content item yields it. |
| ToolConverter.ExtractedTextCases | src/mcp/toolConverter.ts:106-124 | The text is never empty. Missing or empty content gives the empty-result text, and no readable item gives the unreadable text. Otherwise the parts are joined by blank lines, starting with the first part. |
| ToolConverter.ExtractText | src/mcp/toolConverter.ts:106-124 | The loop computes the extracted text. |
| ToolConverter.ToolCallContentCases | src/mcp/toolConverter.ts:47-101 | A bad argument text, a missing provider and a failed call each give `[执行失败] ` plus their message. An error result gives `[错误] ` plus the text. A success gives the non-empty text. |
| ToolConverter.ExecuteSingleToolCall | src/mcp/toolConverter.ts:47-101 | The method never fails. It answers with a `tool` message carrying the call's id. |
| ToolConverter.ExecuteToolCalls | src/mcp/toolConverter.ts:129-149 | There is one tool message per call. Message i answers call i. |
| ToolCallsFormatter.ShownArguments | src/services/toolCallsFormatter.ts:10-14 | Arguments that do not parse are shown as `{raw: <text>}`. |
| ToolCallsFormatter.UnparsableArgumentsShownRaw | src/services/toolCallsFormatter.ts:10-18 | Unparsable arguments are listed as the single entry `raw`. |
| ToolCallsFormatter.ExecutorFailuresAreFailures | src/services/toolCallsFormatter.ts:27-28 | Contents produced with the failure or error prefix are classified as failures. |
| ToolCallsFormatter.EntriesAgree | src/services/toolCallsFormatter.ts:16-18 | `Object.entries` throws only for null, and otherwise agrees with the corrected entries. |
| ToolCallsFormatter.NullArgumentsThrow | src/services/toolCallsFormatter.ts:16-18 | Arguments that parse to `null` make the code as written throw. |
| ToolCallsFormatter.FormatSingleToolCallAgrees | src/services/toolCallsFormatter.ts:6-38 | The corrected rendering equals the code's wherever the code does not throw. |
| ToolCallsFormatter.FindResultIsFirst | src/services/toolCallsFormatter.ts:74-79 | The result found is the first later message with the call's id. There is none exactly when no later message has that id. |
| ToolCallsFormatter.FormatToolCallsHistory | src/services/toolCallsFormatter.ts:45-87 | The loop computes the history specification. |
| ToolCallsFormatter.HistoryStep | src/services/toolCallsFormatter.ts:55-84 | Each message with calls adds one round, its heading and its calls. Other messages add nothing. |
| ToolCallsFormatter.HistoryEmptyIffNoCalls | src/services/toolCallsFormatter.ts:52-86 | The history is empty exactly when no message issues tool calls. |
| ToolCallsFormatter.NoRoundsIffNoCalls | src/services/toolCallsFormatter.ts:64-65 | No rounds are counted exactly when no message issues calls. |
| ToolCallsFormatter.RoundNumbering | src/services/toolCallsFormatter.ts:64-69 | Rounds are numbered consecutively from 1. Round 1 is the first message with calls. |
| ToolCallsFormatter.RuleBeforeLaterRounds | src/services/toolCallsFormatter.ts:66-69 | A `---` rule precedes a round heading exactly when the round is not the first. |
| ToolCallsFormatter.HasToolCalls | src/services/toolCallsFormatter.ts:92-104 | The result is true exactly when the list is given and some message issues calls. |
| ToolCallsFormatter.HasToolCallsIffHistory | src/services/toolCallsFormatter.ts:92-104 | `hasToolCalls` holds exactly when the formatted history is non-empty. |

## Left out

- Process spawning, JSON-RPC framing and the MCP SDK. They are modelled as outcome parameters (`Handshake`, `ToolListing`, `CallReply`, `StopOutcome`).
- The `Promise.all` fan-outs. They run as sequential loops, and interleavings are not modelled.
- File-system I/O (`MCP.json`, the page and metadata stores, the image files, the protected-image store file). These are input datatypes, or they are left out. The order in which `persist` writes the set is not modelled, because the set is a Dafny `set`.
- `ProtectedImages.ProtectedStore.MarkImagesProtected`: the write of the store file is recorded as a snapshot in `writes`. The file format is not modelled.
- HTTP and Express plumbing, the axios call and the logger. The upstream request is a `send` parameter.
- KaTeX rendering and markdown-it registration. markdown-it's `getLines` and the markdown renderer are function parameters.
- The page template's fixed text, styles and scripts. `PagePublisher.BuildHtmlDocument` records the parts that vary.
- The regular expression that captures `<img src>` values in `pagePublisher.ts` is the `imageSources` parameter.
- The clock (`toLocaleString`) and `nanoid` ids are parameters.
- `Number()` parsing is the `parse` parameter, and numbers are `real`.
- Letter case is folded only for ASCII. Strings are sequences of code points, not UTF-16 units.
- `Object.keys` moves integer-like keys first. The model takes the body's fields in that order as given.
- A `null` server entry in `MCP.json` (a TypeError in the loop) and a non-object request body are not modelled.
- `McpManager.Manager.Initialize` requires distinct server names. Keys of a parsed JSON object are distinct by construction.
- `UpstreamClient.KeyPool.constructor` requires a non-empty key list. Loading the configuration rejects an empty one.
- `MessageExtractor.ExtractAssistantMessage`: the final `return ''` for an object that is not an array cannot be reached from the declared type. The model has no such case.
- `ToolCallsFormatter`: history entries are never null in the model. The source skips a null entry in its main loop (`toolCallsFormatter.ts:59-61`), but its result lookup (`toolCallsFormatter.ts:74-78`) evaluates `'tool_call_id' in m` on later entries without that guard, so a null later entry throws a TypeError there. That throw is not modelled.
- PayloadParser.SortByValue: key values are exact integers. `Number()` rounds keys above 2^53, so two keys that differ only beyond that precision compare equal in the source but not in the model.
- `UpstreamClient.ReadChoicesLength`: the TypeError texts are the V8 engine's wording. Only the three failing shapes are distinguished.
- `requestLogger.ts`, `imageCleaner.ts`, `renderer.ts`, `katexStyle.ts` and `katexAssets.ts` are not part of this model.

## Findings

| source | as written | input that shows it | evidently intended | confidence | as-written member | corrected member |
|---|---|---|---|---|---|---|
| src/services/toolCallsFormatter.ts:16-18 | `Object.entries(args)` runs on whatever `JSON.parse` returned | a tool call whose arguments are the text `null`: `Object.entries(null)` throws, and the whole history rendering fails | list no arguments for `null`, as for any value with no entries | medium, not executed | ToolCallsFormatter.NullArgumentsThrow | ToolCallsFormatter.FormatSingleToolCallAgrees |
