/** The chat-completion request sent upstream, assembled from the parsed
    proxy payload and the sampling settings. */
module MessageBuilder {
  import opened Common
  import opened Config
  import opened PayloadParser
  import opened UrlBuilder

  /** A part of a multi-part message content; here only image references. */
  datatype ContentPart = ImageUrlPart(url: string)

  /** A message content: plain text or a list of parts. */
  datatype ChatContent = TextContent(text: string) | PartsContent(parts: seq<ContentPart>)

  datatype ChatMessage = ChatMessage(role: string, content: ChatContent)

  /** The request body; an optional sampling field is None when it is left
      out of the body. */
  datatype ChatCompletionRequest = ChatCompletionRequest(
    model: string,
    messages: seq<ChatMessage>,
    temperature: Option<real>,
    maxTokens: Option<real>,
    topP: Option<real>,
    frequencyPenalty: Option<real>,
    presencePenalty: Option<real>)

  /** The URL an image message is sent with: a root-relative path becomes a
      public URL of the gateway, anything else is passed on unchanged. */
  function AbsoluteImageUrl(url: string, publicBaseUrl: Option<string>, origin: RequestOrigin): (r: string)
    ensures !StartsWith(url, "/") ==> r == url
    ensures StartsWith(url, "/") ==> r == StripTrailingSlash(RawBase(publicBaseUrl, origin.protocol, origin.host)) + url
    ensures StartsWith(url, "/") ==> EndsWith(r, url) && StartsWith(r, StripTrailingSlash(RawBase(publicBaseUrl, origin.protocol, origin.host)))
  {
    if StartsWith(url, "/") then
      BuildPublicAssetUrlShape(publicBaseUrl, origin.protocol, origin.host, url);
      var base := StripTrailingSlash(RawBase(publicBaseUrl, origin.protocol, origin.host));
      var r := BuildPublicAssetUrl(publicBaseUrl, origin.protocol, origin.host, url);
      assert r[..|base|] == base;
      r
    else url
  }

  /** `toOpenAiContent()`: a text message is sent as its text, an image
      message as a single image part. */
  function ToOpenAiContent(message: ParsedUserMessage, publicBaseUrl: Option<string>, origin: RequestOrigin): (c: ChatContent)
    ensures message.TextMessage? ==> c == TextContent(message.text)
    ensures message.ImageMessage? ==>
      c.PartsContent? && |c.parts| == 1 && c.parts[0].url == AbsoluteImageUrl(message.url, publicBaseUrl, origin)
  {
    match message
    case TextMessage(text) => TextContent(text)
    case ImageMessage(url) => PartsContent([ImageUrlPart(AbsoluteImageUrl(url, publicBaseUrl, origin))])
  }

  /** `payload.system` is truthy. */
  predicate HasSystem(payload: ParsedPayload) {
    payload.system.Some? && payload.system.value != []
  }

  /** `buildChatCompletionRequest()`: a system message first exactly when the
      payload has a system prompt, then one user message per parsed message
      in order; the payload's model; and each sampling setting copied when it
      is configured and left out otherwise. */
  method BuildChatCompletionRequest(payload: ParsedPayload, config: AppConfig, origin: RequestOrigin)
    returns (request: ChatCompletionRequest)
    ensures var offset := if HasSystem(payload) then 1 else 0;
      && |request.messages| == offset + |payload.messages|
      && (HasSystem(payload) ==> request.messages[0] == ChatMessage("system", TextContent(payload.system.value)))
      && forall i :: 0 <= i < |payload.messages| ==>
           request.messages[offset + i] ==
             ChatMessage("user", ToOpenAiContent(payload.messages[i], config.publicBaseUrl, origin))
    ensures request.model == payload.model
    ensures request.temperature == config.temperature && request.maxTokens == config.maxTokens
    ensures request.topP == config.topP
    ensures request.frequencyPenalty == config.frequencyPenalty && request.presencePenalty == config.presencePenalty
  {
    var messages: seq<ChatMessage> := [];
    if payload.system.Some? && payload.system.value != [] {
      messages := messages + [ChatMessage("system", TextContent(payload.system.value))];
    }
    var offset := |messages|;
    var i := 0;
    while i < |payload.messages|
      invariant 0 <= i <= |payload.messages|
      invariant |messages| == offset + i
      invariant HasSystem(payload) ==> messages[0] == ChatMessage("system", TextContent(payload.system.value))
      invariant forall j :: 0 <= j < i ==>
        messages[offset + j] == ChatMessage("user", ToOpenAiContent(payload.messages[j], config.publicBaseUrl, origin))
    {
      messages := messages + [ChatMessage("user", ToOpenAiContent(payload.messages[i], config.publicBaseUrl, origin))];
      i := i + 1;
    }
    request := ChatCompletionRequest(payload.model, messages, None, None, None, None, None);
    if config.temperature.Some? {
      request := request.(temperature := config.temperature);
    }
    if config.maxTokens.Some? {
      request := request.(maxTokens := config.maxTokens);
    }
    if config.topP.Some? {
      request := request.(topP := config.topP);
    }
    if config.frequencyPenalty.Some? {
      request := request.(frequencyPenalty := config.frequencyPenalty);
    }
    if config.presencePenalty.Some? {
      request := request.(presencePenalty := config.presencePenalty);
    }
  }
}
