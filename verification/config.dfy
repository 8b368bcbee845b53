/** Start-up configuration: comma lists, boolean flags, the required
    token and key lists, and the guarded numeric settings, read from the
    process environment. */
module Config {
  import opened Common
  import opened Json

  const DefaultBaseUrl := "https://api.openai.com/v1"
  const DefaultModel := "gpt-4o-mini"
  const DefaultPort := "8080"
  const DefaultTimeout := "60000"
  const DefaultRetentionDays: real := 7.0
  const DefaultCleanupMinutes: real := 60.0
  const AuthTokensMissing := "环境变量 AUTH_TOKENS 尚未配置，无法校验入口请求"
  const ApiKeysMissing := "环境变量 UPSTREAM_API_KEYS 尚未配置，无法调用上游模型"

  /** The loaded configuration. A number is None where `Number()` gave a
      value that is not finite. */
  datatype AppConfig = AppConfig(
    port: Option<real>,
    authTokens: seq<string>,
    upstreamBaseUrl: string,
    upstreamApiKeys: seq<string>,
    defaultModel: string,
    temperature: Option<real>,
    maxTokens: Option<real>,
    topP: Option<real>,
    frequencyPenalty: Option<real>,
    presencePenalty: Option<real>,
    requestTimeoutMs: Option<real>,
    publicBaseUrl: Option<string>,
    imageRetentionDays: Option<real>,
    imageCleanupIntervalMinutes: real,
    logAssistantResponses: bool,
    sanitizeHtmlEnabled: bool,
    mcpTools: seq<Json>)

  /** The environment variables the configuration reads, each None when
      unset; the fields follow the variable names (`AUTH_TOKENS`,
      `UPSTREAM_API_KEYS`, …, `SANITIZE_HTML`). */
  datatype Environment = Environment(
    authTokens: Option<string>,
    upstreamApiKeys: Option<string>,
    upstreamBaseUrl: Option<string>,
    defaultModel: Option<string>,
    port: Option<string>,
    requestTimeoutMs: Option<string>,
    temperature: Option<string>,
    maxTokens: Option<string>,
    topP: Option<string>,
    frequencyPenalty: Option<string>,
    presencePenalty: Option<string>,
    publicBaseUrl: Option<string>,
    imageRetentionDays: Option<string>,
    imageCleanupIntervalMinutes: Option<string>,
    logAssistantResponses: Option<string>,
    sanitizeHtml: Option<string>)

  /** `toList()`: the comma-separated items, trimmed, empty ones dropped. */
  function ToList(value: Option<string>): (r: seq<string>)
    ensures forall item :: item in r ==> item != [] && IsTrimmed(item) && ',' !in item
  {
    ListItemsClean(value.GetOr(""));
    NonEmpty(TrimAll(Split(value.GetOr(""), ',')))
  }

  /** An unset variable lists nothing. */
  lemma ToListUnset()
    ensures ToList(None) == []
  {
    assert Split("", ',') == [""];
    assert TrimAll([""]) == [""];
    NonEmptyOfEmpty([""]);
  }

  /** The kept items of a comma split are non-empty, trimmed and
      comma-free. */
  lemma ListItemsClean(s: string)
    ensures forall item :: item in NonEmpty(TrimAll(Split(s, ','))) ==>
      item != [] && IsTrimmed(item) && ',' !in item
  {
    var pieces := Split(s, ',');
    var items := TrimAll(pieces);
    forall item | item in NonEmpty(items)
      ensures item != [] && IsTrimmed(item) && ',' !in item
    {
      var j :| 0 <= j < |items| && items[j] == item;
      PieceClean(pieces[j]);
    }
  }

  lemma PieceClean(piece: string)
    requires ',' !in piece
    ensures IsTrimmed(Trim(piece)) && ',' !in Trim(piece)
  {
    TrimKeepsChars(piece);
  }

  /** Joining trimmed, non-empty, comma-free items with commas and reading
      the list back gives the items. */
  lemma ToListJoin(xs: seq<string>)
    requires forall i :: 0 <= i < |xs| ==> xs[i] != [] && IsTrimmed(xs[i]) && ',' !in xs[i]
    ensures ToList(Some(Join(xs, ","))) == xs
  {
    if xs == [] {
      ToListUnset();
    } else {
      assert Join(xs, ",") == Join(xs, [',']);
      SplitJoin(xs, ',');
      CleanItemsKept(xs);
    }
  }

  /** Trimming and filtering keep a list of trimmed, non-empty items. */
  lemma CleanItemsKept(xs: seq<string>)
    requires forall i :: 0 <= i < |xs| ==> xs[i] != [] && IsTrimmed(xs[i])
    ensures NonEmpty(TrimAll(xs)) == xs
  {
    assert TrimAll(xs) == xs;
    NonEmptyOfNonEmpty(xs);
  }

  /** A string of commas and white space lists nothing. */
  lemma ToListBlank(s: string)
    requires forall c :: c in s ==> c == ',' || IsJsSpace(c)
    ensures ToList(Some(s)) == []
  {
    BlankPieces(s);
    BlankItems(Split(s, ','));
  }

  /** Items that all trim to nothing leave nothing. */
  lemma BlankItems(xs: seq<string>)
    requires forall i :: 0 <= i < |xs| ==> Trim(xs[i]) == []
    ensures NonEmpty(TrimAll(xs)) == []
  {
    NonEmptyOfEmpty(TrimAll(xs));
  }

  lemma BlankPieces(s: string)
    requires forall c :: c in s ==> c == ',' || IsJsSpace(c)
    ensures forall i :: 0 <= i < |Split(s, ',')| ==> Trim(Split(s, ',')[i]) == []
  {
    var pieces := Split(s, ',');
    JoinSplit(s, ',');
    forall i | 0 <= i < |pieces|
      ensures Trim(pieces[i]) == []
    {
      JoinPieceChars(pieces, [','], i);
      BlankPiece(pieces[i]);
    }
  }

  /** A comma-free piece of commas and white space trims to nothing. */
  lemma BlankPiece(p: string)
    requires ',' !in p
    requires forall c :: c in p ==> c == ',' || IsJsSpace(c)
    ensures Trim(p) == []
  {
    NonBlankHasVisibleChar(p);
  }

  predicate IsTrueWord(s: string) {
    s == "true" || s == "1" || s == "yes" || s == "y" || s == "on"
  }

  predicate IsFalseWord(s: string) {
    s == "false" || s == "0" || s == "no" || s == "n" || s == "off"
  }

  /** `toBoolean()`: the fallback when unset; otherwise the trimmed,
      lower-cased value decides when it is one of the known words. The
      result differs from the fallback only for a recognised word of the
      opposite meaning. */
  function ToBoolean(value: Option<string>, fallback: bool): (r: bool)
    ensures value.None? ==> r == fallback
    ensures value.Some? && IsTrueWord(ToLowerAscii(Trim(value.value))) ==> r
    ensures value.Some? && IsFalseWord(ToLowerAscii(Trim(value.value))) ==> !r
    ensures r != fallback ==>
      value.Some? && (if fallback then IsFalseWord(ToLowerAscii(Trim(value.value))) else IsTrueWord(ToLowerAscii(Trim(value.value))))
  {
    if value.None? then fallback
    else
      var normalized := ToLowerAscii(Trim(value.value));
      if IsTrueWord(normalized) then true
      else if IsFalseWord(normalized) then false
      else fallback
  }

  /** `toNumber()`: the fallback when unset or when `Number()` gives a
      value that is not finite (`parse` answers None for those). */
  function ToNumber(value: Option<string>, fallback: Option<real>, parse: string -> Option<real>): (r: Option<real>)
    ensures value.None? ==> r == fallback
    ensures value.Some? && parse(value.value).None? ==> r == fallback
    ensures value.Some? && parse(value.value).Some? ==> r == parse(value.value)
  {
    if value.None? then fallback
    else if parse(value.value).Some? then parse(value.value)
    else fallback
  }

  /** What the loaded configuration holds besides the two required lists
      and the tool list: each setting read with its default, the optional
      numbers set only when given, the retention period only when
      positive, and an always positive cleanup interval. */
  predicate ReadsSettings(env: Environment, parse: string -> Option<real>, c: AppConfig) {
    && c.upstreamBaseUrl == env.upstreamBaseUrl.GetOr(DefaultBaseUrl)
    && c.defaultModel == env.defaultModel.GetOr(DefaultModel)
    && c.port == parse(env.port.GetOr(DefaultPort))
    && c.requestTimeoutMs == parse(env.requestTimeoutMs.GetOr(DefaultTimeout))
    && c.temperature == ToNumber(env.temperature, None, parse)
    && c.maxTokens == ToNumber(env.maxTokens, None, parse)
    && c.topP == ToNumber(env.topP, None, parse)
    && c.frequencyPenalty == ToNumber(env.frequencyPenalty, None, parse)
    && c.presencePenalty == ToNumber(env.presencePenalty, None, parse)
    && (c.publicBaseUrl.Some? <==> env.publicBaseUrl.Some? && env.publicBaseUrl.value != [])
    && (c.publicBaseUrl.Some? ==> c.publicBaseUrl == env.publicBaseUrl)
    && (var raw := ToNumber(env.imageRetentionDays, Some(DefaultRetentionDays), parse);
        c.imageRetentionDays == if raw.value > 0.0 then raw else None)
    && (var raw := ToNumber(env.imageCleanupIntervalMinutes, Some(DefaultCleanupMinutes), parse);
        c.imageCleanupIntervalMinutes == if raw.value > 0.0 then raw.value else DefaultCleanupMinutes)
    && c.logAssistantResponses == ToBoolean(env.logAssistantResponses, false)
    && c.sanitizeHtmlEnabled == ToBoolean(env.sanitizeHtml, true)
  }

  /** The optional sampling numbers, each assigned only when the variable
      gives a finite number. */
  method ReadOptionalNumbers(env: Environment, parse: string -> Option<real>)
    returns (temperature: Option<real>, maxTokens: Option<real>, topP: Option<real>,
             frequencyPenalty: Option<real>, presencePenalty: Option<real>)
    ensures temperature == ToNumber(env.temperature, None, parse)
    ensures maxTokens == ToNumber(env.maxTokens, None, parse)
    ensures topP == ToNumber(env.topP, None, parse)
    ensures frequencyPenalty == ToNumber(env.frequencyPenalty, None, parse)
    ensures presencePenalty == ToNumber(env.presencePenalty, None, parse)
  {
    temperature := None;
    maxTokens := None;
    topP := None;
    frequencyPenalty := None;
    presencePenalty := None;
    var n := ToNumber(env.temperature, None, parse);
    if n.Some? {
      temperature := n;
    }
    n := ToNumber(env.maxTokens, None, parse);
    if n.Some? {
      maxTokens := n;
    }
    n := ToNumber(env.topP, None, parse);
    if n.Some? {
      topP := n;
    }
    n := ToNumber(env.frequencyPenalty, None, parse);
    if n.Some? {
      frequencyPenalty := n;
    }
    n := ToNumber(env.presencePenalty, None, parse);
    if n.Some? {
      presencePenalty := n;
    }
  }

  /** The image retention period, kept only when positive, and the
      cleanup interval, replaced by its default unless positive. */
  method ReadImageSchedule(env: Environment, parse: string -> Option<real>)
    returns (imageRetentionDays: Option<real>, imageCleanupIntervalMinutes: real)
    ensures var raw := ToNumber(env.imageRetentionDays, Some(DefaultRetentionDays), parse);
      imageRetentionDays == if raw.value > 0.0 then raw else None
    ensures var raw := ToNumber(env.imageCleanupIntervalMinutes, Some(DefaultCleanupMinutes), parse);
      imageCleanupIntervalMinutes == if raw.value > 0.0 then raw.value else DefaultCleanupMinutes
  {
    var retentionDaysRaw := ToNumber(env.imageRetentionDays, Some(DefaultRetentionDays), parse);
    imageRetentionDays := if retentionDaysRaw.Some? && retentionDaysRaw.value > 0.0 then retentionDaysRaw else None;
    var cleanupIntervalRaw := ToNumber(env.imageCleanupIntervalMinutes, Some(DefaultCleanupMinutes), parse)
                                .GetOr(DefaultCleanupMinutes);
    imageCleanupIntervalMinutes := if cleanupIntervalRaw > 0.0 then cleanupIntervalRaw else DefaultCleanupMinutes;
  }

  /** The module body after the two list checks: reads every other setting,
      assigning the optional numbers one by one. */
  method ReadSettings(env: Environment, parse: string -> Option<real>, authTokens: seq<string>,
                      upstreamApiKeys: seq<string>, mcpTools: seq<Json>)
    returns (c: AppConfig)
    ensures ReadsSettings(env, parse, c)
    ensures c.authTokens == authTokens && c.upstreamApiKeys == upstreamApiKeys && c.mcpTools == mcpTools
  {
    var upstreamBaseUrl := env.upstreamBaseUrl.GetOr(DefaultBaseUrl);
    var defaultModel := env.defaultModel.GetOr(DefaultModel);

    var temperature, maxTokens, topP, frequencyPenalty, presencePenalty := ReadOptionalNumbers(env, parse);

    var imageRetentionDays, imageCleanupIntervalMinutes := ReadImageSchedule(env, parse);
    var logAssistantResponses := ToBoolean(env.logAssistantResponses, false);
    var sanitizeHtmlEnabled := ToBoolean(env.sanitizeHtml, true);

    var publicBaseUrl := if env.publicBaseUrl.Some? && env.publicBaseUrl.value != [] then env.publicBaseUrl else None;
    c := AppConfig(
      parse(env.port.GetOr(DefaultPort)), authTokens, upstreamBaseUrl, upstreamApiKeys, defaultModel,
      temperature, maxTokens, topP, frequencyPenalty, presencePenalty,
      parse(env.requestTimeoutMs.GetOr(DefaultTimeout)), publicBaseUrl, imageRetentionDays,
      imageCleanupIntervalMinutes, logAssistantResponses, sanitizeHtmlEnabled, mcpTools);
  }

  /** Loading the configuration: it fails, naming the missing variable,
      when no access token or no upstream key is listed; otherwise it holds
      both lists and the other settings as `ReadsSettings` describes. */
  method LoadConfig(env: Environment, parse: string -> Option<real>, mcpTools: seq<Json>)
    returns (r: Result<AppConfig, string>)
    ensures r.Failure? <==> ToList(env.authTokens) == [] || ToList(env.upstreamApiKeys) == []
    ensures ToList(env.authTokens) == [] ==> r == Failure(AuthTokensMissing)
    ensures ToList(env.authTokens) != [] && ToList(env.upstreamApiKeys) == [] ==>
      r == Failure(ApiKeysMissing)
    ensures r.Success? ==>
      && r.value.authTokens == ToList(env.authTokens)
      && r.value.upstreamApiKeys == ToList(env.upstreamApiKeys)
      && r.value.mcpTools == mcpTools
      && ReadsSettings(env, parse, r.value)
      && r.value.imageCleanupIntervalMinutes > 0.0
      && (r.value.imageRetentionDays.Some? ==> r.value.imageRetentionDays.value > 0.0)
  {
    var authTokens := ToList(env.authTokens);
    if |authTokens| == 0 {
      return Failure(AuthTokensMissing);
    }
    var upstreamApiKeys := ToList(env.upstreamApiKeys);
    if |upstreamApiKeys| == 0 {
      return Failure(ApiKeysMissing);
    }
    var c := ReadSettings(env, parse, authTokens, upstreamApiKeys, mcpTools);
    return Success(c);
  }
}
