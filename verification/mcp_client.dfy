/** One tool-server connection: a five-state lifecycle over a subprocess
    speaking the tool protocol. The protocol library, the subprocess and the
    transport are not modelled; each of their steps is an outcome the caller
    supplies (Handshake, StopOutcome, and a reply function for calls). */
module McpClient {
  import opened Common
  import opened Json
  import opened McpTypes

  /** The parameters the transport is created with: the command, its
      arguments and the merged environment. */
  datatype Launch = Launch(command: string, args: seq<string>, env: map<string, string>)

  /** How the `tools/list` request ends: a tools array (a null one is the
      empty list), a reply without a `tools` field, or a failure. */
  datatype ToolListing = Listed(tools: seq<ToolSchema>) | NoToolsField | ListFailed(message: string)

  /** How the start-up exchange ends: the connection fails, the `initialize`
      request fails, the `initialized` notification fails (after the server
      identified itself), or all three succeed and the tools are listed. */
  datatype Handshake =
    | ConnectFailed(message: string)
    | InitializeFailed(message: string)
    | NotifyFailed(info: ServerInfo, message: string)
    | Handshaken(info: ServerInfo, listing: ToolListing)

  /** How shutting down ends: both closes succeed, or closing the protocol
      client or the transport fails (each only when it is attempted). */
  datatype StopOutcome = Closed | ClientCloseFailed(message: string) | TransportCloseFailed(message: string)

  const NotReadyPrefix: string := "MCP服务器未就绪: "
  const InvalidResultMessage: string := "MCP工具返回了无效的结果"
  const NoSessionMessage: string := "MCP客户端未初始化"

  /** The catalogue a tool listing leaves: a listing that fails or has no
      `tools` field leaves the empty catalogue. */
  function ListedTools(listing: ToolListing): seq<ToolSchema> {
    if listing.Listed? then listing.tools else []
  }

  /** A call's reply as the caller sees it. */
  function ReplyOutcome(reply: CallReply): Result<ToolCallResult, string> {
    match reply
    case CallRejected(m) => Failure(m)
    case NotAnObject => Failure(InvalidResultMessage)
    case Replied(res) => Success(res)
  }

  /** Some entry of the process environment defines `key`. */
  ghost predicate DefinedIn(processEnv: seq<(string, Option<string>)>, key: string) {
    exists i :: 0 <= i < |processEnv| && processEnv[i].0 == key && processEnv[i].1.Some?
  }

  /** The value of the last entry of the process environment that defines `key`. */
  function LastDefined(processEnv: seq<(string, Option<string>)>, key: string): string {
    if processEnv == [] then ""
    else
      var last := processEnv[|processEnv| - 1];
      if last.0 == key && last.1.Some? then last.1.value
      else LastDefined(processEnv[..|processEnv| - 1], key)
  }

  /** The process environment copied entry by entry, skipping undefined values. */
  function DefinedEnv(processEnv: seq<(string, Option<string>)>): map<string, string> {
    if processEnv == [] then map[]
    else
      var prev := DefinedEnv(processEnv[..|processEnv| - 1]);
      var last := processEnv[|processEnv| - 1];
      if last.1.Some? then prev[last.0 := last.1.value] else prev
  }

  /** The environment a server is launched with: the defined process
      variables, overridden by the configured ones. */
  function MergedEnv(processEnv: seq<(string, Option<string>)>, configEnv: Option<map<string, string>>): map<string, string> {
    DefinedEnv(processEnv) + configEnv.GetOr(map[])
  }

  /** A key is in the copied process environment exactly when some entry
      defines it, and it holds the last such value. */
  lemma {:induction false} DefinedEnvMeaning(processEnv: seq<(string, Option<string>)>, key: string)
    ensures key in DefinedEnv(processEnv) <==> DefinedIn(processEnv, key)
    ensures key in DefinedEnv(processEnv) ==> DefinedEnv(processEnv)[key] == LastDefined(processEnv, key)
  {
    if processEnv != [] {
      var init := processEnv[..|processEnv| - 1];
      DefinedEnvMeaning(init, key);
      assert forall i :: 0 <= i < |init| ==> init[i] == processEnv[i];
      if DefinedIn(processEnv, key) && !(processEnv[|processEnv| - 1].0 == key && processEnv[|processEnv| - 1].1.Some?) {
        var i :| 0 <= i < |processEnv| && processEnv[i].0 == key && processEnv[i].1.Some?;
        assert i < |init| && init[i] == processEnv[i];
      }
    }
  }

  /** Builds the launch environment: the process environment without its
      undefined values, then the configured variables, which win on a clash. */
  method MergeEnv(processEnv: seq<(string, Option<string>)>, configEnv: Option<map<string, string>>)
    returns (env: map<string, string>)
    ensures env == MergedEnv(processEnv, configEnv)
    ensures forall k :: k in env <==> (configEnv.Some? && k in configEnv.value) || DefinedIn(processEnv, k)
    ensures forall k :: configEnv.Some? && k in configEnv.value ==> env[k] == configEnv.value[k]
    ensures forall k :: k in env && !(configEnv.Some? && k in configEnv.value) ==> env[k] == LastDefined(processEnv, k)
  {
    env := map[];
    var i := 0;
    while i < |processEnv|
      invariant 0 <= i <= |processEnv|
      invariant env == DefinedEnv(processEnv[..i])
    {
      assert processEnv[..i + 1][..i] == processEnv[..i];
      var (key, value) := processEnv[i];
      if value.Some? {
        env := env[key := value.value];
      }
      i := i + 1;
    }
    assert processEnv[..i] == processEnv;
    if configEnv.Some? {
      env := env + configEnv.value;
    }
    forall k ensures (k in env <==> (configEnv.Some? && k in configEnv.value) || DefinedIn(processEnv, k))
      && (k in env && !(configEnv.Some? && k in configEnv.value) ==> env[k] == LastDefined(processEnv, k))
    {
      DefinedEnvMeaning(processEnv, k);
    }
  }

  class Client {
    const serverName: string
    const config: ServerConfig
    /** `_status` */
    var status: Status
    /** `_tools`: the cached catalogue */
    var tools: seq<ToolSchema>
    /** `_serverInfo` */
    var serverInfo: Option<ServerInfo>
    /** `client !== null`: a protocol session object exists */
    var session: bool
    /** `transport`, with the parameters it was created with */
    var transport: Option<Launch>

    /** What the lifecycle keeps true between calls: an idle or stopped
        connection holds nothing, a ready one holds a session and a transport. */
    ghost predicate Valid()
      reads this
    {
      && (status == Idle ==> !session && transport.None? && tools == [] && serverInfo.None?)
      && (status == Ready ==> session && transport.Some?)
      && (status == Stopped ==> !session && transport.None? && tools == [] && serverInfo.None?)
    }

    constructor (serverName: string, config: ServerConfig)
      ensures Valid()
      ensures this.serverName == serverName && this.config == config
      ensures status == Idle && tools == [] && serverInfo.None? && !session && transport.None?
    {
      this.serverName := serverName;
      this.config := config;
      status := Idle;
      tools := [];
      serverInfo := None;
      session := false;
      transport := None;
    }

    /** `isHealthy()`: ready, with a session and a transport. Between calls
        that is the same as being ready. */
    function IsHealthy(): (healthy: bool)
      reads this
      ensures healthy ==> status == Ready
      ensures Valid() ==> (healthy <==> status == Ready)
    {
      status == Ready && session && transport.Some?
    }

    /** `start()`: a no-op when ready or starting. Otherwise it creates the
        transport and the session, and ends ready when the handshake
        succeeds (even if listing the tools fails) and in error, rethrowing
        the failure, when any handshake step fails. */
    method Start(processEnv: seq<(string, Option<string>)>, handshake: Handshake) returns (failure: Option<string>)
      requires Valid()
      modifies this
      ensures Valid()
      ensures old(status) == Ready || old(status) == Starting ==>
        && failure.None? && status == old(status) && tools == old(tools)
        && serverInfo == old(serverInfo) && session == old(session) && transport == old(transport)
      ensures old(status) != Ready && old(status) != Starting ==>
        && session
        && transport == Some(Launch(config.command, config.args.GetOr([]), MergedEnv(processEnv, config.env)))
        && (failure.None? <==> handshake.Handshaken?)
        && (handshake.Handshaken? ==>
              status == Ready && serverInfo == Some(handshake.info) && tools == ListedTools(handshake.listing))
        && (handshake.NotifyFailed? ==>
              status == Error && failure == Some(handshake.message)
              && serverInfo == Some(handshake.info) && tools == old(tools))
        && ((handshake.ConnectFailed? || handshake.InitializeFailed?) ==>
              status == Error && failure == Some(handshake.message)
              && serverInfo == old(serverInfo) && tools == old(tools))
    {
      if status == Ready || status == Starting {
        return None;
      }
      status := Starting;
      var env := MergeEnv(processEnv, config.env);
      transport := Some(Launch(config.command, config.args.GetOr([]), env));
      session := true;
      match handshake {
        case ConnectFailed(m) =>
          status := Error;
          failure := Some(m);
        case InitializeFailed(m) =>
          status := Error;
          failure := Some(m);
        case NotifyFailed(info, m) =>
          serverInfo := Some(info);
          status := Error;
          failure := Some(m);
        case Handshaken(info, listing) =>
          serverInfo := Some(info);
          var listFailure := RefreshTools(listing);
          status := Ready;
          failure := None;
      }
    }

    /** `refreshTools()`: replaces the catalogue with the listed tools; a
        failed or empty listing leaves it empty and is not an error. Without
        a session it fails and changes nothing. */
    method RefreshTools(listing: ToolListing) returns (failure: Option<string>)
      modifies this`tools
      ensures !session ==> failure == Some(NoSessionMessage) && tools == old(tools)
      ensures session ==> failure.None? && tools == ListedTools(listing)
    {
      if !session {
        return Some(NoSessionMessage);
      }
      match listing {
        case Listed(ts) => tools := ts;
        case NoToolsField => tools := [];
        case ListFailed(_) => tools := [];
      }
      failure := None;
    }

    /** `callTool()`: refused with "not ready" unless ready with a session;
        otherwise it sends the tool name with `arguments ?? {}` and passes the
        reply on, failing on a rejected or non-object reply. It changes no
        field, so no call moves the lifecycle. */
    method CallTool(name: string, arguments: Option<Json>, provider: (string, ToolRequest) -> CallReply)
      returns (r: Result<ToolCallResult, string>)
      ensures !(status == Ready && session) ==> r == Failure(NotReadyPrefix + serverName)
      ensures status == Ready && session ==>
        r == ReplyOutcome(provider(serverName, ToolRequest(name, ArgumentsOrEmpty(arguments))))
      ensures r.Success? ==> status == Ready && provider(serverName, ToolRequest(name, ArgumentsOrEmpty(arguments))) == Replied(r.value)
    {
      if status != Ready || !session {
        return Failure(NotReadyPrefix + serverName);
      }
      var reply := provider(serverName, ToolRequest(name, ArgumentsOrEmpty(arguments)));
      match reply {
        case CallRejected(m) => r := Failure(m);
        case NotAnObject => r := Failure(InvalidResultMessage);
        case Replied(res) => r := Success(res);
      }
    }

    /** `stop()`: a no-op when stopped or idle. Otherwise it closes the session
        and then the transport; when both close it ends stopped with nothing
        cached, and when a close fails it ends in error without throwing,
        keeping the handle whose close failed. */
    method Stop(outcome: StopOutcome)
      requires Valid()
      modifies this
      ensures Valid()
      ensures old(status) == Stopped || old(status) == Idle ==>
        status == old(status) && tools == old(tools) && serverInfo == old(serverInfo)
        && session == old(session) && transport == old(transport)
      ensures old(status) != Stopped && old(status) != Idle ==>
        if old(session) && outcome.ClientCloseFailed? then
          status == Error && session && transport == old(transport)
          && tools == old(tools) && serverInfo == old(serverInfo)
        else if old(transport).Some? && outcome.TransportCloseFailed? then
          status == Error && !session && transport == old(transport)
          && tools == old(tools) && serverInfo == old(serverInfo)
        else
          status == Stopped && !session && transport.None? && tools == [] && serverInfo.None?
    {
      if status == Stopped || status == Idle {
        return;
      }
      if session {
        if outcome.ClientCloseFailed? {
          status := Error;
          return;
        }
        session := false;
      }
      if transport.Some? {
        if outcome.TransportCloseFailed? {
          status := Error;
          return;
        }
        transport := None;
      }
      status := Stopped;
      tools := [];
      serverInfo := None;
    }
  }
}
