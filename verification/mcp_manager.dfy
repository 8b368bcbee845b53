/** The registry of tool-server connections, keyed by server name in
    insertion order. Start-up and shutdown fan out over all servers in the
    source; here they are sequential loops whose per-server outcomes are
    independent inputs. */
module McpManager {
  import opened Common
  import opened Json
  import opened McpTypes
  import opened McpClient

  /** A server entry as read from the configuration file; a missing command
      is None. */
  datatype ServerEntry = ServerEntry(
    command: Option<string>,
    args: Option<seq<string>>,
    env: Option<map<string, string>>)

  /** What reading the configuration file gives: no file, a read or parse
      error, or the parsed `mcpServers` object (None when absent). */
  datatype ConfigFile =
    | NoConfigFile
    | Unreadable(message: string)
    | ConfigParsed(servers: Option<seq<(string, ServerEntry)>>)

  /** What the registry's queries see of one connection. */
  datatype ServerView = ServerView(name: string, healthy: bool, tools: seq<ToolSchema>)

  datatype Stats = Stats(total: nat, healthy: nat, toolCount: nat)

  /** `serverConfig.command` is truthy. */
  predicate Commanded(entry: ServerEntry) {
    entry.command.Some? && entry.command.value != ""
  }

  function ToConfig(entry: ServerEntry): ServerConfig
    requires Commanded(entry)
  {
    ServerConfig(entry.command.value, entry.args, entry.env)
  }

  function NoProviderMessage(toolName: string): string {
    "未找到提供工具 \"" + toolName + "\" 的MCP服务器"
  }

  /** The keys of a parsed object are distinct. */
  predicate DistinctNames(servers: seq<(string, ServerEntry)>) {
    forall i, j :: 0 <= i < j < |servers| ==> servers[i].0 != servers[j].0
  }

  /** The connections a start-up leaves, in configuration order: one per
      server with a command whose handshake succeeded. */
  function ExpectedViews(servers: seq<(string, ServerEntry)>, handshake: string -> Handshake): seq<ServerView> {
    if servers == [] then []
    else
      var prev := ExpectedViews(servers[..|servers| - 1], handshake);
      var (name, entry) := servers[|servers| - 1];
      if Commanded(entry) && handshake(name).Handshaken? then
        prev + [ServerView(name, true, ListedTools(handshake(name).listing))]
      else prev
  }

  /** Start-up keeps at most the configured servers, and every one it keeps
      has a command and a successful handshake and is healthy. */
  lemma {:induction false} ExpectedViewsMeaning(servers: seq<(string, ServerEntry)>, handshake: string -> Handshake)
    ensures |ExpectedViews(servers, handshake)| <= |servers|
    ensures forall k :: 0 <= k < |ExpectedViews(servers, handshake)| ==>
      var v := ExpectedViews(servers, handshake)[k];
      v.healthy && handshake(v.name).Handshaken? && v.tools == ListedTools(handshake(v.name).listing) &&
      exists i :: 0 <= i < |servers| && servers[i].0 == v.name && Commanded(servers[i].1)
  {
    if servers != [] {
      var init := servers[..|servers| - 1];
      ExpectedViewsMeaning(init, handshake);
      var prev := ExpectedViews(init, handshake);
      forall k | 0 <= k < |prev|
        ensures exists i :: 0 <= i < |servers| && servers[i].0 == prev[k].name && Commanded(servers[i].1)
      {
        var i :| 0 <= i < |init| && init[i].0 == prev[k].name && Commanded(init[i].1);
        assert servers[i] == init[i];
      }
    }
  }

  predicate HasTool(tools: seq<ToolSchema>, toolName: string) {
    exists t :: 0 <= t < |tools| && tools[t].name == toolName
  }

  /** Each tool tagged with its server's name. */
  function Tagged(name: string, tools: seq<ToolSchema>): seq<(string, ToolSchema)> {
    seq(|tools|, k requires 0 <= k < |tools| => (name, tools[k]))
  }

  /** The flattened catalogue: every tool of every healthy server, in order. */
  function AllTools(views: seq<ServerView>): seq<(string, ToolSchema)> {
    if views == [] then []
    else
      var last := views[|views| - 1];
      AllTools(views[..|views| - 1]) + (if last.healthy then Tagged(last.name, last.tools) else [])
  }

  /** A pair is in the catalogue exactly when a healthy server of that name
      lists that tool. */
  lemma {:induction false} AllToolsMembership(views: seq<ServerView>, name: string, tool: ToolSchema)
    ensures (name, tool) in AllTools(views) <==>
      exists i :: 0 <= i < |views| && views[i].healthy && views[i].name == name && tool in views[i].tools
  {
    if views != [] {
      var init := views[..|views| - 1];
      AllToolsMembership(init, name, tool);
      var last := views[|views| - 1];
      if (name, tool) in AllTools(views) && (name, tool) !in AllTools(init) {
        assert last.healthy && (name, tool) in Tagged(last.name, last.tools);
        var k :| 0 <= k < |last.tools| && Tagged(last.name, last.tools)[k] == (name, tool);
        assert last.tools[k] == tool;
      }
      if exists i :: 0 <= i < |views| && views[i].healthy && views[i].name == name && tool in views[i].tools {
        var i :| 0 <= i < |views| && views[i].healthy && views[i].name == name && tool in views[i].tools;
        if i < |init| {
          assert init[i] == views[i];
        } else {
          var k :| 0 <= k < |last.tools| && last.tools[k] == tool;
          assert Tagged(last.name, last.tools)[k] == (name, tool);
        }
      }
    }
  }

  /** The position of the first healthy server that lists the tool. */
  function FindProvider(views: seq<ServerView>, toolName: string): (r: Option<nat>)
    ensures r.Some? ==> r.value < |views|
  {
    if views == [] then None
    else
      var prev := FindProvider(views[..|views| - 1], toolName);
      var last := views[|views| - 1];
      if prev.Some? then prev
      else if last.healthy && HasTool(last.tools, toolName) then Some(|views| - 1)
      else None
  }

  predicate Provides(view: ServerView, toolName: string) {
    view.healthy && HasTool(view.tools, toolName)
  }

  /** Routing picks the first healthy server, in order, that lists the tool,
      and finds none exactly when no healthy server lists it. */
  lemma {:induction false} FindProviderIsFirstMatch(views: seq<ServerView>, toolName: string)
    ensures FindProvider(views, toolName).Some? ==>
      var k := FindProvider(views, toolName).value;
      Provides(views[k], toolName) && forall j :: 0 <= j < k ==> !Provides(views[j], toolName)
    ensures FindProvider(views, toolName).None? <==> forall j :: 0 <= j < |views| ==> !Provides(views[j], toolName)
  {
    if views != [] {
      var init := views[..|views| - 1];
      FindProviderIsFirstMatch(init, toolName);
      assert forall j :: 0 <= j < |init| ==> init[j] == views[j];
    }
  }

  /** Routing depends only on each server's health and catalogue: while those
      stay the same, the same tool name goes to the same server. */
  lemma {:induction false} FindProviderDeterministic(a: seq<ServerView>, b: seq<ServerView>, toolName: string)
    requires |a| == |b|
    requires forall i :: 0 <= i < |a| ==> a[i].healthy == b[i].healthy && a[i].tools == b[i].tools
    ensures FindProvider(a, toolName) == FindProvider(b, toolName)
  {
    if a != [] {
      FindProviderDeterministic(a[..|a| - 1], b[..|b| - 1], toolName);
    }
  }

  /** The names of the healthy servers, in order. */
  function HealthyNames(views: seq<ServerView>): (r: seq<string>)
    ensures |r| <= |views|
  {
    if views == [] then []
    else
      var last := views[|views| - 1];
      HealthyNames(views[..|views| - 1]) + (if last.healthy then [last.name] else [])
  }

  /** The routed call: "no provider" when no healthy server lists the tool,
      otherwise the first provider's reply to the tool name with
      `args ?? {}`. */
  function CallOutcome(views: seq<ServerView>, toolName: string, args: Option<Json>,
                       provider: (string, ToolRequest) -> CallReply): Result<ToolCallResult, string>
  {
    match FindProvider(views, toolName)
    case None => Failure(NoProviderMessage(toolName))
    case Some(k) => ReplyOutcome(provider(views[k].name, ToolRequest(toolName, ArgumentsOrEmpty(args))))
  }

  /** What the queries see of each registered connection. */
  function ViewsOf(names: seq<string>, clients: seq<Client>): (r: seq<ServerView>)
    requires |names| == |clients|
    reads clients
    ensures |r| == |names|
    ensures forall i :: 0 <= i < |names| ==> r[i] == ServerView(names[i], clients[i].IsHealthy(), clients[i].tools)
  {
    seq(|names|, i reads clients requires 0 <= i < |names| => ServerView(names[i], clients[i].IsHealthy(), clients[i].tools))
  }

  /** A registry: one valid connection per distinct name, each named after
      its entry. */
  ghost predicate Registry(names: seq<string>, clients: seq<Client>)
    reads clients
  {
    && |names| == |clients|
    && (forall i :: 0 <= i < |clients| ==> clients[i].Valid() && clients[i].serverName == names[i])
    && (forall i, j :: 0 <= i < j < |names| ==> names[i] != names[j] && clients[i] != clients[j])
  }

  class Manager {
    /** The keys of the `clients` map, in insertion order. */
    var names: seq<string>
    /** The values of the `clients` map, position for position. */
    var clients: seq<Client>
    var initialized: bool
    ghost var Repr: set<object>

    ghost predicate Valid()
      reads this, Repr
    {
      && this in Repr
      && (forall i :: 0 <= i < |clients| ==> clients[i] in Repr)
      && Registry(names, clients)
      && (!initialized ==> names == [] && clients == [])
    }

    /** What the queries see of the registered connections. */
    function View(): seq<ServerView>
      reads this, Repr
      requires Valid()
    {
      ViewsOf(names, clients)
    }

    constructor ()
      ensures Valid() && fresh(Repr)
      ensures names == [] && clients == [] && !initialized
    {
      names := [];
      clients := [];
      initialized := false;
      Repr := {this};
    }

    /** `initialize()`: a no-op once initialized. Otherwise it registers and
        starts every server that has a command, drops each whose start
        fails, and ends initialized on every path, returning the read or
        parse error when there is one. */
    method Initialize(file: ConfigFile, processEnv: seq<(string, Option<string>)>, handshake: string -> Handshake)
      returns (failure: Option<string>)
      requires Valid()
      requires file.ConfigParsed? && file.servers.Some? ==> DistinctNames(file.servers.value)
      modifies Repr
      ensures Valid() && fresh(Repr - old(Repr))
      ensures initialized
      ensures old(initialized) ==> failure.None? && names == old(names) && View() == old(View())
      ensures !old(initialized) ==>
        && failure == (if file.Unreadable? then Some(file.message) else None)
        && View() == (if file.ConfigParsed? && file.servers.Some? then ExpectedViews(file.servers.value, handshake) else [])
    {
      if initialized {
        return None;
      }
      match file {
        case NoConfigFile =>
          initialized := true;
          return None;
        case Unreadable(m) =>
          initialized := true;
          return Some(m);
        case ConfigParsed(servers) =>
          if servers.None? || |servers.value| == 0 {
            initialized := true;
            assert servers.Some? ==> servers.value == [];
            return None;
          }
          names, clients := StartAll(servers.value, processEnv, handshake);
          Repr := Repr + set c | c in clients;
          initialized := true;
          return None;
      }
    }

    /** `getAllTools()`: every tool of every healthy server, tagged with the
        server's name. */
    method GetAllTools() returns (all: seq<(string, ToolSchema)>)
      requires Valid()
      ensures all == AllTools(View())
    {
      all := [];
      var i := 0;
      while i < |clients|
        invariant 0 <= i <= |clients|
        invariant all == AllTools(View()[..i])
      {
        assert View()[..i + 1][..i] == View()[..i];
        var name, client := names[i], clients[i];
        if client.IsHealthy() {
          var j := 0;
          while j < |client.tools|
            invariant 0 <= j <= |client.tools|
            invariant all == AllTools(View()[..i]) + Tagged(name, client.tools[..j])
          {
            assert Tagged(name, client.tools[..j + 1]) == Tagged(name, client.tools[..j]) + [(name, client.tools[j])];
            all := all + [(name, client.tools[j])];
            j := j + 1;
          }
          assert client.tools[..j] == client.tools;
        }
        i := i + 1;
      }
      assert View()[..i] == View();
    }

    /** `findServerByToolName()`: the first healthy server, in order, whose
        catalogue lists the tool, or none. */
    method FindServerByToolName(toolName: string) returns (found: Option<(string, Client)>)
      requires Valid()
      ensures found.None? <==> FindProvider(View(), toolName).None?
      ensures found.Some? ==>
        var k := FindProvider(View(), toolName).value;
        found.value == (names[k], clients[k])
      ensures found.Some? ==> found.value.1.IsHealthy() && HasTool(found.value.1.tools, toolName)
    {
      var i := 0;
      while i < |clients|
        invariant 0 <= i <= |clients|
        invariant FindProvider(View()[..i], toolName).None?
      {
        assert View()[..i + 1][..i] == View()[..i];
        var name, client := names[i], clients[i];
        if client.IsHealthy() && HasTool(client.tools, toolName) {
          FindProviderPrefix(View(), i + 1, toolName);
          return Some((name, client));
        }
        i := i + 1;
      }
      assert View()[..i] == View();
      return None;
    }

    /** `callTool()`: "no provider" when routing finds no server, otherwise
        the provider's answer to the tool name with `args ?? {}`. */
    method CallTool(toolName: string, args: Option<Json>, provider: (string, ToolRequest) -> CallReply)
      returns (r: Result<ToolCallResult, string>)
      requires Valid()
      ensures r == CallOutcome(View(), toolName, args, provider)
    {
      var server := FindServerByToolName(toolName);
      if server.None? {
        return Failure(NoProviderMessage(toolName));
      }
      ghost var k := FindProvider(View(), toolName).value;
      var (name, client) := server.value;
      assert View()[k].name == name == client.serverName;
      assert client.Valid() && client.status == Ready && client.session;
      var arguments := ArgumentsOrEmpty(args);
      r := client.CallTool(toolName, Some(arguments), provider);
    }

    /** `getHealthyServers()`: the names of the healthy servers. */
    function GetHealthyServers(): (healthy: seq<string>)
      reads this, Repr
      requires Valid()
      ensures |healthy| <= |names|
      ensures forall n :: n in healthy <==> exists i :: 0 <= i < |names| && names[i] == n && clients[i].IsHealthy()
    {
      HealthyNamesMembership(View());
      HealthyNames(View())
    }

    /** `getStats()`: the number of servers, of healthy ones, and of tools in
        the flattened catalogue. */
    method GetStats() returns (stats: Stats)
      requires Valid()
      ensures stats.total == |names|
      ensures stats.healthy == |GetHealthyServers()| && stats.healthy <= stats.total
      ensures stats.toolCount == |AllTools(View())|
    {
      var all := GetAllTools();
      stats := Stats(|clients|, |GetHealthyServers()|, |all|);
    }

    /** `shutdown()`: stops every connection (a failing stop is swallowed),
        empties the registry and clears `initialized`. */
    method Shutdown(stopOutcome: string -> StopOutcome)
      requires Valid()
      modifies Repr
      ensures Valid() && fresh(Repr - old(Repr))
      ensures names == [] && clients == [] && !initialized
      ensures forall i :: 0 <= i < |old(clients)| ==> old(clients)[i].status != Ready
    {
      var i := 0;
      while i < |clients|
        invariant 0 <= i <= |clients|
        invariant names == old(names) && clients == old(clients) && Repr == old(Repr)
        invariant forall j :: 0 <= j < |clients| ==> clients[j].Valid()
        invariant forall j :: 0 <= j < i ==> clients[j].status != Ready
      {
        clients[i].Stop(stopOutcome(names[i]));
        i := i + 1;
      }
      names := [];
      clients := [];
      initialized := false;
      Repr := {this};
    }
  }

  /** The start-up loop of `initialize()`: each server with a command gets a
      new connection, registered and started; one whose start fails is
      removed again. */
  method StartAll(servers: seq<(string, ServerEntry)>, processEnv: seq<(string, Option<string>)>, handshake: string -> Handshake)
    returns (names: seq<string>, clients: seq<Client>)
    requires DistinctNames(servers)
    ensures fresh(clients)
    ensures Registry(names, clients)
    ensures ViewsOf(names, clients) == ExpectedViews(servers, handshake)
  {
    names, clients := [], [];
    var i := 0;
    while i < |servers|
      invariant 0 <= i <= |servers|
      invariant Registry(names, clients)
      invariant ViewsOf(names, clients) == ExpectedViews(servers[..i], handshake)
      invariant fresh(clients)
      invariant forall j, k :: 0 <= j < |names| && i <= k < |servers| ==> names[j] != servers[k].0
    {
      StartStep(servers, i, handshake);
      names, clients := Register(names, clients, servers[i].0, servers[i].1, processEnv, handshake(servers[i].0));
      i := i + 1;
    }
    assert servers[..i] == servers;
  }

  /** One turn of the start-up loop: an entry without a command is skipped;
      otherwise a new connection is registered and started, and removed
      again when the start fails. */
  method Register(names: seq<string>, clients: seq<Client>, name: string, entry: ServerEntry,
                  processEnv: seq<(string, Option<string>)>, handshake: Handshake)
    returns (names': seq<string>, clients': seq<Client>)
    requires Registry(names, clients)
    requires name !in names
    ensures Registry(names', clients')
    ensures names' == names + (if Commanded(entry) && handshake.Handshaken? then [name] else [])
    ensures |clients'| == |names'| && clients'[..|clients|] == clients
    ensures |clients'| > |clients| ==> fresh(clients'[|clients|])
    ensures ViewsOf(names', clients') == ViewsOf(names, clients) +
      (if Commanded(entry) && handshake.Handshaken? then [ServerView(name, true, ListedTools(handshake.listing))] else [])
  {
    if !Commanded(entry) {
      return names, clients;
    }
    var client, failure := StartServer(name, entry, processEnv, handshake);
    names', clients' := names + [name], clients + [client];
    if failure.Some? {
      names', clients' := names'[..|names'| - 1], clients'[..|clients'| - 1];
      assert names' == names && clients' == clients;
    } else {
      assert names'[..|names|] == names && clients'[..|clients|] == clients;
    }
  }

  /** How one more configured server extends the expected views. */
  lemma StartStep(servers: seq<(string, ServerEntry)>, i: nat, handshake: string -> Handshake)
    requires i < |servers|
    ensures ExpectedViews(servers[..i + 1], handshake) ==
      var expected := ExpectedViews(servers[..i], handshake);
      if Commanded(servers[i].1) && handshake(servers[i].0).Handshaken? then
        expected + [ServerView(servers[i].0, true, ListedTools(handshake(servers[i].0).listing))]
      else expected
  {
    assert servers[..i + 1][..i] == servers[..i];
  }

  /** One server's start-up: a new connection for the entry, started; it
      fails exactly when the handshake does, and otherwise ends healthy with
      the listed tools. */
  method StartServer(name: string, entry: ServerEntry, processEnv: seq<(string, Option<string>)>, handshake: Handshake)
    returns (client: Client, failure: Option<string>)
    requires Commanded(entry)
    ensures fresh(client) && client.Valid() && client.serverName == name && client.config == ToConfig(entry)
    ensures failure.None? <==> handshake.Handshaken?
    ensures handshake.Handshaken? ==> client.IsHealthy() && client.tools == ListedTools(handshake.listing)
  {
    client := new Client(name, ToConfig(entry));
    failure := client.Start(processEnv, handshake);
  }

  lemma {:induction false} FindProviderPrefix(views: seq<ServerView>, n: nat, toolName: string)
    requires 0 < n <= |views|
    requires FindProvider(views[..n - 1], toolName).None?
    requires Provides(views[n - 1], toolName)
    ensures FindProvider(views, toolName) == Some(n - 1)
  {
    if n < |views| {
      assert views[..|views| - 1][..n - 1] == views[..n - 1];
      assert views[..|views| - 1][n - 1] == views[n - 1];
      FindProviderPrefix(views[..|views| - 1], n, toolName);
    } else {
      assert views[..|views| - 1] == views[..n - 1];
    }
  }

  lemma {:induction false} HealthyNamesMembership(views: seq<ServerView>)
    ensures forall n :: n in HealthyNames(views) <==> exists i :: 0 <= i < |views| && views[i].name == n && views[i].healthy
  {
    if views != [] {
      var init := views[..|views| - 1];
      HealthyNamesMembership(init);
      assert forall i :: 0 <= i < |init| ==> init[i] == views[i];
    }
  }
}
