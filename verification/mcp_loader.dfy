/** The tool list injected from `MCP.json`: an explicit `tools` list,
    sanitised, or else one entry per configured server with a usable
    command. */
module McpLoader {
  import opened Common
  import opened Json

  /** What reading `MCP.json` gave: no file, a read or parse error, or the
      parsed value. */
  datatype McpJson = Absent | Malformed(message: string) | Parsed(value: Json)

  /** `hasValidCommand()`: the definition has a string `command` that is
      not blank. */
  predicate HasValidCommand(server: Option<Json>) {
    server.Some? && Prop(server.value, "command").Some? && Prop(server.value, "command").value.JStr? &&
    |Trim(Prop(server.value, "command").value.s)| > 0
  }

  /** The command of a definition that has a valid one. */
  function CommandOf(server: Option<Json>): (c: string)
    requires HasValidCommand(server)
    ensures NonBlank(c)
  {
    Prop(server.value, "command").value.s
  }

  /** The filter of `sanitizeToolList()`: a non-blank string `server_name`,
      `type` equal to `mcp`, and a `server_config` with a valid command. */
  predicate IsValidTool(tool: Json) {
    && Prop(tool, "server_name").Some? && Prop(tool, "server_name").value.JStr?
    && |Trim(Prop(tool, "server_name").value.s)| > 0
    && Prop(tool, "type") == Some(JStr("mcp"))
    && HasValidCommand(Prop(tool, "server_config"))
  }

  /** The map of `sanitizeToolList()`: the tool with its server name and its
      command trimmed, every other property kept. */
  function SanitizeTool(tool: Json): (t: Json)
    requires IsValidTool(tool)
    ensures t.JObj?
  {
    var config := Prop(tool, "server_config").value;
    var command := JStr(Trim(CommandOf(Prop(tool, "server_config"))));
    JObj(SetField(SetField(tool.fields, "server_name", JStr(Trim(Prop(tool, "server_name").value.s))),
                  "server_config", JObj(SetField(config.fields, "command", command))))
  }

  /** A sanitised tool is valid again, with its name and command trimmed. */
  lemma SanitizeToolValid(tool: Json)
    requires IsValidTool(tool)
    ensures IsValidTool(SanitizeTool(tool))
    ensures Prop(SanitizeTool(tool), "server_name") == Some(JStr(Trim(Prop(tool, "server_name").value.s)))
    ensures CommandOf(Prop(SanitizeTool(tool), "server_config")) == Trim(CommandOf(Prop(tool, "server_config")))
  {
    var config := Prop(tool, "server_config").value;
    var name := JStr(Trim(Prop(tool, "server_name").value.s));
    var command := Trim(CommandOf(Prop(tool, "server_config")));
    var newConfig := JObj(SetField(config.fields, "command", JStr(command)));
    var named := SetField(tool.fields, "server_name", name);
    var fields := SetField(named, "server_config", newConfig);
    assert SanitizeTool(tool) == JObj(fields);
    assert Get(fields, "server_config") == Some(newConfig);
    assert Get(newConfig.fields, "command") == Some(JStr(command));
    assert Trim(command) == command;
    assert |"server_name"| != |"server_config"| && |"type"| != |"server_config"| && |"type"| != |"server_name"|;
    SetFieldOther(named, "server_config", newConfig, "server_name");
    SetFieldOther(named, "server_config", newConfig, "type");
    SetFieldOther(tool.fields, "server_name", name, "type");
  }

  /** Sanitising a sanitised tool changes nothing. */
  lemma SanitizeToolIdempotent(tool: Json)
    requires IsValidTool(tool)
    ensures IsValidTool(SanitizeTool(tool)) && SanitizeTool(SanitizeTool(tool)) == SanitizeTool(tool)
  {
    SanitizeToolValid(tool);
    var t := SanitizeTool(tool);
    var name := JStr(Trim(Prop(tool, "server_name").value.s));
    var config := Prop(tool, "server_config").value;
    var command := JStr(Trim(CommandOf(Prop(tool, "server_config"))));
    var newConfig := JObj(SetField(config.fields, "command", command));
    SetFieldNoChange(newConfig.fields, "command", command);
    SetFieldNoChange(t.fields, "server_name", name);
    SetFieldNoChange(t.fields, "server_config", newConfig);
  }

  /** The filter of `sanitizeToolList()`: the valid tools, in order. */
  function ValidTools(items: seq<Json>): (r: seq<Json>)
    ensures |r| <= |items|
    ensures forall i :: 0 <= i < |r| ==> IsValidTool(r[i])
  {
    if items == [] then []
    else
      var last := items[|items| - 1];
      ValidTools(items[..|items| - 1]) + (if IsValidTool(last) then [last] else [])
  }

  /** The filter keeps exactly the valid tools. */
  lemma {:induction false} ValidToolsMembership(items: seq<Json>)
    ensures forall t :: t in ValidTools(items) <==> t in items && IsValidTool(t)
  {
    if items != [] {
      var init := items[..|items| - 1];
      ValidToolsMembership(init);
      InitLast(items);
    }
  }

  /** The filter keeps a list of valid tools whole. */
  lemma {:induction false} ValidToolsAllValid(items: seq<Json>)
    requires forall i :: 0 <= i < |items| ==> IsValidTool(items[i])
    ensures ValidTools(items) == items
  {
    if items != [] {
      var init := items[..|items| - 1];
      ValidToolsAllValid(init);
      InitLast(items);
    }
  }

  /** The sanitised list of a list of tool values: the valid ones, each
      sanitised, in order. */
  function SanitizedTools(items: seq<Json>): (r: seq<Json>)
    ensures |r| == |ValidTools(items)|
    ensures forall i :: 0 <= i < |r| ==> r[i] == SanitizeTool(ValidTools(items)[i])
  {
    var valid := ValidTools(items);
    seq(|valid|, i requires 0 <= i < |valid| => SanitizeTool(valid[i]))
  }

  /** `sanitizeToolList()`: nothing unless the value is an array. */
  function SanitizeToolList(tools: Option<Json>): (r: seq<Json>)
    ensures tools.None? || !tools.value.JArr? ==> r == []
  {
    if tools.Some? && tools.value.JArr? then SanitizedTools(tools.value.items) else []
  }

  /** Every tool on a sanitised list is valid, with its server name and
      command trimmed. */
  lemma SanitizedToolsValid(items: seq<Json>)
    ensures forall t :: t in SanitizedTools(items) ==>
      IsValidTool(t) && IsTrimmed(Prop(t, "server_name").value.s) && IsTrimmed(CommandOf(Prop(t, "server_config")))
  {
    var r := SanitizedTools(items);
    forall t | t in r
      ensures IsValidTool(t) && IsTrimmed(Prop(t, "server_name").value.s) && IsTrimmed(CommandOf(Prop(t, "server_config")))
    {
      var i :| 0 <= i < |r| && r[i] == t;
      SanitizeToolValid(ValidTools(items)[i]);
    }
  }

  /** Sanitising an already sanitised list changes nothing. */
  lemma SanitizedToolsIdempotent(items: seq<Json>)
    ensures SanitizedTools(SanitizedTools(items)) == SanitizedTools(items)
  {
    var r := SanitizedTools(items);
    var valid := ValidTools(items);
    forall i | 0 <= i < |r|
      ensures IsValidTool(r[i]) && SanitizeTool(r[i]) == r[i]
    {
      SanitizeToolIdempotent(valid[i]);
    }
    ValidToolsAllValid(r);
  }

  /** The entry `buildToolsFromServers()` emits for a server with a valid
      command. */
  function ServerTool(name: string, server: Json): (t: Json)
    requires HasValidCommand(Some(server))
  {
    JObj([("type", JStr("mcp")), ("server_name", JStr(name)),
          ("server_config", JObj(SetField(server.fields, "command", JStr(Trim(CommandOf(Some(server)))))))])
  }

  /** An emitted entry is an `mcp` tool named after its server, carrying
      the server's definition with the command trimmed. */
  lemma ServerToolShape(name: string, server: Json)
    requires HasValidCommand(Some(server))
    ensures Prop(ServerTool(name, server), "type") == Some(JStr("mcp"))
    ensures Prop(ServerTool(name, server), "server_name") == Some(JStr(name))
    ensures HasValidCommand(Prop(ServerTool(name, server), "server_config"))
    ensures CommandOf(Prop(ServerTool(name, server), "server_config")) == Trim(CommandOf(Some(server)))
  {
    var command := Trim(CommandOf(Some(server)));
    var config := JObj(SetField(server.fields, "command", JStr(command)));
    var fields := [("type", JStr("mcp")), ("server_name", JStr(name)), ("server_config", config)];
    assert ServerTool(name, server) == JObj(fields);
    assert |"type"| != |"server_name"| && |"type"| != |"server_config"| && |"server_name"| != |"server_config"|;
    assert Get(fields, "server_name") == Get(fields[1..], "server_name");
    assert Get(fields, "server_config") == Get(fields[1..], "server_config") == Get(fields[2..], "server_config");
    assert Trim(command) == command;
  }

  /** The entries for the servers `entries`: one per server with a valid
      command, in order. */
  function ServerTools(entries: seq<(string, Json)>): (r: seq<Json>)
    ensures |r| <= |entries|
  {
    if entries == [] then []
    else
      var last := entries[|entries| - 1];
      ServerTools(entries[..|entries| - 1]) +
        (if HasValidCommand(Some(last.1)) then [ServerTool(last.0, last.1)] else [])
  }

  /** Every server with a valid command has its entry on the emitted list. */
  lemma {:induction false} ServerToolsComplete(entries: seq<(string, Json)>)
    ensures forall name, server :: (name, server) in entries && HasValidCommand(Some(server)) ==>
      ServerTool(name, server) in ServerTools(entries)
  {
    if entries != [] {
      var init := entries[..|entries| - 1];
      ServerToolsComplete(init);
      assert entries == init + [entries[|entries| - 1]];
    }
  }

  /** Every emitted entry belongs to a server with a valid command. */
  lemma {:induction false} ServerToolsSound(entries: seq<(string, Json)>)
    ensures forall t :: t in ServerTools(entries) ==>
      exists name, server :: (name, server) in entries && HasValidCommand(Some(server)) && t == ServerTool(name, server)
  {
    if entries != [] {
      var init := entries[..|entries| - 1];
      var last := entries[|entries| - 1];
      ServerToolsSound(init);
      assert entries == init + [last];
      forall t | t in ServerTools(entries)
        ensures exists name, server :: (name, server) in entries && HasValidCommand(Some(server)) && t == ServerTool(name, server)
      {
        if t !in ServerTools(init) {
          assert last in entries;
        }
      }
    }
  }

  /** `buildToolsFromServers()`: one entry per server with a valid command,
      in property order; nothing when the servers value is missing or
      falsy. */
  method BuildToolsFromServers(servers: Option<Json>) returns (result: seq<Json>)
    ensures servers.None? || !Truthy(servers.value) ==> result == []
    ensures servers.Some? && Truthy(servers.value) ==> result == ServerTools(Entries(servers.value))
  {
    if servers.None? || !Truthy(servers.value) {
      return [];
    }
    var entries := Entries(servers.value);
    result := [];
    var i := 0;
    while i < |entries|
      invariant 0 <= i <= |entries|
      invariant result == ServerTools(entries[..i])
    {
      assert entries[..i + 1][..i] == entries[..i];
      var (name, server) := entries[i];
      if HasValidCommand(Some(server)) {
        result := result + [JObj([("type", JStr("mcp")), ("server_name", JStr(name)),
                                  ("server_config", JObj(SetField(server.fields, "command", JStr(Trim(CommandOf(Some(server)))))))])];
      }
      i := i + 1;
    }
    assert entries[..i] == entries;
  }

  /** `loadMcpTools()`: nothing without a readable file; the sanitised
      explicit list when it is not empty, otherwise the entries derived
      from `mcpServers`. */
  method LoadMcpTools(file: McpJson) returns (tools: seq<Json>)
    ensures !file.Parsed? ==> tools == []
    ensures file.Parsed? && SanitizeToolList(Prop(file.value, "tools")) != [] ==>
      tools == SanitizeToolList(Prop(file.value, "tools"))
    ensures file.Parsed? && SanitizeToolList(Prop(file.value, "tools")) == [] ==>
      var servers := Prop(file.value, "mcpServers");
      tools == (if servers.Some? && Truthy(servers.value) then ServerTools(Entries(servers.value)) else [])
  {
    if !file.Parsed? {
      return [];
    }
    var explicitTools := SanitizeToolList(Prop(file.value, "tools"));
    if |explicitTools| > 0 {
      return explicitTools;
    }
    tools := BuildToolsFromServers(Prop(file.value, "mcpServers"));
  }
}
