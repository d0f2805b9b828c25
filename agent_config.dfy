/**
 * The loop of the agent's `entrypoint` that turns the already-parsed tool
 * server records into SSE client descriptions and into the per-server
 * allow-list map that the tool filter consults.
 */
module AgentConfig {
  import opened Wrappers
  import opened AgentEnv

  /**
   * One configured tool server. `name` and `allowed_tools` may be absent;
   * an absent `headers` entry is the empty map.
   */
  datatype ServerConf = ServerConf(
    name: Option<string>,
    url: string,
    headers: map<string, string>,
    allowedTools: Option<seq<string>>)

  /** The `params` dict given to the SSE client: `headers` is left out when there are none. */
  datatype SseParams = SseParams(url: string, headers: Option<map<string, string>>)

  /** The arguments an `MCPServerSse` is built from. */
  datatype McpServer = McpServer(params: SseParams, cacheToolsList: bool, name: string)

  /** `conf.get("name", conf["url"])`. */
  function ServerName(conf: ServerConf): string {
    match conf.name
    case Some(n) => n
    case None => conf.url
  }

  function ExpandedHeaders(headers: map<string, string>, env: Env): map<string, string> {
    map k | k in headers :: ExpandEnvVars(headers[k], env)
  }

  /** The server description built for one record. */
  function ServerFor(conf: ServerConf, env: Env): McpServer {
    var headers := ExpandedHeaders(conf.headers, env);
    var params := SseParams(conf.url, if headers == map[] then None else Some(headers));
    McpServer(params, true, ServerName(conf))
  }

  /** `set(conf["allowed_tools"])`. */
  function ToolSet(tools: seq<string>): (r: set<string>)
    ensures forall t :: t in r <==> t in tools
  {
    set t | t in tools
  }

  /**
   * `allowed_tools_map` after the records have been processed in order: a
   * record with `allowed_tools` sets (or overwrites) the entry of its name.
   */
  function AllowList(confs: seq<ServerConf>): map<string, set<string>>
    decreases |confs|
  {
    if confs == [] then map[]
    else
      var m := AllowList(confs[..|confs| - 1]);
      var last := confs[|confs| - 1];
      match last.allowedTools
      case Some(tools) => m[ServerName(last) := ToolSet(tools)]
      case None => m
  }

  /** The inner `for k, v in conf.get("headers", {}).items()` loop. */
  method ExpandHeaders(headers: map<string, string>, env: Env) returns (out: map<string, string>)
    ensures out == ExpandedHeaders(headers, env)
  {
    out := map[];
    var todo := headers.Keys;
    while todo != {}
      invariant todo <= headers.Keys
      invariant out.Keys == headers.Keys - todo
      invariant forall k :: k in out ==> out[k] == ExpandEnvVars(headers[k], env)
      decreases todo
    {
      var k :| k in todo;
      out := out[k := ExpandEnvVars(headers[k], env)];
      todo := todo - {k};
    }
  }

  lemma AppendServer(configs: seq<ServerConf>, env: Env, servers: seq<McpServer>, server: McpServer)
    requires |servers| < |configs|
    requires forall j :: 0 <= j < |servers| ==> servers[j] == ServerFor(configs[j], env)
    requires server == ServerFor(configs[|servers|], env)
    ensures forall j :: 0 <= j <= |servers| ==> (servers + [server])[j] == ServerFor(configs[j], env)
  {
  }

  /** One more record updates the allow-list map only when it has `allowed_tools`. */
  lemma AllowListStep(configs: seq<ServerConf>, i: nat)
    requires i < |configs|
    ensures AllowList(configs[..i + 1]) ==
      if configs[i].allowedTools.Some?
      then AllowList(configs[..i])[ServerName(configs[i]) := ToolSet(configs[i].allowedTools.value)]
      else AllowList(configs[..i])
  {
    assert configs[..i + 1][..i] == configs[..i] && configs[..i + 1][i] == configs[i];
  }

  /** The `for conf in mcp_configs` loop, filling `mcp_servers` and `allowed_tools_map`. */
  method BuildServers(configs: seq<ServerConf>, env: Env)
    returns (servers: seq<McpServer>, allowedToolsMap: map<string, set<string>>)
    ensures |servers| == |configs|
    ensures forall i :: 0 <= i < |configs| ==> servers[i] == ServerFor(configs[i], env)
    ensures allowedToolsMap == AllowList(configs)
  {
    servers := [];
    allowedToolsMap := map[];
    var i := 0;
    while i < |configs|
      invariant 0 <= i <= |configs|
      invariant |servers| == i
      invariant forall j :: 0 <= j < i ==> servers[j] == ServerFor(configs[j], env)
      invariant allowedToolsMap == AllowList(configs[..i])
    {
      var conf := configs[i];
      var headers := ExpandHeaders(conf.headers, env);
      var params := SseParams(conf.url, None);
      if headers != map[] {
        params := params.(headers := Some(headers));
      }
      var server := McpServer(params, true, ServerName(conf));
      assert server == ServerFor(configs[i], env);
      AppendServer(configs, env, servers, server);
      servers := servers + [server];
      AllowListStep(configs, i);
      if conf.allowedTools.Some? {
        allowedToolsMap := allowedToolsMap[ServerName(conf) := ToolSet(conf.allowedTools.value)];
      }
      i := i + 1;
    }
    assert configs[..i] == configs;
  }

  // ---------------------------------------------------------------------
  // Properties

  /**
   * The params always carry the URL; they carry `headers` iff the record has
   * at least one header, with the same keys and every value expanded; the
   * name is the record's name, or else its URL.
   */
  lemma ServerForShape(conf: ServerConf, env: Env)
    ensures ServerFor(conf, env).params.url == conf.url
    ensures ServerFor(conf, env).params.headers.Some? <==> conf.headers != map[]
    ensures ServerFor(conf, env).params.headers.Some? ==>
      var h := ServerFor(conf, env).params.headers.value;
      h.Keys == conf.headers.Keys && forall k :: k in h ==> h[k] == ExpandEnvVars(conf.headers[k], env)
    ensures ServerFor(conf, env).name == (if conf.name.Some? then conf.name.value else conf.url)
    ensures ServerFor(conf, env).cacheToolsList
  {
    if conf.headers != map[] {
      var k :| k in conf.headers;
      assert k in ExpandedHeaders(conf.headers, env);
    }
  }

  /** Header values without a `${NAME}` placeholder reach the params exactly as configured. */
  lemma PlainHeadersPassThrough(conf: ServerConf, env: Env)
    requires conf.headers != map[]
    requires forall k :: k in conf.headers ==> !HasPlaceholder(conf.headers[k])
    ensures ServerFor(conf, env).params.headers == Some(conf.headers)
  {
    forall k | k in conf.headers ensures ExpandEnvVars(conf.headers[k], env) == conf.headers[k] {
      NoPlaceholderUnchanged(conf.headers[k], env);
    }
    var k :| k in conf.headers;
    assert k in ExpandedHeaders(conf.headers, env);
    assert ExpandedHeaders(conf.headers, env) == conf.headers;
  }

  /** The allow-list map has an entry for a name iff some record of that name has `allowed_tools`. */
  lemma {:induction false} AllowListKeys(confs: seq<ServerConf>, name: string)
    ensures name in AllowList(confs)
        <==> exists i :: 0 <= i < |confs| && confs[i].allowedTools.Some? && ServerName(confs[i]) == name
    decreases |confs|
  {
    if confs != [] {
      var init := confs[..|confs| - 1];
      AllowListKeys(init, name);
      if exists i :: 0 <= i < |confs| && confs[i].allowedTools.Some? && ServerName(confs[i]) == name {
        var i :| 0 <= i < |confs| && confs[i].allowedTools.Some? && ServerName(confs[i]) == name;
        if i < |confs| - 1 { assert init[i] == confs[i]; }
      }
      if exists i :: 0 <= i < |init| && init[i].allowedTools.Some? && ServerName(init[i]) == name {
        var i :| 0 <= i < |init| && init[i].allowedTools.Some? && ServerName(init[i]) == name;
        assert confs[i] == init[i];
      }
    }
  }

  /** The entry of a name holds the patterns of the LAST record of that name that has `allowed_tools`. */
  lemma {:induction false} AllowListValue(confs: seq<ServerConf>, i: nat)
    requires i < |confs| && confs[i].allowedTools.Some?
    requires forall j :: i < j < |confs| && ServerName(confs[j]) == ServerName(confs[i]) ==> confs[j].allowedTools.None?
    ensures ServerName(confs[i]) in AllowList(confs)
    ensures AllowList(confs)[ServerName(confs[i])] == ToolSet(confs[i].allowedTools.value)
    decreases |confs|
  {
    var init := confs[..|confs| - 1];
    if i < |confs| - 1 {
      assert init[i] == confs[i];
      forall j | i < j < |init| && ServerName(init[j]) == ServerName(init[i]) ensures init[j].allowedTools.None? {
        assert init[j] == confs[j];
      }
      AllowListValue(init, i);
    }
  }
}
