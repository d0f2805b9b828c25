/**
 * `filtered_prepare_dynamic_tools`: for each configured server, in order,
 * list its tools, keep those whose name matches one of the server's allowed
 * patterns (all of them when the server has no allow-list entry), convert
 * each kept tool into a function tool, and decorate each one, dropping (and
 * logging) those whose decoration fails.
 *
 * The calls into the tool library are inputs: the outcome of each server's
 * `list_tools`, and which conversions and decorations raise. A listing or
 * conversion that raises aborts the whole preparation with its error.
 */
module AgentTools {
  import opened Wrappers
  import opened Glob
  import opened AgentConfig
  import opened Subsequences

  /** A tool as a server lists it. */
  datatype Tool = Tool(name: string, description: string)

  /** What `MCPUtil.to_function_tool` builds: the tool bound to its server. */
  datatype FunctionTool = FunctionTool(tool: Tool, serverName: string, strict: bool)

  /** What `MCPToolsIntegration._create_decorated_tool` returns for an instance. */
  datatype PreparedTool = PreparedTool(instance: FunctionTool)

  /** `any(fnmatch.fnmatch(name, pat) for pat in patterns)`. */
  predicate AllowedBy(patterns: set<string>, name: string) {
    exists pat :: pat in patterns && FnMatch(name, pat)
  }

  /** `[t for t in tools if any(...)]`. */
  function Filter(patterns: set<string>, tools: seq<Tool>): seq<Tool> {
    if tools == [] then []
    else (if AllowedBy(patterns, tools[0].name) then [tools[0]] else []) + Filter(patterns, tools[1..])
  }

  function AllowListOf(allowedMap: map<string, set<string>>, name: string): Option<set<string>> {
    if name in allowedMap then Some(allowedMap[name]) else None
  }

  /** `[MCPUtil.to_function_tool(t, server, strict) for t in tools]`: the first conversion that raises aborts it. */
  function ConvertAll(tools: seq<Tool>, server: McpServer, strict: bool,
                      convertError: (Tool, McpServer, bool) -> Option<string>)
    : (r: Result<seq<FunctionTool>, string>)
    ensures r.Ok? <==> forall k :: 0 <= k < |tools| ==> convertError(tools[k], server, strict).None?
    ensures r.Ok? ==> (|r.value| == |tools|
      && forall k :: 0 <= k < |tools| ==> r.value[k] == FunctionTool(tools[k], server.name, strict))
  {
    if tools == [] then Ok([])
    else
      match convertError(tools[0], server, strict)
      case Some(e) => Err(e)
      case None =>
        match ConvertAll(tools[1..], server, strict, convertError)
        case Err(e) => Err(e)
        case Ok(rest) => Ok([FunctionTool(tools[0], server.name, strict)] + rest)
  }

  /** The `try`/`except` loop: instances whose decoration raises are skipped. */
  function DecorateAll(instances: seq<FunctionTool>, decorateError: FunctionTool -> Option<string>)
    : seq<PreparedTool>
    decreases |instances|
  {
    if instances == [] then []
    else
      var n := |instances| - 1;
      DecorateAll(instances[..n], decorateError)
      + (if decorateError(instances[n]).None? then [PreparedTool(instances[n])] else [])
  }

  /** The listed tools that pass the server's allow-list, if it has one. */
  function KeptTools(allowed: Option<set<string>>, listed: seq<Tool>): seq<Tool> {
    match allowed
    case Some(patterns) => Filter(patterns, listed)
    case None => listed
  }

  /** What one server contributes, or the error that aborts the preparation. */
  function ServerTools(server: McpServer, listing: Result<seq<Tool>, string>,
                       allowedMap: map<string, set<string>>, strict: bool,
                       convertError: (Tool, McpServer, bool) -> Option<string>,
                       decorateError: FunctionTool -> Option<string>)
    : Result<seq<PreparedTool>, string>
  {
    match listing
    case Err(e) => Err(e)
    case Ok(listed) =>
      var converted := ConvertAll(KeptTools(AllowListOf(allowedMap, server.name), listed), server, strict, convertError);
      if converted.Err? then Err(converted.error) else Ok(DecorateAll(converted.value, decorateError))
  }

  /** Joins the tools prepared so far with the next server's: the earlier error wins. */
  function Then(before: Result<seq<PreparedTool>, string>, here: Result<seq<PreparedTool>, string>)
    : (r: Result<seq<PreparedTool>, string>)
    ensures r.Ok? <==> before.Ok? && here.Ok?
    ensures before.Err? ==> r == before
    ensures before.Ok? && here.Err? ==> r == here
    ensures r.Ok? ==> r.value == before.value + here.value
  {
    if before.Err? then before
    else if here.Err? then here
    else Ok(before.value + here.value)
  }

  /** The prepared tools of the servers in order, or the first error raised. */
  function Prepare(servers: seq<McpServer>, listings: seq<Result<seq<Tool>, string>>,
                   allowedMap: map<string, set<string>>, strict: bool,
                   convertError: (Tool, McpServer, bool) -> Option<string>,
                   decorateError: FunctionTool -> Option<string>)
    : Result<seq<PreparedTool>, string>
    requires |listings| == |servers|
    decreases |servers|
  {
    if servers == [] then Ok([])
    else
      var n := |servers| - 1;
      Then(Prepare(servers[..n], listings[..n], allowedMap, strict, convertError, decorateError),
           ServerTools(servers[n], listings[n], allowedMap, strict, convertError, decorateError))
  }

  lemma PrepareUnfold(servers: seq<McpServer>, listings: seq<Result<seq<Tool>, string>>,
                      allowedMap: map<string, set<string>>, strict: bool,
                      convertError: (Tool, McpServer, bool) -> Option<string>,
                      decorateError: FunctionTool -> Option<string>, i: nat)
    requires |listings| == |servers| && i < |servers|
    ensures Prepare(servers[..i + 1], listings[..i + 1], allowedMap, strict, convertError, decorateError)
         == Then(Prepare(servers[..i], listings[..i], allowedMap, strict, convertError, decorateError),
                 ServerTools(servers[i], listings[i], allowedMap, strict, convertError, decorateError))
  {
    assert servers[..i + 1][..i] == servers[..i] && listings[..i + 1][..i] == listings[..i];
  }

  /** Once a prefix of the servers has raised, the whole preparation raises the same error. */
  lemma {:induction false} PrepareErrorPersists(servers: seq<McpServer>, listings: seq<Result<seq<Tool>, string>>,
                                              allowedMap: map<string, set<string>>, strict: bool,
                                              convertError: (Tool, McpServer, bool) -> Option<string>,
                                              decorateError: FunctionTool -> Option<string>, i: nat)
    requires |listings| == |servers| && i <= |servers|
    requires Prepare(servers[..i], listings[..i], allowedMap, strict, convertError, decorateError).Err?
    ensures Prepare(servers, listings, allowedMap, strict, convertError, decorateError)
         == Prepare(servers[..i], listings[..i], allowedMap, strict, convertError, decorateError)
    decreases |servers| - i
  {
    if i < |servers| {
      PrepareUnfold(servers, listings, allowedMap, strict, convertError, decorateError, i);
      PrepareErrorPersists(servers, listings, allowedMap, strict, convertError, decorateError, i + 1);
    } else {
      assert servers[..i] == servers && listings[..i] == listings;
    }
  }

  /** One server further: its error ends the whole preparation, its tools extend the prepared ones. */
  lemma PrepareStep(servers: seq<McpServer>, listings: seq<Result<seq<Tool>, string>>,
                    allowedMap: map<string, set<string>>, strict: bool,
                    convertError: (Tool, McpServer, bool) -> Option<string>,
                    decorateError: FunctionTool -> Option<string>, i: nat, prepared: seq<PreparedTool>)
    requires |listings| == |servers| && i < |servers|
    requires Prepare(servers[..i], listings[..i], allowedMap, strict, convertError, decorateError) == Ok(prepared)
    ensures var here := ServerTools(servers[i], listings[i], allowedMap, strict, convertError, decorateError);
      (here.Err? ==> Prepare(servers, listings, allowedMap, strict, convertError, decorateError) == here)
      && (here.Ok? ==> Prepare(servers[..i + 1], listings[..i + 1], allowedMap, strict, convertError, decorateError) == Ok(prepared + here.value))
  {
    PrepareUnfold(servers, listings, allowedMap, strict, convertError, decorateError, i);
    if ServerTools(servers[i], listings[i], allowedMap, strict, convertError, decorateError).Err? {
      PrepareErrorPersists(servers, listings, allowedMap, strict, convertError, decorateError, i + 1);
    }
  }

  /** The `for tool_instance in mcp_tools` loop with its `try`/`except`. */
  method DecorateEach(instances: seq<FunctionTool>, decorateError: FunctionTool -> Option<string>)
    returns (prepared: seq<PreparedTool>)
    ensures prepared == DecorateAll(instances, decorateError)
  {
    prepared := [];
    var j := 0;
    while j < |instances|
      invariant 0 <= j <= |instances|
      invariant prepared == DecorateAll(instances[..j], decorateError)
    {
      assert instances[..j + 1][..j] == instances[..j];
      if decorateError(instances[j]).None? {
        prepared := prepared + [PreparedTool(instances[j])];
      }
      // otherwise the failure is logged and the tool left out
      j := j + 1;
    }
    assert instances[..j] == instances;
  }

  /** One pass of the outer loop: list, filter, convert and decorate the tools of one server. */
  method PrepareServer(server: McpServer, listing: Result<seq<Tool>, string>,
                       allowedMap: map<string, set<string>>, strict: bool,
                       convertError: (Tool, McpServer, bool) -> Option<string>,
                       decorateError: FunctionTool -> Option<string>)
    returns (r: Result<seq<PreparedTool>, string>)
    ensures r == ServerTools(server, listing, allowedMap, strict, convertError, decorateError)
  {
    var allowed := AllowListOf(allowedMap, server.name);
    if listing.Err? {
      return Err(listing.error);
    }
    var tools := listing.value;
    if allowed.Some? {
      tools := Filter(allowed.value, tools);
    }
    assert tools == KeptTools(allowed, listing.value);
    var converted := ConvertAll(tools, server, strict, convertError);
    if converted.Err? {
      return Err(converted.error);
    }
    var decorated := DecorateEach(converted.value, decorateError);
    r := Ok(decorated);
  }

  /** The patched `prepare_dynamic_tools`, with `await server.list_tools()` replaced by the given listings. */
  method FilteredPrepareDynamicTools(servers: seq<McpServer>, listings: seq<Result<seq<Tool>, string>>,
                                     allowedMap: map<string, set<string>>, strict: bool,
                                     convertError: (Tool, McpServer, bool) -> Option<string>,
                                     decorateError: FunctionTool -> Option<string>)
    returns (r: Result<seq<PreparedTool>, string>)
    requires |listings| == |servers|
    ensures r == Prepare(servers, listings, allowedMap, strict, convertError, decorateError)
  {
    var prepared: seq<PreparedTool> := [];
    var i := 0;
    while i < |servers|
      invariant 0 <= i <= |servers|
      invariant Prepare(servers[..i], listings[..i], allowedMap, strict, convertError, decorateError) == Ok(prepared)
    {
      var here := PrepareServer(servers[i], listings[i], allowedMap, strict, convertError, decorateError);
      PrepareStep(servers, listings, allowedMap, strict, convertError, decorateError, i, prepared);
      if here.Err? {
        return here;
      }
      prepared := prepared + here.value;
      i := i + 1;
    }
    assert servers[..i] == servers && listings[..i] == listings;
    r := Ok(prepared);
  }

  // ---------------------------------------------------------------------
  // Properties

  function Instances(prepared: seq<PreparedTool>): (r: seq<FunctionTool>)
    ensures |r| == |prepared| && forall k :: 0 <= k < |prepared| ==> r[k] == prepared[k].instance
  {
    seq(|prepared|, k requires 0 <= k < |prepared| => prepared[k].instance)
  }

  /** Every tool of every server, bound to its server, in server order and listing order. */
  function AllInstances(servers: seq<McpServer>, listings: seq<Result<seq<Tool>, string>>, strict: bool)
    : seq<FunctionTool>
    requires |listings| == |servers|
    decreases |servers|
  {
    if servers == [] then []
    else
      var n := |servers| - 1;
      AllInstances(servers[..n], listings[..n], strict) + Listed(listings[n], servers[n].name, strict)
  }

  /** A server's listed tools bound to it (none when the listing raised). */
  function Listed(listing: Result<seq<Tool>, string>, serverName: string, strict: bool): seq<FunctionTool> {
    match listing
    case Err(_) => []
    case Ok(tools) => Bind(tools, serverName, strict)
  }

  function Bind(tools: seq<Tool>, serverName: string, strict: bool): (r: seq<FunctionTool>)
    ensures |r| == |tools| && forall k :: 0 <= k < |tools| ==> r[k] == FunctionTool(tools[k], serverName, strict)
  {
    seq(|tools|, k requires 0 <= k < |tools| => FunctionTool(tools[k], serverName, strict))
  }

  /** A tool passes the filter iff it is listed and its full name matches one of the patterns. */
  lemma {:induction false} FilterMembers(patterns: set<string>, tools: seq<Tool>, t: Tool)
    ensures t in Filter(patterns, tools) <==> t in tools && AllowedBy(patterns, t.name)
    decreases |tools|
  {
    if tools != [] {
      FilterMembers(patterns, tools[1..], t);
      assert tools == [tools[0]] + tools[1..];
    }
  }

  lemma {:induction false} FilterIsSubsequence(patterns: set<string>, tools: seq<Tool>)
    ensures IsSubsequence(Filter(patterns, tools), tools)
    decreases |tools|
  {
    if tools == [] {
      EmptySubsequence(tools);
    } else {
      FilterIsSubsequence(patterns, tools[1..]);
      var tail := Filter(patterns, tools[1..]);
      assert tools == [tools[0]] + tools[1..];
      if AllowedBy(patterns, tools[0].name) {
        assert Filter(patterns, tools) == [tools[0]] + tail;
        SubsequenceKeepFirst(tail, tools[1..], tools[0]);
      } else {
        assert Filter(patterns, tools) == tail;
        SubsequenceSkipFirst(tail, tools[1..], tools[0]);
      }
    }
  }

  lemma {:induction false} DecorateIsSubsequence(instances: seq<FunctionTool>, decorateError: FunctionTool -> Option<string>)
    ensures IsSubsequence(Instances(DecorateAll(instances, decorateError)), instances)
    decreases |instances|
  {
    if instances == [] {
      assert Instances([]) == [];
      EmptySubsequence(instances);
    } else {
      var n := |instances| - 1;
      var init := DecorateAll(instances[..n], decorateError);
      DecorateIsSubsequence(instances[..n], decorateError);
      assert instances[..n] + [instances[n]] == instances;
      if decorateError(instances[n]).None? {
        assert Instances(init + [PreparedTool(instances[n])]) == Instances(init) + [instances[n]];
        SubsequenceKeepLast(Instances(init), instances[..n], instances[n]);
      } else {
        assert init + [] == init;
        SubsequenceSkipLast(Instances(init), instances[..n], instances[n]);
      }
    }
  }

  lemma BindIsSubsequence(a: seq<Tool>, b: seq<Tool>, serverName: string, strict: bool)
    requires IsSubsequence(a, b)
    ensures IsSubsequence(Bind(a, serverName, strict), Bind(b, serverName, strict))
  {
    var idx :| SubseqVia(a, b, idx);
    assert SubseqVia(Bind(a, serverName, strict), Bind(b, serverName, strict), idx);
  }

  /** What one server contributes is a subsequence of its own listing, in listing order. */
  lemma ServerToolsIsSubsequence(server: McpServer, listing: Result<seq<Tool>, string>,
                                 allowedMap: map<string, set<string>>, strict: bool,
                                 convertError: (Tool, McpServer, bool) -> Option<string>,
                                 decorateError: FunctionTool -> Option<string>)
    requires ServerTools(server, listing, allowedMap, strict, convertError, decorateError).Ok?
    ensures IsSubsequence(Instances(ServerTools(server, listing, allowedMap, strict, convertError, decorateError).value),
                          Listed(listing, server.name, strict))
  {
    var listed := listing.value;
    var allowed := AllowListOf(allowedMap, server.name);
    var kept := KeptTools(allowed, listed);
    var instances := ConvertAll(kept, server, strict, convertError).value;
    assert instances == Bind(kept, server.name, strict);
    var prepared := DecorateAll(instances, decorateError);
    assert ServerTools(server, listing, allowedMap, strict, convertError, decorateError).value == prepared;
    DecorateIsSubsequence(instances, decorateError);
    if allowed.Some? {
      FilterIsSubsequence(allowed.value, listed);
      BindIsSubsequence(kept, listed, server.name, strict);
      SubsequenceTrans(Instances(prepared), instances, Bind(listed, server.name, strict));
    }
  }

  /** A successful preparation is the earlier servers' tools followed by the last server's. */
  lemma PrepareSplit(servers: seq<McpServer>, listings: seq<Result<seq<Tool>, string>>,
                     allowedMap: map<string, set<string>>, strict: bool,
                     convertError: (Tool, McpServer, bool) -> Option<string>,
                     decorateError: FunctionTool -> Option<string>)
    requires |listings| == |servers| && servers != []
    requires Prepare(servers, listings, allowedMap, strict, convertError, decorateError).Ok?
    ensures var n := |servers| - 1;
      var before := Prepare(servers[..n], listings[..n], allowedMap, strict, convertError, decorateError);
      var here := ServerTools(servers[n], listings[n], allowedMap, strict, convertError, decorateError);
      before.Ok? && here.Ok?
      && Prepare(servers, listings, allowedMap, strict, convertError, decorateError).value == before.value + here.value
  {
  }

  /**
   * The prepared tools are a subsequence of all listed tools: servers in
   * configured order, each server's tools together and in listing order.
   */
  lemma {:induction false} PreparedIsSubsequenceOfListed(servers: seq<McpServer>, listings: seq<Result<seq<Tool>, string>>,
                                                     allowedMap: map<string, set<string>>, strict: bool,
                                                     convertError: (Tool, McpServer, bool) -> Option<string>,
                                                     decorateError: FunctionTool -> Option<string>)
    requires |listings| == |servers|
    requires Prepare(servers, listings, allowedMap, strict, convertError, decorateError).Ok?
    ensures IsSubsequence(Instances(Prepare(servers, listings, allowedMap, strict, convertError, decorateError).value),
                          AllInstances(servers, listings, strict))
    decreases |servers|
  {
    if servers == [] {
      assert Instances([]) == [];
      EmptySubsequence(AllInstances(servers, listings, strict));
    } else {
      var n := |servers| - 1;
      PrepareSplit(servers, listings, allowedMap, strict, convertError, decorateError);
      var before := Prepare(servers[..n], listings[..n], allowedMap, strict, convertError, decorateError).value;
      var here := ServerTools(servers[n], listings[n], allowedMap, strict, convertError, decorateError).value;
      PreparedIsSubsequenceOfListed(servers[..n], listings[..n], allowedMap, strict, convertError, decorateError);
      ServerToolsIsSubsequence(servers[n], listings[n], allowedMap, strict, convertError, decorateError);
      var listedBefore := AllInstances(servers[..n], listings[..n], strict);
      var listedHere := Listed(listings[n], servers[n].name, strict);
      assert AllInstances(servers, listings, strict) == listedBefore + listedHere;
      PreparedConcat(before, here, listedBefore, listedHere);
    }
  }

  /** Joining two servers' prepared tools joins their subsequence relations. */
  lemma PreparedConcat(before: seq<PreparedTool>, here: seq<PreparedTool>,
                       listedBefore: seq<FunctionTool>, listedHere: seq<FunctionTool>)
    requires IsSubsequence(Instances(before), listedBefore)
    requires IsSubsequence(Instances(here), listedHere)
    ensures IsSubsequence(Instances(before + here), listedBefore + listedHere)
  {
    assert Instances(before + here) == Instances(before) + Instances(here);
    SubsequenceConcat(Instances(before), listedBefore, Instances(here), listedHere);
  }

  /** A server that has no allow-list entry, and whose tools all convert and decorate, contributes every listed tool. */
  lemma NoAllowListKeepsAll(server: McpServer, tools: seq<Tool>,
                            allowedMap: map<string, set<string>>, strict: bool,
                            convertError: (Tool, McpServer, bool) -> Option<string>,
                            decorateError: FunctionTool -> Option<string>)
    requires server.name !in allowedMap
    requires forall t :: convertError(t, server, strict).None?
    requires forall f :: decorateError(f).None?
    ensures ServerTools(server, Ok(tools), allowedMap, strict, convertError, decorateError)
         == Ok(seq(|tools|, k requires 0 <= k < |tools| => PreparedTool(FunctionTool(tools[k], server.name, strict))))
  {
    var instances := ConvertAll(tools, server, strict, convertError).value;
    DecorateAllSucceeds(instances, decorateError);
    assert DecorateAll(instances, decorateError)
        == seq(|tools|, k requires 0 <= k < |tools| => PreparedTool(FunctionTool(tools[k], server.name, strict)));
  }

  lemma {:induction false} DecorateAllSucceeds(instances: seq<FunctionTool>, decorateError: FunctionTool -> Option<string>)
    requires forall f :: decorateError(f).None?
    ensures DecorateAll(instances, decorateError)
         == seq(|instances|, k requires 0 <= k < |instances| => PreparedTool(instances[k]))
    decreases |instances|
  {
    if instances != [] {
      DecorateAllSucceeds(instances[..|instances| - 1], decorateError);
    }
  }

  /** A prepared tool is an instance whose decoration did not raise: failing ones are dropped, the others kept. */
  lemma {:induction false} DecorateMembers(instances: seq<FunctionTool>, decorateError: FunctionTool -> Option<string>,
                                           p: PreparedTool)
    ensures p in DecorateAll(instances, decorateError) <==> p.instance in instances && decorateError(p.instance).None?
    decreases |instances|
  {
    if instances != [] {
      var n := |instances| - 1;
      DecorateMembers(instances[..n], decorateError, p);
      assert instances == instances[..n] + [instances[n]];
    }
  }

  /**
   * What one server contributes: exactly its kept tools bound to it, less
   * those whose decoration raises.
   */
  lemma ServerToolsMembers(server: McpServer, tools: seq<Tool>,
                           allowedMap: map<string, set<string>>, strict: bool,
                           convertError: (Tool, McpServer, bool) -> Option<string>,
                           decorateError: FunctionTool -> Option<string>, p: PreparedTool)
    requires ServerTools(server, Ok(tools), allowedMap, strict, convertError, decorateError).Ok?
    ensures p in ServerTools(server, Ok(tools), allowedMap, strict, convertError, decorateError).value
        <==> p.instance == FunctionTool(p.instance.tool, server.name, strict)
             && p.instance.tool in KeptTools(AllowListOf(allowedMap, server.name), tools)
             && decorateError(p.instance).None?
  {
    var kept := KeptTools(AllowListOf(allowedMap, server.name), tools);
    var instances := ConvertAll(kept, server, strict, convertError).value;
    DecorateMembers(instances, decorateError, p);
    if p.instance in instances {
      var j :| 0 <= j < |instances| && instances[j] == p.instance;
      assert kept[j] in kept;
    }
    if p.instance == FunctionTool(p.instance.tool, server.name, strict) && p.instance.tool in kept {
      var j :| 0 <= j < |kept| && kept[j] == p.instance.tool;
      assert instances[j] == p.instance;
    }
  }

  /**
   * With an allow-list, a server contributes exactly the listed tools whose
   * name matches one of its patterns and whose decoration does not raise,
   * each bound to the server.
   */
  lemma AllowListMembers(server: McpServer, tools: seq<Tool>,
                         allowedMap: map<string, set<string>>, strict: bool,
                         convertError: (Tool, McpServer, bool) -> Option<string>,
                         decorateError: FunctionTool -> Option<string>, p: PreparedTool)
    requires server.name in allowedMap
    requires ServerTools(server, Ok(tools), allowedMap, strict, convertError, decorateError).Ok?
    ensures p in ServerTools(server, Ok(tools), allowedMap, strict, convertError, decorateError).value
        <==> p.instance == FunctionTool(p.instance.tool, server.name, strict)
             && p.instance.tool in tools && AllowedBy(allowedMap[server.name], p.instance.tool.name)
             && decorateError(p.instance).None?
  {
    ServerToolsMembers(server, tools, allowedMap, strict, convertError, decorateError, p);
    FilterMembers(allowedMap[server.name], tools, p.instance.tool);
  }

  /** A decoration that raises never aborts: whether preparation raises does not depend on decoration. */
  lemma {:induction false} DecorationNeverAborts(servers: seq<McpServer>, listings: seq<Result<seq<Tool>, string>>,
                                               allowedMap: map<string, set<string>>, strict: bool,
                                               convertError: (Tool, McpServer, bool) -> Option<string>,
                                               decorate1: FunctionTool -> Option<string>,
                                               decorate2: FunctionTool -> Option<string>)
    requires |listings| == |servers|
    ensures Prepare(servers, listings, allowedMap, strict, convertError, decorate1).Err?
        <==> Prepare(servers, listings, allowedMap, strict, convertError, decorate2).Err?
    ensures Prepare(servers, listings, allowedMap, strict, convertError, decorate1).Err? ==>
      (Prepare(servers, listings, allowedMap, strict, convertError, decorate1)
       == Prepare(servers, listings, allowedMap, strict, convertError, decorate2))
    decreases |servers|
  {
    if servers != [] {
      var n := |servers| - 1;
      DecorationNeverAborts(servers[..n], listings[..n], allowedMap, strict, convertError, decorate1, decorate2);
      var h1 := ServerTools(servers[n], listings[n], allowedMap, strict, convertError, decorate1);
      var h2 := ServerTools(servers[n], listings[n], allowedMap, strict, convertError, decorate2);
      assert h1.Err? <==> h2.Err?;
      assert h1.Err? ==> h1 == h2;
    }
  }

  /** A server whose `list_tools` raises aborts the preparation with that error, once the servers before it succeeded. */
  lemma ListingErrorAborts(servers: seq<McpServer>, listings: seq<Result<seq<Tool>, string>>,
                           allowedMap: map<string, set<string>>, strict: bool,
                           convertError: (Tool, McpServer, bool) -> Option<string>,
                           decorateError: FunctionTool -> Option<string>, i: nat)
    requires |listings| == |servers| && i < |servers| && listings[i].Err?
    requires Prepare(servers[..i], listings[..i], allowedMap, strict, convertError, decorateError).Ok?
    ensures Prepare(servers, listings, allowedMap, strict, convertError, decorateError) == Err(listings[i].error)
  {
    PrepareUnfold(servers, listings, allowedMap, strict, convertError, decorateError, i);
    PrepareErrorPersists(servers, listings, allowedMap, strict, convertError, decorateError, i + 1);
  }

  /** Server A of the example below: of x, y and z only x matches `x*`. */
  lemma ExampleServerA(x: Tool, y: Tool, z: Tool, sa: McpServer, allowed: map<string, set<string>>,
                       convertError: (Tool, McpServer, bool) -> Option<string>,
                       decorateError: FunctionTool -> Option<string>)
    requires x.name == "x" && y.name == "y" && z.name == "z" && sa.name == "A"
    requires allowed == map["A" := {"x*"}]
    requires forall t, s, st :: convertError(t, s, st).None?
    requires forall f :: decorateError(f).None?
    ensures ServerTools(sa, Ok([x, y, z]), allowed, true, convertError, decorateError)
         == Ok([PreparedTool(FunctionTool(x, "A", true))])
  {
    assert NoMeta("x") && "x" + "*" == "x*";
    PrefixPattern("x", "x");
    PrefixPattern("y", "x");
    PrefixPattern("z", "x");
    assert "x" <= "x" && !("x" <= "y") && !("x" <= "z") by {
      assert "y"[0] != "x"[0] && "z"[0] != "x"[0];
    }
    assert FnMatch("x", "x*") && !FnMatch("y", "x*") && !FnMatch("z", "x*");
    assert AllowedBy({"x*"}, "x");
    forall pat | pat in {"x*"} ensures !FnMatch("y", pat) && !FnMatch("z", pat) {
      assert pat == "x*";
    }
    assert [x, y, z][1..] == [y, z] && [y, z][1..] == [z] && [z][1..] == [];
    assert Filter({"x*"}, [z]) == [];
    assert Filter({"x*"}, [y, z]) == [];
    assert Filter({"x*"}, [x, y, z]) == [x];
    assert AllowListOf(allowed, sa.name) == Some({"x*"});
    assert convertError(x, sa, true).None?;
    var cx := ConvertAll([x], sa, true, convertError);
    assert cx.Ok? && |cx.value| == 1 && cx.value[0] == FunctionTool(x, "A", true);
    assert cx.value == [FunctionTool(x, "A", true)];
    DecorateAllSucceeds([FunctionTool(x, "A", true)], decorateError);
    assert DecorateAll([FunctionTool(x, "A", true)], decorateError) == [PreparedTool(FunctionTool(x, "A", true))];
  }

  /** Server B of the example below: no allow-list entry, so a and b are both kept. */
  lemma ExampleServerB(a: Tool, b: Tool, sb: McpServer, allowed: map<string, set<string>>,
                       convertError: (Tool, McpServer, bool) -> Option<string>,
                       decorateError: FunctionTool -> Option<string>)
    requires sb.name == "B" && allowed == map["A" := {"x*"}]
    requires forall t, s, st :: convertError(t, s, st).None?
    requires forall f :: decorateError(f).None?
    ensures ServerTools(sb, Ok([a, b]), allowed, true, convertError, decorateError)
         == Ok([PreparedTool(FunctionTool(a, "B", true)), PreparedTool(FunctionTool(b, "B", true))])
  {
    NoAllowListKeepsAll(sb, [a, b], allowed, true, convertError, decorateError);
    var fb := seq(|[a, b]|, k requires 0 <= k < |[a, b]| => PreparedTool(FunctionTool([a, b][k], sb.name, true)));
    assert fb == [PreparedTool(FunctionTool(a, "B", true)), PreparedTool(FunctionTool(b, "B", true))];
  }

  /**
   * Two servers: A lists x, y, z and allows `x*`; B lists a, b and has no
   * allow-list. With every conversion and decoration succeeding, the result
   * is x from A followed by a and b from B.
   */
  lemma TwoServerExample(x: Tool, y: Tool, z: Tool, a: Tool, b: Tool, sa: McpServer, sb: McpServer,
                         convertError: (Tool, McpServer, bool) -> Option<string>,
                         decorateError: FunctionTool -> Option<string>)
    requires x.name == "x" && y.name == "y" && z.name == "z"
    requires sa.name == "A" && sb.name == "B"
    requires forall t, s, st :: convertError(t, s, st).None?
    requires forall f :: decorateError(f).None?
    ensures Prepare([sa, sb], [Ok([x, y, z]), Ok([a, b])], map["A" := {"x*"}], true, convertError, decorateError)
         == Ok([PreparedTool(FunctionTool(x, "A", true)),
                PreparedTool(FunctionTool(a, "B", true)), PreparedTool(FunctionTool(b, "B", true))])
  {
    var allowed := map["A" := {"x*"}];
    ExampleServerA(x, y, z, sa, allowed, convertError, decorateError);
    ExampleServerB(a, b, sb, allowed, convertError, decorateError);
    PrepareTwo(sa, sb, Ok([x, y, z]), Ok([a, b]), allowed, true, convertError, decorateError);
    var pa := [PreparedTool(FunctionTool(x, "A", true))];
    var pb := [PreparedTool(FunctionTool(a, "B", true)), PreparedTool(FunctionTool(b, "B", true))];
    assert [] + pa + pb == [PreparedTool(FunctionTool(x, "A", true)),
                            PreparedTool(FunctionTool(a, "B", true)), PreparedTool(FunctionTool(b, "B", true))];
  }

  /** Two servers: the first server's contribution, then the second's. */
  lemma PrepareTwo(s1: McpServer, s2: McpServer, l1: Result<seq<Tool>, string>, l2: Result<seq<Tool>, string>,
                   allowedMap: map<string, set<string>>, strict: bool,
                   convertError: (Tool, McpServer, bool) -> Option<string>,
                   decorateError: FunctionTool -> Option<string>)
    ensures Prepare([s1, s2], [l1, l2], allowedMap, strict, convertError, decorateError)
         == Then(Then(Ok([]), ServerTools(s1, l1, allowedMap, strict, convertError, decorateError)),
                 ServerTools(s2, l2, allowedMap, strict, convertError, decorateError))
  {
    var servers, listings := [s1, s2], [l1, l2];
    assert servers[..1] == [s1] && listings[..1] == [l1] && servers[1] == s2 && listings[1] == l2;
    assert [s1][..0] == [] && [l1][..0] == [];
    assert Prepare([s1], [l1], allowedMap, strict, convertError, decorateError)
        == Then(Ok([]), ServerTools(s1, l1, allowedMap, strict, convertError, decorateError));
  }
}
