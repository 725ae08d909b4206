/** What a runtime task may do with tools: the permission check, the tool pool, and the tool-use loop. */
module ToolRuntime {
  import opened Wrappers
  import Text

  // ---- permissions -------------------------------------------------------------------------------------------------

  datatype ProfileName = CiReadonly | CiYamlEdit | DiagnosisReadonly | CollaborationNotify
  datatype Profile = Profile(tools: seq<string>, mcpServers: seq<string>)

  function ProfileOf(name: ProfileName): Profile
  {
    match name
    case CiReadonly =>
      Profile(["read_file", "list_files", "run_command", "read_artifact", "write_artifact", "validate_schema"],
        ["gitlab", "tekton", "argocd", "kubernetes"])
    case CiYamlEdit =>
      Profile(["read_file", "edit_file", "write_file", "list_files", "run_command", "create_patch", "read_artifact",
          "write_artifact", "validate_schema"],
        ["gitlab", "tekton", "argocd", "kubernetes"])
    case DiagnosisReadonly =>
      Profile(["read_artifact", "write_artifact", "summarize_log", "reason_about_failure", "validate_schema",
          "redact_sensitive_fields"],
        ["gitlab", "tekton", "argocd", "kubernetes"])
    case CollaborationNotify =>
      Profile(["read_artifact", "write_artifact", "classify_reply", "draft_notification", "validate_schema",
          "redact_sensitive_fields"],
        ["feishu", "gitlab"])
  }

  /** `isToolAllowedByProfile`; no profile lists single MCP tools. */
  predicate AllowedByProfile(profile: Profile, tool: string)
  {
    tool in profile.tools ||
    (Text.StartsWith(tool, "mcp__") &&
     var parts := Text.Split(tool, "__");
     |parts| > 1 && parts[1] != "" && parts[1] in profile.mcpServers)
  }

  /** A tool of an MCP server: `mcp__server` itself, or a name that goes on behind another `__`. */
  predicate OfServer(tool: string, server: string)
  {
    tool == "mcp__" + server || Text.StartsWith(tool, "mcp__" + server + "__")
  }

  /** What a profile grants: its own tools, and those of its servers. */
  ghost predicate Grants(profile: ProfileName, tool: string)
  {
    || tool in ProfileOf(profile).tools
    || exists server :: server in ProfileOf(profile).mcpServers && OfServer(tool, server)
  }

  /** Cutting the name at `__` decides exactly that, for every profile and every name. */
  lemma AllowedExactly(profile: ProfileName, tool: string)
    ensures AllowedByProfile(ProfileOf(profile), tool) <==> Grants(profile, tool)
  {
    var servers := ProfileOf(profile).mcpServers;
    PlainServers(profile);
    if Text.StartsWith(tool, "mcp__") {
      var rest := tool[5..];
      SplitMcp(tool);
      forall server | server in servers ensures Text.Split(rest, "__")[0] == server <==> OfServer(tool, server) {
        FirstPart(rest, server);
        SamePrefix(tool, server);
      }
    } else {
      forall server ensures !OfServer(tool, server) {
        if OfServer(tool, server) { McpFirst(tool, server); }
      }
    }
  }

  lemma PlainServers(profile: ProfileName)
    ensures forall server :: server in ProfileOf(profile).mcpServers ==> server != "" && '_' !in server
  {
  }

  lemma SplitMcp(tool: string)
    requires Text.StartsWith(tool, "mcp__")
    ensures Text.Split(tool, "__") == ["mcp"] + Text.Split(tool[5..], "__")
  {
    assert tool == "mcp" + "__" + tool[5..];
    Text.IndexOfAfter("mcp", "__", tool[5..]);
    assert tool[..3] == "mcp";
  }

  lemma {:induction false} FirstPart(rest: string, server: string)
    requires '_' !in server
    ensures Text.Split(rest, "__")[0] == server <==> rest == server || Text.StartsWith(rest, server + "__")
  {
    if rest == server {
      Text.IndexOfAbsent(rest, "__");
    } else if Text.StartsWith(rest, server + "__") {
      var tail := rest[|server| + 2..];
      assert rest == server + "__" + tail;
      Text.IndexOfAfter(server, "__", tail);
    }
  }

  lemma SamePrefix(tool: string, server: string)
    requires Text.StartsWith(tool, "mcp__")
    ensures tool[5..] == server <==> tool == "mcp__" + server
    ensures Text.StartsWith(tool[5..], server + "__") <==> Text.StartsWith(tool, "mcp__" + server + "__")
  {
    var rest := tool[5..];
    assert tool == "mcp__" + rest;
    assert ("mcp__" + server)[5..] == server;
    assert "mcp__" + server + "__" == "mcp__" + (server + "__");
    if |server + "__"| <= |rest| {
      assert tool[..5 + |server + "__"|] == "mcp__" + rest[..|server + "__"|];
      assert ("mcp__" + (server + "__"))[5..] == server + "__";
      assert ("mcp__" + rest[..|server + "__"|])[5..] == rest[..|server + "__"|];
    }
  }

  lemma McpFirst(tool: string, server: string)
    requires OfServer(tool, server)
    ensures Text.StartsWith(tool, "mcp__")
  {
    assert ("mcp__" + server)[..5] == "mcp__" && ("mcp__" + server + "__")[..5] == "mcp__";
  }

  const WRITE_TOOLS := ["write_file", "edit_file"]

  /** A tool a task must not list. */
  ghost predicate Forbidden(profile: ProfileName, prod: bool, tool: string)
  {
    !Grants(profile, tool) || (prod && tool in WRITE_TOOLS)
  }

  /** `checkTaskPermissions`: the forbidden tools that a task lists, each once. */
  method CheckTaskPermissions(profile: ProfileName, prod: bool,
      allowedTools: seq<string>) returns (blocked: seq<string>)
    ensures forall t :: t in blocked <==> t in allowedTools && Forbidden(profile, prod, t)
    ensures forall i, j :: 0 <= i < j < |blocked| ==> blocked[i] != blocked[j]
  {
    forall t ensures AllowedByProfile(ProfileOf(profile), t) <==> Grants(profile, t) {
      AllowedExactly(profile, t);
    }
    var all: seq<string> := [];
    for i := 0 to |allowedTools|
      invariant forall t :: t in all <==> t in allowedTools[..i] && !Grants(profile, t)
    {
      if !AllowedByProfile(ProfileOf(profile), allowedTools[i]) { all := all + [allowedTools[i]]; }
    }
    if prod {
      ghost var notAllowed := all;
      for i := 0 to |WRITE_TOOLS|
        invariant forall t :: t in all <==> t in notAllowed || (t in WRITE_TOOLS[..i] && t in allowedTools)
      {
        if WRITE_TOOLS[i] in allowedTools { all := all + [WRITE_TOOLS[i]]; }
      }
    }
    assert allowedTools[..|allowedTools|] == allowedTools && WRITE_TOOLS[..|WRITE_TOOLS|] == WRITE_TOOLS;
    blocked := [];
    for i := 0 to |all|
      invariant forall t :: t in blocked <==> t in all[..i]
      invariant forall i, j :: 0 <= i < j < |blocked| ==> blocked[i] != blocked[j]
    {
      if all[i] !in blocked { blocked := blocked + [all[i]]; }
    }
    assert all[..|all|] == all;
  }

  // ---- the tool pool -----------------------------------------------------------------------------------------------

  datatype Source = Builtin | Mcp | Unmarked
  datatype Tool = Tool(name: string, source: Source, serial: nat)

  /** The first candidate of a name that satisfies a condition on its source. */
  ghost predicate FirstOf(candidates: seq<Tool>, name: string, builtinOnly: bool, tool: Tool)
  {
    exists i :: 0 <= i < |candidates| && candidates[i] == tool && tool.name == name &&
      (builtinOnly ==> tool.source.Builtin?) &&
      forall k :: 0 <= k < i && candidates[k].name == name ==> builtinOnly && !candidates[k].source.Builtin?
  }

  ghost predicate HasBuiltin(candidates: seq<Tool>, name: string)
  {
    exists i :: 0 <= i < |candidates| && candidates[i].name == name && candidates[i].source.Builtin?
  }

  /** The candidate that stands for its name: the first builtin one if there is one, else the first. */
  ghost predicate Stands(candidates: seq<Tool>, tool: Tool)
  {
    FirstOf(candidates, tool.name, HasBuiltin(candidates, tool.name), tool)
  }

  ghost predicate Named(candidates: seq<Tool>, name: string)
  {
    exists i :: 0 <= i < |candidates| && candidates[i].name == name
  }

  /** There is an entry for each allowed name that has candidates: the one that stands for the name. */
  ghost predicate Collected(byName: map<string, Tool>, allowedTools: seq<string>, candidates: seq<Tool>)
  {
    && (forall n :: n in byName <==> n in allowedTools && Named(candidates, n))
    && (forall n :: n in byName ==> byName[n].name == n && Stands(candidates, byName[n]))
  }

  /** The map after one more candidate. */
  function Collect(byName: map<string, Tool>, allowedTools: seq<string>, tool: Tool): map<string, Tool>
  {
    if tool.name !in allowedTools then byName
    else if tool.name !in byName || (!byName[tool.name].source.Builtin? && tool.source.Builtin?) then
      byName[tool.name := tool]
    else byName
  }

  lemma {:induction false} CollectedNext(allowedTools: seq<string>, seen: seq<Tool>, tool: Tool, before: map<string,
      Tool>,
      byName: map<string, Tool>)
    requires Collected(before, allowedTools, seen) && byName == Collect(before, allowedTools, tool)
    ensures Collected(byName, allowedTools, seen + [tool])
  {
    forall n ensures Named(seen + [tool], n) <==> Named(seen, n) || n == tool.name { NamedNext(seen, tool, n); }
    forall n | n in byName ensures byName[n].name == n && Stands(seen + [tool], byName[n]) {
      if n in before && byName[n] == before[n] {
        StandsStill(seen, tool, before[n]);
      } else {
        StandsNow(seen, tool, if n in before then Some(before[n]) else None);
      }
    }
  }

  /** The entries of the map that the loop builds, kept in the order of a JavaScript `Map`. */
  method CollectTools(allowedTools: seq<string>, candidates: seq<Tool>) returns (byName: map<string, Tool>)
    ensures Collected(byName, allowedTools, candidates)
  {
    byName := map[];
    for i := 0 to |candidates|
      invariant Collected(byName, allowedTools, candidates[..i])
    {
      var tool := candidates[i];
      ghost var seen := candidates[..i];
      ghost var before := byName;
      if tool.name in allowedTools {
        if tool.name !in byName || (!byName[tool.name].source.Builtin? && tool.source.Builtin?) {
          byName := byName[tool.name := tool];
        }
      }
      assert candidates[..i + 1] == seen + [tool];
      CollectedNext(allowedTools, seen, tool, before, byName);
    }
    assert candidates[..|candidates|] == candidates;
  }

  lemma NamedNext(seen: seq<Tool>, tool: Tool, n: string)
    ensures Named(seen + [tool], n) <==> Named(seen, n) || n == tool.name
  {
    assert (seen + [tool])[|seen|] == tool;
    if Named(seen, n) {
      var i :| 0 <= i < |seen| && seen[i].name == n;
      assert (seen + [tool])[i].name == n;
    }
  }

  lemma BuiltinNext(seen: seq<Tool>, tool: Tool, n: string)
    ensures HasBuiltin(seen + [tool], n) <==> HasBuiltin(seen, n) || (n == tool.name && tool.source.Builtin?)
  {
    assert (seen + [tool])[|seen|] == tool;
    if HasBuiltin(seen, n) {
      var i :| 0 <= i < |seen| && seen[i].name == n && seen[i].source.Builtin?;
      assert (seen + [tool])[i].name == n && (seen + [tool])[i].source.Builtin?;
    }
  }

  /** A standing candidate keeps its place against one of another name, a non-builtin one, or if it is builtin. */
  lemma StandsStill(seen: seq<Tool>, tool: Tool, current: Tool)
    requires Stands(seen, current)
    requires tool.name != current.name || !tool.source.Builtin? || current.source.Builtin?
    ensures Stands(seen + [tool], current)
  {
    BuiltinNext(seen, tool, current.name);
    var i :| 0 <= i < |seen| && seen[i] == current &&
      forall k :: 0 <= k < i && seen[k].name == current.name ==>
        HasBuiltin(seen, current.name) && !seen[k].source.Builtin?;
    if current.source.Builtin? { assert HasBuiltin(seen, current.name); }
    assert (seen + [tool])[i] == current;
    assert forall k :: 0 <= k < i ==> (seen + [tool])[k] == seen[k];
  }

  /** A candidate takes the place of none, or of a non-builtin one if it is builtin. */
  lemma StandsNow(seen: seq<Tool>, tool: Tool, current: Option<Tool>)
    requires current.None? ==> !Named(seen, tool.name)
    requires current.Some? ==> current.value.name == tool.name && Stands(seen, current.value)
    requires current.Some? ==> !current.value.source.Builtin? && tool.source.Builtin?
    ensures Stands(seen + [tool], tool)
  {
    BuiltinNext(seen, tool, tool.name);
    assert (seen + [tool])[|seen|] == tool;
    assert current.Some? ==> !HasBuiltin(seen, tool.name);
    assert forall k :: 0 <= k < |seen| && seen[k].name == tool.name ==> Named(seen, tool.name);
    assert forall k :: 0 <= k < |seen| && seen[k].name == tool.name && seen[k].source.Builtin? ==>
      HasBuiltin(seen, tool.name);
    assert forall k :: 0 <= k < |seen| ==> (seen + [tool])[k] == seen[k];
  }

  /** The order by name that `localeCompare` stands for. */
  ghost predicate TotalOrder(leq: (string, string) -> bool)
  {
    && (forall a, b :: leq(a, b) || leq(b, a))
    && (forall a, b :: leq(a, b) && leq(b, a) ==> a == b)
    && (forall a, b, c :: leq(a, b) && leq(b, c) ==> leq(a, c))
  }

  predicate SortedByName(tools: seq<Tool>, leq: (string, string) -> bool)
  {
    forall i, j :: 0 <= i < j < |tools| ==> leq(tools[i].name, tools[j].name)
  }

  function Insert(tool: Tool, tools: seq<Tool>, leq: (string, string) -> bool): seq<Tool>
  {
    if tools == [] || leq(tool.name, tools[0].name) then [tool] + tools
    else [tools[0]] + Insert(tool, tools[1..], leq)
  }

  lemma {:induction false} InsertContents(tool: Tool, tools: seq<Tool>, leq: (string, string) -> bool)
    ensures multiset(Insert(tool, tools, leq)) == multiset(tools) + multiset{tool}
  {
    if tools != [] && !leq(tool.name, tools[0].name) {
      InsertContents(tool, tools[1..], leq);
      assert tools == [tools[0]] + tools[1..];
    }
  }

  lemma {:induction false} InsertKeepsOrder(tool: Tool, tools: seq<Tool>, leq: (string, string) -> bool)
    requires TotalOrder(leq) && SortedByName(tools, leq)
    ensures SortedByName(Insert(tool, tools, leq), leq)
  {
    if tools == [] {
    } else if leq(tool.name, tools[0].name) {
      assert forall i :: 0 <= i < |tools| ==> leq(tool.name, tools[i].name);
    } else {
      var rest := Insert(tool, tools[1..], leq);
      InsertKeepsOrder(tool, tools[1..], leq);
      forall i | 0 <= i < |rest| ensures leq(tools[0].name, rest[i].name) { InsertedBound(tool, tools, leq, i); }
    }
  }

  lemma InsertedBound(tool: Tool, tools: seq<Tool>, leq: (string, string) -> bool, i: nat)
    requires TotalOrder(leq) && SortedByName(tools, leq) && tools != [] && !leq(tool.name, tools[0].name)
    requires i < |Insert(tool, tools[1..], leq)|
    ensures leq(tools[0].name, Insert(tool, tools[1..], leq)[i].name)
  {
    var rest := Insert(tool, tools[1..], leq);
    InsertContents(tool, tools[1..], leq);
    assert rest[i] in multiset(rest);
    if rest[i] != tool {
      assert rest[i] in tools[1..];
    }
  }

  lemma FirstUnique(candidates: seq<Tool>, a: Tool, b: Tool)
    requires Stands(candidates, a) && Stands(candidates, b) && a.name == b.name
    ensures a == b
  {
  }

  /** The sort at the end of `assembleToolPool`. */
  method SortTools(byName: map<string, Tool>, leq: (string, string) -> bool) returns (pool: seq<Tool>)
    requires TotalOrder(leq) && forall n :: n in byName ==> byName[n].name == n
    ensures SortedByName(pool, leq) && Holds(pool, byName, byName.Keys)
  {
    var names := byName.Keys;
    pool := [];
    assert HoldsAllBut(pool, byName, names, leq);
    while names != {}
      invariant HoldsAllBut(pool, byName, names, leq)
      decreases |names|
    {
      var n :| n in names;
      ghost var next := InsertStep(pool, byName, names, n, leq);
      pool, names := Insert(byName[n], pool, leq), names - {n};
    }
    assert byName.Keys - {} == byName.Keys;
  }

  /** `assembleToolPool`: sorted by name, one tool per name, and for every allowed name that has candidates the
      first builtin one, or else the first. */
  method AssembleToolPool(allowedTools: seq<string>, candidates: seq<Tool>, leq: (string,
      string) -> bool) returns (pool: seq<Tool>)
    requires TotalOrder(leq)
    ensures SortedByName(pool, leq)
    ensures forall i, j :: 0 <= i < j < |pool| ==> pool[i].name != pool[j].name
    ensures forall t :: t in pool <==> t.name in allowedTools && Stands(candidates, t)
  {
    var byName := CollectTools(allowedTools, candidates);
    pool := SortTools(byName, leq);
    PoolContents(pool, byName, allowedTools, candidates);
  }

  /** `pool` holds the entries of the map for some of its names, each once. */
  ghost predicate Holds(pool: seq<Tool>, byName: map<string, Tool>, names: set<string>)
  {
    && names <= byName.Keys
    && (forall n :: n in byName ==> byName[n].name == n)
    && (forall t :: multiset(pool)[t] == if t.name in names && byName[t.name] == t then 1 else 0)
  }

  lemma InsertHolds(pool: seq<Tool>, byName: map<string, Tool>, names: set<string>, n: string, leq: (string,
      string) -> bool)
    requires Holds(pool, byName, names) && n in byName && n !in names
    ensures Holds(Insert(byName[n], pool, leq), byName, names + {n})
  {
    InsertContents(byName[n], pool, leq);
  }

  ghost predicate HoldsAllBut(pool: seq<Tool>, byName: map<string, Tool>, names: set<string>, leq: (string,
      string) -> bool)
  {
    names <= byName.Keys && SortedByName(pool, leq) && Holds(pool, byName, byName.Keys - names)
  }

  lemma InsertStep(pool: seq<Tool>, byName: map<string, Tool>, names: set<string>, n: string, leq: (string,
      string) -> bool)
      returns (next: seq<Tool>)
    requires TotalOrder(leq) && HoldsAllBut(pool, byName, names, leq) && n in names
    ensures next == Insert(byName[n], pool, leq) && HoldsAllBut(next, byName, names - {n}, leq)
  {
    InsertKeepsOrder(byName[n], pool, leq);
    InsertHolds(pool, byName, byName.Keys - names, n, leq);
    assert byName.Keys - names + {n} == byName.Keys - (names - {n});
    next := Insert(byName[n], pool, leq);
  }

  lemma PoolContents(pool: seq<Tool>, byName: map<string, Tool>, allowedTools: seq<string>, candidates: seq<Tool>)
    requires Holds(pool, byName, byName.Keys)
    requires forall n :: n in byName <==> n in allowedTools && Named(candidates, n)
    requires forall n :: n in byName ==> Stands(candidates, byName[n])
    ensures forall i, j :: 0 <= i < j < |pool| ==> pool[i].name != pool[j].name
    ensures forall t :: t in pool <==> t.name in allowedTools && Stands(candidates, t)
  {
    forall t ensures t in pool <==> t.name in allowedTools && Stands(candidates, t) {
      assert t in pool <==> multiset(pool)[t] > 0;
      if Stands(candidates, t) {
        assert Named(candidates, t.name);
        if t.name in byName { FirstUnique(candidates, t, byName[t.name]); }
      }
    }
    forall i, j | 0 <= i < j < |pool| ensures pool[i].name != pool[j].name {
      assert multiset(pool)[pool[i]] > 0 && multiset(pool)[pool[j]] > 0;
      if pool[i] == pool[j] { CountedTwice(pool, i, j); }
    }
  }

  lemma CountedTwice(pool: seq<Tool>, i: nat, j: nat)
    requires i < j < |pool| && pool[i] == pool[j]
    ensures multiset(pool)[pool[i]] >= 2
  {
    assert pool == pool[..j] + [pool[j]] + pool[j + 1..];
    assert pool[..j][i] == pool[i];
  }

  // ---- the tool-use loop -------------------------------------------------------------------------------------------

  datatype Block = TextBlock | ToolUse(id: string, name: string)
  datatype ToolResult = ToolResult(toolUseId: string, isError: bool)
  datatype Message = Prompt | Assistant(content: seq<Block>) | Results(results: seq<ToolResult>)

  /** What the model does when it is called for the k-th time, and a tool when it is: answers, or throws. */
  datatype ModelReply = Reply(content: seq<Block>) | ModelThrows
  datatype ToolReply = Succeeded | Unsuccessful | ToolThrows

  datatype TraceEntry = TraceEntry(toolUseId: string, name: string, executed: bool, succeeded: bool)
  datatype Ending = Finished | LimitExceeded | Threw

  /** `toolUseBlocks`. */
  function ToolUses(content: seq<Block>): seq<Block>
  {
    if content == [] then [] else (if content[0].ToolUse? then [content[0]] else []) + ToolUses(content[1..])
  }

  lemma {:induction false} ToolUsesAreToolUses(content: seq<Block>)
    ensures forall i :: 0 <= i < |ToolUses(content)| ==> ToolUses(content)[i].ToolUse?
  {
    if content == [] {
    } else {
      ToolUsesAreToolUses(content[1..]);
    }
  }

  predicate InPool(pool: seq<Tool>, name: string)
  {
    exists i :: 0 <= i < |pool| && pool[i].name == name
  }

  /** One result per tool use, with its id, in its order. */
  predicate Answers(results: seq<ToolResult>, content: seq<Block>)
  {
    && |results| == |ToolUses(content)|
    && forall i :: 0 <= i < |results| ==>
          ToolUses(content)[i].ToolUse? && results[i].toolUseId == ToolUses(content)[i].id
  }

  /** Prompt first; then turns of an assistant message with tool uses and the answers to them. */
  predicate Conversation(messages: seq<Message>)
  {
    var n := |messages|;
    if n < 3 then messages == [Prompt]
    else
      && messages[n - 2].Assistant? && ToolUses(messages[n - 2].content) != []
      && messages[n - 1].Results? && Answers(messages[n - 1].results, messages[n - 2].content)
      && Conversation(messages[..n - 2])
  }

  /** The roles alternate: user messages (the prompt and the answers) at even positions, assistant messages at odd
      ones. */
  lemma {:induction false} RolesAlternate(messages: seq<Message>, i: nat)
    requires Conversation(messages) && i < |messages|
    ensures |messages| % 2 == 1 && (messages[i].Assistant? <==> i % 2 == 1)
  {
    var n := |messages|;
    if n >= 3 { RolesAlternate(messages[..n - 2], if i < n - 2 then i else 0); }
  }

  /** Each assistant message is followed by the answers to its tool uses: one each, with its id, in its order. */
  lemma {:induction false} UsesAnswered(messages: seq<Message>, k: nat)
    requires Conversation(messages) && 2 * k + 2 < |messages|
    ensures messages[2 * k + 1].Assistant? && messages[2 * k + 2].Results?
    ensures Answers(messages[2 * k + 2].results, messages[2 * k + 1].content)
  {
    var n := |messages|;
    RolesAlternate(messages, 0);
    if 2 * k + 2 < n - 1 { UsesAnswered(messages[..n - 2], k); }
  }

  /** All tool uses of a conversation, in order. */
  function AllUses(messages: seq<Message>): seq<Block>
  {
    if messages == [] then []
    else
      var last := messages[|messages| - 1];
      AllUses(messages[..|messages| - 1]) + if last.Assistant? then ToolUses(last.content) else []
  }

  /** The trace has one entry per tool use, in order; only tools of the pool were executed. */
  predicate Traces(trace: seq<TraceEntry>, uses: seq<Block>, pool: seq<Tool>)
  {
    && |trace| == |uses|
    && forall i :: 0 <= i < |trace| ==> TracesOne(trace[i], uses[i], pool)
  }

  predicate TracesOne(entry: TraceEntry, use: Block, pool: seq<Tool>)
  {
    && use.ToolUse? && entry.toolUseId == use.id && entry.name == use.name
    && (entry.executed <==> InPool(pool, entry.name)) && (entry.succeeded ==> entry.executed)
  }

  /** The names of the tools that were called. */
  function CalledNames(trace: seq<TraceEntry>): seq<string>
  {
    if trace == [] then []
    else
      var last := trace[|trace| - 1];
      CalledNames(trace[..|trace| - 1]) + if last.executed then [last.name] else []
  }

  lemma {:induction false} CalledNamesAppend(a: seq<TraceEntry>, b: seq<TraceEntry>)
    ensures CalledNames(a + b) == CalledNames(a) + CalledNames(b)
  {
    if b == [] {
      assert a + b == a;
    } else {
      assert (a + b)[..|a + b| - 1] == a + b[..|b| - 1];
      CalledNamesAppend(a, b[..|b| - 1]);
    }
  }

  lemma {:induction false} CalledFromPool(trace: seq<TraceEntry>, uses: seq<Block>, pool: seq<Tool>)
    requires Traces(trace, uses, pool)
    ensures forall n :: n in CalledNames(trace) ==> InPool(pool, n)
  {
    if trace == [] {
    } else {
      var i := |trace| - 1;
      assert TracesOne(trace[i], uses[i], pool);
      CalledFromPool(trace[..i], uses[..i], pool);
    }
  }

  predicate FromPool(called: seq<string>, pool: seq<Tool>)
  {
    forall n :: n in called ==> InPool(pool, n)
  }

  /** The loop's variables that grow: the messages, the trace, and the names of the tools called. */
  datatype Run = Run(messages: seq<Message>, trace: seq<TraceEntry>, called: seq<string>)

  /** What holds of them after `turns` turns: the assistant messages are the model's replies, each tool use has its
      answer and its trace entry, and the tools called are those that the trace marks. */
  ghost predicate Kept(run: Run, turns: nat, pool: seq<Tool>, model: nat -> ModelReply)
  {
    && Conversation(run.messages) && |run.messages| == 2 * turns + 1
    && (forall k :: 0 <= k < turns ==> model(k).Reply? && run.messages[2 * k + 1] == Assistant(model(k).content))
    && Traces(run.trace, AllUses(run.messages), pool)
    && run.called == CalledNames(run.trace)
  }

  /** One more turn of a conversation, with its part of the trace. */
  lemma {:induction false} Turn(run: Run, results: seq<ToolResult>, batch: seq<TraceEntry>, turns: nat, pool: seq<Tool>,
      model: nat -> ModelReply) returns (next: Run)
    requires Kept(run, turns, pool, model) && model(turns).Reply?
    requires var content := model(turns).content;
      ToolUses(content) != [] && Answers(results, content) && Traces(batch, ToolUses(content), pool)
    ensures next.messages == run.messages + [Assistant(model(turns).content), Results(results)]
    ensures next.trace == run.trace + batch && next.called == run.called + CalledNames(batch)
    ensures Kept(next, turns + 1, pool, model)
  {
    var content := model(turns).content;
    var messages := run.messages + [Assistant(content), Results(results)];
    next := Run(messages, run.trace + batch, run.called + CalledNames(batch));
    TurnTalks(run.messages, content, results);
    TracesAppend(run.trace, AllUses(run.messages), batch, ToolUses(content), pool);
    CalledNamesAppend(run.trace, batch);
    assert forall k :: 0 <= k < turns ==> messages[2 * k + 1] == run.messages[2 * k + 1];
  }

  lemma {:induction false} TracesAppend(trace: seq<TraceEntry>, uses: seq<Block>, batch: seq<TraceEntry>,
      more: seq<Block>,
      pool: seq<Tool>)
    requires Traces(trace, uses, pool) && Traces(batch, more, pool)
    ensures Traces(trace + batch, uses + more, pool)
  {
  }

  lemma {:induction false} TurnTalks(messages: seq<Message>, content: seq<Block>, results: seq<ToolResult>)
    requires Conversation(messages) && ToolUses(content) != [] && Answers(results, content)
    ensures var next := messages + [Assistant(content), Results(results)];
      Conversation(next) && AllUses(next) == AllUses(messages) + ToolUses(content)
  {
    var next := messages + [Assistant(content), Results(results)];
    assert next[..|next| - 2] == messages;
    AllUsesAppend(messages, Assistant(content));
    AllUsesAppend(messages + [Assistant(content)], Results(results));
    assert next == messages + [Assistant(content)] + [Results(results)];
  }

  lemma {:induction false} AllUsesAppend(messages: seq<Message>, m: Message)
    ensures AllUses(messages + [m]) == AllUses(messages) + if m.Assistant? then ToolUses(m.content) else []
  {
    assert (messages + [m])[..|messages|] == messages;
  }

  /** One result per trace entry, with its id, an error unless the tool succeeded. */
  predicate Reported(results: seq<ToolResult>, trace: seq<TraceEntry>)
  {
    && |results| == |trace|
    && forall i :: 0 <= i < |trace| ==> results[i] == ToolResult(trace[i].toolUseId, !trace[i].succeeded)
  }

  /** The trace says how the tools answered, of which the first is call number `index`, and that none of them threw. */
  predicate Recorded(trace: seq<TraceEntry>, index: nat, tool: nat -> ToolReply)
  {
    forall i :: 0 <= i < |trace| ==>
      && (trace[i].succeeded <==> trace[i].executed && tool(index + i).Succeeded?)
      && (trace[i].executed ==> !tool(index + i).ToolThrows?)
  }

  /** The calls of one batch of tool uses. `index` counts the tool calls of the run. A tool that throws was called,
      but leaves neither a result nor a trace entry. */
  method RunBatch(uses: seq<Block>, pool: seq<Tool>, index: nat, tool: nat -> ToolReply)
      returns (results: seq<ToolResult>, trace: seq<TraceEntry>, called: seq<string>, threw: bool)
    requires forall i :: 0 <= i < |uses| ==> uses[i].ToolUse?
    ensures |trace| + (if threw then 1 else 0) <= |uses| && (!threw ==> |trace| == |uses|)
    ensures BatchKept(results, trace, uses[..|trace|], pool, index, tool)
    ensures called == CalledNames(trace) + if threw then [uses[|trace|].name] else []
    ensures threw ==> InPool(pool, uses[|trace|].name) && tool(index + |trace|).ToolThrows?
  {
    results, trace, called, threw := [], [], [], false;
    for i := 0 to |uses|
      invariant |trace| == i && called == CalledNames(trace)
      invariant BatchKept(results, trace, uses[..i], pool, index, tool)
    {
      var executed := InPool(pool, uses[i].name);
      if executed { called := called + [uses[i].name]; }
      var reply := tool(index + i);
      if executed && reply.ToolThrows? { return results, trace, called, true; }
      var succeeded := executed && reply.Succeeded?;
      var entry := TraceEntry(uses[i].id, uses[i].name, executed, succeeded);
      assert uses[..i + 1] == uses[..i] + [uses[i]];
      BatchNext(results, trace, uses[..i], uses[i], entry, pool, index, tool);
      trace := trace + [entry];
      results := results + [ToolResult(uses[i].id, !succeeded)];
    }
  }

  /** What holds of the results and trace entries of the uses handled so far. */
  predicate BatchKept(results: seq<ToolResult>, trace: seq<TraceEntry>, uses: seq<Block>, pool: seq<Tool>, index: nat,
      tool: nat -> ToolReply)
  {
    Reported(results, trace) && Recorded(trace, index, tool) && Traces(trace, uses, pool)
  }

  lemma {:induction false} BatchNext(results: seq<ToolResult>, trace: seq<TraceEntry>, uses: seq<Block>, use: Block,
      entry: TraceEntry, pool: seq<Tool>, index: nat, tool: nat -> ToolReply)
    requires BatchKept(results, trace, uses, pool, index, tool) && TracesOne(entry, use, pool)
    requires entry.executed ==> !tool(index + |trace|).ToolThrows?
    requires entry.succeeded <==> entry.executed && tool(index + |trace|).Succeeded?
    ensures BatchKept(results + [ToolResult(use.id, !entry.succeeded)], trace + [entry], uses + [use], pool, index,
      tool)
    ensures CalledNames(trace + [entry]) == CalledNames(trace) + if entry.executed then [entry.name] else []
  {
    assert (trace + [entry])[..|trace|] == trace;
  }

  lemma AnswersAll(results: seq<ToolResult>, batch: seq<TraceEntry>, content: seq<Block>, pool: seq<Tool>)
    requires |batch| == |ToolUses(content)| && Reported(results, batch) &&
      Traces(batch, ToolUses(content)[..|batch|], pool)
    ensures Answers(results, content) && Traces(batch, ToolUses(content), pool)
  {
    assert ToolUses(content)[..|batch|] == ToolUses(content);
    assert forall i :: 0 <= i < |batch| ==> TracesOne(batch[i], ToolUses(content)[i], pool);
  }

  /** One turn of the loop: the tools of the model's reply are called, and the two messages added. */
  method RunTurn(run: Run, turns: nat, pool: seq<Tool>, model: nat -> ModelReply, index: nat, tool: nat -> ToolReply)
      returns (next: Run, handled: nat, threw: bool)
    requires Kept(run, turns, pool, model) && FromPool(run.called, pool)
    requires model(turns).Reply? && ToolUses(model(turns).content) != []
    ensures 0 < handled <= |ToolUses(model(turns).content)| && FromPool(next.called, pool)
    ensures !threw ==> Kept(next, turns + 1, pool, model) && |next.trace| == |run.trace| + handled
    ensures threw ==> tool(index + handled - 1).ToolThrows?
  {
    var content := model(turns).content;
    var uses := ToolUses(content);
    ToolUsesAreToolUses(content);
    var results, batch, called, failed := RunBatch(uses, pool, index, tool);
    CalledFromPool(batch, uses[..|batch|], pool);
    threw, handled := failed, |batch| + if failed then 1 else 0;
    if threw {
      next := Run(run.messages, run.trace + batch, run.called + called);
      return;
    }
    AnswersAll(results, batch, content, pool);
    ghost var kept := Turn(run, results, batch, turns, pool, model);
    next := Run(run.messages + [Assistant(content), Results(results)], run.trace + batch, run.called + called);
  }

  function AtLeastZero(n: int): nat { if n < 0 then 0 else n }

  /** The limit on tool calls is checked per batch of tool uses, so the calls made stay below the limit plus the size
      of the last batch handled, which is that of the model's reply number `last`. */
  ghost predicate WithinBatch(toolCalls: nat, maxToolCalls: int, last: nat, model: nat -> ModelReply)
  {
    toolCalls > 0 ==> model(last).Reply? && toolCalls < maxToolCalls + |ToolUses(model(last).content)|
  }

  /** Why the loop ended: the model gave no tool uses, or gave some when the limit was reached, or somebody threw. */
  ghost predicate EndsAs(ending: Ending, turns: nat, toolCalls: nat, maxToolCalls: int, model: nat -> ModelReply,
      tool: nat -> ToolReply)
  {
    match ending
    case Finished => model(turns).Reply? && ToolUses(model(turns).content) == []
    case LimitExceeded => model(turns).Reply? && ToolUses(model(turns).content) != [] && toolCalls >= maxToolCalls
    case Threw => model(turns).ModelThrows? || (toolCalls > 0 && tool(toolCalls - 1).ToolThrows?)
  }

  /** The loop of the executor's `run`: it ends after at most `maxToolCalls` turns, and so at most one model call
      more, whatever the model says. */
  method RunLoop(pool: seq<Tool>, maxToolCalls: int, model: nat -> ModelReply, tool: nat -> ToolReply)
      returns (run: Run, turns: nat, toolCalls: nat, ending: Ending, ghost last: nat)
    ensures turns <= AtLeastZero(maxToolCalls) && FromPool(run.called, pool)
    ensures toolCalls > 0 ==> last <= turns <= last + 1
    ensures WithinBatch(toolCalls, maxToolCalls, last, model)
    ensures ending != Threw ==> Kept(run, turns, pool, model) && |run.trace| == toolCalls
    ensures EndsAs(ending, turns, toolCalls, maxToolCalls, model, tool)
  {
    run, turns, toolCalls, last, ending := Run([Prompt], [], []), 0, 0, 0, Threw;
    assert AllUses([]) == [] && [Prompt][..0] == [];
    while model(turns).Reply? && ToolUses(model(turns).content) != []
      invariant turns <= AtLeastZero(maxToolCalls) && turns <= toolCalls == |run.trace|
      invariant Kept(run, turns, pool, model) && FromPool(run.called, pool)
      invariant toolCalls > 0 ==> last + 1 == turns
      invariant WithinBatch(toolCalls, maxToolCalls, last, model)
      decreases AtLeastZero(maxToolCalls - toolCalls)
    {
      if toolCalls >= maxToolCalls { ending := LimitExceeded; return; }
      var next, handled, threw := RunTurn(run, turns, pool, model, toolCalls, tool);
      run, toolCalls, last := next, toolCalls + handled, turns;
      if threw { return; }
      turns := turns + 1;
    }
    ending := if model(turns).Reply? then Finished else Threw;
  }

  // ---- the policy check in front of an executor --------------------------------------------------------------------

  datatype Capability = CodeTask | AnalysisTask | RepairTask
  datatype RuntimeType = CodeRuntime | ClaudeApi
  datatype TaskInput = TaskInput(capability: Capability, runtimeType: RuntimeType, profile: ProfileName, prod: bool,
    maxToolCalls: int, allowedTools: seq<string>)

  /** The executor made by `createCodeRuntimeExecutor`, with the tools its providers list, or any other. */
  datatype Executor = CodeExecutor(candidates: seq<Tool>) | OtherExecutor(serial: nat)

  datatype Refusal = WrongCapability | ToolsNotAllowed(tools: seq<string>) | NoExecutor
  datatype TaskResult = Blocked(refusal: Refusal) | RunBy(executor: Executor)

  function CapabilityName(c: Capability): string
  {
    match c
    case CodeTask => "code_task"
    case AnalysisTask => "analysis_task"
    case RepairTask => "repair_task"
  }

  function RuntimeTypeName(t: RuntimeType): string
  {
    if t.CodeRuntime? then "code_runtime" else "claude_api"
  }

  function ExecutorKey(t: RuntimeType, c: Capability): string { RuntimeTypeName(t) + ":" + CapabilityName(c) }

  /** A tool that this input may have called. */
  ghost predicate Permitted(input: TaskInput, tool: string)
  {
    && tool in input.allowedTools && Grants(input.profile, tool)
    && (input.prod ==> tool != "write_file" && tool != "edit_file")
  }

  class PolicyCheckedAgentRuntime {
    const executors: map<string, Executor>

    /** Every capability has an executor, if only the fallback. */
    predicate Valid()
    {
      forall c: Capability :: CapabilityName(c) in executors
    }

    constructor (executors: map<string, Executor>, fallback: Executor)
      ensures Valid()
      ensures forall k :: k in executors ==> k in this.executors && this.executors[k] == executors[k]
      ensures forall k :: k in this.executors && k !in executors ==> this.executors[k] == fallback
    {
      this.executors := map["code_task" := fallback, "analysis_task" := fallback, "repair_task" := fallback] +
        executors;
    }

    /** `run`: the executor is reached only by an input with the right capability and no forbidden tool; the one for
        the runtime type and the capability comes before the one for the capability. The refusal for want of an
        executor never happens. Whatever the model asks for, the code executor calls permitted tools only. A timeout
        changes the result, not what the executor does. */
    method Run(input: TaskInput, capability: Capability, leq: (string, string) -> bool, model: nat -> ModelReply,
        tool: nat -> ToolReply) returns (result: TaskResult, called: seq<string>)
      requires Valid() && TotalOrder(leq)
      ensures result == Blocked(WrongCapability) <==> input.capability != capability
      ensures input.capability == capability ==>
        (result.RunBy? <==> forall t :: t in input.allowedTools ==> Permitted(input, t))
      ensures result.Blocked? && result.refusal.ToolsNotAllowed? ==>
        forall t :: t in result.refusal.tools <==> t in input.allowedTools && !Permitted(input, t)
      ensures result != Blocked(NoExecutor)
      ensures result.RunBy? ==>
        var key := (if input.runtimeType == CodeRuntime then "code_runtime" else "claude_api") + ":" +
          CapabilityName(capability);
        result.executor == executors[if key in executors then key else CapabilityName(capability)]
      ensures result.Blocked? ==> called == []
      ensures forall n :: n in called ==> Permitted(input, n)
    {
      called := [];
      if input.capability != capability { return Blocked(WrongCapability), called; }
      var blocked := CheckTaskPermissions(input.profile, input.prod, input.allowedTools);
      ForbiddenMeans(input);
      if |blocked| > 0 {
        assert blocked[0] in blocked;
        return Blocked(ToolsNotAllowed(blocked)), called;
      }
      assert forall t :: t in input.allowedTools ==> t !in blocked;
      var key := ExecutorKey(input.runtimeType, capability);
      var name := if key in executors then key else CapabilityName(capability);
      result := RunBy(executors[name]);
      if result.executor.CodeExecutor? {
        called := RunCode(input, result.executor.candidates, leq, model, tool);
      }
    }
  }

  lemma ForbiddenMeans(input: TaskInput)
    ensures forall t :: t in input.allowedTools ==> (Permitted(input, t) <==> !Forbidden(input.profile, input.prod, t))
  {
  }

  /** The code executor: it assembles its pool from the allowed tools and runs the loop. */
  method RunCode(input: TaskInput, candidates: seq<Tool>, leq: (string, string) -> bool, model: nat -> ModelReply,
      tool: nat -> ToolReply) returns (called: seq<string>)
    requires TotalOrder(leq)
    ensures forall n :: n in called ==> n in input.allowedTools && Named(candidates, n)
  {
    var pool := AssembleToolPool(input.allowedTools, candidates, leq);
    var run, turns, toolCalls, ending, last := RunLoop(pool, input.maxToolCalls, model, tool);
    called := run.called;
    forall n | n in called ensures n in input.allowedTools && Named(candidates, n) {
      assert InPool(pool, n);
      var i :| 0 <= i < |pool| && pool[i].name == n;
      assert pool[i] in pool && Stands(candidates, pool[i]);
    }
  }
}
