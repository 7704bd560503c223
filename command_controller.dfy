// The command catalogue endpoints
// (crates/web_service/src/controllers/command_controller.rs): workflows
// (Markdown files in the workflows directory), skills and MCP tools, each
// turned into a command item, merged and sorted by name; and the lookup of
// one command's content. The directory listing, the skill store and the
// MCP manager's tool index are parameters.
module CommandController {
  import opened Wrappers
  import opened Strings
  import opened JsonValue
  import opened AppErrors
  import opened McpTypes
  import FsPath
  import SeqUtil

  datatype CommandItem = CommandItem(
    id: string,
    name: string,
    displayName: string,
    description: string,
    commandType: string,
    category: Option<string>,
    tags: Option<seq<string>>,
    metadata: Json)

  datatype CommandListResponse = CommandListResponse(commands: seq<CommandItem>, total: nat)

  /** A skill as the skill store returns it; `visibility` is its serialised form. */
  datatype SkillDefinition = SkillDefinition(
    id: string, name: string, description: string, category: string, tags: seq<string>,
    prompt: string, toolRefs: seq<string>, workflowRefs: seq<string>, visibility: string)

  /** A directory entry: its file name and the outcome of reading its metadata (the size). */
  datatype DirEntry = DirEntry(fileName: string, size: Result<nat, string>)

  /** The workflows directory: creating it or opening it can fail; reading each entry can fail. */
  datatype WorkflowsDir =
    | CreateFailed(error: string)
    | ReadDirFailed(error: string)
    | Listed(entries: seq<Result<DirEntry, string>>)

  const MCP_CATEGORY := "MCP Tools"

  function StrArray(xs: seq<string>): (r: Json)
    ensures r.Arr? && |r.items| == |xs|
  {
    Arr(SeqUtil.Map(xs, (x: string) => Str(x)))
  }

  // ------------------------------------------------------------------ workflows

  /** A Markdown file, by its extension; its stem names the workflow. */
  function WorkflowName(fileName: string): (r: Option<string>)
    ensures r.Some? ==> r.value != [] && fileName == r.value + ".md"
  {
    var (stem, ext) := FsPath.SplitExtension(fileName);
    if ext != Some("md") then None
    else if stem == [] then None  // cannot happen: a name whose only dot is its first has no extension
    else Some(stem)
  }

  function WorkflowCommand(name: string, fileName: string, size: nat): (c: CommandItem)
  {
    CommandItem("workflow-" + name, name, name, "Workflow: " + name, "workflow", None, None,
                Obj(map["filename" := Str(fileName), "size" := Num(size), "source" := Str("global")]))
  }

  /** A workflow command as listed: its id is `workflow-` and its non-empty name, which is the stem of a `.md` file. */
  predicate IsWorkflowCommand(c: CommandItem)
  {
    && c.commandType == "workflow" && c.name != [] && c.id == "workflow-" + c.name
    && c.displayName == c.name && c.category.None?
    && Get(c.metadata, "filename") == Some(Str(c.name + ".md"))
  }

  /** What one directory entry contributes to the listing. */
  datatype EntryOutcome = Skip | Add(command: CommandItem) | Fail(error: AppError)

  /** One entry: a read error fails the listing; a non-Markdown file is skipped; a Markdown file's size must be readable. */
  function EntryStep(entry: Result<DirEntry, string>): (r: EntryOutcome)
    ensures r.Add? ==> IsWorkflowCommand(r.command)
    ensures r.Fail? ==> r.error.InternalError?
    ensures entry.Err? ==> r == Fail(InternalError("Failed to read entry: " + entry.error))
    ensures entry.Ok? && WorkflowName(entry.value.fileName).None? ==> r.Skip?
    ensures entry.Ok? && WorkflowName(entry.value.fileName).Some? && entry.value.size.Err? ==>
              r == Fail(InternalError("Failed to read metadata: " + entry.value.size.error))
    ensures entry.Ok? && WorkflowName(entry.value.fileName).Some? && entry.value.size.Ok? ==>
              r == Add(WorkflowCommand(WorkflowName(entry.value.fileName).value, entry.value.fileName, entry.value.size.value))
  {
    match entry
    case Err(e) => Fail(InternalError("Failed to read entry: " + e))
    case Ok(d) =>
      match WorkflowName(d.fileName)
      case None => Skip
      case Some(name) =>
        match d.size
        case Err(e) => Fail(InternalError("Failed to read metadata: " + e))
        case Ok(size) =>
          assert Get(WorkflowCommand(name, d.fileName, size).metadata, "filename") == Some(Str(d.fileName));
          Add(WorkflowCommand(name, d.fileName, size))
  }

  /** The workflow commands of the listed entries, in listing order; the first failing entry fails the whole listing. */
  function WorkflowCommands(entries: seq<Result<DirEntry, string>>): (r: Result<seq<CommandItem>, AppError>)
    ensures r.Ok? ==> |r.value| <= |entries|
  {
    if entries == [] then Ok([])
    else
      match EntryStep(entries[0])
      case Skip => WorkflowCommands(entries[1..])
      case Fail(e) => Err(e)
      case Add(c) =>
        match WorkflowCommands(entries[1..])
        case Err(e) => Err(e)
        case Ok(rest) => Ok([c] + rest)
  }

  /** Every listed workflow command names a non-empty `.md` stem, and a failure is always an internal error. */
  lemma {:induction false} WorkflowCommandsShape(entries: seq<Result<DirEntry, string>>)
    ensures var r := WorkflowCommands(entries);
            && (r.Ok? ==> forall c :: c in r.value ==> IsWorkflowCommand(c))
            && (r.Err? ==> r.error.InternalError?)
  {
    if entries != [] {
      WorkflowCommandsShape(entries[1..]);
    }
  }

  /** The command an entry adds to the listing, if any. */
  function AddedCommand(entry: Result<DirEntry, string>): Option<CommandItem>
  {
    if EntryStep(entry).Add? then Some(EntryStep(entry).command) else None
  }

  /**
   * The listing succeeds exactly when no entry fails, and then it holds the
   * commands of the Markdown entries, in directory order; otherwise its
   * error is that of the first failing entry.
   */
  lemma {:induction false} WorkflowCommandsExact(entries: seq<Result<DirEntry, string>>)
    ensures WorkflowCommands(entries).Ok? <==> forall i :: 0 <= i < |entries| ==> !EntryStep(entries[i]).Fail?
    ensures WorkflowCommands(entries).Ok? ==> WorkflowCommands(entries).value == SeqUtil.FilterMap(entries, AddedCommand)
    ensures WorkflowCommands(entries).Err? ==>
              exists i :: 0 <= i < |entries| && EntryStep(entries[i]) == Fail(WorkflowCommands(entries).error)
                          && forall j :: 0 <= j < i ==> !EntryStep(entries[j]).Fail?
  {
    if entries != [] {
      var tail := entries[1..];
      WorkflowCommandsExact(tail);
      assert forall i :: 0 < i < |entries| ==> entries[i] == tail[i - 1];
      var r := WorkflowCommands(entries);
      if r.Err? && !EntryStep(entries[0]).Fail? {
        var k :| 0 <= k < |tail| && EntryStep(tail[k]) == Fail(WorkflowCommands(tail).error)
                 && forall j :: 0 <= j < k ==> !EntryStep(tail[j]).Fail?;
        assert EntryStep(entries[k + 1]) == Fail(r.error);
        forall j | 0 <= j < k + 1 ensures !EntryStep(entries[j]).Fail? {
          if j > 0 {
            assert entries[j] == tail[j - 1];
          }
        }
      }
    }
  }

  /** `acc` followed by the outcome of the rest of the listing. */
  function Prepend(acc: seq<CommandItem>, r: Result<seq<CommandItem>, AppError>): Result<seq<CommandItem>, AppError>
  {
    if r.Ok? then Ok(acc + r.value) else r
  }

  /** One step of the listing loop, on the outcome still to come. */
  lemma PrependStep(acc: seq<CommandItem>, entries: seq<Result<DirEntry, string>>, i: nat)
    requires i < |entries|
    ensures EntryStep(entries[i]).Skip? ==> Prepend(acc, WorkflowCommands(entries[i..])) == Prepend(acc, WorkflowCommands(entries[i + 1..]))
    ensures EntryStep(entries[i]).Fail? ==> Prepend(acc, WorkflowCommands(entries[i..])) == Err(EntryStep(entries[i]).error)
    ensures EntryStep(entries[i]).Add? ==>
              Prepend(acc, WorkflowCommands(entries[i..])) == Prepend(acc + [EntryStep(entries[i]).command], WorkflowCommands(entries[i + 1..]))
  {
    var tail := entries[i..];
    assert tail[0] == entries[i] && tail[1..] == entries[i + 1..];
    var rest := WorkflowCommands(entries[i + 1..]);
    match EntryStep(entries[i])
    case Skip =>
      assert WorkflowCommands(tail) == rest;
    case Fail(e) =>
      assert WorkflowCommands(tail) == Err(e);
    case Add(c) =>
      if rest.Ok? {
        assert WorkflowCommands(tail) == Ok([c] + rest.value);
        assert acc + ([c] + rest.value) == acc + [c] + rest.value;
      } else {
        assert WorkflowCommands(tail) == rest;
      }
  }

  /** What listing the workflows directory yields. */
  function WorkflowListing(dir: WorkflowsDir): (r: Result<seq<CommandItem>, AppError>)
    ensures r.Err? ==> r.error.InternalError?
    ensures dir.CreateFailed? ==> r == Err(InternalError("Failed to create workflows dir: " + dir.error))
    ensures dir.ReadDirFailed? ==> r == Err(InternalError("Failed to read workflows dir: " + dir.error))
    ensures dir.Listed? ==> r == WorkflowCommands(dir.entries)
  {
    WorkflowCommandsShape(if dir.Listed? then dir.entries else []);
    match dir
    case CreateFailed(e) => Err(InternalError("Failed to create workflows dir: " + e))
    case ReadDirFailed(e) => Err(InternalError("Failed to read workflows dir: " + e))
    case Listed(entries) => WorkflowCommands(entries)
  }

  /** `list_workflows_as_commands` */
  method ListWorkflowsAsCommands(dir: WorkflowsDir) returns (r: Result<seq<CommandItem>, AppError>)
    ensures r == WorkflowListing(dir)
  {
    match dir {
      case CreateFailed(e) => return Err(InternalError("Failed to create workflows dir: " + e));
      case ReadDirFailed(e) => return Err(InternalError("Failed to read workflows dir: " + e));
      case Listed(entries) =>
        var commands: seq<CommandItem> := [];
        assert entries[0..] == entries;
        assert WorkflowCommands(entries).Ok? ==> [] + WorkflowCommands(entries).value == WorkflowCommands(entries).value;
        for i := 0 to |entries|
          invariant Prepend(commands, WorkflowCommands(entries[i..])) == WorkflowCommands(entries)
        {
          PrependStep(commands, entries, i);
          match EntryStep(entries[i]) {
            case Skip =>
            case Fail(e) => return Err(e);
            case Add(c) => commands := commands + [c];
          }
        }
        assert entries[|entries|..] == [];
        assert commands + [] == commands;
        r := Ok(commands);
    }
  }

  // ------------------------------------------------------------------ skills and MCP tools

  /** `skill_to_command` */
  function SkillToCommand(skill: SkillDefinition): (c: CommandItem)
    ensures c.id == "skill-" + skill.id && c.name == skill.id && c.displayName == skill.name
    ensures c.commandType == "skill" && c.category == Some(skill.category) && c.tags == Some(skill.tags)
  {
    CommandItem("skill-" + skill.id, skill.id, skill.name, skill.description, "skill", Some(skill.category), Some(skill.tags),
                Obj(map["prompt" := Str(skill.prompt), "toolRefs" := StrArray(skill.toolRefs),
                        "workflowRefs" := StrArray(skill.workflowRefs), "visibility" := Str(skill.visibility)]))
  }

  /** The command for an MCP tool alias, when the manager knows the tool. */
  function McpCommand(a: ToolAlias, info: Option<McpTool>): (r: Option<CommandItem>)
    ensures r.Some? <==> info.Some?
    ensures r.Some? ==> r.value.id == "mcp-" + a.serverId + "-" + a.originalName && r.value.name == a.alias
    ensures r.Some? ==> r.value.commandType == "mcp" && r.value.category == Some(MCP_CATEGORY)
  {
    match info
    case None => None
    case Some(tool) =>
      Some(CommandItem("mcp-" + a.serverId + "-" + a.originalName, a.alias, a.alias, tool.description, "mcp",
                       Some(MCP_CATEGORY), None,
                       Obj(map["serverId" := Str(a.serverId), "originalName" := Str(a.originalName)])))
  }

  /** `list_mcp_tools_as_commands`: aliases whose tool the manager does not know are dropped. */
  function McpCommands(aliases: seq<ToolAlias>, toolInfo: (string, string) -> Option<McpTool>): (r: seq<CommandItem>)
    ensures |r| <= |aliases|
    ensures forall c :: c in r ==> c.commandType == "mcp" && c.category == Some(MCP_CATEGORY) && StartsWith(c.id, "mcp-")
    ensures (forall i :: 0 <= i < |aliases| ==> toolInfo(aliases[i].serverId, aliases[i].originalName).Some?) ==>
              |r| == |aliases| &&
              forall i :: 0 <= i < |aliases| ==>
                r[i].name == aliases[i].alias && r[i].id == "mcp-" + aliases[i].serverId + "-" + aliases[i].originalName
    ensures forall i :: 0 <= i < |aliases| && toolInfo(aliases[i].serverId, aliases[i].originalName).Some? ==>
              McpCommand(aliases[i], toolInfo(aliases[i].serverId, aliases[i].originalName)).value in r
    ensures forall c :: c in r ==>
              exists i :: 0 <= i < |aliases| && McpCommand(aliases[i], toolInfo(aliases[i].serverId, aliases[i].originalName)) == Some(c)
  {
    var f := (a: ToolAlias) => McpCommand(a, toolInfo(a.serverId, a.originalName));
    var r := SeqUtil.FilterMap(aliases, f);
    forall c | c in r ensures c.commandType == "mcp" && c.category == Some(MCP_CATEGORY) && StartsWith(c.id, "mcp-") {
      var i :| 0 <= i < |aliases| && f(aliases[i]) == Some(c);
      var a := aliases[i];
      assert McpCommand(a, toolInfo(a.serverId, a.originalName)) == Some(c);
      assert c.id == "mcp-" + (a.serverId + "-" + a.originalName);
      StartsWithAppend("mcp-", a.serverId + "-" + a.originalName);
    }
    forall i | 0 <= i < |aliases| && toolInfo(aliases[i].serverId, aliases[i].originalName).Some?
      ensures McpCommand(aliases[i], toolInfo(aliases[i].serverId, aliases[i].originalName)).value in r
    {
      SeqUtil.FilterMapKeeps(aliases, f, i);
    }
    r
  }

  /** The commands of two runs of aliases are those of the first run followed by those of the second. */
  lemma McpCommandsSplit(aliases: seq<ToolAlias>, k: nat, toolInfo: (string, string) -> Option<McpTool>)
    requires k <= |aliases|
    ensures McpCommands(aliases, toolInfo) == McpCommands(aliases[..k], toolInfo) + McpCommands(aliases[k..], toolInfo)
  {
    var f := (a: ToolAlias) => McpCommand(a, toolInfo(a.serverId, a.originalName));
    assert aliases == aliases[..k] + aliases[k..];
    SeqUtil.FilterMapAppend(aliases[..k], aliases[k..], f);
  }

  /** An alias whose tool is unknown contributes nothing; a known one contributes exactly its command. */
  lemma McpCommandsOne(a: ToolAlias, toolInfo: (string, string) -> Option<McpTool>)
    ensures toolInfo(a.serverId, a.originalName).None? ==> McpCommands([a], toolInfo) == []
    ensures toolInfo(a.serverId, a.originalName).Some? ==>
              McpCommands([a], toolInfo) == [McpCommand(a, toolInfo(a.serverId, a.originalName)).value]
  {
    var f := (a: ToolAlias) => McpCommand(a, toolInfo(a.serverId, a.originalName));
    assert [a][1..] == [];
    assert SeqUtil.FilterMap([a][1..], f) == [];
  }

  // ------------------------------------------------------------------ sorting

  /** Ordered by name, as `sort_by(|a, b| a.name.cmp(&b.name))` leaves them. */
  predicate SortedByName(cs: seq<CommandItem>)
  {
    forall i, j :: 0 <= i < j < |cs| ==> LexLe(cs[i].name, cs[j].name)
  }

  /** A name not above the first of a sorted list is not above any of it. */
  lemma BelowSortedHead(sorted: seq<CommandItem>, name: string)
    requires SortedByName(sorted) && sorted != [] && LexLe(name, sorted[0].name)
    ensures forall j :: 0 <= j < |sorted| ==> LexLe(name, sorted[j].name)
  {
    forall j | 0 < j < |sorted| ensures LexLe(name, sorted[j].name) {
      LexLeTransitive(name, sorted[0].name, sorted[j].name);
    }
  }

  /** The head of a sorted list is not above anything of its tail with `c` added, when it is not above `c`. */
  lemma HeadBelowInserted(sorted: seq<CommandItem>, c: CommandItem, rest: seq<CommandItem>)
    requires SortedByName(sorted) && sorted != [] && LexLe(sorted[0].name, c.name)
    requires multiset(rest) == multiset(sorted[1..]) + multiset{c}
    ensures forall x :: x in rest ==> LexLe(sorted[0].name, x.name)
  {
    forall x | x in rest ensures LexLe(sorted[0].name, x.name) {
      assert x in multiset(rest);
      if x != c {
        assert x in multiset(sorted[1..]);
        var k :| 0 <= k < |sorted[1..]| && sorted[1..][k] == x;
        assert sorted[k + 1] == x;
      }
    }
  }

  /** Prepending a command not above any of a sorted list keeps it sorted. */
  lemma ConsSorted(head: CommandItem, rest: seq<CommandItem>)
    requires SortedByName(rest)
    requires forall x :: x in rest ==> LexLe(head.name, x.name)
    ensures SortedByName([head] + rest)
  {
    var r := [head] + rest;
    forall i, j | 0 <= i < j < |r| ensures LexLe(r[i].name, r[j].name) {
      if i == 0 {
        assert r[j] == rest[j - 1];
        assert r[j] in rest;
      } else {
        assert r[i] == rest[i - 1] && r[j] == rest[j - 1];
      }
    }
  }

  /** Inserts `c` after every command whose name is not greater, keeping the order of equal names. */
  function InsertByName(sorted: seq<CommandItem>, c: CommandItem): (r: seq<CommandItem>)
    requires SortedByName(sorted)
    ensures SortedByName(r)
    ensures multiset(r) == multiset(sorted) + multiset{c}
  {
    if sorted == [] then [c]
    else if LexLe(c.name, sorted[0].name) && c.name != sorted[0].name then
      BelowSortedHead(sorted, c.name);
      ConsSorted(c, sorted);
      [c] + sorted
    else
      LexLeTotal(c.name, sorted[0].name);
      var rest := InsertByName(sorted[1..], c);
      assert sorted == [sorted[0]] + sorted[1..];
      HeadBelowInserted(sorted, c, rest);
      ConsSorted(sorted[0], rest);
      [sorted[0]] + rest
  }

  /** The in-place sort of `list_commands`, as insertion into a sorted prefix. */
  method SortByName(cs: seq<CommandItem>) returns (sorted: seq<CommandItem>)
    ensures SortedByName(sorted)
    ensures multiset(sorted) == multiset(cs)
  {
    sorted := [];
    for i := 0 to |cs|
      invariant SortedByName(sorted)
      invariant multiset(sorted) == multiset(cs[..i])
    {
      sorted := InsertByName(sorted, cs[i]);
      assert cs[..i + 1] == cs[..i] + [cs[i]];
    }
    assert cs[..|cs|] == cs;
  }

  // ------------------------------------------------------------------ listing and lookup

  /** Every command the three sources contribute, before sorting; a workflow failure contributes none. */
  function Gathered(workflows: Result<seq<CommandItem>, AppError>, skills: seq<SkillDefinition>,
                    aliases: seq<ToolAlias>, toolInfo: (string, string) -> Option<McpTool>): seq<CommandItem>
  {
    (if workflows.Ok? then workflows.value else []) + SeqUtil.Map(skills, SkillToCommand) + McpCommands(aliases, toolInfo)
  }

  /**
   * `list_commands`: the workflows (when they could be listed), every skill
   * and every known MCP tool, sorted by name, with their number.
   */
  method ListCommands(dir: WorkflowsDir, skills: seq<SkillDefinition>, aliases: seq<ToolAlias>,
                      toolInfo: (string, string) -> Option<McpTool>)
    returns (response: CommandListResponse)
    ensures SortedByName(response.commands)
    ensures response.total == |response.commands|
    ensures multiset(response.commands) == multiset(Gathered(WorkflowListing(dir), skills, aliases, toolInfo))
  {
    var commands := [];
    var workflows := ListWorkflowsAsCommands(dir);
    if workflows.Ok? {
      commands := commands + workflows.value;
    }
    commands := commands + SeqUtil.Map(skills, SkillToCommand);
    commands := commands + McpCommands(aliases, toolInfo);
    assert commands == Gathered(workflows, skills, aliases, toolInfo);
    commands := SortByName(commands);
    response := CommandListResponse(commands, |commands|);
  }

  /** A command whose id carries the prefix of its type. */
  predicate TypedId(c: CommandItem)
  {
    || (c.commandType == "workflow" && StartsWith(c.id, "workflow-"))
    || (c.commandType == "skill" && StartsWith(c.id, "skill-"))
    || (c.commandType == "mcp" && StartsWith(c.id, "mcp-"))
  }

  lemma TypedIdTellsType(c: CommandItem)
    requires TypedId(c)
    ensures c.commandType == "workflow" <==> StartsWith(c.id, "workflow-")
    ensures c.commandType == "skill" <==> StartsWith(c.id, "skill-")
    ensures c.commandType == "mcp" <==> StartsWith(c.id, "mcp-")
  {
    assert "workflow-"[0] == 'w' && "skill-"[0] == 's' && "mcp-"[0] == 'm';
    assert c.id[0] == (if c.commandType == "workflow" then 'w' else if c.commandType == "skill" then 's' else 'm');
  }

  /** The three sources give ids with distinct prefixes, so a listed command's id tells its type. */
  lemma IdTellsType(dir: WorkflowsDir, skills: seq<SkillDefinition>, aliases: seq<ToolAlias>,
                    toolInfo: (string, string) -> Option<McpTool>, c: CommandItem)
    requires c in Gathered(WorkflowListing(dir), skills, aliases, toolInfo)
    ensures c.commandType == "workflow" <==> StartsWith(c.id, "workflow-")
    ensures c.commandType == "skill" <==> StartsWith(c.id, "skill-")
    ensures c.commandType == "mcp" <==> StartsWith(c.id, "mcp-")
  {
    var workflows := WorkflowListing(dir);
    var w := if workflows.Ok? then workflows.value else [];
    var s := SeqUtil.Map(skills, SkillToCommand);
    var m := McpCommands(aliases, toolInfo);
    assert c in w || c in s || c in m;
    if c in w {
      WorkflowCommandsShape(dir.entries);
      assert IsWorkflowCommand(c);
      StartsWithAppend("workflow-", c.name);
    } else if c in s {
      var i :| 0 <= i < |s| && s[i] == c;
      StartsWithAppend("skill-", skills[i].id);
    }
    assert TypedId(c);
    TypedIdTellsType(c);
  }

  /** The workflow file behind an id, when it exists: its content or the read error. */
  type WorkflowFile = Option<Result<string, string>>

  /** `get_command`: only workflows and skills have content to retrieve. */
  function GetCommand(commandType: string, id: string, workflow: WorkflowFile, skill: Result<Json, string>)
    : (r: Result<Json, AppError>)
    ensures r.Ok? ==> commandType == "workflow" || commandType == "skill"
    ensures commandType == "mcp" ==> r == Err(NotFound("MCP tools do not support content retrieval"))
    ensures commandType != "workflow" && commandType != "skill" && commandType != "mcp" ==>
              r == Err(NotFound("Unknown command type: " + commandType))
    ensures commandType == "workflow" && workflow.None? ==> r == Err(NotFound("Workflow " + id + " not found"))
    ensures commandType == "workflow" && workflow.Some? && workflow.value.Ok? ==>
              r.Ok? && GetStr(r.value, "content") == Some(workflow.value.value) && GetStr(r.value, "name") == Some(id)
    ensures commandType == "workflow" && workflow.Some? && workflow.value.Err? ==>
              r == Err(InternalError("Failed to read workflow: " + workflow.value.error))
    ensures commandType == "skill" && skill.Ok? ==> r == Ok(skill.value)
    ensures commandType == "skill" && skill.Err? ==> r == Err(NotFound("Skill " + id + " not found: " + skill.error))
  {
    match commandType
    case "workflow" =>
      (match workflow
       case None => Err(NotFound("Workflow " + id + " not found"))
       case Some(Err(e)) => Err(InternalError("Failed to read workflow: " + e))
       case Some(Ok(content)) =>
         Ok(Obj(map["id" := Str("workflow-" + id), "name" := Str(id), "content" := Str(content), "type" := Str("workflow")])))
    case "skill" =>
      (match skill
       case Ok(s) => Ok(s)
       case Err(e) => Err(NotFound("Skill " + id + " not found: " + e)))
    case "mcp" => Err(NotFound("MCP tools do not support content retrieval"))
    case _ => Err(NotFound("Unknown command type: " + commandType))
  }

  /**
   * A command the workflow listing gave comes from a directory entry named
   * after it with ".md", and looking that name up reads the same file and
   * reports the same id.
   */
  lemma WorkflowLookupAgreesWithListing(entries: seq<Result<DirEntry, string>>, c: CommandItem,
                                        content: string, skill: Result<Json, string>)
    requires WorkflowCommands(entries).Ok? && c in WorkflowCommands(entries).value
    ensures exists i :: 0 <= i < |entries| && entries[i].Ok? && entries[i].value.fileName == c.name + ".md"
    ensures Get(GetCommand("workflow", c.name, Some(Ok(content)), skill).value, "id") == Some(Str(c.id))
  {
    WorkflowCommandsExact(entries);
    var i :| 0 <= i < |entries| && AddedCommand(entries[i]) == Some(c);
    AddedCommandNamed(entries[i], c);
    WorkflowContentId(c.name, content, skill);
  }

  /** Every non-empty name, given the `.md` extension, is listed under that name. */
  lemma WorkflowNameOfFile(name: string)
    requires name != []
    ensures WorkflowName(name + ".md") == Some(name)
  {
    FsPath.SplitExtensionAppend(name, "md");
    assert name + "." + "md" == name + ".md";
  }

  /** A command an entry adds is named after the entry's `.md` file and has the workflow id. */
  lemma AddedCommandNamed(entry: Result<DirEntry, string>, c: CommandItem)
    requires AddedCommand(entry) == Some(c)
    ensures entry.Ok? && entry.value.fileName == c.name + ".md" && c.id == "workflow-" + c.name
  {
    var name := WorkflowName(entry.value.fileName).value;
    assert c == WorkflowCommand(name, entry.value.fileName, entry.value.size.value);
  }

  /** The content of a workflow reports the workflow id of its name. */
  lemma WorkflowContentId(name: string, content: string, skill: Result<Json, string>)
    ensures Get(GetCommand("workflow", name, Some(Ok(content)), skill).value, "id") == Some(Str("workflow-" + name))
  {
  }
}
