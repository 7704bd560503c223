// The built-in `read_file` tool (crates/agent-tools/src/tools/read_file.rs):
// `~/` expansion, the `..` guard and the mapping of the read's outcome to a
// tool result. The home directory (`dirs::home_dir`) and the file read are
// parameters.
module ReadFileTool {
  import opened Wrappers
  import opened Strings
  import opened JsonValue
  import opened ToolTypes
  import FsPath

  /** Reading a file: its text, or the error's message. */
  type Reader = string -> Result<string, string>

  const TRAVERSAL_ERROR := "Invalid path: contains '..'"
  const MISSING_PATH := "Missing 'path' parameter"

  /** `expand_path`: a leading `~/` is replaced by the home directory when there is one. */
  function ExpandPath(path: string, home: Option<string>): (r: string)
    ensures !StartsWith(path, "~/") || home.None? ==> r == path
    ensures StartsWith(path, "~/") && home.Some? ==> r == FsPath.Join(home.value, path[2..])
  {
    if StartsWith(path, "~/") && home.Some? then FsPath.Join(home.value, path[2..]) else path
  }

  /** A relative path under `~/` lands under the home directory and keeps its tail. */
  lemma ExpandUnderHome(rest: string, home: string)
    requires home != [] && !StartsWith(rest, "/")
    ensures StartsWith(ExpandPath("~/" + rest, Some(home)), home)
    ensures EndsWith(ExpandPath("~/" + rest, Some(home)), rest)
  {
    StartsWithAppend("~/", rest);
    assert ("~/" + rest)[2..] == rest;
  }

  /** With an absolute home directory, expanding twice is expanding once. */
  lemma ExpandPathIdempotent(path: string, home: Option<string>)
    requires home.Some? ==> home.value != [] && home.value[0] == '/'
    ensures ExpandPath(ExpandPath(path, home), home) == ExpandPath(path, home)
  {
    var e := ExpandPath(path, home);
    if StartsWith(path, "~/") && home.Some? {
      var rest := path[2..];
      if !StartsWith(rest, "/") {
        assert e[0] == home.value[0];
      }
      assert e[0] == '/';
    }
  }

  /** `read_file`: the guard applies to the expanded path, before anything is read. */
  function ReadFile(path: string, home: Option<string>, read: Reader): (r: Result<string, string>)
    ensures Contains(ExpandPath(path, home), "..") ==> r == Err(TRAVERSAL_ERROR)
    ensures !Contains(ExpandPath(path, home), "..") ==>
              var expanded := ExpandPath(path, home);
              && (read(expanded).Ok? ==> r == read(expanded))
              && (read(expanded).Err? ==> r == Err("Failed to read file '" + expanded + "': " + read(expanded).error))
  {
    var expanded := ExpandPath(path, home);
    if Contains(expanded, "..") then Err(TRAVERSAL_ERROR)
    else
      match read(expanded)
      case Ok(content) => Ok(content)
      case Err(e) => Err("Failed to read file '" + expanded + "': " + e)
  }

  /** `ReadFileTool::execute`: a failed read is a result with `success = false`, not an error. */
  function Execute(args: Json, home: Option<string>, read: Reader): (r: Result<ToolResult, ToolError>)
    ensures GetStr(args, "path").None? <==> r.Err?
    ensures r.Err? ==> r.error == InvalidArguments(MISSING_PATH)
    ensures r.Ok? ==>
              var outcome := ReadFile(GetStr(args, "path").value, home, read);
              && (r.value.success <==> outcome.Ok?)
              && (outcome.Ok? ==> r.value == ToolResult(true, outcome.value, Some("markdown")))
              && (outcome.Err? ==> r.value == ToolResult(false, outcome.error, None))
  {
    match GetStr(args, "path")
    case None => Err(InvalidArguments(MISSING_PATH))
    case Some(path) =>
      match ReadFile(path, home, read)
      case Ok(content) => Ok(ToolResult(true, content, Some("markdown")))
      case Err(e) => Ok(ToolResult(false, e, None))
  }

  /**
   * A successful result is exactly the content of a file whose path, after
   * expansion, has no `..`; a path with `..` fails the same way whatever the
   * file system holds.
   */
  lemma SuccessReadsOnlySafePaths(args: Json, home: Option<string>, read: Reader, other: Reader)
    requires Execute(args, home, read).Ok?
    ensures var expanded := ExpandPath(GetStr(args, "path").value, home);
            && (Execute(args, home, read).value.success ==>
                  !Contains(expanded, "..") && read(expanded) == Ok(Execute(args, home, read).value.result))
            && (Contains(expanded, "..") ==>
                  Execute(args, home, read) == Execute(args, home, other) == Ok(ToolResult(false, TRAVERSAL_ERROR, None)))
  {
  }

  /** The traversal case of the tool's own test: `/etc/../etc/passwd` is refused. */
  lemma TraversalRefused(read: Reader, home: Option<string>)
    ensures ReadFile("/etc/../etc/passwd", home, read) == Err(TRAVERSAL_ERROR)
  {
    var p := "/etc/../etc/passwd";
    assert p[0] == '/';
    assert !StartsWith(p, "~/");
    assert p[5..][..2] == "..";
    assert StartsWith(p[5..], "..");
  }
}
