// The layout of the `.bamboo` data directory (crates/chat_core/src/paths.rs):
// where it lives, its child paths, which files count as sessions and the
// one-time move of those into `sessions/`, and loading a JSON config file.
// Environment variables, the temp directory and the file system are
// parameters.
module BambooPaths {
  import opened Wrappers
  import opened Strings
  import opened JsonValue
  import FsPath

  /** `bamboo_dir`: `$HOME`, else `$USERPROFILE`, else the temp directory, joined with `.bamboo`. */
  function BambooDir(home: Option<string>, userProfile: Option<string>, tempDir: string): (r: string)
    ensures home.Some? ==> r == FsPath.Join(home.value, ".bamboo")
    ensures home.None? && userProfile.Some? ==> r == FsPath.Join(userProfile.value, ".bamboo")
    ensures home.None? && userProfile.None? ==> r == FsPath.Join(tempDir, ".bamboo")
    ensures EndsWith(r, ".bamboo")
  {
    var base := if home.Some? then home.value else if userProfile.Some? then userProfile.value else tempDir;
    FsPath.Join(base, ".bamboo")
  }

  /** A file or directory directly under the data directory. */
  function DataDirChild(dir: string, name: string): (r: string)
    requires '/' !in name && name != [] && name != "." && name != ".."
    ensures EndsWith(dir, ".bamboo") ==> r == dir + "/" + name && FsPath.FileName(r) == Some(name)
  {
    if EndsWith(dir, ".bamboo") then
      ChildOfDataDir(dir, name);
      FsPath.Join(dir, name)
    else
      FsPath.Join(dir, name)
  }

  /** `config_json_path` */
  function ConfigJsonPath(dir: string): (r: string)
    ensures EndsWith(dir, ".bamboo") ==> r == dir + "/" + "config.json"
  {
    DataDirChild(dir, "config.json")
  }

  /** `keyword_masking_json_path` */
  function KeywordMaskingJsonPath(dir: string): (r: string)
    ensures EndsWith(dir, ".bamboo") ==> r == dir + "/" + "keyword_masking.json"
  {
    DataDirChild(dir, "keyword_masking.json")
  }

  /** `workflows_dir` */
  function WorkflowsDir(dir: string): (r: string)
    ensures EndsWith(dir, ".bamboo") ==> r == dir + "/" + "workflows"
  {
    DataDirChild(dir, "workflows")
  }

  /** `anthropic_model_mapping_path` */
  function AnthropicModelMappingPath(dir: string): (r: string)
    ensures EndsWith(dir, ".bamboo") ==> r == dir + "/" + "anthropic-model-mapping.json"
  {
    DataDirChild(dir, "anthropic-model-mapping.json")
  }

  /** `gemini_model_mapping_path` */
  function GeminiModelMappingPath(dir: string): (r: string)
    ensures EndsWith(dir, ".bamboo") ==> r == dir + "/" + "gemini-model-mapping.json"
  {
    DataDirChild(dir, "gemini-model-mapping.json")
  }

  /** `sessions_dir` */
  function SessionsDir(dir: string): (r: string)
    ensures EndsWith(dir, ".bamboo") ==> r == dir + "/" + "sessions"
  {
    DataDirChild(dir, "sessions")
  }

  /** The data directory never ends with a separator, so a name joins under it with exactly one. */
  lemma ChildOfDataDir(dir: string, name: string)
    requires EndsWith(dir, ".bamboo")
    requires '/' !in name && name != [] && name != "." && name != ".."
    ensures FsPath.Join(dir, name) == dir + "/" + name
    ensures FsPath.FileName(FsPath.Join(dir, name)) == Some(name)
  {
    assert dir[|dir| - 1] == 'o';
    assert name[0] != '/';
    FsPath.FileNameOfChild(dir, name);
  }

  /** The sessions directory of a data directory is `.bamboo/sessions`, whichever base directory was chosen. */
  lemma SessionsDirUnderBamboo(dir: string)
    requires EndsWith(dir, ".bamboo")
    ensures SessionsDir(dir) == dir + "/sessions"
    ensures EndsWith(SessionsDir(dir), ".bamboo/sessions")
  {
    var x := dir[..|dir| - 7];
    assert dir == x + ".bamboo";
    assert "/" + "sessions" == "/sessions";
    AppendAssoc(dir, "/", "sessions");
    AppendAssoc(x, ".bamboo", "/sessions");
    assert ".bamboo" + "/sessions" == ".bamboo/sessions";
    EndsWithAppend(x, ".bamboo/sessions");
  }

  /** Both model-mapping files carry "model-mapping" in their names. */
  lemma MappingFilesNamed()
    ensures Contains("anthropic-model-mapping.json", "model-mapping")
    ensures Contains("gemini-model-mapping.json", "model-mapping")
  {
    assert "anthropic-model-mapping.json" == "anthropic-" + "model-mapping" + ".json";
    assert "gemini-model-mapping.json" == "gemini-" + "model-mapping" + ".json";
    ContainsInfix("anthropic-", "model-mapping", ".json");
    ContainsInfix("gemini-", "model-mapping", ".json");
  }

  /** A file in the data directory that holds a chat session rather than configuration. */
  predicate IsSessionFile(fileName: string)
    ensures IsSessionFile(fileName) ==>
              && fileName != "config.json" && fileName != "keyword_masking.json"
              && fileName != "anthropic-model-mapping.json" && fileName != "gemini-model-mapping.json"
  {
    MappingFilesNamed();
    && (EndsWith(fileName, ".json") || EndsWith(fileName, ".jsonl"))
    && !StartsWith(fileName, "config")
    && !StartsWith(fileName, "keyword")
    && !Contains(fileName, "model-mapping")
    && !StartsWith(fileName, "mcp")
  }

  lemma SessionNamesAccepted()
    ensures IsSessionFile("session-1.json") && IsSessionFile("session-1.jsonl")
  {
    var a := "session-1.json";
    assert a[|a| - 5..] == ".json";
    assert a[..6][0] != "config"[0];
    assert a[..7][0] != "keyword"[0];
    assert a[..3][0] != "mcp"[0];
    NoFirstCharNoContains(a, "model-mapping");
    var b := "session-1.jsonl";
    assert b[|b| - 6..] == ".jsonl";
    assert b[..6][0] != "config"[0];
    assert b[..7][0] != "keyword"[0];
    assert b[..3][0] != "mcp"[0];
    NoFirstCharNoContains(b, "model-mapping");
  }

  lemma ConfigNamesRejected()
    ensures !IsSessionFile("config.json") && !IsSessionFile("keyword_masking.json")
    ensures !IsSessionFile("gemini-model-mapping.json") && !IsSessionFile("mcp.json")
  {
    assert "config.json"[..6] == "config";
    assert "keyword_masking.json"[..7] == "keyword";
    assert "mcp.json"[..3] == "mcp";
    var g := "gemini-model-mapping.json";
    assert g[7..][..13] == "model-mapping";
    assert StartsWith(g[7..], "model-mapping");
  }

  /** The classification the migration's own test relies on, and the configuration files it must leave alone. */
  lemma SessionFileExamples()
    ensures IsSessionFile("session-1.json") && IsSessionFile("session-1.jsonl")
    ensures !IsSessionFile("config.json") && !IsSessionFile("keyword_masking.json")
    ensures !IsSessionFile("gemini-model-mapping.json") && !IsSessionFile("mcp.json")
    ensures !IsSessionFile("session-1.txt")
  {
    SessionNamesAccepted();
    ConfigNamesRejected();
    var t := "session-1.txt";
    assert t[|t| - 5..] != ".json";
    assert t[|t| - 6..] != ".jsonl";
  }

  /**
   * The files `migrate_session_files` moves, in listing order: a session
   * file is moved when no file of that name is in `sessions/` yet and the
   * rename succeeds; `failing` are the names whose rename fails.
   */
  function Moves(entries: seq<string>, sessions: set<string>, failing: set<string>): (moved: seq<string>)
    ensures forall n :: n in moved ==> n in entries && IsSessionFile(n) && n !in sessions && n !in failing
  {
    if entries == [] then []
    else
      var n := entries[0];
      if IsSessionFile(n) && n !in sessions && n !in failing then [n] + Moves(entries[1..], sessions + {n}, failing)
      else Moves(entries[1..], sessions, failing)
  }

  /**
   * Exactly the session files not already in `sessions/` and not failing
   * are moved, each once: nothing in `sessions/` is ever overwritten.
   */
  lemma {:induction false} MovesExactly(entries: seq<string>, sessions: set<string>, failing: set<string>)
    ensures var moved := Moves(entries, sessions, failing);
            && (forall n :: n in moved <==> n in entries && IsSessionFile(n) && n !in sessions && n !in failing)
            && (forall i, j :: 0 <= i < j < |moved| ==> moved[i] != moved[j])
  {
    if entries != [] {
      var n := entries[0];
      if IsSessionFile(n) && n !in sessions && n !in failing {
        MovesExactly(entries[1..], sessions + {n}, failing);
        var rest := Moves(entries[1..], sessions + {n}, failing);
        assert forall m :: m in entries <==> m == n || m in entries[1..];
        assert n !in rest;
      } else {
        MovesExactly(entries[1..], sessions, failing);
        assert forall m :: m in entries ==> m == n || m in entries[1..];
      }
    }
  }

  /** One entry of the migration loop keeps the moves made so far in step with `Moves`. */
  lemma MoveStep(entries: seq<string>, i: nat, moved: seq<string>, sessionsAfter: set<string>,
                 sessions: set<string>, failing: set<string>)
    requires i < |entries|
    requires moved + Moves(entries[i..], sessionsAfter, failing) == Moves(entries, sessions, failing)
    requires sessionsAfter == sessions + Names(moved)
    ensures var f := entries[i];
            if IsSessionFile(f) && f !in sessionsAfter && f !in failing then
              && moved + [f] + Moves(entries[i + 1..], sessionsAfter + {f}, failing) == Moves(entries, sessions, failing)
              && sessionsAfter + {f} == sessions + Names(moved + [f])
            else moved + Moves(entries[i + 1..], sessionsAfter, failing) == Moves(entries, sessions, failing)
  {
    var f := entries[i];
    assert entries[i..][0] == f && entries[i..][1..] == entries[i + 1..];
    if IsSessionFile(f) && f !in sessionsAfter && f !in failing {
      var rest := Moves(entries[i + 1..], sessionsAfter + {f}, failing);
      assert moved + [f] + rest == moved + ([f] + rest);
      NamesSnoc(moved, f);
    }
  }

  /** The names in a list of moves, as a set. */
  function Names(moved: seq<string>): (r: set<string>)
    ensures forall n :: n in r <==> n in moved
  {
    set n | n in moved
  }

  lemma NamesSnoc(moved: seq<string>, f: string)
    ensures Names(moved + [f]) == Names(moved) + {f}
  {
  }

  /**
   * `migrate_session_files`. `mkdir` is the outcome of creating
   * `sessions/`, `listing` the names in the data directory (`None` when it
   * cannot be read, which is only logged), `sessions` the names already in
   * `sessions/`, `failing` those whose rename fails. Returns the names moved
   * and the contents of `sessions/` afterwards.
   */
  method MigrateSessionFiles(mkdir: Result<(), string>, listing: Option<seq<string>>, sessions: set<string>, failing: set<string>)
    returns (r: Result<(), string>, moved: seq<string>, sessionsAfter: set<string>)
    ensures mkdir.Err? ==> r == Err(mkdir.error) && moved == [] && sessionsAfter == sessions
    ensures mkdir.Ok? ==> r == Ok(())
    ensures mkdir.Ok? && listing.None? ==> moved == [] && sessionsAfter == sessions
    ensures mkdir.Ok? && listing.Some? ==>
              moved == Moves(listing.value, sessions, failing)
              && sessionsAfter == sessions + Names(moved)
  {
    moved := [];
    sessionsAfter := sessions;
    if mkdir.Err? {
      return Err(mkdir.error), moved, sessionsAfter;
    }
    r := Ok(());
    if listing.None? {
      return;
    }
    var entries := listing.value;
    assert entries[0..] == entries && Names([]) == {};
    for i := 0 to |entries|
      invariant moved + Moves(entries[i..], sessionsAfter, failing) == Moves(entries, sessions, failing)
      invariant sessionsAfter == sessions + Names(moved)
    {
      var fileName := entries[i];
      MoveStep(entries, i, moved, sessionsAfter, sessions, failing);
      if IsSessionFile(fileName) && fileName !in sessionsAfter && fileName !in failing {
        moved := moved + [fileName];
        sessionsAfter := sessionsAfter + {fileName};
      }
    }
    assert entries[|entries|..] == [];
  }

  /** `load_config_json`: a missing file, a failed read and a failed parse are told apart by their messages. */
  function LoadConfigJson(path: string, present: bool, read: Result<string, string>, parse: string -> Result<Json, string>)
    : (r: Result<Json, string>)
    ensures !present ==> r == Err("Config file not found: " + path)
    ensures present && read.Err? ==> r == Err("Failed to read config: " + read.error)
    ensures present && read.Ok? && parse(read.value).Err? ==> r == Err("Failed to parse config: " + parse(read.value).error)
    ensures r.Ok? <==> present && read.Ok? && parse(read.value).Ok?
    ensures r.Ok? ==> r.value == parse(read.value).value
  {
    if !present then Err("Config file not found: " + path)
    else match read
      case Err(e) => Err("Failed to read config: " + e)
      case Ok(content) =>
        match parse(content)
        case Err(e) => Err("Failed to parse config: " + e)
        case Ok(v) => Ok(v)
  }
}
