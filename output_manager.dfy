// Capping of oversized tool results (crates/agent-tools/src/output_manager.rs).
// A result whose token count exceeds the inline budget is stored as an
// artifact and replaced by a truncated prefix followed by a short notice
// naming the artifact. The token counter is a parameter; the clock's
// reading is an input.
module OutputManager {
  import opened Wrappers
  import opened Strings
  import FsPath

  /** `HeuristicTokenCounter::count_text`, left abstract. */
  type TokenCounter = string -> nat

  datatype ArtifactRef = ArtifactRef(id: string, toolCallId: string, path: string, fullTokenCount: nat)

  /** `(max_tokens as f64 * 3.5) as usize`, which is exactly `⌊7·t/2⌋`. */
  function MaxChars(maxTokens: nat): nat { (7 * maxTokens) / 2 }

  /** `a.saturating_sub(b)` on unsigned integers. */
  function SaturatingSub(a: nat, b: nat): (r: nat)
    ensures r <= a
    ensures b <= a ==> r + b == a
    ensures b >= a ==> r == 0
  {
    if b <= a then a - b else 0
  }

  /**
   * Where a too-long prefix is cut: at its last newline, else at its last
   * space, else at its end.
   */
  function CutPoint(p: string): (at: nat)
    ensures at <= |p|
    ensures '\n' in p ==> at < |p| && p[at] == '\n' && '\n' !in p[at + 1..]
    ensures '\n' !in p && ' ' in p ==> at < |p| && p[at] == ' ' && ' ' !in p[at + 1..]
    ensures '\n' !in p && ' ' !in p ==> at == |p|
  {
    match LastIndexOf(p, '\n')
    case Some(i) => i
    case None =>
      match LastIndexOf(p, ' ')
      case Some(j) => j
      case None => |p|
  }

  /**
   * `truncate_to_token_limit`: text within `⌊3.5·t⌋` characters is kept;
   * longer text keeps a prefix that ends at a natural boundary, plus "...".
   */
  function TruncateToTokenLimit(text: string, maxTokens: nat): (r: string)
    ensures |text| <= MaxChars(maxTokens) ==> r == text
    ensures |text| > MaxChars(maxTokens) ==>
              && EndsWith(r, "...")
              && |r| - 3 <= MaxChars(maxTokens)
              && r[..|r| - 3] == text[..|r| - 3]
              && (|r| - 3 == MaxChars(maxTokens) || text[|r| - 3] == '\n' || text[|r| - 3] == ' ')
    ensures |text| > MaxChars(maxTokens) ==> r == text[..CutPoint(text[..MaxChars(maxTokens)])] + "..."
  {
    var maxChars := MaxChars(maxTokens);
    if |text| <= maxChars then text
    else
      var at := CutPoint(text[..maxChars]);
      EndsWithAppend(text[..at], "...");
      text[..at] + "..."
  }

  /** A newline inside the kept window always wins over a space. */
  lemma TruncatePrefersNewline(text: string, maxTokens: nat, i: nat)
    requires |text| > MaxChars(maxTokens) && i < MaxChars(maxTokens) && text[i] == '\n'
    ensures var r := TruncateToTokenLimit(text, maxTokens);
            text[|r| - 3] == '\n' && forall j :: |r| - 3 < j < MaxChars(maxTokens) ==> text[j] != '\n'
  {
    var p := text[..MaxChars(maxTokens)];
    assert p[i] == '\n';
    var at := CutPoint(p);
    forall j | at < j < MaxChars(maxTokens) ensures text[j] != '\n' {
      assert text[j] == p[at + 1..][j - at - 1];
    }
  }

  /** Without a newline in the kept window, the cut is at the window's last space. */
  lemma TruncateAtLastSpace(text: string, maxTokens: nat, i: nat)
    requires |text| > MaxChars(maxTokens) && i < MaxChars(maxTokens) && text[i] == ' '
    requires forall j :: 0 <= j < MaxChars(maxTokens) ==> text[j] != '\n'
    ensures var r := TruncateToTokenLimit(text, maxTokens);
            text[|r| - 3] == ' ' && forall j :: |r| - 3 < j < MaxChars(maxTokens) ==> text[j] != ' '
  {
    var p := text[..MaxChars(maxTokens)];
    assert p[i] == ' ';
    assert '\n' !in p by {
      forall j | 0 <= j < |p| ensures p[j] != '\n' {
        assert p[j] == text[j];
      }
    }
    var at := CutPoint(p);
    forall j | at < j < MaxChars(maxTokens) ensures text[j] != ' ' {
      assert text[j] == p[at + 1..][j - at - 1];
    }
  }

  /** With neither a newline nor a space in the kept window, the whole window is kept. */
  lemma TruncateAtWindowEnd(text: string, maxTokens: nat)
    requires |text| > MaxChars(maxTokens)
    requires forall j :: 0 <= j < MaxChars(maxTokens) ==> text[j] != '\n' && text[j] != ' '
    ensures TruncateToTokenLimit(text, maxTokens) == text[..MaxChars(maxTokens)] + "..."
  {
    var p := text[..MaxChars(maxTokens)];
    assert '\n' !in p && ' ' !in p by {
      forall j | 0 <= j < |p| ensures p[j] != '\n' && p[j] != ' ' {
        assert p[j] == text[j];
      }
    }
  }

  /** The three notices, longest first. */
  function NoticeCandidates(fullTokenCount: nat, artifactId: string): (c: seq<string>)
    ensures |c| == 3
    ensures forall i :: 0 <= i < 3 ==> Contains(c[i], artifactId)
  {
    var c0 := "\n\n[Output truncated. Full result (" + NatToString(fullTokenCount) + " tokens) stored as artifact id '";
    var c1 := "\n\n[Output truncated. Artifact id '";
    var c2 := "\n\n[Truncated. Artifact '";
    ContainsInfix(c0, artifactId, "'.]");
    ContainsInfix(c1, artifactId, "'.]");
    ContainsInfix(c2, artifactId, "'.]");
    [c0 + artifactId + "'.]", c1 + artifactId + "'.]", c2 + artifactId + "'.]"]
  }

  /** The position of the first string whose token count is within `max`. */
  function FirstFitting(cands: seq<string>, count: TokenCounter, max: nat): (r: Option<nat>)
    ensures r.Some? ==> r.value < |cands| && count(cands[r.value]) <= max
    ensures r.Some? ==> forall j :: 0 <= j < r.value ==> count(cands[j]) > max
    ensures r.None? ==> forall j :: 0 <= j < |cands| ==> count(cands[j]) > max
  {
    if |cands| == 0 then None
    else if count(cands[0]) <= max then Some(0)
    else match FirstFitting(cands[1..], count, max)
      case None => None
      case Some(i) => Some(i + 1)
  }

  /** Some notice candidate fits the inline budget. */
  predicate SomeNoticeFits(count: TokenCounter, maxInline: nat, fullTokenCount: nat, artifactId: string)
  {
    exists j :: 0 <= j < 3 && count(NoticeCandidates(fullTokenCount, artifactId)[j]) <= maxInline
  }

  /**
   * `build_truncation_notice`: the longest candidate that fits; when none
   * fits, the shortest one truncated to the budget.
   */
  function BuildTruncationNotice(count: TokenCounter, maxInline: nat, fullTokenCount: nat, artifactId: string): (r: string)
    ensures SomeNoticeFits(count, maxInline, fullTokenCount, artifactId) ==>
              && count(r) <= maxInline
              && Contains(r, artifactId)
              && exists i :: 0 <= i < 3 && r == NoticeCandidates(fullTokenCount, artifactId)[i]
                   && forall j :: 0 <= j < i ==> count(NoticeCandidates(fullTokenCount, artifactId)[j]) > maxInline
    ensures !SomeNoticeFits(count, maxInline, fullTokenCount, artifactId) ==>
              r == TruncateToTokenLimit(NoticeCandidates(fullTokenCount, artifactId)[2], maxInline)
  {
    var cands := NoticeCandidates(fullTokenCount, artifactId);
    match FirstFitting(cands, count, maxInline)
    case Some(i) => cands[i]
    case None => TruncateToTokenLimit(cands[2], maxInline)
  }

  /** The artifact id format `"{tool_call_id}_{timestamp}"`. */
  function ArtifactId(toolCallId: string, timestamp: int): string
  {
    toolCallId + "_" + IntToString(timestamp)
  }

  /**
   * `store_artifact`: the record of the file `"{tool_call_id}_{timestamp}.txt"`
   * under the artifacts directory. `storeError` is the outcome of
   * `create_dir_all` and `write`: an error there is returned as is.
   */
  function StoreArtifact(artifactsDir: string, toolCallId: string, timestamp: int, tokenCount: nat,
                         storeError: Option<string>): (r: Result<ArtifactRef, string>)
    ensures storeError.Some? ==> r == Err(storeError.value)
    ensures storeError.None? ==> r.Ok?
    ensures r.Ok? ==> && r.value.toolCallId == toolCallId && r.value.fullTokenCount == tokenCount
                      && r.value.id == ArtifactId(toolCallId, timestamp)
                      && StartsWith(r.value.id, toolCallId + "_")
                      && r.value.path == FsPath.Join(artifactsDir, r.value.id + ".txt")
                      && EndsWith(r.value.path, r.value.id + ".txt")
    ensures r.Ok? && I64_MIN <= timestamp <= I64_MAX ==>
              ListedArtifact(r.value.id + ".txt") == Some((r.value.id, toolCallId))
  {
    if storeError.Some? then Err(storeError.value)
    else
      var id := ArtifactId(toolCallId, timestamp);
      StartsWithAppend(toolCallId + "_", IntToString(timestamp));
      assert I64_MIN <= timestamp <= I64_MAX ==> ListedArtifact(id + ".txt") == Some((id, toolCallId)) by {
        if I64_MIN <= timestamp <= I64_MAX { ListedArtifactRoundTrip(toolCallId, timestamp); }
      }
      Ok(ArtifactRef(id, toolCallId, FsPath.Join(artifactsDir, id + ".txt"), tokenCount))
  }

  /** The inline text for a content budget: the truncated result (empty for 0) and the notice. */
  function Capped(result: string, notice: string, budget: nat): string
  {
    (if budget == 0 then "" else TruncateToTokenLimit(result, budget)) + notice
  }

  /**
   * The fitting loop stops at `budget`: the largest budget not above the
   * initial one that is 0 or whose inline text fits.
   */
  predicate IsFinalBudget(count: TokenCounter, maxInline: nat, result: string, notice: string, initial: nat, budget: nat)
  {
    && budget <= initial
    && (budget == 0 || count(Capped(result, notice, budget)) <= maxInline)
    && forall b :: budget < b <= initial ==> count(Capped(result, notice, b)) > maxInline
  }

  /**
   * `cap_tool_result`; `storeError` is the outcome of storing the artifact,
   * which the source propagates with `?`.
   */
  method CapToolResult(count: TokenCounter, artifactsDir: string, maxInline: nat,
                       toolCallId: string, timestamp: int, result: string, storeError: Option<string>)
    returns (r: Result<(string, Option<ArtifactRef>), string>)
    ensures count(result) <= maxInline ==> r == Ok((result, None))
    ensures count(result) > maxInline && storeError.Some? ==> r == Err(storeError.value)
    ensures count(result) > maxInline && storeError.None? ==>
              && r.Ok?
              && r.value.1 == Some(StoreArtifact(artifactsDir, toolCallId, timestamp, count(result), None).value)
              && var notice := BuildTruncationNotice(count, maxInline, count(result), r.value.1.value.id);
                 && EndsWith(r.value.0, notice)
                 && exists b :: IsFinalBudget(count, maxInline, result, notice,
                                              SaturatingSub(maxInline, count(notice)), b)
                                && r.value.0 == Capped(result, notice, b)
  {
    var tokenCount := count(result);
    if tokenCount <= maxInline {
      return Ok((result, None));
    }
    var stored := StoreArtifact(artifactsDir, toolCallId, timestamp, tokenCount, storeError);
    if stored.Err? {
      return Err(stored.error);
    }
    var a := stored.value;
    var notice := BuildTruncationNotice(count, maxInline, tokenCount, a.id);
    var initial := SaturatingSub(maxInline, count(notice));
    var budget := initial;
    var truncated := if budget == 0 then "" else TruncateToTokenLimit(result, budget);
    var capped := truncated + notice;
    while budget > 0 && count(capped) > maxInline
      invariant budget <= initial
      invariant capped == Capped(result, notice, budget)
      invariant forall b :: budget < b <= initial ==> count(Capped(result, notice, b)) > maxInline
      decreases budget
    {
      ghost var tried := budget;
      assert count(Capped(result, notice, tried)) > maxInline;
      budget := budget - 1;
      truncated := if budget == 0 then "" else TruncateToTokenLimit(result, budget);
      capped := truncated + notice;
      forall b | budget < b <= initial ensures count(Capped(result, notice, b)) > maxInline {
        if b != tried {
          assert tried < b;
        }
      }
    }
    EndsWithAppend(truncated, notice);
    assert IsFinalBudget(count, maxInline, result, notice, initial, budget);
    r := Ok((capped, Some(a)));
  }

  /**
   * Whenever some notice fits the budget, the capped text does too: either
   * the loop found a fitting budget, or it reached 0 and only the notice is left.
   */
  lemma CappedWithinBudget(count: TokenCounter, maxInline: nat, result: string,
                           fullTokenCount: nat, artifactId: string, b: nat)
    requires SomeNoticeFits(count, maxInline, fullTokenCount, artifactId)
    requires var notice := BuildTruncationNotice(count, maxInline, fullTokenCount, artifactId);
             IsFinalBudget(count, maxInline, result, notice, SaturatingSub(maxInline, count(notice)), b)
    ensures count(Capped(result, BuildTruncationNotice(count, maxInline, fullTokenCount, artifactId), b)) <= maxInline
  {
    var notice := BuildTruncationNotice(count, maxInline, fullTokenCount, artifactId);
    if b == 0 {
      assert Capped(result, notice, b) == notice;
    }
  }

  /**
   * The `tool_call_id` `list_artifacts` recovers from an artifact id: the
   * part before the last `_` when what follows parses as an `i64`, else "".
   */
  function RecoverToolCallId(id: string): (r: string)
    ensures '_' !in id ==> r == []
    ensures r != [] ==> StartsWith(id, r + "_")
    ensures r != [] ==> '_' !in id[|r| + 1..] && ParseI64(id[|r| + 1..]).Some?
  {
    match RSplitOnce(id, '_')
    case Some((prefix, suffix)) =>
      assert id[|prefix| + 1..] == suffix;
      if ParseI64(suffix).Some? then prefix else ""
    case None => ""
  }

  /** The (id, tool_call_id) `list_artifacts` reports for a file name, if it is a `.txt` file. */
  function ListedArtifact(fileName: string): (r: Option<(string, string)>)
    ensures r.Some? ==> fileName == r.value.0 + ".txt"
  {
    var (stem, ext) := FsPath.SplitExtension(fileName);
    if ext == Some("txt") then Some((stem, RecoverToolCallId(stem))) else None
  }

  /**
   * The split is at the last `_`: what precedes it comes back when what
   * follows parses as an `i64`, and "" otherwise (so `"call_abc"` gives "").
   */
  lemma RecoverAtLastUnderscore(prefix: string, suffix: string)
    requires '_' !in suffix
    ensures RecoverToolCallId(prefix + "_" + suffix) == (if ParseI64(suffix).Some? then prefix else "")
  {
    assert prefix + "_" + suffix == prefix + ['_'] + suffix;
    RSplitOnceAppend(prefix, '_', suffix);
  }

  /** The tool call id is recovered from any artifact id whose timestamp is an `i64`. */
  lemma RecoverToolCallIdRoundTrip(toolCallId: string, timestamp: int)
    requires I64_MIN <= timestamp <= I64_MAX
    ensures RecoverToolCallId(ArtifactId(toolCallId, timestamp)) == toolCallId
  {
    var digits := IntToString(timestamp);
    assert ArtifactId(toolCallId, timestamp) == toolCallId + ['_'] + digits;
    RSplitOnceAppend(toolCallId, '_', digits);
    ParseIntToString(timestamp);
  }

  /** Any non-empty id stored as `"{id}.txt"` is listed under that id. */
  lemma ListedArtifactOfId(id: string)
    requires id != []
    ensures ListedArtifact(id + ".txt") == Some((id, RecoverToolCallId(id)))
  {
    var name := id + ".txt";
    assert name == id + "." + "txt";
    assert |name| > 2;
    FsPath.SplitExtensionAppend(id, "txt");
  }

  /**
   * Listing an artifact file gives back the id it was stored under and the
   * tool call id it came from, for any tool call id and any `i64` timestamp.
   */
  lemma ListedArtifactRoundTrip(toolCallId: string, timestamp: int)
    requires I64_MIN <= timestamp <= I64_MAX
    ensures var id := ArtifactId(toolCallId, timestamp);
            ListedArtifact(id + ".txt") == Some((id, toolCallId))
  {
    var id := ArtifactId(toolCallId, timestamp);
    ListedArtifactOfId(id);
    RecoverToolCallIdRoundTrip(toolCallId, timestamp);
  }
}
