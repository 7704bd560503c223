// The reconnection policy of the MCP server manager
// (crates/agent-mcp/src/manager.rs, `attempt_reconnection`): the capped
// exponential backoff and how a run of attempts ends. The loop itself is a
// method of the manager; this module states, as functions of the attempts'
// outcomes, where that loop stops and how long it sleeps before each attempt.
module McpReconnect {
  import opened Wrappers
  import opened McpTypes
  import opened McpErrors
  import opened McpConfigs

  /** After a failed attempt: double the backoff, capped at `max`, but only while `max` is above it. */
  function NextBackoff(b: nat, max: nat): (r: nat)
    ensures b <= r
    ensures b <= max ==> r <= max
    ensures max <= b ==> r == b
    ensures b < max ==> r == (if 2 * b < max then 2 * b else max)
  {
    if max > b then (if b * 2 < max then b * 2 else max) else b
  }

  /** The backoff before attempt `n` (counting from 0). */
  function Backoff(initial: nat, max: nat, n: nat): (r: nat)
    ensures initial <= r
  {
    if n == 0 then initial else NextBackoff(Backoff(initial, max, n - 1), max)
  }

  /** The sleeps before the first `n` attempts, in order. */
  function Schedule(initial: nat, max: nat, n: nat): (r: seq<nat>)
    ensures |r| == n
  {
    if n == 0 then [] else Schedule(initial, max, n - 1) + [Backoff(initial, max, n - 1)]
  }

  lemma {:induction false} ScheduleAt(initial: nat, max: nat, n: nat, i: nat)
    requires i < n
    ensures Schedule(initial, max, n)[i] == Backoff(initial, max, i)
  {
    if i < n - 1 {
      ScheduleAt(initial, max, n - 1, i);
    }
  }

  /** The backoff never shrinks from one attempt to the next. */
  lemma {:induction false} BackoffMonotone(initial: nat, max: nat, i: nat, j: nat)
    requires i <= j
    ensures Backoff(initial, max, i) <= Backoff(initial, max, j)
  {
    if i < j {
      BackoffMonotone(initial, max, i, j - 1);
    }
  }

  /** Starting at or below the cap, the backoff never exceeds it. */
  lemma {:induction false} BackoffCapped(initial: nat, max: nat, n: nat)
    requires initial <= max
    ensures Backoff(initial, max, n) <= max
  {
    if n > 0 {
      BackoffCapped(initial, max, n - 1);
    }
  }

  /** The schedule is non-decreasing and, from a start at or below the cap, stays at or below it. */
  lemma ScheduleShape(initial: nat, max: nat, n: nat)
    ensures forall i, j :: 0 <= i <= j < n ==> Schedule(initial, max, n)[i] <= Schedule(initial, max, n)[j]
    ensures initial <= max ==> forall i :: 0 <= i < n ==> Schedule(initial, max, n)[i] <= max
  {
    forall i, j | 0 <= i <= j < n ensures Schedule(initial, max, n)[i] <= Schedule(initial, max, n)[j] {
      ScheduleAt(initial, max, n, i);
      ScheduleAt(initial, max, n, j);
      BackoffMonotone(initial, max, i, j);
    }
    if initial <= max {
      forall i | 0 <= i < n ensures Schedule(initial, max, n)[i] <= max {
        ScheduleAt(initial, max, n, i);
        BackoffCapped(initial, max, i);
      }
    }
  }

  /** The default policy sleeps 1 s, 2 s, 4 s, 8 s, 16 s, then 30 s from then on. */
  lemma DefaultSchedule()
    ensures Schedule(1000, 30000, 7) == [1000, 2000, 4000, 8000, 16000, 30000, 30000]
  {
    assert Backoff(1000, 30000, 5) == 30000;
    assert Backoff(1000, 30000, 6) == 30000;
  }

  /** How a run of reconnection attempts ends, with the number of attempts made. */
  datatype Ending =
    | Cancelled(attempts: nat)
    | GaveUp(attempts: nat)
    | Recovered(attempts: nat, tools: seq<McpTool>)
    | Exhausted

  /**
   * The loop from attempt `attempt` on: shutdown is checked first (it is
   * observed before attempt `cancelAt`), then the attempt limit; otherwise
   * the next attempt runs and either recovers or fails. `outcomes[i]` is
   * what attempt `i` (the reconnect with its handshake) produced;
   * `Exhausted` means the given outcomes ran out first.
   */
  function RunEnd(cfg: ReconnectConfig, outcomes: seq<Result<seq<McpTool>, McpError>>, cancelAt: Option<nat>, attempt: nat): (e: Ending)
    ensures attempt <= |outcomes| && !e.Exhausted? ==> attempt <= e.attempts <= |outcomes|
    ensures e.Cancelled? && attempt < e.attempts <= |outcomes| ==> outcomes[e.attempts - 1].Err?
    decreases |outcomes| - attempt
  {
    if cancelAt == Some(attempt) then Cancelled(attempt)
    else if cfg.maxAttempts > 0 && attempt >= cfg.maxAttempts then GaveUp(attempt)
    else if attempt >= |outcomes| then Exhausted
    else match outcomes[attempt]
      case Ok(tools) => Recovered(attempt + 1, tools)
      case Err(_) => RunEnd(cfg, outcomes, cancelAt, attempt + 1)
  }

  /** A failed attempt that was neither cancelled nor over the limit leaves the run's end where it was. */
  lemma RunEndStep(cfg: ReconnectConfig, outcomes: seq<Result<seq<McpTool>, McpError>>, cancelAt: Option<nat>, attempt: nat)
    requires cancelAt != Some(attempt) && !(cfg.maxAttempts > 0 && attempt >= cfg.maxAttempts)
    requires attempt < |outcomes| && outcomes[attempt].Err?
    ensures RunEnd(cfg, outcomes, cancelAt, attempt + 1) == RunEnd(cfg, outcomes, cancelAt, attempt)
  {
  }

  /** Every attempt before `k` failed. */
  ghost predicate FailedBefore(outcomes: seq<Result<seq<McpTool>, McpError>>, k: nat)
  {
    k <= |outcomes| && forall i :: 0 <= i < k ==> outcomes[i].Err?
  }

  /**
   * What a run promises: a recovery comes from the first attempt that
   * succeeded; giving up happens after exactly `max_attempts` failures, and
   * never when attempts are unlimited; cancellation happens before attempt
   * `cancelAt`; no run makes more than `max_attempts` attempts.
   */
  lemma {:induction false} RunEndShape(cfg: ReconnectConfig, outcomes: seq<Result<seq<McpTool>, McpError>>, cancelAt: Option<nat>, attempt: nat)
    requires FailedBefore(outcomes, attempt)
    requires cancelAt.Some? ==> attempt <= cancelAt.value
    requires cfg.maxAttempts > 0 ==> attempt <= cfg.maxAttempts
    ensures var e := RunEnd(cfg, outcomes, cancelAt, attempt);
            && (e.Recovered? ==> 0 < e.attempts <= |outcomes| && outcomes[e.attempts - 1] == Ok(e.tools)
                                 && FailedBefore(outcomes, e.attempts - 1))
            && (e.GaveUp? ==> cfg.maxAttempts > 0 && e.attempts == cfg.maxAttempts && FailedBefore(outcomes, e.attempts))
            && (e.Cancelled? ==> cancelAt == Some(e.attempts) && FailedBefore(outcomes, e.attempts))
            && (!e.Exhausted? && cfg.maxAttempts > 0 ==> e.attempts <= cfg.maxAttempts)
    decreases |outcomes| - attempt
  {
    if cancelAt == Some(attempt) {
    } else if cfg.maxAttempts > 0 && attempt >= cfg.maxAttempts {
    } else if attempt >= |outcomes| {
    } else if outcomes[attempt].Err? {
      RunEndShape(cfg, outcomes, cancelAt, attempt + 1);
    }
  }

  /** With unlimited attempts, the manager never gives up on its own. */
  lemma UnlimitedNeverGivesUp(cfg: ReconnectConfig, outcomes: seq<Result<seq<McpTool>, McpError>>, cancelAt: Option<nat>)
    requires cfg.maxAttempts == 0
    ensures !RunEnd(cfg, outcomes, cancelAt, 0).GaveUp?
  {
    RunEndShape(cfg, outcomes, cancelAt, 0);
  }

  /** With a limit of 3 and every attempt failing, exactly three attempts run before the manager gives up. */
  lemma ThreeFailuresGiveUp(cfg: ReconnectConfig, e: McpError)
    requires cfg.maxAttempts == 3
    ensures RunEnd(cfg, [Err(e), Err(e), Err(e), Err(e)], None, 0) == GaveUp(3)
  {
    var outcomes: seq<Result<seq<McpTool>, McpError>> := [Err(e), Err(e), Err(e), Err(e)];
    assert RunEnd(cfg, outcomes, None, 3) == GaveUp(3);
    assert RunEnd(cfg, outcomes, None, 2) == RunEnd(cfg, outcomes, None, 3);
    assert RunEnd(cfg, outcomes, None, 1) == RunEnd(cfg, outcomes, None, 2);
  }

  /** The message recorded when the limit is reached. */
  const MAX_ATTEMPTS_MESSAGE: string := "Max reconnection attempts reached"

  /** The error `attempt_reconnection` returns when it gives up. */
  function GiveUpError(serverId: string): (e: McpError)
    ensures e.Connection? && e.message == MAX_ATTEMPTS_MESSAGE + " for server '" + serverId + "'"
  {
    Connection(MAX_ATTEMPTS_MESSAGE + " for server '" + serverId + "'")
  }
}
