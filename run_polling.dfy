/**
 * The relay's wait for a run: while the run's status is `queued` or
 * `in_progress` it re-fetches the run; it stops at the first other status.
 * The remote side is a given sequence of `getRun` responses, `None` standing
 * for a call that threw.
 */
module RunPolling {
  import opened Options

  const Queued := "queued"
  const InProgress := "in_progress"
  const Completed := "completed"

  /** The loop condition `run.status === "queued" || run.status === "in_progress"`. */
  predicate IsRunning(status: string) {
    status == Queued || status == InProgress
  }

  /** How the wait ends, with the number of `getRun` calls made. */
  datatype PollResult =
    | Settled(status: string, refetches: nat)   // left the loop with this status
    | FetchFailed(refetches: nat)               // the last `getRun` threw
    | StillRunning(refetches: nat)              // the given responses ran out while running

  /** The wait continued from the run `status`, after `i` responses were used. */
  function PollFrom(status: string, polls: seq<Option<string>>, i: nat): PollResult
    requires i <= |polls|
    decreases |polls| - i
  {
    if !IsRunning(status) then Settled(status, i)
    else if i == |polls| then StillRunning(i)
    else match polls[i]
      case None => FetchFailed(i + 1)
      case Some(next) => PollFrom(next, polls, i + 1)
  }

  /** The wait that starts with the run returned by `createRun`. */
  function Poll(first: string, polls: seq<Option<string>>): PollResult {
    PollFrom(first, polls, 0)
  }

  /**
   * Responses `i` to `k - 1` all arrived, and each one was fetched because
   * the status before it was still running.
   */
  ghost predicate RunningFrom(status: string, polls: seq<Option<string>>, i: nat, k: nat) {
    && i <= k <= |polls|
    && (k > i ==> IsRunning(status))
    && forall j :: i <= j < k ==> polls[j].Some? && (j < k - 1 ==> IsRunning(polls[j].value))
  }

  /** The status in hand after the responses up to `k` were used. */
  ghost function StatusAt(status: string, polls: seq<Option<string>>, i: nat, k: nat): string
    requires RunningFrom(status, polls, i, k)
  {
    if k == i then status else polls[k - 1].value
  }

  /** Skipping over responses that were fetched while running does not change where the wait ends. */
  lemma {:induction false} PollFromSkip(status: string, polls: seq<Option<string>>, i: nat, k: nat)
    requires RunningFrom(status, polls, i, k)
    ensures PollFrom(status, polls, i) == PollFrom(StatusAt(status, polls, i, k), polls, k)
    decreases k - i
  {
    if k > i {
      var next := polls[i].value;
      assert RunningFrom(next, polls, i + 1, k);
      PollFromSkip(next, polls, i + 1, k);
    }
  }

  /** Every ending of the wait from position `i`, described by the responses it saw. */
  lemma {:induction false} PollFromShape(status: string, polls: seq<Option<string>>, i: nat)
    requires i <= |polls|
    ensures match PollFrom(status, polls, i)
      case Settled(st, k) =>
        RunningFrom(status, polls, i, k) && st == StatusAt(status, polls, i, k) && !IsRunning(st)
      case FetchFailed(k) =>
        i < k <= |polls| && RunningFrom(status, polls, i, k - 1)
        && IsRunning(StatusAt(status, polls, i, k - 1)) && polls[k - 1].None?
      case StillRunning(k) =>
        k == |polls| && RunningFrom(status, polls, i, k) && IsRunning(StatusAt(status, polls, i, k))
    decreases |polls| - i
  {
    if IsRunning(status) && i < |polls| && polls[i].Some? {
      PollFromShape(polls[i].value, polls, i + 1);
    }
  }

  /**
   * The loop leaves at the first status that is neither queued nor in progress,
   * after exactly as many re-fetches as there were running statuses before it.
   */
  lemma ExitsAtFirstTerminal(first: string, polls: seq<Option<string>>, k: nat)
    requires RunningFrom(first, polls, 0, k)
    requires !IsRunning(StatusAt(first, polls, 0, k))
    ensures Poll(first, polls) == Settled(StatusAt(first, polls, 0, k), k)
  {
    PollFromSkip(first, polls, 0, k);
  }

  /** Conversely, a settled wait saw only running statuses before the one it settled on. */
  lemma SettledOnlyAtFirstTerminal(first: string, polls: seq<Option<string>>)
    requires Poll(first, polls).Settled?
    ensures var k := Poll(first, polls).refetches;
      RunningFrom(first, polls, 0, k)
      && Poll(first, polls).status == StatusAt(first, polls, 0, k)
      && !IsRunning(Poll(first, polls).status)
  {
    PollFromShape(first, polls, 0);
  }

  /** A `getRun` that throws ends the wait, and only a running status leads to a call. */
  lemma FailsAtFirstThrow(first: string, polls: seq<Option<string>>, k: nat)
    requires RunningFrom(first, polls, 0, k) && IsRunning(StatusAt(first, polls, 0, k))
    requires k < |polls| && polls[k].None?
    ensures Poll(first, polls) == FetchFailed(k + 1)
  {
    PollFromSkip(first, polls, 0, k);
  }

  /** A run that is still running when the responses run out has used every response. */
  lemma StillRunningUsesAll(first: string, polls: seq<Option<string>>)
    requires Poll(first, polls).StillRunning?
    ensures Poll(first, polls).refetches == |polls|
    ensures forall j :: 0 <= j < |polls| ==> polls[j].Some? && IsRunning(polls[j].value)
    ensures IsRunning(first)
  {
    PollFromShape(first, polls, 0);
  }

  /** A run created already terminal is never re-fetched. */
  lemma TerminalAtOnce(first: string, polls: seq<Option<string>>)
    requires !IsRunning(first)
    ensures Poll(first, polls) == Settled(first, 0)
  {
  }

  /** `queued`, then `in_progress`, then `completed`: two delayed re-fetches. */
  lemma TwoRefetchesBeforeCompletion()
    ensures Poll(Queued, [Some(InProgress), Some(Completed)]) == Settled(Completed, 2)
  {
    var polls := [Some(InProgress), Some(Completed)];
    assert PollFrom(Completed, polls, 2) == Settled(Completed, 2);
    assert PollFrom(InProgress, polls, 1) == PollFrom(Completed, polls, 2);
  }
}
