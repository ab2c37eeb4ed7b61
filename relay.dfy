/**
 * The message relay: a process-wide table from session ids to remote thread
 * ids, filled lazily, and `processMessage`, which posts the user's message,
 * starts a run, waits for it and answers with the text of the latest
 * assistant message. The remote agent platform is an oracle: a `Remote`
 * value holds what each remote call returns, and every call the relay makes
 * is appended to a log.
 */
module Relay {
  import opened Options
  import opened AgentReply
  import opened RunPolling

  const MissingArguments := "Session ID and message are required"
  const ThreadCreationFailed := "Failed to create conversation thread"
  const GenericApology := "Sorry, I encountered an error processing your request. Please try again."
  const NoResponse := "I don't have a response at this time. Please try again."
  const RunFailedPrefix := "Sorry, I encountered an error ("
  const RunFailedSuffix := "). Please try again."

  /** The reply for a run that ended with a status other than `completed`. */
  function RunFailedReply(status: string): (r: string)
    ensures |r| == |RunFailedPrefix| + |status| + |RunFailedSuffix|
    ensures r[|RunFailedPrefix|..|RunFailedPrefix| + |status|] == status
  {
    RunFailedPrefix + status + RunFailedSuffix
  }

  /** A call to the remote agent platform. */
  datatype Call =
    | CreateThread
    | CreateMessage(threadId: string, content: string)
    | CreateRun(threadId: string, agentId: string)
    | GetRun(threadId: string)
    | ListMessages(threadId: string)

  /** What the remote platform answers to each call; `None`/`false` is a call that throws. */
  datatype Remote = Remote(
    newThread: Option<string>,                // createThread: the new thread's id
    messagePosted: bool,                      // createMessage
    runStarted: Option<string>,               // createRun: the new run's status
    polls: seq<Option<string>>,               // successive getRun: the run's status
    listing: Option<seq<ThreadMessage>>)      // listMessages: `messages.data`

  /** The `{success, reply}` object `processMessage` returns. */
  datatype Reply = Reply(success: bool, reply: string)

  /** How a `processMessage` call ends. */
  datatype Outcome =
    | Raised(error: string)     // an error thrown to the caller
    | Replied(reply: Reply)     // a returned `{success, reply}`
    | Polling                   // the given getRun responses ran out while the run was running

  /** The outcome of the remote part of a call together with the remote calls it made. */
  datatype Exchange = Exchange(outcome: Outcome, calls: seq<Call>)

  /** `n` copies of the call `c`. */
  function Repeat(c: Call, n: nat): (r: seq<Call>)
    ensures |r| == n && forall i :: 0 <= i < n ==> r[i] == c
  {
    if n == 0 then [] else Repeat(c, n - 1) + [c]
  }

  /** The reply built from a listed thread. */
  function Answer(msgs: seq<ThreadMessage>): Reply {
    match LatestAssistant(msgs)
    case None => Reply(false, NoResponse)
    case Some(m) => Reply(true, TextOf(m.content))
  }

  /** The remote part of `processMessage`, once the thread `threadId` is known. */
  function Converse(threadId: string, agentId: string, message: string, remote: Remote): Exchange {
    var apology := Replied(Reply(false, GenericApology));
    var posted := [CreateMessage(threadId, message)];
    if !remote.messagePosted then Exchange(apology, posted)
    else
      var started := posted + [CreateRun(threadId, agentId)];
      match remote.runStarted
      case None => Exchange(apology, started)
      case Some(first) =>
        var p := Poll(first, remote.polls);
        var polled := started + Repeat(GetRun(threadId), p.refetches);
        match p
        case StillRunning(_) => Exchange(Polling, polled)
        case FetchFailed(_) => Exchange(apology, polled)
        case Settled(status, _) =>
          if status != Completed then Exchange(Replied(Reply(false, RunFailedReply(status))), polled)
          else
            var listed := polled + [ListMessages(threadId)];
            match remote.listing
            case None => Exchange(apology, listed)
            case Some(msgs) => Exchange(Replied(Answer(msgs)), listed)
  }

  /** No reply for an empty listing: `success` exactly when some message has the assistant role. */
  lemma AnswerSucceedsIffAssistant(msgs: seq<ThreadMessage>)
    ensures Answer(msgs).success <==> exists j :: 0 <= j < |msgs| && msgs[j].role == AssistantRole
    ensures !Answer(msgs).success ==> Answer(msgs) == Reply(false, NoResponse)
  {
    LatestAssistantNoneIff(msgs);
  }

  /**
   * A successful answer is the in-order concatenation of the text items of the
   * newest assistant message, the earliest listed one on a tie.
   */
  lemma AnswerIsNewestAssistantText(msgs: seq<ThreadMessage>)
    requires Answer(msgs).success
    ensures exists i :: IsFirstNewest(msgs, i) && Answer(msgs).reply == Join(TextValues(msgs[i].content))
  {
    LatestAssistantIsFirstNewest(msgs);
    var i :| IsFirstNewest(msgs, i) && msgs[i] == LatestAssistant(msgs).value;
    TextOfJoinsTextValues(msgs[i].content);
  }

  /** The remote part never throws: every failure there becomes a reply. */
  lemma ConverseNeverRaises(threadId: string, agentId: string, message: string, remote: Remote)
    ensures !Converse(threadId, agentId, message, remote).outcome.Raised?
  {
  }

  /** A remote call that throws yields the generic apology with `success = false`. */
  lemma ThrowingCallYieldsApology(threadId: string, agentId: string, message: string, remote: Remote)
    requires || !remote.messagePosted
             || remote.runStarted.None?
             || Poll(remote.runStarted.value, remote.polls).FetchFailed?
             || (Poll(remote.runStarted.value, remote.polls) == Settled(Completed, Poll(remote.runStarted.value, remote.polls).refetches)
                 && remote.listing.None?)
    ensures Converse(threadId, agentId, message, remote).outcome == Replied(Reply(false, GenericApology))
  {
  }

  /**
   * A run that ends with a status other than `completed` yields a failed reply
   * naming that status, after the re-fetches the wait made, and the thread is
   * never listed.
   */
  lemma RunNotCompletedReply(threadId: string, agentId: string, message: string, remote: Remote, status: string, k: nat)
    requires remote.messagePosted && remote.runStarted.Some?
    requires Poll(remote.runStarted.value, remote.polls) == Settled(status, k)
    requires status != Completed
    ensures var x := Converse(threadId, agentId, message, remote);
      && x.outcome.Replied? && !x.outcome.reply.success
      && x.outcome.reply.reply[|RunFailedPrefix|..|RunFailedPrefix| + |status|] == status
      && x.calls == [CreateMessage(threadId, message), CreateRun(threadId, agentId)] + Repeat(GetRun(threadId), k)
      && ListMessages(threadId) !in x.calls
  {
  }

  /** After a completed run the thread is listed once, and the answer is built from the listing. */
  lemma CompletedRunIsAnswered(threadId: string, agentId: string, message: string, remote: Remote, k: nat)
    requires remote.messagePosted && remote.runStarted.Some?
    requires Poll(remote.runStarted.value, remote.polls) == Settled(Completed, k)
    requires remote.listing.Some?
    ensures var x := Converse(threadId, agentId, message, remote);
      && x.outcome == Replied(Answer(remote.listing.value))
      && x.calls == [CreateMessage(threadId, message), CreateRun(threadId, agentId)]
                    + Repeat(GetRun(threadId), k) + [ListMessages(threadId)]
  {
  }

  /**
   * `success = true` exactly when every remote call went through, the run
   * completed, and the listing holds an assistant message.
   */
  lemma SuccessIff(threadId: string, agentId: string, message: string, remote: Remote)
    ensures Converse(threadId, agentId, message, remote).outcome.Replied?
            && Converse(threadId, agentId, message, remote).outcome.reply.success
      <==> && remote.messagePosted && remote.runStarted.Some?
           && Poll(remote.runStarted.value, remote.polls).Settled?
           && Poll(remote.runStarted.value, remote.polls).status == Completed
           && remote.listing.Some?
           && exists j :: 0 <= j < |remote.listing.value| && remote.listing.value[j].role == AssistantRole
  {
    if remote.listing.Some? {
      AnswerSucceedsIffAssistant(remote.listing.value);
    }
  }

  /** `agentThreads[sessionId]` is truthy: present and not the empty string. */
  predicate HasThread(threads: map<string, string>, sessionId: string) {
    sessionId in threads && threads[sessionId] != ""
  }

  /** The module-level `agentThreads` object, shared by every service instance. */
  class ThreadTable {
    var threads: map<string, string>

    constructor ()
      ensures threads == map[]
    {
      threads := map[];
    }
  }

  class AgentService {
    const agentId: string
    const table: ThreadTable
    /** Every remote call made through this service, oldest first. */
    ghost var calls: seq<Call>

    constructor (agentId: string, table: ThreadTable)
      ensures this.agentId == agentId && this.table == table && calls == []
    {
      this.agentId := agentId;
      this.table := table;
      calls := [];
    }

    /** `getOrCreateThread`; `created` is what `createThread` would return. */
    method GetOrCreateThread(sessionId: string, created: Option<string>) returns (r: Result<string>)
      modifies this`calls, table`threads
      ensures HasThread(old(table.threads), sessionId) ==>
        r == Ok(old(table.threads)[sessionId]) && table.threads == old(table.threads) && calls == old(calls)
      ensures !HasThread(old(table.threads), sessionId) ==> calls == old(calls) + [CreateThread]
      ensures !HasThread(old(table.threads), sessionId) && created.Some? ==>
        r == Ok(created.value) && table.threads == old(table.threads)[sessionId := created.value]
      ensures !HasThread(old(table.threads), sessionId) && created.None? ==>
        r == Err(ThreadCreationFailed) && table.threads == old(table.threads)
    {
      if !HasThread(table.threads, sessionId) {
        calls := calls + [CreateThread];
        match created
        case None =>
          return Err(ThreadCreationFailed);
        case Some(id) =>
          table.threads := table.threads[sessionId := id];
          return Ok(id);
      }
      return Ok(table.threads[sessionId]);
    }

    /** `processMessage`; `remote` answers the remote calls it makes. */
    method ProcessMessage(sessionId: string, message: string, remote: Remote) returns (outcome: Outcome)
      modifies this`calls, table`threads
      ensures sessionId == "" || message == "" ==>
        outcome == Raised(MissingArguments) && table.threads == old(table.threads) && calls == old(calls)
      ensures sessionId != "" && message != "" && HasThread(old(table.threads), sessionId) ==>
        var x := Converse(old(table.threads)[sessionId], agentId, message, remote);
        outcome == x.outcome && calls == old(calls) + x.calls && table.threads == old(table.threads)
      ensures sessionId != "" && message != "" && !HasThread(old(table.threads), sessionId) && remote.newThread.None? ==>
        outcome == Replied(Reply(false, GenericApology))
        && calls == old(calls) + [CreateThread] && table.threads == old(table.threads)
      ensures sessionId != "" && message != "" && !HasThread(old(table.threads), sessionId) && remote.newThread.Some? ==>
        var x := Converse(remote.newThread.value, agentId, message, remote);
        outcome == x.outcome && calls == old(calls) + [CreateThread] + x.calls
        && table.threads == old(table.threads)[sessionId := remote.newThread.value]
    {
      if sessionId == "" || message == "" {
        return Raised(MissingArguments);
      }
      var resolved := GetOrCreateThread(sessionId, remote.newThread);
      if resolved.Err? {
        return Replied(Reply(false, GenericApology));
      }
      outcome := RunConversation(resolved.value, message, remote);
    }

    /** The body of `processMessage`'s `try` after `getOrCreateThread` returned `threadId`. */
    method RunConversation(threadId: string, message: string, remote: Remote) returns (outcome: Outcome)
      modifies this`calls
      ensures var x := Converse(threadId, agentId, message, remote);
        outcome == x.outcome && calls == old(calls) + x.calls
    {
      calls := calls + [CreateMessage(threadId, message)];
      if !remote.messagePosted {
        return Replied(Reply(false, GenericApology));
      }
      calls := calls + [CreateRun(threadId, agentId)];
      if remote.runStarted.None? {
        return Replied(Reply(false, GenericApology));
      }
      ghost var started := calls;
      var status := remote.runStarted.value;
      var i := 0;
      while IsRunning(status)
        invariant i <= |remote.polls|
        invariant PollFrom(status, remote.polls, i) == Poll(remote.runStarted.value, remote.polls)
        invariant calls == started + Repeat(GetRun(threadId), i)
        decreases |remote.polls| - i
      {
        if i == |remote.polls| {
          return Polling;
        }
        calls := calls + [GetRun(threadId)];
        match remote.polls[i]
        case None =>
          return Replied(Reply(false, GenericApology));
        case Some(next) =>
          status := next;
        i := i + 1;
      }
      if status != Completed {
        return Replied(Reply(false, RunFailedReply(status)));
      }
      calls := calls + [ListMessages(threadId)];
      if remote.listing.None? {
        return Replied(Reply(false, GenericApology));
      }
      var reply := AnswerFromListing(remote.listing.value);
      return Replied(reply);
    }

    /** The end of `processMessage`'s `try` body: select the reply message and collect its text. */
    static method AnswerFromListing(msgs: seq<ThreadMessage>) returns (reply: Reply)
      ensures reply == Answer(msgs)
    {
      var latest := LatestAssistant(msgs);
      if latest.None? {
        return Reply(false, NoResponse);
      }
      var text := ExtractText(latest.value.content);
      return Reply(true, text);
    }
  }
}
