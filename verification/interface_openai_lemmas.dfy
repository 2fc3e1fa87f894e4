/** Properties of the polling loop and of `generate_response`, proved on their
    specifications in module InterfaceOpenAI. */
module InterfaceOpenAILemmas {
  import opened Wrappers
  import opened InterfaceOpenAI

  /** The history after `k` more retrieve calls on one run. */
  function AfterPolls(h: seq<Call>, threadId: string, runId: string, k: nat): (s: seq<Call>)
    ensures |s| == |h| + k && s[..|h|] == h
    ensures forall i :: |h| <= i < |s| ==> s[i] == RunsRetrieve(threadId, runId)
  {
    h + seq(k, _ => RunsRetrieve(threadId, runId))
  }

  /** At poll `j` the run had not completed, and the next retrieve call succeeded. */
  ghost predicate StillRunning(r: Remote, h: seq<Call>, threadId: string, runId: string, j: nat) {
    && r.runStatus(AfterPolls(h, threadId, runId, j)) != Completed
    && r.accepts(AfterPolls(h, threadId, runId, j + 1))
  }

  /** Starting from history `h`, the run reports "completed" after exactly `k`
      retrieve calls, every one of which succeeded, and not before. */
  ghost predicate CompletesAfter(r: Remote, h: seq<Call>, threadId: string, runId: string, k: nat) {
    && r.runStatus(AfterPolls(h, threadId, runId, k)) == Completed
    && forall j: nat :: j < k ==> StillRunning(r, h, threadId, runId, j)
  }

  lemma AfterNoPolls(h: seq<Call>, threadId: string, runId: string)
    ensures AfterPolls(h, threadId, runId, 0) == h
  {
  }

  lemma AfterPollsShift(h: seq<Call>, threadId: string, runId: string, k: nat)
    ensures AfterPolls(h + [RunsRetrieve(threadId, runId)], threadId, runId, k)
         == AfterPolls(h, threadId, runId, k + 1)
  {
  }

  /** The loop extends the log only by retrieve calls on the same thread and
      run, followed at most by one listing of that thread. */
  lemma {:induction false} PollLog(r: Remote, h: seq<Call>, threadId: string, runId: string, fuel: nat)
    ensures var log := Poll(r, h, threadId, runId, fuel).1;
      && |h| <= |log| && log[..|h|] == h
      && forall i :: |h| <= i < |log| ==>
           log[i] == RunsRetrieve(threadId, runId) || (i == |log| - 1 && log[i] == MessagesList(threadId))
    decreases fuel
  {
    if r.runStatus(h) != Completed && fuel > 0 {
      var h' := h + [RunsRetrieve(threadId, runId)];
      if r.accepts(h') {
        PollLog(r, h', threadId, runId, fuel - 1);
        var log := Poll(r, h', threadId, runId, fuel - 1).1;
        assert log[..|h'|] == h';
        assert log[..|h|] == h' [..|h|];
      }
    }
  }

  /** The loop answers only after the run reported "completed": if it
      answers, there is a number of polls after which the run completed, and
      the answer is the reply read from the listing made right after. */
  lemma {:induction false} PollAnswersOnlyAfterCompleted(r: Remote, h: seq<Call>, threadId: string, runId: string, fuel: nat)
    ensures var res := Poll(r, h, threadId, runId, fuel);
      res.0.Answered? ==>
        exists k: nat :: k <= fuel && CompletesAfter(r, h, threadId, runId, k)
          && res.1 == AfterPolls(h, threadId, runId, k) + [MessagesList(threadId)]
          && res.0 == ReplyOf(r.listing(res.1))
    decreases fuel
  {
    var res := Poll(r, h, threadId, runId, fuel);
    if res.0.Answered? {
      AfterNoPolls(h, threadId, runId);
      if r.runStatus(h) == Completed {
        assert CompletesAfter(r, h, threadId, runId, 0);
      } else {
        var h' := h + [RunsRetrieve(threadId, runId)];
        assert res == Poll(r, h', threadId, runId, fuel - 1);
        PollAnswersOnlyAfterCompleted(r, h', threadId, runId, fuel - 1);
        var k: nat :| k <= fuel - 1 && CompletesAfter(r, h', threadId, runId, k)
          && res.1 == AfterPolls(h', threadId, runId, k) + [MessagesList(threadId)]
          && res.0 == ReplyOf(r.listing(res.1));
        ShiftCompletion(r, h, threadId, runId, k);
      }
    }
  }

  /** One successful poll that did not see "completed", followed by
      completion after `k` more polls, is completion after `k + 1` polls. */
  lemma ShiftCompletion(r: Remote, h: seq<Call>, threadId: string, runId: string, k: nat)
    requires r.runStatus(h) != Completed && r.accepts(h + [RunsRetrieve(threadId, runId)])
    requires CompletesAfter(r, h + [RunsRetrieve(threadId, runId)], threadId, runId, k)
    ensures CompletesAfter(r, h, threadId, runId, k + 1)
    ensures AfterPolls(h + [RunsRetrieve(threadId, runId)], threadId, runId, k) == AfterPolls(h, threadId, runId, k + 1)
  {
    var h' := h + [RunsRetrieve(threadId, runId)];
    AfterPollsShift(h, threadId, runId, k);
    forall j: nat | j < k + 1
      ensures StillRunning(r, h, threadId, runId, j)
    {
      if j == 0 {
        AfterNoPolls(h, threadId, runId);
        AfterPollsShift(h, threadId, runId, 0);
        AfterNoPolls(h', threadId, runId);
      } else {
        assert StillRunning(r, h', threadId, runId, j - 1);
        AfterPollsShift(h, threadId, runId, j - 1);
        AfterPollsShift(h, threadId, runId, j);
      }
    }
  }

  /** Conversely, a run that completes after `k` successful polls, within
      the budget, is answered from the listing made right after. */
  lemma {:induction false} PollReachesCompletion(r: Remote, h: seq<Call>, threadId: string, runId: string, fuel: nat, k: nat)
    requires k <= fuel && CompletesAfter(r, h, threadId, runId, k)
    ensures Poll(r, h, threadId, runId, fuel) == FetchReply(r, AfterPolls(h, threadId, runId, k), threadId)
    decreases k
  {
    AfterNoPolls(h, threadId, runId);
    if k > 0 {
      var h' := h + [RunsRetrieve(threadId, runId)];
      assert StillRunning(r, h, threadId, runId, 0);
      AfterPollsShift(h, threadId, runId, 0);
      AfterNoPolls(h', threadId, runId);
      forall j: nat | j < k - 1
        ensures StillRunning(r, h', threadId, runId, j)
      {
        assert StillRunning(r, h, threadId, runId, j + 1);
        AfterPollsShift(h, threadId, runId, j);
        AfterPollsShift(h, threadId, runId, j + 1);
      }
      AfterPollsShift(h, threadId, runId, k - 1);
      PollReachesCompletion(r, h', threadId, runId, fuel - 1, k - 1);
    }
  }

  /** Statuses other than "completed" (failed, cancelled, expired included)
      never leave the loop: a run that never reports "completed" within the
      budget is never answered. */
  lemma PollNeverAnswersWithoutCompletion(r: Remote, h: seq<Call>, threadId: string, runId: string, fuel: nat)
    requires forall j: nat :: j <= fuel ==> r.runStatus(AfterPolls(h, threadId, runId, j)) != Completed
    ensures !Poll(r, h, threadId, runId, fuel).0.Answered?
  {
    PollAnswersOnlyAfterCompleted(r, h, threadId, runId, fuel);
  }

  /** Only "completed" ends the loop: when no poll within the budget reports
      "completed" (whatever else it reports, failed, cancelled and expired
      included) and every retrieve succeeds, the loop polls the same run
      `fuel` times and is still polling. */
  lemma {:induction false} PollKeepsPolling(r: Remote, h: seq<Call>, threadId: string, runId: string, fuel: nat)
    requires forall j: nat :: j <= fuel ==> r.runStatus(AfterPolls(h, threadId, runId, j)) != Completed
    requires forall j: nat :: 1 <= j <= fuel ==> r.accepts(AfterPolls(h, threadId, runId, j))
    ensures Poll(r, h, threadId, runId, fuel) == (Polling, AfterPolls(h, threadId, runId, fuel))
    decreases fuel
  {
    AfterNoPolls(h, threadId, runId);
    if fuel > 0 {
      var h' := h + [RunsRetrieve(threadId, runId)];
      AfterPollsShift(h, threadId, runId, 0);
      AfterNoPolls(h', threadId, runId);
      assert r.accepts(AfterPolls(h, threadId, runId, 1));
      forall j: nat | j <= fuel - 1
        ensures r.runStatus(AfterPolls(h', threadId, runId, j)) != Completed
        ensures 1 <= j ==> r.accepts(AfterPolls(h', threadId, runId, j))
      {
        AfterPollsShift(h, threadId, runId, j);
        assert r.runStatus(AfterPolls(h, threadId, runId, j + 1)) != Completed;
      }
      PollKeepsPolling(r, h', threadId, runId, fuel - 1);
      AfterPollsShift(h, threadId, runId, fuel - 1);
    }
  }

  /** An empty or missing question is refused before any remote call. */
  lemma GenerateRefusesBlankQuestion(r: Remote, h: seq<Call>, question: Option<string>, kwargs: map<string, string>, fuel: nat)
    requires question == None || question == Some("")
    ensures GenerateResponseSpec(r, h, question, kwargs, fuel) == (Raised(ValueError), h)
  {
  }

  /** `_run_assistant` first creates the run on the given thread, then
      polls only that run on that thread, then lists that thread. */
  lemma RunAssistantLog(r: Remote, h: seq<Call>, threadId: string, assistantId: string, fuel: nat)
    ensures var log := RunAssistantSpec(r, h, threadId, assistantId, fuel).1;
      var runId := r.issuedId(h + [RunsCreate(threadId, assistantId)]);
      && |h| < |log| && log[..|h| + 1] == h + [RunsCreate(threadId, assistantId)]
      && forall i :: |h| + 1 <= i < |log| ==>
           log[i] == RunsRetrieve(threadId, runId) || (i == |log| - 1 && log[i] == MessagesList(threadId))
  {
    var h' := h + [RunsCreate(threadId, assistantId)];
    if r.accepts(h') {
      PollLog(r, h', threadId, r.issuedId(h'), fuel);
    }
  }

  /** The order of the remote calls of `generate_response`: the user message
      goes to the thread first, then the run is created on the same thread,
      then that run (and only it) is polled on that thread, and finally that
      thread's messages are listed. Missing keyword arguments fall back to
      the configured defaults (SettingsFor). */
  lemma GenerateCallOrder(r: Remote, h: seq<Call>, question: Option<string>, kwargs: map<string, string>, fuel: nat)
    requires !IsBlank(question)
    ensures var s := SettingsFor(kwargs);
      var message := MessagesCreate(s.threadId, "user", FormatUserQuestion(s.userName, question).value.value);
      var log := GenerateResponseSpec(r, h, question, kwargs, fuel).1;
      var runId := r.issuedId(h + [message, RunsCreate(s.threadId, s.assistantId)]);
      && |h| < |log| && log[..|h| + 1] == h + [message]
      && (|log| > |h| + 1 ==> log[|h| + 1] == RunsCreate(s.threadId, s.assistantId))
      && forall i :: |h| + 2 <= i < |log| ==>
           log[i] == RunsRetrieve(s.threadId, runId) || (i == |log| - 1 && log[i] == MessagesList(s.threadId))
  {
    var s := SettingsFor(kwargs);
    var message := MessagesCreate(s.threadId, "user", FormatUserQuestion(s.userName, question).value.value);
    var h1 := h + [message];
    assert h1 + [RunsCreate(s.threadId, s.assistantId)] == h + [message, RunsCreate(s.threadId, s.assistantId)];
    if r.accepts(h1) {
      RunAssistantLog(r, h1, s.threadId, s.assistantId, fuel);
      var log := RunAssistantSpec(r, h1, s.threadId, s.assistantId, fuel).1;
      assert log[..|h| + 1] == (log[..|h1| + 1])[..|h| + 1];
      assert log[|h1|] == (log[..|h1| + 1])[|h1|];
    }
  }

  /** `generate_response` returns a reply only after the run it created
      reported "completed"; the reply is read from the listing of the
      thread's messages made right after. */
  lemma GenerateAnswersOnlyAfterCompleted(r: Remote, h: seq<Call>, question: Option<string>, kwargs: map<string, string>, fuel: nat)
    ensures var res := GenerateResponseSpec(r, h, question, kwargs, fuel);
      res.0.Answered? ==>
        && !IsBlank(question)
        && var s := SettingsFor(kwargs);
           var content := FormatUserQuestion(s.userName, question).value.value;
           var h2 := h + [MessagesCreate(s.threadId, "user", content), RunsCreate(s.threadId, s.assistantId)];
           && (exists k: nat :: k <= fuel && CompletesAfter(r, h2, s.threadId, r.issuedId(h2), k))
           && res.0 == ReplyOf(r.listing(res.1))
  {
    if !IsBlank(question) {
      var s := SettingsFor(kwargs);
      var content := FormatUserQuestion(s.userName, question).value.value;
      var h1 := h + [MessagesCreate(s.threadId, "user", content)];
      var h2 := h1 + [RunsCreate(s.threadId, s.assistantId)];
      assert h2 == h + [MessagesCreate(s.threadId, "user", content), RunsCreate(s.threadId, s.assistantId)];
      if r.accepts(h1) && r.accepts(h2) {
        PollAnswersOnlyAfterCompleted(r, h2, s.threadId, r.issuedId(h2), fuel);
      }
    }
  }
}
