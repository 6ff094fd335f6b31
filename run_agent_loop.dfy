/**
 * The orchestrator loop: while the step budget lasts, increment the step, ask
 * the planner for an action and carry it out; an answer ends the run in
 * standard mode, and running out of steps forces a final answer in degraded
 * mode.
 */
module AgentLoop {
  import opened Wrappers
  import opened OutputSchema
  import opened ResearchContext
  import opened Planner

  /** One organic hit as the search provider reports it. */
  datatype OrganicHit = OrganicHit(title: string, link: string, snippet: string, position: int)

  /** The search provider's answer; only `organic` is read by the loop. */
  datatype WebSearchResult = WebSearchResult(organic: Option<seq<OrganicHit>>)

  /** The extraction provider's answer for one URL. */
  datatype WebScraperResult = WebScraperResult(success: bool, markdown: Option<string>)

  /** The answer synthesizer's mode: `isFinal` absent (standard) or true (degraded). */
  datatype AnswerMode = Standard | Degraded

  /**
   * Everything outside the loop, as oracles. The run is determined by these
   * outcomes, so indexing them by step (and by attempt, URL position or hit
   * position, and the answer by its mode) covers every outcome the services
   * can produce. `None` is a thrown error;
   * the decision, search and scrape errors are caught by the loop, an answer
   * synthesis error is not.
   */
  datatype Environment = Environment(
    decide: DecisionService,
    search: nat -> Option<WebSearchResult>,
    scrape: (nat, nat) -> Option<WebScraperResult>,
    clock: (nat, nat) -> string,
    answer: AnswerMode -> Option<string>)

  /** The search hits as stored in the ledger, one per organic hit, in order. */
  function FormatHits(hits: seq<OrganicHit>, step: nat, clock: (nat, nat) -> string): seq<QuerySearchResult> {
    seq(|hits|, i requires 0 <= i < |hits| =>
      QuerySearchResult(clock(step, i), hits[i].title, hits[i].link, hits[i].snippet))
  }

  /** A scrape is kept when it did not throw, reports success, and has markdown
      that is not the empty string. */
  predicate Kept(o: Option<WebScraperResult>) {
    o.Some? && o.value.success && o.value.markdown.Some? && o.value.markdown.value != ""
  }

  /** The scrape results kept from the first `n` URLs, in URL order. */
  function Collected(urls: seq<string>, step: nat, scrape: (nat, nat) -> Option<WebScraperResult>, n: nat): seq<ScrapeResult>
    requires n <= |urls|
  {
    if n == 0 then []
    else
      var o := scrape(step, n - 1);
      Collected(urls, step, scrape, n - 1)
        + (if Kept(o) then [ScrapeResult(urls[n - 1], o.value.markdown.value)] else [])
  }

  /** The inner loop of a scrape action: the URLs one by one, each failure
      isolated, the successes collected in order. */
  method ScrapeEach(urls: seq<string>, step: nat, scrape: (nat, nat) -> Option<WebScraperResult>)
    returns (scrapeResults: seq<ScrapeResult>)
    ensures scrapeResults == Collected(urls, step, scrape, |urls|)
  {
    scrapeResults := [];
    for i := 0 to |urls|
      invariant scrapeResults == Collected(urls, step, scrape, i)
    {
      var scrapeResult := scrape(step, i);
      if scrapeResult.Some? && scrapeResult.value.success
        && scrapeResult.value.markdown.Some? && scrapeResult.value.markdown.value != "" {
        scrapeResults := scrapeResults + [ScrapeResult(urls[i], scrapeResult.value.markdown.value)];
      }
    }
  }

  /** Every URL whose scrape is kept contributes its text, whatever happened to
      the other URLs. */
  lemma {:induction false} KeptUrlCollected(urls: seq<string>, step: nat, scrape: (nat, nat) -> Option<WebScraperResult>, n: nat, i: nat)
    requires i < n <= |urls| && Kept(scrape(step, i))
    ensures ScrapeResult(urls[i], scrape(step, i).value.markdown.value) in Collected(urls, step, scrape, n)
  {
    if i < n - 1 {
      KeptUrlCollected(urls, step, scrape, n - 1, i);
    }
  }

  /** Every collected result comes from a URL whose scrape was kept. */
  lemma {:induction false} CollectedFromKept(urls: seq<string>, step: nat, scrape: (nat, nat) -> Option<WebScraperResult>, n: nat, r: ScrapeResult)
    requires n <= |urls| && r in Collected(urls, step, scrape, n)
    ensures exists i :: 0 <= i < n && Kept(scrape(step, i)) && r == ScrapeResult(urls[i], scrape(step, i).value.markdown.value)
  {
    var o := scrape(step, n - 1);
    if r in Collected(urls, step, scrape, n - 1) {
      CollectedFromKept(urls, step, scrape, n - 1, r);
    } else {
      assert Kept(o) && r == ScrapeResult(urls[n - 1], o.value.markdown.value);
    }
  }

  /** At most one result per URL. */
  lemma {:induction false} CollectedLength(urls: seq<string>, step: nat, scrape: (nat, nat) -> Option<WebScraperResult>, n: nat)
    requires n <= |urls|
    ensures |Collected(urls, step, scrape, n)| <= n
  {
    if n > 0 {
      CollectedLength(urls, step, scrape, n - 1);
    }
  }

  /** What the planner decides at step `k` of a run on `question`. */
  function Decision(env: Environment, question: string, k: nat): Action {
    Plan(k, question, env.decide).action
  }

  datatype Continuation = Continue(state: ContextState) | Answered(state: ContextState)

  /** One pass of the loop body from ledger `s`. */
  function Advance(s: ContextState, env: Environment): (c: Continuation)
    ensures c.state.step == s.step + 1 && c.state.question == s.question
    ensures AppendOnly(s, c.state)
    ensures c.Answered? <==> Decision(env, s.question, s.step + 1).kind.Answer?
    ensures c.state.messages == s.messages
    ensures c.Answered? ==> c.state == s.(step := s.step + 1)
  {
    var s1 := s.(step := s.step + 1);
    match Decision(env, s.question, s1.step).kind
    case Search(query) =>
      var searchResult := env.search(s1.step);
      if searchResult.Some? then
        var formatted := FormatHits(searchResult.value.organic.GetOr([]), s1.step, env.clock);
        Continue(s1.(queryHistory := s1.queryHistory + [QueryResult(query, formatted)]))
      else Continue(s1)
    case Scrape(urls) =>
      var found := Collected(urls, s1.step, env.scrape, |urls|);
      Continue(if |found| > 0 then s1.(scrapeHistory := s1.scrapeHistory + found) else s1)
    case Answer =>
      Answered(s1)
  }

  /** The transcript entry for a synthesized answer; none when synthesis threw. */
  function Reply(answer: Option<string>): seq<ContextMessage> {
    if answer.Some? then [ContextMessage(AssistantSpeaker, answer.value)] else []
  }

  /** The end of a run: the ledger, the answer (`None` when `answerQuestion`
      threw, which `runAgentLoop` passes on to its caller) and the mode. */
  datatype RunResult = RunResult(state: ContextState, answer: Option<string>, mode: AnswerMode)

  /** `answerQuestion` in `mode`, then `addMessage` of its answer; a thrown
      synthesis error skips the message. */
  function Finish(s: ContextState, env: Environment, mode: AnswerMode): RunResult {
    var answer := env.answer(mode);
    RunResult(s.(messages := s.messages + Reply(answer)), answer, mode)
  }

  /** The loop from ledger `s` to the end of the run. */
  function Run(s: ContextState, env: Environment): RunResult
    decreases if s.step < MaxSteps then MaxSteps - s.step else 0
  {
    if s.step >= MaxSteps then Finish(s, env, Degraded)
    else
      match Advance(s, env)
      case Answered(s2) => Finish(s2, env, Standard)
      case Continue(s2) => Run(s2, env)
  }

  /** The ledger before the loop starts: the question set and the user's
      question as the first transcript message. */
  function Initial(question: string): ContextState {
    ContextState(question, 0, [], [], [ContextMessage(UserSpeaker, question)])
  }

  /** A whole run. */
  function AgentRun(question: string, env: Environment): RunResult {
    Run(Initial(question), env)
  }

  /** `runAgentLoop`: returns the answer and the ledger, which are those of
      `AgentRun`; `answer` is `None` when the synthesis error is thrown out. */
  method RunAgentLoop(question: string, env: Environment) returns (answer: Option<string>, ctx: SystemContext)
    ensures fresh(ctx)
    ensures ctx.State() == AgentRun(question, env).state && answer == AgentRun(question, env).answer
  {
    ctx := new SystemContext();
    ctx.SetQuestion(question);
    ctx.AddMessage(ContextMessage(UserSpeaker, question));
    assert ctx.State() == Initial(question);
    while !ctx.ShouldStop()
      invariant ctx.step <= MaxSteps
      invariant Run(ctx.State(), env) == AgentRun(question, env)
      decreases MaxSteps - ctx.step
    {
      ghost var before := ctx.State();
      ctx.IncrementStep();
      var action, _, _ := GetNextAction(ctx, env.decide);
      assert action == Decision(env, before.question, before.step + 1);
      match action.kind {
        case Search(query) =>
          var searchResult := env.search(ctx.step);
          if searchResult.Some? {
            var formattedResults := FormatHits(searchResult.value.organic.GetOr([]), ctx.step, env.clock);
            var _ := ctx.ReportQueries([QueryResult(query, formattedResults)]);
          }
        case Scrape(urls) =>
          var scrapeResults := ScrapeEach(urls, ctx.step, env.scrape);
          if |scrapeResults| > 0 {
            var _ := ctx.ReportScrapes(scrapeResults);
          }
        case Answer =>
          assert Advance(before, env) == Answered(ctx.State());
          answer := env.answer(Standard);
          if answer.Some? {
            ctx.AddMessage(ContextMessage(AssistantSpeaker, answer.value));
          }
          return;
      }
      assert Advance(before, env) == Continue(ctx.State());
    }
    answer := env.answer(Degraded);
    if answer.Some? {
      ctx.AddMessage(ContextMessage(AssistantSpeaker, answer.value));
    }
  }

  /**
   * The run from any ledger within budget: it only appends; it ends at a step
   * no greater than 10; it appends exactly one assistant message, the answer of
   * its mode, unless the synthesis of that answer threw; it ends in standard mode exactly at the first step whose decision
   * is an answer, and in degraded mode exactly when no step up to 10 decided to
   * answer.
   */
  lemma {:induction false} RunOutcome(s: ContextState, env: Environment)
    requires s.step <= MaxSteps
    ensures var r := Run(s, env);
      && AppendOnly(s, r.state)
      && r.state.step <= MaxSteps
      && r.state.messages == s.messages + Reply(r.answer)
      && r.answer == env.answer(r.mode)
      && (forall k :: s.step < k < r.state.step ==> !Decision(env, s.question, k).kind.Answer?)
      && (r.mode == Standard ==> s.step < r.state.step && Decision(env, s.question, r.state.step).kind.Answer?)
      && (r.mode == Degraded ==>
            r.state.step == MaxSteps && forall k :: s.step < k <= MaxSteps ==> !Decision(env, s.question, k).kind.Answer?)
    decreases MaxSteps - s.step
  {
    if s.step < MaxSteps {
      var c := Advance(s, env);
      if c.Continue? {
        assert Run(s, env) == Run(c.state, env);
        RunOutcome(c.state, env);
        AppendOnlyTransitive(s, c.state, Run(c.state, env).state);
      } else {
        assert Run(s, env) == Finish(c.state, env, Standard);
      }
    }
  }

  /** The loop stops exactly when the step reaches the budget: from a ledger at
      or past step 10 the run only appends the degraded answer, and before it
      at least one more step is taken. */
  lemma StopRule(s: ContextState, env: Environment)
    ensures s.step >= MaxSteps ==>
      var r := Run(s, env);
      && r.mode == Degraded && r.answer == env.answer(Degraded)
      && r.state == s.(messages := s.messages + Reply(env.answer(Degraded)))
    ensures s.step < MaxSteps ==> s.step < Run(s, env).state.step <= MaxSteps
  {
    if s.step < MaxSteps {
      var c := Advance(s, env);
      if c.Continue? {
        RunOutcome(c.state, env);
      }
    }
  }

  /** A whole run: at most 10 steps; the transcript is the question followed by
      exactly one answer, or by nothing when its synthesis threw; a degraded
      answer only after all 10 steps decided something other than an answer. */
  lemma AgentRunOutcome(question: string, env: Environment)
    ensures var r := AgentRun(question, env);
      && 1 <= r.state.step <= MaxSteps
      && r.state.question == question
      && r.state.messages == [ContextMessage(UserSpeaker, question)] + Reply(r.answer)
      && r.answer == env.answer(r.mode)
      && (r.mode == Standard <==> exists k :: 1 <= k <= MaxSteps && Decision(env, question, k).kind.Answer?)
      && (r.mode == Degraded ==> r.state.step == MaxSteps)
      && (r.mode == Standard ==>
            Decision(env, question, r.state.step).kind.Answer? && forall k :: 1 <= k < r.state.step ==> !Decision(env, question, k).kind.Answer?)
  {
    RunOutcome(Initial(question), env);
  }

  /** A successful search appends exactly one query result: the action's query
      and its organic hits (none when absent) one to one, with the link as URL. */
  lemma SearchStep(s: ContextState, env: Environment, query: string, found: WebSearchResult)
    requires Decision(env, s.question, s.step + 1).kind == Search(query)
    requires env.search(s.step + 1) == Some(found)
    ensures var hits := found.organic.GetOr([]);
      var c := Advance(s, env);
      && c.Continue?
      && c.state == s.(step := s.step + 1, queryHistory := s.queryHistory + [c.state.queryHistory[|s.queryHistory|]])
      && c.state.queryHistory[|s.queryHistory|].query == query
      && |c.state.queryHistory[|s.queryHistory|].result| == |hits|
      && forall i :: 0 <= i < |hits| ==>
           c.state.queryHistory[|s.queryHistory|].result[i] == QuerySearchResult(env.clock(s.step + 1, i), hits[i].title, hits[i].link, hits[i].snippet)
  {
  }

  /** A failed search changes nothing but the step; the loop goes on. */
  lemma FailedSearchStep(s: ContextState, env: Environment, query: string)
    requires Decision(env, s.question, s.step + 1).kind == Search(query)
    requires env.search(s.step + 1).None?
    ensures Advance(s, env) == Continue(s.(step := s.step + 1))
  {
  }

  /** A scrape extends the scrape history by the kept results, and only when
      there is at least one. */
  lemma ScrapeStep(s: ContextState, env: Environment, urls: seq<string>)
    requires Decision(env, s.question, s.step + 1).kind == Scrape(urls)
    ensures var found := Collected(urls, s.step + 1, env.scrape, |urls|);
      Advance(s, env) == Continue(s.(step := s.step + 1, scrapeHistory := s.scrapeHistory + found))
  {
    var s1 := s.(step := s.step + 1);
    var found := Collected(urls, s1.step, env.scrape, |urls|);
    assert Advance(s, env) == Continue(if |found| > 0 then s1.(scrapeHistory := s1.scrapeHistory + found) else s1);
    if |found| == 0 {
      assert s1.scrapeHistory + found == s1.scrapeHistory;
    }
  }

  // Worked runs.

  /** A schema-valid decision of kind `k`. */
  const WithTitle := (k: ActionKind) => Action(k, Some("title"), Some("description"))

  /** An immediate answer decision ends the run after one step, in standard
      mode, with the answer after the question; when the synthesis throws, the
      run ends there too, without an answer. */
  lemma ImmediateAnswer(question: string, env: Environment)
    requires env.decide(1, 1) == Some(WithTitle(Answer))
    ensures var r := AgentRun(question, env);
      && r.mode == Standard && r.answer == env.answer(Standard)
      && r.state.step == 1 && r.state.queryHistory == [] && r.state.scrapeHistory == []
      && (env.answer(Standard).Some? ==>
            r.state.messages == [ContextMessage(UserSpeaker, question), ContextMessage(AssistantSpeaker, env.answer(Standard).value)])
      && (env.answer(Standard).None? ==> r.state.messages == [ContextMessage(UserSpeaker, question)])
  {
    FirstAcceptedWins(1, question, env.decide, 1, 1);
  }

  /** Three failed decisions at step 1 fall back to searching for the question
      itself, and the loop carries on at step 2. */
  lemma FailedFirstDecision(question: string, env: Environment)
    requires forall k :: 1 <= k <= MaxRetries ==> env.decide(1, k).None?
    ensures Decision(env, question, 1).kind == Search(question)
    ensures Advance(Initial(question), env).Continue?
    ensures Advance(Initial(question), env).state.step == 1
    ensures AgentRun(question, env) == Run(Advance(Initial(question), env).state, env)
  {
    AllFailedFallsBack(1, question, env.decide, 1);
  }

  /** When the planner never decides to answer, all 10 steps run and the
      answer is degraded. */
  lemma NeverAnswers(question: string, env: Environment)
    requires forall k :: 1 <= k <= MaxSteps ==> !Decision(env, question, k).kind.Answer?
    ensures AgentRun(question, env).mode == Degraded
    ensures AgentRun(question, env).state.step == MaxSteps
    ensures AgentRun(question, env).answer == env.answer(Degraded)
  {
    AgentRunOutcome(question, env);
  }

  /** Search, search, answer, with three hits per search: two query results
      holding six hits in all, and a standard answer after step 3. */
  lemma SearchSearchAnswer(question: string, env: Environment, hits: seq<OrganicHit>)
    requires |hits| == 3
    requires env.decide(1, 1) == Some(WithTitle(Search("first")))
    requires env.decide(2, 1) == Some(WithTitle(Search("second")))
    requires env.decide(3, 1) == Some(WithTitle(Answer))
    requires env.search(1) == Some(WebSearchResult(Some(hits)))
    requires env.search(2) == Some(WebSearchResult(Some(hits)))
    ensures var r := AgentRun(question, env);
      && r.mode == Standard && r.state.step == 3
      && |r.state.queryHistory| == 2
      && r.state.queryHistory[0].query == "first" && r.state.queryHistory[1].query == "second"
      && |r.state.queryHistory[0].result| + |r.state.queryHistory[1].result| == 6
      && r.state.scrapeHistory == []
  {
    FirstAcceptedWins(1, question, env.decide, 1, 1);
    FirstAcceptedWins(2, question, env.decide, 1, 1);
    FirstAcceptedWins(3, question, env.decide, 1, 1);
    var s1 := Advance(Initial(question), env).state;
    var s2 := Advance(s1, env).state;
    assert s1.queryHistory == [QueryResult("first", FormatHits(hits, 1, env.clock))];
    assert s2.queryHistory == s1.queryHistory + [QueryResult("second", FormatHits(hits, 2, env.clock))];
    assert AgentRun(question, env) == Run(s1, env);
    assert Run(s1, env) == Run(s2, env);
  }
}
