/**
 * The evidence ledger of one research run: the step counter, the search and
 * scrape histories, the question and the run's transcript.
 */
module ResearchContext {

  /** The step budget of one run. */
  const MaxSteps: nat := 10

  /** One normalised search hit. */
  datatype QuerySearchResult = QuerySearchResult(date: string, title: string, url: string, snippet: string)

  /** One search: its query and its hits. */
  datatype QueryResult = QueryResult(query: string, result: seq<QuerySearchResult>)

  /** The extracted text of one scraped page. */
  datatype ScrapeResult = ScrapeResult(url: string, result: string)

  datatype Speaker = UserSpeaker | AssistantSpeaker

  /** A transcript entry. */
  datatype ContextMessage = ContextMessage(role: Speaker, content: string)

  /** The value of a ledger at one moment. */
  datatype ContextState = ContextState(
    question: string,
    step: nat,
    queryHistory: seq<QueryResult>,
    scrapeHistory: seq<ScrapeResult>,
    messages: seq<ContextMessage>)

  /** `later` was reached from `earlier` by appending only. */
  predicate AppendOnly(earlier: ContextState, later: ContextState) {
    && later.question == earlier.question
    && earlier.step <= later.step
    && earlier.queryHistory <= later.queryHistory
    && earlier.scrapeHistory <= later.scrapeHistory
    && earlier.messages <= later.messages
  }

  /** Appending only is transitive, so it holds across any number of steps. */
  lemma AppendOnlyTransitive(a: ContextState, b: ContextState, c: ContextState)
    requires AppendOnly(a, b) && AppendOnly(b, c)
    ensures AppendOnly(a, c)
  {
    assert a.queryHistory <= c.queryHistory by {
      assert c.queryHistory[..|b.queryHistory|][..|a.queryHistory|] == c.queryHistory[..|a.queryHistory|];
    }
    assert a.scrapeHistory <= c.scrapeHistory by {
      assert c.scrapeHistory[..|b.scrapeHistory|][..|a.scrapeHistory|] == c.scrapeHistory[..|a.scrapeHistory|];
    }
    assert a.messages <= c.messages by {
      assert c.messages[..|b.messages|][..|a.messages|] == c.messages[..|a.messages|];
    }
  }

  class SystemContext {
    var question: string
    var step: nat
    var queryHistory: seq<QueryResult>
    var scrapeHistory: seq<ScrapeResult>
    var messages: seq<ContextMessage>

    /** A fresh ledger: step 0, both histories and the transcript empty. */
    constructor ()
      ensures State() == ContextState("", 0, [], [], [])
    {
      question := "";
      step := 0;
      queryHistory := [];
      scrapeHistory := [];
      messages := [];
    }

    function State(): ContextState
      reads this
    {
      ContextState(question, step, queryHistory, scrapeHistory, messages)
    }

    /** The stop rule of the orchestrator loop. */
    predicate ShouldStop()
      reads this
    {
      step >= MaxSteps
    }

    function GetStep(): nat
      reads this
    {
      step
    }

    function GetQuestion(): string
      reads this
    {
      question
    }

    method IncrementStep()
      modifies this
      ensures State() == old(State()).(step := old(step) + 1)
    {
      step := step + 1;
    }

    method SetQuestion(q: string)
      modifies this
      ensures State() == old(State()).(question := q)
    {
      question := q;
    }

    method AddMessage(m: ContextMessage)
      modifies this
      ensures State() == old(State()).(messages := old(messages) + [m])
    {
      messages := messages + [m];
    }

    /** Appends `queries` in order, without deduplication, and returns the new
        length of the query history; nothing else changes. */
    method ReportQueries(queries: seq<QueryResult>) returns (length: nat)
      modifies this
      ensures State() == old(State()).(queryHistory := old(queryHistory) + queries)
      ensures length == |old(queryHistory)| + |queries| == |queryHistory|
      ensures AppendOnly(old(State()), State())
    {
      queryHistory := queryHistory + queries;
      length := |queryHistory|;
    }

    /** Appends `scrapes` in order and returns the new length of the scrape
        history; nothing else changes. */
    method ReportScrapes(scrapes: seq<ScrapeResult>) returns (length: nat)
      modifies this
      ensures State() == old(State()).(scrapeHistory := old(scrapeHistory) + scrapes)
      ensures length == |old(scrapeHistory)| + |scrapes| == |scrapeHistory|
      ensures AppendOnly(old(State()), State())
    {
      scrapeHistory := scrapeHistory + scrapes;
      length := |scrapeHistory|;
    }
  }
}
