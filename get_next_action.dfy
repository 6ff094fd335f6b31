/**
 * The action planner: asks the decision service for the next action, up to
 * `MaxRetries` times with exponential backoff between attempts, and falls back
 * to a deterministic action when every attempt fails.
 */
module Planner {
  import opened Wrappers
  import opened OutputSchema
  import opened ResearchContext

  const MaxRetries: nat := 3
  const BaseDelayMs: nat := 1000

  /** The decision service: attempt `k` at step `s` returns `decide(s, k)`;
      `None` is a thrown error. */
  type DecisionService = (nat, nat) -> Option<Action>

  /** A call succeeds when the service answers and the schema accepts the answer
      (a schema mismatch is thrown like a transport error). */
  predicate Accepted(o: Option<Action>) {
    o.Some? && SchemaValid(o.value)
  }

  function Pow2(n: nat): (p: nat)
    ensures p >= 1
  {
    if n == 0 then 1 else 2 * Pow2(n - 1)
  }

  /** The wait before the attempt following failed attempt `attempt`. */
  function BackoffDelay(attempt: nat): nat
    requires attempt >= 1
  {
    BaseDelayMs * Pow2(attempt - 1)
  }

  /** The action used when every attempt failed. */
  function Fallback(step: nat, question: string): (a: Action)
    ensures WellFormed(a) && !a.kind.Scrape?
    ensures a.title.None? && a.description.None?
    ensures step <= 1 ==> a.kind == Search(question)
    ensures step > 1 ==> a.kind == Answer
  {
    if step <= 1 then Action(Search(question), None, None)
    else Action(Answer, None, None)
  }

  /** What one planner invocation produces: the action, the number of calls
      made to the decision service, and the backoff waits in order. */
  datatype PlanOutcome = PlanOutcome(action: Action, calls: nat, delays: seq<nat>)

  /** The planner's behaviour from attempt `attempt` on. */
  function PlanFrom(step: nat, question: string, decide: DecisionService, attempt: nat): PlanOutcome
    requires 1 <= attempt <= MaxRetries + 1
    decreases MaxRetries + 1 - attempt
  {
    if attempt > MaxRetries then PlanOutcome(Fallback(step, question), MaxRetries, [])
    else if Accepted(decide(step, attempt)) then PlanOutcome(decide(step, attempt).value, attempt, [])
    else
      var rest := PlanFrom(step, question, decide, attempt + 1);
      var wait := if attempt < MaxRetries then [BackoffDelay(attempt)] else [];
      PlanOutcome(rest.action, rest.calls, wait + rest.delays)
  }

  /** The planner's behaviour at `step`. */
  function Plan(step: nat, question: string, decide: DecisionService): PlanOutcome {
    PlanFrom(step, question, decide, 1)
  }

  /** `getNextAction`: the retry loop. */
  method GetNextAction(ctx: SystemContext, decide: DecisionService) returns (action: Action, calls: nat, delays: seq<nat>)
    ensures PlanOutcome(action, calls, delays) == Plan(ctx.step, ctx.question, decide)
  {
    var step := ctx.GetStep();
    var question := ctx.GetQuestion();
    calls, delays := 0, [];
    for attempt := 1 to MaxRetries + 1
      invariant calls == attempt - 1
      invariant var rest := PlanFrom(step, question, decide, attempt);
        Plan(step, question, decide) == PlanOutcome(rest.action, rest.calls, delays + rest.delays)
    {
      var response := decide(step, attempt);
      calls := calls + 1;
      if Accepted(response) {
        action := response.value;
        return;
      }
      if attempt < MaxRetries {
        delays := delays + [BackoffDelay(attempt)];
      }
    }
    action := Fallback(step, question);
  }

  /** No attempt in `from..to` (inclusive start, exclusive end) was accepted. */
  predicate NoneAccepted(step: nat, decide: DecisionService, from: nat, to: nat) {
    forall k :: from <= k < to ==> !Accepted(decide(step, k))
  }

  /** The first accepted attempt decides: its action is returned unchanged and
      no later attempt is made. */
  lemma {:induction false} FirstAcceptedWins(step: nat, question: string, decide: DecisionService, attempt: nat, k: nat)
    requires 1 <= attempt <= k <= MaxRetries
    requires NoneAccepted(step, decide, attempt, k) && Accepted(decide(step, k))
    ensures PlanFrom(step, question, decide, attempt).action == decide(step, k).value
    ensures PlanFrom(step, question, decide, attempt).calls == k
    decreases k - attempt
  {
    if attempt < k {
      FirstAcceptedWins(step, question, decide, attempt + 1, k);
    }
  }

  /** When every attempt fails, the fallback is used after exactly `MaxRetries` calls. */
  lemma {:induction false} AllFailedFallsBack(step: nat, question: string, decide: DecisionService, attempt: nat)
    requires 1 <= attempt <= MaxRetries + 1
    requires NoneAccepted(step, decide, attempt, MaxRetries + 1)
    ensures PlanFrom(step, question, decide, attempt).action == Fallback(step, question)
    ensures PlanFrom(step, question, decide, attempt).calls == MaxRetries
    decreases MaxRetries + 1 - attempt
  {
    if attempt <= MaxRetries {
      AllFailedFallsBack(step, question, decide, attempt + 1);
    }
  }

  /** At most `MaxRetries` calls, at least one; one wait fewer than calls, the
      `i`-th wait being `BaseDelayMs * 2^i`. */
  lemma {:induction false} PlanFromSchedule(step: nat, question: string, decide: DecisionService, attempt: nat)
    requires 1 <= attempt <= MaxRetries + 1
    ensures var r := PlanFrom(step, question, decide, attempt);
      && (attempt <= MaxRetries ==> attempt <= r.calls)
      && r.calls <= MaxRetries
      && |r.delays| == (if attempt <= MaxRetries then r.calls - attempt else 0)
      && forall i :: 0 <= i < |r.delays| ==> r.delays[i] == BaseDelayMs * Pow2(attempt - 1 + i)
    decreases MaxRetries + 1 - attempt
  {
    if attempt <= MaxRetries && !Accepted(decide(step, attempt)) {
      PlanFromSchedule(step, question, decide, attempt + 1);
    }
  }

  function Sum(xs: seq<nat>): nat {
    if xs == [] then 0 else xs[0] + Sum(xs[1..])
  }

  /** The planner calls the decision service between one and three times, waits
      1000 ms then 2000 ms between attempts and never after the last, so it waits
      at most 3000 ms in all. */
  lemma PlanSchedule(step: nat, question: string, decide: DecisionService)
    ensures var r := Plan(step, question, decide);
      && 1 <= r.calls <= MaxRetries
      && |r.delays| == r.calls - 1
      && (|r.delays| >= 1 ==> r.delays[0] == 1000)
      && (|r.delays| >= 2 ==> r.delays[1] == 2000)
      && Sum(r.delays) <= 3000
  {
    PlanFromSchedule(step, question, decide, 1);
    var d := Plan(step, question, decide).delays;
    assert Pow2(1) == 2;
    if |d| == 2 {
      assert d[1..][1..] == [];
      assert Sum(d[1..]) == d[1] + Sum(d[1..][1..]);
    } else if |d| == 1 {
      assert d[1..] == [];
    }
  }

  /** The planner's result is the first accepted answer if there is one and
      the fallback otherwise. */
  lemma PlanResult(step: nat, question: string, decide: DecisionService)
    ensures var a := Plan(step, question, decide).action;
      || (exists k :: 1 <= k <= MaxRetries && NoneAccepted(step, decide, 1, k) && Accepted(decide(step, k))
                     && a == decide(step, k).value)
      || (NoneAccepted(step, decide, 1, MaxRetries + 1) && a == Fallback(step, question))
  {
    if Accepted(decide(step, 1)) {
      FirstAcceptedWins(step, question, decide, 1, 1);
    } else if Accepted(decide(step, 2)) {
      FirstAcceptedWins(step, question, decide, 1, 2);
    } else if Accepted(decide(step, 3)) {
      FirstAcceptedWins(step, question, decide, 1, 3);
    } else {
      AllFailedFallsBack(step, question, decide, 1);
    }
  }

  /** Whatever the decision service does, the planner yields a well-formed action. */
  lemma PlanWellFormed(step: nat, question: string, decide: DecisionService)
    ensures WellFormed(Plan(step, question, decide).action)
  {
    PlanResult(step, question, decide);
  }
}
