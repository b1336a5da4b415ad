/** The digital-twin workflow: the guardrail gate, then normaliser, router,
    one specialist agent and the answer verifier, each seeing the whole
    conversation so far. Agents are opaque: a `Runner` maps an agent and
    the history it is given to the items it adds and its final output. */
module Workflow {
  import opened Base
  import opened Guardrails

  datatype Agent =
    | InputNormalizer
    | IntentRouter
    | ProfileAgent
    | EvidenceAgent
    | MaterialsAgent
    | GeneralAgent
    | AnswerVerifier

  datatype RunResult = RunResult(newItems: seq<Val>, finalOutput: Val)

  type Runner = (Agent, seq<Val>) -> RunResult

  /** The message shown when a guardrail trips. */
  const Refusal: string :=
    "I can\U{2019}t help with that request. Please rephrase it in a professional and safe way."

  const MissingResult: string := "Agent result is undefined"

  /** What a run of the workflow did: its outcome, the agents it ran in
      order, and the conversation history it built. */
  datatype Run = Run(outcome: Outcome<Val>, ran: seq<Agent>, history: seq<Val>)

  /** The conversation's first item: the user's text as `input_text`. */
  function UserItem(text: string): Val {
    Obj([Field("role", Str("user")),
         Field("content", Arr([Obj([Field("type", Str("input_text")), Field("text", Str(text))])]))])
  }

  /** The specialist the router's `route` selects; `==` against a string. */
  function Specialist(route: Val): (a: Agent)
    ensures route == Str("profile") <==> a == ProfileAgent
    ensures route == Str("evidence") <==> a == EvidenceAgent
    ensures route == Str("materials") <==> a == MaterialsAgent
    ensures a == GeneralAgent <==> route !in {Str("profile"), Str("evidence"), Str("materials")}
  {
    if route == Str("profile") then ProfileAgent
    else if route == Str("evidence") then EvidenceAgent
    else if route == Str("materials") then MaterialsAgent
    else GeneralAgent
  }

  /** The agents the workflow runs, in order, when every one of them
      produces an output. */
  function Pipeline(route: Val): (r: seq<Agent>)
    ensures |r| == 4 && r[0] == InputNormalizer && r[1] == IntentRouter && r[3] == AnswerVerifier
    ensures r[2] == Specialist(route)
  {
    [InputNormalizer, IntentRouter, Specialist(route), AnswerVerifier]
  }

  /** `runWorkflow` with the guardrail results given. The safe text and the
      fail report are computed before the tripwire is looked at, so a throw
      from the safe-text helper ends the run first. */
  function Workflow(input: string, results: Option<seq<Val>>, run: Runner): Run {
    var history := [UserItem(input)];
    if SafeText(results, input).Threw? then Run(Threw("TypeError"), [], history)
    else if HasTripwire(results) then Run(Returned(Str(Refusal)), [], history)
    else
      var n := run(InputNormalizer, history);
      var h1 := history + n.newItems;
      if !Truthy(n.finalOutput) then Run(Threw(MissingResult), [InputNormalizer], h1)
      else
        var rt := run(IntentRouter, h1);
        var h2 := h1 + rt.newItems;
        if !Truthy(rt.finalOutput) then Run(Threw(MissingResult), [InputNormalizer, IntentRouter], h2)
        else Answer(Prop(rt.finalOutput, "route"), h2, run)
  }

  /** The specialist and the verifier, once the route is known. */
  function Answer(route: Val, history: seq<Val>, run: Runner): Run {
    var agent := Specialist(route);
    var s := run(agent, history);
    var h3 := history + s.newItems;
    if !Truthy(s.finalOutput) then Run(Threw(MissingResult), [InputNormalizer, IntentRouter, agent], h3)
    else
      var v := run(AnswerVerifier, h3);
      var h4 := h3 + v.newItems;
      if !Truthy(v.finalOutput) then Run(Threw(MissingResult), Pipeline(route), h4)
      else Run(Returned(Prop(v.finalOutput, "final_answer")), Pipeline(route), h4)
  }

  /** `runWorkflow`: the history is a local list each agent's new items are
      pushed onto. */
  method RunWorkflow(input: string, results: Option<seq<Val>>, run: Runner) returns (r: Run)
    ensures r == Workflow(input, results, run)
  {
    var history := [UserItem(input)];
    var safe := GetGuardrailSafeText(results, input);
    if safe.Threw? {
      return Run(Threw("TypeError"), [], history);
    }
    if HasTripwire(results) {
      return Run(Returned(Str(Refusal)), [], history);
    }
    var n := run(InputNormalizer, history);
    history := history + n.newItems;
    if !Truthy(n.finalOutput) {
      return Run(Threw(MissingResult), [InputNormalizer], history);
    }
    var rt := run(IntentRouter, history);
    history := history + rt.newItems;
    if !Truthy(rt.finalOutput) {
      return Run(Threw(MissingResult), [InputNormalizer, IntentRouter], history);
    }
    r := RunAnswer(Prop(rt.finalOutput, "route"), history, run);
  }

  /** The specialist the route selects, then the answer verifier. */
  method RunAnswer(route: Val, history: seq<Val>, run: Runner) returns (r: Run)
    ensures r == Answer(route, history, run)
  {
    var agent := Specialist(route);
    var s := run(agent, history);
    var h := history + s.newItems;
    if !Truthy(s.finalOutput) {
      return Run(Threw(MissingResult), [InputNormalizer, IntentRouter, agent], h);
    }
    var v := run(AnswerVerifier, h);
    h := h + v.newItems;
    if !Truthy(v.finalOutput) {
      return Run(Threw(MissingResult), [InputNormalizer, IntentRouter, agent, AnswerVerifier], h);
    }
    return Run(Returned(Prop(v.finalOutput, "final_answer")), [InputNormalizer, IntentRouter, agent, AnswerVerifier], h);
  }

  /** A tripped guardrail yields the refusal and runs no agent. */
  lemma TripwireRefuses(input: string, results: Option<seq<Val>>, run: Runner)
    requires HasTripwire(results) && !SafeText(results, input).Threw?
    ensures Workflow(input, results, run).outcome == Returned(Str(Refusal))
    ensures Workflow(input, results, run).ran == []
  {
  }

  /** A returned answer is the verifier's `final_answer`, given after the
      route's specialist, and the verifier saw the specialist's items. */
  lemma AnswerComesFromVerifier(route: Val, history: seq<Val>, run: Runner)
    requires Answer(route, history, run).outcome.Returned?
    ensures var h3 := history + run(Specialist(route), history).newItems;
      var w := Answer(route, history, run);
      && w.ran == Pipeline(route)
      && Truthy(run(AnswerVerifier, h3).finalOutput)
      && w.outcome.value == Prop(run(AnswerVerifier, h3).finalOutput, "final_answer")
      && w.history == h3 + run(AnswerVerifier, h3).newItems
  {
  }

  /** A run that passes the gate and returns has run all four agents, and
      its history starts with the user's message. */
  lemma ReturnedRunsPipeline(input: string, results: Option<seq<Val>>, run: Runner)
    requires !HasTripwire(results)
    requires Workflow(input, results, run).outcome.Returned?
    ensures var w := Workflow(input, results, run);
      |w.ran| == 4 && w.ran[0] == InputNormalizer && w.ran[1] == IntentRouter && w.ran[3] == AnswerVerifier
      && |w.history| >= 1 && w.history[0] == UserItem(input)
  {
  }

  /** Each route runs its own specialist; every other route the general one. */
  lemma RouteSelectsAgent(route: Val, history: seq<Val>, run: Runner)
    ensures |Answer(route, history, run).ran| >= 3
    ensures Answer(route, history, run).ran[2] == Specialist(route)
    ensures route == Str("profile") ==> Answer(route, history, run).ran[2] == ProfileAgent
    ensures route != Str("profile") && route != Str("evidence") && route != Str("materials")
            ==> Answer(route, history, run).ran[2] == GeneralAgent
  {
  }

  /** An agent without a final output makes the run throw, and no agent runs
      after it. */
  lemma MissingOutputThrows(route: Val, history: seq<Val>, run: Runner)
    requires !Truthy(run(Specialist(route), history).finalOutput)
    ensures Answer(route, history, run).outcome == Threw(MissingResult)
    ensures AnswerVerifier !in Answer(route, history, run).ran
  {
  }
}
