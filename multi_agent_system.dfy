/**
 * The multi-agent system: `chat` routes a message, calls the chosen agent
 * with the recent history, and when the coordinator answers with a JSON plan
 * runs the plan's steps one after another, threading earlier outputs into
 * each later step. Language model replies and JSON parsing are parameters.
 */
module MultiAgentSystem {
  import opened Wrappers
  import opened Strings
  import opened JsonValues
  import opened AgentCore
  import opened AgentRegistry
  import opened AgentRouter
  import opened Conversation

  /** `isinstance(plan, dict) and plan.get("type") == "plan"` */
  predicate IsPlan(j: Json) {
    j.JObj? && JsonValues.Lookup(j.fields, "type") == Some(JStr("plan"))
  }

  function AsPlan(j: Option<Json>): (r: Option<Json>)
    ensures r.Some? <==> j.Some? && IsPlan(j.value)
    ensures r.Some? ==> r == j
  {
    if j.Some? && IsPlan(j.value) then j else None
  }

  /**
   * Plan detection in `chat`. The greedy brace search runs on the text with
   * its newlines removed; when it matches and the reply contains a code
   * fence, the code asks the match for a group it does not have, which raises
   * and is swallowed, so no plan. When it does not match, the whole reply is
   * parsed. (The fenced-block search the code tries in between can never
   * match then: see `BraceSpanSurvivesRemoval`.)
   */
  function DetectPlan(response: string, parse: Parser): Option<Json> {
    match BraceSpan(RemoveChar(response, '\n'))
    case Some(span) => if Contains(response, "```") then None else AsPlan(parse(span))
    case None => AsPlan(parse(response))
  }

  /** What a JSON parser does: a text that parses to an object has a '{' before a '}'. */
  ghost predicate ObjectsAreBraced(parse: Parser) {
    forall s :: parse(s).Some? && parse(s).value.JObj? ==>
      exists i, j :: 0 <= i < j < |s| && s[i] == '{' && s[j] == '}'
  }

  /**
   * A plan is found exactly when the text handed to the parser parses to a
   * plan object, and the reply never contains a code fence then: a fenced plan
   * is never executed.
   */
  lemma PlanDetection(response: string, parse: Parser)
    requires ObjectsAreBraced(parse)
    ensures DetectPlan(response, parse).Some? ==> IsPlan(DetectPlan(response, parse).value) && !Contains(response, "```")
    ensures DetectPlan(response, parse).Some? <==>
              if BraceSpan(RemoveChar(response, '\n')).Some?
              then !Contains(response, "```") && AsPlan(parse(BraceSpan(RemoveChar(response, '\n')).value)).Some?
              else AsPlan(parse(response)).Some?
  {
    if BraceSpan(RemoveChar(response, '\n')).None? && AsPlan(parse(response)).Some? {
      var i, j :| 0 <= i < j < |response| && response[i] == '{' && response[j] == '}';
      BraceSpanSurvivesRemoval(response, '\n', i, j);
    }
  }

  /** `plan.get("steps", [])` iterated: a list gives its items; other iterables their elements. */
  function PlanSteps(plan: Json): Result<seq<Json>> {
    Iterate(GetOr(plan, "steps", JArr([])))
  }

  /**
   * `registry.get(step.get("agent"))`: a string is looked up as a name; a list
   * or object cannot be a dictionary key and raises; any other value is not a
   * key of the registry, so only "@" + its text can find an agent.
   */
  function StepAgent(d: AgentDict, field: Json): (r: Result<Option<Agent>>)
    ensures field.JStr? ==> r == Success(GetFrom(d, field.s))
    ensures r.Failure? <==> field.JArr? || field.JObj?
  {
    match field
    case JStr(s) => Success(GetFrom(d, s))
    case JArr(_) => Failure("TypeError: unhashable type: 'list'")
    case JObj(_) => Failure("TypeError: unhashable type: 'dict'")
    case _ => Success(AgentRegistry.Lookup(d, "@" + PyStr(field)))
  }

  /** A step that ran: its agent field as text, the agent, the instruction, the reply and the step's position. */
  datatype Executed = Executed(field: string, agent: Agent, instruction: string, response: string, index: nat)

  /** Steps run in order, stopping at the first that raises. */
  datatype PlanRun = PlanRun(executed: seq<Executed>, error: Option<string>)

  /** `f"--- {agent} 的输出 ---\n{response}"` for each earlier result. */
  function Outputs(results: seq<(string, string)>): (r: seq<string>)
    ensures |r| == |results|
  {
    if |results| == 0 then []
    else Outputs(results[..|results| - 1]) + ["--- " + results[|results| - 1].0 + " 的输出 ---\n" + results[|results| - 1].1]
  }

  /** The `results` list of `_execute_plan`: agent field and reply of each executed step. */
  function Results(es: seq<Executed>): (r: seq<(string, string)>)
    ensures |r| == |es|
  {
    if |es| == 0 then [] else Results(es[..|es| - 1]) + [(es[|es| - 1].field, es[|es| - 1].response)]
  }

  /** The context of a step: the document and the earlier outputs joined by blank lines. */
  function StepContext(document: Option<string>, results: seq<(string, string)>): (c: Context)
    ensures "previous_results" in c && c["previous_results"] == Join("\n\n", Outputs(results))
    ensures "document" in c <==> document.Some?
  {
    var base := map["previous_results" := Join("\n\n", Outputs(results))];
    if document.Some? then base["document" := document.value] else base
  }

  /** The `k`-th output block names the `k`-th result's agent field and carries its reply. */
  lemma {:induction false} OutputsAt(results: seq<(string, string)>, k: nat)
    requires k < |results|
    ensures Outputs(results)[k] == "--- " + results[k].0 + " 的输出 ---\n" + results[k].1
    decreases |results|
  {
    if k < |results| - 1 {
      OutputsAt(results[..|results| - 1], k);
    }
  }

  /**
   * A plan step sees every earlier step: the context message its agent
   * receives, second in its message list, carries the previous-results
   * part, and with it the output block of each earlier result.
   */
  lemma StepSeesEarlierOutputs(agent: Agent, instruction: string, document: Option<string>,
                               results: seq<(string, string)>, k: nat)
    requires k < |results|
    ensures var msgs := FullMessages(agent, [HumanMessage(instruction)], StepContext(document, results));
            |msgs| == 3 && msgs[1].HumanMessage?
            && Contains(msgs[1].content, PreviousHeader + Join("\n\n", Outputs(results)))
            && Contains(msgs[1].content, "--- " + results[k].0 + " 的输出 ---\n" + results[k].1)
  {
    var c := StepContext(document, results);
    var outs := Outputs(results);
    var joined := Join("\n\n", outs);
    OutputsAt(results, k);
    JoinCarries("\n\n", outs, k);
    JoinCarries("\n\n", outs, 0);
    OutputsAt(results, 0);
    assert joined != "";
    assert HasText(c, "previous_results");
    FormatContextCarriesParts(c, Present(c, "document"));
    var text := FormatContext(c).value;
    OccursBetween(PreviousHeader, joined, "");
    assert PreviousHeader + joined + "" == PreviousHeader + joined;
    ContainsAt(PreviousHeader + joined, joined, |PreviousHeader|);
    ContainsTransitive(text, PreviousHeader + joined, joined);
    ContainsTransitive(text, joined, outs[k]);
  }

  /** A step whose agent field finds no agent is skipped without effect. */
  predicate Skipped(d: AgentDict, step: Json) {
    step.JObj? && StepAgent(d, GetOr(step, "agent", JNull)) == Success(None)
  }

  /**
   * One iteration of `_execute_plan`: read the fields, look the agent up,
   * skip when there is none, and otherwise call it with the instruction as
   * its only message. A non-object step, an unhashable agent field, a
   * non-string instruction and a raising model all raise.
   */
  function StepResult(d: AgentDict, step: Json, index: nat, document: Option<string>,
                      done: seq<Executed>, llm: Llm): Result<Option<Executed>>
  {
    if !step.JObj? then Failure("AttributeError: object has no attribute 'get'")
    else
      var field := GetOr(step, "agent", JNull);
      var instruction := GetOr(step, "instruction", JNull);
      match StepAgent(d, field)
      case Failure(e) => Failure(e)
      case Success(None) => Success(None)
      case Success(Some(agent)) =>
        if !instruction.JStr? then Failure("ValidationError: message content must be a string")
        else
          match Invoke(agent, [HumanMessage(instruction.s)], StepContext(document, Results(done)), llm)
          case Raised(e) => Failure(e)
          case Reply(text) => Success(Some(Executed(PyStr(field), agent, instruction.s, text, index)))
  }

  /** What one iteration of the step loop does, given the step, its position and the steps run so far. */
  type StepFn = (Json, nat, seq<Executed>) -> Result<Option<Executed>>

  /** The step function of `_execute_plan` for a registry, a document and a model. */
  function Stepper(d: AgentDict, document: Option<string>, llm: Llm): StepFn {
    (step: Json, index: nat, done: seq<Executed>) => StepResult(d, step, index, document, done, llm)
  }

  /** One more step: nothing after the first exception; a skipped step adds nothing. */
  function Advance(prior: PlanRun, step: Result<Option<Executed>>): PlanRun {
    if prior.error.Some? then prior
    else
      match step
      case Failure(e) => PlanRun(prior.executed, Some(e))
      case Success(None) => prior
      case Success(Some(e)) => PlanRun(prior.executed + [e], None)
  }

  /** A loop over `steps`, step by step, stopping at the first exception. */
  function RunWith(f: StepFn, steps: seq<Json>): PlanRun
    decreases |steps|
  {
    if |steps| == 0 then PlanRun([], None)
    else
      var prior := RunWith(f, steps[..|steps| - 1]);
      Advance(prior, f(steps[|steps| - 1], |steps| - 1, prior.executed))
  }

  /** The loop of `_execute_plan` over the plan's steps. */
  function RunSteps(d: AgentDict, steps: seq<Json>, document: Option<string>, llm: Llm): PlanRun {
    RunWith(Stepper(d, document, llm), steps)
  }

  lemma RunWithPrefix(f: StepFn, steps: seq<Json>, i: nat)
    requires i < |steps|
    ensures RunWith(f, steps[..i + 1]) == Advance(RunWith(f, steps[..i]), f(steps[i], i, RunWith(f, steps[..i]).executed))
  {
    assert steps[..i + 1][..i] == steps[..i];
    assert steps[..i + 1][i] == steps[i];
  }

  /** Once a step has raised, later steps change nothing. */
  lemma {:induction false} RunStopsAtError(f: StepFn, steps: seq<Json>, i: nat)
    requires i <= |steps| && RunWith(f, steps[..i]).error.Some?
    ensures RunWith(f, steps) == RunWith(f, steps[..i])
    decreases |steps| - i
  {
    if i < |steps| {
      var n := |steps| - 1;
      assert steps[..n][..i] == steps[..i];
      RunStopsAtError(f, steps[..n], i);
    } else {
      assert steps[..i] == steps;
    }
  }

  /**
   * A step is skipped exactly when its agent is not found; a step that runs
   * is numbered by its position, resolved its agent from the step's agent
   * field, had a string instruction, and got the model's reply to that
   * instruction under the context built from the earlier outputs.
   */
  lemma StepOutcome(d: AgentDict, step: Json, index: nat, document: Option<string>, done: seq<Executed>, llm: Llm)
    ensures var r := StepResult(d, step, index, document, done, llm);
            (r == Success(None) <==> Skipped(d, step))
            && (r.Success? && r.value.Some? ==>
                  var e := r.value.value;
                  e.index == index && step.JObj?
                  && StepAgent(d, GetOr(step, "agent", JNull)) == Success(Some(e.agent))
                  && e.field == PyStr(GetOr(step, "agent", JNull))
                  && GetOr(step, "instruction", JNull) == JStr(e.instruction)
                  && Invoke(e.agent, [HumanMessage(e.instruction)], StepContext(document, Results(done)), llm) == Reply(e.response))
  {
  }

  /** A step function that numbers what it runs by the position it is given. */
  ghost predicate Numbers(f: StepFn) {
    forall step, index, done :: f(step, index, done).Success? && f(step, index, done).value.Some? ==>
      f(step, index, done).value.value.index == index
  }

  lemma StepperNumbers(d: AgentDict, document: Option<string>, llm: Llm)
    ensures Numbers(Stepper(d, document, llm)) && SkipsAlike(Stepper(d, document, llm))
  {
    var f := Stepper(d, document, llm);
    forall step, index, done
      ensures f(step, index, done) == Success(None) <==> Skipped(d, step)
      ensures f(step, index, done).Success? && f(step, index, done).value.Some? ==> f(step, index, done).value.value.index == index
    {
      StepOutcome(d, step, index, document, done, llm);
    }
  }

  /** Positions below `n`, strictly increasing. */
  ghost predicate Numbered(n: nat, es: seq<Executed>) {
    (forall k :: 0 <= k < |es| ==> es[k].index < n)
    && (forall k, m :: 0 <= k < m < |es| ==> es[k].index < es[m].index)
  }

  /** Steps are numbered by their position in the plan, and run in that order. */
  lemma {:induction false} RunWithIndices(f: StepFn, steps: seq<Json>)
    requires Numbers(f)
    ensures Numbered(|steps|, RunWith(f, steps).executed)
    decreases |steps|
  {
    if |steps| > 0 {
      var n := |steps| - 1;
      var prior := RunWith(f, steps[..n]);
      RunWithIndices(f, steps[..n]);
      var next := f(steps[n], n, prior.executed);
      assert RunWith(f, steps) == Advance(prior, next);
      assert forall k :: 0 <= k < |RunWith(f, steps[..n]).executed| ==> RunWith(f, steps[..n]).executed[k].index < |steps[..n]|;
      assert forall k :: 0 <= k < |prior.executed| ==> prior.executed[k].index < n;
      if prior.error.None? && next.Success? && next.value.Some? {
        assert next.value.value.index == n;
        assert RunWith(f, steps).executed == prior.executed + [next.value.value];
      }
    }
  }

  /** Each executed step is what `f` gives for its step, its position and the steps executed before it. */
  ghost predicate Replays(f: StepFn, steps: seq<Json>, es: seq<Executed>) {
    forall k :: 0 <= k < |es| ==>
      es[k].index < |steps| && f(steps[es[k].index], es[k].index, es[..k]) == Success(Some(es[k]))
  }

  /** The positions of the executed steps. */
  function Indices(es: seq<Executed>): set<nat> {
    set k | 0 <= k < |es| :: es[k].index
  }

  lemma IndicesSnoc(es: seq<Executed>, e: Executed)
    ensures Indices(es + [e]) == Indices(es) + {e.index}
  {
    var es' := es + [e];
    assert es'[|es|] == e;
    forall i | i in Indices(es)
      ensures i in Indices(es')
    {
      var k :| 0 <= k < |es| && es[k].index == i;
      assert es'[k] == es[k];
    }
  }

  /** When nothing raised, each step that did not run is one `f` skips. */
  ghost predicate OnlySkipped(f: StepFn, steps: seq<Json>, r: PlanRun) {
    r.error.None? ==>
      forall i :: 0 <= i < |steps| && i !in Indices(r.executed) ==> f(steps[i], i, []) == Success(None)
  }

  /** Whether `f` skips a step does not depend on the steps run before it. */
  ghost predicate SkipsAlike(f: StepFn) {
    forall step, index, done :: f(step, index, done) == Success(None) ==> f(step, index, []) == Success(None)
  }

  /**
   * Each executed step is what the step function gives for its step, its
   * position and exactly the steps executed before it.
   */
  lemma {:induction false} RunWithReplay(f: StepFn, steps: seq<Json>)
    requires Numbers(f)
    ensures Replays(f, steps, RunWith(f, steps).executed)
    decreases |steps|
  {
    if |steps| > 0 {
      var n := |steps| - 1;
      var front := steps[..n];
      var prior := RunWith(f, front).executed;
      RunWithReplay(f, front);
      RunWithIndices(f, front);
      var next := f(steps[n], n, prior);
      var es := RunWith(f, steps).executed;
      assert es == prior || (es == prior + [next.value.value] && next == Success(Some(next.value.value)));
      forall k | 0 <= k < |es|
        ensures es[k].index < |steps| && f(steps[es[k].index], es[k].index, es[..k]) == Success(Some(es[k]))
      {
        if k < |prior| {
          assert es[k] == prior[k] && es[..k] == prior[..k];
          assert front[prior[k].index] == steps[prior[k].index];
        } else {
          assert es[..k] == prior && es[k] == next.value.value;
          assert next.value.value.index == n;
        }
      }
    }
  }

  /** When no step raised, every step that did not run was one the step function skips. */
  lemma {:induction false} RunWithSkips(f: StepFn, steps: seq<Json>)
    requires Numbers(f) && SkipsAlike(f)
    ensures OnlySkipped(f, steps, RunWith(f, steps))
    decreases |steps|
  {
    if |steps| > 0 {
      var n := |steps| - 1;
      var front := steps[..n];
      var prior := RunWith(f, front);
      RunWithSkips(f, front);
      var r := RunWith(f, steps);
      if r.error.None? {
        var next := f(steps[n], n, prior.executed);
        assert prior.error.None? && next.Success?;
        if next.value.Some? {
          assert r.executed == prior.executed + [next.value.value];
          IndicesSnoc(prior.executed, next.value.value);
        } else {
          assert r == prior;
        }
        forall i | 0 <= i < |steps| && i !in Indices(r.executed)
          ensures f(steps[i], i, []) == Success(None)
        {
          if i < n {
            assert front[i] == steps[i];
          } else {
            assert f(steps[i], i, prior.executed) == Success(None);
          }
        }
      }
    }
  }

  /**
   * The plan's steps run in order, numbered by their position; each executed
   * step did what its step says, with the outputs of exactly the earlier
   * executed steps as its context.
   */
  lemma RunStepsReplay(d: AgentDict, steps: seq<Json>, document: Option<string>, llm: Llm)
    ensures var es := RunSteps(d, steps, document, llm).executed;
            (forall k, m :: 0 <= k < m < |es| ==> es[k].index < es[m].index)
            && (forall k :: 0 <= k < |es| ==>
                  es[k].index < |steps|
                  && StepResult(d, steps[es[k].index], es[k].index, document, es[..k], llm) == Success(Some(es[k])))
  {
    var f := Stepper(d, document, llm);
    StepperNumbers(d, document, llm);
    RunWithIndices(f, steps);
    RunWithReplay(f, steps);
    var es := RunSteps(d, steps, document, llm).executed;
    assert Replays(f, steps, es) && Numbered(|steps|, es);
    forall k | 0 <= k < |es|
      ensures es[k].index < |steps|
      ensures StepResult(d, steps[es[k].index], es[k].index, document, es[..k], llm) == Success(Some(es[k]))
    {
      assert f(steps[es[k].index], es[k].index, es[..k]) == Success(Some(es[k]));
    }
  }

  /** When no step raised, every step that did not run was one whose agent was not found. */
  lemma RunStepsSkips(d: AgentDict, steps: seq<Json>, document: Option<string>, llm: Llm)
    ensures var r := RunSteps(d, steps, document, llm);
            r.error.None? ==> forall i :: 0 <= i < |steps| && i !in Indices(r.executed) ==> Skipped(d, steps[i])
  {
    var f := Stepper(d, document, llm);
    StepperNumbers(d, document, llm);
    RunWithSkips(f, steps);
    var r := RunSteps(d, steps, document, llm);
    assert OnlySkipped(f, steps, r);
    if r.error.None? {
      forall i | 0 <= i < |steps| && i !in Indices(r.executed)
        ensures Skipped(d, steps[i])
      {
        assert f(steps[i], i, []) == Success(None);
        assert StepResult(d, steps[i], i, document, [], llm) == Success(None);
      }
    }
  }

  /** `f"### 步骤 {i+1}: {agent.name}\n**指令**: {instruction}\n\n{response}\n"` */
  function LogEntry(e: Executed): string {
    "### 步骤 " + IntToString(e.index + 1) + ": " + e.agent.name + "\n**指令**: " + e.instruction + "\n\n" + e.response + "\n"
  }

  function Logs(es: seq<Executed>): (r: seq<string>)
    ensures |r| == |es|
  {
    if |es| == 0 then [] else Logs(es[..|es| - 1]) + [LogEntry(es[|es| - 1])]
  }

  /** The assistant records `_execute_plan` adds to the history, one per executed step. */
  function Records(es: seq<Executed>): (r: seq<Record>)
    ensures |r| == |es|
  {
    if |es| == 0 then [] else Records(es[..|es| - 1]) + [Record("assistant", es[|es| - 1].response, Some(es[|es| - 1].agent.name))]
  }

  /** One pass of the loop in terms of the run so far and what the step function gives. */
  lemma RunWithStep(f: StepFn, steps: seq<Json>, i: nat, executed: seq<Executed>, next: Result<Option<Executed>>)
    requires i < |steps| && RunWith(f, steps[..i]) == PlanRun(executed, None) && f(steps[i], i, executed) == next
    ensures next.Failure? ==> RunWith(f, steps) == PlanRun(executed, Some(next.error))
    ensures next == Success(None) ==> RunWith(f, steps[..i + 1]) == PlanRun(executed, None)
    ensures next.Success? && next.value.Some? ==> RunWith(f, steps[..i + 1]) == PlanRun(executed + [next.value.value], None)
  {
    RunWithPrefix(f, steps, i);
    if next.Failure? {
      RunStopsAtError(f, steps, i + 1);
    }
  }

  /** Each executed step adds its output, its log entry and its history record at the end. */
  lemma ExecutedSnoc(es: seq<Executed>, e: Executed)
    ensures Results(es + [e]) == Results(es) + [(e.field, e.response)]
    ensures Logs(es + [e]) == Logs(es) + [LogEntry(e)]
    ensures Records(es + [e]) == Records(es) + [Record("assistant", e.response, Some(e.agent.name))]
  {
    assert (es + [e])[..|es|] == es;
  }

  const ReportHeader: string := "**协同任务执行报告**\n\n"

  /** The report text: header, the plan's explanation, then the step logs one per line. */
  function ReportText(explanation: Json, log: seq<string>): string {
    ReportHeader + PyStr(explanation) + "\n\n" + Join("\n", log)
  }

  /** The final report of a plan whose steps `es` ran. */
  function Report(plan: Json, es: seq<Executed>): string {
    ReportText(GetOr(plan, "explanation", JStr("")), Logs(es))
  }

  /** What `_execute_plan` returns or raises, and the steps it ran before that. */
  datatype PlanOutcome = PlanOutcome(result: Result<string>, executed: seq<Executed>)

  function PlanSpec(d: AgentDict, plan: Json, document: Option<string>, llm: Llm): (o: PlanOutcome)
    ensures PlanSteps(plan).Failure? ==> o.result.Failure? && o.executed == []
    ensures PlanSteps(plan).Success? ==>
              var run := RunSteps(d, PlanSteps(plan).value, document, llm);
              o.executed == run.executed && (o.result.Success? <==> run.error.None?)
  {
    match PlanSteps(plan)
    case Failure(e) => PlanOutcome(Failure(e), [])
    case Success(steps) =>
      var run := RunSteps(d, steps, document, llm);
      match run.error
      case Some(e) => PlanOutcome(Failure(e), run.executed)
      case None => PlanOutcome(Success(Report(plan, run.executed)), run.executed)
  }

  lemma PlanSpecOfRun(d: AgentDict, plan: Json, document: Option<string>, llm: Llm, steps: seq<Json>, run: PlanRun)
    requires PlanSteps(plan) == Success(steps) && RunWith(Stepper(d, document, llm), steps) == run
    ensures PlanSpec(d, plan, document, llm)
            == PlanOutcome(if run.error.Some? then Failure(run.error.value) else Success(Report(plan, run.executed)), run.executed)
  {
  }

  /** What `chat` answers. */
  datatype ChatReply =
    | Answer(agent: Agent, response: string, routing: Routing)
    | PlanReport(response: string, plan: Json)
    | ChatError(error: string, agentName: Option<string>)

  /** The answer of `chat` and the history and context it leaves behind. */
  datatype ChatOutcome = ChatOutcome(result: Result<ChatReply>, history: seq<Record>, context: Context)

  /** The messages `chat` hands to the routed agent: the five most recent records, then the cleaned message. */
  function ChatMessages(history: seq<Record>, clean: string): seq<ChatMessage> {
    Formatted(RecentWindow(history, 5)) + [HumanMessage(clean)]
  }

  /** The name under which the coordinator answers and which triggers plan detection. */
  const CoordinatorName: string := "协调者"

  /**
   * `chat`, as a function of the registry, the conversation state and the
   * oracles. The user's raw message is logged before routing; a routing
   * failure escapes; a missing agent or a raising model gives an error
   * answer; a coordinator reply holding a plan runs the plan, and an
   * exception while doing so falls back to the coordinator's own reply.
   */
  function ChatSpec(d: AgentDict, history: seq<Record>, context: Context, message: string, document: Option<string>,
                    scenario: Option<string>, llm: Llm, parse: Parser): ChatOutcome
  {
    var h1 := history + [Record("user", message, None)];
    var c1 := if document.Some? && document.value != "" then context["document" := document.value] else context;
    Logged(d, h1, c1, Route(d, message, scenario), document, llm, parse)
  }

  /** `chat` once the message is logged and routing has returned or raised. */
  function Logged(d: AgentDict, h1: seq<Record>, c1: Context, routed: Result<Routing>, document: Option<string>,
                  llm: Llm, parse: Parser): ChatOutcome
  {
    match routed
    case Failure(e) => ChatOutcome(Failure(e), h1, c1)
    case Success(routing) => Routed(d, h1, c1, routing, document, llm, parse)
  }

  /** `chat` once the message is routed. */
  function Routed(d: AgentDict, h1: seq<Record>, c1: Context, routing: Routing, document: Option<string>,
                  llm: Llm, parse: Parser): ChatOutcome
  {
    match routing.agent
    case None => ChatOutcome(Success(ChatError("'NoneType' object has no attribute 'invoke'", None)), h1, c1)
    case Some(agent) =>
      Replied(d, h1, c1, agent, routing, Invoke(agent, ChatMessages(h1, routing.message), c1, llm), document, llm, parse)
  }

  /** `chat` once the agent has been called. */
  function Replied(d: AgentDict, h1: seq<Record>, c1: Context, agent: Agent, routing: Routing, reply: LlmReply,
                   document: Option<string>, llm: Llm, parse: Parser): ChatOutcome
  {
    match reply
    case Raised(e) => ChatOutcome(Success(ChatError(e, Some(agent.name))), h1, c1)
    case Reply(response) =>
      var h2 := h1 + [Record("assistant", response, Some(agent.name))];
      var answer := Answer(agent, response, routing);
      if agent.name != CoordinatorName then ChatOutcome(Success(answer), h2, c1)
      else
        match DetectPlan(response, parse)
        case None => ChatOutcome(Success(answer), h2, c1)
        case Some(plan) => Coordinated(d, h2, c1, answer, plan, document, llm)
  }

  /**
   * `chat` once the coordinator's reply holds a plan: the executed steps are
   * logged; the report is the answer unless a step raised, in which case the
   * coordinator's own reply is.
   */
  function Coordinated(d: AgentDict, h2: seq<Record>, c1: Context, answer: ChatReply, plan: Json,
                       document: Option<string>, llm: Llm): (o: ChatOutcome)
    ensures |o.history| >= |h2| && o.history[..|h2|] == h2 && o.context == c1
    ensures o.result.Success? && (o.result.value.PlanReport? || o.result == Success(answer))
  {
    var run := PlanSpec(d, plan, document, llm);
    var h3 := h2 + Records(run.executed);
    assert h3[..|h2|] == h2;
    match run.result
    case Failure(_) => ChatOutcome(Success(answer), h3, c1)
    case Success(report) => ChatOutcome(Success(PlanReport(report, plan)), h3, c1)
  }

  /**
   * The raw message is logged before the agent is called, so the agent sees
   * it twice: as the last history entry and, cleaned, as the new message.
   */
  lemma RawThenCleanMessage(history: seq<Record>, message: string, clean: string)
    ensures var msgs := ChatMessages(history + [Record("user", message, None)], clean);
            |msgs| >= 2 && msgs[|msgs| - 2] == HumanMessage(message) && msgs[|msgs| - 1] == HumanMessage(clean)
  {
    var h := history + [Record("user", message, None)];
    var w := RecentWindow(h, 5);
    assert w[|w| - 1] == Record("user", message, None);
    assert w == w[..|w| - 1] + [w[|w| - 1]];
    FormattedAppend(w[..|w| - 1], [w[|w| - 1]]);
    assert Formatted([w[|w| - 1]]) == [HumanMessage(message)] by {
      assert [w[|w| - 1]][..0] == [];
    }
  }

  /**
   * After a reply, the history holds the user's record, then the reply's
   * record, then one record per executed plan step; without a reply, only
   * the user's record is added.
   */
  lemma RepliedHistory(d: AgentDict, h1: seq<Record>, c1: Context, agent: Agent, routing: Routing, reply: LlmReply,
                       document: Option<string>, llm: Llm, parse: Parser)
    ensures var o := Replied(d, h1, c1, agent, routing, reply, document, llm, parse);
            o.result.Success? && o.context == c1
            && (reply.Raised? <==> o.result.value.ChatError?)
            && (reply.Raised? ==> o.history == h1 && o.result.value.agentName == Some(agent.name))
            && (reply.Reply? ==> |o.history| > |h1| && o.history[..|h1| + 1] == h1 + [Record("assistant", reply.text, Some(agent.name))])
            && (o.result.value.Answer? ==> o.result.value.agent == agent && reply == Reply(o.result.value.response))
  {
    var o := Replied(d, h1, c1, agent, routing, reply, document, llm, parse);
    if reply.Reply? {
      var h2 := h1 + [Record("assistant", reply.text, Some(agent.name))];
      assert h2[..|h2|] == h2;
      assert o.history[..|h2|] == h2;
    }
  }

  /** Once routed, `chat` keeps the history so far and adds a reply's record right after it. */
  lemma RoutedHistory(d: AgentDict, h1: seq<Record>, c1: Context, routing: Routing, document: Option<string>,
                      llm: Llm, parse: Parser)
    ensures var o := Routed(d, h1, c1, routing, document, llm, parse);
            o.result.Success? && |o.history| >= |h1| && o.history[..|h1|] == h1
            && (o.result.value.ChatError? ==> o.history == h1)
            && (o.result.value.Answer? ==>
                  |o.history| > |h1| && o.history[|h1|] == Record("assistant", o.result.value.response, Some(o.result.value.agent.name)))
  {
    var o := Routed(d, h1, c1, routing, document, llm, parse);
    match routing.agent
    case None =>
    case Some(agent) =>
      var reply := Invoke(agent, ChatMessages(h1, routing.message), c1, llm);
      RepliedHistory(d, h1, c1, agent, routing, reply, document, llm, parse);
      if reply.Reply? {
        assert o.history[..|h1|] == o.history[..|h1| + 1][..|h1|];
        assert o.history[|h1|] == o.history[..|h1| + 1][|h1|];
      }
  }

  /**
   * `chat` logs the user's raw message first; a routing failure, a missing
   * agent or a raising model add nothing else; a reply is logged right
   * after the message, under the answering agent's name.
   */
  lemma ChatHistory(d: AgentDict, history: seq<Record>, context: Context, message: string, document: Option<string>,
                    scenario: Option<string>, llm: Llm, parse: Parser)
    ensures var o := ChatSpec(d, history, context, message, document, scenario, llm, parse);
            |o.history| > |history| && o.history[..|history| + 1] == history + [Record("user", message, None)]
            && (o.result.Failure? || o.result.value.ChatError? ==> o.history == history + [Record("user", message, None)])
            && (o.result.Success? && o.result.value.Answer? ==>
                  |o.history| > |history| + 1
                  && o.history[|history| + 1] == Record("assistant", o.result.value.response, Some(o.result.value.agent.name)))
  {
    var h1 := history + [Record("user", message, None)];
    var c1 := if document.Some? && document.value != "" then context["document" := document.value] else context;
    LoggedHistory(d, h1, c1, Route(d, message, scenario), document, llm, parse);
  }

  lemma LoggedHistory(d: AgentDict, h1: seq<Record>, c1: Context, routed: Result<Routing>, document: Option<string>,
                      llm: Llm, parse: Parser)
    ensures var o := Logged(d, h1, c1, routed, document, llm, parse);
            |o.history| >= |h1| && o.history[..|h1|] == h1
            && (o.result.Failure? || o.result.value.ChatError? ==> o.history == h1)
            && (o.result.Success? && o.result.value.Answer? ==>
                  |o.history| > |h1| && o.history[|h1|] == Record("assistant", o.result.value.response, Some(o.result.value.agent.name)))
  {
    match routed
    case Failure(_) =>
      assert h1[..|h1|] == h1;
    case Success(routing) =>
      RoutedHistory(d, h1, c1, routing, document, llm, parse);
  }

  /**
   * A plan report comes only from the coordinator, only for a detected plan
   * object, and only when every step ran without raising; it is the report
   * of exactly the steps that ran.
   */
  lemma PlanReportOnlyFromCoordinator(d: AgentDict, h1: seq<Record>, c1: Context, agent: Agent, routing: Routing,
                                      reply: LlmReply, document: Option<string>, llm: Llm, parse: Parser)
    requires Replied(d, h1, c1, agent, routing, reply, document, llm, parse).result.Success?
    requires Replied(d, h1, c1, agent, routing, reply, document, llm, parse).result.value.PlanReport?
    ensures reply.Reply? && agent.name == CoordinatorName
    ensures var report := Replied(d, h1, c1, agent, routing, reply, document, llm, parse).result.value;
            DetectPlan(reply.text, parse) == Some(report.plan) && IsPlan(report.plan)
            && PlanSteps(report.plan).Success?
            && RunSteps(d, PlanSteps(report.plan).value, document, llm).error.None?
            && report.response == Report(report.plan, RunSteps(d, PlanSteps(report.plan).value, document, llm).executed)
  {
  }

  /** With the default registry `chat` never raises, and an error answer always names the agent. */
  lemma DefaultChatNeverRaises(history: seq<Record>, context: Context, message: string, document: Option<string>,
                               scenario: Option<string>, llm: Llm, parse: Parser)
    ensures var o := ChatSpec(DefaultDict(), history, context, message, document, scenario, llm, parse);
            o.result.Success? && (o.result.value.ChatError? ==> o.result.value.agentName.Some?)
  {
    var routed := Route(DefaultDict(), message, scenario);
    DefaultRoutingSucceeds(message, scenario);
    var h1 := history + [Record("user", message, None)];
    var c1 := if document.Some? && document.value != "" then context["document" := document.value] else context;
    var agent := routed.value.agent.value;
    var reply := Invoke(agent, ChatMessages(h1, routed.value.message), c1, llm);
    RepliedHistory(DefaultDict(), h1, c1, agent, routed.value, reply, document, llm, parse);
  }

  /** `MultiAgentSystem`: the registry and the conversation. */
  class System {
    var registry: Registry
    var conversation: ConversationManager

    ghost predicate Valid()
      reads this, registry
    {
      registry.Valid()
    }

    constructor()
      ensures Valid() && fresh(registry) && fresh(conversation)
      ensures registry.agents == DefaultDict() && conversation.history == [] && conversation.context == map[]
    {
      registry := new Registry();
      conversation := new ConversationManager();
    }

    /** One pass of the step loop, before anything is logged: what `StepResult` says. */
    method TakeStep(step: Json, index: nat, document: Option<string>, results: seq<(string, string)>,
                    ghost done: seq<Executed>, llm: Llm) returns (r: Result<Option<Executed>>)
      requires results == Results(done)
      ensures r == StepResult(registry.agents, step, index, document, done, llm)
    {
      if !step.JObj? {
        return Failure("AttributeError: object has no attribute 'get'");
      }
      var field := GetOr(step, "agent", JNull);
      var instruction := GetOr(step, "instruction", JNull);
      var found := StepAgent(registry.agents, field);
      if found.Failure? {
        return Failure(found.error);
      }
      if found.value.None? {
        return Success(None);
      }
      var agent := found.value.value;
      var context := StepContext(document, results);
      if !instruction.JStr? {
        return Failure("ValidationError: message content must be a string");
      }
      var reply := Invoke(agent, [HumanMessage(instruction.s)], context, llm);
      if reply.Raised? {
        return Failure(reply.error);
      }
      r := Success(Some(Executed(PyStr(field), agent, instruction.s, reply.text, index)));
    }

    /** `_execute_plan(plan, document)`: the step loop, then the report. */
    method ExecutePlan(plan: Json, document: Option<string>, llm: Llm) returns (r: Result<string>)
      modifies conversation
      ensures var o := PlanSpec(registry.agents, plan, document, llm);
              r == o.result && conversation.history == old(conversation.history) + Records(o.executed)
      ensures conversation.context == old(conversation.context)
    {
      var stepsOr := Iterate(GetOr(plan, "steps", JArr([])));
      if stepsOr.Failure? {
        return Failure(stepsOr.error);
      }
      var error, log, executed := RunPlanSteps(stepsOr.value, document, llm);
      PlanSpecOfRun(registry.agents, plan, document, llm, stepsOr.value, PlanRun(executed, error));
      if error.Some? {
        return Failure(error.value);
      }
      r := Success(ReportText(GetOr(plan, "explanation", JStr("")), log));
    }

    /**
     * The loop of `_execute_plan`: each step that finds its agent is run with
     * the earlier outputs as context, logged and recorded; the first
     * exception ends the loop.
     */
    /** The bookkeeping after a step ran: its output, its log entry, its history record. */
    method RecordStep(e: Executed, ghost executed: seq<Executed>, results: seq<(string, string)>, log: seq<string>,
                      ghost h0: seq<Record>) returns (results': seq<(string, string)>, log': seq<string>)
      requires results == Results(executed) && log == Logs(executed)
      requires conversation.history == h0 + Records(executed)
      modifies conversation
      ensures results' == Results(executed + [e]) && log' == Logs(executed + [e])
      ensures conversation.history == h0 + Records(executed + [e])
      ensures conversation.context == old(conversation.context)
    {
      ExecutedSnoc(executed, e);
      results' := results + [(e.field, e.response)];
      log' := log + [LogEntry(e)];
      conversation.AddMessage("assistant", e.response, Some(e.agent.name));
    }

    /**
     * One pass of `_execute_plan`'s loop: take step `i`, and record it when
     * it ran. `stop` is the exception that ends the loop; `h0` is the
     * history before the loop.
     */
    method PlanStep(steps: seq<Json>, i: nat, document: Option<string>, llm: Llm,
                    results: seq<(string, string)>, log: seq<string>,
                    ghost executed: seq<Executed>, ghost h0: seq<Record>)
      returns (stop: Option<string>, results': seq<(string, string)>, log': seq<string>, ghost executed': seq<Executed>)
      requires i < |steps|
      requires RunSteps(registry.agents, steps[..i], document, llm) == PlanRun(executed, None)
      requires results == Results(executed) && log == Logs(executed)
      requires conversation.history == h0 + Records(executed)
      modifies conversation
      ensures stop.Some? ==> RunSteps(registry.agents, steps, document, llm) == PlanRun(executed, stop)
                             && executed' == executed && log' == log
      ensures stop.None? ==> RunSteps(registry.agents, steps[..i + 1], document, llm) == PlanRun(executed', None)
                             && results' == Results(executed') && log' == Logs(executed')
      ensures conversation.history == h0 + Records(executed')
      ensures conversation.context == old(conversation.context)
    {
      ghost var f := Stepper(registry.agents, document, llm);
      var next := TakeStep(steps[i], i, document, results, executed, llm);
      assert f(steps[i], i, executed) == next;
      RunWithStep(f, steps, i, executed, next);
      match next {
        case Failure(e) =>
          return Some(e), results, log, executed;
        case Success(None) =>
          return None, results, log, executed;
        case Success(Some(e)) =>
          results', log' := RecordStep(e, executed, results, log, h0);
          executed' := executed + [e];
          stop := None;
      }
    }

    /** The step loop of `_execute_plan`: the run of `RunSteps`, its log and its history records. */
    method RunPlanSteps(steps: seq<Json>, document: Option<string>, llm: Llm)
      returns (error: Option<string>, log: seq<string>, ghost executed: seq<Executed>)
      modifies conversation
      ensures RunSteps(registry.agents, steps, document, llm) == PlanRun(executed, error)
      ensures log == Logs(executed)
      ensures conversation.history == old(conversation.history) + Records(executed)
      ensures conversation.context == old(conversation.context)
    {
      var results: seq<(string, string)> := [];
      log := [];
      executed := [];
      var i := 0;
      while i < |steps|
        invariant 0 <= i <= |steps|
        invariant RunSteps(registry.agents, steps[..i], document, llm) == PlanRun(executed, None)
        invariant results == Results(executed) && log == Logs(executed)
        invariant conversation.history == old(conversation.history) + Records(executed)
        invariant conversation.context == old(conversation.context)
      {
        var stop;
        stop, results, log, executed := PlanStep(steps, i, document, llm, results, log, executed, old(conversation.history));
        if stop.Some? {
          return stop, log, executed;
        }
        i := i + 1;
      }
      assert steps[..i] == steps;
      error := None;
    }

    /** `chat(message, document, scenario)` */
    method Chat(message: string, document: Option<string>, scenario: Option<string>, llm: Llm, parse: Parser)
      returns (r: Result<ChatReply>)
      modifies conversation
      ensures var o := ChatSpec(registry.agents, old(conversation.history), old(conversation.context),
                                message, document, scenario, llm, parse);
              r == o.result && conversation.history == o.history && conversation.context == o.context
    {
      conversation.AddMessage("user", message, None);
      if document.Some? && document.value != "" {
        conversation.SetContext("document", document.value);
      }
      var routed := Route(registry.agents, message, scenario);
      if routed.Failure? {
        return Failure(routed.error);
      }
      r := Dispatch(routed.value, document, llm, parse);
    }

    /** The part of `chat` after routing: call the chosen agent on the recent history and the message. */
    method Dispatch(routing: Routing, document: Option<string>, llm: Llm, parse: Parser) returns (r: Result<ChatReply>)
      modifies conversation
      ensures var o := Routed(registry.agents, old(conversation.history), old(conversation.context),
                              routing, document, llm, parse);
              r == o.result && conversation.history == o.history && conversation.context == o.context
    {
      var history := conversation.FormatHistoryForLlm(5);
      var messages := history + [HumanMessage(routing.message)];
      if routing.agent.None? {
        return Success(ChatError("'NoneType' object has no attribute 'invoke'", None));
      }
      var agent := routing.agent.value;
      var reply := Invoke(agent, messages, conversation.context, llm);
      r := Respond(agent, routing, reply, document, llm, parse);
    }

    /** The rest of `chat` once the agent has been called: log the reply and run a coordinator's plan. */
    method Respond(agent: Agent, routing: Routing, reply: LlmReply, document: Option<string>, llm: Llm, parse: Parser)
      returns (r: Result<ChatReply>)
      modifies conversation
      ensures var o := Replied(registry.agents, old(conversation.history), old(conversation.context),
                               agent, routing, reply, document, llm, parse);
              r == o.result && conversation.history == o.history && conversation.context == o.context
    {
      if reply.Raised? {
        return Success(ChatError(reply.error, Some(agent.name)));
      }
      var response := reply.text;
      conversation.AddMessage("assistant", response, Some(agent.name));
      r := Success(Answer(agent, response, routing));
      if agent.name == CoordinatorName {
        var plan := DetectPlan(response, parse);
        if plan.Some? {
          var report := ExecutePlan(plan.value, document, llm);
          if report.Success? {
            r := Success(PlanReport(report.value, plan.value));
          }
        }
      }
    }

    /** `clear_conversation()`: both the history and the context are emptied. */
    method ClearConversation()
      modifies conversation
      ensures conversation.history == [] && conversation.context == map[]
    {
      conversation.ClearHistory();
      conversation.context := map[];
    }

    /** `reload_agents()`: a fresh default registry; the conversation is kept. */
    method ReloadAgents()
      modifies this
      ensures Valid() && fresh(registry) && registry.agents == DefaultDict()
      ensures conversation == old(conversation)
    {
      registry := new Registry();
    }
  }
}
