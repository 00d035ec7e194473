/** `PhoneAgent`: the bounded perception-act loop. Each step asks the model client for the
    next move given the conversation so far, charges the call to the billing ledger when a
    ledger and a profile are bound, runs the action directive through the action handler and
    records the model's reply (and, unless the step finished the task, a feedback message)
    in the conversation. The model client, the prompt builder and the device's foreground
    application are oracles. */
module AgentCore {
  import opened Wrappers
  import opened JsonValues
  import opened Actions
  import opened ProvidersBase
  import Adb
  import ActionHandling
  import Billing
  import BillingModels
  import Profiles
  import PromptAssembly

  // ---------------------------------------------------------------------------------------
  // Configuration and step results

  /** `AgentConfig`. Only `maxSteps` and `language` reach the modelled logic; the delay and
      the screenshot scale feed sleeps and image capture, `verbose` and `enableBilling`
      only printing. */
  datatype AgentConfig = AgentConfig(
    maxSteps: int, stepDelay: real, screenshotScale: real, language: string,
    verbose: bool, enableBilling: bool)

  const DefaultAgentConfig := AgentConfig(50, 1.0, 0.5, "zh", true, true)

  /** `StepResult`. `message` is `None` for a null message. */
  datatype StepResult = StepResult(
    success: bool, finished: bool, action: Option<string>, thinking: string,
    message: Option<string>, stepCost: real, promptTokens: int, completionTokens: int)

  /** `StepResult(...)` as `_execute_step` builds it: success and finish from the action
      result, the directive, the thinking and the token counts from the response. The
      message field accepts a string or null only; any other value the action handler
      passed through (a `finish` whose `message` is a number, say) fails validation. */
  function NewStepResult(result: ActionResult, response: VLMResponse, stepCost: real): Result<StepResult, PyError> {
    var message :- match result.message
      case JString(s) => Ok(Some(s))
      case JNull => Ok(None)
      case _ => Err(ValidationError);
    Ok(StepResult(result.success, result.shouldFinish, Some(response.action), response.thinking,
                  message, stepCost, response.promptTokens, response.completionTokens))
  }

  /** The step result mirrors the action result and the response it was built from. */
  lemma StepResultCopies(result: ActionResult, response: VLMResponse, stepCost: real)
    ensures var r := NewStepResult(result, response, stepCost);
      && (r.Ok? <==> result.message.JString? || result.message.JNull?)
      && (r.Err? ==> r.error == ValidationError)
      && (r.Ok? ==> r.value.success == result.success && r.value.finished == result.shouldFinish
                    && r.value.action == Some(response.action) && r.value.thinking == response.thinking
                    && r.value.stepCost == stepCost
                    && r.value.promptTokens == response.promptTokens
                    && r.value.completionTokens == response.completionTokens
                    && (r.value.message.Some? <==> result.message.JString?)
                    && (r.value.message.Some? ==> result.message == JString(r.value.message.value)))
  {
  }

  // ---------------------------------------------------------------------------------------
  // The conversation

  /** The first two messages of every run: the system prompt, then the task. */
  function InitialHistory(systemPrompt: string, task: string): seq<Message> {
    [Message("system", Text(systemPrompt)), Message("user", Text("请完成以下任务：" + task))]
  }

  /** What one step adds to the conversation: the model's raw reply and the result of the
      action it asked for. */
  datatype Turn = Turn(rawContent: string, result: ActionResult)

  /** The feedback message of a step that does not finish: success or failure, then the
      action's message when it is truthy. */
  function Feedback(codec: Codec, result: ActionResult): string {
    "动作执行" + (if result.success then "成功" else "失败")
    + (if Truthy(result.message) then ": " + PyStr(codec, result.message) else "")
  }

  lemma FeedbackShape(codec: Codec, result: ActionResult)
    ensures var f := Feedback(codec, result);
      var status := if result.success then "动作执行成功" else "动作执行失败";
      && |f| >= |status| && f[..|status|] == status
      && (!Truthy(result.message) ==> f == status)
      && (Truthy(result.message) ==> f == status + ": " + PyStr(codec, result.message))
  {
  }

  /** The messages one step appends. */
  function TurnMessages(codec: Codec, t: Turn): seq<Message> {
    [Message("assistant", Text(t.rawContent))]
    + if t.result.shouldFinish then [] else [Message("user", Text(Feedback(codec, t.result)))]
  }

  /** A step always records the model's raw reply; only a step that does not finish adds
      the feedback, so a step grows the history by one or by two. */
  lemma TurnGrowth(codec: Codec, t: Turn)
    ensures var ms := TurnMessages(codec, t);
      && |ms| == (if t.result.shouldFinish then 1 else 2)
      && ms[0] == Message("assistant", Text(t.rawContent))
      && (!t.result.shouldFinish ==> ms[1] == Message("user", Text(Feedback(codec, t.result))))
  {
  }

  /** The messages a run of steps appends after the first two. */
  function History(codec: Codec, turns: seq<Turn>): seq<Message>
    decreases |turns|
  {
    if |turns| == 0 then []
    else History(codec, turns[..|turns| - 1]) + TurnMessages(codec, turns[|turns| - 1])
  }

  lemma HistorySnoc(codec: Codec, turns: seq<Turn>, t: Turn)
    ensures History(codec, turns + [t]) == History(codec, turns) + TurnMessages(codec, t)
  {
    assert (turns + [t])[..|turns|] == turns;
  }

  /** Steps that did not finish, all but perhaps the last. */
  predicate OnlyLastFinishes(turns: seq<Turn>) {
    forall i :: 0 <= i < |turns| - 1 ==> !turns[i].result.shouldFinish
  }

  /** Every step but a finishing last one adds two messages. */
  lemma {:induction false} HistoryLength(codec: Codec, turns: seq<Turn>)
    requires OnlyLastFinishes(turns)
    ensures |History(codec, turns)| == 2 * |turns| - (if |turns| > 0 && turns[|turns| - 1].result.shouldFinish then 1 else 0)
    decreases |turns|
  {
    if |turns| > 0 {
      var init := turns[..|turns| - 1];
      assert OnlyLastFinishes(init) by {
        forall i | 0 <= i < |init| - 1 ensures !init[i].result.shouldFinish {
          assert init[i] == turns[i];
        }
      }
      HistoryLength(codec, init);
      if |init| > 0 {
        assert !init[|init| - 1].result.shouldFinish by { assert init[|init| - 1] == turns[|turns| - 2]; }
      }
      TurnGrowth(codec, turns[|turns| - 1]);
    }
  }

  /** In a run of steps that did not finish, step i's reply and feedback are the messages at
      2i and 2i+1 after the first two. */
  lemma {:induction false} HistoryAt(codec: Codec, turns: seq<Turn>, i: nat)
    requires forall j :: 0 <= j < |turns| ==> !turns[j].result.shouldFinish
    requires i < |turns|
    ensures |History(codec, turns)| == 2 * |turns|
    ensures History(codec, turns)[2 * i] == Message("assistant", Text(turns[i].rawContent))
    ensures History(codec, turns)[2 * i + 1] == Message("user", Text(Feedback(codec, turns[i].result)))
    decreases |turns|
  {
    var init := turns[..|turns| - 1];
    var last := turns[|turns| - 1];
    TurnGrowth(codec, last);
    if i < |init| {
      HistoryAt(codec, init, i);
      assert init[i] == turns[i];
    } else if |init| > 0 {
      HistoryAt(codec, init, 0);
    }
  }

  /** What `run` returns once its steps are known: the message of a finishing last step (or
      "任务完成" when that message is empty or null), "达到最大步数限制" otherwise. */
  function RunReply(turns: seq<Turn>): string {
    if |turns| > 0 && turns[|turns| - 1].result.shouldFinish then
      var m := turns[|turns| - 1].result.message;
      if m.JString? && m.s != "" then m.s else "任务完成"
    else "达到最大步数限制"
  }

  /** A run whose last step did not finish took every step it was allowed, none of them
      finished, and it hands back the step-limit message. */
  lemma UnfinishedRunUsesAllSteps(turns: seq<Turn>, maxSteps: int)
    requires OnlyLastFinishes(turns)
    requires |turns| <= maxSteps || |turns| == 0
    requires |turns| < maxSteps ==> |turns| > 0 && turns[|turns| - 1].result.shouldFinish
    requires !(|turns| > 0 && turns[|turns| - 1].result.shouldFinish)
    ensures |turns| == if maxSteps > 0 then maxSteps else 0
    ensures forall i :: 0 <= i < |turns| ==> !turns[i].result.shouldFinish
    ensures RunReply(turns) == "达到最大步数限制"
  {
  }

  /** The sum of the step costs. */
  function Sum(xs: seq<real>): real
    decreases |xs|
  {
    if |xs| == 0 then 0.0 else Sum(xs[..|xs| - 1]) + xs[|xs| - 1]
  }

  lemma SumSnoc(xs: seq<real>, x: real)
    ensures Sum(xs + [x]) == Sum(xs) + x
  {
    assert (xs + [x])[..|xs|] == xs;
  }

  /** The bookkeeping of a run after its opening `start`: one turn and one cost per step,
      the conversation is the opening plus the turns' messages, and the total is the sum of
      the step costs. */
  ghost predicate Tally(codec: Codec, start: seq<Message>, messages: seq<Message>, stepCount: int,
                        turns: seq<Turn>, stepCosts: seq<real>, totalCost: real) {
    && stepCount == |turns| && |stepCosts| == |turns|
    && messages == start + History(codec, turns)
    && totalCost == Sum(stepCosts)
  }

  /** Steps none of which finished. */
  predicate NoneFinished(turns: seq<Turn>) {
    forall i :: 0 <= i < |turns| ==> !turns[i].result.shouldFinish
  }

  /** Appending a turn to steps none of which finished leaves at most the last one
      finished, and none when the new turn does not finish. */
  lemma FinishedSnoc(turns: seq<Turn>, turn: Turn)
    requires NoneFinished(turns)
    ensures OnlyLastFinishes(turns + [turn])
    ensures !turn.result.shouldFinish ==> NoneFinished(turns + [turn])
  {
    var all := turns + [turn];
    forall i | 0 <= i < |all| - 1 ensures !all[i].result.shouldFinish {
      assert all[i] == turns[i];
    }
  }

  /** A step that appends its turn's messages and adds its cost keeps the bookkeeping. */
  lemma TallySnoc(codec: Codec, start: seq<Message>, messages: seq<Message>, turns: seq<Turn>,
                  stepCosts: seq<real>, totalCost: real, turn: Turn, cost: real)
    requires Tally(codec, start, messages, |turns|, turns, stepCosts, totalCost)
    ensures Tally(codec, start, messages + TurnMessages(codec, turn), |turns| + 1, turns + [turn],
                  stepCosts + [cost], totalCost + cost)
  {
    HistorySnoc(codec, turns, turn);
    SumSnoc(stepCosts, cost);
    assert start + History(codec, turns) + TurnMessages(codec, turn) == start + (History(codec, turns) + TurnMessages(codec, turn));
  }

  // ---------------------------------------------------------------------------------------
  // The collaborators

  /** A VLM client seen from the loop: the n-th request's answer depends only on n and the
      conversation sent, and a transport error surfaces as `Err`. The screenshot that
      travels with each request is not modelled. */
  class ModelClient {
    const answer: (nat, seq<Message>) -> Result<VLMResponse, PyError>
    var sent: seq<seq<Message>>

    constructor (answer: (nat, seq<Message>) -> Result<VLMResponse, PyError>)
      ensures this.answer == answer && sent == []
    {
      this.answer := answer;
      sent := [];
    }

    /** `request(messages, image=screenshot)` */
    method Request(messages: seq<Message>) returns (r: Result<VLMResponse, PyError>)
      modifies this
      ensures r == answer(|old(sent)|, messages)
      ensures sent == old(sent) + [messages]
    {
      r := answer(|sent|, messages);
      sent := sent + [messages];
    }
  }

  /** The prompt context `run` builds: the task, the foreground application and the step
      budget, every other field at its default. */
  function RunContext(task: string, currentApp: Option<string>, maxSteps: int): PromptAssembly.PromptContext {
    PromptAssembly.PromptContext(task, currentApp, None, None, None, 0, maxSteps)
  }

  // ---------------------------------------------------------------------------------------
  // The agent

  class PhoneAgent {
    const config: AgentConfig
    const client: ModelClient
    const device: Adb.Device
    const codec: Codec
    /** `prompt_manager.build_system_prompt(context, language)` */
    const buildPrompt: (PromptAssembly.PromptContext, string) -> string
    /** `device.get_current_app()` */
    const currentApp: Option<string>
    const billing: Option<Billing.BillingManager>
    const profile: Option<Profiles.ModelProfile>
    /** The timestamp of the usage record of step n. */
    const clock: int -> string
    const handler: ActionHandling.ActionHandler

    var messages: seq<Message>
    var stepCount: int
    var totalCost: real
    /** The steps of the current run and what each cost. */
    ghost var turns: seq<Turn>
    ghost var stepCosts: seq<real>

    /** The ledger, when one is bound. */
    ghost function Ledger(): set<object>
      reads this
    {
      if billing.Some? then {billing.value} else {}
    }

    /** Whether steps are charged: `billing_manager and profile`. */
    predicate Charged()
      reads this
    {
      billing.Some? && profile.Some?
    }

    ghost predicate Valid()
      reads this, Ledger()
    {
      && handler.device == device && handler.codec == codec
      && (billing.Some? ==> billing.value.Valid())
    }

    constructor (config: AgentConfig, client: ModelClient, device: Adb.Device, codec: Codec,
                 buildPrompt: (PromptAssembly.PromptContext, string) -> string, currentApp: Option<string>,
                 billing: Option<Billing.BillingManager>, profile: Option<Profiles.ModelProfile>, clock: int -> string)
      requires billing.Some? ==> billing.value.Valid()
      ensures Valid()
      ensures this.config == config && this.client == client && this.device == device && this.codec == codec
      ensures this.buildPrompt == buildPrompt && this.currentApp == currentApp
      ensures this.billing == billing && this.profile == profile && this.clock == clock
      ensures messages == [] && stepCount == 0 && totalCost == 0.0
    {
      this.config := config;
      this.client := client;
      this.device := device;
      this.codec := codec;
      this.buildPrompt := buildPrompt;
      this.currentApp := currentApp;
      this.billing := billing;
      this.profile := profile;
      this.clock := clock;
      handler := new ActionHandling.ActionHandler(device, codec);
      messages := [];
      stepCount := 0;
      totalCost := 0.0;
      turns := [];
      stepCosts := [];
    }

    /** `reset`: an empty conversation, no steps, no cost, and an emptied ledger. */
    method Reset()
      requires Valid()
      modifies this, Ledger()
      ensures Valid()
      ensures messages == [] && stepCount == 0 && totalCost == 0.0
      ensures turns == [] && stepCosts == []
      ensures billing.Some? ==> billing.value.records == [] && billing.value.totalCost == 0.0
                                && billing.value.registry == old(billing.value.registry)
    {
      messages := [];
      stepCount := 0;
      totalCost := 0.0;
      turns := [];
      stepCosts := [];
      if billing.Some? {
        billing.value.Reset();
      }
    }

    /** The opening of `run`: reset, then the system prompt and the task message. */
    method Begin(task: string)
      requires Valid()
      modifies this, Ledger()
      ensures Valid()
      ensures messages == InitialHistory(buildPrompt(RunContext(task, currentApp, config.maxSteps), config.language), task)
      ensures stepCount == 0 && totalCost == 0.0 && turns == [] && stepCosts == []
      ensures billing.Some? ==> billing.value.records == [] && billing.value.registry == old(billing.value.registry)
    {
      Reset();
      var context := RunContext(task, currentApp, config.maxSteps);
      var systemPrompt := buildPrompt(context, config.language);
      messages := messages + [Message("system", Text(systemPrompt))];
      messages := messages + [Message("user", Text("请完成以下任务：" + task))];
    }

    /** The charge of one call: a usage record when the step is charged, nothing otherwise. */
    method Charge(response: VLMResponse) returns (stepCost: real)
      requires Valid()
      modifies Ledger()
      ensures Valid()
      ensures !Charged() ==> stepCost == 0.0
      ensures billing.Some? && !Charged() ==> billing.value.records == old(billing.value.records)
      ensures Charged() ==>
        var p := profile.value;
        var c := Billing.PolicyCost(old(billing.value.GetPricing(p.vendor, p.model)), response.promptTokens, response.completionTokens);
        var record := BillingModels.NewUsageRecord(clock(stepCount), p.vendor, p.model, response.promptTokens,
                                                   response.completionTokens, c.input, c.output, c.total);
        && billing.value.records == old(billing.value.records) + [record]
        && stepCost == c.total
      ensures Charged() ==> billing.value.totalCost == old(billing.value.totalCost) + stepCost
      ensures billing.Some? ==> billing.value.registry == old(billing.value.registry)
    {
      stepCost := 0.0;
      if Charged() {
        var record := billing.value.RecordUsage(profile.value.vendor, profile.value.model,
                                                response.promptTokens, response.completionTokens, clock(stepCount));
        stepCost := record.totalCost;
      }
    }

    /** `_execute_step`. The step counter moves first; a transport error of the model call
        escapes with nothing more done. */
    method ExecuteStep() returns (r: Result<StepResult, PyError>, ghost turn: Turn, ghost stepCost: real)
      requires Valid()
      modifies this, client, device, Ledger()
      ensures Valid()
      ensures stepCount == old(stepCount) + 1
      ensures totalCost == old(totalCost) && turns == old(turns) && stepCosts == old(stepCosts)
      ensures client.sent == old(client.sent) + [old(messages)]
      ensures var answer := client.answer(|old(client.sent)|, old(messages));
        && (answer.Err? ==> r == Err(answer.error) && messages == old(messages)
                            && device.log == old(device.log) && device.screenSize == old(device.screenSize))
        && (answer.Ok? ==> StepDone(answer.value, old(messages), old(device.log), old(device.screenSize), r, turn, stepCost))
      ensures r.Ok? ==> Summary(old(messages), r.value, turn, stepCost)
      ensures !Charged() ==> stepCost == 0.0
      ensures Charged() && r.Ok? ==> billing.value.totalCost == old(billing.value.totalCost) + stepCost
      ensures Charged() && r.Ok? ==> |billing.value.records| == |old(billing.value.records)| + 1
      ensures billing.Some? && !Charged() ==> billing.value.records == old(billing.value.records)
      ensures billing.Some? ==> billing.value.registry == old(billing.value.registry)
    {
      stepCount := stepCount + 1;
      var answer := client.Request(messages);
      if answer.Err? {
        return Err(answer.error), Turn("", ActionResult(false, false, JNull)), 0.0;
      }
      r, turn, stepCost := Act(answer.value);
    }

    /** What a step with the model's `response` did, from the conversation `before` and the
        device's command log and screen-size cache at its start: the directive ran as the
        action handler's plan says; an exception of the handler escapes before the
        conversation changes, and otherwise the reply and the action's result form `turn`,
        appended to the conversation, and the step result is built from them. */
    ghost predicate StepDone(response: VLMResponse, before: seq<Message>, log: seq<Adb.Command>,
                             cache: Option<(int, int)>, r: Result<StepResult, PyError>, turn: Turn, stepCost: real)
      reads this, device
    {
      var plan := ActionHandling.ExecutePlan(codec, device.respond, response.action, cache, |log|);
      && device.log == log + plan.commands && device.screenSize == plan.cache
      && (plan.result.Err? ==> r == Err(plan.result.error) && messages == before)
      && (plan.result.Ok? ==>
            && turn == Turn(response.rawContent, plan.result.value)
            && messages == before + TurnMessages(codec, turn)
            && r == NewStepResult(plan.result.value, response, stepCost))
    }

    /** What the loop needs of a step that returned: the conversation grew by the turn, and
        the step result carries the turn's finish flag, its message and the step's cost. */
    ghost predicate Summary(before: seq<Message>, step: StepResult, turn: Turn, stepCost: real)
      reads this
    {
      && messages == before + TurnMessages(codec, turn)
      && step.finished == turn.result.shouldFinish && step.stepCost == stepCost
      && (step.message.Some? <==> turn.result.message.JString?)
      && (step.message.Some? ==> turn.result.message == JString(step.message.value))
    }

    /** The rest of `_execute_step` once the model answered: charge, act, record. */
    method Act(response: VLMResponse) returns (r: Result<StepResult, PyError>, ghost turn: Turn, ghost stepCost: real)
      requires Valid()
      modifies this`messages, device, Ledger()
      ensures Valid()
      ensures StepDone(response, old(messages), old(device.log), old(device.screenSize), r, turn, stepCost)
      ensures r.Ok? ==> Summary(old(messages), r.value, turn, stepCost)
      ensures !Charged() ==> stepCost == 0.0
      ensures Charged() ==> billing.value.totalCost == old(billing.value.totalCost) + stepCost
      ensures Charged() ==> |billing.value.records| == |old(billing.value.records)| + 1
      ensures billing.Some? && !Charged() ==> billing.value.records == old(billing.value.records)
      ensures billing.Some? ==> billing.value.registry == old(billing.value.registry)
    {
      turn := Turn("", ActionResult(false, false, JNull));
      var cost := Charge(response);
      stepCost := cost;
      var result := handler.Execute(response.action);
      if result.Err? {
        return Err(result.error), turn, stepCost;
      }
      var actionResult := result.value;
      turn := Turn(response.rawContent, actionResult);
      RecordTurn(response.rawContent, actionResult);
      r := NewStepResult(actionResult, response, cost);
      StepResultCopies(actionResult, response, cost);
    }

    /** The conversation update of `_execute_step`: the assistant's raw reply, then the
        feedback unless the action finished the task. */
    method RecordTurn(rawContent: string, result: ActionResult)
      modifies this`messages
      ensures messages == old(messages) + TurnMessages(codec, Turn(rawContent, result))
    {
      messages := messages + [Message("assistant", Text(rawContent))];
      if !result.shouldFinish {
        var feedback := "动作执行" + (if result.success then "成功" else "失败");
        if Truthy(result.message) {
          feedback := feedback + (": " + PyStr(codec, result.message));
        }
        assert feedback == Feedback(codec, result);
        messages := messages + [Message("user", Text(feedback))];
        assert messages == old(messages) + ([Message("assistant", Text(rawContent))] + [Message("user", Text(feedback))]);
      } else {
        assert TurnMessages(codec, Turn(rawContent, result)) == [Message("assistant", Text(rawContent))];
      }
    }

    /** The ledger agrees with the running total: it holds the total and one record per step
        when steps are charged, and the total stays zero when they are not. */
    ghost predicate Ledgered()
      reads this, Ledger()
    {
      && (!Charged() ==> totalCost == 0.0)
      && (Charged() ==> billing.value.totalCost == totalCost && |billing.value.records| == stepCount)
    }

    /** The state of a run after its first two messages `start`: one turn and one cost per
        step, none of the steps finished, the conversation is the opening plus the turns'
        messages, and the running total is the sum of the step costs, which is what the
        ledger holds when steps are charged. */
    ghost predicate Running(start: seq<Message>, registry: seq<(string, BillingModels.ModelPricing)>)
      reads this, Ledger()
    {
      && Valid()
      && 0 <= stepCount
      && Tally(codec, start, messages, stepCount, turns, stepCosts, totalCost)
      && NoneFinished(turns)
      && Ledgered()
      && (billing.Some? ==> billing.value.registry == registry)
    }

    /** One iteration of `run`'s loop: the step, then its cost added to the total. */
    method Advance(ghost start: seq<Message>, ghost registry: seq<(string, BillingModels.ModelPricing)>)
        returns (r: Result<StepResult, PyError>)
      requires Running(start, registry)
      modifies this, client, device, Ledger()
      ensures Valid()
      ensures billing.Some? ==> billing.value.registry == registry
      ensures r.Ok? ==> |turns| == |old(turns)| + 1
      ensures r.Ok? && !r.value.finished ==> Running(start, registry)
      ensures r.Ok? && r.value.finished ==>
        && Tally(codec, start, messages, stepCount, turns, stepCosts, totalCost)
        && OnlyLastFinishes(turns) && turns[|turns| - 1].result.shouldFinish
        && Ledgered()
        && (r.value.message.Some? <==> turns[|turns| - 1].result.message.JString?)
        && (r.value.message.Some? ==> turns[|turns| - 1].result.message == JString(r.value.message.value))
    {
      ghost var before := messages;
      var result, turn, cost := ExecuteStep();
      if result.Err? {
        return result;
      }
      r := result;
      Record(start, registry, before, result.value, turn);
    }

    /** The rest of an iteration of `run`'s loop once the step returned `step`: its cost
        joins the running total, and the step's turn and cost join the run's. */
    method Record(ghost start: seq<Message>, ghost registry: seq<(string, BillingModels.ModelPricing)>,
                  ghost before: seq<Message>, step: StepResult, ghost turn: Turn)
      requires Valid()
      requires stepCount == |turns| + 1
      requires Tally(codec, start, before, |turns|, turns, stepCosts, totalCost)
      requires NoneFinished(turns)
      requires Summary(before, step, turn, step.stepCost)
      requires !Charged() ==> totalCost == 0.0 && step.stepCost == 0.0
      requires Charged() ==> billing.value.totalCost == totalCost + step.stepCost && |billing.value.records| == stepCount
      requires billing.Some? ==> billing.value.registry == registry
      modifies this`totalCost, this`turns, this`stepCosts
      ensures Valid()
      ensures turns == old(turns) + [turn] && stepCosts == old(stepCosts) + [step.stepCost]
      ensures totalCost == old(totalCost) + step.stepCost
      ensures !step.finished ==> Running(start, registry)
      ensures step.finished ==>
        && Tally(codec, start, messages, stepCount, turns, stepCosts, totalCost)
        && OnlyLastFinishes(turns) && turns[|turns| - 1].result.shouldFinish
        && Ledgered()
        && (step.message.Some? <==> turns[|turns| - 1].result.message.JString?)
        && (step.message.Some? ==> turns[|turns| - 1].result.message == JString(step.message.value))
    {
      TallySnoc(codec, start, before, turns, stepCosts, totalCost, turn, step.stepCost);
      FinishedSnoc(turns, turn);
      totalCost := totalCost + step.stepCost;
      turns := turns + [turn];
      stepCosts := stepCosts + [step.stepCost];
    }

    /** `run`: at most `max_steps` steps; the first step that finishes ends the run with its
        message, and running out of steps ends it with the step-limit message. Every step's
        cost is added to the running total, which matches the ledger when steps are charged. */
    method Run(task: string) returns (r: Result<string, PyError>)
      requires Valid()
      modifies this, client, device, Ledger()
      ensures Valid()
      ensures r.Ok? ==>
        && stepCount == |turns|
        && messages == InitialHistory(buildPrompt(RunContext(task, currentApp, config.maxSteps), config.language), task)
                       + History(codec, turns)
        && OnlyLastFinishes(turns)
        && |turns| <= (if config.maxSteps > 0 then config.maxSteps else 0)
        && (|turns| < config.maxSteps ==> |turns| > 0 && turns[|turns| - 1].result.shouldFinish)
        && r.value == RunReply(turns)
        && |stepCosts| == |turns| && totalCost == Sum(stepCosts)
        && (!Charged() ==> totalCost == 0.0)
        && (Charged() ==> billing.value.totalCost == totalCost && |billing.value.records| == stepCount)
      ensures billing.Some? ==> billing.value.registry == old(billing.value.registry)
    {
      ghost var registry := if billing.Some? then billing.value.registry else [];
      Begin(task);
      ghost var start := messages;
      assert messages == start + History(codec, turns);
      while stepCount < config.maxSteps
        invariant Running(start, registry)
        invariant stepCount <= config.maxSteps || stepCount == 0
        decreases config.maxSteps - stepCount
      {
        var result := Advance(start, registry);
        if result.Err? {
          return Err(result.error);
        }
        var step := result.value;
        if step.finished {
          return Ok(if step.message.Some? && step.message.value != "" then step.message.value else "任务完成");
        }
      }
      return Ok("达到最大步数限制");
    }
  }
}
