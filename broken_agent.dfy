/**
 * The routing lab's uninstrumented agent (agent/broken_agent.py): a ReAct
 * loop of at most `max_steps` completions over a growing conversation,
 * running every requested mock tool and stopping at the first reply that
 * has text and no tool calls. The model is the oracle `llm`; an exception
 * from a tool call escapes the loop and is the `Failure` of the result.
 */
module BrokenAgent {
  import opened Wrappers
  import opened Chat
  import MockTools

  const SystemPrompt := "You are a research assistant. Use tools to answer questions."
  const MaxStepsReached := "[Max steps reached]"

  /** The model: its reply to a conversation. */
  type Llm = seq<Message> -> Reply

  /** `{"answer": ..., "total_steps": ...}`. */
  datatype RunResult = RunResult(answer: string, totalSteps: int)

  function InitialMessages(query: string): seq<Message> {
    [System(SystemPrompt), User(query)]
  }

  /** The tool message answering one call, or what the call raised. */
  function ToolMessage(call: ToolCall, eval: MockTools.Eval): Result<Message, string> {
    match MockTools.Invoke(call.name, call.arguments, eval)
    case Success(out) => Success(Tool(call.id, call.name, out))
    case Failure(e) => Failure(e)
  }

  /** The tool messages for a reply's calls, in call order; the first raising call ends it. */
  function ToolMessages(calls: seq<ToolCall>, eval: MockTools.Eval): (r: Result<seq<Message>, string>)
    ensures r.Success? <==> forall i :: 0 <= i < |calls| ==> ToolMessage(calls[i], eval).Success?
    ensures r.Success? ==> |r.value| == |calls|
    ensures r.Success? ==> forall i :: 0 <= i < |calls| ==> r.value[i] == ToolMessage(calls[i], eval).value
    decreases |calls|
  {
    if calls == [] then Success([])
    else
      var init := calls[..|calls| - 1];
      match ToolMessages(init, eval)
      case Failure(e) =>
        InitFails(calls, init, eval);
        Failure(e)
      case Success(ms) =>
        match ToolMessage(calls[|calls| - 1], eval)
        case Failure(e) => Failure(e)
        case Success(m) =>
          SnocMessages(calls, eval, ms, m);
          Success(ms + [m])
  }

  lemma InitFails(calls: seq<ToolCall>, init: seq<ToolCall>, eval: MockTools.Eval)
    requires calls != [] && init == calls[..|calls| - 1]
    requires !forall i :: 0 <= i < |init| ==> ToolMessage(init[i], eval).Success?
    ensures !forall i :: 0 <= i < |calls| ==> ToolMessage(calls[i], eval).Success?
  {
    var i :| 0 <= i < |init| && !ToolMessage(init[i], eval).Success?;
    assert init[i] == calls[i];
  }

  lemma SnocMessages(calls: seq<ToolCall>, eval: MockTools.Eval, ms: seq<Message>, m: Message)
    requires calls != [] && |ms| == |calls| - 1
    requires forall i :: 0 <= i < |ms| ==> ToolMessage(calls[..|calls| - 1][i], eval) == Success(ms[i])
    requires ToolMessage(calls[|calls| - 1], eval) == Success(m)
    ensures forall i :: 0 <= i < |calls| ==> ToolMessage(calls[i], eval) == Success((ms + [m])[i])
  {
    forall i | 0 <= i < |calls|
      ensures ToolMessage(calls[i], eval) == Success((ms + [m])[i])
    {
      if i < |ms| {
        assert calls[..|calls| - 1][i] == calls[i];
      }
    }
  }

  /** The first call that raises decides the error. */
  lemma {:induction false} ToolMessagesFirstFailure(calls: seq<ToolCall>, eval: MockTools.Eval, i: nat)
    requires i < |calls|
    requires ToolMessages(calls[..i], eval).Success? && ToolMessage(calls[i], eval).Failure?
    ensures ToolMessages(calls, eval) == Failure(ToolMessage(calls[i], eval).error)
    decreases |calls|
  {
    var init := calls[..|calls| - 1];
    if i == |calls| - 1 {
      assert init == calls[..i];
    } else {
      assert init[..i] == calls[..i];
      assert init[i] == calls[i];
      ToolMessagesFirstFailure(init, eval, i);
    }
  }

  /** What one step appends: the assistant message, then one tool message per call. */
  function StepMessages(reply: Reply, eval: MockTools.Eval): Result<seq<Message>, string> {
    match ToolMessages(reply.toolCalls, eval)
    case Failure(e) => Failure(e)
    case Success(ms) => Success([Assistant(reply)] + ms)
  }

  /** A step ends the run when the reply has text and asks for no tool. */
  predicate IsFinal(reply: Reply) {
    reply.toolCalls == [] && Truthy(reply.content)
  }

  /** The loop from step `step` on, over the conversation so far: the result and the final conversation. */
  function Loop(llm: Llm, eval: MockTools.Eval, msgs: seq<Message>, step: int, maxSteps: int): (r: Result<(RunResult, seq<Message>), string>)
    ensures r.Success? ==> msgs <= r.value.1
    ensures r.Success? && step <= maxSteps ==> step <= r.value.0.totalSteps <= maxSteps
    ensures r.Success? && step < maxSteps ==> step < r.value.0.totalSteps
    decreases maxSteps - step
  {
    if step >= maxSteps then Success((RunResult(MaxStepsReached, maxSteps), msgs))
    else
      var reply := llm(msgs);
      match StepMessages(reply, eval)
      case Failure(e) => Failure(e)
      case Success(block) =>
        if IsFinal(reply) then Success((RunResult(reply.content.value, step + 1), msgs + block))
        else Loop(llm, eval, msgs + block, step + 1, maxSteps)
  }

  /** `run_agent(query, max_steps)`, with the conversation it builds. */
  function Run(query: string, maxSteps: int, llm: Llm, eval: MockTools.Eval): (r: Result<(RunResult, seq<Message>), string>)
    ensures r.Success? ==> InitialMessages(query) <= r.value.1
    ensures r.Success? && maxSteps >= 0 ==> 0 <= r.value.0.totalSteps <= maxSteps
    ensures r.Success? && maxSteps > 0 ==> r.value.0.totalSteps >= 1
  {
    Loop(llm, eval, InitialMessages(query), 0, maxSteps)
  }

  // ---------------------------------------------------------------------------
  // The shape of the conversation

  /** One step's messages: an assistant reply followed by a tool message per call, ids and names matching. */
  ghost predicate IsBlock(ms: seq<Message>) {
    && |ms| >= 1 && ms[0].Assistant?
    && |ms| == 1 + |ms[0].reply.toolCalls|
    && forall i :: 1 <= i < |ms| ==>
         ms[i].Tool? && ms[i].toolCallId == ms[0].reply.toolCalls[i - 1].id
         && ms[i].name == ms[0].reply.toolCalls[i - 1].name
  }

  /** `ms` is exactly `n` steps' messages, one after another. */
  ghost predicate Blocks(ms: seq<Message>, n: nat)
    decreases n
  {
    if n == 0 then ms == []
    else exists k :: 1 <= k <= |ms| && IsBlock(ms[..k]) && Blocks(ms[k..], n - 1)
  }

  /** The assistant messages in a conversation: one per completion requested. */
  function Completions(ms: seq<Message>): nat {
    if ms == [] then 0 else (if ms[0].Assistant? then 1 else 0) + Completions(ms[1..])
  }

  lemma {:induction false} CompletionsAppend(a: seq<Message>, b: seq<Message>)
    ensures Completions(a + b) == Completions(a) + Completions(b)
    decreases |a|
  {
    if a == [] {
      assert a + b == b;
    } else {
      assert (a + b)[0] == a[0];
      assert (a + b)[1..] == a[1..] + b;
      CompletionsAppend(a[1..], b);
    }
  }

  lemma BlockHasOneCompletion(ms: seq<Message>)
    requires IsBlock(ms)
    ensures Completions(ms) == 1
  {
    var rest := ms[1..];
    forall i | 0 <= i < |rest| ensures !rest[i].Assistant? {
      assert rest[i] == ms[1 + i];
    }
    NoAssistantNoCompletion(rest);
    assert ms == [ms[0]] + rest;
  }

  lemma {:induction false} NoAssistantNoCompletion(ms: seq<Message>)
    requires forall i :: 0 <= i < |ms| ==> !ms[i].Assistant?
    ensures Completions(ms) == 0
    decreases |ms|
  {
    if ms != [] {
      assert forall i :: 0 <= i < |ms[1..]| ==> ms[1..][i] == ms[i + 1];
      NoAssistantNoCompletion(ms[1..]);
    }
  }

  /** `n` steps' messages hold exactly `n` completions. */
  lemma {:induction false} BlocksCount(ms: seq<Message>, n: nat)
    requires Blocks(ms, n)
    ensures Completions(ms) == n
    decreases n
  {
    if n > 0 {
      var k :| 1 <= k <= |ms| && IsBlock(ms[..k]) && Blocks(ms[k..], n - 1);
      BlocksCount(ms[k..], n - 1);
      BlockHasOneCompletion(ms[..k]);
      assert ms == ms[..k] + ms[k..];
      CompletionsAppend(ms[..k], ms[k..]);
    }
  }

  /** A step's messages form one block. */
  lemma StepIsBlock(reply: Reply, eval: MockTools.Eval)
    requires StepMessages(reply, eval).Success?
    ensures IsBlock(StepMessages(reply, eval).value)
  {
    var ms := ToolMessages(reply.toolCalls, eval).value;
    forall i | 0 <= i < |reply.toolCalls|
      ensures ms[i] == Tool(reply.toolCalls[i].id, reply.toolCalls[i].name, MockTools.Invoke(reply.toolCalls[i].name, reply.toolCalls[i].arguments, eval).value)
    {
    }
  }

  /** A reply with no tool calls appends just itself. */
  lemma NoCallsStep(reply: Reply, eval: MockTools.Eval)
    requires reply.toolCalls == []
    ensures StepMessages(reply, eval) == Success([Assistant(reply)])
  {
    assert ToolMessages([], eval) == Success([]);
    assert [Assistant(reply)] + [] == [Assistant(reply)];
  }

  /** One step of the loop, whatever its outcome. */
  lemma LoopUnfold(llm: Llm, eval: MockTools.Eval, msgs: seq<Message>, step: int, maxSteps: int)
    requires step < maxSteps
    ensures StepMessages(llm(msgs), eval).Failure? ==>
              Loop(llm, eval, msgs, step, maxSteps) == Failure(StepMessages(llm(msgs), eval).error)
    ensures StepMessages(llm(msgs), eval).Success? && IsFinal(llm(msgs)) ==>
              Loop(llm, eval, msgs, step, maxSteps) ==
              Success((RunResult(llm(msgs).content.value, step + 1), msgs + StepMessages(llm(msgs), eval).value))
    ensures StepMessages(llm(msgs), eval).Success? && !IsFinal(llm(msgs)) ==>
              Loop(llm, eval, msgs, step, maxSteps) ==
              Loop(llm, eval, msgs + StepMessages(llm(msgs), eval).value, step + 1, maxSteps)
  {
  }

  /** One step of the loop, unfolded. */
  lemma LoopStep(llm: Llm, eval: MockTools.Eval, msgs: seq<Message>, step: int, maxSteps: int)
    requires step < maxSteps
    requires Loop(llm, eval, msgs, step, maxSteps).Success?
    ensures StepMessages(llm(msgs), eval).Success?
    ensures IsFinal(llm(msgs)) ==>
              Loop(llm, eval, msgs, step, maxSteps) ==
              Success((RunResult(llm(msgs).content.value, step + 1), msgs + [Assistant(llm(msgs))]))
    ensures !IsFinal(llm(msgs)) ==>
              Loop(llm, eval, msgs, step, maxSteps) ==
              Loop(llm, eval, msgs + StepMessages(llm(msgs), eval).value, step + 1, maxSteps)
  {
    if IsFinal(llm(msgs)) {
      assert ToolMessages([], eval) == Success([]);
      assert StepMessages(llm(msgs), eval) == Success([Assistant(llm(msgs))] + []);
      assert [Assistant(llm(msgs))] + [] == [Assistant(llm(msgs))];
    }
  }

  /**
   * From any point of the run, the conversation only grows, by one block per
   * completion, and the step count never passes the bound.
   */
  lemma {:induction false} LoopGrowth(llm: Llm, eval: MockTools.Eval, msgs: seq<Message>, step: int, maxSteps: int)
    requires 0 <= step <= maxSteps
    requires Loop(llm, eval, msgs, step, maxSteps).Success?
    ensures Grown(msgs, step, maxSteps, Loop(llm, eval, msgs, step, maxSteps).value)
    decreases maxSteps - step
  {
    if step < maxSteps {
      LoopStep(llm, eval, msgs, step, maxSteps);
      var reply := llm(msgs);
      if IsFinal(reply) {
        OneBlock(reply);
        FinalGrown(msgs, reply, step, maxSteps);
      } else {
        var block := StepMessages(reply, eval).value;
        StepIsBlock(reply, eval);
        LoopGrowth(llm, eval, msgs + block, step + 1, maxSteps);
        GrownStep(msgs, block, step, maxSteps, Loop(llm, eval, msgs + block, step + 1, maxSteps).value);
      }
    } else {
      assert msgs[|msgs|..] == [];
    }
  }

  /**
   * `out` extends `msgs` by exactly the messages of the steps taken after
   * `step`, and the step count stays within the bound.
   */
  ghost predicate Grown(msgs: seq<Message>, step: int, maxSteps: int, r: (RunResult, seq<Message>)) {
    && step <= r.0.totalSteps <= maxSteps
    && msgs <= r.1
    && Blocks(r.1[|msgs|..], r.0.totalSteps - step)
  }

  lemma FinalGrown(msgs: seq<Message>, reply: Reply, step: int, maxSteps: int)
    requires 0 <= step < maxSteps && IsFinal(reply) && Blocks([Assistant(reply)], 1)
    ensures Grown(msgs, step, maxSteps, (RunResult(reply.content.value, step + 1), msgs + [Assistant(reply)]))
  {
    assert (msgs + [Assistant(reply)])[|msgs|..] == [Assistant(reply)];
  }

  lemma GrownStep(msgs: seq<Message>, block: seq<Message>, step: int, maxSteps: int, r: (RunResult, seq<Message>))
    requires 0 <= step && IsBlock(block) && Grown(msgs + block, step + 1, maxSteps, r)
    ensures Grown(msgs, step, maxSteps, r)
  {
    PrefixGrows(msgs, block, r.1, r.0.totalSteps - (step + 1));
  }

  /** A block in front of `k` steps' messages makes `k + 1` steps. */
  lemma PrefixGrows(msgs: seq<Message>, block: seq<Message>, out: seq<Message>, k: nat)
    requires IsBlock(block) && msgs + block <= out && Blocks(out[|msgs + block|..], k)
    ensures msgs <= out && Blocks(out[|msgs|..], k + 1)
  {
    var rest := out[|msgs + block|..];
    assert out[|msgs|..] == block + rest;
    BlocksStartWith(block, rest, k);
  }

  /** A reply without tool calls is one step's messages on its own. */
  lemma OneBlock(reply: Reply)
    requires reply.toolCalls == []
    ensures Blocks([Assistant(reply)], 1)
  {
    var b := [Assistant(reply)];
    assert IsBlock(b);
    assert Blocks(b[1..], 0);
    assert b[..1] == b;
  }

  /**
   * An answer other than the bound's marker is the text of the last reply,
   * which asked for no tool; stopping early happens only on such a reply.
   */
  lemma {:induction false} LoopAnswer(llm: Llm, eval: MockTools.Eval, msgs: seq<Message>, step: int, maxSteps: int)
    requires Loop(llm, eval, msgs, step, maxSteps).Success?
    ensures EndsOnAnswer(msgs, maxSteps, Loop(llm, eval, msgs, step, maxSteps).value)
    decreases maxSteps - step
  {
    if step < maxSteps {
      LoopStep(llm, eval, msgs, step, maxSteps);
      var reply := llm(msgs);
      if IsFinal(reply) {
        FinalAnswers(msgs, reply, step, maxSteps);
      } else {
        var block := StepMessages(reply, eval).value;
        LoopAnswer(llm, eval, msgs + block, step + 1, maxSteps);
        AnswerStep(msgs, block, maxSteps, Loop(llm, eval, msgs + block, step + 1, maxSteps).value);
      }
    }
  }

  /** The last message of `r`'s conversation, beyond `msgs`, is a final reply whose text is the answer. */
  ghost predicate AnswerIsLastReply(msgs: seq<Message>, r: (RunResult, seq<Message>)) {
    var out := r.1;
    |out| > |msgs| && out[|out| - 1].Assistant? && IsFinal(out[|out| - 1].reply)
    && r.0.answer == out[|out| - 1].reply.content.value
  }

  /** The answer is the bound's marker with the bound as step count, or the last reply's text; short runs end on such a reply. */
  ghost predicate EndsOnAnswer(msgs: seq<Message>, maxSteps: int, r: (RunResult, seq<Message>)) {
    && ((r.0.answer == MaxStepsReached && r.0.totalSteps == maxSteps) || AnswerIsLastReply(msgs, r))
    && (r.0.totalSteps != maxSteps ==> AnswerIsLastReply(msgs, r))
  }

  lemma FinalAnswers(msgs: seq<Message>, reply: Reply, step: int, maxSteps: int)
    requires IsFinal(reply)
    ensures EndsOnAnswer(msgs, maxSteps, (RunResult(reply.content.value, step + 1), msgs + [Assistant(reply)]))
  {
  }

  lemma AnswerStep(msgs: seq<Message>, block: seq<Message>, maxSteps: int, r: (RunResult, seq<Message>))
    requires EndsOnAnswer(msgs + block, maxSteps, r)
    ensures EndsOnAnswer(msgs, maxSteps, r)
  {
  }

  lemma {:induction false} BlocksStartWith(b: seq<Message>, rest: seq<Message>, n: nat)
    requires IsBlock(b) && Blocks(rest, n)
    ensures Blocks(b + rest, n + 1)
  {
    assert (b + rest)[..|b|] == b;
    assert (b + rest)[|b|..] == rest;
  }

  /**
   * The run as a whole: the conversation starts with the system prompt and
   * the query, `total_steps` never passes `max_steps`, and the number of
   * completions requested equals the steps taken (none when the bound is not
   * positive).
   */
  lemma RunShape(query: string, maxSteps: int, llm: Llm, eval: MockTools.Eval)
    requires Run(query, maxSteps, llm, eval).Success?
    ensures var (res, out) := Run(query, maxSteps, llm, eval).value;
      && res.totalSteps <= maxSteps
      && |out| >= 2 && out[..2] == [System(SystemPrompt), User(query)]
      && Completions(out) == if maxSteps <= 0 then 0 else res.totalSteps
  {
    var (res, out) := Run(query, maxSteps, llm, eval).value;
    var init := InitialMessages(query);
    if maxSteps > 0 {
      LoopGrowth(llm, eval, init, 0, maxSteps);
      BlocksCount(out[|init|..], res.totalSteps);
      assert out == init + out[|init|..];
      CompletionsAppend(init, out[|init|..]);
      NoAssistantNoCompletion(init);
    } else {
      NoAssistantNoCompletion(init);
    }
  }

  /** A first reply with text and no tool calls is the answer after one step. */
  lemma ImmediateAnswer(query: string, maxSteps: int, llm: Llm, eval: MockTools.Eval)
    requires maxSteps >= 1 && IsFinal(llm(InitialMessages(query)))
    ensures Run(query, maxSteps, llm, eval) ==
      Success((RunResult(llm(InitialMessages(query)).content.value, 1), InitialMessages(query) + [Assistant(llm(InitialMessages(query)))]))
  {
    NoCallsStep(llm(InitialMessages(query)), eval);
  }

  /** A reply with neither text nor tool calls does not end the run: the next step sees it appended. */
  lemma SilentReplyContinues(llm: Llm, eval: MockTools.Eval, msgs: seq<Message>, step: int, maxSteps: int)
    requires step < maxSteps
    requires llm(msgs).toolCalls == [] && !Truthy(llm(msgs).content)
    ensures Loop(llm, eval, msgs, step, maxSteps) == Loop(llm, eval, msgs + [Assistant(llm(msgs))], step + 1, maxSteps)
  {
    NoCallsStep(llm(msgs), eval);
  }

  /** A call to a tool the dict does not hold is answered with "Unknown tool". */
  lemma UnknownToolObserved(call: ToolCall, eval: MockTools.Eval)
    requires call.arguments.Obj? && call.name != "search" && call.name != "calculate"
    ensures ToolMessage(call, eval) == Success(Tool(call.id, call.name, "Unknown tool"))
  {
  }

  /** The inner `for tc in tool_calls` loop: one tool message per call, in order. */
  method RunTools(calls: seq<ToolCall>, eval: MockTools.Eval) returns (r: Result<seq<Message>, string>)
    ensures r == ToolMessages(calls, eval)
  {
    var out := [];
    var i := 0;
    while i < |calls|
      invariant 0 <= i <= |calls|
      invariant ToolMessages(calls[..i], eval) == Success(out)
    {
      assert calls[..i + 1][..i] == calls[..i];
      var outcome := MockTools.Invoke(calls[i].name, calls[i].arguments, eval);
      if outcome.Failure? {
        ToolMessagesFirstFailure(calls, eval, i);
        return Failure(outcome.error);
      }
      out := out + [Tool(calls[i].id, calls[i].name, outcome.value)];
      i := i + 1;
    }
    assert calls[..|calls|] == calls;
    return Success(out);
  }

  /** `run_agent(query, max_steps)`. */
  method RunAgent(query: string, maxSteps: int, llm: Llm, eval: MockTools.Eval) returns (r: Result<RunResult, string>)
    ensures r.Success? <==> Run(query, maxSteps, llm, eval).Success?
    ensures r.Success? ==> r.value == Run(query, maxSteps, llm, eval).value.0
    ensures r.Failure? ==> r.error == Run(query, maxSteps, llm, eval).error
  {
    var messages := InitialMessages(query);
    var step := 0;
    while step < maxSteps
      invariant 0 <= step
      invariant Loop(llm, eval, messages, step, maxSteps) == Run(query, maxSteps, llm, eval)
      decreases maxSteps - step
    {
      var reply := llm(messages);
      LoopUnfold(llm, eval, messages, step, maxSteps);
      var toolMessages := RunTools(reply.toolCalls, eval);
      if toolMessages.Failure? {
        return Failure(toolMessages.error);
      }
      assert StepMessages(reply, eval) == Success([Assistant(reply)] + toolMessages.value);
      messages := messages + ([Assistant(reply)] + toolMessages.value);
      if reply.toolCalls == [] && Truthy(reply.content) {
        return Success(RunResult(reply.content.value, step + 1));
      }
      step := step + 1;
    }
    return Success(RunResult(MaxStepsReached, maxSteps));
  }
}
