/**
 `AgentLoop.run` in its own form: growing lists, a set of seen calls and nested loops,
 proved to return what the step machine computes.
 */
module AgentLoopMethod {
  import opened Prelude
  import opened ProviderModels
  import opened AgentLoop
  import opened AgentLoopTranscript
  import opened AgentLoopRuns

  /** The validation pass over one response's calls; `seen` grows as it goes. */
  method ValidateCalls(calls: seq<ToolCall>, allowed: seq<string>, seenBefore: set<Signature>)
    returns (verdict: BatchVerdict)
    ensures verdict == ValidateBatch(calls, allowed, seenBefore)
  {
    var seen := seenBefore;
    for k := 0 to |calls|
      invariant ValidateBatch(calls, allowed, seenBefore) == ValidateBatch(calls[k..], allowed, seen)
    {
      var call := calls[k];
      assert calls[k..][0] == call && calls[k..][1..] == calls[k + 1..];
      if call.name !in allowed {
        return NotAllowed;
      }
      if CallSignature(call) in seen {
        return Duplicate;
      }
      seen := seen + {CallSignature(call)};
    }
    return Admitted(seen);
  }

  lemma {:induction false} Unroll(env: Env, req: RunRequest, m: Machine)
    requires ToolsRegistered(env, req) && CallsAllowed(req, m.phase) && !m.phase.Done?
    ensures RunFrom(env, req, m) == RunFrom(env, req, Step(env, req, m))
    ensures Step(env, req, m).phase.Done? ==> RunFrom(env, req, m) == Step(env, req, m)
  {
  }

  /** The loop's local variables hold what the machine records. */
  predicate Tracks(m: Machine, messages: seq<ChatMessage>, responses: seq<ChatResponse>,
                   executions: seq<ToolExecutionRecord>, ordinal: nat, seen: set<Signature>, usage: TokenUsage,
                   signals: seq<Signal>, ticks: nat, calls: nat)
  {
    && m.messages == messages && m.responses == responses && m.executions == executions
    && m.ordinal == ordinal == |m.invocations| && m.seen == seen && m.usage == usage && m.signals == signals
    && |m.readings| == ticks && |m.requests| == calls
  }

  /** One pass of the second loop: time left, execute, record, answer, time check. */
  method ExecuteCall(env: Env, req: RunRequest, iteration: nat, response: ChatResponse, k: nat,
                     messages0: seq<ChatMessage>, executions0: seq<ToolExecutionRecord>, ordinal0: nat,
                     signals0: seq<Signal>, ticks0: nat, ghost m: Machine)
    returns (timedOut: bool, messages: seq<ChatMessage>, executions: seq<ToolExecutionRecord>, ordinal: nat,
             signals: seq<Signal>, ticks: nat)
    requires k < |response.toolCalls| && forall c :: c in response.toolCalls ==> c.name in env.registry
    requires Tracks(m, messages0, m.responses, executions0, ordinal0, m.seen, m.usage, signals0, ticks0, |m.requests|)
    ensures var m' := StepExecuting(env, req, m, iteration, response, k);
      if timedOut then
        && m'.signals == signals
        && m'.phase == Done(RunResult(Stopped, Timeout, messages, m.responses, executions, m.usage, iteration, None, None))
      else
        && m'.phase == Executing(iteration, response, k + 1)
        && Tracks(m', messages, m.responses, executions, ordinal, m.seen, m.usage, signals, ticks, |m.requests|)
  {
    timedOut := false;
    messages, executions, ordinal, signals, ticks := messages0, executions0, ordinal0, signals0, ticks0;
    var deadline := env.clock(0) + req.timeout;
    var call := response.toolCalls[k];
    var remaining := deadline - env.clock(ticks);
    ticks := ticks + 1;
    if remaining <= 0.0 {
      timedOut := true;
      return;
    }
    var definition := env.registry[call.name];
    ordinal := ordinal + 1;
    var started := ToolCallStarted(definition.name, definition.version, ordinal, iteration);
    signals := signals + [started];
    var result := env.runtime(ordinal - 1, InvocationFor(call, iteration, remaining));
    signals := signals + [CompletedSignal(result, ordinal)];
    assert signals == signals0 + [started, CompletedSignal(result, ordinal)];
    executions := executions + [RecordFor(call, result)];
    messages := messages + [ToolMessage(RecordFor(call, result))];
    var now := env.clock(ticks);
    ticks := ticks + 1;
    if now >= deadline {
      timedOut := true;
    }
  }

  /** The machine once the calls from the k-th on were executed, or a time check stopped it. */
  function ExecuteFrom(env: Env, req: RunRequest, m: Machine, i: nat, r: ChatResponse, k: nat): Machine
    requires forall c :: c in r.toolCalls ==> c.name in env.registry
    decreases |r.toolCalls| - k
  {
    if k >= |r.toolCalls| then m
    else
      var m' := StepExecuting(env, req, m, i, r, k);
      if m'.phase.Done? then m' else ExecuteFrom(env, req, m', i, r, k + 1)
  }

  /** Executing a response's calls is part of the machine's run. */
  lemma {:induction false} ExecutionRuns(env: Env, req: RunRequest, m: Machine, i: nat, r: ChatResponse, k: nat)
    requires ToolsRegistered(env, req) && CallsAllowed(req, m.phase) && m.phase == Executing(i, r, k)
    requires k <= |r.toolCalls|
    ensures var m' := ExecuteFrom(env, req, m, i, r, k);
      && CallsAllowed(req, m'.phase) && RunFrom(env, req, m') == RunFrom(env, req, m)
      && (m'.phase.Done? || m'.phase == Executing(i, r, |r.toolCalls|))
    decreases |r.toolCalls| - k
  {
    if k < |r.toolCalls| {
      Unroll(env, req, m);
      var m' := StepExecuting(env, req, m, i, r, k);
      if !m'.phase.Done? {
        ExecutionRuns(env, req, m', i, r, k + 1);
      }
    }
  }

  /** The second pass over a response's calls. */
  method ExecuteCalls(env: Env, req: RunRequest, iteration: nat, response: ChatResponse,
                      messages0: seq<ChatMessage>, executions0: seq<ToolExecutionRecord>, ordinal0: nat,
                      signals0: seq<Signal>, ticks0: nat, ghost m0: Machine)
    returns (timedOut: bool, messages: seq<ChatMessage>, executions: seq<ToolExecutionRecord>, ordinal: nat,
             signals: seq<Signal>, ticks: nat)
    requires m0.phase == Executing(iteration, response, 0) && forall c :: c in response.toolCalls ==> c.name in env.registry
    requires Tracks(m0, messages0, m0.responses, executions0, ordinal0, m0.seen, m0.usage, signals0, ticks0, |m0.requests|)
    ensures var m := ExecuteFrom(env, req, m0, iteration, response, 0);
      if timedOut then
        && m.signals == signals
        && m.phase == Done(RunResult(Stopped, Timeout, messages, m0.responses, executions, m0.usage, iteration, None, None))
      else
        && m.phase == Executing(iteration, response, |response.toolCalls|)
        && Tracks(m, messages, m0.responses, executions, ordinal, m0.seen, m0.usage, signals, ticks, |m0.requests|)
  {
    timedOut := false;
    ghost var m := m0;
    messages, executions, ordinal, signals, ticks := messages0, executions0, ordinal0, signals0, ticks0;
    for k := 0 to |response.toolCalls|
      invariant !timedOut && m.phase == Executing(iteration, response, k)
      invariant ExecuteFrom(env, req, m0, iteration, response, 0) == ExecuteFrom(env, req, m, iteration, response, k)
      invariant Tracks(m, messages, m0.responses, executions, ordinal, m0.seen, m0.usage, signals, ticks, |m0.requests|)
    {
      timedOut, messages, executions, ordinal, signals, ticks :=
        ExecuteCall(env, req, iteration, response, k, messages, executions, ordinal, signals, ticks, m);
      m := StepExecuting(env, req, m, iteration, response, k);
      if timedOut {
        return;
      }
    }
  }

  /** Either the run is over, or the provider answered. */
  datatype Asked = Over(result: RunResult) | Answer(response: ChatResponse)

  /** Context check, time left, capability check, provider call. */
  method AskProvider(env: Env, req: RunRequest, iteration: nat, messages: seq<ChatMessage>,
                     responses: seq<ChatResponse>, executions: seq<ToolExecutionRecord>, usage: TokenUsage,
                     ticks0: nat, calls0: nat, ghost m: Machine)
    returns (asked: Asked, ticks: nat, calls: nat)
    requires ToolsRegistered(env, req) && m.phase == Begin(iteration) && iteration <= req.maxIterations
    requires Tracks(m, messages, responses, executions, m.ordinal, m.seen, usage, m.signals, ticks0, calls0)
    ensures var m' := StepBegin(env, req, m, iteration);
      match asked
      case Over(result) => m'.phase == Done(result) && m'.signals == m.signals
      case Answer(r) =>
        && m'.phase == Received(iteration, r)
        && Tracks(m', messages + [AssistantMessage(r)], responses + [r], executions, m.ordinal, m.seen,
                  AddUsage(usage, r.usage), m.signals, ticks, calls)
  {
    ticks, calls := ticks0, calls0;
    if env.sizer(messages) > req.maxContextTokens {
      asked := Over(RunResult(Stopped, ContextBudgetExceeded, messages, responses, executions, usage, iteration - 1, None, None));
      return;
    }
    var remaining := env.clock(0) + req.timeout - env.clock(ticks);
    ticks := ticks + 1;
    if remaining <= 0.0 {
      asked := Over(RunResult(Stopped, Timeout, messages, responses, executions, usage, iteration - 1, None, None));
      return;
    }
    var request := RequestFor(env, req, messages, iteration, remaining);
    if !Supported(env, request) {
      asked := Over(RunResult(Failed, ProviderError, messages, responses, executions, usage, iteration - 1, None,
                              Some("unsupported_capability")));
      return;
    }
    var reply := env.provider(calls, request);
    calls := calls + 1;
    if reply.Raised? {
      asked := Over(RunResult(Failed, ProviderError, messages, responses, executions, usage, iteration - 1, None,
                              Some(reply.code)));
      return;
    }
    asked := Answer(reply.response);
  }

  /** The checks between a response and its first tool. */
  method JudgeResponse(env: Env, req: RunRequest, iteration: nat, response: ChatResponse, messages: seq<ChatMessage>,
                       responses: seq<ChatResponse>, executions: seq<ToolExecutionRecord>, usage: TokenUsage,
                       seen0: set<Signature>, ticks0: nat, ghost m: Machine)
    returns (over: Option<RunResult>, seen: set<Signature>, ticks: nat)
    requires m.phase == Received(iteration, response)
    requires Tracks(m, messages, responses, executions, m.ordinal, seen0, usage, m.signals, ticks0, |m.requests|)
    ensures var m' := StepReceived(env, req, m, iteration, response);
      match over
      case Some(result) => m'.phase == Done(result) && m'.signals == m.signals
      case None =>
        && m'.phase == Executing(iteration, response, 0)
        && Tracks(m', messages, responses, executions, m.ordinal, seen, usage, m.signals, ticks, |m.requests|)
  {
    seen := seen0;
    var now := env.clock(ticks0);
    ticks := ticks0 + 1;
    if now >= env.clock(0) + req.timeout {
      over := Some(RunResult(Stopped, Timeout, messages, responses, executions, usage, iteration, None, None));
      return;
    }
    if response.toolCalls == [] {
      over := Some(RunResult(Completed, FinalResponse, messages, responses, executions, usage, iteration, Some(response), None));
      return;
    }
    if iteration >= req.maxIterations {
      over := Some(RunResult(Stopped, MaxIterations, messages, responses, executions, usage, iteration, None, None));
      return;
    }
    if |executions| + |response.toolCalls| > req.maxToolCalls {
      over := Some(RunResult(Stopped, MaxToolCalls, messages, responses, executions, usage, iteration, None, None));
      return;
    }
    var verdict := ValidateCalls(response.toolCalls, req.allowedTools, seen);
    if verdict.NotAllowed? {
      over := Some(RunResult(Failed, ToolNotAllowed, messages, responses, executions, usage, iteration, None,
                             Some("tool_not_allowed")));
    } else if verdict.Duplicate? {
      over := Some(RunResult(Stopped, DuplicateToolCall, messages, responses, executions, usage, iteration, None, None));
    } else {
      over, seen := None, verdict.seen;
    }
  }

  /** The machine once a response was judged and, if admitted, its calls were executed. */
  function AfterResponse(env: Env, req: RunRequest, m: Machine, i: nat, r: ChatResponse): Machine
    requires ToolsRegistered(env, req)
  {
    var judged := StepReceived(env, req, m, i, r);
    if judged.phase.Done? then judged
    else
      AdmittedRegistered(env, req, m, i, r);
      ExecuteFrom(env, req, judged, i, r, 0)
  }

  lemma {:induction false} AdmittedRegistered(env: Env, req: RunRequest, m: Machine, i: nat, r: ChatResponse)
    requires ToolsRegistered(env, req) && !StepReceived(env, req, m, i, r).phase.Done?
    ensures forall c :: c in r.toolCalls ==> c.name in req.allowedTools && c.name in env.registry
  {
    ValidateBatchMeans(r.toolCalls, req.allowedTools, m.seen);
  }

  lemma {:induction false} ResponseRuns(env: Env, req: RunRequest, m: Machine, i: nat, r: ChatResponse)
    requires ToolsRegistered(env, req) && m.phase == Received(i, r)
    ensures var m' := AfterResponse(env, req, m, i, r);
      && CallsAllowed(req, m'.phase) && RunFrom(env, req, m') == RunFrom(env, req, m)
      && (m'.phase.Done? || (m'.phase == Executing(i, r, |r.toolCalls|) && i < req.maxIterations))
  {
    Unroll(env, req, m);
    var judged := StepReceived(env, req, m, i, r);
    if !judged.phase.Done? {
      AdmittedRegistered(env, req, m, i, r);
      ExecutionRuns(env, req, judged, i, r, 0);
    }
  }

  /** What follows a recorded response: the checks, then the calls. */
  method Respond(env: Env, req: RunRequest, iteration: nat, response: ChatResponse, messages0: seq<ChatMessage>,
                 responses: seq<ChatResponse>, executions0: seq<ToolExecutionRecord>, ordinal0: nat, usage: TokenUsage,
                 seen0: set<Signature>, signals0: seq<Signal>, ticks0: nat, ghost m: Machine)
    returns (over: Option<RunResult>, messages: seq<ChatMessage>, executions: seq<ToolExecutionRecord>, ordinal: nat,
             seen: set<Signature>, signals: seq<Signal>, ticks: nat)
    requires ToolsRegistered(env, req) && m.phase == Received(iteration, response)
    requires Tracks(m, messages0, responses, executions0, ordinal0, seen0, usage, signals0, ticks0, |m.requests|)
    ensures var m' := AfterResponse(env, req, m, iteration, response);
      match over
      case Some(result) => m'.phase == Done(result) && m'.signals == signals
      case None =>
        && m'.phase == Executing(iteration, response, |response.toolCalls|)
        && Tracks(m', messages, responses, executions, ordinal, seen, usage, signals, ticks, |m.requests|)
  {
    messages, executions, ordinal, signals := messages0, executions0, ordinal0, signals0;
    over, seen, ticks :=
      JudgeResponse(env, req, iteration, response, messages, responses, executions, usage, seen0, ticks0, m);
    if over.Some? {
      return;
    }
    AdmittedRegistered(env, req, m, iteration, response);
    var timedOut;
    timedOut, messages, executions, ordinal, signals, ticks :=
      ExecuteCalls(env, req, iteration, response, messages, executions, ordinal, signals, ticks,
                   StepReceived(env, req, m, iteration, response));
    if timedOut {
      over := Some(RunResult(Stopped, Timeout, messages, responses, executions, usage, iteration, None, None));
    }
  }

  /** The loop is always left by one of its returns. */
  method RunLoop(env: Env, req: RunRequest) returns (result: RunResult, signals: seq<Signal>)
    requires ValidRequest(req)
    ensures result == Final(env, req).phase.result && signals == Final(env, req).signals
  {
    var messages := req.messages;
    result := RunResult(Failed, InvalidToolConfiguration, messages, [], [], ZERO_USAGE, 0, None, Some("tool_not_found"));
    signals := [];
    if !ToolsRegistered(env, req) {
      return;
    }
    var responses: seq<ChatResponse> := [];
    var executions: seq<ToolExecutionRecord> := [];
    var ordinal := 0;
    var seen: set<Signature> := {};
    var usage := ZERO_USAGE;
    var ticks, calls := 1, 0;
    ghost var m := Start(env, req);

    for iteration := 1 to req.maxIterations + 1
      invariant m.phase == Begin(iteration) && iteration <= req.maxIterations && RunFrom(env, req, m) == Final(env, req)
      invariant Tracks(m, messages, responses, executions, ordinal, seen, usage, signals, ticks, calls)
    {
      var asked;
      asked, ticks, calls := AskProvider(env, req, iteration, messages, responses, executions, usage, ticks, calls, m);
      Unroll(env, req, m);
      if asked.Over? {
        return asked.result, signals;
      }
      m := StepBegin(env, req, m, iteration);
      var response := asked.response;
      responses := responses + [response];
      usage := AddUsage(usage, response.usage);
      messages := messages + [AssistantMessage(response)];

      var over;
      over, messages, executions, ordinal, seen, signals, ticks :=
        Respond(env, req, iteration, response, messages, responses, executions, ordinal, usage, seen, signals, ticks, m);
      ResponseRuns(env, req, m, iteration, response);
      m := AfterResponse(env, req, m, iteration, response);
      if over.Some? {
        return over.value, signals;
      }
      Unroll(env, req, m);
      m := StepExecuting(env, req, m, iteration, response, |response.toolCalls|);
    }
    assert false;
  }

  /** `run`: the loop, then the terminal signal. */
  method Run(env: Env, req: RunRequest) returns (result: RunResult, signals: seq<Signal>)
    requires ValidRequest(req)
    ensures result == Final(env, req).phase.result
    ensures SafeAgentErrorCode(result.status, result.stopReason).Some?
    ensures signals == Final(env, req).signals + [TerminalSignal(result)]
    ensures AtMostOnce(req, result.executions)
    ensures result.iterations == |result.responses| <= Min(req.maxIterations, req.maxToolCalls + 1)
  {
    result, signals := RunLoop(env, req);
    TerminalSignalValid(env, req);
    ToolsRunAtMostOnce(env, req);
    RunBounds(env, req);
    signals := signals + [TerminalSignal(result)];
  }
}
