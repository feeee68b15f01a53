/**
 What every run of the loop establishes: the record of requests, tools, signals and
 clock readings, and why the run ended. Each property is an invariant of the step
 machine; the theorems at the end state them for a whole run.
 */
module AgentLoopRuns {
  import opened Prelude
  import opened ProviderModels
  import opened AgentLoop
  import opened AgentLoopTranscript

  // ----- invariants besides the transcript -----

  /**
   Request n shows exactly the first n blocks, all of them closed, and is given the time
   that was left at the reading taken for it.
   */
  predicate RequestAt(env: Env, req: RunRequest, bs: seq<Block>, m: Machine, n: nat)
    requires ToolsRegistered(env, req) && n < |m.requests|
  {
    var q := m.requests[n];
    && n <= |bs| && AllClosed(bs[..n])
    && 0 <= q.reading < |m.readings| && m.readings[q.reading] < Deadline(env, req)
    && q.what == RequestFor(env, req, req.messages + Flatten(bs[..n]), n + 1, Deadline(env, req) - m.readings[q.reading])
  }

  predicate Requests(env: Env, req: RunRequest, bs: seq<Block>, m: Machine)
    requires ToolsRegistered(env, req)
  {
    && |m.responses| <= |m.requests| <= |m.responses| + 1
    && (!m.phase.Done? ==> |m.requests| == |m.responses|)
    && (forall n :: 0 <= n < |m.requests| ==> RequestAt(env, req, bs, m, n))
    && (forall n :: 0 <= n < |m.responses| ==> env.provider(n, m.requests[n].what) == Responded(m.responses[n]))
    && (m.phase.Received? ==> m.requests != [] && Last(m.requests).reading == |m.readings| - 1)
  }

  /** Execution j is the runtime's answer to invocation j, bracketed by its two signals. */
  predicate ToolAt(env: Env, req: RunRequest, m: Machine, j: nat)
    requires j < |m.executions| == |m.invocations| && |m.signals| == 2 * |m.executions|
  {
    var e, v := m.executions[j], m.invocations[j];
    && 0 <= v.reading < |m.readings| - 1 && m.readings[v.reading] < Deadline(env, req)
    && v.what.timeoutCap == Deadline(env, req) - m.readings[v.reading]
    && 1 <= v.what.iteration <= |m.responses|
    && v.what.name == e.toolName && v.what.arguments == e.arguments && v.what.toolCallId == e.toolCallId
    && e.result == env.runtime(j, v.what)
    && e.toolName in env.registry
    && var d := env.registry[e.toolName];
       && m.signals[2 * j] == ToolCallStarted(d.name, d.version, j + 1, v.what.iteration)
       && m.signals[2 * j + 1] == CompletedSignal(e.result, j + 1)
  }

  predicate Tools(env: Env, req: RunRequest, m: Machine) {
    && m.ordinal == |m.executions| == |m.invocations|
    && |m.signals| == 2 * |m.executions|
    && forall j :: 0 <= j < |m.executions| ==> ToolAt(env, req, m, j)
  }

  function SumUsage(rs: seq<ChatResponse>): TokenUsage {
    if rs == [] then ZERO_USAGE else AddUsage(SumUsage(Init(rs)), Last(rs).usage)
  }

  predicate Ticks(env: Env, readings: seq<real>) {
    forall n :: 0 <= n < |readings| ==> readings[n] == env.clock(n)
  }

  /** Every reading but the last is before the deadline; the last is not exactly on TIMEOUT. */
  predicate Clocked(env: Env, req: RunRequest, m: Machine) {
    && Ticks(env, m.readings)
    && (forall n :: 0 <= n < |m.readings| - 1 ==> m.readings[n] < Deadline(env, req))
    && match m.phase
       case Done(res) =>
         res.stopReason.Timeout? <==> m.readings != [] && Last(m.readings) >= Deadline(env, req)
       case _ => m.readings != [] && Last(m.readings) < Deadline(env, req)
  }

  /** The first call of a batch that is disallowed, respectively repeated, at position i. */
  predicate FirstDisallowed(req: RunRequest, seen: set<Signature>, calls: seq<ToolCall>, i: nat) {
    && i < |calls| && Admissible(req.allowedTools, seen, calls[..i])
    && calls[i].name !in req.allowedTools
  }

  predicate FirstRepeated(req: RunRequest, seen: set<Signature>, calls: seq<ToolCall>, i: nat) {
    && i < |calls| && Admissible(req.allowedTools, seen, calls[..i])
    && calls[i].name in req.allowedTools
    && CallSignature(calls[i]) in seen + CallSignatures(calls[..i])
  }

  /** The last response asked for tools and none of them ran. */
  predicate BatchRefused(bs: seq<Block>) {
    bs != [] && Last(bs).response.toolCalls != [] && Last(bs).records == []
  }

  /** The refused batch is within both numeric budgets. */
  predicate WithinBudgets(req: RunRequest, bs: seq<Block>) {
    && BatchRefused(bs) && |bs| < req.maxIterations
    && |Records(bs)| + |Last(bs).response.toolCalls| <= req.maxToolCalls
  }

  /** Between iterations, with one more allowed and the context within its ceiling. */
  predicate ReadyToAsk(env: Env, req: RunRequest, bs: seq<Block>) {
    && AllClosed(bs) && |bs| < req.maxIterations
    && env.sizer(req.messages + Flatten(bs)) <= req.maxContextTokens
  }

  /** Why a run with a working tool configuration ended. */
  ghost predicate ExitCause(env: Env, req: RunRequest, bs: seq<Block>, m: Machine, res: RunResult)
    requires ToolsRegistered(env, req)
  {
    var seen := Signatures(m.executions);
    match res.stopReason
    case FinalResponse =>
      && bs != [] && Last(bs).response.toolCalls == [] && |m.requests| == |bs|
      && Last(m.requests).reading == |m.readings| - 2
    case MaxIterations => BatchRefused(bs) && |bs| == req.maxIterations && |m.requests| == |bs|
    case MaxToolCalls =>
      && BatchRefused(bs) && |bs| < req.maxIterations && |m.requests| == |bs|
      && |m.executions| + |Last(bs).response.toolCalls| > req.maxToolCalls
    case ToolNotAllowed =>
      && WithinBudgets(req, bs) && |m.requests| == |bs|
      && exists i :: FirstDisallowed(req, seen, Last(bs).response.toolCalls, i)
    case DuplicateToolCall =>
      && WithinBudgets(req, bs) && |m.requests| == |bs|
      && exists i :: FirstRepeated(req, seen, Last(bs).response.toolCalls, i)
    case ContextBudgetExceeded =>
      && AllClosed(bs) && |bs| < req.maxIterations && |m.requests| == |bs|
      && env.sizer(req.messages + Flatten(bs)) > req.maxContextTokens
    case ProviderError =>
      && ReadyToAsk(env, req, bs)
      && if |m.requests| == |bs| then
           && m.readings != []
           && (!env.textChat || (req.allowedTools != [] && !env.toolCalling))
           && res.errorCode == Some("unsupported_capability")
         else
           && |m.requests| > |bs| && env.provider(|bs|, m.requests[|bs|].what).Raised?
           && res.errorCode == Some(env.provider(|bs|, m.requests[|bs|].what).code)
    case Timeout => |m.requests| == |bs|
    case InvalidToolConfiguration => false
  }

  function StatusFor(reason: StopReason): RunStatus {
    match reason
    case FinalResponse => Completed
    case ToolNotAllowed | ProviderError | InvalidToolConfiguration => Failed
    case _ => Stopped
  }

  /** The result is the machine's record, with the status, response and code its reason calls for. */
  predicate ExitShape(m: Machine, res: RunResult) {
    && res == RunResult(StatusFor(res.stopReason), res.stopReason, m.messages, m.responses, m.executions, m.usage,
                        |m.responses|, res.finalResponse, res.errorCode)
    && res.finalResponse == (if res.stopReason.FinalResponse? && m.responses != [] then Some(Last(m.responses)) else None)
    && (res.status.Failed? <==> res.errorCode.Some?)
    && (res.stopReason.ToolNotAllowed? ==> res.errorCode == Some("tool_not_allowed"))
    && (res.stopReason.InvalidToolConfiguration? ==> res.errorCode == Some("tool_not_found"))
  }

  ghost predicate Exit(env: Env, req: RunRequest, bs: seq<Block>, m: Machine)
    requires ToolsRegistered(env, req) && |m.responses| <= |m.requests|
    requires |bs| == |m.responses|
  {
    m.phase.Done? ==> ExitShape(m, m.phase.result) && |bs| <= |m.requests| <= |bs| + 1
                      && ExitCause(env, req, bs, m, m.phase.result)
  }

  ghost predicate Full(env: Env, req: RunRequest, bs: seq<Block>, m: Machine)
    requires ToolsRegistered(env, req)
  {
    && CallsAllowed(req, m.phase)
    && Inv(req, bs, m)
    && Requests(env, req, bs, m)
    && Tools(env, req, m)
    && m.usage == SumUsage(m.responses)
    && Clocked(env, req, m)
    && Exit(env, req, bs, m)
  }

  // ----- preservation -----

  /** Records only ever grow; requests are made from the top of an iteration, tools run after admission. */
  predicate Appends(m: Machine, m': Machine) {
    && m.readings <= m'.readings && m.requests <= m'.requests && m.responses <= m'.responses
    && m.executions <= m'.executions && m.invocations <= m'.invocations && m.signals <= m'.signals
    && (!m.phase.Begin? ==> m'.requests == m.requests && m'.responses == m.responses && !m'.phase.Received?)
    && (!m.phase.Executing? ==>
          m'.executions == m.executions && m'.invocations == m.invocations
          && m'.signals == m.signals && m'.ordinal == m.ordinal)
  }

  lemma {:induction false} BeginAppends(env: Env, req: RunRequest, m: Machine)
    requires ToolsRegistered(env, req) && m.phase.Begin?
    ensures Appends(m, StepBegin(env, req, m, m.phase.iteration))
  {
  }

  lemma {:induction false} ReceivedAppends(env: Env, req: RunRequest, m: Machine)
    requires m.phase.Received?
    ensures Appends(m, StepReceived(env, req, m, m.phase.iteration, m.phase.response))
  {
  }

  lemma {:induction false} ExecutingAppends(env: Env, req: RunRequest, m: Machine)
    requires ToolsRegistered(env, req) && CallsAllowed(req, m.phase) && m.phase.Executing?
    ensures Appends(m, StepExecuting(env, req, m, m.phase.iteration, m.phase.response, m.phase.next))
  {
  }

  lemma {:induction false} StepAppends(env: Env, req: RunRequest, m: Machine)
    requires ToolsRegistered(env, req) && CallsAllowed(req, m.phase) && !m.phase.Done?
    ensures Appends(m, Step(env, req, m))
  {
    match m.phase
    case Begin(_) => BeginAppends(env, req, m);
    case Received(_, _) => ReceivedAppends(env, req, m);
    case Executing(_, _, _) => ExecutingAppends(env, req, m);
  }

  lemma {:induction false} RequestsCarryOver(env: Env, req: RunRequest, bs: seq<Block>, m: Machine, m': Machine)
    requires ToolsRegistered(env, req)
    requires m.readings <= m'.readings && m.requests <= m'.requests && m.responses <= m'.responses
    requires |m.requests| <= |bs|
    requires forall n :: 0 <= n < |m.requests| ==> RequestAt(env, req, bs, m, n)
    ensures forall n :: 0 <= n < |m.requests| ==> RequestAt(env, req, Grow(bs, m, m'), m', n)
  {
    forall n | 0 <= n < |m.requests| ensures RequestAt(env, req, Grow(bs, m, m'), m', n) {
      assert RequestAt(env, req, bs, m, n);
      assert Grow(bs, m, m')[..n] == bs[..n];
    }
  }

  /** The top of an iteration makes at most one request, with every block so far closed. */
  predicate RequestAdded(env: Env, req: RunRequest, bs: seq<Block>, m: Machine, m': Machine)
    requires ToolsRegistered(env, req)
  {
    && |m'.responses| <= |m'.requests| <= |m'.responses| + 1
    && |m'.requests| <= |m.requests| + 1
    && (!m'.phase.Done? ==> |m'.requests| == |m'.responses|)
    && (|m'.requests| > |m.requests| ==> RequestAt(env, req, Grow(bs, m, m'), m', |m.requests|))
    && (|m'.responses| > |m.responses| ==>
          |m'.requests| == |m.responses| + 1 == |m'.responses|
          && env.provider(|m.responses|, m'.requests[|m.responses|].what) == Responded(m'.responses[|m.responses|]))
    && (m'.phase.Received? ==> m'.requests != [] && Last(m'.requests).reading == |m'.readings| - 1)
  }

  /** The request itself and its reply, without reference to blocks. */
  predicate RequestMade(env: Env, req: RunRequest, m: Machine, m': Machine)
    requires ToolsRegistered(env, req) && m.phase.Begin?
  {
    var n, k := |m.readings|, |m.requests|;
    || (m'.requests == m.requests && m'.responses == m.responses && m'.phase.Done?)
    || (&& m'.readings == m.readings + [env.clock(n)] && env.clock(n) < Deadline(env, req)
        && m'.requests == m.requests
             + [Issued(RequestFor(env, req, m.messages, m.phase.iteration, Deadline(env, req) - env.clock(n)), n)]
        && if m'.phase.Done? then m'.responses == m.responses
           else m'.phase.Received? && m'.responses == m.responses + [m'.phase.response]
                && env.provider(k, m'.requests[k].what) == Responded(m'.phase.response))
  }

  lemma {:induction false} BeginRequest(env: Env, req: RunRequest, m: Machine)
    requires ToolsRegistered(env, req) && m.phase.Begin?
    ensures RequestMade(env, req, m, StepBegin(env, req, m, m.phase.iteration))
  {
  }

  lemma {:induction false} NewRequest(env: Env, req: RunRequest, bs: seq<Block>, m: Machine, m': Machine)
    requires ToolsRegistered(env, req) && m.phase.Begin? && Inv(req, bs, m) && |m.requests| == |m.responses|
    requires RequestMade(env, req, m, m') && Appends(m, m')
    ensures RequestAdded(env, req, bs, m, m')
  {
    if |m'.requests| > |m.requests| {
      NewRequestAt(env, req, bs, m, m', Grow(bs, m, m'));
    }
  }

  lemma {:induction false} NewRequestAt(env: Env, req: RunRequest, bs: seq<Block>, m: Machine, m': Machine, bs': seq<Block>)
    requires ToolsRegistered(env, req) && m.phase.Begin? && Inv(req, bs, m) && |m.requests| == |m.responses|
    requires RequestMade(env, req, m, m') && |m'.requests| > |m.requests| && bs <= bs'
    ensures RequestAt(env, req, bs', m', |m.requests|)
  {
    assert bs'[..|bs|] == bs;
  }

  lemma {:induction false} StepKeepsRequests(env: Env, req: RunRequest, bs: seq<Block>, m: Machine)
    requires ToolsRegistered(env, req) && CallsAllowed(req, m.phase) && Inv(req, bs, m)
    requires Requests(env, req, bs, m) && !m.phase.Done?
    ensures Requests(env, req, Grow(bs, m, Step(env, req, m)), Step(env, req, m))
  {
    StepAppends(env, req, m);
    if m.phase.Begin? {
      BeginRequest(env, req, m);
      NewRequest(env, req, bs, m, Step(env, req, m));
    }
    KeepsRequests(env, req, bs, m, Step(env, req, m));
  }

  lemma {:induction false} KeepsRequests(env: Env, req: RunRequest, bs: seq<Block>, m: Machine, m': Machine)
    requires ToolsRegistered(env, req) && Inv(req, bs, m) && Requests(env, req, bs, m) && !m.phase.Done?
    requires Appends(m, m') && (m.phase.Begin? ==> RequestAdded(env, req, bs, m, m'))
    ensures Requests(env, req, Grow(bs, m, m'), m')
  {
    RequestsCarryOver(env, req, bs, m, m');
    var bs' := Grow(bs, m, m');
    forall n | 0 <= n < |m'.requests| ensures RequestAt(env, req, bs', m', n) {
      if n == |m.requests| { assert m.phase.Begin?; }
    }
    forall n | 0 <= n < |m'.responses| ensures env.provider(n, m'.requests[n].what) == Responded(m'.responses[n]) {
      if n < |m.responses| { assert m'.requests[n] == m.requests[n]; }
    }
  }

  lemma {:induction false} ToolsCarryOver(env: Env, req: RunRequest, m: Machine, m': Machine)
    requires Tools(env, req, m)
    requires m.readings <= m'.readings && m.executions <= m'.executions && m.invocations <= m'.invocations
    requires m.signals <= m'.signals && |m.responses| <= |m'.responses|
    requires |m'.executions| == |m'.invocations| && |m'.signals| == 2 * |m'.executions|
    ensures forall j :: 0 <= j < |m.executions| ==> ToolAt(env, req, m', j)
  {
    forall j | 0 <= j < |m.executions| ensures ToolAt(env, req, m', j) {
      assert ToolAt(env, req, m, j);
    }
  }

  lemma {:induction false} StepKeepsTools(env: Env, req: RunRequest, m: Machine)
    requires ToolsRegistered(env, req) && CallsAllowed(req, m.phase) && !m.phase.Done?
    requires Tools(env, req, m)
    requires m.phase.Executing? ==> 1 <= m.phase.iteration <= |m.responses|
    ensures Tools(env, req, Step(env, req, m))
  {
    StepAppends(env, req, m);
    if m.phase.Executing? {
      NewTool(env, req, m);
    }
    ToolsCarryOver(env, req, m, Step(env, req, m));
  }

  lemma {:induction false} NewTool(env: Env, req: RunRequest, m: Machine)
    requires ToolsRegistered(env, req) && CallsAllowed(req, m.phase) && m.phase.Executing?
    requires m.ordinal == |m.executions| == |m.invocations| && |m.signals| == 2 * |m.executions|
    requires 1 <= m.phase.iteration <= |m.responses|
    ensures var m' := Step(env, req, m);
      && m'.ordinal == |m'.executions| == |m'.invocations| <= |m.executions| + 1
      && |m'.signals| == 2 * |m'.executions|
      && (|m'.executions| > |m.executions| ==> ToolAt(env, req, m', |m.executions|))
  {
  }

  lemma {:induction false} TicksAppend(env: Env, readings: seq<real>)
    requires Ticks(env, readings)
    ensures Ticks(env, readings + [env.clock(|readings|)])
  {
  }

  /** The readings a step adds: none, one, or (for a tool) one before and one after. */
  predicate ReadingsAdded(env: Env, req: RunRequest, m: Machine, m': Machine) {
    var n, d := |m.readings|, Deadline(env, req);
    || (m'.readings == m.readings && (m'.phase.Done? ==> !m'.phase.result.stopReason.Timeout?))
    || (m'.readings == m.readings + [env.clock(n)]
        && if env.clock(n) < d then m'.phase.Done? ==> !m'.phase.result.stopReason.Timeout?
           else m'.phase.Done? && m'.phase.result.stopReason.Timeout?)
    || (m'.readings == m.readings + [env.clock(n)] + [env.clock(n + 1)] && env.clock(n) < d
        && if env.clock(n + 1) < d then m'.phase.Executing?
           else m'.phase.Done? && m'.phase.result.stopReason.Timeout?)
  }

  lemma {:induction false} BeginReadings(env: Env, req: RunRequest, m: Machine)
    requires ToolsRegistered(env, req) && m.phase.Begin?
    ensures ReadingsAdded(env, req, m, StepBegin(env, req, m, m.phase.iteration))
  {
  }

  lemma {:induction false} ReceivedReadings(env: Env, req: RunRequest, m: Machine)
    requires m.phase.Received?
    ensures ReadingsAdded(env, req, m, StepReceived(env, req, m, m.phase.iteration, m.phase.response))
  {
  }

  lemma {:induction false} ExecutingReadings(env: Env, req: RunRequest, m: Machine)
    requires ToolsRegistered(env, req) && CallsAllowed(req, m.phase) && m.phase.Executing?
    ensures ReadingsAdded(env, req, m, StepExecuting(env, req, m, m.phase.iteration, m.phase.response, m.phase.next))
  {
  }

  lemma {:induction false} StepKeepsClock(env: Env, req: RunRequest, m: Machine)
    requires ToolsRegistered(env, req) && CallsAllowed(req, m.phase) && Clocked(env, req, m) && !m.phase.Done?
    ensures Clocked(env, req, Step(env, req, m))
  {
    match m.phase {
    case Begin(_) => BeginReadings(env, req, m);
    case Received(_, _) => ReceivedReadings(env, req, m);
    case Executing(_, _, _) => ExecutingReadings(env, req, m); }
    KeepsClock(env, req, m, Step(env, req, m));
  }

  lemma {:induction false} KeepsClock(env: Env, req: RunRequest, m: Machine, m': Machine)
    requires Clocked(env, req, m) && !m.phase.Done? && ReadingsAdded(env, req, m, m')
    ensures Clocked(env, req, m')
  {
    TicksAppend(env, m.readings);
    TicksAppend(env, m.readings + [env.clock(|m.readings|)]);
  }

  /** A refused batch has a first offending call, and the calls before it were admissible. */
  lemma {:induction false} FirstRefused(req: RunRequest, seen: set<Signature>, calls: seq<ToolCall>) returns (i: nat)
    ensures ValidateBatch(calls, req.allowedTools, seen).NotAllowed? ==> FirstDisallowed(req, seen, calls, i)
    ensures ValidateBatch(calls, req.allowedTools, seen).Duplicate? ==> FirstRepeated(req, seen, calls, i)
    decreases calls
  {
    i := 0;
    if calls != [] && calls[0].name in req.allowedTools && CallSignature(calls[0]) !in seen {
      var c := CallSignature(calls[0]);
      var k := FirstRefused(req, seen + {c}, calls[1..]);
      i := k + 1;
      if k < |calls| - 1 {
        assert calls[..i] == [calls[0]] + calls[1..][..k];
        ValidateBatchMeans(calls[..i], req.allowedTools, seen);
        ValidateBatchMeans(calls[1..][..k], req.allowedTools, seen + {c});
        assert calls[..i][1..] == calls[1..][..k];
        assert CallSignatures(calls[..i]) == {c} + CallSignatures(calls[1..][..k]);
      }
    }
  }

  lemma {:induction false} BeginExitShape(env: Env, req: RunRequest, bs: seq<Block>, m: Machine)
    requires ToolsRegistered(env, req) && Inv(req, bs, m) && m.phase.Begin?
    ensures var m' := StepBegin(env, req, m, m.phase.iteration); m'.phase.Done? ==>
      Grow(bs, m, m') == bs && ExitShape(m', m'.phase.result)
  {
  }

  lemma {:induction false} BeginExit(env: Env, req: RunRequest, bs: seq<Block>, m: Machine)
    requires ToolsRegistered(env, req) && Inv(req, bs, m) && m.phase.Begin?
    requires |m.requests| == |m.responses|
    ensures var m' := StepBegin(env, req, m, m.phase.iteration); m'.phase.Done? ==>
      Grow(bs, m, m') == bs && ExitShape(m', m'.phase.result) && ExitCause(env, req, bs, m', m'.phase.result)
  {
    BeginExitShape(env, req, bs, m);
    BeginExitCause(env, req, bs, m);
  }

  lemma {:induction false} BeginExitCause(env: Env, req: RunRequest, bs: seq<Block>, m: Machine)
    requires ToolsRegistered(env, req) && Inv(req, bs, m) && m.phase.Begin?
    requires |m.requests| == |m.responses|
    ensures var m' := StepBegin(env, req, m, m.phase.iteration); m'.phase.Done? ==>
      ExitCause(env, req, bs, m', m'.phase.result)
  {
  }

  /** The exits before the batch is looked at. */
  lemma {:induction false} UnbatchedExit(env: Env, req: RunRequest, bs: seq<Block>, m: Machine)
    requires ToolsRegistered(env, req) && Inv(req, bs, m) && m.phase.Received?
    requires |m.requests| == |m.responses| && m.requests != [] && Last(m.requests).reading == |m.readings| - 1
    requires Last(m.responses) == Last(bs).response
    ensures var m' := StepReceived(env, req, m, m.phase.iteration, m.phase.response);
      m'.phase.Done? && !m'.phase.result.stopReason.ToolNotAllowed? && !m'.phase.result.stopReason.DuplicateToolCall? ==>
        Grow(bs, m, m') == bs && ExitShape(m', m'.phase.result) && ExitCause(env, req, bs, m', m'.phase.result)
  {
  }

  /** The exits on a refused batch. */
  lemma {:induction false} RefusedExit(env: Env, req: RunRequest, bs: seq<Block>, m: Machine, i: nat)
    requires ToolsRegistered(env, req) && Inv(req, bs, m) && m.phase.Received? && |m.requests| == |m.responses|
    requires var calls := m.phase.response.toolCalls; var v := ValidateBatch(calls, req.allowedTools, m.seen);
      && (v.NotAllowed? ==> FirstDisallowed(req, m.seen, calls, i))
      && (v.Duplicate? ==> FirstRepeated(req, m.seen, calls, i))
    ensures var m' := StepReceived(env, req, m, m.phase.iteration, m.phase.response);
      m'.phase.Done? && (m'.phase.result.stopReason.ToolNotAllowed? || m'.phase.result.stopReason.DuplicateToolCall?) ==>
        Grow(bs, m, m') == bs && ExitShape(m', m'.phase.result) && ExitCause(env, req, bs, m', m'.phase.result)
  {
  }

  lemma {:induction false} ReceivedExit(env: Env, req: RunRequest, bs: seq<Block>, m: Machine)
    requires ToolsRegistered(env, req) && Inv(req, bs, m) && m.phase.Received?
    requires |m.requests| == |m.responses| && m.requests != [] && Last(m.requests).reading == |m.readings| - 1
    ensures var m' := StepReceived(env, req, m, m.phase.iteration, m.phase.response); m'.phase.Done? ==>
      Grow(bs, m, m') == bs && ExitShape(m', m'.phase.result) && ExitCause(env, req, bs, m', m'.phase.result)
  {
    AppendBlock(Init(bs), Last(bs));
    assert bs == Init(bs) + [Last(bs)];
    UnbatchedExit(env, req, bs, m);
    var i := FirstRefused(req, m.seen, m.phase.response.toolCalls);
    RefusedExit(env, req, bs, m, i);
  }

  lemma {:induction false} ExecutingExit(env: Env, req: RunRequest, bs: seq<Block>, m: Machine)
    requires ToolsRegistered(env, req) && CallsAllowed(req, m.phase) && Inv(req, bs, m) && m.phase.Executing?
    requires |m.requests| == |m.responses|
    ensures var m' := StepExecuting(env, req, m, m.phase.iteration, m.phase.response, m.phase.next); m'.phase.Done? ==>
      |Grow(bs, m, m')| == |m'.requests| == |m'.responses| == |bs|
      && ExitShape(m', m'.phase.result) && m'.phase.result.stopReason.Timeout?
  {
  }

  lemma {:induction false} StepKeepsUsage(env: Env, req: RunRequest, m: Machine)
    requires ToolsRegistered(env, req) && CallsAllowed(req, m.phase) && m.usage == SumUsage(m.responses)
    ensures Step(env, req, m).usage == SumUsage(Step(env, req, m).responses)
  {
    if m.phase.Begin? {
      var m' := StepBegin(env, req, m, m.phase.iteration);
      if |m'.responses| > |m.responses| {
        assert Init(m'.responses) == m.responses;
      }
    }
  }

  lemma {:induction false} StepKeepsExit(env: Env, req: RunRequest, bs: seq<Block>, m: Machine)
    requires ToolsRegistered(env, req) && CallsAllowed(req, m.phase) && Inv(req, bs, m) && !m.phase.Done?
    requires |m.requests| == |m.responses|
    requires m.phase.Received? ==> m.requests != [] && Last(m.requests).reading == |m.readings| - 1
    ensures var m' := Step(env, req, m); m'.phase.Done? ==>
      ExitShape(m', m'.phase.result) && ExitCause(env, req, Grow(bs, m, m'), m', m'.phase.result)
  {
    if m.phase.Begin? {
      BeginExit(env, req, bs, m);
    } else if m.phase.Received? {
      ReceivedExit(env, req, bs, m);
    } else {
      ExecutingExit(env, req, bs, m);
    }
  }

  lemma {:induction false} StepKeepsFull(env: Env, req: RunRequest, bs: seq<Block>, m: Machine)
    requires ToolsRegistered(env, req) && Full(env, req, bs, m) && !m.phase.Done?
    ensures Full(env, req, Grow(bs, m, Step(env, req, m)), Step(env, req, m))
  {
    var m' := Step(env, req, m);
    StepKeepsTranscript(env, req, bs, m);
    StepKeepsRequests(env, req, bs, m);
    StepKeepsTools(env, req, m);
    StepKeepsClock(env, req, m);
    StepKeepsUsage(env, req, m);
    StepKeepsExit(env, req, bs, m);
  }

  // ----- whole runs -----

  /** An iteration begins within the limit, and tools run only before the last one. */
  predicate PhaseWithin(req: RunRequest, p: Phase) {
    match p
    case Begin(i) => i <= req.maxIterations
    case Received(i, _) => i <= req.maxIterations
    case Executing(i, _, _) => i < req.maxIterations
    case Done(_) => true
  }

  lemma {:induction false} StepWithin(env: Env, req: RunRequest, m: Machine)
    requires ToolsRegistered(env, req) && CallsAllowed(req, m.phase) && PhaseWithin(req, m.phase)
    ensures PhaseWithin(req, Step(env, req, m).phase)
  {
  }

  /** The machine n steps into the run. */
  function After(env: Env, req: RunRequest, n: nat): (m: Machine)
    requires ToolsRegistered(env, req)
    ensures CallsAllowed(req, m.phase)
  {
    if n == 0 then Start(env, req) else Step(env, req, After(env, req, n - 1))
  }

  /** No run ever begins an iteration beyond the limit: the loop never falls through to its end. */
  lemma {:induction false} NeverFallsThrough(env: Env, req: RunRequest, n: nat)
    requires ValidRequest(req) && ToolsRegistered(env, req)
    ensures PhaseWithin(req, After(env, req, n).phase)
  {
    if n > 0 {
      NeverFallsThrough(env, req, n - 1);
      StepWithin(env, req, After(env, req, n - 1));
    }
  }

  lemma {:induction false} StartFull(env: Env, req: RunRequest)
    requires ValidRequest(req) && ToolsRegistered(env, req)
    ensures Full(env, req, [], Start(env, req))
  {
    assert req.messages + Flatten([]) == req.messages;
  }

  /** What every step keeps, a run keeps. */
  lemma {:induction false} RunInduction(env: Env, req: RunRequest, inv: Machine -> bool, m: Machine)
    requires ToolsRegistered(env, req) && inv(m)
    requires forall x :: inv(x) ==> CallsAllowed(req, x.phase)
    requires forall x :: inv(x) && CallsAllowed(req, x.phase) && !x.phase.Done? ==> inv(Step(env, req, x))
    ensures inv(RunFrom(env, req, m))
    decreases IterationsLeft(req, m.phase), Stage(req, m.phase), CallsLeft(m.phase)
  {
    if !m.phase.Done? {
      RunInduction(env, req, inv, Step(env, req, m));
    }
  }

  lemma {:induction false} RunKeepsFull(env: Env, req: RunRequest, bs: seq<Block>, m: Machine)
    requires ToolsRegistered(env, req) && Full(env, req, bs, m)
    ensures exists bs' :: Full(env, req, bs', RunFrom(env, req, m))
  {
    ghost var inv := (x: Machine) => exists bs :: Full(env, req, bs, x);
    forall x | inv(x) && !x.phase.Done? ensures CallsAllowed(req, x.phase) && inv(Step(env, req, x)) {
      var bs :| Full(env, req, bs, x);
      StepKeepsFull(env, req, bs, x);
    }
    RunInduction(env, req, inv, m);
  }

  lemma {:induction false} FinalFull(env: Env, req: RunRequest) returns (bs: seq<Block>)
    requires ValidRequest(req) && ToolsRegistered(env, req)
    ensures Full(env, req, bs, Final(env, req))
  {
    StartFull(env, req);
    RunKeepsFull(env, req, [], Start(env, req));
    bs :| Full(env, req, bs, Final(env, req));
  }

  lemma {:induction false} FinalUnregistered(env: Env, req: RunRequest)
    requires !ToolsRegistered(env, req)
    ensures Final(env, req) == Start(env, req)
  {
  }

  /** The transcript of a run, and of every request made during it. */
  ghost predicate GrammarOfRun(req: RunRequest, bs: seq<Block>, f: Machine) {
    && f.phase.Done?
    && Transcribes(req, bs, f)
    && f.phase.result.messages == f.messages
    && f.phase.result.responses == f.responses
    && f.phase.result.executions == f.executions
    && forall n :: 0 <= n < |f.requests| ==>
         n <= |bs| && AllClosed(bs[..n]) && f.requests[n].what.messages == req.messages + Flatten(bs[..n])
  }

  /**
   Transcript grammar. At every provider call the messages are the initial messages and
   closed blocks; at exit only the last block may lack a suffix of its tool messages; and
   no call of a response ran unless its whole batch was admissible.
   */
  lemma {:induction false} TranscriptGrammar(env: Env, req: RunRequest)
    requires ValidRequest(req)
    ensures exists bs :: GrammarOfRun(req, bs, Final(env, req))
  {
    var f := Final(env, req);
    if ToolsRegistered(env, req) {
      var bs := FinalFull(env, req);
      forall n | 0 <= n < |f.requests|
        ensures n <= |bs| && AllClosed(bs[..n]) && f.requests[n].what.messages == req.messages + Flatten(bs[..n])
      {
        assert RequestAt(env, req, bs, f, n);
      }
      assert GrammarOfRun(req, bs, f);
    } else {
      FinalUnregistered(env, req);
      assert req.messages + Flatten([]) == req.messages;
      assert GrammarOfRun(req, [], f);
    }
  }

  /** No (name, canonical arguments) pair runs twice, all names are allowed, and the budget holds. */
  lemma {:induction false} ToolsRunAtMostOnce(env: Env, req: RunRequest)
    requires ValidRequest(req)
    ensures AtMostOnce(req, Final(env, req).phase.result.executions)
  {
    if ToolsRegistered(env, req) {
      var bs := FinalFull(env, req);
      if bs != [] {
        forall i | 0 <= i < |bs| ensures Answers(bs[i]) {
          if i < |bs| - 1 { assert Closed(Init(bs)[i]); }
        }
      }
      AdmissionGivesAtMostOnce(req, bs);
    } else {
      FinalUnregistered(env, req);
    }
  }

  /** `iterations` counts the responses, is bounded by both budgets, and usage is their sum. */
  lemma {:induction false} RunBounds(env: Env, req: RunRequest)
    requires ValidRequest(req)
    ensures var r := Final(env, req).phase.result;
      && r.iterations == |r.responses| <= Min(req.maxIterations, req.maxToolCalls + 1)
      && r.usage == SumUsage(r.responses)
      && |r.executions| <= req.maxToolCalls
  {
    ToolsRunAtMostOnce(env, req);
    if ToolsRegistered(env, req) {
      var bs := FinalFull(env, req);
      var f := Final(env, req);
      if bs != [] {
        RecordsCount(Init(bs));
        AppendBlock(Init(bs), Last(bs));
        assert bs == Init(bs) + [Last(bs)];
      }
    } else {
      FinalUnregistered(env, req);
    }
  }

  /**
   Every exit has exactly the status, response and error code of its reason, and its
   reason is true of the transcript: for a refused batch, the first offending call.
   */
  lemma {:induction false} EveryExitExplained(env: Env, req: RunRequest)
    requires ValidRequest(req)
    ensures var f := Final(env, req); var r := f.phase.result;
      && r.status == StatusFor(r.stopReason)
      && (r.finalResponse.Some? <==> r.status.Completed?)
      && (r.status.Completed? ==> r.responses != [] && r.finalResponse == Some(Last(r.responses)))
      && (r.errorCode.Some? <==> r.status.Failed?)
      && (r.stopReason.InvalidToolConfiguration? <==> !ToolsRegistered(env, req))
      && (ToolsRegistered(env, req) ==> exists bs :: GrammarOfRun(req, bs, f) && ExitCause(env, req, bs, f, r))
  {
    var f := Final(env, req);
    if ToolsRegistered(env, req) {
      var bs := FinalFull(env, req);
      forall n | 0 <= n < |f.requests|
        ensures n <= |bs| && AllClosed(bs[..n]) && f.requests[n].what.messages == req.messages + Flatten(bs[..n])
      {
        assert RequestAt(env, req, bs, f, n);
      }
      assert GrammarOfRun(req, bs, f) && ExitCause(env, req, bs, f, f.phase.result);
    } else {
      FinalUnregistered(env, req);
    }
  }

  function TerminalSignal(r: RunResult): Signal
    requires SafeAgentErrorCode(r.status, r.stopReason).Some?
  {
    AgentRunTerminated(r.status, r.stopReason, r.iterations, SafeAgentErrorCode(r.status, r.stopReason).value)
  }

  predicate LowerAlphanumeric(c: char) {
    'a' <= c <= 'z' || '0' <= c <= '9'
  }

  /** Runs of lower-case letters and digits, separated by single dots, underscores or hyphens. */
  predicate SafeCode(code: string) {
    && code != "" && LowerAlphanumeric(code[0]) && LowerAlphanumeric(code[|code| - 1])
    && (forall i :: 0 <= i < |code| ==> LowerAlphanumeric(code[i]) || code[i] in "._-")
    && forall i :: 0 <= i < |code| - 1 ==> LowerAlphanumeric(code[i]) || LowerAlphanumeric(code[i + 1])
  }

  /** What `AgentRunTerminatedSignal` demands (app/runtime/signals.py). */
  predicate ValidTerminal(s: Signal) {
    TerminalCoherent(s) && (s.errorCode.Some? ==> SafeCode(s.errorCode.value))
  }

  predicate TerminalCoherent(s: Signal) {
    && s.AgentRunTerminated? && 0 <= s.iterations <= 20
    && match s.status
       case Completed => s.stopReason.FinalResponse? && s.errorCode.None?
       case Stopped =>
         s.stopReason in {MaxIterations, MaxToolCalls, DuplicateToolCall, ContextBudgetExceeded, Timeout} && s.errorCode.None?
       case Failed => s.stopReason in {ToolNotAllowed, ProviderError, InvalidToolConfiguration} && s.errorCode.Some?
  }

  lemma {:induction false} TerminalShape(r: RunResult)
    requires r.status == StatusFor(r.stopReason) && 0 <= r.iterations <= 20
    ensures SafeAgentErrorCode(r.status, r.stopReason).Some? && TerminalCoherent(TerminalSignal(r))
  {
  }

  lemma {:induction false} TerminalCodeSafe(r: RunResult, code: string)
    requires SafeAgentErrorCode(r.status, r.stopReason) == Some(Some(code))
    ensures SafeCode(code)
  {
    match r.stopReason
    case ProviderError => ProviderFailedSafe();
    case ToolNotAllowed => ToolNotAllowedSafe();
    case InvalidToolConfiguration => ToolNotFoundSafe();
    case _ =>
  }

  lemma {:induction false} ProviderFailedSafe()
    ensures SafeCode("provider_failed")
  {
  }

  lemma {:induction false} ToolNotAllowedSafe()
    ensures SafeCode("tool_not_allowed")
  {
  }

  lemma {:induction false} ToolNotFoundSafe()
    ensures SafeCode("tool_not_found")
  {
  }

  /** The error-code lookup never misses and the terminal signal is always constructible. */
  lemma {:induction false} TerminalSignalValid(env: Env, req: RunRequest)
    requires ValidRequest(req)
    ensures var r := Final(env, req).phase.result;
      SafeAgentErrorCode(r.status, r.stopReason).Some? && ValidTerminal(TerminalSignal(r))
  {
    EveryExitExplained(env, req);
    RunBounds(env, req);
    var r := Final(env, req).phase.result;
    TerminalShape(r);
    if SafeAgentErrorCode(r.status, r.stopReason).value.Some? {
      TerminalCodeSafe(r, SafeAgentErrorCode(r.status, r.stopReason).value.value);
    }
  }

  predicate PairedAt(env: Env, f: Machine, j: nat)
    requires j < |f.executions| == |f.invocations| && |f.signals| == 2 * |f.executions|
  {
    var started, e := f.signals[2 * j], f.executions[j];
    && started.ToolCallStarted? && started.toolName == e.toolName && started.ordinal == j + 1
    && 1 <= started.iteration <= |f.responses| && started.iteration == f.invocations[j].what.iteration
    && f.signals[2 * j + 1] == CompletedSignal(e.result, j + 1)
    && e.result == env.runtime(j, f.invocations[j].what)
  }

  /** One Started and one Completed signal per recorded execution, in order, nothing else. */
  lemma {:induction false} SignalsPairExecutions(env: Env, req: RunRequest)
    requires ValidRequest(req) && ValidRegistry(env.registry)
    ensures var f := Final(env, req);
      && |f.signals| == 2 * |f.executions| && |f.invocations| == |f.executions|
      && forall j :: 0 <= j < |f.executions| ==>
           PairedAt(env, f, j)
  {
    var f := Final(env, req);
    if ToolsRegistered(env, req) {
      var bs := FinalFull(env, req);
      forall j | 0 <= j < |f.executions| ensures PairedAt(env, f, j) {
        assert ToolAt(env, req, f, j);
      }
    } else {
      FinalUnregistered(env, req);
    }
  }

  // ----- time -----

  ghost predicate Monotone(clock: nat -> real) {
    forall i: nat, j: nat :: i <= j ==> clock(i) <= clock(j)
  }

  /** An allowance is exactly the time left at the reading taken for it, and positive. */
  predicate AllowanceExact(env: Env, req: RunRequest, f: Machine, reading: int, cap: real) {
    && 0 <= reading < |f.readings| && f.readings[reading] == env.clock(reading)
    && 0.0 < cap == Deadline(env, req) - f.readings[reading]
  }

  /**
   Deadline. Every clock reading of a run but the last is before the deadline, the last is
   not exactly when the run stopped on TIMEOUT, and every provider timeout and tool cap is
   the positive time left at the reading taken for it. No assumption on the clock.
   */
  lemma {:induction false} DeadlineRespected(env: Env, req: RunRequest)
    requires ValidRequest(req)
    ensures var f := Final(env, req); var r := f.phase.result;
      && (forall n :: 0 <= n < |f.readings| - 1 ==> f.readings[n] < Deadline(env, req))
      && (r.stopReason.Timeout? <==> f.readings != [] && Last(f.readings) >= Deadline(env, req))
      && (forall n :: 0 <= n < |f.requests| ==>
            AllowanceExact(env, req, f, f.requests[n].reading, f.requests[n].what.timeout))
      && (forall n :: 0 <= n < |f.invocations| ==>
            AllowanceExact(env, req, f, f.invocations[n].reading, f.invocations[n].what.timeoutCap))
      && (r.status.Completed? ==>
            && |f.requests| == |f.responses| > 0 && Last(f.requests).reading == |f.readings| - 2
            && Last(f.readings) < Deadline(env, req))
  {
    var f := Final(env, req);
    if ToolsRegistered(env, req) {
      var bs := FinalFull(env, req);
      forall n | 0 <= n < |f.requests|
        ensures AllowanceExact(env, req, f, f.requests[n].reading, f.requests[n].what.timeout)
      {
        assert RequestAt(env, req, bs, f, n);
      }
      forall n | 0 <= n < |f.invocations|
        ensures AllowanceExact(env, req, f, f.invocations[n].reading, f.invocations[n].what.timeoutCap)
      {
        assert ToolAt(env, req, f, n);
      }
    } else {
      FinalUnregistered(env, req);
    }
  }

  /** Under a non-decreasing clock no allowance exceeds the run's own timeout. */
  lemma {:induction false} AllowancesBounded(env: Env, req: RunRequest)
    requires ValidRequest(req) && Monotone(env.clock)
    ensures var f := Final(env, req);
      && (forall n :: 0 <= n < |f.requests| ==> f.requests[n].what.timeout <= req.timeout)
      && (forall n :: 0 <= n < |f.invocations| ==> f.invocations[n].what.timeoutCap <= req.timeout)
  {
    DeadlineRespected(env, req);
    var f := Final(env, req);
    forall n | 0 <= n < |f.requests| ensures f.requests[n].what.timeout <= req.timeout {
      assert AllowanceExact(env, req, f, f.requests[n].reading, f.requests[n].what.timeout);
    }
    forall n | 0 <= n < |f.invocations| ensures f.invocations[n].what.timeoutCap <= req.timeout {
      assert AllowanceExact(env, req, f, f.invocations[n].reading, f.invocations[n].what.timeoutCap);
    }
  }

  /** The reading after an external call is no later than the allowance permits. */
  predicate Honoured(f: Machine, reading: int, cap: real) {
    0 <= reading < |f.readings| - 1 ==> f.readings[reading + 1] <= f.readings[reading] + cap
  }

  predicate AllHonoured(f: Machine) {
    && (forall n :: 0 <= n < |f.requests| ==> Honoured(f, f.requests[n].reading, f.requests[n].what.timeout))
    && (forall n :: 0 <= n < |f.invocations| ==> Honoured(f, f.invocations[n].reading, f.invocations[n].what.timeoutCap))
  }

  /** Reading n was taken straight before a provider or tool call. */
  predicate CallAt(f: Machine, n: int) {
    || (exists i :: 0 <= i < |f.requests| && f.requests[i].reading == n)
    || (exists i :: 0 <= i < |f.invocations| && f.invocations[i].reading == n)
  }

  /** Local work, the time between two readings with no call in between, ends by the deadline. */
  predicate LocalGapsFit(env: Env, req: RunRequest, f: Machine) {
    forall n :: 0 <= n < |f.readings| - 1 && !CallAt(f, n) ==> f.readings[n + 1] <= Deadline(env, req)
  }

  predicate AllInTime(env: Env, req: RunRequest, f: Machine) {
    forall n :: 0 <= n < |f.readings| ==> f.readings[n] <= Deadline(env, req)
  }

  /** A call that kept its allowance ends by the deadline. */
  lemma {:induction false} HonouredCallInTime(env: Env, req: RunRequest, n: int)
    requires ValidRequest(req) && AllHonoured(Final(env, req))
    requires 0 <= n < |Final(env, req).readings| - 1 && CallAt(Final(env, req), n)
    ensures Final(env, req).readings[n + 1] <= Deadline(env, req)
  {
    DeadlineRespected(env, req);
    var f := Final(env, req);
    if i :| 0 <= i < |f.requests| && f.requests[i].reading == n {
      assert AllowanceExact(env, req, f, f.requests[i].reading, f.requests[i].what.timeout);
      assert Honoured(f, f.requests[i].reading, f.requests[i].what.timeout);
    } else {
      var i :| 0 <= i < |f.invocations| && f.invocations[i].reading == n;
      assert AllowanceExact(env, req, f, f.invocations[i].reading, f.invocations[i].what.timeoutCap);
      assert Honoured(f, f.invocations[i].reading, f.invocations[i].what.timeoutCap);
    }
  }

  /**
   When provider and tools keep their allowances, a run stays within its deadline exactly
   when its local work does. A reading past the deadline can only be the last one, taken
   after local work.
   */
  lemma {:induction false} HonouredRunEndsInTime(env: Env, req: RunRequest)
    requires ValidRequest(req) && AllHonoured(Final(env, req))
    ensures var f := Final(env, req);
      && (AllInTime(env, req, f) <==> LocalGapsFit(env, req, f))
      && (forall n :: 0 <= n < |f.readings| && f.readings[n] > Deadline(env, req) ==>
            n == |f.readings| - 1 && n > 0 && !CallAt(f, n - 1))
  {
    DeadlineRespected(env, req);
    var f := Final(env, req);
    forall n | 0 <= n < |f.readings| && f.readings[n] > Deadline(env, req)
      ensures n == |f.readings| - 1 && n > 0 && !CallAt(f, n - 1)
    {
      FirstReadingInTime(env, req);
      if CallAt(f, n - 1) {
        HonouredCallInTime(env, req, n - 1);
      }
    }
  }

  lemma {:induction false} FirstReadingInTime(env: Env, req: RunRequest)
    requires ValidRequest(req)
    ensures var f := Final(env, req); f.readings != [] ==> f.readings[0] <= Deadline(env, req)
  {
    if ToolsRegistered(env, req) {
      var bs := FinalFull(env, req);
    } else {
      FinalUnregistered(env, req);
    }
  }

  /** Local work alone can overrun: a late second reading stops the run before any call. */
  lemma {:induction false} LocalWorkCanOverrun(env: Env, req: RunRequest)
    requires ValidRequest(req) && ToolsRegistered(env, req)
    requires env.sizer(req.messages) <= req.maxContextTokens && env.clock(1) > Deadline(env, req)
    ensures var f := Final(env, req);
      f.phase.result.stopReason.Timeout? && f.requests == [] && AllHonoured(f) && f.readings != [] && Last(f.readings) > Deadline(env, req)
  {
    var m := Start(env, req);
    var m' := Step(env, req, m);
    assert m'.phase.Done?;
    assert RunFrom(env, req, m) == RunFrom(env, req, m') == m';
  }

  // ----- contracts of the values the loop builds -----

  lemma {:induction false} ToolContentNotBlank(r: ToolResult)
    ensures !Blank(ToolResultContent(r))
  {
    assert ToolResultContent(r)[0] == '{';
  }

  lemma {:induction false} FlattenValid(bs: seq<Block>)
    requires forall i :: 0 <= i < |bs| ==> Answers(bs[i]) && ValidResponse(bs[i].response)
    ensures forall i :: 0 <= i < |Flatten(bs)| ==> ValidMessage(Flatten(bs)[i])
  {
    if bs != [] {
      FlattenValid(Init(bs));
      var b := Last(bs);
      assert ValidMessage(AssistantMessage(b.response));
      forall j | 0 <= j < |b.records| ensures ValidMessage(ToolMessages(b.records)[j]) {
        ToolContentNotBlank(b.records[j].result);
        assert AnswersCall(b.records[j], b.response.toolCalls[j]);
      }
    }
  }

  /** Every message and every request the loop constructs satisfies its own constructor's checks. */
  lemma {:induction false} ConstructedValuesValid(env: Env, req: RunRequest)
    requires ValidRequest(req) && ValidRegistry(env.registry) && ProviderContract(env)
    requires forall i :: 0 <= i < |req.messages| ==> ValidMessage(req.messages[i])
    ensures var f := Final(env, req);
      && (forall i :: 0 <= i < |f.messages| ==> ValidMessage(f.messages[i]))
      && (forall n :: 0 <= n < |f.requests| ==> ValidChatRequest(f.requests[n].what))
  {
    var f := Final(env, req);
    if ToolsRegistered(env, req) {
      var bs := FinalFull(env, req);
      forall i | 0 <= i < |bs| ensures Answers(bs[i]) && ValidResponse(bs[i].response) {
        if i < |bs| - 1 { assert Closed(Init(bs)[i]); }
        assert f.responses[i] == bs[i].response;
      }
      FlattenValid(bs);
      forall n | 0 <= n < |f.requests| ensures ValidChatRequest(f.requests[n].what) {
        assert RequestAt(env, req, bs, f, n);
      }
    } else {
      FinalUnregistered(env, req);
    }
  }

  /** A completed run's last response has no tool calls, hence text that is not blank. */
  lemma {:induction false} CompletedHasText(env: Env, req: RunRequest)
    requires ValidRequest(req) && ProviderContract(env) && Final(env, req).phase.result.status.Completed?
    ensures var r := Final(env, req).phase.result;
      r.finalResponse.Some? && r.finalResponse.value.content.Some? && !Blank(r.finalResponse.value.content.value)
  {
    EveryExitExplained(env, req);
    var f := Final(env, req);
    var bs := FinalFull(env, req);
    var n := |bs| - 1;
    assert f.responses[n] == Last(bs).response;
    assert env.provider(n, f.requests[n].what) == Responded(f.responses[n]);
    assert ValidResponse(f.responses[n]);
  }
}
