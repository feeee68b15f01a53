/**
 When the gate returns and when it raises, in terms of what its caller supplies: the
 provider's replies and the executors.
 */
module DomainGateReturns {
  import opened Prelude
  import opened ProviderModels
  import opened BudgetLedger
  import opened DomainGate
  import opened DomainGateTheorems
  import E = DomainEvaluation

  // ----- moderate usage keeps every snapshot within its bounds -----

  function UsageOf(r: ChatResponse): nat {
    r.usage.inputTokens + r.usage.outputTokens
  }

  /** A code that, if it is recorded at all, can be shown. */
  predicate CodeShowable(code: string) {
    SafeErrorCode(Some(code)).Some? && code != "" ==> 'a' <= code[0] <= 'z'
  }

  /** No reply uses more than 1000 tokens, and error codes that are recorded start with a letter. */
  ghost predicate ModestProvider(provider: Provider) {
    forall n: nat, q: ChatRequest :: ModestAnswer(provider(n, q).answer)
  }

  predicate ModestAnswer(answer: Answer) {
    && (answer.Response? ==> UsageOf(answer.response) <= 1000)
    && (answer.Fault? ==> CodeShowable(answer.code))
  }

  ghost predicate ModestExecutors(env: Env) {
    forall n: nat :: env.executor(n).outcome.ProviderFault? ==> CodeShowable(env.executor(n).outcome.code)
  }

  /** At most 1000 tokens for every call made, and a provider stop that can be shown. */
  predicate Modest(l: Ledger) {
    && TotalTokens(l) <= 1000 * l.calls
    && (forall id :: id in l.cases ==> CaseTokens(l.cases[id]) <= 1000 * l.cases[id].calls)
    && StopShowable(l.providerStop)
  }

  lemma {:induction false} CodeRecordedShowable(code: Option<string>, failure: FailureCode)
    requires code.Some? ==> CodeShowable(code.value)
    ensures StopShowable(Some(ProviderStop(failure, SafeErrorCode(code))))
  {
    if SafeErrorCode(code).Some? {
      RecordedCodeShowableIff(failure, code.value);
    }
  }

  lemma {:induction false} StopModest(l: Ledger, failure: FailureCode, code: Option<string>)
    requires Modest(l) && (code.Some? ==> CodeShowable(code.value))
    ensures Modest(StopProvider(l, failure, code))
  {
    CodeRecordedShowable(code, failure);
  }

  lemma {:induction false} ReserveModest(l: Ledger, id: string, request: ChatRequest)
    requires Modest(l) && id in l.cases
    ensures Modest(Reserve(l, id, Some(FLASH), request).ledger)
  {
    StopModest(l, ExternalCallBudgetExhausted, None);
    StopModest(l, TokenBudgetExhausted, None);
  }

  /** A delivered call leaves room for one more reply of 1000 tokens. */
  predicate Pending(l: Ledger, id: string) {
    && id in l.cases && Modest(l) && l.calls > 0 && l.cases[id].calls > 0
    && TotalTokens(l) + 1000 <= 1000 * l.calls && CaseTokens(l.cases[id]) + 1000 <= 1000 * l.cases[id].calls
  }

  lemma {:induction false} SettleModest(l: Ledger, id: string, usage: TokenUsage, latency: nat)
    requires Pending(l, id) && usage.inputTokens + usage.outputTokens <= 1000
    ensures Modest(Settle(l, id, Some(FLASH), usage, latency).0)
  {
    var l' := Charge(l, id, usage, latency);
    assert Modest(l');
    StopModest(l', TokenBudgetExhausted, None);
  }

  lemma {:induction false} ConcludeModest(l: Ledger, id: string, reply: Reply)
    requires Pending(l, id) && ModestAnswer(reply.answer)
    ensures Modest(Conclude(l, id, Some(FLASH), reply).0)
  {
    match reply.answer
    case Fault(code, classified) => StopModest(l, classified, Some(code));
    case Unexpected => StopModest(l, ProviderErrorUnknown, Some("unexpected_sdk_error"));
    case NotAResponse => StopModest(l, ProviderResponseInvalid, None);
    case Response(r) =>
      StopModest(l, ProviderResponseInvalid, None);
      SettleModest(l, id, r.usage, Latency(reply.elapsed));
  }

  /** Whatever is asked, a modest provider keeps case and domain tokens at 1000 per call made. */
  lemma {:induction false} ChatModest(provider: Provider, l: Ledger, id: string, request: ChatRequest)
    requires ModestProvider(provider) && Modest(l) && id in l.cases
    ensures Modest(Chat(provider, l, id, Some(FLASH), request).0)
  {
    ReserveModest(l, id, request);
    var r := Reserve(l, id, Some(FLASH), request);
    if r.Granted? {
      GrantWithinLimits(l, id, Some(FLASH), request);
      var call := InnerCall(id, r.request, Remaining(l, id), OutputCap(Some(FLASH)));
      assert ModestAnswer(provider(l.calls, r.request).answer);
      ConcludeModest(Deliver(r.ledger, call), id, provider(l.calls, r.request));
    }
  }

  lemma {:induction false} ChatsModest(provider: Provider, l: Ledger, calls: seq<ExecutorCall>)
    requires ModestProvider(provider) && Modest(l)
    ensures Modest(Chats(provider, l, calls))
  {
    if calls != [] {
      var c := calls[|calls| - 1];
      ChatsModest(provider, l, calls[..|calls| - 1]);
      var front := Chats(provider, l, calls[..|calls| - 1]);
      if c.caseId in front.cases {
        ChatModest(provider, front, c.caseId, c.request);
      }
    }
  }

  /** The code an executor reports in an observation starts with a letter. */
  lemma {:induction false} ObservedCodeShowable(sem: Semantic)
    requires ValidSemantic(sem)
    ensures sem.safeErrorCode.Some? ==> CodeShowable(sem.safeErrorCode.value)
  {
  }

  lemma {:induction false} CloseModest(env: Env, c: E.Case, outcome: Outcome, s: GateState, l: Ledger)
    requires Modest(l) && c.caseId in l.cases
    requires outcome.ProviderFault? ==> CodeShowable(outcome.code)
    requires outcome.Observed? ==> ValidSemantic(outcome.semantic)
    ensures CloseCase(env, c, outcome, s, l).Go? ==> Modest(CloseCase(env, c, outcome, s, l).state.ledger)
  {
    match outcome
    case ProviderFault(code, classified) => StopModest(l, classified, Some(code));
    case OtherFault => StopModest(l, CaseObservationInvalid, None);
    case Observed(sem) =>
      StopModest(l, CaseObservationInvalid, None);
      ObservedCodeShowable(sem);
      ObservedModest(env, c, s, l, sem);
  }

  lemma {:induction false} ObservedModest(env: Env, c: E.Case, s: GateState, l: Ledger, sem: Semantic)
    requires Modest(l) && c.caseId in l.cases && (sem.safeErrorCode.Some? ==> CodeShowable(sem.safeErrorCode.value))
    ensures ConcludeObserved(env, c, s, l, sem).Go? ==> Modest(ConcludeObserved(env, c, s, l, sem).state.ledger)
  {
    forall failure ensures Modest(ApplyFailure(l, sem, failure)) {
      if failure.Some? {
        StopModest(l, failure.value, sem.safeErrorCode);
      }
    }
  }

  lemma {:induction false} StepModest(env: Env, c: E.Case, script: Script, s: GateState)
    requires ModestProvider(env.provider) && Modest(s.ledger)
    requires script.outcome.ProviderFault? ==> CodeShowable(script.outcome.code)
    requires script.outcome.Observed? ==> ValidSemantic(script.outcome.semantic)
    ensures StepCase(env, c, script, s).Go? ==> Modest(StepCase(env, c, script, s).state.ledger)
  {
    var l := Chats(env.provider, Register(s.ledger, c.caseId), script.calls);
    ChatsModest(env.provider, Register(s.ledger, c.caseId), script.calls);
    CloseModest(env, c, script.outcome, s, l);
  }

  lemma {:induction false} RunCasesModest(env: Env, d: E.Dataset, n: nat)
    requires ExecutorContract(env) && ModestProvider(env.provider) && ModestExecutors(env) && n <= |d.cases|
    ensures RunCases(env, d, n).Go? ==> Modest(RunCases(env, d, n).state.ledger)
  {
    var keeps := (k: nat, s: GateState) => Modest(s.ledger);
    forall k: nat, s: GateState | k < n && keeps(k, s) ensures Kept(CaseSteps(env, d), keeps, k, s) {
      StepModest(env, d.cases[k], env.executor(k), s);
    }
    RunCasesInduction(env, d, keeps, 0, n);
  }

  lemma {:induction false} ModestWithinTokens(l: Ledger)
    requires Sound(l) && Modest(l)
    ensures WithinTokens(l)
  {
  }

  /** A case that was started and observed by its executor claims no more responses than calls were made for it. */
  predicate ClaimHonest(env: Env, d: E.Dataset, n: nat)
    requires n < |d.cases|
  {
    var outcome, id := env.executor(n).outcome, d.cases[n].caseId;
    && RunCases(env, d, n).Go? && RunCases(env, d, n).state.ledger.stopCode.None?
    && outcome.Observed? && outcome.semantic.caseId == id ==>
      outcome.semantic.responseCount <= LedgerAfterCase(env, d, RunCases(env, d, n).state, n).cases[id].calls
  }

  lemma {:induction false} StartedCaseFits(env: Env, d: E.Dataset, n: nat, s: GateState)
    requires E.ValidDataset(d) && n < |d.cases| && ModestProvider(env.provider)
    requires Sound(s.ledger) && Modest(s.ledger) && s.ledger.stopCode.None?
    requires Registered(d, s.ledger.order) && |s.ledger.order| == n
    ensures CaseTokens(LedgerAfterCase(env, d, s, n).cases[d.cases[n].caseId]) <= CASE_MAX_TOKENS
  {
    StartedLedgerSound(env, d, s, n);
    ChatsModest(env.provider, Register(s.ledger, d.cases[n].caseId), env.executor(n).calls);
    ModestWithinTokens(LedgerAfterCase(env, d, s, n));
  }

  lemma {:induction false} HonestCaseFits(env: Env, d: E.Dataset, n: nat)
    requires E.ValidDataset(d) && ExecutorContract(env) && n < |d.cases|
    requires ModestProvider(env.provider) && ModestExecutors(env) && ClaimHonest(env, d, n)
    ensures !CaseExceeds(env, d, n)
  {
    RunCasesKeeps(env, d, n);
    RunCasesModest(env, d, n);
    if RunCases(env, d, n).Go? && RunCases(env, d, n).state.ledger.stopCode.None? {
      StartedCaseFits(env, d, n, RunCases(env, d, n).state);
    }
  }

  /**
   A caller's guarantee. If no reply uses more than 1000 tokens, recorded error codes start
   with a letter and executors claim no more responses than calls, the gate returns.
   */
  lemma {:induction false} ModestRunReturns(env: Env, d: E.Dataset, admission: Admission)
    requires E.ValidDataset(d) && ExecutorContract(env) && ModestProvider(env.provider) && ModestExecutors(env)
    requires forall n: nat :: n < |d.cases| ==> ClaimHonest(env, d, n)
    ensures RunGate(env, d, admission).GateReturned?
  {
    forall n: nat | n < |d.cases| ensures !CaseExceeds(env, d, n) {
      HonestCaseFits(env, d, n);
    }
    GateRaisesIff(env, d, admission);
    if RunCases(env, d, |d.cases|).Go? {
      RunCasesModest(env, d, |d.cases|);
      RunCasesKeeps(env, d, |d.cases|);
      ModestWithinTokens(RunCases(env, d, |d.cases|).state.ledger);
    }
  }

  // ----- a condition on provider and executors alone -----

  /** A reply the gate takes as a response of its own model. */
  predicate OwnResponse(answer: Answer) {
    answer.Response? && answer.response.provider == PROVIDER_ID && answer.response.model == MODEL
  }

  ghost predicate RespondsWithin(provider: Provider, least: nat, most: nat) {
    forall n: nat, q: ChatRequest ::
      OwnResponse(provider(n, q).answer) && least <= UsageOf(provider(n, q).answer.response) <= most
  }

  /** Calls through the executor's own wrapper, each asking for at least one token if it asks for any number. */
  predicate OwnCalls(calls: seq<ExecutorCall>, id: string) {
    forall i :: 0 <= i < |calls| ==>
      calls[i].caseId == id && (calls[i].request.maxTokens.Some? ==> calls[i].request.maxTokens.value > 0)
  }

  /** Every limit has room for one more call. */
  predicate Roomy(l: Ledger, id: string) {
    && id in l.cases && l.stopCode.None? && l.calls < DOMAIN_MAX_CALLS && l.cases[id].calls < CASE_MAX_CALLS
    && TotalTokens(l) < DOMAIN_MAX_TOKENS && CaseTokens(l.cases[id]) < CASE_MAX_TOKENS
  }

  /** One more call was made and used n tokens; only tokens beyond a limit can have stopped it. */
  predicate CallAdded(l: Ledger, l': Ledger, id: string, n: nat)
    requires id in l.cases && id in l'.cases
  {
    && l'.calls == l.calls + 1 && l'.cases[id].calls == l.cases[id].calls + 1
    && TotalTokens(l') == TotalTokens(l) + n && CaseTokens(l'.cases[id]) == CaseTokens(l.cases[id]) + n
    && (n <= 2048 && TotalTokens(l') <= DOMAIN_MAX_TOKENS && CaseTokens(l'.cases[id]) <= CASE_MAX_TOKENS ==> l'.stopCode.None?)
  }

  lemma {:induction false} SettleAdds(l: Ledger, id: string, usage: TokenUsage, latency: nat, l': Ledger)
    requires id in l.cases && l.stopCode.None? && l' == Settle(l, id, Some(FLASH), usage, latency).0
    ensures l'.calls == l.calls && l'.cases[id].calls == l.cases[id].calls
    ensures TotalTokens(l') == TotalTokens(l) + usage.inputTokens + usage.outputTokens
    ensures CaseTokens(l'.cases[id]) == CaseTokens(l.cases[id]) + usage.inputTokens + usage.outputTokens
    ensures usage.outputTokens <= 2048 && TotalTokens(l') <= DOMAIN_MAX_TOKENS && CaseTokens(l'.cases[id]) <= CASE_MAX_TOKENS ==>
      l'.stopCode.None?
  {
  }

  lemma {:induction false} RoomGrants(l: Ledger, id: string, request: ChatRequest)
    requires Roomy(l, id) && (request.maxTokens.Some? ==> request.maxTokens.value > 0)
    ensures Reserve(l, id, Some(FLASH), request).Granted?
  {
  }

  /** A call there is room for reaches the provider as some request q, and uses what its reply says. */
  lemma {:induction false} RoomyChat(provider: Provider, l: Ledger, id: string,
                                     request: ChatRequest) returns (q: ChatRequest)
    requires Roomy(l, id) && (request.maxTokens.Some? ==> request.maxTokens.value > 0)
    requires forall x: ChatRequest :: OwnResponse(provider(l.calls, x).answer)
    ensures OwnResponse(provider(l.calls, q).answer)
    ensures CallAdded(l, Chat(provider, l, id, Some(FLASH), request).0, id, UsageOf(provider(l.calls, q).answer.response))
  {
    RoomGrants(l, id, request);
    GrantWithinLimits(l, id, Some(FLASH), request);
    var r := Reserve(l, id, Some(FLASH), request);
    q := r.request;
    var reply := provider(l.calls, q);
    assert OwnResponse(reply.answer);
    var delivered := Deliver(r.ledger, InnerCall(id, q, Remaining(l, id), OutputCap(Some(FLASH))));
    SettleAdds(delivered, id, reply.answer.response.usage, Latency(reply.elapsed),
               Chat(provider, l, id, Some(FLASH), request).0);
  }

  /** The calls of a case with room for all of them are all made. */
  lemma {:induction false} RoomyCase(provider: Provider, l: Ledger, id: string, calls: seq<ExecutorCall>)
    requires RespondsWithin(provider, 0, 1000) && OwnCalls(calls, id)
    requires id in l.cases && l.cases[id] == NO_USE && l.stopCode.None? && TotalTokens(l) <= 1000 * l.calls
    requires |calls| <= CASE_MAX_CALLS && l.calls + |calls| <= DOMAIN_MAX_CALLS
    ensures var l' := Chats(provider, l, calls);
      && l'.stopCode.None? && l'.calls == l.calls + |calls| && l'.cases[id].calls == |calls|
      && TotalTokens(l') <= 1000 * l'.calls && CaseTokens(l'.cases[id]) <= 1000 * |calls|
  {
    if calls != [] {
      var n := |calls| - 1;
      RoomyCase(provider, l, id, calls[..n]);
      var l' := Chats(provider, l, calls[..n]);
      var q := RoomyChat(provider, l', id, calls[n].request);
      assert UsageOf(provider(l'.calls, q).answer.response) <= 1000;
    }
  }

  /** At most four calls, all through the executor's own wrapper, and no more responses claimed than calls made. */
  ghost predicate PlainExecutors(env: Env, d: E.Dataset) {
    forall n: nat :: n < |d.cases| ==> PlainScript(env.executor(n), d.cases[n].caseId)
  }

  predicate PlainScript(script: Script, id: string) {
    && |script.calls| <= CASE_MAX_CALLS && OwnCalls(script.calls, id)
    && (script.outcome.Observed? ==> script.outcome.semantic.responseCount <= |script.calls|)
  }

  lemma {:induction false} PlainStart(env: Env, d: E.Dataset, n: nat, s: GateState)
    requires n < |d.cases| <= 3 && RespondsWithin(env.provider, 0, 1000) && PlainScript(env.executor(n), d.cases[n].caseId)
    requires s.ledger.stopCode.None? && TotalTokens(s.ledger) <= 1000 * s.ledger.calls && s.ledger.calls <= 4 * n
    ensures var l := LedgerAfterCase(env, d, s, n);
      l.calls <= 4 * n + 4 && l.cases[d.cases[n].caseId].calls == |env.executor(n).calls|
  {
    RoomyCase(env.provider, Register(s.ledger, d.cases[n].caseId), d.cases[n].caseId, env.executor(n).calls);
  }

  lemma {:induction false} PlainModest(env: Env)
    requires RespondsWithin(env.provider, 0, 1000)
    ensures ModestProvider(env.provider)
  {
    forall n: nat, q: ChatRequest ensures ModestAnswer(env.provider(n, q).answer) {
      assert OwnResponse(env.provider(n, q).answer) && UsageOf(env.provider(n, q).answer.response) <= 1000;
    }
  }

  lemma {:induction false} CloseKeepsCalls(env: Env, c: E.Case, outcome: Outcome, s: GateState, l: Ledger)
    requires c.caseId in l.cases
    ensures CloseCase(env, c, outcome, s, l).Go? ==> CloseCase(env, c, outcome, s, l).state.ledger.calls == l.calls
  {
  }

  lemma {:induction false} PlainStep(env: Env, d: E.Dataset, n: nat, s: GateState)
    requires n < |d.cases| <= 3 && RespondsWithin(env.provider, 0, 1000) && PlainScript(env.executor(n), d.cases[n].caseId)
    requires TotalTokens(s.ledger) <= 1000 * s.ledger.calls && s.ledger.calls <= 4 * n
    ensures var next := StepCase(env, d.cases[n], env.executor(n), s);
      next.Go? ==> next.state.ledger.calls <= 4 * n + 4
  {
    if s.ledger.stopCode.None? {
      PlainStart(env, d, n, s);
      CloseKeepsCalls(env, d.cases[n], env.executor(n).outcome, s, LedgerAfterCase(env, d, s, n));
    }
  }

  lemma {:induction false} PlainCalls(env: Env, d: E.Dataset, n: nat)
    requires ExecutorContract(env) && ModestExecutors(env) && n <= |d.cases| <= 3
    requires RespondsWithin(env.provider, 0, 1000) && PlainExecutors(env, d)
    ensures RunCases(env, d, n).Go? ==> RunCases(env, d, n).state.ledger.calls <= 4 * n
  {
    var keeps := (k: nat, s: GateState) => Modest(s.ledger) && s.ledger.calls <= 4 * k;
    PlainModest(env);
    forall k: nat, s: GateState | k < n && keeps(k, s) ensures Kept(CaseSteps(env, d), keeps, k, s) {
      StepModest(env, d.cases[k], env.executor(k), s);
      assert PlainScript(env.executor(k), d.cases[k].caseId);
      PlainStep(env, d, k, s);
    }
    RunCasesInduction(env, d, keeps, 0, n);
  }

  /**
   The same guarantee without reference to the run, for the three cases the budget is made
   for: the provider answers as itself with at most 1000 tokens, executors make at most four
   calls each and claim no more responses than that.
   */
  lemma {:induction false} PlainRunReturns(env: Env, d: E.Dataset, admission: Admission)
    requires E.ValidDataset(d) && |d.cases| <= 3 && ExecutorContract(env) && ModestExecutors(env)
    requires RespondsWithin(env.provider, 0, 1000) && PlainExecutors(env, d)
    ensures RunGate(env, d, admission).GateReturned?
  {
    PlainModest(env);
    forall n: nat | n < |d.cases| ensures ClaimHonest(env, d, n) {
      PlainClaim(env, d, n);
    }
    ModestRunReturns(env, d, admission);
  }

  lemma {:induction false} PlainClaim(env: Env, d: E.Dataset, n: nat)
    requires E.ValidDataset(d) && n < |d.cases| <= 3 && ExecutorContract(env) && ModestExecutors(env)
    requires RespondsWithin(env.provider, 0, 1000) && PlainExecutors(env, d)
    ensures ClaimHonest(env, d, n)
  {
    PlainModest(env);
    RunCasesModest(env, d, n);
    PlainCalls(env, d, n);
    assert PlainScript(env.executor(n), d.cases[n].caseId);
    if RunCases(env, d, n).Go? && RunCases(env, d, n).state.ledger.stopCode.None? {
      PlainStart(env, d, n, RunCases(env, d, n).state);
    }
  }

  // ----- each way of raising happens -----

  /** The first case's executor returns an observation of it after the given calls. */
  predicate FirstObserves(env: Env, d: E.Dataset, calls: seq<ExecutorCall>)
    requires d.cases != []
  {
    && env.executor(0).calls == calls && env.executor(0).outcome.Observed?
    && env.executor(0).outcome.semantic.caseId == d.cases[0].caseId
  }

  function FirstLedger(env: Env, d: E.Dataset, calls: seq<ExecutorCall>): Ledger
    requires d.cases != []
  {
    Chats(env.provider, Register(EMPTY_LEDGER, d.cases[0].caseId), calls)
  }

  lemma {:induction false} FirstCaseRaises(env: Env, d: E.Dataset, admission: Admission,
                                           calls: seq<ExecutorCall>, reason: RaiseReason)
    requires d.cases != [] && FirstObserves(env, d, calls)
    requires ConcludeObserved(env, d.cases[0], EMPTY_STATE, FirstLedger(env, d, calls), env.executor(0).outcome.semantic)
          == Raise(reason)
    ensures RunGate(env, d, admission) == GateRaised(reason)
  {
    assert RunCases(env, d, 0) == Go(EMPTY_STATE);
    assert RunCases(env, d, 1) == StepCase(env, d.cases[0], env.executor(0), EMPTY_STATE);
    RaiseIsFinal(env, d, 1, reason);
  }

  lemma {:induction false} OverclaimDetected(env: Env, c: E.Case, s: GateState, l: Ledger, sem: Semantic)
    requires c.caseId in l.cases && l.cases[c.caseId] == NO_USE && sem.responseCount > 0
    ensures ConcludeObserved(env, c, s, l, sem) == Raise(ResponsesOverclaimed(sem.responseCount, 0))
  {
  }

  /** An executor that made no call and claims a response makes the gate raise. */
  lemma {:induction false} OverclaimRaises(env: Env, d: E.Dataset, admission: Admission)
    requires E.ValidDataset(d) && FirstObserves(env, d, []) && env.executor(0).outcome.semantic.responseCount > 0
    ensures RunGate(env, d, admission)
         == GateRaised(ResponsesOverclaimed(env.executor(0).outcome.semantic.responseCount, 0))
  {
    var sem := env.executor(0).outcome.semantic;
    OverclaimDetected(env, d.cases[0], EMPTY_STATE, FirstLedger(env, d, []), sem);
    FirstCaseRaises(env, d, admission, [], ResponsesOverclaimed(sem.responseCount, 0));
  }

  /** A first reply of more than 4000 tokens, its error swallowed by the executor, makes the gate raise. */
  lemma {:induction false} OvershootRaises(env: Env, d: E.Dataset, admission: Admission, request: ChatRequest)
    requires E.ValidDataset(d) && FirstObserves(env, d, [ExecutorCall(d.cases[0].caseId, request)])
    requires request.maxTokens.Some? ==> request.maxTokens.value > 0
    requires forall q: ChatRequest ::
      OwnResponse(env.provider(0, q).answer) && UsageOf(env.provider(0, q).answer.response) > CASE_MAX_TOKENS
    ensures var r := RunGate(env, d, admission); r.GateRaised? && r.reason.CaseOvershoot?
  {
    var id := d.cases[0].caseId;
    var calls := [ExecutorCall(id, request)];
    FirstChatOvershoots(env.provider, id, calls);
    FirstCaseRaises(env, d, admission, calls, CaseOvershoot(FirstLedger(env, d, calls).cases[id]));
  }

  lemma {:induction false} FirstChatOvershoots(provider: Provider, id: string, calls: seq<ExecutorCall>)
    requires |calls| == 1 && OwnCalls(calls, id)
    requires forall q: ChatRequest ::
      OwnResponse(provider(0, q).answer) && UsageOf(provider(0, q).answer.response) > CASE_MAX_TOKENS
    ensures CaseTokens(Chats(provider, Register(EMPTY_LEDGER, id), calls).cases[id]) > CASE_MAX_TOKENS
  {
    assert calls[..0] == [];
    var q := RoomyChat(provider, Register(EMPTY_LEDGER, id), id, calls[0].request);
  }

  /** Four replies of 1001 tokens each are too many: 1000 is the best bound on replies. */
  lemma {:induction false} OneTokenMoreRaises(env: Env, d: E.Dataset, admission: Admission, calls: seq<ExecutorCall>)
    requires E.ValidDataset(d) && RespondsWithin(env.provider, 1001, 1001)
    requires |calls| == 4 && OwnCalls(calls, d.cases[0].caseId) && FirstObserves(env, d, calls)
    ensures var r := RunGate(env, d, admission); r.GateRaised? && r.reason.CaseOvershoot?
  {
    var id := d.cases[0].caseId;
    ExactCase(env.provider, id, calls);
    var l := FirstLedger(env, d, calls);
    FirstCaseRaises(env, d, admission, calls, CaseOvershoot(l.cases[id]));
  }

  lemma {:induction false} ExactCase(provider: Provider, id: string, calls: seq<ExecutorCall>)
    requires RespondsWithin(provider, 1001, 1001) && |calls| <= 4 && OwnCalls(calls, id)
    ensures var l := Chats(provider, Register(EMPTY_LEDGER, id), calls);
      && l.calls == l.cases[id].calls == |calls|
      && TotalTokens(l) == CaseTokens(l.cases[id]) == 1001 * |calls|
      && (|calls| <= 3 ==> l.stopCode.None?)
  {
    if calls != [] {
      var n := |calls| - 1;
      ExactCase(provider, id, calls[..n]);
      var l' := Chats(provider, Register(EMPTY_LEDGER, id), calls[..n]);
      var q := RoomyChat(provider, l', id, calls[n].request);
      assert UsageOf(provider(l'.calls, q).answer.response) == 1001;
    }
  }
}
