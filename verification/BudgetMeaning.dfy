/**
 What one call through the budgeted provider does, for every state of the budget, every
 request and every reply: when it is refused, what the inner provider is sent, which
 replies come back to the caller, and what is charged and recorded.
 */
module BudgetMeaning {
  import opened Prelude
  import opened ProviderModels
  import opened BudgetLedger

  // ----- what a call may do to the budget -----

  /** Nothing but the stops and the record of inner calls may differ. */
  predicate SameUse(l: Ledger, l': Ledger) {
    && l'.calls == l.calls && l'.inputTokens == l.inputTokens && l'.outputTokens == l.outputTokens
    && l'.latency == l.latency && l'.order == l.order && l'.cases == l.cases
  }

  /** The provider is stopped for this failure, with this code in the public record. */
  predicate StoppedBy(l: Ledger, failure: FailureCode, code: Option<string>) {
    l.stopCode == Some(failure) && l.providerStop == Some(ProviderStop(failure, code)) && l.globalStop.None?
  }

  predicate NotStopped(l: Ledger) {
    l.stopCode.None? && l.providerStop.None? && l.globalStop.None?
  }

  /** One more call, of this case; nothing else is counted. */
  predicate OneCallCounted(l: Ledger, l': Ledger, caseId: string)
    requires caseId in l.cases
  {
    && l'.calls == l.calls + 1 && l'.inputTokens == l.inputTokens && l'.outputTokens == l.outputTokens
    && l'.latency == l.latency && l'.order == l.order && l'.cases.Keys == l.cases.Keys
    && (forall id :: id in l.cases && id != caseId ==> l'.cases[id] == l.cases[id])
    && l'.cases[caseId].calls == l.cases[caseId].calls + 1
    && l'.cases[caseId].inputTokens == l.cases[caseId].inputTokens
    && l'.cases[caseId].outputTokens == l.cases[caseId].outputTokens
    && l'.cases[caseId].latency == l.cases[caseId].latency
  }

  /** One more call, of this case, and exactly its tokens and time. */
  predicate CallCharged(l: Ledger, l': Ledger, caseId: string, usage: TokenUsage, elapsed: int)
    requires caseId in l.cases
  {
    var time := if elapsed > 0 then elapsed else 0;
    && l'.calls == l.calls + 1
    && l'.inputTokens == l.inputTokens + usage.inputTokens
    && l'.outputTokens == l.outputTokens + usage.outputTokens
    && l'.latency == l.latency + time
    && l'.order == l.order && l'.cases.Keys == l.cases.Keys
    && (forall id :: id in l.cases && id != caseId ==> l'.cases[id] == l.cases[id])
    && l'.cases[caseId].calls == l.cases[caseId].calls + 1
    && l'.cases[caseId].inputTokens == l.cases[caseId].inputTokens + usage.inputTokens
    && l'.cases[caseId].outputTokens == l.cases[caseId].outputTokens + usage.outputTokens
    && l'.cases[caseId].latency == l.cases[caseId].latency + time
  }

  // ----- the request -----

  /** The most output a request may ask for under a profile. */
  function Ceiling(profile: Option<FlashProfile>): int {
    match profile case None => 1024 case Some(p) => p.maxOutput
  }

  /** The whole run and the case both have tokens left. */
  predicate TokensLeft(l: Ledger, caseId: string)
    requires caseId in l.cases
  {
    && l.inputTokens + l.outputTokens < 12000
    && l.cases[caseId].inputTokens + l.cases[caseId].outputTokens < 4000
  }

  predicate CallsLeft(l: Ledger, caseId: string)
    requires caseId in l.cases
  {
    l.calls < 12 && l.cases[caseId].calls < 4
  }

  predicate AsksForOutput(profile: Option<FlashProfile>, request: ChatRequest) {
    Ceiling(profile) > 0 && (request.maxTokens.Some? ==> request.maxTokens.value > 0)
  }

  /** An output limit respects what was asked, the profile and both token budgets. */
  predicate LimitFits(l: Ledger, caseId: string, profile: Option<FlashProfile>, request: ChatRequest, limit: int)
    requires caseId in l.cases
  {
    && limit <= Ceiling(profile)
    && (request.maxTokens.Some? ==> limit <= request.maxTokens.value)
    && l.inputTokens + l.outputTokens + limit <= 12000
    && l.cases[caseId].inputTokens + l.cases[caseId].outputTokens + limit <= 4000
  }

  /** The sampling parameters and the timeout are the caller's, or the profile's. */
  predicate SampledUnder(profile: Option<FlashProfile>, request: ChatRequest, sent: ChatRequest) {
    match profile
    case None =>
      sent.temperature == request.temperature && sent.topP == request.topP && sent.timeout == request.timeout
    case Some(p) =>
      && sent.temperature == p.temperature && sent.topP == Some(p.topP)
      && sent.timeout <= request.timeout && sent.timeout <= p.toolTimeout
      && (sent.timeout == request.timeout || sent.timeout == p.toolTimeout)
  }

  /** What the inner provider is sent: the caller's question, with the greatest fitting output limit. */
  predicate SentFor(l: Ledger, caseId: string, profile: Option<FlashProfile>, request: ChatRequest, sent: ChatRequest)
    requires caseId in l.cases
  {
    && sent.messages == request.messages && sent.tools == request.tools
    && sent.toolChoice == request.toolChoice && sent.iteration == request.iteration
    && SampledUnder(profile, request, sent)
    && sent.maxTokens.Some? && sent.maxTokens.value > 0
    && LimitFits(l, caseId, profile, request, sent.maxTokens.value)
    && !LimitFits(l, caseId, profile, request, sent.maxTokens.value + 1)
  }

  // ----- refusals -----

  predicate RefusedFor(l: Ledger, l': Ledger, outcome: ChatOutcome, failure: FailureCode) {
    SameUse(l, l') && l'.inner == l.inner && StoppedBy(l', failure, None) && outcome == Blocked(failure)
  }

  /**
   A call reaches the provider exactly when no stop is set, calls are left, tokens are left
   and it asks for output; the first of these that fails decides the refusal.
   */
  lemma {:induction false} GrantedIff(provider: Provider, l: Ledger, caseId: string, profile: Option<FlashProfile>,
                                      request: ChatRequest)
    requires Sound(l) && caseId in l.cases
    ensures var (l', outcome) := Chat(provider, l, caseId, profile, request);
      if l.stopCode.Some? then l' == l && outcome == Blocked(l.stopCode.value)
      else if !CallsLeft(l, caseId) then RefusedFor(l, l', outcome, ExternalCallBudgetExhausted)
      else if !TokensLeft(l, caseId) || !AsksForOutput(profile, request) then
        RefusedFor(l, l', outcome, TokenBudgetExhausted)
      else |l'.inner| == |l.inner| + 1
  {
  }

  // ----- replies -----

  /** The call that was made, with its reply. */
  ghost predicate Called(provider: Provider, l: Ledger, l': Ledger, caseId: string, profile: Option<FlashProfile>,
                         request: ChatRequest, reply: Reply)
    requires caseId in l.cases
  {
    && |l'.inner| == |l.inner| + 1 && l.inner <= l'.inner
    && var c := l'.inner[|l.inner|];
       && c.caseId == caseId && SentFor(l, caseId, profile, request, c.request)
       && reply == provider(l.calls, c.request)
  }

  /** The model the gate is about, by the identity the reply itself gives. */
  predicate OfTheGate(r: ChatResponse) {
    r.provider == "zhipu" && r.model == "glm-5.3-flash"
  }

  /** With this usage added, every limit still holds. */
  predicate UsageFits(l: Ledger, caseId: string, profile: Option<FlashProfile>, usage: TokenUsage)
    requires caseId in l.cases
  {
    && usage.outputTokens <= Ceiling(profile)
    && l.inputTokens + l.outputTokens + usage.inputTokens + usage.outputTokens <= 12000
    && l.cases[caseId].inputTokens + l.cases[caseId].outputTokens + usage.inputTokens + usage.outputTokens <= 4000
  }

  predicate CodeCharacter(c: char) {
    'a' <= c <= 'z' || '0' <= c <= '9' || c == '_'
  }

  /** A code may be recorded if it has a lower-case letter and otherwise only those, digits and underscores. */
  predicate Recordable(code: string) {
    (exists i :: 0 <= i < |code| && 'a' <= code[i] <= 'z') && forall i :: 0 <= i < |code| ==> CodeCharacter(code[i])
  }

  /** What the public record keeps of a provider's error code. */
  predicate KeptAs(code: string, kept: Option<string>) {
    if !Recordable(code) then kept.None?
    else kept.Some? && kept.value <= code && |kept.value| == Min(|code|, 128)
  }

  /** What the caller gets for a reply, and what is charged and recorded. */
  ghost predicate Answered(l: Ledger, l': Ledger, caseId: string, profile: Option<FlashProfile>, reply: Reply, outcome: ChatOutcome)
    requires caseId in l.cases
  {
    match reply.answer
    case Fault(code, classified) =>
      && outcome == Raised && OneCallCounted(l, l', caseId)
      && exists kept :: KeptAs(code, kept) && StoppedBy(l', classified, kept)
    case Unexpected =>
      outcome == Raised && OneCallCounted(l, l', caseId) && StoppedBy(l', ProviderErrorUnknown, Some("unexpected_sdk_error"))
    case NotAResponse =>
      && outcome == Blocked(ProviderResponseInvalid) && OneCallCounted(l, l', caseId)
      && StoppedBy(l', ProviderResponseInvalid, None)
    case Response(r) =>
      if !OfTheGate(r) then
        && outcome == Blocked(ProviderResponseInvalid) && OneCallCounted(l, l', caseId)
        && StoppedBy(l', ProviderResponseInvalid, None)
      else
        && CallCharged(l, l', caseId, r.usage, reply.elapsed)
        && if UsageFits(l, caseId, profile, r.usage) then outcome == Returned(r) && NotStopped(l')
           else outcome == Blocked(TokenBudgetExhausted) && StoppedBy(l', TokenBudgetExhausted, None)
  }

  lemma {:induction false} GrantSends(l: Ledger, caseId: string, profile: Option<FlashProfile>, request: ChatRequest)
    requires caseId in l.cases && Reserve(l, caseId, profile, request).Granted?
    ensures var r := Reserve(l, caseId, profile, request);
      && SentFor(l, caseId, profile, request, r.request) && OneCallCounted(l, r.ledger, caseId)
      && r.ledger.stopCode == l.stopCode && r.ledger.providerStop == l.providerStop
      && r.ledger.globalStop == l.globalStop && r.ledger.inner == l.inner
  {
  }

  lemma {:induction false} CodeKept(code: string)
    ensures KeptAs(code, SafeErrorCode(Some(code)))
  {
    if Recordable(code) {
      var i :| 0 <= i < |code| && 'a' <= code[i] <= 'z';
      assert forall k :: 0 <= k < |code| ==> CodeCharacter(code[k]);
    } else if SafeErrorCode(Some(code)).Some? {
      assert forall k :: 0 <= k < |code| ==> CodeCharacter(code[k]);
    }
  }

  lemma {:induction false} UnexpectedKept()
    ensures SafeErrorCode(Some("unexpected_sdk_error")) == Some("unexpected_sdk_error")
  {
    assert "unexpected_sdk_error"[0] == 'u';
  }

  /** Usage is charged on top of the counted call, and a limit it breaks stops the provider. */
  lemma {:induction false} SettleCharges(l: Ledger, counted: Ledger, caseId: string, profile: Option<FlashProfile>,
                                         usage: TokenUsage, elapsed: int)
    requires caseId in l.cases && OneCallCounted(l, counted, caseId) && NotStopped(counted)
    ensures var (l', failure) := Settle(counted, caseId, profile, usage, Latency(elapsed));
      && CallCharged(l, l', caseId, usage, elapsed) && l'.inner == counted.inner
      && if UsageFits(l, caseId, profile, usage) then failure.None? && NotStopped(l')
         else failure == Some(TokenBudgetExhausted) && StoppedBy(l', TokenBudgetExhausted, None)
  {
  }

  lemma {:induction false} FaultAnswers(l: Ledger, counted: Ledger, caseId: string, classified: FailureCode, code: string)
    requires caseId in l.cases && OneCallCounted(l, counted, caseId) && NotStopped(counted)
    ensures var l' := StopProvider(counted, classified, Some(code));
      && OneCallCounted(l, l', caseId) && l'.inner == counted.inner
      && exists kept :: KeptAs(code, kept) && StoppedBy(l', classified, kept)
  {
    CodeKept(code);
    assert KeptAs(code, SafeErrorCode(Some(code)))
      && StoppedBy(StopProvider(counted, classified, Some(code)), classified, SafeErrorCode(Some(code)));
  }

  /** What is concluded from a reply, after the call was counted. */
  lemma {:induction false} ConcludeAnswers(l: Ledger, counted: Ledger, caseId: string, profile: Option<FlashProfile>,
                                           reply: Reply)
    requires caseId in l.cases && OneCallCounted(l, counted, caseId) && NotStopped(counted)
    ensures var (l', outcome) := Conclude(counted, caseId, profile, reply);
      Answered(l, l', caseId, profile, reply, outcome) && l'.inner == counted.inner
  {
    match reply.answer
    case Fault(code, classified) => FaultAnswers(l, counted, caseId, classified, code);
    case Unexpected => UnexpectedKept();
    case NotAResponse =>
    case Response(r) => SettleCharges(l, counted, caseId, profile, r.usage, reply.elapsed);
  }

  /** Every kind of reply to a granted call: what is sent, what comes back, what is charged. */
  lemma {:induction false} GrantedCallAnswers(provider: Provider, l: Ledger, caseId: string, profile: Option<FlashProfile>,
                                              request: ChatRequest)
    requires Sound(l) && caseId in l.cases && l.stopCode.None?
    requires CallsLeft(l, caseId) && TokensLeft(l, caseId) && AsksForOutput(profile, request)
    ensures var (l', outcome) := Chat(provider, l, caseId, profile, request);
      exists reply :: Called(provider, l, l', caseId, profile, request, reply)
                      && Answered(l, l', caseId, profile, reply, outcome)
  {
    GrantedIff(provider, l, caseId, profile, request);
    var r := Reserve(l, caseId, profile, request);
    GrantSends(l, caseId, profile, request);
    var call := InnerCall(caseId, r.request, Remaining(l, caseId), OutputCap(profile));
    var reply := provider(l.calls, r.request);
    var counted := Deliver(r.ledger, call);
    ConcludeAnswers(l, counted, caseId, profile, reply);
    var (l', outcome) := Chat(provider, l, caseId, profile, request);
    assert (l', outcome) == Conclude(counted, caseId, profile, reply);
    assert Called(provider, l, l', caseId, profile, request, reply);
  }

  /** Only replies of the gate's own model ever reach the caller. */
  lemma {:induction false} OnlyOwnRepliesReturn(provider: Provider, l: Ledger, caseId: string, profile: Option<FlashProfile>,
                                                request: ChatRequest)
    requires Sound(l) && caseId in l.cases
    requires Chat(provider, l, caseId, profile, request).1.Returned?
    ensures var (l', outcome) := Chat(provider, l, caseId, profile, request);
      && |l'.inner| == |l.inner| + 1
      && provider(l.calls, l'.inner[|l.inner|].request).answer == Response(outcome.response)
      && OfTheGate(outcome.response) && UsageFits(l, caseId, profile, outcome.response.usage)
  {
    GrantedIff(provider, l, caseId, profile, request);
    GrantedCallAnswers(provider, l, caseId, profile, request);
  }

  /** The registered profile allows 2048 tokens of output at temperature 1 and top_p 0.95, in at most 90 seconds. */
  lemma {:induction false} FlashSends(l: Ledger, caseId: string, request: ChatRequest, sent: ChatRequest)
    requires caseId in l.cases && SentFor(l, caseId, Some(FLASH), request, sent)
    ensures sent.maxTokens.value <= 2048 && sent.temperature == 1.0 && sent.topP == Some(0.95) && sent.timeout <= 90.0
  {
  }

  // ----- registration and stops -----

  /** A new case starts from nothing, after the cases before it. */
  lemma {:induction false} RegisterMeans(l: Ledger, caseId: string)
    requires caseId !in l.cases
    ensures var l' := Register(l, caseId);
      && l'.order == l.order + [caseId] && l'.cases.Keys == l.cases.Keys + {caseId}
      && l'.cases[caseId] == CaseUse(0, 0, 0, 0) && (forall id :: id in l.cases ==> l'.cases[id] == l.cases[id])
      && l'.calls == l.calls && l'.inputTokens == l.inputTokens && l'.outputTokens == l.outputTokens
      && l'.latency == l.latency && l'.inner == l.inner
      && l'.stopCode == l.stopCode && l'.providerStop == l.providerStop && l'.globalStop == l.globalStop
  {
  }

  /** What is already set stays; what is not is set to what comes. */
  predicate KeepsFirst<T(==)>(before: Option<T>, after: Option<T>, candidate: T) {
    (before.Some? ==> after == before) && (before.None? ==> after == Some(candidate))
  }

  lemma {:induction false} StopGlobalMeans(l: Ledger, failure: FailureCode)
    ensures var l' := StopGlobal(l, failure);
      && KeepsFirst(l.globalStop, l'.globalStop, failure) && KeepsFirst(l.stopCode, l'.stopCode, failure)
      && l'.providerStop == l.providerStop && SameUse(l, l') && l'.inner == l.inner
  {
  }

  lemma {:induction false} StopProviderMeans(l: Ledger, failure: FailureCode, code: string)
    ensures var l' := StopProvider(l, failure, Some(code));
      && KeepsFirst(l.stopCode, l'.stopCode, failure)
      && (exists kept :: KeptAs(code, kept) && KeepsFirst(l.providerStop, l'.providerStop, ProviderStop(failure, kept)))
      && l'.globalStop == l.globalStop && SameUse(l, l') && l'.inner == l.inner
  {
    CodeKept(code);
    var l', kept := StopProvider(l, failure, Some(code)), SafeErrorCode(Some(code));
    assert KeptAs(code, kept) && KeepsFirst(l.providerStop, l'.providerStop, ProviderStop(failure, kept));
  }
}
