/**
 The shared hard budget of the gate and the provider wrapper that enforces it
 (GLM53BudgetState and GLM53BudgetedProvider in app/evaluation/glm53_domain_gate.py).
 The ledger also records the calls that reached the inner provider.
 */
module BudgetLedger {
  import opened Prelude
  import opened ProviderModels

  const DOMAIN_MAX_CALLS := 12
  const CASE_MAX_CALLS := 4
  const DOMAIN_MAX_TOKENS := 12_000
  const CASE_MAX_TOKENS := 4_000
  const LEGACY_MAX_OUTPUT := 1_024
  const PROVIDER_ID := "zhipu"
  const MODEL := "glm-5.3-flash"

  /** The failure codes the gate itself issues; all others by their name. */
  datatype FailureCode =
    | ExternalCallBudgetExhausted | TokenBudgetExhausted | ProviderResponseInvalid | ProviderErrorUnknown
    | CaseObservationInvalid | UnsafePublication | CaseOutcomeMismatch | Other(name: string)

  /** `GLM53_FLASH_RUNTIME_PROFILE`, as far as the wrapper uses it. */
  datatype FlashProfile = FlashProfile(maxOutput: nat, temperature: real, topP: real, toolTimeout: real)

  const FLASH := FlashProfile(2048, 1.0, 0.95, 90.0)

  datatype CaseUse = CaseUse(calls: nat, inputTokens: nat, outputTokens: nat, latency: nat)

  const NO_USE := CaseUse(0, 0, 0, 0)

  datatype ProviderStop = ProviderStop(failure: FailureCode, errorCode: Option<string>)

  /** A call that reached the inner provider, with the allowances it was granted under. */
  datatype InnerCall = InnerCall(caseId: string, request: ChatRequest, remaining: int, cap: nat)

  /** `order` is the insertion order of the case dictionary. */
  datatype Ledger = Ledger(
    calls: nat, inputTokens: nat, outputTokens: nat, latency: nat,
    stopCode: Option<FailureCode>, globalStop: Option<FailureCode>, providerStop: Option<ProviderStop>,
    order: seq<string>, cases: map<string, CaseUse>, inner: seq<InnerCall>)

  const EMPTY_LEDGER := Ledger(0, 0, 0, 0, None, None, None, [], map[], [])

  /** What the inner provider did with a call, and the rounded elapsed milliseconds. */
  datatype Answer =
    | Response(response: ChatResponse)
    | NotAResponse
    | Fault(code: string, classified: FailureCode)
    | Unexpected

  datatype Reply = Reply(answer: Answer, elapsed: int)

  type Provider = (nat, ChatRequest) -> Reply

  datatype ChatOutcome = Returned(response: ChatResponse) | Blocked(failure: FailureCode) | Raised

  function TotalTokens(l: Ledger): nat { l.inputTokens + l.outputTokens }

  function CaseTokens(u: CaseUse): nat { u.inputTokens + u.outputTokens }

  function First<T>(current: Option<T>, candidate: T): Option<T> {
    if current.Some? then current else Some(candidate)
  }

  function SafeErrorCode(code: Option<string>): Option<string> {
    match code
    case None => None
    case Some(s) =>
      if (exists i :: 0 <= i < |s| && 'a' <= s[i] <= 'z')
         && (forall i :: 0 <= i < |s| ==> 'a' <= s[i] <= 'z' || '0' <= s[i] <= '9' || s[i] == '_')
      then Some(if |s| > 128 then s[..128] else s) else None
  }

  function StopProvider(l: Ledger, failure: FailureCode, code: Option<string>): Ledger {
    l.(providerStop := First(l.providerStop, ProviderStop(failure, SafeErrorCode(code))), stopCode := First(l.stopCode, failure))
  }

  function StopGlobal(l: Ledger, failure: FailureCode): Ledger {
    l.(globalStop := First(l.globalStop, failure), stopCode := First(l.stopCode, failure))
  }

  function Register(l: Ledger, caseId: string): Ledger {
    l.(order := l.order + [caseId], cases := l.cases[caseId := NO_USE])
  }

  function OutputCap(profile: Option<FlashProfile>): nat {
    if profile.Some? then profile.value.maxOutput else LEGACY_MAX_OUTPUT
  }

  function Remaining(l: Ledger, caseId: string): int
    requires caseId in l.cases
  {
    Min(DOMAIN_MAX_TOKENS - TotalTokens(l), CASE_MAX_TOKENS - CaseTokens(l.cases[caseId]))
  }

  /** The request as the wrapper rewrites it. */
  function Prepared(request: ChatRequest, profile: Option<FlashProfile>, maxTokens: int): ChatRequest {
    match profile
    case None => request.(maxTokens := Some(maxTokens))
    case Some(p) =>
      request.(maxTokens := Some(maxTokens), temperature := p.temperature, topP := Some(p.topP),
               timeout := if request.timeout <= p.toolTimeout then request.timeout else p.toolTimeout)
  }

  function GrantedTokens(request: ChatRequest, profile: Option<FlashProfile>, remaining: int): int {
    var requested := if request.maxTokens.None? then OutputCap(profile) else request.maxTokens.value;
    Min(Min(requested, OutputCap(profile)), remaining)
  }

  datatype Reservation = Refused(ledger: Ledger, failure: FailureCode) | Granted(ledger: Ledger, request: ChatRequest)

  function Block(l: Ledger, failure: FailureCode): Reservation {
    Refused(StopProvider(l, failure, None), failure)
  }

  /** `_reserve`: every limit is checked before anything is counted. */
  function Reserve(l: Ledger, caseId: string, profile: Option<FlashProfile>, request: ChatRequest): Reservation
    requires caseId in l.cases
  {
    var use := l.cases[caseId];
    var remaining := Remaining(l, caseId);
    var granted := GrantedTokens(request, profile, remaining);
    if l.stopCode.Some? then Refused(l, l.stopCode.value)
    else if l.calls >= DOMAIN_MAX_CALLS then Block(l, ExternalCallBudgetExhausted)
    else if use.calls >= CASE_MAX_CALLS then Block(l, ExternalCallBudgetExhausted)
    else if remaining <= 0 then Block(l, TokenBudgetExhausted)
    else if granted <= 0 then Block(l, TokenBudgetExhausted)
    else
      var prepared := Prepared(request, profile, granted);
      Granted(l.(calls := l.calls + 1, cases := l.cases[caseId := use.(calls := use.calls + 1)]), prepared)
  }

  function AddUse(use: CaseUse, usage: TokenUsage, latency: nat): CaseUse {
    use.(inputTokens := use.inputTokens + usage.inputTokens, outputTokens := use.outputTokens + usage.outputTokens,
         latency := use.latency + latency)
  }

  function Charge(l: Ledger, caseId: string, usage: TokenUsage, latency: nat): Ledger
    requires caseId in l.cases
  {
    l.(inputTokens := l.inputTokens + usage.inputTokens, outputTokens := l.outputTokens + usage.outputTokens,
       latency := l.latency + latency, cases := l.cases[caseId := AddUse(l.cases[caseId], usage, latency)])
  }

  /** `_settle`: usage is added first, limits are checked afterwards. */
  function Settle(l: Ledger, caseId: string, profile: Option<FlashProfile>, usage: TokenUsage,
                  latency: nat): (Ledger, Option<FailureCode>)
    requires caseId in l.cases
  {
    var l' := Charge(l, caseId, usage, latency);
    if usage.outputTokens > OutputCap(profile) || TotalTokens(l') > DOMAIN_MAX_TOKENS
       || CaseTokens(l'.cases[caseId]) > CASE_MAX_TOKENS
    then (StopProvider(l', TokenBudgetExhausted, None), Some(TokenBudgetExhausted))
    else (l', None)
  }

  function Latency(elapsed: int): nat {
    if elapsed < 0 then 0 else elapsed
  }

  /** What `chat` does with the inner provider's reply. */
  function Conclude(l: Ledger, caseId: string, profile: Option<FlashProfile>, reply: Reply): (Ledger, ChatOutcome)
    requires caseId in l.cases
  {
    match reply.answer
    case Fault(code, classified) => (StopProvider(l, classified, Some(code)), Raised)
    case Unexpected => (StopProvider(l, ProviderErrorUnknown, Some("unexpected_sdk_error")), Raised)
    case NotAResponse => (StopProvider(l, ProviderResponseInvalid, None), Blocked(ProviderResponseInvalid))
    case Response(r) =>
      if r.provider != PROVIDER_ID || r.model != MODEL
      then (StopProvider(l, ProviderResponseInvalid, None), Blocked(ProviderResponseInvalid))
      else
        var (l', failure) := Settle(l, caseId, profile, r.usage, Latency(reply.elapsed));
        (l', if failure.Some? then Blocked(failure.value) else Returned(r))
  }

  /** The call of the inner provider; the allowances are those the request was granted under. */
  function Deliver(l: Ledger, c: InnerCall): Ledger {
    l.(inner := l.inner + [c])
  }

  /** `chat`: the inner provider sees the prepared request, after it was counted. */
  function Chat(provider: Provider, l: Ledger, caseId: string, profile: Option<FlashProfile>, request: ChatRequest)
    : (r: (Ledger, ChatOutcome))
    requires caseId in l.cases
    ensures r.0.cases.Keys == l.cases.Keys
  {
    match Reserve(l, caseId, profile, request)
    case Refused(l', failure) => (l', Blocked(failure))
    case Granted(l', prepared) =>
      var call := InnerCall(caseId, prepared, Remaining(l, caseId), OutputCap(profile));
      Conclude(Deliver(l', call), caseId, profile, provider(l.calls, prepared))
  }

  // ----- the invariant -----

  function Sum(order: seq<string>, cases: map<string, CaseUse>, measure: CaseUse -> nat): nat
    requires forall id :: id in order ==> id in cases
  {
    if order == [] then 0
    else Sum(order[..|order| - 1], cases, measure) + measure(cases[order[|order| - 1]])
  }

  function CallsOf(u: CaseUse): nat { u.calls }
  function InputOf(u: CaseUse): nat { u.inputTokens }
  function OutputOf(u: CaseUse): nat { u.outputTokens }
  function LatencyOf(u: CaseUse): nat { u.latency }

  ghost predicate Totals(l: Ledger) {
    && Distinct(l.order) && (forall id :: id in l.order <==> id in l.cases)
    && l.calls == Sum(l.order, l.cases, CallsOf)
    && l.inputTokens == Sum(l.order, l.cases, InputOf)
    && l.outputTokens == Sum(l.order, l.cases, OutputOf)
    && l.latency == Sum(l.order, l.cases, LatencyOf)
  }

  function InnerCallsOf(inner: seq<InnerCall>, caseId: string): nat {
    if inner == [] then 0
    else InnerCallsOf(inner[..|inner| - 1], caseId) + if inner[|inner| - 1].caseId == caseId then 1 else 0
  }

  /** An inner call asked for at least one token and at most its output cap and what was left. */
  predicate WithinGrant(c: InnerCall) {
    && c.request.maxTokens.Some?
    && 1 <= c.request.maxTokens.value <= Min(c.cap, c.remaining)
    && c.remaining <= CASE_MAX_TOKENS
  }

  ghost predicate CallLimits(l: Ledger) {
    && |l.inner| == l.calls <= DOMAIN_MAX_CALLS
    && (forall id :: id in l.cases ==> InnerCallsOf(l.inner, id) == l.cases[id].calls <= CASE_MAX_CALLS)
    && (forall id :: id !in l.cases ==> InnerCallsOf(l.inner, id) == 0)
    && (forall i :: 0 <= i < |l.inner| ==> WithinGrant(l.inner[i]))
  }

  predicate StopCoherent(l: Ledger) {
    && (l.stopCode.Some? <==> l.providerStop.Some? || l.globalStop.Some?)
    && (l.stopCode.Some? ==> l.stopCode == l.globalStop || (l.providerStop.Some? && l.stopCode == Some(l.providerStop.value.failure)))
  }

  predicate WithinTokens(l: Ledger) {
    TotalTokens(l) <= DOMAIN_MAX_TOKENS && forall id :: id in l.cases ==> CaseTokens(l.cases[id]) <= CASE_MAX_TOKENS
  }

  ghost predicate Sound(l: Ledger) {
    && Totals(l) && CallLimits(l) && StopCoherent(l)
    && (l.stopCode.None? ==> WithinTokens(l))
  }

  // ----- preservation -----

  lemma {:induction false} SumUpdate(order: seq<string>, cases: map<string, CaseUse>, id: string, use: CaseUse,
                                     measure: CaseUse -> nat)
    requires Distinct(order) && (forall x :: x in order ==> x in cases) && id in cases
    ensures Sum(order, cases[id := use], measure)
         == Sum(order, cases, measure) + if id in order then measure(use) as int - measure(cases[id]) else 0
  {
    if order != [] {
      var n := |order| - 1;
      assert order == order[..n] + [order[n]];
      assert order[n] !in order[..n];
      SumUpdate(order[..n], cases, id, use, measure);
    }
  }

  lemma {:induction false} SumRegister(order: seq<string>, cases: map<string, CaseUse>, id: string, use: CaseUse,
                                       measure: CaseUse -> nat)
    requires (forall x :: x in order ==> x in cases) && id !in order
    ensures Sum(order, cases[id := use], measure) == Sum(order, cases, measure)
  {
    if order != [] {
      SumRegister(order[..|order| - 1], cases, id, use, measure);
    }
  }

  lemma {:induction false} StopProviderSound(l: Ledger, failure: FailureCode, code: Option<string>)
    requires Totals(l) && CallLimits(l) && StopCoherent(l)
    ensures Sound(StopProvider(l, failure, code))
  {
  }

  lemma {:induction false} StopGlobalSound(l: Ledger, failure: FailureCode)
    requires Sound(l)
    ensures Sound(StopGlobal(l, failure))
  {
  }

  lemma {:induction false} RegisterSound(l: Ledger, id: string)
    requires Sound(l) && id !in l.cases
    ensures Sound(Register(l, id))
  {
    RegisterTotals(l, id);
    RegisterLimits(l, id);
  }

  lemma {:induction false} RegisterTotals(l: Ledger, id: string)
    requires Totals(l) && id !in l.cases
    ensures Totals(Register(l, id))
  {
    var l' := Register(l, id);
    assert l'.order[..|l'.order| - 1] == l.order;
    SumRegister(l.order, l.cases, id, NO_USE, CallsOf);
    SumRegister(l.order, l.cases, id, NO_USE, InputOf);
    SumRegister(l.order, l.cases, id, NO_USE, OutputOf);
    SumRegister(l.order, l.cases, id, NO_USE, LatencyOf);
  }

  lemma {:induction false} RegisterLimits(l: Ledger, id: string)
    requires CallLimits(l) && id !in l.cases
    ensures CallLimits(Register(l, id))
  {
  }

  /** Replacing one case's use moves every total by the difference. */
  lemma {:induction false} TotalsUpdate(l: Ledger, id: string, use: CaseUse, l': Ledger)
    requires Totals(l) && id in l.cases && l'.order == l.order && l'.cases == l.cases[id := use]
    requires l'.calls == l.calls + use.calls - l.cases[id].calls
    requires l'.inputTokens == l.inputTokens + use.inputTokens - l.cases[id].inputTokens
    requires l'.outputTokens == l.outputTokens + use.outputTokens - l.cases[id].outputTokens
    requires l'.latency == l.latency + use.latency - l.cases[id].latency
    ensures Totals(l')
  {
    SumUpdate(l.order, l.cases, id, use, CallsOf);
    SumUpdate(l.order, l.cases, id, use, InputOf);
    SumUpdate(l.order, l.cases, id, use, OutputOf);
    SumUpdate(l.order, l.cases, id, use, LatencyOf);
  }

  lemma {:induction false} InnerAppend(inner: seq<InnerCall>, c: InnerCall, id: string)
    ensures InnerCallsOf(inner + [c], id) == InnerCallsOf(inner, id) + if c.caseId == id then 1 else 0
  {
    assert (inner + [c])[..|inner|] == inner;
  }

  /** Counting a granted call keeps the call limits. */
  lemma {:induction false} CountedCallLimits(l: Ledger, id: string, c: InnerCall, l': Ledger)
    requires CallLimits(l) && id in l.cases && c.caseId == id && WithinGrant(c)
    requires l.calls < DOMAIN_MAX_CALLS && l.cases[id].calls < CASE_MAX_CALLS
    requires l'.calls == l.calls + 1 && l'.inner == l.inner + [c]
    requires l'.cases == l.cases[id := l.cases[id].(calls := l.cases[id].calls + 1)]
    ensures CallLimits(l')
  {
    forall x ensures InnerCallsOf(l'.inner, x) == InnerCallsOf(l.inner, x) + if id == x then 1 else 0 {
      InnerAppend(l.inner, c, x);
    }
  }

  /** Usage does not touch the call limits. */
  lemma {:induction false} UsageLimits(l: Ledger, id: string, use: CaseUse, l': Ledger)
    requires CallLimits(l) && id in l.cases && use.calls == l.cases[id].calls
    requires l'.calls == l.calls && l'.inner == l.inner && l'.cases == l.cases[id := use]
    ensures CallLimits(l')
  {
  }

  lemma {:induction false} GrantWithinLimits(l: Ledger, caseId: string, profile: Option<FlashProfile>, request: ChatRequest)
    requires caseId in l.cases && Reserve(l, caseId, profile, request).Granted?
    ensures var r := Reserve(l, caseId, profile, request); var use := l.cases[caseId];
      && l.stopCode.None? && l.calls < DOMAIN_MAX_CALLS && use.calls < CASE_MAX_CALLS
      && r.ledger == l.(calls := l.calls + 1, cases := l.cases[caseId := use.(calls := use.calls + 1)])
      && WithinGrant(InnerCall(caseId, r.request, Remaining(l, caseId), OutputCap(profile)))
      && r.request.messages == request.messages && r.request.tools == request.tools
      && r.request.timeout <= request.timeout
      && (request.maxTokens.Some? ==> r.request.maxTokens.value <= request.maxTokens.value)
      && (profile.Some? ==> r.request.timeout <= profile.value.toolTimeout && r.request.temperature == profile.value.temperature)
  {
  }

  /** A granted request is counted but not yet delivered; delivering it makes the ledger sound again. */
  lemma {:induction false} ReserveSound(l: Ledger, caseId: string, profile: Option<FlashProfile>, request: ChatRequest)
    requires Sound(l) && caseId in l.cases
    ensures var r := Reserve(l, caseId, profile, request);
      && r.ledger.inner == l.inner && r.ledger.cases.Keys == l.cases.Keys && r.ledger.order == l.order
      && (r.Granted? ==>
            && l.stopCode.None? && r.ledger.stopCode.None?
            && Sound(Deliver(r.ledger, InnerCall(caseId, r.request, Remaining(l, caseId), OutputCap(profile)))))
      && (r.Refused? ==> Sound(r.ledger) && r.ledger.stopCode.Some?)
  {
    var r := Reserve(l, caseId, profile, request);
    if r.Granted? {
      GrantWithinLimits(l, caseId, profile, request);
      var call := InnerCall(caseId, r.request, Remaining(l, caseId), OutputCap(profile));
      GrantSound(l, caseId, call, Deliver(r.ledger, call));
    } else if l.stopCode.None? {
      StopProviderSound(l, r.failure, None);
    }
  }

  lemma {:induction false} GrantSound(l: Ledger, id: string, c: InnerCall, l': Ledger)
    requires Sound(l) && id in l.cases && c.caseId == id && WithinGrant(c)
    requires l.stopCode.None? && l.calls < DOMAIN_MAX_CALLS && l.cases[id].calls < CASE_MAX_CALLS
    requires l' == l.(calls := l.calls + 1, cases := l.cases[id := l.cases[id].(calls := l.cases[id].calls + 1)],
                      inner := l.inner + [c])
    ensures Sound(l')
  {
    TotalsUpdate(l, id, l.cases[id].(calls := l.cases[id].calls + 1), l');
    CountedCallLimits(l, id, c, l');
  }

  lemma {:induction false} ChargeKeeps(l: Ledger, caseId: string, usage: TokenUsage, latency: nat)
    requires Totals(l) && CallLimits(l) && StopCoherent(l) && caseId in l.cases
    ensures var l' := Charge(l, caseId, usage, latency); Totals(l') && CallLimits(l') && StopCoherent(l')
  {
    var use := AddUse(l.cases[caseId], usage, latency);
    TotalsUpdate(l, caseId, use, Charge(l, caseId, usage, latency));
    UsageLimits(l, caseId, use, Charge(l, caseId, usage, latency));
  }

  /** The ledger keeps its cases and its record of inner calls. */
  predicate SameCalls(l: Ledger, l': Ledger) {
    l'.cases.Keys == l.cases.Keys && l'.order == l.order && l'.inner == l.inner
  }

  lemma {:induction false} SettleSound(l: Ledger, caseId: string, profile: Option<FlashProfile>, usage: TokenUsage,
                                       latency: nat)
    requires Sound(l) && caseId in l.cases && l.stopCode.None?
    ensures var (l', failure) := Settle(l, caseId, profile, usage, latency);
      Sound(l') && (failure.Some? <==> l'.stopCode.Some?) && SameCalls(l, l')
  {
    ChargeKeeps(l, caseId, usage, latency);
    StopProviderSound(Charge(l, caseId, usage, latency), TokenBudgetExhausted, None);
  }

  lemma {:induction false} ConcludeSound(l: Ledger, caseId: string, profile: Option<FlashProfile>, reply: Reply)
    requires Sound(l) && caseId in l.cases && l.stopCode.None?
    ensures var (l', outcome) := Conclude(l, caseId, profile, reply);
      Sound(l') && SameCalls(l, l') && (outcome.Returned? <==> l'.stopCode.None?)
  {
    match reply.answer
    case Fault(code, classified) => StopProviderSound(l, classified, Some(code));
    case Unexpected => StopProviderSound(l, ProviderErrorUnknown, Some("unexpected_sdk_error"));
    case NotAResponse => StopProviderSound(l, ProviderResponseInvalid, None);
    case Response(r) =>
      StopProviderSound(l, ProviderResponseInvalid, None);
      SettleSound(l, caseId, profile, r.usage, Latency(reply.elapsed));
  }

  /**
   One chat call, on any sound ledger. A returned response leaves no stop; once a stop is
   set the ledger is frozen and nothing reaches the provider; at most one inner call is made.
   */
  lemma {:induction false} ChatSound(provider: Provider, l: Ledger, caseId: string, profile: Option<FlashProfile>,
                                     request: ChatRequest)
    requires Sound(l) && caseId in l.cases
    ensures var (l', outcome) := Chat(provider, l, caseId, profile, request);
      && Sound(l') && l'.order == l.order && l'.cases.Keys == l.cases.Keys
      && (outcome.Returned? <==> l'.stopCode.None?)
      && (l.stopCode.Some? ==> l' == l && outcome == Blocked(l.stopCode.value))
      && l.inner <= l'.inner && |l'.inner| <= |l.inner| + 1
  {
    ReserveSound(l, caseId, profile, request);
    var r := Reserve(l, caseId, profile, request);
    if r.Granted? {
      var call := InnerCall(caseId, r.request, Remaining(l, caseId), OutputCap(profile));
      ConcludeSound(Deliver(r.ledger, call), caseId, profile, provider(l.calls, r.request));
    }
  }

  // ----- any sequence of uses, by any callers -----

  datatype Action =
    | DoRegister(caseId: string)
    | DoChat(caseId: string, profile: Option<FlashProfile>, request: ChatRequest)
    | DoStopProvider(failure: FailureCode, code: Option<string>)
    | DoStopGlobal(failure: FailureCode)

  /** Registering twice and chatting for an unregistered case raise and change nothing. */
  function Perform(provider: Provider, l: Ledger, a: Action): Ledger {
    match a
    case DoRegister(id) => if id in l.cases then l else Register(l, id)
    case DoChat(id, profile, request) => if id in l.cases then Chat(provider, l, id, profile, request).0 else l
    case DoStopProvider(failure, code) => StopProvider(l, failure, code)
    case DoStopGlobal(failure) => StopGlobal(l, failure)
  }

  function PerformAll(provider: Provider, actions: seq<Action>): Ledger {
    if actions == [] then EMPTY_LEDGER
    else Perform(provider, PerformAll(provider, actions[..|actions| - 1]), actions[|actions| - 1])
  }

  /** After any actions the ledger is sound: totals are sums, calls and grants keep their limits. */
  lemma {:induction false} AlwaysSound(provider: Provider, actions: seq<Action>)
    ensures Sound(PerformAll(provider, actions))
  {
    if actions != [] {
      var front, a := actions[..|actions| - 1], actions[|actions| - 1];
      AlwaysSound(provider, front);
      var l := PerformAll(provider, front);
      match a {
        case DoRegister(id) => if id !in l.cases { RegisterSound(l, id); }
        case DoChat(id, profile, request) => if id in l.cases { ChatSound(provider, l, id, profile, request); }
        case DoStopProvider(failure, code) => StopProviderSound(l, failure, code);
        case DoStopGlobal(failure) => StopGlobalSound(l, failure);
      }
    }
  }

  /** Once a stop code is set, no later action changes it and no later action reaches the provider. */
  lemma {:induction false} StopIsFinal(provider: Provider, before: seq<Action>, after: seq<Action>)
    requires PerformAll(provider, before).stopCode.Some?
    ensures var l, l' := PerformAll(provider, before), PerformAll(provider, before + after);
      l'.stopCode == l.stopCode && l'.inner == l.inner && l'.calls == l.calls && TotalTokens(l') == TotalTokens(l)
  {
    if after == [] {
      assert before + after == before;
    } else {
      var front, a := after[..|after| - 1], after[|after| - 1];
      StopIsFinal(provider, before, front);
      assert (before + after)[..|before + after| - 1] == before + front;
      AlwaysSound(provider, before + front);
      var l := PerformAll(provider, before + front);
      if a.DoChat? && a.caseId in l.cases {
        ChatSound(provider, l, a.caseId, a.profile, a.request);
      }
    }
  }
}
