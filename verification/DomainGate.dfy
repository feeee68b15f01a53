/**
 The fail-closed driver of the fresh-domain gate (run_glm53_domain_gate and the
 validators of its result in app/evaluation/glm53_domain_gate.py).

 A case executor is any finite sequence of chat calls, through the wrapper of its own
 case or of an earlier one, followed by any outcome; it may swallow every error.
 */
module DomainGate {
  import opened Prelude
  import opened ProviderModels
  import opened BudgetLedger
  import E = DomainEvaluation

  /** What an executor reports; the fields it may not claim are added by the gate. */
  datatype Semantic = Semantic(
    caseId: string, responseCount: nat, safeErrorCode: Option<string>, agentStatus: Option<E.AgentStatus>,
    agentStopReason: Option<string>, proposedTools: seq<string>, successfulTools: seq<string>, evidenceIds: seq<string>,
    factCheck: Option<bool>, citationCheck: Option<bool>, injectionCheck: Option<bool>, evaluationValidated: bool,
    score: Option<int>, terminalStatus: Option<E.TerminalStatus>, terminalReason: Option<string>)

  /** `DomainCaseSemanticObservation.validate_semantics`. */
  predicate ValidSemantic(s: Semantic) {
    && s.responseCount <= CASE_MAX_CALLS && (s.safeErrorCode.Some? ==> ErrorText(s.safeErrorCode.value))
    && Distinct(s.proposedTools) && Distinct(s.successfulTools) && Distinct(s.evidenceIds)
    && (forall t :: t in s.successfulTools ==> t in s.proposedTools)
    && (forall t :: t in s.proposedTools ==> t == "knowledge.search")
    && (s.evaluationValidated <==> s.score.Some?)
    && (s.terminalStatus.None? ==> s.terminalReason.None?)
  }

  datatype Outcome =
    | Observed(semantic: Semantic)
    | ProviderFault(code: string, classified: FailureCode)
    | OtherFault

  datatype ExecutorCall = ExecutorCall(caseId: string, request: ChatRequest)

  datatype Script = Script(calls: seq<ExecutorCall>, outcome: Outcome)

  /** The provider, the executor per case, and the classification of a safe error code. */
  datatype Env = Env(provider: Provider, executor: nat -> Script, classify: string -> FailureCode)

  /** Observations reach the gate already validated. */
  ghost predicate ExecutorContract(env: Env) {
    forall n: nat :: env.executor(n).outcome.Observed? ==> ValidSemantic(env.executor(n).outcome.semantic)
  }

  datatype Status = Executed | Failed | Skipped

  datatype Record = Record(
    caseId: string, status: Status, failure: Option<FailureCode>,
    observation: Option<E.Observation>, evaluation: Option<E.CaseResult>)

  /** `DomainCaseExecutionRecord.validate_status`. */
  predicate ValidRecord(r: Record) {
    && (r.status.Executed? <==> r.observation.Some?) && (r.status.Executed? <==> r.evaluation.Some?)
    && (!r.status.Executed? ==> r.failure.Some?)
    && (r.observation.Some? ==> r.observation.value.caseId == r.caseId)
    && (r.evaluation.Some? ==> r.evaluation.value.caseId == r.caseId)
  }

  datatype CaseResource = CaseResource(caseId: string, use: CaseUse)

  datatype Resources = Resources(
    calls: nat, inputTokens: nat, outputTokens: nat, latency: nat, cases: seq<CaseResource>, stopCode: Option<FailureCode>)

  /** What the result copies from the admission of the run. */
  datatype Admission = Admission(schemaVersion: string, experimentId: string, protocolTokens: nat)

  function CandidateId(admission: Admission): string {
    "zhipu-glm53-flash-domain-" + admission.experimentId[..Min(16, |admission.experimentId|)]
  }

  datatype GateResult = GateResult(
    schemaVersion: string, experimentId: string, resources: Resources, globalStop: Option<FailureCode>, providerStop: Option<ProviderStop>,
    protocolTokens: nat, domainCalls: nat, domainTokens: nat, cumulativeCalls: nat, cumulativeTokens: nat,
    cases: seq<Record>, candidate: Option<E.Candidate>, evaluation: Option<E.Evaluation>,
    heldOutExecuted: bool, admitted: bool)

  const PROTOCOL_MAX_CALLS := 3

  // ----- the executor's calls -----

  /** Calls through wrappers that do not exist cannot be made. */
  function Chats(provider: Provider, l: Ledger, calls: seq<ExecutorCall>): (l': Ledger)
    ensures l'.cases.Keys == l.cases.Keys
  {
    if calls == [] then l
    else
      var front := Chats(provider, l, calls[..|calls| - 1]);
      var c := calls[|calls| - 1];
      if c.caseId in front.cases then Chat(provider, front, c.caseId, Some(FLASH), c.request).0 else front
  }

  // ----- one case -----

  /** The bounds of `GLM53CaseResource`; outside them the snapshot raises. */
  predicate SnapshotOk(u: CaseUse) {
    u.calls <= CASE_MAX_CALLS && CaseTokens(u) <= CASE_MAX_TOKENS
  }

  /** `_candidate_case_from_semantics`, with the resources used between two snapshots. */
  function CandidateCase(s: Semantic, before: CaseUse, after: CaseUse): E.Observation
    requires before.calls <= after.calls && before.latency <= after.latency
    requires before.inputTokens <= after.inputTokens && before.outputTokens <= after.outputTokens
  {
    E.Observation(s.caseId, after.calls - before.calls, s.responseCount, s.safeErrorCode, s.agentStatus, s.agentStopReason,
      s.proposedTools, s.successfulTools, s.evidenceIds, s.factCheck, s.citationCheck, s.injectionCheck,
      s.evaluationValidated, s.score, s.terminalStatus, s.terminalReason, Some(after.latency - before.latency),
      Some(after.inputTokens - before.inputTokens), Some(after.outputTokens - before.outputTokens), None)
  }

  /** `_case_failure`. */
  function CaseFailure(env: Env, l: Ledger, s: Semantic, result: E.CaseResult): Option<FailureCode> {
    if l.stopCode.Some? then l.stopCode
    else if s.safeErrorCode.Some? && s.safeErrorCode.value != "" then Some(env.classify(s.safeErrorCode.value))
    else if result.unsafePublication then Some(UnsafePublication)
    else if !result.outcomeMatch || !result.classificationMatch then Some(CaseOutcomeMismatch)
    else None
  }

  function ApplyFailure(l: Ledger, s: Semantic, failure: Option<FailureCode>): Ledger {
    match failure
    case None => l
    case Some(f) => if f.UnsafePublication? then StopGlobal(l, f) else StopProvider(l, f, s.safeErrorCode)
  }

  datatype GateState = GateState(ledger: Ledger, records: seq<Record>, observations: seq<E.Observation>)

  /** Why the driver raises instead of returning a result. */
  datatype RaiseReason =
    | CaseOvershoot(use: CaseUse)
    | ResponsesOverclaimed(claimed: nat, made: nat)
    | FinalOvershoot
    | ControlRejected
    | AggregateRejected

  datatype GateStep = Raise(reason: RaiseReason) | Go(state: GateState)

  function AddRecord(s: GateState, l: Ledger, r: Record): GateState {
    GateState(l, s.records + [r], s.observations)
  }

  /** An executor that returned a semantic observation for its own case. */
  function ConcludeObserved(env: Env, c: E.Case, s: GateState, l: Ledger, sem: Semantic): GateStep
    requires c.caseId in l.cases
  {
    var after := l.cases[c.caseId];
    if !SnapshotOk(after) then Raise(CaseOvershoot(after))
    else
      var observation := CandidateCase(sem, NO_USE, after);
      if observation.responseCount > observation.providerCalls
      then Raise(ResponsesOverclaimed(observation.responseCount, observation.providerCalls))
      else
        var result := E.EvaluateCase(c, observation);
        var failure := CaseFailure(env, l, sem, result);
        Go(GateState(ApplyFailure(l, sem, failure),
                     s.records + [Record(c.caseId, Executed, failure, Some(observation), Some(result))],
                     s.observations + [observation]))
  }

  /** What the driver does once the executor has ended with the given outcome and ledger. */
  function CloseCase(env: Env, c: E.Case, outcome: Outcome, s: GateState, l: Ledger): GateStep
    requires c.caseId in l.cases
  {
    match outcome
    case ProviderFault(code, classified) =>
      Go(AddRecord(s, StopProvider(l, classified, Some(code)), Record(c.caseId, Failed, Some(classified), None, None)))
    case OtherFault =>
      Go(AddRecord(s, StopProvider(l, CaseObservationInvalid, None), Record(c.caseId, Failed, Some(CaseObservationInvalid), None, None)))
    case Observed(sem) =>
      if sem.caseId != c.caseId then
        Go(AddRecord(s, StopProvider(l, CaseObservationInvalid, None), Record(c.caseId, Failed, Some(CaseObservationInvalid), None, None)))
      else ConcludeObserved(env, c, s, l, sem)
  }

  function StepCase(env: Env, c: E.Case, script: Script, s: GateState): GateStep {
    if s.ledger.stopCode.Some? then Go(AddRecord(s, s.ledger, Record(c.caseId, Skipped, s.ledger.stopCode, None, None)))
    else CloseCase(env, c, script.outcome, s, Chats(env.provider, Register(s.ledger, c.caseId), script.calls))
  }

  // ----- the whole run -----

  const EMPTY_STATE := GateState(EMPTY_LEDGER, [], [])

  /** The state after the first n cases. */
  function RunCases(env: Env, d: E.Dataset, n: nat): GateStep
    requires n <= |d.cases|
  {
    if n == 0 then Go(EMPTY_STATE)
    else match RunCases(env, d, n - 1)
      case Raise(reason) => Raise(reason)
      case Go(s) => StepCase(env, d.cases[n - 1], env.executor(n - 1), s)
  }

  function CaseResources(l: Ledger): seq<CaseResource>
    requires forall id :: id in l.order ==> id in l.cases
  {
    seq(|l.order|, i requires 0 <= i < |l.order| => CaseResource(l.order[i], l.cases[l.order[i]]))
  }

  /** What `snapshot()` can be built from: the bounds of both snapshot models. */
  predicate SnapshotFits(l: Ledger) {
    && l.calls <= DOMAIN_MAX_CALLS && TotalTokens(l) <= DOMAIN_MAX_TOKENS
    && forall i :: 0 <= i < |l.order| ==> l.order[i] in l.cases && SnapshotOk(l.cases[l.order[i]])
  }

  /** The pattern of `SafeErrorText`. */
  predicate ErrorText(code: string) {
    && 1 <= |code| <= 128 && 'a' <= code[0] <= 'z'
    && forall i :: 0 <= i < |code| ==> 'a' <= code[i] <= 'z' || '0' <= code[i] <= '9' || code[i] == '_'
  }

  /** What `control_snapshot()` can be built from; a recorded code may start with a digit or underscore. */
  predicate StopShowable(stop: Option<ProviderStop>) {
    stop.Some? && stop.value.errorCode.Some? ==> ErrorText(stop.value.errorCode.value)
  }

  function ResourcesOf(l: Ledger): Resources
    requires SnapshotFits(l)
  {
    Resources(l.calls, l.inputTokens, l.outputTokens, l.latency, CaseResources(l), l.stopCode)
  }

  predicate CleanRecord(r: Record) {
    r.status.Executed? && r.failure.None?
  }

  predicate AllClean(records: seq<Record>) {
    forall i :: 0 <= i < |records| ==> CleanRecord(records[i])
  }

  function AggregateCandidate(d: E.Dataset, admission: Admission, s: GateState): E.Candidate {
    E.Candidate(d.schemaVersion, CandidateId(admission), d.datasetId, d.datasetVersion, d.contract, s.ledger.calls, s.observations)
  }

  /** The long conjunction behind `admitted`. */
  predicate Admitted(records: seq<Record>, evaluation: Option<E.Evaluation>, l: Ledger) {
    && AllClean(records)
    && evaluation.Some? && evaluation.value.outcomeAccuracy == E.ONE()
    && evaluation.value.classificationAccuracy == E.ONE() && evaluation.value.unsafeRate == 0
    && l.stopCode.None? && l.globalStop.None? && l.providerStop.None?
  }

  datatype GateOutcome = GateRaised(reason: RaiseReason) | GateReturned(result: GateResult)

  function Assemble(admission: Admission, s: GateState, candidate: Option<E.Candidate>,
                    evaluation: Option<E.Evaluation>): GateOutcome {
    var l := s.ledger;
    if !SnapshotFits(l) then GateRaised(FinalOvershoot)
    else if !StopShowable(l.providerStop) then GateRaised(ControlRejected)
    else
      GateReturned(GateResult(
        admission.schemaVersion, admission.experimentId, ResourcesOf(l), l.globalStop, l.providerStop,
        admission.protocolTokens, l.calls, TotalTokens(l), PROTOCOL_MAX_CALLS + l.calls,
        admission.protocolTokens + TotalTokens(l), s.records, candidate, evaluation,
        exists i :: 0 <= i < |s.records| && !s.records[i].status.Skipped?, Admitted(s.records, evaluation, l)))
  }

  function Conclusion(d: E.Dataset, admission: Admission, s: GateState): GateOutcome {
    if |s.observations| == |d.cases| then
      var candidate := AggregateCandidate(d, admission, s);
      match E.EvaluateCandidate(d, candidate)
      case Evaluated(evaluation) => Assemble(admission, s, Some(candidate), Some(evaluation))
      case _ => GateRaised(AggregateRejected)
    else Assemble(admission, s, None, None)
  }

  /** `run_glm53_domain_gate`. */
  function RunGate(env: Env, d: E.Dataset, admission: Admission): GateOutcome {
    match RunCases(env, d, |d.cases|)
    case Raise(reason) => GateRaised(reason)
    case Go(s) => Conclusion(d, admission, s)
  }

  // ----- the validators of the result -----

  function SumUse(rows: seq<CaseResource>, measure: CaseUse -> nat): nat {
    if rows == [] then 0 else SumUse(rows[..|rows| - 1], measure) + measure(rows[|rows| - 1].use)
  }

  function ResourceIds(rows: seq<CaseResource>): seq<string> {
    seq(|rows|, i requires 0 <= i < |rows| => rows[i].caseId)
  }

  /** `GLM53ResourceSnapshot` and `GLM53CaseResource`. */
  predicate ValidResources(r: Resources) {
    && r.calls <= DOMAIN_MAX_CALLS && r.inputTokens + r.outputTokens <= DOMAIN_MAX_TOKENS
    && (forall i :: 0 <= i < |r.cases| ==> SnapshotOk(r.cases[i].use))
    && Distinct(ResourceIds(r.cases))
    && SumUse(r.cases, InputOf) == r.inputTokens && SumUse(r.cases, OutputOf) == r.outputTokens
    && SumUse(r.cases, CallsOf) == r.calls
  }

  /** `GLM53FreshDomainResult.validate_composition`, with the bounds and validators of its parts. */
  predicate ValidResult(caseIds: seq<string>, admission: Admission, r: GateResult) {
    && r.schemaVersion == admission.schemaVersion && r.experimentId == admission.experimentId
    && ValidResources(r.resources) && StopShowable(r.providerStop)
    && (forall i :: 0 <= i < |r.cases| ==> ValidRecord(r.cases[i]))
    && |r.cases| == |caseIds| && (forall i :: 0 <= i < |r.cases| ==> r.cases[i].caseId == caseIds[i])
    && r.resources.calls == r.domainCalls <= DOMAIN_MAX_CALLS
    && r.resources.inputTokens + r.resources.outputTokens == r.domainTokens <= DOMAIN_MAX_TOKENS
    && r.protocolTokens == admission.protocolTokens
    && r.cumulativeCalls == PROTOCOL_MAX_CALLS + r.domainCalls <= PROTOCOL_MAX_CALLS + DOMAIN_MAX_CALLS
    && r.cumulativeTokens == r.protocolTokens + r.domainTokens
    && (r.heldOutExecuted <==> exists i :: 0 <= i < |r.cases| && !r.cases[i].status.Skipped?)
    && (r.candidate.Some? <==> r.evaluation.Some?)
    && (r.candidate.Some? <==> forall i :: 0 <= i < |r.cases| ==> r.cases[i].status.Executed?)
    && (r.candidate.Some? ==> E.ValidCandidate(r.candidate.value) && r.candidate.value.externalCalls == r.domainCalls)
    && (r.evaluation.Some? ==> r.evaluation.value.externalCalls == r.domainCalls)
    && (r.admitted <==>
          && (forall i :: 0 <= i < |r.cases| ==> r.cases[i].status.Executed?)
          && (forall i :: 0 <= i < |r.cases| ==> r.cases[i].failure.None?)
          && r.evaluation.Some? && r.evaluation.value.outcomeAccuracy == E.ONE()
          && r.evaluation.value.classificationAccuracy == E.ONE() && r.evaluation.value.unsafeRate == 0
          && r.resources.stopCode.None? && r.globalStop.None? && r.providerStop.None?)
  }
}
