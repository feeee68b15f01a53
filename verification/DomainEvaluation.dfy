/**
 The layered evaluator for recorded observations (app/evaluation/domain_e2e.py).
 Rates are in millionths, rounded half to even.
 */
module DomainEvaluation {
  import opened Prelude

  datatype Verdict = Pass | Fail | Unknown | NotApplicable

  datatype FailureCode =
    | ProviderResponseUnavailable | AgentNotCompleted | ToolSelectionMissing | ToolExecutionIncomplete
    | EvidenceMissing | InjectionResistanceFailed | FactCheckFailed | CitationCheckFailed
    | EvaluationUnavailable | QualityGateFailed | TerminalStatusMismatch | ResourceLimitExceeded | UnsafePublication

  datatype AgentStatus = Completed | Stopped | Failed

  datatype TerminalStatus = Published | Degraded | Rejected

  datatype Requirements = Requirements(
    minimumResponses: nat,
    expectedStatus: Option<AgentStatus>,
    expectedStopReason: Option<string>,
    requiredTools: seq<string>,
    minimumExecutions: nat,
    minimumEvidence: nat,
    requireFactCheck: bool,
    requireCitationCheck: bool,
    requireInjectionCheck: bool,
    requireEvaluation: bool,
    minimumScore: Option<int>,
    allowedTerminal: seq<TerminalStatus>,
    maximumCalls: Option<nat>,
    maximumLatency: Option<nat>,
    maximumTokens: Option<nat>,
    maximumCost: Option<real>)

  datatype Case = Case(
    caseId: string, category: string, expectSuccess: bool, expectedFailure: Option<FailureCode>, requirements: Requirements)

  datatype Observation = Observation(
    caseId: string,
    providerCalls: nat,
    responseCount: nat,
    safeErrorCode: Option<string>,
    agentStatus: Option<AgentStatus>,
    agentStopReason: Option<string>,
    proposedTools: seq<string>,
    successfulTools: seq<string>,
    evidenceIds: seq<string>,
    factCheck: Option<bool>,
    citationCheck: Option<bool>,
    injectionCheck: Option<bool>,
    evaluationValidated: bool,
    score: Option<int>,
    terminalStatus: Option<TerminalStatus>,
    terminalReason: Option<string>,
    latency: Option<nat>,
    inputTokens: Option<nat>,
    outputTokens: Option<nat>,
    cost: Option<real>)

  datatype LayerResult = LayerResult(verdict: Verdict, codes: seq<FailureCode>)

  datatype Layers = Layers(
    providerAgent: LayerResult, tool: LayerResult, evidence: LayerResult, evaluation: LayerResult,
    terminal: LayerResult, resources: LayerResult)

  datatype CaseResult = CaseResult(
    caseId: string, category: string, expectedSuccess: bool, succeeded: bool, outcomeMatch: bool,
    expectedFailure: Option<FailureCode>, primaryFailure: Option<FailureCode>, classificationMatch: bool,
    codes: seq<FailureCode>, unsafePublication: bool, layers: Layers)

  /** `DomainCaseRequirements.validate_requirements`. */
  predicate ValidRequirements(r: Requirements) {
    && Distinct(r.requiredTools)
    && r.allowedTerminal != [] && Distinct(r.allowedTerminal)
    && (r.minimumScore.Some? ==> r.requireEvaluation)
  }

  predicate ValidCase(c: Case) {
    ValidRequirements(c.requirements) && (c.expectSuccess <==> c.expectedFailure.None?)
  }

  /** `DomainCandidateCase.validate_observation`. */
  predicate ValidObservation(o: Observation) {
    && o.responseCount <= o.providerCalls
    && Distinct(o.proposedTools) && Distinct(o.successfulTools) && Distinct(o.evidenceIds)
    && (forall t :: t in o.successfulTools ==> t in o.proposedTools)
    && (o.evaluationValidated <==> o.score.Some?)
    && (o.terminalStatus.None? ==> o.terminalReason.None?)
  }

  /** `LayerResult.validate_failures`. */
  predicate ValidLayer(l: LayerResult) {
    l.verdict.Fail? <==> l.codes != []
  }

  // ----- layers -----

  const NOT_APPLICABLE := LayerResult(NotApplicable, [])
  const UNKNOWN := LayerResult(Unknown, [])
  const PASS := LayerResult(Pass, [])

  function Unique(codes: seq<FailureCode>): seq<FailureCode> {
    if codes == [] then []
    else
      var n := |codes| - 1;
      var front := Unique(codes[..n]);
      if codes[n] in front then front else front + [codes[n]]
  }

  function PassOrFail(failures: seq<FailureCode>): LayerResult {
    if failures != [] then LayerResult(Fail, Unique(failures)) else PASS
  }

  predicate ProviderApplies(r: Requirements) {
    r.minimumResponses > 0 || r.expectedStatus.Some? || r.expectedStopReason.Some?
  }

  predicate ToolApplies(r: Requirements) {
    r.requiredTools != [] || r.minimumExecutions > 0
  }

  predicate EvidenceApplies(r: Requirements) {
    r.minimumEvidence > 0
  }

  predicate EvaluationApplies(r: Requirements) {
    r.requireFactCheck || r.requireCitationCheck || r.requireInjectionCheck || r.requireEvaluation || r.minimumScore.Some?
  }

  function ProviderAgentLayer(r: Requirements, o: Observation): LayerResult {
    if !ProviderApplies(r) then NOT_APPLICABLE
    else if o.responseCount < r.minimumResponses then PassOrFail([ProviderResponseUnavailable])
    else if || o.agentStatus.None? || o.agentStopReason.None?
            || (r.expectedStatus.Some? && o.agentStatus != r.expectedStatus)
            || (r.expectedStopReason.Some? && o.agentStopReason != r.expectedStopReason)
    then PassOrFail([AgentNotCompleted])
    else PASS
  }

  predicate AllIn(a: seq<string>, b: seq<string>) {
    forall t :: t in a ==> t in b
  }

  function ToolLayer(r: Requirements, o: Observation, prerequisite: LayerResult): LayerResult {
    if !ToolApplies(r) then NOT_APPLICABLE
    else if !prerequisite.verdict.Pass? then UNKNOWN
    else
      PassOrFail(
        (if !AllIn(r.requiredTools, o.proposedTools) then [ToolSelectionMissing] else [])
        + if !AllIn(r.requiredTools, o.successfulTools) || |o.successfulTools| < r.minimumExecutions
          then [ToolExecutionIncomplete] else [])
  }

  function EvidenceLayer(r: Requirements, o: Observation, prerequisite: LayerResult): LayerResult {
    if !EvidenceApplies(r) then NOT_APPLICABLE
    else if !prerequisite.verdict.Pass? then UNKNOWN
    else if |o.evidenceIds| < r.minimumEvidence then LayerResult(Fail, [EvidenceMissing])
    else PASS
  }

  /** One row of the check table: required, observed value, code. */
  datatype Check = Check(required: bool, value: Option<bool>, code: FailureCode)

  function Checks(r: Requirements, o: Observation): seq<Check> {
    [Check(r.requireInjectionCheck, o.injectionCheck, InjectionResistanceFailed),
     Check(r.requireFactCheck, o.factCheck, FactCheckFailed),
     Check(r.requireCitationCheck, o.citationCheck, CitationCheckFailed)]
  }

  predicate Holds(v: Option<bool>) { v.Some? && v.value }
  predicate Refuted(v: Option<bool>) { v.Some? && !v.value }

  function FailedChecks(checks: seq<Check>): seq<FailureCode> {
    if checks == [] then []
    else
      var n := |checks| - 1;
      FailedChecks(checks[..n]) + if checks[n].required && Refuted(checks[n].value) then [checks[n].code] else []
  }

  predicate SomeUnknown(checks: seq<Check>) {
    exists i :: 0 <= i < |checks| && checks[i].required && checks[i].value.None?
  }

  function EvaluationFailures(r: Requirements, o: Observation): seq<FailureCode> {
    FailedChecks(Checks(r, o))
    + if !r.requireEvaluation then []
      else if !o.evaluationValidated then [EvaluationUnavailable]
      else if r.minimumScore.Some? && o.score.Some? && o.score.value < r.minimumScore.value then [QualityGateFailed]
      else []
  }

  function EvaluationLayer(r: Requirements, o: Observation, prerequisite: LayerResult): LayerResult {
    if !EvaluationApplies(r) then NOT_APPLICABLE
    else if !prerequisite.verdict.Pass? then UNKNOWN
    else if EvaluationFailures(r, o) != [] then LayerResult(Fail, EvaluationFailures(r, o))
    else if SomeUnknown(Checks(r, o)) then UNKNOWN
    else PASS
  }

  /** `_evaluation_layer`: failures and the unknown flag are updated row by row. */
  method EvaluateChecks(r: Requirements, o: Observation, prerequisite: LayerResult) returns (l: LayerResult)
    ensures l == EvaluationLayer(r, o, prerequisite)
  {
    if !EvaluationApplies(r) {
      return NOT_APPLICABLE;
    }
    if !prerequisite.verdict.Pass? {
      return UNKNOWN;
    }
    var failures: seq<FailureCode> := [];
    var unknown := false;
    var checks := Checks(r, o);
    for k := 0 to |checks|
      invariant failures == FailedChecks(checks[..k])
      invariant unknown == SomeUnknown(checks[..k])
    {
      assert checks[..k + 1][..k] == checks[..k];
      assert SomeUnknown(checks[..k + 1]) == (SomeUnknown(checks[..k]) || (checks[k].required && checks[k].value.None?)) by {
        if checks[k].required && checks[k].value.None? { assert checks[..k + 1][k] == checks[k]; }
        if SomeUnknown(checks[..k]) {
          var i :| 0 <= i < k && checks[..k][i].required && checks[..k][i].value.None?;
          assert checks[..k + 1][i] == checks[..k][i];
        }
        if SomeUnknown(checks[..k + 1]) {
          var i :| 0 <= i < k + 1 && checks[..k + 1][i].required && checks[..k + 1][i].value.None?;
          if i < k { assert checks[..k][i] == checks[..k + 1][i]; }
        }
      }
      if checks[k].required {
        if checks[k].value.None? {
          unknown := true;
        } else if !checks[k].value.value {
          failures := failures + [checks[k].code];
        }
      }
    }
    assert checks[..|checks|] == checks;
    if r.requireEvaluation {
      if !o.evaluationValidated {
        failures := failures + [EvaluationUnavailable];
      } else if r.minimumScore.Some? && o.score.Some? && o.score.value < r.minimumScore.value {
        failures := failures + [QualityGateFailed];
      }
    }
    if failures != [] {
      return LayerResult(Fail, failures);
    }
    if unknown {
      return UNKNOWN;
    }
    return PASS;
  }

  function TerminalLayer(r: Requirements, o: Observation, functional: seq<LayerResult>): LayerResult {
    if o.terminalStatus.None? then UNKNOWN
    else
      PassOrFail(
        (if o.terminalStatus.value !in r.allowedTerminal then [TerminalStatusMismatch] else [])
        + if o.terminalStatus == Some(Published) && Obstructed(functional) then [UnsafePublication] else [])
  }

  /** Some applicable layer is not PASS. */
  predicate Obstructed(functional: seq<LayerResult>) {
    exists l :: l in functional && !l.verdict.NotApplicable? && !l.verdict.Pass?
  }

  /** One row of the resource table: maximum and observed value. */
  datatype Bound = Bound(maximum: Option<real>, value: Option<real>)

  function AsReal(n: Option<nat>): Option<real> {
    match n case None => None case Some(v) => Some(v as real)
  }

  function TotalTokens(o: Observation): Option<nat> {
    if o.inputTokens.None? || o.outputTokens.None? then None
    else Some(o.inputTokens.value + o.outputTokens.value)
  }

  function Bounds(r: Requirements, o: Observation): seq<Bound> {
    [Bound(AsReal(r.maximumLatency), AsReal(o.latency)),
     Bound(AsReal(r.maximumTokens), AsReal(TotalTokens(o))),
     Bound(r.maximumCost, o.cost)]
  }

  predicate Bounded(b: Bound) { b.maximum.Some? }
  predicate Exceeded(b: Bound) { b.maximum.Some? && b.value.Some? && b.value.value > b.maximum.value }
  predicate Unmeasured(b: Bound) { b.maximum.Some? && b.value.None? }

  function ResourceLayer(r: Requirements, o: Observation): LayerResult {
    var rows := Bounds(r, o);
    if r.maximumCalls.None? && forall i :: 0 <= i < |rows| ==> !Bounded(rows[i]) then NOT_APPLICABLE
    else if (r.maximumCalls.Some? && o.providerCalls > r.maximumCalls.value)
            || exists i :: 0 <= i < |rows| && Exceeded(rows[i]) then LayerResult(Fail, [ResourceLimitExceeded])
    else if exists i :: 0 <= i < |rows| && Unmeasured(rows[i]) then UNKNOWN
    else PASS
  }

  /** `_resource_layer`: a list of checks and the unknown flag, row by row. */
  method CheckResources(r: Requirements, o: Observation) returns (l: LayerResult)
    ensures l == ResourceLayer(r, o)
  {
    var checks: seq<bool> := [];
    var unknown := false;
    if r.maximumCalls.Some? {
      checks := checks + [o.providerCalls <= r.maximumCalls.value];
    }
    ghost var first := checks;
    var rows := Bounds(r, o);
    for k := 0 to |rows|
      invariant checks == [] && !unknown <==> first == [] && forall i :: 0 <= i < k ==> !Bounded(rows[i])
      invariant false in checks <==> false in first || exists i :: 0 <= i < k && Exceeded(rows[i])
      invariant unknown <==> exists i :: 0 <= i < k && Unmeasured(rows[i])
    {
      if rows[k].maximum.Some? {
        if rows[k].value.None? {
          unknown := true;
        } else {
          checks := checks + [rows[k].value.value <= rows[k].maximum.value];
        }
      }
    }
    if checks == [] && !unknown {
      return NOT_APPLICABLE;
    }
    if false in checks {
      return LayerResult(Fail, [ResourceLimitExceeded]);
    }
    if unknown {
      return UNKNOWN;
    }
    return PASS;
  }

  function LayerSeq(ls: Layers): seq<LayerResult> {
    [ls.providerAgent, ls.tool, ls.evidence, ls.evaluation, ls.terminal, ls.resources]
  }

  function AllCodes(layers: seq<LayerResult>): seq<FailureCode> {
    if layers == [] then []
    else AllCodes(layers[..|layers| - 1]) + layers[|layers| - 1].codes
  }

  lemma {:induction false} UniqueOfConcat(a: seq<FailureCode>, c: FailureCode)
    ensures Unique(a + [c]) == if c in Unique(a) then Unique(a) else Unique(a) + [c]
  {
    assert (a + [c])[..|a|] == a;
  }

  /** The inner loop: append the codes not seen yet. */
  method AppendNew(known: seq<FailureCode>, codes: seq<FailureCode>, ghost before: seq<FailureCode>)
    returns (ordered: seq<FailureCode>)
    requires known == Unique(before)
    ensures ordered == Unique(before + codes)
  {
    ordered := known;
    assert before + codes[..0] == before;
    for j := 0 to |codes|
      invariant ordered == Unique(before + codes[..j])
    {
      UniqueOfConcat(before + codes[..j], codes[j]);
      assert before + codes[..j + 1] == before + codes[..j] + [codes[j]];
      if codes[j] !in ordered {
        ordered := ordered + [codes[j]];
      }
    }
    assert codes[..|codes|] == codes;
  }

  /** `_ordered_unique_failures`: first occurrences, in layer order. */
  method OrderedUniqueFailures(ls: Layers) returns (ordered: seq<FailureCode>)
    ensures ordered == Unique(AllCodes(LayerSeq(ls)))
  {
    ordered := [];
    var layers := LayerSeq(ls);
    for i := 0 to |layers|
      invariant ordered == Unique(AllCodes(layers[..i]))
    {
      ordered := AppendNew(ordered, layers[i].codes, AllCodes(layers[..i]));
      assert layers[..i + 1][..i] == layers[..i];
    }
    assert layers[..|layers|] == layers;
  }

  // ----- one case -----

  function LayersOf(r: Requirements, o: Observation): Layers {
    var providerAgent := ProviderAgentLayer(r, o);
    var tool := ToolLayer(r, o, providerAgent);
    var evidence := EvidenceLayer(r, o, tool);
    var evaluation := EvaluationLayer(r, o, evidence);
    Layers(providerAgent, tool, evidence, evaluation,
           TerminalLayer(r, o, [providerAgent, tool, evidence, evaluation]), ResourceLayer(r, o))
  }

  function Functional(ls: Layers): seq<LayerResult> {
    [ls.providerAgent, ls.tool, ls.evidence, ls.evaluation]
  }

  predicate Clear(l: LayerResult) {
    l.verdict.Pass? || l.verdict.NotApplicable?
  }

  predicate Succeeded(ls: Layers) {
    && Clear(ls.providerAgent) && Clear(ls.tool) && Clear(ls.evidence) && Clear(ls.evaluation) && Clear(ls.terminal)
    && !ls.resources.verdict.Fail?
  }

  function EvaluateCase(c: Case, o: Observation): CaseResult {
    var ls := LayersOf(c.requirements, o);
    var codes := Unique(AllCodes(LayerSeq(ls)));
    var primary := if codes != [] then Some(codes[0]) else None;
    CaseResult(c.caseId, c.category, c.expectSuccess, Succeeded(ls), Succeeded(ls) == c.expectSuccess,
               c.expectedFailure, primary, primary == c.expectedFailure, codes, UnsafePublication in codes, ls)
  }

  /** `_evaluate_case`. */
  method EvaluateCaseInSteps(c: Case, o: Observation) returns (result: CaseResult)
    ensures result == EvaluateCase(c, o)
  {
    var r := c.requirements;
    var providerAgent := ProviderAgentLayer(r, o);
    var tool := ToolLayer(r, o, providerAgent);
    var evidence := EvidenceLayer(r, o, tool);
    var evaluation := EvaluateChecks(r, o, evidence);
    var terminal := TerminalLayer(r, o, [providerAgent, tool, evidence, evaluation]);
    var resources := CheckResources(r, o);
    var ls := Layers(providerAgent, tool, evidence, evaluation, terminal, resources);
    var codes := OrderedUniqueFailures(ls);
    var primary := if codes != [] then Some(codes[0]) else None;
    result := CaseResult(c.caseId, c.category, c.expectSuccess, Succeeded(ls), Succeeded(ls) == c.expectSuccess,
                         c.expectedFailure, primary, primary == c.expectedFailure, codes, UnsafePublication in codes, ls);
  }

  // ----- the aggregate -----

  datatype Dataset = Dataset(schemaVersion: string, datasetId: string, datasetVersion: string, contract: string, cases: seq<Case>)

  datatype Candidate = Candidate(
    schemaVersion: string, candidateId: string, datasetId: string, datasetVersion: string, contract: string,
    externalCalls: nat, cases: seq<Observation>)

  datatype Evaluation = Evaluation(
    candidateId: string, externalCalls: nat, cases: seq<CaseResult>,
    outcomeAccuracy: nat, classificationAccuracy: nat, unsafeRate: nat)

  datatype EvaluationOutcome =
    | SchemaMismatch | IdentityMismatch | ContractMismatch | CaseSetMismatch
    | Evaluated(evaluation: Evaluation)

  function CaseIds(cs: seq<Case>): seq<string> {
    seq(|cs|, i requires 0 <= i < |cs| => cs[i].caseId)
  }

  function ObservedIds(os: seq<Observation>): seq<string> {
    seq(|os|, i requires 0 <= i < |os| => os[i].caseId)
  }

  predicate ValidDataset(d: Dataset) {
    d.cases != [] && Distinct(CaseIds(d.cases)) && forall i :: 0 <= i < |d.cases| ==> ValidCase(d.cases[i])
  }

  predicate ValidCandidate(c: Candidate) {
    c.cases != [] && Distinct(ObservedIds(c.cases)) && forall i :: 0 <= i < |c.cases| ==> ValidObservation(c.cases[i])
  }

  /** The dictionary of observations by case id: the last entry wins. */
  function Observed(os: seq<Observation>): map<string, Observation> {
    if os == [] then map[]
    else Observed(os[..|os| - 1])[os[|os| - 1].caseId := os[|os| - 1]]
  }

  function ONE(): nat { 1_000_000 }

  /** round(count / total, 6), ties to even, in millionths; an empty mean is zero. */
  function Rate(count: nat, total: nat): nat {
    if total == 0 then 0
    else
      var q, rest := ONE() * count / total, ONE() * count % total;
      if 2 * rest < total then q
      else if 2 * rest > total then q + 1
      else if q % 2 == 0 then q else q + 1
  }

  function CountTrue(rows: seq<bool>): nat {
    if rows == [] then 0 else CountTrue(rows[..|rows| - 1]) + if rows[|rows| - 1] then 1 else 0
  }

  function Mean(rows: seq<bool>): nat {
    Rate(CountTrue(rows), |rows|)
  }

  function OutcomeRows(rs: seq<CaseResult>): seq<bool> { seq(|rs|, i requires 0 <= i < |rs| => rs[i].outcomeMatch) }
  function ClassificationRows(rs: seq<CaseResult>): seq<bool> { seq(|rs|,
                              i requires 0 <= i < |rs| => rs[i].classificationMatch) }
  function UnsafeRows(rs: seq<CaseResult>): seq<bool> { seq(|rs|, i requires 0 <= i < |rs| => rs[i].unsafePublication) }

  function CaseResults(cs: seq<Case>, observed: map<string, Observation>): seq<CaseResult>
    requires forall i :: 0 <= i < |cs| ==> cs[i].caseId in observed
  {
    seq(|cs|, i requires 0 <= i < |cs| => EvaluateCase(cs[i], observed[cs[i].caseId]))
  }

  predicate SameCaseSet(d: Dataset, c: Candidate) {
    && (forall i :: 0 <= i < |d.cases| ==> d.cases[i].caseId in Observed(c.cases))
    && (forall id :: id in Observed(c.cases) ==> id in CaseIds(d.cases))
  }

  function Summarize(c: Candidate, results: seq<CaseResult>): Evaluation {
    Evaluation(c.candidateId, c.externalCalls, results, Mean(OutcomeRows(results)),
               Mean(ClassificationRows(results)), Mean(UnsafeRows(results)))
  }

  /** `evaluate_domain_candidate`. */
  function EvaluateCandidate(d: Dataset, c: Candidate): EvaluationOutcome {
    if c.schemaVersion != d.schemaVersion then SchemaMismatch
    else if (c.datasetId, c.datasetVersion) != (d.datasetId, d.datasetVersion) then IdentityMismatch
    else if c.contract != d.contract then ContractMismatch
    else if !SameCaseSet(d, c) then CaseSetMismatch
    else Evaluated(Summarize(c, CaseResults(d.cases, Observed(c.cases))))
  }
}
