/**
 The evaluator's verdicts in terms of what a case requires and what was observed: when a
 case succeeds, when each layer passes, fails or stays open, and with which codes.
 The predicates below speak of fields only.
 */
module DomainEvaluationMeaning {
  import opened Prelude
  import opened DomainEvaluation
  import opened DomainEvaluationTheorems

  // ----- what is asked, and whether it is met -----

  predicate AsksProvider(r: Requirements) {
    r.minimumResponses != 0 || r.expectedStatus != None || r.expectedStopReason != None
  }

  predicate AsksTool(r: Requirements) {
    |r.requiredTools| != 0 || r.minimumExecutions != 0
  }

  predicate AsksEvidence(r: Requirements) {
    r.minimumEvidence != 0
  }

  predicate AsksEvaluation(r: Requirements) {
    r.requireInjectionCheck || r.requireFactCheck || r.requireCitationCheck || r.requireEvaluation || r.minimumScore != None
  }

  /** The agent ended, as expected where something is expected. */
  predicate AgentEnded(r: Requirements, o: Observation) {
    && o.agentStatus != None && (r.expectedStatus != None ==> r.expectedStatus == o.agentStatus)
    && o.agentStopReason != None && (r.expectedStopReason != None ==> r.expectedStopReason == o.agentStopReason)
  }

  predicate ToolsProposed(r: Requirements, o: Observation) {
    forall i :: 0 <= i < |r.requiredTools| ==> r.requiredTools[i] in o.proposedTools
  }

  predicate ToolsExecuted(r: Requirements, o: Observation) {
    && (forall i :: 0 <= i < |r.requiredTools| ==> r.requiredTools[i] in o.successfulTools)
    && |o.successfulTools| >= r.minimumExecutions
  }

  /** Every demanded check came out positive. */
  predicate ChecksPositive(r: Requirements, o: Observation) {
    && (r.requireInjectionCheck ==> o.injectionCheck == Some(true))
    && (r.requireFactCheck ==> o.factCheck == Some(true))
    && (r.requireCitationCheck ==> o.citationCheck == Some(true))
  }

  /** A demanded evaluation is validated and, where both are known, reaches the minimum score. */
  predicate QualityReached(r: Requirements, o: Observation) {
    r.requireEvaluation ==>
      && o.evaluationValidated
      && (r.minimumScore != None && o.score != None ==> o.score.value >= r.minimumScore.value)
  }

  predicate PassesProvider(r: Requirements, o: Observation) {
    AsksProvider(r) && o.responseCount >= r.minimumResponses && AgentEnded(r, o)
  }

  predicate PassesTool(r: Requirements, o: Observation) {
    PassesProvider(r, o) && AsksTool(r) && ToolsProposed(r, o) && ToolsExecuted(r, o)
  }

  predicate PassesEvidence(r: Requirements, o: Observation) {
    PassesTool(r, o) && AsksEvidence(r) && |o.evidenceIds| >= r.minimumEvidence
  }

  predicate PassesEvaluation(r: Requirements, o: Observation) {
    PassesEvidence(r, o) && AsksEvaluation(r) && ChecksPositive(r, o) && QualityReached(r, o)
  }

  predicate TooManyCalls(r: Requirements, o: Observation) {
    r.maximumCalls != None && o.providerCalls > r.maximumCalls.value
  }

  predicate TooSlow(r: Requirements, o: Observation) {
    r.maximumLatency != None && o.latency != None && o.latency.value > r.maximumLatency.value
  }

  predicate TooManyTokens(r: Requirements, o: Observation) {
    && r.maximumTokens != None && o.inputTokens != None && o.outputTokens != None
    && o.inputTokens.value + o.outputTokens.value > r.maximumTokens.value
  }

  predicate TooExpensive(r: Requirements, o: Observation) {
    r.maximumCost != None && o.cost != None && o.cost.value > r.maximumCost.value
  }

  predicate OverMaximum(r: Requirements, o: Observation) {
    TooManyCalls(r, o) || TooSlow(r, o) || TooManyTokens(r, o) || TooExpensive(r, o)
  }

  // ----- each layer -----

  /** A verdict and its codes, by the condition for each verdict. */
  predicate Decided(l: LayerResult, asked: bool, passes: bool, codes: seq<FailureCode>) {
    && (l.verdict.NotApplicable? <==> !asked)
    && (l.verdict.Pass? <==> asked && passes)
    && (l.verdict.Fail? <==> codes != [])
    && l.codes == codes
  }

  function ProviderCodes(r: Requirements, o: Observation): seq<FailureCode> {
    if !AsksProvider(r) then []
    else if o.responseCount < r.minimumResponses then [ProviderResponseUnavailable]
    else if !AgentEnded(r, o) then [AgentNotCompleted] else []
  }

  lemma {:induction false} ProviderDecided(r: Requirements, o: Observation)
    ensures Decided(LayersOf(r, o).providerAgent, AsksProvider(r), PassesProvider(r, o), ProviderCodes(r, o))
  {
    UniqueOfOne(ProviderResponseUnavailable);
    UniqueOfOne(AgentNotCompleted);
  }

  lemma {:induction false} UniqueOfOne(c: FailureCode)
    ensures Unique([c]) == [c]
  {
    assert [c][..0] == [];
  }

  function ToolCodes(r: Requirements, o: Observation): seq<FailureCode> {
    if !AsksTool(r) || !PassesProvider(r, o) then []
    else
      If(!ToolsProposed(r, o), ToolSelectionMissing) + If(!ToolsExecuted(r, o), ToolExecutionIncomplete)
  }

  lemma {:induction false} ToolDecided(r: Requirements, o: Observation)
    ensures Decided(LayersOf(r, o).tool, AsksTool(r), PassesTool(r, o), ToolCodes(r, o))
  {
    ProviderDecided(r, o);
    ToolsInFields(r, o);
    UniqueOfOne(ToolSelectionMissing);
    UniqueOfOne(ToolExecutionIncomplete);
    UniqueOfTwo(ToolSelectionMissing, ToolExecutionIncomplete);
  }

  lemma {:induction false} UniqueOfTwo(a: FailureCode, b: FailureCode)
    requires a != b
    ensures Unique([a] + [b]) == [a] + [b]
  {
    UniqueOfOne(a);
    UniqueOfConcat([a], b);
  }

  lemma {:induction false} ToolsInFields(r: Requirements, o: Observation)
    ensures AllIn(r.requiredTools, o.proposedTools) <==> ToolsProposed(r, o)
    ensures AllIn(r.requiredTools, o.successfulTools) && |o.successfulTools| >= r.minimumExecutions <==> ToolsExecuted(r, o)
  {
  }

  function EvidenceCodes(r: Requirements, o: Observation): seq<FailureCode> {
    if AsksEvidence(r) && PassesTool(r, o) && |o.evidenceIds| < r.minimumEvidence then [EvidenceMissing] else []
  }

  lemma {:induction false} EvidenceDecided(r: Requirements, o: Observation)
    ensures Decided(LayersOf(r, o).evidence, AsksEvidence(r), PassesEvidence(r, o), EvidenceCodes(r, o))
  {
    ToolDecided(r, o);
  }

  /** The codes of refuted checks and of a missing or too low evaluation, in this order. */
  function CheckCodes(r: Requirements, o: Observation): seq<FailureCode> {
    If(r.requireInjectionCheck && o.injectionCheck == Some(false), InjectionResistanceFailed)
    + If(r.requireFactCheck && o.factCheck == Some(false), FactCheckFailed)
    + If(r.requireCitationCheck && o.citationCheck == Some(false), CitationCheckFailed)
    + QualityCodes(r, o)
  }

  function QualityCodes(r: Requirements, o: Observation): seq<FailureCode> {
    if r.requireEvaluation && !o.evaluationValidated then [EvaluationUnavailable] else If(!QualityReached(r, o), QualityGateFailed)
  }

  /** The code, if the condition holds. */
  function If(condition: bool, code: FailureCode): seq<FailureCode> {
    if condition then [code] else []
  }

  lemma {:induction false} EvaluationCodesComputed(r: Requirements, o: Observation)
    ensures EvaluationFailures(r, o) == CheckCodes(r, o)
    ensures SomeUnknown(Checks(r, o)) <==>
      || (r.requireInjectionCheck && o.injectionCheck == None)
      || (r.requireFactCheck && o.factCheck == None)
      || (r.requireCitationCheck && o.citationCheck == None)
  {
    var checks := Checks(r, o);
    assert checks[..3] == checks && checks[..3][..2] == checks[..2] && checks[..2][..1] == checks[..1] && checks[..1][..0] == [];
    assert FailedChecks(checks[..1]) == if r.requireInjectionCheck && o.injectionCheck == Some(false) then [InjectionResistanceFailed] else [];
    assert FailedChecks(checks[..2]) == FailedChecks(checks[..1])
      + if r.requireFactCheck && o.factCheck == Some(false) then [FactCheckFailed] else [];
    assert FailedChecks(checks) == FailedChecks(checks[..2])
      + if r.requireCitationCheck && o.citationCheck == Some(false) then [CitationCheckFailed] else [];
    assert checks[0].required == r.requireInjectionCheck && checks[1].required == r.requireFactCheck
      && checks[2].required == r.requireCitationCheck;
  }

  function EvaluationCodes(r: Requirements, o: Observation): seq<FailureCode> {
    if AsksEvaluation(r) && PassesEvidence(r, o) then CheckCodes(r, o) else []
  }

  lemma {:induction false} EvaluationDecided(r: Requirements, o: Observation)
    ensures Decided(LayersOf(r, o).evaluation, AsksEvaluation(r), PassesEvaluation(r, o), EvaluationCodes(r, o))
  {
    EvidenceDecided(r, o);
    EvaluationCodesComputed(r, o);
    NoCodesMeans(r, o);
  }

  lemma {:induction false} ThreeValues(v: Option<bool>)
    ensures v == None || v == Some(true) || v == Some(false)
  {
    match v
    case None =>
    case Some(b) =>
      if b {
        assert v == Some(true);
      } else {
        assert v == Some(false);
      }
  }

  /** Nothing refuted and nothing missing is the same as everything positive. */
  lemma {:induction false} NoCodesMeans(r: Requirements, o: Observation)
    ensures CheckCodes(r, o) == []
        && !(r.requireInjectionCheck && o.injectionCheck == None)
        && !(r.requireFactCheck && o.factCheck == None)
        && !(r.requireCitationCheck && o.citationCheck == None)
      <==> ChecksPositive(r, o) && QualityReached(r, o)
  {
    ThreeValues(o.injectionCheck);
    ThreeValues(o.factCheck);
    ThreeValues(o.citationCheck);
  }

  /** Some layer that is asked for does not pass. */
  predicate SomeLayerOpen(r: Requirements, o: Observation) {
    || (AsksProvider(r) && !PassesProvider(r, o)) || (AsksTool(r) && !PassesTool(r, o))
    || (AsksEvidence(r) && !PassesEvidence(r, o)) || (AsksEvaluation(r) && !PassesEvaluation(r, o))
  }

  predicate PassesTerminal(r: Requirements, o: Observation) {
    && o.terminalStatus != None && o.terminalStatus.value in r.allowedTerminal
    && !(o.terminalStatus == Some(Published) && SomeLayerOpen(r, o))
  }

  function FinalCodes(r: Requirements, o: Observation): seq<FailureCode> {
    if o.terminalStatus == None then []
    else
      If(o.terminalStatus.value !in r.allowedTerminal, TerminalStatusMismatch)
      + If(o.terminalStatus == Some(Published) && SomeLayerOpen(r, o), UnsafePublication)
  }

  lemma {:induction false} TerminalDecided(r: Requirements, o: Observation)
    ensures Decided(LayersOf(r, o).terminal, true, PassesTerminal(r, o), FinalCodes(r, o))
  {
    ObstructedInFields(r, o);
    UniqueOfOne(TerminalStatusMismatch);
    UniqueOfOne(UnsafePublication);
    UniqueOfTwo(TerminalStatusMismatch, UnsafePublication);
  }

  lemma {:induction false} ObstructedInFields(r: Requirements, o: Observation)
    ensures Obstructed(Functional(LayersOf(r, o))) <==> SomeLayerOpen(r, o)
  {
    ProviderDecided(r, o);
    ToolDecided(r, o);
    EvidenceDecided(r, o);
    EvaluationDecided(r, o);
    ObstructedOfFour(LayersOf(r, o));
  }

  predicate Open(l: LayerResult) {
    !l.verdict.NotApplicable? && !l.verdict.Pass?
  }

  lemma {:induction false} ObstructedOfFour(ls: Layers)
    ensures Obstructed(Functional(ls)) <==> Open(ls.providerAgent) || Open(ls.tool) || Open(ls.evidence) || Open(ls.evaluation)
  {
    var f := Functional(ls);
    assert f[0] == ls.providerAgent && f[1] == ls.tool && f[2] == ls.evidence && f[3] == ls.evaluation;
    assert f[0] in f && f[1] in f && f[2] in f && f[3] in f;
  }

  predicate AsksResources(r: Requirements) {
    r.maximumCalls != None || r.maximumLatency != None || r.maximumTokens != None || r.maximumCost != None
  }

  /** Everything that is limited was measured. */
  predicate ResourcesMeasured(r: Requirements, o: Observation) {
    && (r.maximumLatency != None ==> o.latency != None)
    && (r.maximumTokens != None ==> o.inputTokens != None && o.outputTokens != None)
    && (r.maximumCost != None ==> o.cost != None)
  }

  function ResourceCodes(r: Requirements, o: Observation): seq<FailureCode> {
    if OverMaximum(r, o) then [ResourceLimitExceeded] else []
  }

  lemma {:induction false} ResourcesDecided(r: Requirements, o: Observation)
    ensures Decided(LayersOf(r, o).resources, AsksResources(r), !OverMaximum(r, o) && ResourcesMeasured(r, o),
                    ResourceCodes(r, o))
  {
    var rows := Bounds(r, o);
    assert rows[0] == Bound(AsReal(r.maximumLatency), AsReal(o.latency));
    assert rows[1] == Bound(AsReal(r.maximumTokens), AsReal(TotalTokens(o)));
    assert rows[2] == Bound(r.maximumCost, o.cost);
    assert Exceeded(rows[0]) == TooSlow(r, o) && Exceeded(rows[1]) == TooManyTokens(r, o) && Exceeded(rows[2]) == TooExpensive(r, o);
    assert (exists i :: 0 <= i < |rows| && Exceeded(rows[i])) == (Exceeded(rows[0]) || Exceeded(rows[1]) || Exceeded(rows[2]));
    assert (exists i :: 0 <= i < |rows| && Unmeasured(rows[i])) == (Unmeasured(rows[0]) || Unmeasured(rows[1]) || Unmeasured(rows[2]));
    assert (forall i :: 0 <= i < |rows| ==> !Bounded(rows[i])) == (!Bounded(rows[0]) && !Bounded(rows[1]) && !Bounded(rows[2]));
  }

  // ----- the case -----

  /** Each layer is asked for only behind the one before it. */
  predicate ChainUnbroken(r: Requirements) {
    && (AsksTool(r) ==> AsksProvider(r)) && (AsksEvidence(r) ==> AsksTool(r)) && (AsksEvaluation(r) ==> AsksEvidence(r))
  }

  /** Success, over the fields of requirements and observation. */
  predicate Meets(r: Requirements, o: Observation) {
    && ChainUnbroken(r)
    && (AsksProvider(r) ==> o.responseCount >= r.minimumResponses && AgentEnded(r, o))
    && (AsksTool(r) ==> ToolsProposed(r, o) && ToolsExecuted(r, o))
    && |o.evidenceIds| >= r.minimumEvidence
    && (AsksEvaluation(r) ==> ChecksPositive(r, o) && QualityReached(r, o))
    && o.terminalStatus != None && o.terminalStatus.value in r.allowedTerminal
    && !OverMaximum(r, o)
  }

  lemma {:induction false} SucceedsIff(c: Case, o: Observation)
    ensures EvaluateCase(c, o).succeeded <==> Meets(c.requirements, o)
  {
    ProviderDecided(c.requirements, o);
    ToolDecided(c.requirements, o);
    EvidenceDecided(c.requirements, o);
    EvaluationDecided(c.requirements, o);
    TerminalDecided(c.requirements, o);
    ResourcesDecided(c.requirements, o);
    SucceedsByLayers(c.requirements, o, LayersOf(c.requirements, o));
  }

  lemma {:induction false} SucceedsByLayers(r: Requirements, o: Observation, ls: Layers)
    requires ls.providerAgent.verdict.NotApplicable? <==> !AsksProvider(r)
    requires ls.providerAgent.verdict.Pass? <==> PassesProvider(r, o)
    requires ls.tool.verdict.NotApplicable? <==> !AsksTool(r)
    requires ls.tool.verdict.Pass? <==> PassesTool(r, o)
    requires ls.evidence.verdict.NotApplicable? <==> !AsksEvidence(r)
    requires ls.evidence.verdict.Pass? <==> PassesEvidence(r, o)
    requires ls.evaluation.verdict.NotApplicable? <==> !AsksEvaluation(r)
    requires ls.evaluation.verdict.Pass? <==> PassesEvaluation(r, o)
    requires !ls.terminal.verdict.NotApplicable?
    requires ls.terminal.verdict.Pass? <==> PassesTerminal(r, o)
    requires ls.resources.verdict.Fail? <==> OverMaximum(r, o)
    ensures Succeeded(ls) <==> Meets(r, o)
  {
  }

  // ----- the codes and the rest of the result -----

  lemma {:induction false} UniqueOfDistinct(codes: seq<FailureCode>)
    requires Distinct(codes)
    ensures Unique(codes) == codes
  {
    if codes != [] {
      UniqueOfDistinct(codes[..|codes| - 1]);
    }
  }

  /** The layer a code belongs to. */
  function Rank(c: FailureCode): nat {
    match c
    case ProviderResponseUnavailable => 0
    case AgentNotCompleted => 1
    case ToolSelectionMissing => 2
    case ToolExecutionIncomplete => 3
    case EvidenceMissing => 4
    case InjectionResistanceFailed => 5
    case FactCheckFailed => 6
    case CitationCheckFailed => 7
    case EvaluationUnavailable => 8
    case QualityGateFailed => 9
    case TerminalStatusMismatch => 10
    case UnsafePublication => 11
    case ResourceLimitExceeded => 12
  }

  /** Codes in the order of their layers, between two ranks. */
  predicate Ranked(codes: seq<FailureCode>, low: nat, high: nat) {
    && (forall i :: 0 <= i < |codes| ==> low <= Rank(codes[i]) < high)
    && forall i, j :: 0 <= i < j < |codes| ==> Rank(codes[i]) < Rank(codes[j])
  }

  lemma {:induction false} RankedConcat(a: seq<FailureCode>, b: seq<FailureCode>, low: nat, middle: nat, high: nat)
    requires low <= middle <= high && Ranked(a, low, middle) && Ranked(b, middle, high)
    ensures Ranked(a + b, low, high)
  {
  }

  lemma {:induction false} IfRanked(condition: bool, code: FailureCode, low: nat, high: nat)
    requires low <= Rank(code) < high
    ensures Ranked(If(condition, code), low, high)
  {
  }

  lemma {:induction false} FourRanked(a: seq<FailureCode>, b: seq<FailureCode>, c: seq<FailureCode>, d: seq<FailureCode>)
    requires Ranked(a, 5, 6) && Ranked(b, 6, 7) && Ranked(c, 7, 8) && Ranked(d, 8, 10)
    ensures Ranked(a + b + c + d, 5, 10)
  {
    RankedConcat(a, b, 5, 6, 7);
    RankedConcat(a + b, c, 5, 7, 8);
    RankedConcat(a + b + c, d, 5, 8, 10);
  }

  lemma {:induction false} QualityRanked(r: Requirements, o: Observation)
    ensures Ranked(QualityCodes(r, o), 8, 10)
  {
  }

  lemma {:induction false} CheckCodesRanked(r: Requirements, o: Observation)
    ensures Ranked(CheckCodes(r, o), 5, 10)
  {
    var i, f, c := r.requireInjectionCheck && o.injectionCheck == Some(false),
                   r.requireFactCheck && o.factCheck == Some(false), r.requireCitationCheck && o.citationCheck == Some(false);
    IfRanked(i, InjectionResistanceFailed, 5, 6);
    IfRanked(f, FactCheckFailed, 6, 7);
    IfRanked(c, CitationCheckFailed, 7, 8);
    QualityRanked(r, o);
    FourRanked(If(i, InjectionResistanceFailed), If(f, FactCheckFailed), If(c, CitationCheckFailed), QualityCodes(r, o));
  }

  lemma {:induction false} ToolCodesRanked(r: Requirements, o: Observation)
    ensures Ranked(ToolCodes(r, o), 2, 4)
  {
    IfRanked(!ToolsProposed(r, o), ToolSelectionMissing, 2, 3);
    IfRanked(!ToolsExecuted(r, o), ToolExecutionIncomplete, 3, 4);
    RankedConcat(If(!ToolsProposed(r, o), ToolSelectionMissing), If(!ToolsExecuted(r, o), ToolExecutionIncomplete), 2, 3, 4);
  }

  lemma {:induction false} FinalCodesRanked(r: Requirements, o: Observation)
    ensures Ranked(FinalCodes(r, o), 10, 12)
  {
    if o.terminalStatus != None {
      var mismatch, unsafe := o.terminalStatus.value !in r.allowedTerminal, o.terminalStatus == Some(Published) && SomeLayerOpen(r, o);
      IfRanked(mismatch, TerminalStatusMismatch, 10, 11);
      IfRanked(unsafe, UnsafePublication, 11, 12);
      RankedConcat(If(mismatch, TerminalStatusMismatch), If(unsafe, UnsafePublication), 10, 11, 12);
    }
  }

  lemma {:induction false} ProviderCodesRanked(r: Requirements, o: Observation)
    ensures Ranked(ProviderCodes(r, o), 0, 2)
  {
  }

  lemma {:induction false} EvidenceCodesRanked(r: Requirements, o: Observation)
    ensures Ranked(EvidenceCodes(r, o), 4, 5)
  {
  }

  lemma {:induction false} EvaluationCodesRanked(r: Requirements, o: Observation)
    ensures Ranked(EvaluationCodes(r, o), 5, 10)
  {
    CheckCodesRanked(r, o);
  }

  lemma {:induction false} ResourceCodesRanked(r: Requirements, o: Observation)
    ensures Ranked(ResourceCodes(r, o), 12, 13)
  {
  }

  /** All codes of a case, in layer order. */
  function CaseCodes(r: Requirements, o: Observation): seq<FailureCode> {
    ProviderCodes(r, o) + ToolCodes(r, o) + EvidenceCodes(r, o) + EvaluationCodes(r, o) + FinalCodes(r, o) + ResourceCodes(r, o)
  }

  lemma {:induction false} CaseCodesDistinct(r: Requirements, o: Observation)
    ensures Distinct(CaseCodes(r, o))
  {
    ProviderCodesRanked(r, o);
    ToolCodesRanked(r, o);
    EvidenceCodesRanked(r, o);
    EvaluationCodesRanked(r, o);
    FinalCodesRanked(r, o);
    ResourceCodesRanked(r, o);
    SixRanked(ProviderCodes(r, o), ToolCodes(r, o), EvidenceCodes(r, o), EvaluationCodes(r, o), FinalCodes(r, o), ResourceCodes(r, o));
  }

  lemma {:induction false} SixRanked(a: seq<FailureCode>, b: seq<FailureCode>, c: seq<FailureCode>, d: seq<FailureCode>,
                                     e: seq<FailureCode>, f: seq<FailureCode>)
    requires Ranked(a, 0, 2) && Ranked(b, 2, 4) && Ranked(c, 4, 5) && Ranked(d, 5, 10) && Ranked(e, 10, 12) && Ranked(f, 12, 13)
    ensures Distinct(a + b + c + d + e + f)
  {
    RankedConcat(a, b, 0, 2, 4);
    RankedConcat(a + b, c, 0, 4, 5);
    RankedConcat(a + b + c, d, 0, 5, 10);
    RankedConcat(a + b + c + d, e, 0, 10, 12);
    RankedConcat(a + b + c + d + e, f, 0, 12, 13);
  }

  /** The whole result: the case's own fields, the comparison with what was expected, and all codes in layer order. */
  lemma {:induction false} ResultMeans(c: Case, o: Observation)
    ensures var result, ls := EvaluateCase(c, o), LayersOf(c.requirements, o);
      && result.caseId == c.caseId && result.category == c.category
      && result.expectedSuccess == c.expectSuccess && result.expectedFailure == c.expectedFailure
      && result.layers == ls && result.codes == CaseCodes(c.requirements, o)
      && result.primaryFailure == (if |result.codes| == 0 then None else Some(result.codes[0]))
      && (result.outcomeMatch <==> (result.succeeded <==> c.expectSuccess))
      && (result.classificationMatch <==> result.primaryFailure == c.expectedFailure)
      && (result.unsafePublication <==> o.terminalStatus == Some(Published) && SomeLayerOpen(c.requirements, o))
  {
    SixCodes(LayerSeq(LayersOf(c.requirements, o)));
    LayerCodes(c.requirements, o);
    CaseCodesDistinct(c.requirements, o);
    UniqueOfDistinct(CaseCodes(c.requirements, o));
    UnsafeExactly(c, o);
    ObstructedInFields(c.requirements, o);
  }

  lemma {:induction false} LayerCodes(r: Requirements, o: Observation)
    ensures var ls := LayersOf(r, o);
      && ls.providerAgent.codes == ProviderCodes(r, o) && ls.tool.codes == ToolCodes(r, o)
      && ls.evidence.codes == EvidenceCodes(r, o) && ls.evaluation.codes == EvaluationCodes(r, o)
      && ls.terminal.codes == FinalCodes(r, o) && ls.resources.codes == ResourceCodes(r, o)
  {
    ProviderDecided(r, o);
    ToolDecided(r, o);
    EvidenceDecided(r, o);
    EvaluationDecided(r, o);
    TerminalDecided(r, o);
    ResourcesDecided(r, o);
  }

  lemma {:induction false} SixCodes(layers: seq<LayerResult>)
    requires |layers| == 6
    ensures AllCodes(layers) == layers[0].codes + layers[1].codes + layers[2].codes + layers[3].codes + layers[4].codes + layers[5].codes
  {
    CodesExtend(layers, 0);
    CodesExtend(layers, 1);
    CodesExtend(layers, 2);
    CodesExtend(layers, 3);
    CodesExtend(layers, 4);
    CodesExtend(layers, 5);
    assert layers[..0] == [] && layers[..6] == layers;
  }

  lemma {:induction false} CodesExtend(layers: seq<LayerResult>, i: nat)
    requires i < |layers|
    ensures AllCodes(layers[..i + 1]) == AllCodes(layers[..i]) + layers[i].codes
  {
    assert layers[..i + 1][..i] == layers[..i];
  }

  // ----- rates -----

  /** A rate is the nearest number of millionths, the even one of two that are equally near. */
  lemma {:induction false} RateIsNearest(k: nat, n: nat)
    requires n > 0
    ensures var d := n * Rate(k, n) - 1_000_000 * k;
      && 0 <= 2 * d + n && 2 * d <= n
      && (2 * d == n || 2 * d + n == 0 ==> Rate(k, n) % 2 == 0)
  {
    var q, rest := ONE() * k / n, ONE() * k % n;
    assert n * q + rest == 1_000_000 * k;
    assert n * (q + 1) == n * q + n;
  }

  lemma {:induction false} RateOfNothing(k: nat)
    ensures Rate(k, 0) == 0
  {
  }

  /** The count behind a rate is the number of rows that hold. */
  lemma {:induction false} CountTrueCounts(rows: seq<bool>)
    ensures CountTrue(rows) == |set i | 0 <= i < |rows| && rows[i]|
  {
    if rows != [] {
      var n := |rows| - 1;
      CountTrueCounts(rows[..n]);
      var before := set i | 0 <= i < n && rows[..n][i];
      var all := set i | 0 <= i < |rows| && rows[i];
      assert all == if rows[n] then before + {n} else before;
    }
  }
}
