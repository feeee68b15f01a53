/** What the layered evaluator guarantees for every case, observation and candidate. */
module DomainEvaluationTheorems {
  import opened Prelude
  import opened DomainEvaluation

  // ----- blame -----

  lemma {:induction false} UniqueMembers(codes: seq<FailureCode>)
    ensures forall c :: c in Unique(codes) <==> c in codes
    ensures codes != [] ==> Unique(codes) != [] && Unique(codes)[0] == codes[0]
    ensures codes == [] ==> Unique(codes) == []
    ensures Distinct(Unique(codes))
  {
    if codes != [] {
      var n := |codes| - 1;
      UniqueMembers(codes[..n]);
      assert codes == codes[..n] + [codes[n]];
    }
  }

  lemma {:induction false} PassOrFailMeans(failures: seq<FailureCode>)
    ensures ValidLayer(PassOrFail(failures))
    ensures forall c :: c in PassOrFail(failures).codes <==> c in failures
    ensures PassOrFail(failures) == PASS || PassOrFail(failures).verdict.Fail?
    ensures PassOrFail(failures).verdict.Fail? <==> failures != []
  {
    UniqueMembers(failures);
  }

  predicate ToolCode(c: FailureCode) {
    c == ToolSelectionMissing || c == ToolExecutionIncomplete
  }

  lemma {:induction false} ProviderValid(r: Requirements, o: Observation)
    ensures ValidLayer(ProviderAgentLayer(r, o)) && UnsafePublication !in ProviderAgentLayer(r, o).codes
  {
    PassOrFailMeans([ProviderResponseUnavailable]);
    PassOrFailMeans([AgentNotCompleted]);
  }

  function ToolFailures(r: Requirements, o: Observation): seq<FailureCode> {
    (if !AllIn(r.requiredTools, o.proposedTools) then [ToolSelectionMissing] else [])
    + if !AllIn(r.requiredTools, o.successfulTools) || |o.successfulTools| < r.minimumExecutions
      then [ToolExecutionIncomplete] else []
  }

  lemma {:induction false} ToolValid(r: Requirements, o: Observation, p: LayerResult)
    ensures ValidLayer(ToolLayer(r, o, p)) && UnsafePublication !in ToolLayer(r, o, p).codes
    ensures ToolLayer(r, o, p) == if !ToolApplies(r) then NOT_APPLICABLE else if !p.verdict.Pass? then UNKNOWN
                                  else PassOrFail(ToolFailures(r, o))
  {
    PassOrFailMeans(ToolFailures(r, o));
    assert forall c :: c in ToolFailures(r, o) ==> ToolCode(c);
  }

  lemma {:induction false} EvaluationValid(r: Requirements, o: Observation, p: LayerResult)
    ensures ValidLayer(EvaluationLayer(r, o, p)) && UnsafePublication !in EvaluationLayer(r, o, p).codes
  {
    FailedChecksKinds(Checks(r, o));
  }

  predicate LayerFine(l: LayerResult) {
    ValidLayer(l) && UnsafePublication !in l.codes
  }

  /** Every layer result satisfies its own contract; only the terminal layer reports unsafe publication. */
  lemma {:induction false} LayersValid(r: Requirements, o: Observation)
    ensures var ls := LayersOf(r, o);
      && LayerFine(ls.providerAgent) && LayerFine(ls.tool) && LayerFine(ls.evidence) && LayerFine(ls.evaluation)
      && ValidLayer(ls.terminal) && LayerFine(ls.resources)
  {
    var p := ProviderAgentLayer(r, o);
    var t := ToolLayer(r, o, p);
    var e := EvidenceLayer(r, o, t);
    var v := EvaluationLayer(r, o, e);
    ProviderValid(r, o);
    ToolValid(r, o, p);
    EvaluationValid(r, o, e);
    TerminalCodes(r, o, [p, t, e, v]);
  }

  lemma {:induction false} TerminalCodes(r: Requirements, o: Observation, functional: seq<LayerResult>)
    ensures var t := TerminalLayer(r, o, functional);
      && ValidLayer(t) && !t.verdict.NotApplicable?
      && (t.verdict.Unknown? <==> o.terminalStatus.None?)
      && (UnsafePublication in t.codes <==> o.terminalStatus == Some(Published) && Obstructed(functional))
  {
    if o.terminalStatus.Some? {
      PassOrFailMeans((if o.terminalStatus.value !in r.allowedTerminal then [TerminalStatusMismatch] else [])
        + if o.terminalStatus == Some(Published) && Obstructed(functional) then [UnsafePublication] else []);
    }
  }

  /** A layer passes or fails only behind a passing predecessor. */
  lemma {:induction false} ChainOfLayers(r: Requirements, o: Observation)
    ensures var ls := LayersOf(r, o);
      && (ls.tool.verdict.Pass? || ls.tool.verdict.Fail? ==> ls.providerAgent.verdict.Pass?)
      && (ls.evidence.verdict.Pass? || ls.evidence.verdict.Fail? ==> ls.tool.verdict.Pass?)
      && (ls.evaluation.verdict.Pass? || ls.evaluation.verdict.Fail? ==> ls.evidence.verdict.Pass?)
  {
  }

  /** Each layer passes or fails only behind a passing one. */
  predicate Chained(f: seq<LayerResult>) {
    forall i :: 0 < i < |f| && (f[i].verdict.Pass? || f[i].verdict.Fail?) ==> f[i - 1].verdict.Pass?
  }

  lemma {:induction false} EarlierPass(f: seq<LayerResult>, k: nat, i: nat)
    requires Chained(f) && i < k < |f| && (f[k].verdict.Pass? || f[k].verdict.Fail?)
    ensures f[i].verdict.Pass?
  {
    if i < k - 1 {
      EarlierPass(f, k - 1, i);
    }
  }

  lemma {:induction false} FailBlocksLater(f: seq<LayerResult>, k: nat, i: nat)
    requires Chained(f) && k < i < |f| && f[k].verdict.Fail?
    ensures f[i].verdict.Unknown? || f[i].verdict.NotApplicable?
  {
    if f[i].verdict.Pass? || f[i].verdict.Fail? {
      EarlierPass(f, i, k);
    }
  }

  lemma {:induction false} FunctionalChained(r: Requirements, o: Observation)
    ensures var f := Functional(LayersOf(r, o)); Chained(f) && forall i :: 0 <= i < 4 ==> ValidLayer(f[i])
  {
    ChainOfLayers(r, o);
    LayersValid(r, o);
  }

  /**
   Blame. A failing functional layer has only passing layers before it, none that passes
   or fails after it, and its first code is the primary failure.
   */
  lemma {:induction false} BlameChain(c: Case, o: Observation, k: nat)
    requires k < 4 && Functional(LayersOf(c.requirements, o))[k].verdict.Fail?
    ensures var f := Functional(LayersOf(c.requirements, o)); var result := EvaluateCase(c, o);
      && (forall i :: 0 <= i < k ==> f[i].verdict.Pass?)
      && (forall i :: k < i < 4 ==> f[i].verdict.Unknown? || f[i].verdict.NotApplicable?)
      && f[k].codes != [] && result.primaryFailure == Some(f[k].codes[0])
  {
    var f, all := Functional(LayersOf(c.requirements, o)), LayerSeq(LayersOf(c.requirements, o));
    FunctionalChained(c.requirements, o);
    forall i | 0 <= i < k ensures f[i].verdict.Pass? { EarlierPass(f, k, i); }
    forall i | k < i < 4 ensures f[i].verdict.Unknown? || f[i].verdict.NotApplicable? { FailBlocksLater(f, k, i); }
    assert f <= all;
    forall i | 0 <= i < k ensures all[i].codes == [] { assert all[i] == f[i]; }
    FirstCode(all, k);
    UniqueMembers(AllCodes(all));
  }

  lemma {:induction false} FirstCode(layers: seq<LayerResult>, k: nat)
    requires k < |layers| && layers[k].codes != [] && forall i :: 0 <= i < k ==> layers[i].codes == []
    ensures AllCodes(layers) != [] && AllCodes(layers)[0] == layers[k].codes[0]
  {
    var n := |layers| - 1;
    if k < n {
      FirstCode(layers[..n], k);
    } else {
      NoCodes(layers[..n]);
    }
  }

  lemma {:induction false} NoCodes(layers: seq<LayerResult>)
    requires forall i :: 0 <= i < |layers| ==> layers[i].codes == []
    ensures AllCodes(layers) == []
  {
    if layers != [] {
      NoCodes(layers[..|layers| - 1]);
    }
  }

  lemma {:induction false} CodesComeFromLayers(layers: seq<LayerResult>, code: FailureCode)
    ensures code in AllCodes(layers) <==> exists i :: 0 <= i < |layers| && code in layers[i].codes
  {
    if layers != [] {
      var n := |layers| - 1;
      CodesComeFromLayers(layers[..n], code);
      if i :| 0 <= i < |layers| && code in layers[i].codes {
        if i < n { assert layers[..n][i] == layers[i]; }
      }
      if i :| 0 <= i < n && code in layers[..n][i].codes {
        assert code in layers[i].codes;
      }
    }
  }

  /**
   Publication. A case is unsafe exactly when it was published and some applicable
   functional layer did not pass.
   */
  lemma {:induction false} UnsafeExactly(c: Case, o: Observation)
    ensures EvaluateCase(c, o).unsafePublication
       <==> o.terminalStatus == Some(Published) && Obstructed(Functional(LayersOf(c.requirements, o)))
  {
    var ls := LayersOf(c.requirements, o);
    var all := LayerSeq(ls);
    UniqueMembers(AllCodes(all));
    CodesComeFromLayers(all, UnsafePublication);
    TerminalCodes(c.requirements, o, Functional(ls));
    LayersValid(c.requirements, o);
    assert all[4] == ls.terminal;
  }

  lemma {:induction false} FailedChecksKinds(checks: seq<Check>)
    ensures forall code :: code in FailedChecks(checks) ==> exists i :: 0 <= i < |checks| && checks[i].code == code
  {
    if checks != [] {
      var n := |checks| - 1;
      FailedChecksKinds(checks[..n]);
      forall code | code in FailedChecks(checks) ensures exists i :: 0 <= i < |checks| && checks[i].code == code {
        if code in FailedChecks(checks[..n]) {
          var i :| 0 <= i < n && checks[..n][i].code == code;
          assert checks[i].code == code;
        } else {
          assert checks[n].code == code;
        }
      }
    }
  }

  /** A succeeded case has no failure codes and no primary failure; codes exist exactly when a layer failed. */
  lemma {:induction false} SucceededHasNoCodes(c: Case, o: Observation)
    ensures var result := EvaluateCase(c, o); var all := LayerSeq(result.layers);
      && (result.codes != [] <==> exists i :: 0 <= i < 6 && all[i].verdict.Fail?)
      && (result.succeeded ==> result.codes == [] && result.primaryFailure.None? && !result.unsafePublication)
  {
    var ls := LayersOf(c.requirements, o);
    var all := LayerSeq(ls);
    LayersValid(c.requirements, o);
    UniqueMembers(AllCodes(all));
    if i :| 0 <= i < 6 && all[i].verdict.Fail? {
      CodesComeFromLayers(all, all[i].codes[0]);
    } else {
      NoCodes(all);
    }
  }

  // ----- success is monotone in the observation -----

  predicate CheckNoWorse(better: Option<bool>, worse: Option<bool>) {
    Holds(worse) ==> Holds(better)
  }

  predicate NoLarger(better: Option<nat>, worse: Option<nat>) {
    better.None? || (worse.Some? && better.value <= worse.value)
  }

  /** o' dominates o. */
  predicate Dominates(o': Observation, o: Observation) {
    && o'.agentStatus == o.agentStatus && o'.agentStopReason == o.agentStopReason && o'.terminalStatus == o.terminalStatus
    && o.responseCount <= o'.responseCount
    && AllIn(o.proposedTools, o'.proposedTools) && AllIn(o.successfulTools, o'.successfulTools)
    && |o.successfulTools| <= |o'.successfulTools|
    && |o.evidenceIds| <= |o'.evidenceIds|
    && CheckNoWorse(o'.factCheck, o.factCheck) && CheckNoWorse(o'.citationCheck, o.citationCheck)
    && CheckNoWorse(o'.injectionCheck, o.injectionCheck)
    && (o.evaluationValidated ==> o'.evaluationValidated)
    && (o.score.Some? && o'.score.Some? ==> o.score.value <= o'.score.value)
    && o'.providerCalls <= o.providerCalls
    && NoLarger(o'.latency, o.latency) && NoLarger(TotalTokens(o'), TotalTokens(o))
    && (o'.cost.None? || (o.cost.Some? && o'.cost.value <= o.cost.value))
  }

  lemma {:induction false} ProviderMonotone(r: Requirements, o: Observation, o': Observation)
    requires Dominates(o', o) && Clear(ProviderAgentLayer(r, o))
    ensures ProviderAgentLayer(r, o') == ProviderAgentLayer(r, o)
  {
    UniqueMembers([ProviderResponseUnavailable]);
    UniqueMembers([AgentNotCompleted]);
  }

  lemma {:induction false} ToolMonotone(r: Requirements, o: Observation, o': Observation, p: LayerResult)
    requires Dominates(o', o) && Clear(ToolLayer(r, o, p))
    ensures ToolLayer(r, o', p) == ToolLayer(r, o, p)
  {
  }

  lemma {:induction false} ChecksMeaning(r: Requirements, o: Observation)
    ensures EvaluationFailures(r, o) == [] && !SomeUnknown(Checks(r, o)) <==> ChecksSatisfied(r, o)
  {
    var checks := Checks(r, o);
    FailedChecksEmpty(checks);
    assert checks[0] == Check(r.requireInjectionCheck, o.injectionCheck, InjectionResistanceFailed);
    assert checks[1] == Check(r.requireFactCheck, o.factCheck, FactCheckFailed);
    assert checks[2] == Check(r.requireCitationCheck, o.citationCheck, CitationCheckFailed);
    assert FailedChecks(checks) == [] <==>
      !(checks[0].required && Refuted(checks[0].value)) && !(checks[1].required && Refuted(checks[1].value))
      && !(checks[2].required && Refuted(checks[2].value));
    assert SomeUnknown(checks) <==>
      (checks[0].required && checks[0].value.None?) || (checks[1].required && checks[1].value.None?)
      || (checks[2].required && checks[2].value.None?);
  }

  predicate ChecksSatisfied(r: Requirements, o: Observation) {
    && (r.requireInjectionCheck ==> Holds(o.injectionCheck))
    && (r.requireFactCheck ==> Holds(o.factCheck))
    && (r.requireCitationCheck ==> Holds(o.citationCheck))
    && (r.requireEvaluation ==> o.evaluationValidated)
    && (r.requireEvaluation ==> !(r.minimumScore.Some? && o.score.Some? && o.score.value < r.minimumScore.value))
  }

  lemma {:induction false} FailedChecksEmpty(checks: seq<Check>)
    ensures FailedChecks(checks) == [] <==>
      forall i :: 0 <= i < |checks| ==> !(checks[i].required && Refuted(checks[i].value))
  {
    if checks != [] {
      var n := |checks| - 1;
      FailedChecksEmpty(checks[..n]);
      assert forall i :: 0 <= i < n ==> checks[..n][i] == checks[i];
    }
  }

  lemma {:induction false} EvaluationMonotone(r: Requirements, o: Observation, o': Observation, p: LayerResult)
    requires ValidObservation(o) && ValidObservation(o')
    requires Dominates(o', o) && Clear(EvaluationLayer(r, o, p))
    ensures EvaluationLayer(r, o', p) == EvaluationLayer(r, o, p)
  {
    ChecksMeaning(r, o);
    ChecksMeaning(r, o');
  }

  lemma {:induction false} ResourceMonotone(r: Requirements, o: Observation, o': Observation)
    requires Dominates(o', o) && !ResourceLayer(r, o).verdict.Fail?
    ensures !ResourceLayer(r, o').verdict.Fail?
  {
    var rows, rows' := Bounds(r, o), Bounds(r, o');
    forall i | 0 <= i < 3 ensures Exceeded(rows'[i]) ==> Exceeded(rows[i]) {}
  }

  /** Success is monotone: whatever dominates a successful observation succeeds. */
  lemma {:induction false} SuccessMonotone(c: Case, o: Observation, o': Observation)
    requires ValidObservation(o) && ValidObservation(o')
    requires Dominates(o', o) && EvaluateCase(c, o).succeeded
    ensures EvaluateCase(c, o').succeeded
  {
    var r := c.requirements;
    var ls, ls' := LayersOf(r, o), LayersOf(r, o');
    ProviderMonotone(r, o, o');
    ToolMonotone(r, o, o', ls.providerAgent);
    assert ls'.evidence == ls.evidence;
    EvaluationMonotone(r, o, o', ls.evidence);
    assert Functional(ls') == Functional(ls);
    ResourceMonotone(r, o, o');
  }

  // ----- success is not monotone in the requirements -----

  predicate WeakerOption<T(==)>(weak: Option<T>, strong: Option<T>) {
    weak.None? || weak == strong
  }

  predicate WeakerMaximum(weak: Option<nat>, strong: Option<nat>) {
    weak.None? || (strong.Some? && strong.value <= weak.value)
  }

  /** r' asks for no more than r in every field. */
  predicate Weaker(r': Requirements, r: Requirements) {
    && r'.minimumResponses <= r.minimumResponses
    && WeakerOption(r'.expectedStatus, r.expectedStatus) && WeakerOption(r'.expectedStopReason, r.expectedStopReason)
    && AllIn(r'.requiredTools, r.requiredTools) && r'.minimumExecutions <= r.minimumExecutions
    && r'.minimumEvidence <= r.minimumEvidence
    && (r'.requireFactCheck ==> r.requireFactCheck) && (r'.requireCitationCheck ==> r.requireCitationCheck)
    && (r'.requireInjectionCheck ==> r.requireInjectionCheck) && (r'.requireEvaluation ==> r.requireEvaluation)
    && (r'.minimumScore.None? || (r.minimumScore.Some? && r'.minimumScore.value <= r.minimumScore.value))
    && (forall t :: t in r.allowedTerminal ==> t in r'.allowedTerminal)
    && WeakerMaximum(r'.maximumCalls, r.maximumCalls) && WeakerMaximum(r'.maximumLatency, r.maximumLatency)
    && WeakerMaximum(r'.maximumTokens, r.maximumTokens)
    && (r'.maximumCost.None? || (r.maximumCost.Some? && r.maximumCost.value <= r'.maximumCost.value))
  }

  /** Every applicable layer's predecessor is applicable. */
  predicate Unbroken(r: Requirements) {
    && (ToolApplies(r) ==> ProviderApplies(r))
    && (EvidenceApplies(r) ==> ToolApplies(r))
    && (EvaluationApplies(r) ==> EvidenceApplies(r))
  }

  /** No observation can succeed under requirements whose chain has a gap. */
  lemma {:induction false} GapForbidsSuccess(c: Case, o: Observation)
    requires EvaluateCase(c, o).succeeded
    ensures Unbroken(c.requirements)
  {
    ChainOfLayers(c.requirements, o);
  }

  /**
   Weakening the requirements of a successful case keeps it successful exactly when the
   weakened requirements leave no gap in the chain of applicable layers.
   */
  lemma {:induction false} WeakeningKeepsSuccessIff(c: Case, c': Case, o: Observation)
    requires ValidObservation(o) && ValidRequirements(c.requirements) && ValidRequirements(c'.requirements)
    requires EvaluateCase(c, o).succeeded && Weaker(c'.requirements, c.requirements)
    ensures EvaluateCase(c', o).succeeded <==> Unbroken(c'.requirements)
  {
    if EvaluateCase(c', o).succeeded {
      GapForbidsSuccess(c', o);
    }
    if Unbroken(c'.requirements) {
      WeakenedLayersClear(c.requirements, c'.requirements, o);
    }
  }

  lemma {:induction false} WeakenedLayersClear(r: Requirements, r': Requirements, o: Observation)
    requires ValidObservation(o) && ValidRequirements(r) && ValidRequirements(r')
    requires Succeeded(LayersOf(r, o)) && Weaker(r', r) && Unbroken(r')
    ensures Succeeded(LayersOf(r', o))
  {
    WeakenedFunctional(r, r', o);
    var f, f' := Functional(LayersOf(r, o)), Functional(LayersOf(r', o));
    assert !Obstructed(f');
    WeakenedTerminal(r, r', o, f, f');
    WeakenedResources(r, r', o);
  }

  lemma {:induction false} WeakenedFunctional(r: Requirements, r': Requirements, o: Observation)
    requires ValidObservation(o) && ValidRequirements(r) && ValidRequirements(r')
    requires Succeeded(LayersOf(r, o)) && Weaker(r', r) && Unbroken(r')
    ensures var ls' := LayersOf(r', o);
      && ls'.providerAgent == (if ProviderApplies(r') then PASS else NOT_APPLICABLE)
      && ls'.tool == (if ToolApplies(r') then PASS else NOT_APPLICABLE)
      && ls'.evidence == (if EvidenceApplies(r') then PASS else NOT_APPLICABLE)
      && ls'.evaluation == (if EvaluationApplies(r') then PASS else NOT_APPLICABLE)
  {
    ChainOfLayers(r, o);
    WeakenedProvider(r, r', o);
    if ToolApplies(r') {
      StillAppliesTool(r, r');
      WeakenedTool(r, r', o);
    }
    if EvaluationApplies(r') {
      WeakenedEvaluation(r, r', o);
    }
  }

  lemma {:induction false} StillAppliesTool(r: Requirements, r': Requirements)
    requires Weaker(r', r) && ToolApplies(r')
    ensures ToolApplies(r)
  {
    if r'.requiredTools != [] {
      assert r'.requiredTools[0] in r'.requiredTools;
    }
  }

  lemma {:induction false} WeakenedProvider(r: Requirements, r': Requirements, o: Observation)
    requires Weaker(r', r) && Clear(ProviderAgentLayer(r, o))
    ensures ProviderAgentLayer(r', o) == if ProviderApplies(r') then PASS else NOT_APPLICABLE
  {
    PassOrFailMeans([ProviderResponseUnavailable]);
    PassOrFailMeans([AgentNotCompleted]);
  }

  lemma {:induction false} WeakenedTool(r: Requirements, r': Requirements, o: Observation)
    requires ValidObservation(o) && Weaker(r', r) && ToolApplies(r')
    requires ToolLayer(r, o, PASS).verdict.Pass?
    ensures ToolLayer(r', o, PASS) == PASS
  {
    ToolValid(r, o, PASS);
    ToolValid(r', o, PASS);
    PassOrFailMeans(ToolFailures(r, o));
    PassOrFailMeans(ToolFailures(r', o));
  }

  lemma {:induction false} WeakenedEvaluation(r: Requirements, r': Requirements, o: Observation)
    requires Weaker(r', r) && EvaluationApplies(r')
    requires EvaluationLayer(r, o, PASS).verdict.Pass?
    ensures EvaluationLayer(r', o, PASS) == PASS
  {
    ChecksMeaning(r, o);
    ChecksMeaning(r', o);
  }

  lemma {:induction false} WeakenedTerminal(r: Requirements, r': Requirements, o: Observation, f: seq<LayerResult>,
                                            f': seq<LayerResult>)
    requires Weaker(r', r) && Clear(TerminalLayer(r, o, f)) && !Obstructed(f')
    ensures Clear(TerminalLayer(r', o, f'))
  {
    PassOrFailMeans((if o.terminalStatus.Some? && o.terminalStatus.value !in r.allowedTerminal then [TerminalStatusMismatch] else [])
        + if o.terminalStatus == Some(Published) && Obstructed(f) then [UnsafePublication] else []);
    TerminalCodes(r, o, f);
  }

  lemma {:induction false} WeakenedResources(r: Requirements, r': Requirements, o: Observation)
    requires Weaker(r', r) && !ResourceLayer(r, o).verdict.Fail?
    ensures !ResourceLayer(r', o).verdict.Fail?
  {
    var rows, rows' := Bounds(r, o), Bounds(r', o);
    forall i | 0 <= i < 3 ensures Exceeded(rows'[i]) ==> Exceeded(rows[i]) {}
  }

  const FULL_CASE := Case("case", "cat", true, None,
    Requirements(1, None, None, ["knowledge.search"], 1, 1, false, false, false, false, None, [Published], None, None, None, None))

  /** The same case without its tool requirements. */
  const TOOLS_DROPPED := FULL_CASE.(requirements := FULL_CASE.requirements.(requiredTools := [], minimumExecutions := 0))

  const GOOD_OBSERVATION := Observation("case", 1, 1, None, Some(Completed), Some("final_response"),
    ["knowledge.search"], ["knowledge.search"], ["K1"], None, None, None, false, None, Some(Published), None,
    None, None, None, None)

  /** Dropping the tool requirement alone turns this success into an unsafe publication. */
  lemma {:induction false} WeakeningCanBreakSuccess()
    ensures ValidCase(FULL_CASE) && ValidCase(TOOLS_DROPPED) && ValidObservation(GOOD_OBSERVATION)
    ensures Weaker(TOOLS_DROPPED.requirements, FULL_CASE.requirements)
    ensures EvaluateCase(FULL_CASE, GOOD_OBSERVATION).succeeded
    ensures !EvaluateCase(TOOLS_DROPPED, GOOD_OBSERVATION).succeeded
    ensures EvaluateCase(TOOLS_DROPPED, GOOD_OBSERVATION).unsafePublication
  {
    var o := GOOD_OBSERVATION;
    var ls, ls' := LayersOf(FULL_CASE.requirements, o), LayersOf(TOOLS_DROPPED.requirements, o);
    assert ls.providerAgent == PASS && ls.tool == PASS && ls.evidence == PASS && ls.evaluation == NOT_APPLICABLE;
    assert !Obstructed(Functional(ls));
    assert ls.terminal == PASS && ls.resources == NOT_APPLICABLE;
    assert ls'.tool == NOT_APPLICABLE && ls'.evidence == UNKNOWN;
    assert Functional(ls')[2] == UNKNOWN;
    assert UNKNOWN in Functional(ls');
    UnsafeExactly(TOOLS_DROPPED, o);
  }

  // ----- the aggregate is compositional -----

  lemma {:induction false} ObservedHolds(os: seq<Observation>)
    requires Distinct(ObservedIds(os))
    ensures forall i :: 0 <= i < |os| ==> os[i].caseId in Observed(os) && Observed(os)[os[i].caseId] == os[i]
    ensures forall id :: id in Observed(os) <==> id in ObservedIds(os)
  {
    if os != [] {
      var n := |os| - 1;
      assert ObservedIds(os) == ObservedIds(os[..n]) + [os[n].caseId];
      assert Distinct(ObservedIds(os[..n])) by {
        forall i, j | 0 <= i < j < n ensures ObservedIds(os[..n])[i] != ObservedIds(os[..n])[j] {
          assert ObservedIds(os)[i] != ObservedIds(os)[j];
        }
      }
      ObservedHolds(os[..n]);
      forall i | 0 <= i < n ensures os[i].caseId in Observed(os) && Observed(os)[os[i].caseId] == os[i] {
        assert os[..n][i] == os[i];
        assert ObservedIds(os)[i] != ObservedIds(os)[n];
      }
    }
  }

  /** Evaluating one case alone, as the gate does while running. */
  function EvaluateAlone(d: Dataset, c: Case, o: Observation): EvaluationOutcome {
    EvaluateCandidate(d.(cases := [c]),
      Candidate(d.schemaVersion, "zhipu-" + c.caseId, d.datasetId, d.datasetVersion, d.contract, o.providerCalls, [o]))
  }

  predicate AloneYields(d: Dataset, c: Case, o: Observation, result: CaseResult) {
    EvaluateAlone(d, c, o).Evaluated? && EvaluateAlone(d, c, o).evaluation.cases == [result]
  }

  lemma {:induction false} AloneIsCase(d: Dataset, c: Case, o: Observation)
    requires o.caseId == c.caseId
    ensures AloneYields(d, c, o, EvaluateCase(c, o))
  {
    assert [o][..|[o]| - 1] == [];
    assert Observed([o]) == map[][o.caseId := o];
    assert CaseIds([c])[0] == c.caseId;
  }

  /**
   The aggregate's cases are the one-case evaluations, in dataset order, for a candidate
   that answers the dataset's cases in any order.
   */
  lemma {:induction false} AggregateIsCompositional(d: Dataset, c: Candidate)
    requires ValidDataset(d) && ValidCandidate(c) && EvaluateCandidate(d, c).Evaluated?
    ensures var rs := EvaluateCandidate(d, c).evaluation.cases;
      && |rs| == |d.cases| == |c.cases|
      && forall i, j :: 0 <= i < |d.cases| && 0 <= j < |c.cases| && c.cases[j].caseId == d.cases[i].caseId ==>
           rs[i] == EvaluateCase(d.cases[i], c.cases[j]) && AloneYields(d, d.cases[i], c.cases[j], rs[i])
  {
    ObservedHolds(c.cases);
    SameIdsSameLength(CaseIds(d.cases), ObservedIds(c.cases));
    var rs := EvaluateCandidate(d, c).evaluation.cases;
    forall i, j | 0 <= i < |d.cases| && 0 <= j < |c.cases| && c.cases[j].caseId == d.cases[i].caseId
      ensures rs[i] == EvaluateCase(d.cases[i], c.cases[j]) && AloneYields(d, d.cases[i], c.cases[j], rs[i])
    {
      CaseOfAggregate(d.cases, Observed(c.cases), i);
      AloneIsCase(d, d.cases[i], c.cases[j]);
    }
  }

  /** A case of the aggregate is evaluated on the observation under its id. */
  lemma {:induction false} CaseOfAggregate(cs: seq<Case>, observed: map<string, Observation>, i: nat)
    requires i < |cs| && forall k :: 0 <= k < |cs| ==> cs[k].caseId in observed
    ensures CaseResults(cs, observed)[i] == EvaluateCase(cs[i], observed[cs[i].caseId])
  {
  }

  lemma {:induction false} SameIdsSameLength(a: seq<string>, b: seq<string>)
    requires Distinct(a) && Distinct(b) && forall x :: x in a <==> x in b
    ensures |a| == |b|
  {
    CardinalityOfDistinct(a);
    CardinalityOfDistinct(b);
    assert (set x | x in a) == (set x | x in b);
  }

  lemma {:induction false} CardinalityOfDistinct(a: seq<string>)
    requires Distinct(a)
    ensures |set x | x in a| == |a|
  {
    if a != [] {
      var n := |a| - 1;
      CardinalityOfDistinct(a[..n]);
      assert a == a[..n] + [a[n]];
      assert (set x | x in a) == (set x | x in a[..n]) + {a[n]};
    }
  }

  /** The result does not depend on the order of the candidate's cases. */
  lemma {:induction false} OrderDoesNotMatter(d: Dataset, c: Candidate, c': Candidate)
    requires ValidCandidate(c) && ValidCandidate(c') && c' == c.(cases := c'.cases)
    requires multiset(c.cases) == multiset(c'.cases)
    ensures EvaluateCandidate(d, c) == EvaluateCandidate(d, c')
  {
    ObservedHolds(c.cases);
    ObservedHolds(c'.cases);
    assert Observed(c.cases) == Observed(c'.cases) by {
      SameMembersSameMap(c.cases, c'.cases);
      SameMembersSameMap(c'.cases, c.cases);
    }
  }

  lemma {:induction false} SameMembersSameMap(a: seq<Observation>, b: seq<Observation>)
    requires Distinct(ObservedIds(a)) && Distinct(ObservedIds(b)) && multiset(a) == multiset(b)
    ensures forall id :: id in Observed(a) ==> id in Observed(b) && Observed(b)[id] == Observed(a)[id]
  {
    ObservedHolds(a);
    ObservedHolds(b);
    forall id | id in Observed(a) ensures id in Observed(b) && Observed(b)[id] == Observed(a)[id] {
      var i :| 0 <= i < |a| && ObservedIds(a)[i] == id;
      assert a[i] in multiset(a);
      assert a[i] in multiset(b);
      var j :| 0 <= j < |b| && b[j] == a[i];
      assert ObservedIds(b)[j] == id;
    }
  }

  // ----- rates -----

  lemma {:induction false} CountBounds(rows: seq<bool>)
    ensures CountTrue(rows) <= |rows|
    ensures CountTrue(rows) == |rows| <==> forall i :: 0 <= i < |rows| ==> rows[i]
    ensures CountTrue(rows) == 0 <==> forall i :: 0 <= i < |rows| ==> !rows[i]
  {
    if rows != [] {
      var n := |rows| - 1;
      CountBounds(rows[..n]);
      assert forall i :: 0 <= i < n ==> rows[..n][i] == rows[i];
    }
  }

  lemma {:induction false} TimesAtLeast(x: int, y: int, b: nat)
    requires x <= y
    ensures x * b <= y * b
  {
  }

  lemma {:induction false} Quotient(a: nat, b: nat, q: nat, rest: nat)
    requires 0 < b && a == q * b + rest && rest < b
    ensures a / b == q && a % b == rest
  {
    var q' := a / b;
    if q' < q {
      TimesAtLeast(q' + 1, q, b);
    } else if q < q' {
      TimesAtLeast(q + 1, q', b);
    }
  }

  lemma {:induction false} RateOfAll(n: nat)
    requires 0 < n
    ensures Rate(n, n) == ONE() && Rate(0, n) == 0
  {
    Quotient(ONE() * n, n, ONE(), 0);
    Quotient(0, n, 0, 0);
  }

  /** The quotient of a rate is below one million unless every row holds. */
  lemma {:induction false} RateBelowOne(k: nat, n: nat)
    requires k < n
    ensures ONE() * k / n < ONE()
  {
    var q := ONE() * k / n;
    assert ONE() * k == q * n + ONE() * k % n;
    if q >= ONE() {
      TimesAtLeast(ONE(), q, n);
    }
  }

  lemma {:induction false} RateOneMeansAll(k: nat, n: nat)
    requires k < n < 2 * ONE()
    ensures Rate(k, n) < ONE()
  {
    RateBelowOne(k, n);
    var q, rest := ONE() * k / n, ONE() * k % n;
    assert ONE() * k == q * n + rest;
    if q == ONE() - 1 {
      assert rest <= ONE() * (n - 1) - (ONE() - 1) * n == n - ONE();
    }
  }

  lemma {:induction false} RateZeroMeansNone(k: nat, n: nat)
    requires 0 < k <= n < 2 * ONE()
    ensures Rate(k, n) > 0
  {
    var q, rest := ONE() * k / n, ONE() * k % n;
    assert ONE() * k == q * n + rest;
    if q == 0 {
      assert rest >= ONE();
    }
  }

  /** With two million rows or more, one missing row rounds to one and one present row to zero. */
  lemma {:induction false} RateIsBlunt(n: nat)
    requires 2 * ONE() <= n
    ensures Rate(n - 1, n) == ONE() && Rate(1, n) == 0
  {
    assert ONE() * (n - 1) == (ONE() - 1) * n + (n - ONE());
    Quotient(ONE() * (n - 1), n, ONE() - 1, n - ONE());
    Quotient(ONE(), n, 0, ONE());
  }

  /** A rate of one means every row and a rate of zero means no row, exactly for fewer than two million rows. */
  lemma {:induction false} RatesExactIff(n: nat)
    requires 0 < n
    ensures n < 2 * ONE() <==>
      forall k: nat {:trigger Rate(k, n)} :: k <= n ==> (Rate(k, n) == ONE() <==> k == n) && (Rate(k, n) == 0 <==> k == 0)
  {
    RateOfAll(n);
    if n < 2 * ONE() {
      forall k: nat | k <= n ensures (Rate(k, n) == ONE() <==> k == n) && (Rate(k, n) == 0 <==> k == 0) {
        if k < n { RateOneMeansAll(k, n); }
        if 0 < k { RateZeroMeansNone(k, n); }
      }
    } else {
      RateIsBlunt(n);
      assert Rate(n - 1, n) == ONE();
    }
  }

  /** The mean of fewer than two million rows is one, respectively zero, exactly when all, respectively no, rows hold. */
  lemma {:induction false} MeanExact(rows: seq<bool>)
    requires 0 < |rows| < 2 * ONE()
    ensures Mean(rows) == ONE() <==> forall i :: 0 <= i < |rows| ==> rows[i]
    ensures Mean(rows) == 0 <==> forall i :: 0 <= i < |rows| ==> !rows[i]
  {
    CountBounds(rows);
    RatesExactIff(|rows|);
    var k := CountTrue(rows);
    assert (Rate(k, |rows|) == ONE() <==> k == |rows|) && (Rate(k, |rows|) == 0 <==> k == 0);
  }
}
