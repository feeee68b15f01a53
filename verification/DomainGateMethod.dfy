/**
 `run_glm53_domain_gate` in its own form: one mutable budget shared by the wrappers of all
 cases, growing lists of records and observations, proved to return what `RunGate` computes.
 */
module DomainGateMethod {
  import opened Prelude
  import opened DomainGate
  import opened BudgetObjects
  import L = BudgetLedger
  import E = DomainEvaluation
  import ET = DomainEvaluationTheorems
  import T = DomainGateTheorems

  /** `case_snapshot`: None where building the bounded model raises. */
  method CaseSnapshot(state: BudgetState, caseId: string) returns (snapshot: Option<L.CaseUse>)
    requires caseId in state.cases
    ensures snapshot == if SnapshotOk(state.View().cases[caseId]) then Some(state.View().cases[caseId]) else None
  {
    var use := state.cases[caseId].Use();
    assert state.View().cases[caseId] == use;
    snapshot := if SnapshotOk(use) then Some(use) else None;
  }

  /** Every registered case has its wrapper, around the shared state. */
  ghost predicate Wired(env: Env, state: BudgetState, wrappers: map<string, BudgetedProvider>)
    reads state
  {
    && state.Valid() && wrappers.Keys == state.cases.Keys
    && forall id :: id in wrappers ==>
         && wrappers[id].provider == env.provider && wrappers[id].state == state
         && wrappers[id].caseId == id && wrappers[id].profile == Some(L.FLASH)
  }

  /** The executor's calls; it keeps every wrapper it was ever given and ignores the outcomes. */
  method Execute(env: Env, state: BudgetState, wrappers: map<string, BudgetedProvider>, calls: seq<ExecutorCall>)
    requires Wired(env, state, wrappers)
    modifies state, state.cases.Values
    ensures Wired(env, state, wrappers) && state.cases == old(state.cases)
    ensures state.View() == Chats(env.provider, old(state.View()), calls)
  {
    assert calls[..0] == [];
    for k := 0 to |calls|
      invariant Wired(env, state, wrappers) && state.cases == old(state.cases)
      invariant state.View() == Chats(env.provider, old(state.View()), calls[..k])
    {
      var c := calls[k];
      assert calls[..k + 1][..k] == calls[..k];
      if c.caseId in wrappers {
        var _ := wrappers[c.caseId].Chat(c.request);
      }
    }
    assert calls[..|calls|] == calls;
  }

  /** `_evaluate_one_case`: the whole evaluator on a dataset and a candidate of one case. */
  method EvaluateOneCase(d: E.Dataset, c: E.Case, o: E.Observation) returns (result: E.CaseResult)
    requires o.caseId == c.caseId
    ensures result == E.EvaluateCase(c, o)
  {
    ET.AloneIsCase(d, c, o);
    result := ET.EvaluateAlone(d, c, o).evaluation.cases[0];
  }

  /** What follows an executor that returned an observation for its own case. */
  method RecordObserved(env: Env, d: E.Dataset, c: E.Case, state: BudgetState, sem: Semantic,
                        records: seq<Record>, observations: seq<E.Observation>, ghost begun: GateState)
    returns (raised: Option<RaiseReason>, records': seq<Record>, observations': seq<E.Observation>)
    requires state.Valid() && c.caseId in state.cases && sem.caseId == c.caseId
    requires begun.records == records && begun.observations == observations
    modifies state`stopCode, state`globalStop, state`providerStop
    ensures match ConcludeObserved(env, c, begun, old(state.View()), sem)
            case Raise(reason) => raised == Some(reason)
            case Go(s) => raised.None? && s == GateState(state.View(), records', observations')
  {
    records', observations' := records, observations;
    var after := CaseSnapshot(state, c.caseId);
    if after.None? {
      raised := Some(CaseOvershoot(state.cases[c.caseId].Use()));
      return;
    }
    var observation := CandidateCase(sem, L.NO_USE, after.value);
    if observation.responseCount > observation.providerCalls {
      raised := Some(ResponsesOverclaimed(observation.responseCount, observation.providerCalls));
      return;
    }
    var result := EvaluateOneCase(d, c, observation);
    var failure := DecideFailure(env, state, sem, result);
    if failure.Some? {
      if failure.value.UnsafePublication? {
        state.StopGlobal(failure.value);
      } else {
        state.StopProvider(failure.value, sem.safeErrorCode);
      }
    }
    raised := None;
    observations' := observations + [observation];
    records' := records + [Record(c.caseId, Executed, failure, Some(observation), Some(result))];
  }

  /** `_case_failure`, reading the shared stop code. */
  method DecideFailure(env: Env, state: BudgetState, sem: Semantic, result: E.CaseResult)
    returns (failure: Option<L.FailureCode>)
    ensures failure == CaseFailure(env, state.View(), sem, result)
  {
    if state.stopCode.Some? {
      return state.stopCode;
    }
    if sem.safeErrorCode.Some? && sem.safeErrorCode.value != "" {
      return Some(env.classify(sem.safeErrorCode.value));
    }
    if result.unsafePublication {
      return Some(L.UnsafePublication);
    }
    if !result.outcomeMatch || !result.classificationMatch {
      return Some(L.CaseOutcomeMismatch);
    }
    return None;
  }

  /** A case gets its row in the budget and its wrapper. */
  method Equip(env: Env, caseId: string, state: BudgetState, wrappers: map<string, BudgetedProvider>)
    returns (wrappers': map<string, BudgetedProvider>)
    requires Wired(env, state, wrappers) && caseId !in state.cases
    modifies state`order, state`cases
    ensures state.cases.Keys == old(state.cases.Keys) + {caseId} && fresh(state.cases.Values - old(state.cases.Values))
    ensures Wired(env, state, wrappers')
    ensures state.View() == L.Register(old(state.View()), caseId)
  {
    var _ := state.RegisterCase(caseId);
    var controlled := new BudgetedProvider(env.provider, state, caseId, Some(L.FLASH));
    wrappers' := wrappers[caseId := controlled];
  }

  /** A case is registered, given its wrapper and executed. */
  method StartCase(env: Env, caseId: string, calls: seq<ExecutorCall>, state: BudgetState, wrappers: map<string,
                   BudgetedProvider>)
    returns (wrappers': map<string, BudgetedProvider>)
    requires Wired(env, state, wrappers) && caseId !in state.cases
    modifies state, state.cases.Values
    ensures state.cases.Keys == old(state.cases.Keys) + {caseId} && fresh(state.cases.Values - old(state.cases.Values))
    ensures Wired(env, state, wrappers')
    ensures state.View() == Chats(env.provider, L.Register(old(state.View()), caseId), calls)
  {
    wrappers' := Equip(env, caseId, state, wrappers);
    Execute(env, state, wrappers', calls);
  }

  /** What follows the executor. */
  method FinishCase(env: Env, d: E.Dataset, c: E.Case, outcome: Outcome, state: BudgetState,
                    records: seq<Record>, observations: seq<E.Observation>, ghost begun: GateState)
    returns (raised: Option<RaiseReason>, records': seq<Record>, observations': seq<E.Observation>)
    requires state.Valid() && c.caseId in state.cases && begun.records == records && begun.observations == observations
    modifies state`stopCode, state`globalStop, state`providerStop
    ensures match CloseCase(env, c, outcome, begun, old(state.View()))
            case Raise(reason) => raised == Some(reason)
            case Go(s) => raised.None? && s == GateState(state.View(), records', observations')
  {
    raised, records', observations' := None, records, observations;
    match outcome
    case ProviderFault(code, classified) =>
      state.StopProvider(classified, Some(code));
      records' := records + [Record(c.caseId, Failed, Some(classified), None, None)];
    case OtherFault =>
      state.StopProvider(L.CaseObservationInvalid, None);
      records' := records + [Record(c.caseId, Failed, Some(L.CaseObservationInvalid), None, None)];
    case Observed(sem) =>
      if sem.caseId != c.caseId {
        state.StopProvider(L.CaseObservationInvalid, None);
        records' := records + [Record(c.caseId, Failed, Some(L.CaseObservationInvalid), None, None)];
      } else {
        raised, records', observations' := RecordObserved(env, d, c, state, sem, records, observations, begun);
      }
  }

  /** `snapshot`: None where one of the bounded models raises. */
  method Snapshot(state: BudgetState) returns (snapshot: Option<Resources>)
    requires state.Valid()
    ensures snapshot.Some? <==> SnapshotFits(state.View())
    ensures snapshot.Some? ==> snapshot.value == ResourcesOf(state.View())
  {
    var rows: seq<CaseResource> := [];
    for i := 0 to |state.order|
      invariant |rows| == i
      invariant forall k :: 0 <= k < i ==>
        var use := state.View().cases[state.order[k]];
        SnapshotOk(use) && rows[k] == CaseResource(state.order[k], use)
    {
      var row := CaseSnapshot(state, state.order[i]);
      if row.None? {
        return None;
      }
      rows := rows + [CaseResource(state.order[i], row.value)];
    }
    if state.callsUsed > L.DOMAIN_MAX_CALLS || state.inputTokens + state.outputTokens > L.DOMAIN_MAX_TOKENS {
      return None;
    }
    snapshot := Some(Resources(state.callsUsed, state.inputTokens, state.outputTokens, state.latencyMs, rows, state.stopCode));
  }

  /** The snapshots, the verdict and the result. */
  method AssembleResult(admission: Admission, state: BudgetState, records: seq<Record>, observations: seq<E.Observation>,
                        candidate: Option<E.Candidate>, evaluation: Option<E.Evaluation>)
    returns (outcome: GateOutcome)
    requires state.Valid()
    ensures outcome == Assemble(admission, GateState(state.View(), records, observations), candidate, evaluation)
  {
    var resources := Snapshot(state);
    if resources.None? {
      return GateRaised(FinalOvershoot);
    }
    if !StopShowable(state.providerStop) {
      return GateRaised(ControlRejected);
    }
    var admitted := AllClean(records)
      && evaluation.Some? && evaluation.value.outcomeAccuracy == E.ONE()
      && evaluation.value.classificationAccuracy == E.ONE() && evaluation.value.unsafeRate == 0
      && resources.value.stopCode.None? && state.globalStop.None? && state.providerStop.None?;
    var tokens := state.inputTokens + state.outputTokens;
    outcome := GateReturned(GateResult(
      admission.schemaVersion, admission.experimentId, resources.value, state.globalStop, state.providerStop,
      admission.protocolTokens, state.callsUsed, tokens,
      PROTOCOL_MAX_CALLS + state.callsUsed, admission.protocolTokens + tokens, records, candidate, evaluation,
      exists i :: 0 <= i < |records| && !records[i].status.Skipped?, admitted));
  }

  /** What follows the loop. */
  method Conclude(d: E.Dataset, admission: Admission, state: BudgetState,
                  records: seq<Record>, observations: seq<E.Observation>)
    returns (outcome: GateOutcome)
    requires state.Valid()
    ensures outcome == Conclusion(d, admission, GateState(state.View(), records, observations))
  {
    if |observations| == |d.cases| {
      var candidate := E.Candidate(d.schemaVersion, CandidateId(admission), d.datasetId, d.datasetVersion, d.contract,
                                   state.callsUsed, observations);
      var evaluated := E.EvaluateCandidate(d, candidate);
      if !evaluated.Evaluated? {
        return GateRaised(AggregateRejected);
      }
      outcome := AssembleResult(admission, state, records, observations, Some(candidate), Some(evaluated.evaluation));
    } else {
      outcome := AssembleResult(admission, state, records, observations, None, None);
    }
  }

  /** The body of the driver's loop. */
  method HandleCase(env: Env, d: E.Dataset, c: E.Case, script: Script, state: BudgetState,
                    wrappers: map<string, BudgetedProvider>, records: seq<Record>, observations: seq<E.Observation>,
                    ghost begun: GateState)
    returns (raised: Option<RaiseReason>, wrappers': map<string, BudgetedProvider>,
             records': seq<Record>, observations': seq<E.Observation>)
    requires Wired(env, state, wrappers) && c.caseId !in state.cases
    requires begun == GateState(state.View(), records, observations)
    modifies state, state.cases.Values
    ensures Wired(env, state, wrappers') && state.cases.Keys <= old(state.cases.Keys) + {c.caseId}
    ensures fresh(state.cases.Values - old(state.cases.Values))
    ensures match StepCase(env, c, script, begun)
            case Raise(reason) => raised == Some(reason)
            case Go(s) => raised.None? && s == GateState(state.View(), records', observations')
  {
    if state.stopCode.Some? {
      raised, wrappers', observations' := None, wrappers, observations;
      records' := records + [Record(c.caseId, Skipped, state.stopCode, None, None)];
    } else {
      wrappers' := StartCase(env, c.caseId, script.calls, state, wrappers);
      raised, records', observations' := FinishCase(env, d, c, script.outcome, state, records, observations, begun);
    }
  }

  /** `run` is the run of the cases, whatever the methods below need to know of it. */
  ghost predicate IsRun(env: Env, d: E.Dataset, run: nat -> GateStep) {
    forall k: nat :: k <= |d.cases| ==> RunAt(env, d, run, k)
  }

  predicate RunAt(env: Env, d: E.Dataset, run: nat -> GateStep, k: nat)
    requires k <= |d.cases|
  {
    run(k) == RunCases(env, d, k)
  }

  /** One pass of the driver's loop. */
  method Pass(env: Env, d: E.Dataset, n: nat, state: BudgetState, wrappers: map<string, BudgetedProvider>,
              records: seq<Record>, observations: seq<E.Observation>, ghost run: nat -> GateStep)
    returns (raised: Option<RaiseReason>, wrappers': map<string, BudgetedProvider>,
             records': seq<Record>, observations': seq<E.Observation>)
    requires E.ValidDataset(d) && n < |d.cases| && IsRun(env, d, run)
    requires Wired(env, state, wrappers) && state.cases.Keys <= StartedIds(d, n)
    requires run(n) == Go(GateState(state.View(), records, observations))
    modifies state, state.cases.Values
    ensures Wired(env, state, wrappers') && state.cases.Keys <= StartedIds(d, n + 1)
    ensures fresh(state.cases.Values - old(state.cases.Values))
    ensures raised.None? ==> run(n + 1) == Go(GateState(state.View(), records', observations'))
    ensures raised.Some? ==> run(|d.cases|) == Raise(raised.value)
  {
    NotYetRegistered(d, n);
    ghost var s := GateState(state.View(), records, observations);
    raised, wrappers', records', observations' :=
      HandleCase(env, d, d.cases[n], env.executor(n), state, wrappers, records, observations, s);
    assert RunAt(env, d, run, n) && RunAt(env, d, run, n + 1) && RunAt(env, d, run, |d.cases|);
    NextCase(env, d, n, s);
    if raised.Some? {
      T.RaiseIsFinal(env, d, n + 1, raised.value);
    }
  }

  /** The driver's loop, on a new budget. */
  method RunAllCases(env: Env, d: E.Dataset, state: BudgetState, ghost run: nat -> GateStep)
    returns (raised: Option<RaiseReason>, records: seq<Record>, observations: seq<E.Observation>)
    requires E.ValidDataset(d) && IsRun(env, d, run)
    requires state.Valid() && state.cases == map[] && run(0) == Go(GateState(state.View(), [], []))
    modifies state
    ensures state.Valid()
    ensures match run(|d.cases|)
            case Raise(reason) => raised == Some(reason)
            case Go(s) => raised.None? && s == GateState(state.View(), records, observations)
  {
    raised, records, observations := None, [], [];
    var wrappers: map<string, BudgetedProvider> := map[];
    for n := 0 to |d.cases|
      invariant raised.None? && fresh(state.cases.Values)
      invariant Wired(env, state, wrappers) && state.cases.Keys <= StartedIds(d, n)
      invariant run(n) == Go(GateState(state.View(), records, observations))
    {
      raised, wrappers, records, observations := Pass(env, d, n, state, wrappers, records, observations, run);
      if raised.Some? {
        return;
      }
    }
  }

  /** The whole driver. */
  method Run(env: Env, d: E.Dataset, admission: Admission) returns (outcome: GateOutcome)
    requires E.ValidDataset(d)
    ensures outcome == RunGate(env, d, admission)
  {
    var state := new BudgetState();
    ghost var run := T.Progress(env, d);
    assert run(0) == RunCases(env, d, 0) == Go(EMPTY_STATE);
    var raised, records, observations := RunAllCases(env, d, state, run);
    assert RunAt(env, d, run, |d.cases|);
    if raised.Some? {
      return GateRaised(raised.value);
    }
    outcome := Conclude(d, admission, state, records, observations);
  }

  function StartedIds(d: E.Dataset, n: nat): set<string>
    requires n <= |d.cases|
  {
    set i | 0 <= i < n :: d.cases[i].caseId
  }

  lemma {:induction false} NextCase(env: Env, d: E.Dataset, n: nat, s: GateState)
    requires n < |d.cases| && RunCases(env, d, n) == Go(s)
    ensures RunCases(env, d, n + 1) == StepCase(env, d.cases[n], env.executor(n), s)
  {
  }

  lemma {:induction false} NotYetRegistered(d: E.Dataset, n: nat)
    requires E.ValidDataset(d) && n < |d.cases|
    ensures d.cases[n].caseId !in StartedIds(d, n)
    ensures StartedIds(d, n + 1) == StartedIds(d, n) + {d.cases[n].caseId}
  {
    forall i | 0 <= i < n ensures d.cases[i].caseId != d.cases[n].caseId {
      assert E.CaseIds(d.cases)[i] != E.CaseIds(d.cases)[n];
    }
  }
}
