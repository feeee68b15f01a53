/** What the gate guarantees for any provider and any case executors. */
module DomainGateTheorems {
  import opened Prelude
  import opened BudgetLedger
  import opened DomainGate
  import E = DomainEvaluation
  import ET = DomainEvaluationTheorems

  // ----- runs in general -----

  type CaseStep = (nat, GateState) -> GateStep

  function CaseSteps(env: Env, d: E.Dataset): CaseStep {
    (k: nat, s: GateState) => if k < |d.cases| then StepCase(env, d.cases[k], env.executor(k), s) else Go(s)
  }

  function Progress(env: Env, d: E.Dataset): nat -> GateStep {
    (k: nat) => if k <= |d.cases| then RunCases(env, d, k) else RunCases(env, d, |d.cases|)
  }

  /** After k cases the run goes on with step k, or has raised for good. */
  predicate Linked(run: nat -> GateStep, step: CaseStep, k: nat) {
    run(k + 1) == match run(k) case Raise(reason) => Raise(reason) case Go(s) => step(k, s)
  }

  predicate Kept(step: CaseStep, keeps: (nat, GateState) -> bool, k: nat, s: GateState) {
    step(k, s).Go? ==> keeps(k + 1, step(k, s).state)
  }

  lemma {:induction false} ProgressLinked(env: Env, d: E.Dataset, k: nat)
    requires k < |d.cases|
    ensures Linked(Progress(env, d), CaseSteps(env, d), k)
  {
  }

  lemma {:induction false} LinkedKeeps(run: nat -> GateStep, step: CaseStep, keeps: (nat, GateState) -> bool,
                                       from: nat, n: nat)
    requires from <= n && (run(from).Go? ==> keeps(from, run(from).state))
    requires forall k: nat :: from <= k < n ==> Linked(run, step, k)
    requires forall k: nat, s: GateState :: from <= k < n && keeps(k, s) ==> Kept(step, keeps, k, s)
    ensures run(n).Go? ==> keeps(n, run(n).state)
  {
    if from < n {
      LinkedKeeps(run, step, keeps, from, n - 1);
      assert Linked(run, step, n - 1);
      if run(n - 1).Go? {
        assert Kept(step, keeps, n - 1, run(n - 1).state);
      }
    }
  }

  lemma {:induction false} LinkedRaise(run: nat -> GateStep, step: CaseStep, from: nat, n: nat)
    requires from <= n && run(from).Raise?
    requires forall k: nat :: from <= k < n ==> Linked(run, step, k)
    ensures run(n) == run(from)
  {
    if from < n {
      LinkedRaise(run, step, from, n - 1);
      assert Linked(run, step, n - 1);
    }
  }

  /** What every case keeps holds as long as the run goes on. */
  lemma {:induction false} RunCasesInduction(env: Env, d: E.Dataset, keeps: (nat, GateState) -> bool, from: nat, n: nat)
    requires from <= n <= |d.cases| && (RunCases(env, d, from).Go? ==> keeps(from, RunCases(env, d, from).state))
    requires forall k: nat, s: GateState :: from <= k < n && keeps(k, s) ==> Kept(CaseSteps(env, d), keeps, k, s)
    ensures RunCases(env, d, n).Go? ==> keeps(n, RunCases(env, d, n).state)
  {
    forall k: nat | from <= k < n ensures Linked(Progress(env, d), CaseSteps(env, d), k) {
      ProgressLinked(env, d, k);
    }
    LinkedKeeps(Progress(env, d), CaseSteps(env, d), keeps, from, n);
  }

  /** Once a case made the driver raise, no later case runs. */
  lemma {:induction false} RaiseIsFinal(env: Env, d: E.Dataset, n: nat, reason: RaiseReason)
    requires n <= |d.cases| && RunCases(env, d, n) == Raise(reason)
    ensures RunCases(env, d, |d.cases|) == Raise(reason)
  {
    forall k: nat | n <= k < |d.cases| ensures Linked(Progress(env, d), CaseSteps(env, d), k) {
      ProgressLinked(env, d, k);
    }
    LinkedRaise(Progress(env, d), CaseSteps(env, d), n, |d.cases|);
  }

  // ----- the ledger -----

  lemma {:induction false} ChatsSound(provider: Provider, l: Ledger, calls: seq<ExecutorCall>)
    requires Sound(l)
    ensures var l' := Chats(provider, l, calls);
      Sound(l') && l'.order == l.order && (l.stopCode.Some? ==> l' == l)
  {
    if calls != [] {
      var c := calls[|calls| - 1];
      ChatsSound(provider, l, calls[..|calls| - 1]);
      var front := Chats(provider, l, calls[..|calls| - 1]);
      if c.caseId in front.cases {
        ChatSound(provider, front, c.caseId, Some(FLASH), c.request);
      }
    }
  }

  type Evaluator = (E.Case, E.Observation) -> E.CaseResult

  /** A record of an executed case carries its own evaluation; a clean one matched expectations. */
  predicate RecordFaithful(evaluate: Evaluator, c: E.Case, r: Record) {
    && ValidRecord(r) && r.caseId == c.caseId
    && (r.status.Executed? ==>
          && E.ValidObservation(r.observation.value)
          && r.evaluation.value == evaluate(c, r.observation.value))
    && (CleanRecord(r) ==>
          r.evaluation.value.outcomeMatch && r.evaluation.value.classificationMatch && !r.evaluation.value.unsafePublication)
  }

  predicate Faithful(evaluate: Evaluator, d: E.Dataset, records: seq<Record>) {
    && |records| <= |d.cases|
    && forall i :: 0 <= i < |records| ==> RecordFaithful(evaluate, d.cases[i], records[i])
  }

  function Observations(records: seq<Record>): seq<E.Observation> {
    if records == [] then []
    else
      var r := records[|records| - 1];
      Observations(records[..|records| - 1]) + if r.observation.Some? then [r.observation.value] else []
  }

  /**
   Clean executed cases, then at most one failing case, then only skipped cases with the
   stop code; `started` cases were registered.
   */
  predicate Shape(records: seq<Record>, started: nat, stop: Option<FailureCode>) {
    var n := |records|;
    if stop.None? then started == n && AllClean(records)
    else
      && 1 <= started <= n
      && AllClean(records[..started - 1])
      && records[started - 1].failure.Some? && !records[started - 1].status.Skipped?
      && forall i :: started <= i < n ==> records[i].status.Skipped? && records[i].failure == stop
  }

  predicate Registered(d: E.Dataset, order: seq<string>) {
    |order| <= |d.cases| && forall i :: 0 <= i < |order| ==> order[i] == d.cases[i].caseId
  }

  ghost predicate GateInv(evaluate: Evaluator, sound: Ledger -> bool, d: E.Dataset, s: GateState) {
    && sound(s.ledger)
    && Registered(d, s.ledger.order)
    && Faithful(evaluate, d, s.records)
    && s.observations == Observations(s.records)
    && Shape(s.records, |s.ledger.order|, s.ledger.stopCode)
  }

  lemma {:induction false} ObservationsAppend(records: seq<Record>, r: Record)
    ensures Observations(records + [r]) == Observations(records) + if r.observation.Some? then [r.observation.value] else []
  {
    assert (records + [r])[..|records|] == records;
  }

  lemma {:induction false} FaithfulAppend(evaluate: Evaluator, d: E.Dataset, records: seq<Record>, r: Record)
    requires Faithful(evaluate, d, records) && |records| < |d.cases| && RecordFaithful(evaluate, d.cases[|records|], r)
    ensures Faithful(evaluate, d, records + [r])
  {
  }

  lemma {:induction false} ShapeStarted(records: seq<Record>, r: Record, stop: Option<FailureCode>)
    requires Shape(records, |records|, None)
    requires if stop.None? then CleanRecord(r) else r.failure.Some? && !r.status.Skipped?
    ensures Shape(records + [r], |records| + 1, stop)
  {
    assert (records + [r])[..|records|] == records;
  }

  lemma {:induction false} ShapeSkipped(records: seq<Record>, started: nat, stop: Option<FailureCode>, r: Record)
    requires Shape(records, started, stop) && stop.Some? && r.status.Skipped? && r.failure == stop
    ensures Shape(records + [r], started, stop)
  {
    assert (records + [r])[..started - 1] == records[..started - 1];
  }

  /** An unstarted case is not registered yet. */
  lemma {:induction false} NextCaseFresh(d: E.Dataset, l: Ledger)
    requires E.ValidDataset(d) && Totals(l) && Registered(d, l.order) && |l.order| < |d.cases|
    ensures d.cases[|l.order|].caseId !in l.cases
  {
    var n := |l.order|;
    forall i | 0 <= i < n ensures l.order[i] != d.cases[n].caseId {
      assert E.CaseIds(d.cases)[i] != E.CaseIds(d.cases)[n];
    }
  }

  /** Adding the record of a case that was started and ended with the given ledger. */
  lemma {:induction false} StartedCaseKeeps(evaluate: Evaluator, sound: Ledger -> bool, d: E.Dataset, s: GateState,
                                            l: Ledger, r: Record, s': GateState)
    requires GateInv(evaluate, sound, d, s) && |s.records| < |d.cases| && s.ledger.stopCode.None?
    requires sound(l) && l.order == s.ledger.order + [d.cases[|s.records|].caseId]
    requires RecordFaithful(evaluate, d.cases[|s.records|], r) && |s.ledger.order| == |s.records|
    requires if l.stopCode.None? then CleanRecord(r) else r.failure.Some? && !r.status.Skipped?
    requires s' == GateState(l, s.records + [r], s.observations + if r.observation.Some? then [r.observation.value] else [])
    ensures GateInv(evaluate, sound, d, s')
  {
    var n := |s.records|;
    RegisteredAppend(d, s.ledger.order);
    ObservationsAppend(s.records, r);
    FaithfulAppend(evaluate, d, s.records, r);
    ShapeStarted(s.records, r, l.stopCode);
    assert s'.ledger == l && s'.records == s.records + [r];
    assert |l.order| == n + 1;
  }

  lemma {:induction false} RegisteredAppend(d: E.Dataset, order: seq<string>)
    requires Registered(d, order) && |order| < |d.cases|
    ensures Registered(d, order + [d.cases[|order|].caseId])
  {
  }

  lemma {:induction false} ApplyFailureSound(l: Ledger, sem: Semantic, failure: Option<FailureCode>)
    requires Sound(l) && (l.stopCode.Some? ==> failure.Some?)
    ensures var l' := ApplyFailure(l, sem, failure);
      Sound(l') && l'.order == l.order && (failure.None? <==> l'.stopCode.None?)
  {
    if failure.Some? {
      StopProviderSound(l, failure.value, sem.safeErrorCode);
      StopGlobalSound(l, failure.value);
    }
  }

  /** What an accepted observation and its record look like, whatever the evaluation. */
  lemma {:induction false} ObservedRecord(env: Env, c: E.Case, s: GateState, l: Ledger, sem: Semantic)
    requires Sound(l) && c.caseId in l.cases && ValidSemantic(sem) && sem.caseId == c.caseId
    requires ConcludeObserved(env, c, s, l, sem).Go?
    ensures var s' := ConcludeObserved(env, c, s, l, sem).state;
      && |s'.records| == |s.records| + 1
      && var r := s'.records[|s.records|];
         && s'.records == s.records + [r] && r.observation.Some? && !r.status.Skipped?
         && s'.observations == s.observations + [r.observation.value]
         && RecordFaithful(E.EvaluateCase, c, r)
         && s'.ledger == ApplyFailure(l, sem, r.failure) && (l.stopCode.Some? ==> r.failure.Some?)
  {
    var observation := CandidateCase(sem, NO_USE, l.cases[c.caseId]);
    assert E.ValidObservation(observation);
    var result := E.EvaluateCase(c, observation);
    assert result.caseId == c.caseId;
    var r := Record(c.caseId, Executed, CaseFailure(env, l, sem, result), Some(observation), Some(result));
    assert RecordFaithful(E.EvaluateCase, c, r);
  }

  lemma {:induction false} ObservedCaseKeeps(env: Env, d: E.Dataset, s: GateState, l: Ledger, sem: Semantic)
    requires GateInv(E.EvaluateCase, Sound, d, s) && |s.records| < |d.cases| && s.ledger.stopCode.None?
    requires Sound(l) && l.order == s.ledger.order + [d.cases[|s.records|].caseId]
    requires d.cases[|s.records|].caseId in l.cases
    requires ValidSemantic(sem) && sem.caseId == d.cases[|s.records|].caseId
    requires ConcludeObserved(env, d.cases[|s.records|], s, l, sem).Go?
    ensures var s' := ConcludeObserved(env, d.cases[|s.records|], s, l, sem).state;
      GateInv(E.EvaluateCase, Sound, d, s') && |s'.records| == |s.records| + 1
  {
    var c := d.cases[|s.records|];
    ObservedRecord(env, c, s, l, sem);
    var s' := ConcludeObserved(env, c, s, l, sem).state;
    var r := s'.records[|s.records|];
    ApplyFailureSound(l, sem, r.failure);
    StartedCaseKeeps(E.EvaluateCase, Sound, d, s, s'.ledger, r, s');
  }

  lemma {:induction false} UnexecutedFaithful(evaluate: Evaluator, c: E.Case, r: Record)
    requires r.caseId == c.caseId && !r.status.Executed? && r.failure.Some? && r.observation.None? && r.evaluation.None?
    ensures RecordFaithful(evaluate, c, r)
  {
  }

  lemma {:induction false} FailedCaseKeeps(evaluate: Evaluator, sound: Ledger -> bool, d: E.Dataset, s: GateState,
                                           l: Ledger, failure: FailureCode, code: Option<string>)
    requires GateInv(evaluate, sound, d, s) && |s.records| < |d.cases| && s.ledger.stopCode.None?
    requires sound(StopProvider(l, failure, code)) && l.order == s.ledger.order + [d.cases[|s.records|].caseId]
    ensures GateInv(evaluate, sound, d, AddRecord(s, StopProvider(l, failure, code),
      Record(d.cases[|s.records|].caseId, Failed, Some(failure), None, None)))
  {
    var r := Record(d.cases[|s.records|].caseId, Failed, Some(failure), None, None);
    var l' := StopProvider(l, failure, code);
    UnexecutedFaithful(evaluate, d.cases[|s.records|], r);
    assert s.observations + [] == s.observations;
    StartedCaseKeeps(evaluate, sound, d, s, l', r, AddRecord(s, l', r));
  }

  lemma {:induction false} SkippedCaseKeeps(evaluate: Evaluator, sound: Ledger -> bool, d: E.Dataset, s: GateState)
    requires GateInv(evaluate, sound, d, s) && |s.records| < |d.cases| && s.ledger.stopCode.Some?
    ensures GateInv(evaluate, sound, d, AddRecord(s, s.ledger, Record(d.cases[|s.records|].caseId, Skipped, s.ledger.stopCode, None, None)))
  {
    var r := Record(d.cases[|s.records|].caseId, Skipped, s.ledger.stopCode, None, None);
    ObservationsAppend(s.records, r);
    FaithfulAppend(evaluate, d, s.records, r);
    ShapeSkipped(s.records, |s.ledger.order|, s.ledger.stopCode, r);
  }

  lemma {:induction false} StepCaseKeeps(env: Env, d: E.Dataset, s: GateState)
    requires E.ValidDataset(d) && ExecutorContract(env) && GateInv(E.EvaluateCase, Sound, d, s) && |s.records| < |d.cases|
    ensures var step := StepCase(env, d.cases[|s.records|], env.executor(|s.records|), s);
      step.Go? ==> GateInv(E.EvaluateCase, Sound, d, step.state) && |step.state.records| == |s.records| + 1
  {
    var n := |s.records|;
    var c, script := d.cases[n], env.executor(n);
    if s.ledger.stopCode.Some? {
      SkippedCaseKeeps(E.EvaluateCase, Sound, d, s);
    } else {
      NextCaseFresh(d, s.ledger);
      RegisterSound(s.ledger, c.caseId);
      ChatsSound(env.provider, Register(s.ledger, c.caseId), script.calls);
      var l := Chats(env.provider, Register(s.ledger, c.caseId), script.calls);
      if script.outcome.Observed? && script.outcome.semantic.caseId == c.caseId {
        if ConcludeObserved(env, c, s, l, script.outcome.semantic).Go? {
          ObservedCaseKeeps(env, d, s, l, script.outcome.semantic);
        }
      } else if script.outcome.ProviderFault? {
        StopProviderSound(l, script.outcome.classified, Some(script.outcome.code));
        FailedCaseKeeps(E.EvaluateCase, Sound, d, s, l, script.outcome.classified, Some(script.outcome.code));
      } else {
        StopProviderSound(l, CaseObservationInvalid, None);
        FailedCaseKeeps(E.EvaluateCase, Sound, d, s, l, CaseObservationInvalid, None);
      }
    }
  }

  lemma {:induction false} RunCasesKeeps(env: Env, d: E.Dataset, n: nat)
    requires E.ValidDataset(d) && ExecutorContract(env) && n <= |d.cases|
    ensures var step := RunCases(env, d, n); step.Go? ==> GateInv(E.EvaluateCase, Sound, d, step.state) && |step.state.records| == n
  {
    ghost var keeps := (k: nat, s: GateState) => GateInv(E.EvaluateCase, Sound, d, s) && |s.records| == k;
    forall k: nat, s: GateState | k < n && keeps(k, s) ensures Kept(CaseSteps(env, d), keeps, k, s) {
      StepCaseKeeps(env, d, s);
    }
    RunCasesInduction(env, d, keeps, 0, n);
  }

  // ----- the aggregate -----

  lemma {:induction false} ObservationCount(records: seq<Record>)
    requires forall i :: 0 <= i < |records| ==> ValidRecord(records[i])
    ensures |Observations(records)| <= |records|
    ensures |Observations(records)| == |records| <==> forall i :: 0 <= i < |records| ==> records[i].status.Executed?
    ensures |Observations(records)| == |records| ==>
      forall i :: 0 <= i < |records| ==> records[i].observation == Some(Observations(records)[i])
  {
    if records != [] {
      var n := |records| - 1;
      ObservationCount(records[..n]);
      assert forall i :: 0 <= i < n ==> records[..n][i] == records[i];
    }
  }

  /** The observations of fully executed records answer the dataset's cases in order. */
  lemma {:induction false} CompleteObservations(evaluate: Evaluator, d: E.Dataset, records: seq<Record>)
    requires Faithful(evaluate, d, records) && |records| == |d.cases| == |Observations(records)|
    ensures var os := Observations(records);
      && E.ObservedIds(os) == E.CaseIds(d.cases)
      && (forall i :: 0 <= i < |os| ==> E.ValidObservation(os[i]))
      && (forall i :: 0 <= i < |os| ==> records[i].evaluation == Some(evaluate(d.cases[i], os[i])))
      && (forall i :: 0 <= i < |records| ==> records[i].status.Executed?)
  {
    forall i | 0 <= i < |records| ensures ValidRecord(records[i]) {
      assert RecordFaithful(evaluate, d.cases[i], records[i]);
    }
    ObservationCount(records);
    var os := Observations(records);
    forall i | 0 <= i < |os|
      ensures os[i].caseId == d.cases[i].caseId && E.ValidObservation(os[i])
      ensures records[i].evaluation == Some(evaluate(d.cases[i], os[i]))
    {
      assert RecordFaithful(evaluate, d.cases[i], records[i]);
    }
    assert E.ObservedIds(os) == E.CaseIds(d.cases);
  }

  /** When every case executed, the aggregate candidate is valid and its evaluations are the recorded ones. */
  lemma {:induction false} AggregateMatchesRecords(d: E.Dataset, candidate: E.Candidate, records: seq<Record>)
    requires E.ValidDataset(d) && Faithful(E.EvaluateCase, d, records) && |records| == |d.cases| == |candidate.cases|
    requires candidate.cases == Observations(records) && Answers(d, candidate)
    ensures E.ValidCandidate(candidate) && E.EvaluateCandidate(d, candidate).Evaluated?
    ensures EvaluationsRecorded(records, E.EvaluateCandidate(d, candidate).evaluation.cases)
  {
    CompleteObservations(E.EvaluateCase, d, records);
    ET.ObservedHolds(candidate.cases);
    AllCasesObserved(d, candidate);
    ET.AggregateIsCompositional(d, candidate);
    RecordedByPosition(d, candidate, records, E.EvaluateCandidate(d, candidate).evaluation.cases, E.EvaluateCase);
  }

  /** Evaluations matched by case id are matched by position. */
  lemma {:induction false} RecordedByPosition(d: E.Dataset, c: E.Candidate, records: seq<Record>,
                                              rs: seq<E.CaseResult>, evaluate: Evaluator)
    requires |rs| == |records| == |d.cases| == |c.cases| && E.ObservedIds(c.cases) == E.CaseIds(d.cases)
    requires forall i :: 0 <= i < |c.cases| ==> records[i].evaluation == Some(evaluate(d.cases[i], c.cases[i]))
    requires forall i, j :: 0 <= i < |d.cases| && 0 <= j < |c.cases| && c.cases[j].caseId == d.cases[i].caseId ==>
      rs[i] == evaluate(d.cases[i], c.cases[j])
    ensures EvaluationsRecorded(records, rs)
  {
    forall i | 0 <= i < |records| ensures records[i].evaluation == Some(rs[i]) {
      assert E.ObservedIds(c.cases)[i] == E.CaseIds(d.cases)[i];
    }
  }

  predicate EvaluationsRecorded(records: seq<Record>, rs: seq<E.CaseResult>) {
    |rs| == |records| && forall i :: 0 <= i < |rs| ==> records[i].evaluation == Some(rs[i])
  }

  /** The candidate claims the dataset's identity. */
  predicate Answers(d: E.Dataset, c: E.Candidate) {
    && c.schemaVersion == d.schemaVersion && c.datasetId == d.datasetId
    && c.datasetVersion == d.datasetVersion && c.contract == d.contract
  }

  lemma {:induction false} AllCasesObserved(d: E.Dataset, c: E.Candidate)
    requires E.ValidDataset(d) && E.ObservedIds(c.cases) == E.CaseIds(d.cases) && |c.cases| == |d.cases|
    requires Answers(d, c)
    requires forall id :: id in E.Observed(c.cases) <==> id in E.ObservedIds(c.cases)
    ensures E.EvaluateCandidate(d, c).Evaluated?
  {
    forall i | 0 <= i < |d.cases| ensures d.cases[i].caseId in E.Observed(c.cases) {
      assert E.CaseIds(d.cases)[i] == d.cases[i].caseId;
    }
  }

  /** Clean records make every mean exact: outcomes and classifications at one, unsafe publications at zero. */
  lemma {:induction false} CleanMeansExact(records: seq<Record>, rs: seq<E.CaseResult>)
    requires EvaluationsRecorded(records, rs) && records != []
    requires forall i :: 0 <= i < |records| ==> records[i].evaluation.Some? && CleanEvaluation(records[i].evaluation.value)
    ensures E.Mean(E.OutcomeRows(rs)) == E.ONE() && E.Mean(E.ClassificationRows(rs)) == E.ONE() && E.Mean(E.UnsafeRows(rs)) == 0
  {
    ET.CountBounds(E.OutcomeRows(rs));
    ET.CountBounds(E.ClassificationRows(rs));
    ET.CountBounds(E.UnsafeRows(rs));
    ET.RateOfAll(|rs|);
  }

  predicate CleanEvaluation(e: E.CaseResult) {
    e.outcomeMatch && e.classificationMatch && !e.unsafePublication
  }

  // ----- the result -----

  lemma {:induction false} ResourceSums(order: seq<string>, cases: map<string, CaseUse>, rows: seq<CaseResource>,
                                        measure: CaseUse -> nat)
    requires forall id :: id in order ==> id in cases
    requires |rows| == |order| && forall i :: 0 <= i < |order| ==> rows[i] == CaseResource(order[i], cases[order[i]])
    ensures SumUse(rows, measure) == Sum(order, cases, measure)
  {
    if order != [] {
      ResourceSums(order[..|order| - 1], cases, rows[..|rows| - 1], measure);
    }
  }

  lemma {:induction false} SnapshotValid(l: Ledger)
    requires Sound(l) && SnapshotFits(l)
    ensures ValidResources(Resources(l.calls, l.inputTokens, l.outputTokens, l.latency, CaseResources(l), l.stopCode))
  {
    ResourceSums(l.order, l.cases, CaseResources(l), CallsOf);
    ResourceSums(l.order, l.cases, CaseResources(l), InputOf);
    ResourceSums(l.order, l.cases, CaseResources(l), OutputOf);
    assert ResourceIds(CaseResources(l)) == l.order;
  }

  /** A run whose records are all clean has no stop of any kind. */
  lemma {:induction false} CleanRunHasNoStop(records: seq<Record>, started: nat, l: Ledger)
    requires Shape(records, started, l.stopCode) && StopCoherent(l) && records != []
    ensures AllClean(records) <==> l.stopCode.None?
    ensures AllClean(records) ==> l.globalStop.None? && l.providerStop.None?
  {
    if l.stopCode.Some? {
      assert !CleanRecord(records[started - 1]);
    }
  }

  function AggregateOf(d: E.Dataset, admission: Admission, s: GateState): Option<E.Candidate> {
    if |s.observations| == |d.cases| then Some(AggregateCandidate(d, admission, s)) else None
  }

  function EvaluationOf(d: E.Dataset, candidate: Option<E.Candidate>): Option<E.Evaluation> {
    if candidate.Some? && E.EvaluateCandidate(d, candidate.value).Evaluated?
    then Some(E.EvaluateCandidate(d, candidate.value).evaluation) else None
  }

  /** How the aggregate relates to the records of a run that got through its cases. */
  predicate AggregateCoherent(d: E.Dataset, s: GateState, candidate: Option<E.Candidate>, evaluation: Option<E.Evaluation>) {
    && (candidate.Some? <==> evaluation.Some?)
    && (candidate.Some? <==> forall i :: 0 <= i < |s.records| ==> s.records[i].status.Executed?)
    && (candidate.Some? ==> E.ValidCandidate(candidate.value) && candidate.value.externalCalls == s.ledger.calls)
    && (evaluation.Some? ==>
          && evaluation.value.externalCalls == s.ledger.calls
          && EvaluationsRecorded(s.records, evaluation.value.cases)
          && evaluation.value.outcomeAccuracy == E.Mean(E.OutcomeRows(evaluation.value.cases))
          && evaluation.value.classificationAccuracy == E.Mean(E.ClassificationRows(evaluation.value.cases))
          && evaluation.value.unsafeRate == E.Mean(E.UnsafeRows(evaluation.value.cases)))
  }

  lemma {:induction false} RecordsValid(evaluate: Evaluator, d: E.Dataset, records: seq<Record>)
    requires Faithful(evaluate, d, records)
    ensures forall i :: 0 <= i < |records| ==> ValidRecord(records[i]) && records[i].caseId == d.cases[i].caseId
    ensures forall i :: 0 <= i < |records| && CleanRecord(records[i]) ==> CleanEvaluation(records[i].evaluation.value)
  {
    forall i | 0 <= i < |records|
      ensures ValidRecord(records[i]) && records[i].caseId == d.cases[i].caseId
      ensures CleanRecord(records[i]) ==> CleanEvaluation(records[i].evaluation.value)
    {
      assert RecordFaithful(evaluate, d.cases[i], records[i]);
    }
  }

  lemma {:induction false} AggregateOfRun(d: E.Dataset, admission: Admission, s: GateState)
    requires E.ValidDataset(d) && Faithful(E.EvaluateCase, d, s.records) && |s.records| == |d.cases|
    requires s.observations == Observations(s.records)
    ensures var candidate := AggregateOf(d, admission, s); AggregateCoherent(d, s, candidate, EvaluationOf(d, candidate))
  {
    RecordsValid(E.EvaluateCase, d, s.records);
    ObservationCount(s.records);
    if |s.observations| == |d.cases| {
      AggregateMatchesRecords(d, AggregateCandidate(d, admission, s), s.records);
    }
  }

  /** A run that returns has got through its cases, and its result is assembled from that state. */
  lemma {:induction false} ReturnedIsAssembled(env: Env, d: E.Dataset, admission: Admission) returns (s: GateState)
    requires E.ValidDataset(d) && ExecutorContract(env) && RunGate(env, d, admission).GateReturned?
    ensures GateInv(E.EvaluateCase, Sound, d, s) && |s.records| == |d.cases| && SnapshotFits(s.ledger)
    ensures StopShowable(s.ledger.providerStop)
    ensures var candidate := AggregateOf(d, admission, s);
      && AggregateCoherent(d, s, candidate, EvaluationOf(d, candidate))
      && RunGate(env, d, admission) == Assemble(admission, s, candidate, EvaluationOf(d, candidate))
  {
    RunCasesKeeps(env, d, |d.cases|);
    s := RunCases(env, d, |d.cases|).state;
    AggregateOfRun(d, admission, s);
    ConclusionAssembles(d, admission, s);
  }

  lemma {:induction false} AssembledValid(d: E.Dataset, admission: Admission, s: GateState,
                                          candidate: Option<E.Candidate>, evaluation: Option<E.Evaluation>)
    requires Sound(s.ledger) && SnapshotFits(s.ledger) && StopShowable(s.ledger.providerStop)
    requires AggregateCoherent(d, s, candidate, evaluation)
    requires |s.records| == |d.cases|
    requires forall i :: 0 <= i < |s.records| ==> ValidRecord(s.records[i]) && s.records[i].caseId == d.cases[i].caseId
    ensures Assemble(admission, s, candidate, evaluation).GateReturned?
    ensures ValidResult(E.CaseIds(d.cases), admission, Assemble(admission, s, candidate, evaluation).result)
  {
    SnapshotValid(s.ledger);
  }

  lemma {:induction false} AssembledAdmitted(d: E.Dataset, admission: Admission, s: GateState,
                                             candidate: Option<E.Candidate>, evaluation: Option<E.Evaluation>)
    requires SnapshotFits(s.ledger) && StopShowable(s.ledger.providerStop)
    requires AggregateCoherent(d, s, candidate, evaluation) && s.records != []
    requires Shape(s.records, |s.ledger.order|, s.ledger.stopCode) && StopCoherent(s.ledger)
    requires forall i :: 0 <= i < |s.records| && CleanRecord(s.records[i]) ==>
      s.records[i].evaluation.Some? && CleanEvaluation(s.records[i].evaluation.value)
    ensures Assemble(admission, s, candidate, evaluation).GateReturned?
    ensures Assemble(admission, s, candidate, evaluation).result.admitted <==> AllClean(s.records)
  {
    CleanRunHasNoStop(s.records, |s.ledger.order|, s.ledger);
    if AllClean(s.records) {
      CleanMeansExact(s.records, evaluation.value.cases);
    }
  }

  /**
   Admission. Of a run that returns, the whole conjunction behind `admitted` holds exactly
   when every record was executed with no failure.
   */
  lemma {:induction false} AdmittedIff(env: Env, d: E.Dataset, admission: Admission)
    requires E.ValidDataset(d) && ExecutorContract(env) && RunGate(env, d, admission).GateReturned?
    ensures var r := RunGate(env, d, admission).result;
      r.admitted <==> forall i :: 0 <= i < |r.cases| ==> r.cases[i].status.Executed? && r.cases[i].failure.None?
  {
    var s := ReturnedIsAssembled(env, d, admission);
    var candidate := AggregateOf(d, admission, s);
    StateAdmitted(d, admission, s, candidate, EvaluationOf(d, candidate));
  }

  lemma {:induction false} StateAdmitted(d: E.Dataset, admission: Admission, s: GateState,
                                         candidate: Option<E.Candidate>, evaluation: Option<E.Evaluation>)
    requires d.cases != [] && GateInv(E.EvaluateCase, Sound, d, s) && |s.records| == |d.cases|
    requires SnapshotFits(s.ledger) && StopShowable(s.ledger.providerStop) && AggregateCoherent(d, s, candidate, evaluation)
    ensures var o := Assemble(admission, s, candidate, evaluation);
      && o.GateReturned? && o.result.cases == s.records
      && (o.result.admitted <==> AllClean(s.records))
  {
    RecordsValid(E.EvaluateCase, d, s.records);
    AssembledAdmitted(d, admission, s, candidate, evaluation);
  }

  /** The result of any run that returns satisfies every clause of its own validator. */
  lemma {:induction false} ReturnedResultValid(env: Env, d: E.Dataset, admission: Admission)
    requires E.ValidDataset(d) && ExecutorContract(env) && RunGate(env, d, admission).GateReturned?
    ensures ValidResult(E.CaseIds(d.cases), admission, RunGate(env, d, admission).result)
  {
    var s := ReturnedIsAssembled(env, d, admission);
    RecordsValid(E.EvaluateCase, d, s.records);
    var candidate := AggregateOf(d, admission, s);
    AssembledValid(d, admission, s, candidate, EvaluationOf(d, candidate));
  }

  /**
   Clean cases, then at most one failing case, then only skipped cases carrying the stop
   code; and the aggregate evaluation, when there is one, is the recorded evaluations.
   */
  lemma {:induction false} RecordsShaped(env: Env, d: E.Dataset, admission: Admission)
    requires E.ValidDataset(d) && ExecutorContract(env) && RunGate(env, d, admission).GateReturned?
    ensures var r := RunGate(env, d, admission).result;
      && Shape(r.cases, |r.resources.cases|, r.resources.stopCode)
      && Faithful(E.EvaluateCase, d, r.cases)
      && (r.evaluation.Some? ==> EvaluationsRecorded(r.cases, r.evaluation.value.cases))
  {
    var s := ReturnedIsAssembled(env, d, admission);
  }

  // ----- when the gate raises -----

  /** The ledger after case n's executor, started from state s. */
  function LedgerAfterCase(env: Env, d: E.Dataset, s: GateState, n: nat): Ledger
    requires n < |d.cases|
  {
    Chats(env.provider, Register(s.ledger, d.cases[n].caseId), env.executor(n).calls)
  }

  /** The case has used more tokens than it may, or claims more responses than calls were made for it. */
  predicate Exceeds(use: CaseUse, sem: Semantic) {
    CaseTokens(use) > CASE_MAX_TOKENS || sem.responseCount > use.calls
  }

  /** From state s, case n is started, its executor returns an observation of it, and it exceeds its bounds. */
  predicate ExceedsFrom(env: Env, d: E.Dataset, n: nat, s: GateState)
    requires n < |d.cases|
  {
    var outcome, id := env.executor(n).outcome, d.cases[n].caseId;
    && s.ledger.stopCode.None? && outcome.Observed? && outcome.semantic.caseId == id
    && Exceeds(LedgerAfterCase(env, d, s, n).cases[id], outcome.semantic)
  }

  predicate CaseExceeds(env: Env, d: E.Dataset, n: nat)
    requires n < |d.cases|
  {
    RunCases(env, d, n).Go? && ExceedsFrom(env, d, n, RunCases(env, d, n).state)
  }

  lemma {:induction false} ObservedRaisesIff(env: Env, c: E.Case, s: GateState, l: Ledger, sem: Semantic)
    requires Sound(l) && c.caseId in l.cases
    ensures ConcludeObserved(env, c, s, l, sem).Raise? <==> Exceeds(l.cases[c.caseId], sem)
  {
  }

  lemma {:induction false} StartedLedgerSound(env: Env, d: E.Dataset, s: GateState, n: nat)
    requires E.ValidDataset(d) && n < |d.cases| && Sound(s.ledger) && s.ledger.stopCode.None?
    requires Registered(d, s.ledger.order) && |s.ledger.order| == n
    ensures Sound(LedgerAfterCase(env, d, s, n))
  {
    NextCaseFresh(d, s.ledger);
    RegisterSound(s.ledger, d.cases[n].caseId);
    ChatsSound(env.provider, Register(s.ledger, d.cases[n].caseId), env.executor(n).calls);
  }

  lemma {:induction false} StepRaisesIff(env: Env, d: E.Dataset, n: nat, s: GateState)
    requires E.ValidDataset(d) && n < |d.cases| && Sound(s.ledger)
    requires s.ledger.stopCode.None? ==> Registered(d, s.ledger.order) && |s.ledger.order| == n
    ensures StepCase(env, d.cases[n], env.executor(n), s).Raise? <==> ExceedsFrom(env, d, n, s)
  {
    if s.ledger.stopCode.None? {
      StartedLedgerSound(env, d, s, n);
      if env.executor(n).outcome.Observed? {
        ObservedRaisesIff(env, d.cases[n], s, LedgerAfterCase(env, d, s, n), env.executor(n).outcome.semantic);
      }
    }
  }

  lemma {:induction false} NextCaseRaises(env: Env, d: E.Dataset, n: nat)
    requires E.ValidDataset(d) && ExecutorContract(env) && n < |d.cases|
    ensures RunCases(env, d, n + 1).Raise? <==> RunCases(env, d, n).Raise? || CaseExceeds(env, d, n)
  {
    RunCasesKeeps(env, d, n);
    var before := RunCases(env, d, n);
    if before.Go? {
      StepRaisesIff(env, d, n, before.state);
      assert RunCases(env, d, n + 1) == StepCase(env, d.cases[n], env.executor(n), before.state);
    }
  }

  /** A flag that each step can only raise is up exactly when some step raised it. */
  lemma {:induction false} FlagRaised(up: nat -> bool, raises: nat -> bool, n: nat)
    requires !up(0) && forall k: nat :: k < n ==> (up(k + 1) <==> up(k) || raises(k))
    ensures up(n) <==> exists i: nat :: i < n && raises(i)
  {
    if n > 0 {
      FlagRaised(up, raises, n - 1);
      assert up(n - 1 + 1) <==> up(n - 1) || raises(n - 1);
    }
  }

  lemma {:induction false} CasesRaiseIff(env: Env, d: E.Dataset)
    requires E.ValidDataset(d) && ExecutorContract(env)
    ensures RunCases(env, d, |d.cases|).Raise? <==> exists n: nat :: n < |d.cases| && CaseExceeds(env, d, n)
  {
    var up := (k: nat) => k <= |d.cases| && RunCases(env, d, k).Raise?;
    var raises := (k: nat) => k < |d.cases| && CaseExceeds(env, d, k);
    forall k: nat | k < |d.cases| ensures up(k + 1) <==> up(k) || raises(k) {
      NextCaseRaises(env, d, k);
    }
    FlagRaised(up, raises, |d.cases|);
    forall n: nat ensures n < |d.cases| && CaseExceeds(env, d, n) <==> n < |d.cases| && raises(n) {}
  }

  /** A sound ledger fits the snapshot models exactly when no token limit is exceeded. */
  lemma {:induction false} SnapshotFitsIff(l: Ledger)
    requires Sound(l)
    ensures SnapshotFits(l) <==> WithinTokens(l)
  {
    if SnapshotFits(l) {
      forall id | id in l.cases ensures CaseTokens(l.cases[id]) <= CASE_MAX_TOKENS {
        var i :| 0 <= i < |l.order| && l.order[i] == id;
        assert SnapshotOk(l.cases[l.order[i]]);
      }
    }
  }

  /**
   The gate raises exactly when some case exceeds its tokens or over-claims responses when
   it is observed, or the final totals exceed a token limit, or the recorded error code of
   the provider stop cannot be shown; otherwise it returns a result.
   */
  lemma {:induction false} GateRaisesIff(env: Env, d: E.Dataset, admission: Admission)
    requires E.ValidDataset(d) && ExecutorContract(env)
    ensures RunGate(env, d, admission).GateRaised? <==>
      || (exists n: nat :: n < |d.cases| && CaseExceeds(env, d, n))
      || (RunCases(env, d, |d.cases|).Go?
          && var l := RunCases(env, d, |d.cases|).state.ledger; !WithinTokens(l) || !StopShowable(l.providerStop))
  {
    CasesRaiseIff(env, d);
    if RunCases(env, d, |d.cases|).Go? {
      RunCasesKeeps(env, d, |d.cases|);
      var s := RunCases(env, d, |d.cases|).state;
      SnapshotFitsIff(s.ledger);
      AggregateOfRun(d, admission, s);
      ConclusionAssembles(d, admission, s);
    }
  }

  lemma {:induction false} ConclusionAssembles(d: E.Dataset, admission: Admission, s: GateState)
    requires var candidate := AggregateOf(d, admission, s); AggregateCoherent(d, s, candidate, EvaluationOf(d, candidate))
    ensures var candidate := AggregateOf(d, admission, s);
      Conclusion(d, admission, s) == Assemble(admission, s, candidate, EvaluationOf(d, candidate))
  {
  }

  /** A recorded code can be shown unless it starts with a digit or an underscore. */
  lemma {:induction false} RecordedCodeShowableIff(failure: FailureCode, code: string)
    requires SafeErrorCode(Some(code)).Some?
    ensures var safe := SafeErrorCode(Some(code));
      StopShowable(Some(ProviderStop(failure, safe))) <==> 'a' <= safe.value[0] <= 'z'
  {
    assert code != "";
  }

  /** After a stop every case is skipped and the ledger stays. */
  lemma {:induction false} StoppedRunSkips(env: Env, d: E.Dataset, n: nat, m: nat)
    requires n <= m <= |d.cases| && RunCases(env, d, n).Go? && RunCases(env, d, n).state.ledger.stopCode.Some?
    ensures RunCases(env, d, m).Go? && RunCases(env, d, m).state.ledger == RunCases(env, d, n).state.ledger
  {
    if n < m {
      StoppedRunSkips(env, d, n, m - 1);
      StoppedCaseSkips(env, d, m - 1, RunCases(env, d, m - 1).state);
      ProgressLinked(env, d, m - 1);
    }
  }

  lemma {:induction false} StoppedCaseSkips(env: Env, d: E.Dataset, k: nat, s: GateState)
    requires k < |d.cases| && s.ledger.stopCode.Some?
    ensures CaseSteps(env, d)(k, s).Go? && CaseSteps(env, d)(k, s).state.ledger == s.ledger
  {
    assert CaseSteps(env, d)(k, s) == StepCase(env, d.cases[k], env.executor(k), s);
    assert AddRecord(s, s.ledger, Record(d.cases[k].caseId, Skipped, s.ledger.stopCode, None, None)).ledger == s.ledger;
  }

  /**
   An error code such as "429_limited" passes the check that records it and fails the one
   that shows it: a first case that ends with it makes the gate raise.
   */
  lemma {:induction false} DigitCodeRaises(env: Env, d: E.Dataset, admission: Admission, classified: FailureCode)
    requires E.ValidDataset(d) && ExecutorContract(env)
    requires env.executor(0) == Script([], ProviderFault("429_limited", classified))
    ensures RunGate(env, d, admission).GateRaised?
  {
    var code := "429_limited";
    var stop := ProviderStop(classified, Some(code));
    assert code[4] == 'l';
    assert SafeErrorCode(Some(code)) == Some(code);
    assert RunCases(env, d, 0) == Go(EMPTY_STATE);
    assert RunCases(env, d, 1) == StepCase(env, d.cases[0], env.executor(0), EMPTY_STATE);
    FirstFault(env, d.cases[0], code, classified);
    StoppedRunSkips(env, d, 1, |d.cases|);
    GateRaisesIff(env, d, admission);
  }

  lemma {:induction false} FirstFault(env: Env, c: E.Case, code: string, classified: FailureCode)
    ensures var r := StepCase(env, c, Script([], ProviderFault(code, classified)), EMPTY_STATE);
      && r.Go? && r.state.ledger.stopCode == Some(classified)
      && r.state.ledger.providerStop == Some(ProviderStop(classified, SafeErrorCode(Some(code))))
  {
  }

  /** Overspending is never silent: the stop code is set before the gate raises for it. */
  lemma {:induction false} OvershootStops(env: Env, d: E.Dataset, n: nat)
    requires E.ValidDataset(d) && ExecutorContract(env) && n < |d.cases| && CaseExceeds(env, d, n)
    ensures var s := RunCases(env, d, n).state; var l := LedgerAfterCase(env, d, s, n);
      CaseTokens(l.cases[d.cases[n].caseId]) > CASE_MAX_TOKENS ==> l.stopCode.Some?
  {
    RunCasesKeeps(env, d, n);
    StartedLedgerSound(env, d, RunCases(env, d, n).state, n);
  }
}
