/**
 What the records of a run say about its executors and its budget: every reported field
 under its own name, the resources the case had used when it closed, why it failed, and
 how the recorded resources relate to those of the final snapshot.
 */
module DomainGateReports {
  import opened Prelude
  import opened ProviderModels
  import opened BudgetLedger
  import opened BudgetMeaning
  import opened DomainGate
  import opened DomainGateTheorems
  import E = DomainEvaluation

  // ----- one record -----

  /** Each field the executor reports is recorded under its own name; a cost is never recorded. */
  predicate ShowsReport(o: E.Observation, sem: Semantic) {
    && o.caseId == sem.caseId && o.responseCount == sem.responseCount && o.safeErrorCode == sem.safeErrorCode
    && o.agentStatus == sem.agentStatus && o.agentStopReason == sem.agentStopReason
    && o.proposedTools == sem.proposedTools && o.successfulTools == sem.successfulTools && o.evidenceIds == sem.evidenceIds
    && o.factCheck == sem.factCheck && o.citationCheck == sem.citationCheck && o.injectionCheck == sem.injectionCheck
    && o.evaluationValidated == sem.evaluationValidated && o.score == sem.score
    && o.terminalStatus == sem.terminalStatus && o.terminalReason == sem.terminalReason && o.cost.None?
  }

  /** The resources of an observation are those of the given row. */
  predicate ShowsUse(o: E.Observation, use: CaseUse) {
    && o.providerCalls == use.calls && o.latency == Some(use.latency)
    && o.inputTokens == Some(use.inputTokens) && o.outputTokens == Some(use.outputTokens)
  }

  /** Why an executed case failed: the first reason in this order, if there is one. */
  predicate FailsFor(env: Env, stop: Option<FailureCode>, sem: Semantic, e: E.CaseResult, failure: Option<FailureCode>) {
    var code := sem.safeErrorCode;
    && (stop.Some? ==> failure == stop)
    && (stop.None? && code.Some? && code.value != "" ==> failure == Some(env.classify(code.value)))
    && (stop.None? && (code.None? || code.value == "") ==>
          && (e.unsafePublication ==> failure == Some(UnsafePublication))
          && (!e.unsafePublication && !(e.outcomeMatch && e.classificationMatch) ==> failure == Some(CaseOutcomeMismatch))
          && (!e.unsafePublication && e.outcomeMatch && e.classificationMatch ==> failure.None?))
  }

  /** The record of a case that was started and closed with the given ledger. */
  predicate Reported(env: Env, c: E.Case, outcome: Outcome, closed: Ledger, r: Record)
    requires c.caseId in closed.cases
  {
    && r.caseId == c.caseId
    && match outcome
       case ProviderFault(_, classified) =>
         r.status.Failed? && r.failure == Some(classified) && r.observation.None? && r.evaluation.None?
       case OtherFault =>
         r.status.Failed? && r.failure == Some(CaseObservationInvalid) && r.observation.None? && r.evaluation.None?
       case Observed(sem) =>
         if sem.caseId != c.caseId then
           r.status.Failed? && r.failure == Some(CaseObservationInvalid) && r.observation.None? && r.evaluation.None?
         else
           && r.status.Executed? && r.observation.Some? && r.evaluation.Some?
           && ShowsReport(r.observation.value, sem) && ShowsUse(r.observation.value, closed.cases[c.caseId])
           && FailsFor(env, closed.stopCode, sem, r.evaluation.value, r.failure)
  }

  lemma {:induction false} CandidateShows(sem: Semantic, use: CaseUse)
    ensures ShowsReport(CandidateCase(sem, NO_USE, use), sem) && ShowsUse(CandidateCase(sem, NO_USE, use), use)
  {
  }

  lemma {:induction false} ObservedReported(env: Env, c: E.Case, s: GateState, l: Ledger, sem: Semantic)
    requires c.caseId in l.cases && sem.caseId == c.caseId && ConcludeObserved(env, c, s, l, sem).Go?
    ensures var s' := ConcludeObserved(env, c, s, l, sem).state;
      && |s'.records| == |s.records| + 1 && s.records <= s'.records
      && Reported(env, c, Observed(sem), l, s'.records[|s.records|])
      && s'.ledger == ApplyFailure(l, sem, s'.records[|s.records|].failure)
  {
    CandidateShows(sem, l.cases[c.caseId]);
    ObservedAppends(env, c, s, l, sem, E.EvaluateCase(c, CandidateCase(sem, NO_USE, l.cases[c.caseId])));
  }

  /** The appended record, with the evaluation as it comes. */
  lemma {:induction false} ObservedAppends(env: Env, c: E.Case, s: GateState, l: Ledger, sem: Semantic, result: E.CaseResult)
    requires c.caseId in l.cases && ConcludeObserved(env, c, s, l, sem).Go?
    requires result == E.EvaluateCase(c, CandidateCase(sem, NO_USE, l.cases[c.caseId]))
    ensures var s' := ConcludeObserved(env, c, s, l, sem).state;
      var r := Record(c.caseId, Executed, CaseFailure(env, l, sem, result),
                      Some(CandidateCase(sem, NO_USE, l.cases[c.caseId])), Some(result));
      && s'.records == s.records + [r] && s'.ledger == ApplyFailure(l, sem, r.failure)
      && FailsFor(env, l.stopCode, sem, result, r.failure)
  {
  }

  lemma {:induction false} CloseReported(env: Env, c: E.Case, outcome: Outcome, s: GateState, l: Ledger)
    requires c.caseId in l.cases && CloseCase(env, c, outcome, s, l).Go?
    ensures var s' := CloseCase(env, c, outcome, s, l).state;
      && |s'.records| == |s.records| + 1 && s.records <= s'.records
      && Reported(env, c, outcome, l, s'.records[|s.records|])
  {
    if outcome.Observed? && outcome.semantic.caseId == c.caseId {
      ObservedReported(env, c, s, l, outcome.semantic);
    }
  }

  // ----- the records of a run -----

  /** The ledger with which case n closes. */
  function Closing(env: Env, d: E.Dataset, n: nat): Ledger
    requires n < |d.cases| && RunCases(env, d, n).Go?
  {
    LedgerAfterCase(env, d, RunCases(env, d, n).state, n)
  }

  /** The record of case n of a run: skipped after a stop, otherwise what its executor made of it. */
  predicate RecordedAt(env: Env, d: E.Dataset, n: nat, r: Record)
    requires n < |d.cases| && RunCases(env, d, n).Go?
  {
    var stop := RunCases(env, d, n).state.ledger.stopCode;
    if stop.Some? then
      r.status.Skipped? && r.caseId == d.cases[n].caseId && r.failure == stop && r.observation.None? && r.evaluation.None?
    else
      Reported(env, d.cases[n], env.executor(n).outcome, Closing(env, d, n), r)
  }

  lemma {:induction false} NextRecorded(env: Env, d: E.Dataset, n: nat)
    requires n < |d.cases| && RunCases(env, d, n + 1).Go?
    ensures RunCases(env, d, n).Go?
    ensures var s, s' := RunCases(env, d, n).state, RunCases(env, d, n + 1).state;
      && |s'.records| == |s.records| + 1 && s.records <= s'.records && RecordedAt(env, d, n, s'.records[|s.records|])
  {
    ProgressLinked(env, d, n);
    assert RunCases(env, d, n + 1) == Progress(env, d)(n + 1);
    assert RunCases(env, d, n) == Progress(env, d)(n);
    var s := RunCases(env, d, n).state;
    if s.ledger.stopCode.None? {
      CloseReported(env, d.cases[n], env.executor(n).outcome, s, Closing(env, d, n));
    }
  }

  /** Step k of a run appends one record, and it is as it should be. */
  predicate Appended(run: nat -> GateStep, ok: (nat, Record) -> bool, k: nat) {
    run(k + 1).Go? ==>
      && run(k).Go?
      && var before, after := run(k).state.records, run(k + 1).state.records;
         |after| == |before| + 1 && before <= after && ok(k, after[|before|])
  }

  lemma {:induction false} AllAppended(run: nat -> GateStep, ok: (nat, Record) -> bool, n: nat)
    requires run(0).Go? && run(0).state.records == [] && run(n).Go?
    requires forall k: nat :: k < n ==> Appended(run, ok, k)
    ensures |run(n).state.records| == n
    ensures forall i :: 0 <= i < n ==> run(i).Go? && ok(i, run(n).state.records[i])
  {
    if n > 0 {
      assert Appended(run, ok, n - 1);
      AllAppended(run, ok, n - 1);
      var before, after := run(n - 1).state.records, run(n).state.records;
      forall i | 0 <= i < n ensures run(i).Go? && ok(i, after[i]) {
        if i < n - 1 { assert after[i] == before[i]; }
      }
    }
  }

  predicate RecordedOf(env: Env, d: E.Dataset, n: nat, r: Record) {
    n < |d.cases| && RunCases(env, d, n).Go? && RecordedAt(env, d, n, r)
  }

  lemma {:induction false} ProgressAt(env: Env, d: E.Dataset, k: nat)
    requires k <= |d.cases|
    ensures Progress(env, d)(k) == RunCases(env, d, k)
  {
  }

  function RecordOk(env: Env, d: E.Dataset): (nat, Record) -> bool {
    (k: nat, r: Record) => RecordedOf(env, d, k, r)
  }

  /** What case k adds to the records, if the run goes on. */
  predicate CaseRecords(env: Env, d: E.Dataset, k: nat)
    requires k < |d.cases|
  {
    RunCases(env, d, k + 1).Go? ==>
      && RunCases(env, d, k).Go?
      && var before, after := RunCases(env, d, k).state.records, RunCases(env, d, k + 1).state.records;
         |after| == |before| + 1 && before <= after && RecordedOf(env, d, k, after[|before|])
  }

  lemma {:induction false} EveryCaseRecords(env: Env, d: E.Dataset, k: nat)
    requires k < |d.cases|
    ensures CaseRecords(env, d, k)
  {
    if RunCases(env, d, k + 1).Go? {
      NextRecorded(env, d, k);
    }
  }

  lemma {:induction false} CaseAppends(env: Env, d: E.Dataset, k: nat)
    requires k < |d.cases| && CaseRecords(env, d, k)
    ensures Appended(Progress(env, d), RecordOk(env, d), k)
  {
    ProgressAt(env, d, k);
    ProgressAt(env, d, k + 1);
  }

  lemma {:induction false} RunRecorded(env: Env, d: E.Dataset)
    requires Progress(env, d)(|d.cases|).Go?
    ensures |Progress(env, d)(|d.cases|).state.records| == |d.cases|
    ensures forall i :: 0 <= i < |d.cases| ==> RecordedOf(env, d, i, Progress(env, d)(|d.cases|).state.records[i])
  {
    forall k: nat | k < |d.cases| ensures Appended(Progress(env, d), RecordOk(env, d), k) {
      EveryCaseRecords(env, d, k);
      CaseAppends(env, d, k);
    }
    ProgressAt(env, d, 0);
    AllAppended(Progress(env, d), RecordOk(env, d), |d.cases|);
    forall i | 0 <= i < |d.cases| ensures RecordedOf(env, d, i, Progress(env, d)(|d.cases|).state.records[i]) {
      assert RecordOk(env, d)(i, Progress(env, d)(|d.cases|).state.records[i]);
    }
  }

  /** The final state of a run that returns, and its result's own records and resources. */
  ghost predicate ResultOf(env: Env, d: E.Dataset, r: GateResult, l: Ledger) {
    && RunCases(env, d, |d.cases|).Go? && RunCases(env, d, |d.cases|).state.ledger == l
    && r.cases == RunCases(env, d, |d.cases|).state.records
    && r.resources.calls == l.calls && r.resources.inputTokens == l.inputTokens
    && r.resources.outputTokens == l.outputTokens && r.resources.latency == l.latency
    && r.resources.stopCode == l.stopCode && r.globalStop == l.globalStop && r.providerStop == l.providerStop
    && |r.resources.cases| == |l.order|
    && forall i :: 0 <= i < |l.order| ==>
         && l.order[i] in l.cases && r.resources.cases[i].caseId == l.order[i]
         && r.resources.cases[i].use == l.cases[l.order[i]]
  }

  lemma {:induction false} ReturnedShows(env: Env, d: E.Dataset, admission: Admission) returns (l: Ledger)
    requires E.ValidDataset(d) && ExecutorContract(env) && RunGate(env, d, admission).GateReturned?
    ensures ResultOf(env, d, RunGate(env, d, admission).result, l)
    ensures Sound(l) && Registered(d, l.order)
  {
    RunCasesKeeps(env, d, |d.cases|);
    var s := RunCases(env, d, |d.cases|).state;
    AggregateOfRun(d, admission, s);
    ConclusionAssembles(d, admission, s);
    l := s.ledger;
    var candidate := AggregateOf(d, admission, s);
    AssembledShows(admission, s, candidate, EvaluationOf(d, candidate));
  }

  lemma {:induction false} AssembledShows(admission: Admission, s: GateState, candidate: Option<E.Candidate>,
                                          evaluation: Option<E.Evaluation>)
    requires Assemble(admission, s, candidate, evaluation).GateReturned?
    ensures var r, l := Assemble(admission, s, candidate, evaluation).result, s.ledger;
      && r.cases == s.records && r.resources.calls == l.calls && r.resources.inputTokens == l.inputTokens
      && r.resources.outputTokens == l.outputTokens && r.resources.latency == l.latency
      && r.resources.stopCode == l.stopCode && r.globalStop == l.globalStop && r.providerStop == l.providerStop
      && |r.resources.cases| == |l.order|
      && r.candidate == candidate && r.evaluation == evaluation
      && forall i :: 0 <= i < |l.order| ==>
           && l.order[i] in l.cases && r.resources.cases[i].caseId == l.order[i]
           && r.resources.cases[i].use == l.cases[l.order[i]]
  {
  }

  /** Every record of a returned result is what its executor reported and its case had used. */
  lemma {:induction false} RecordsReport(env: Env, d: E.Dataset, admission: Admission)
    requires E.ValidDataset(d) && ExecutorContract(env) && RunGate(env, d, admission).GateReturned?
    ensures var r := RunGate(env, d, admission).result;
      && |r.cases| == |d.cases|
      && forall i :: 0 <= i < |d.cases| ==> RecordedOf(env, d, i, r.cases[i])
  {
    var _ := ReturnedShows(env, d, admission);
    ProgressAt(env, d, |d.cases|);
    RunRecorded(env, d);
  }

  /** The same for executed cases alone: the observation shows the executor's report, field by field. */
  lemma {:induction false} ExecutedReport(env: Env, d: E.Dataset, admission: Admission, i: nat)
    requires E.ValidDataset(d) && ExecutorContract(env) && RunGate(env, d, admission).GateReturned?
    requires i < |d.cases|
    ensures var r := RunGate(env, d, admission).result;
      && |r.cases| == |d.cases|
      && (r.cases[i].status.Executed? ==>
            && env.executor(i).outcome.Observed? && r.cases[i].observation.Some?
            && ShowsReport(r.cases[i].observation.value, env.executor(i).outcome.semantic))
  {
    RecordsReport(env, d, admission);
    assert RecordedOf(env, d, i, RunGate(env, d, admission).result.cases[i]);
  }

  // ----- later calls -----

  /** Rows only grow, and only with calls. */
  predicate GrowsRow(u: CaseUse, u': CaseUse) {
    && u'.calls >= u.calls && u'.inputTokens >= u.inputTokens && u'.outputTokens >= u.outputTokens && u'.latency >= u.latency
    && (u'.calls == u.calls ==> u' == u)
  }

  predicate Grows(l: Ledger, l': Ledger) {
    forall id :: id in l.cases ==> id in l'.cases && GrowsRow(l.cases[id], l'.cases[id])
  }

  lemma {:induction false} ChatGrows(provider: Provider, l: Ledger, id: string, request: ChatRequest)
    requires Sound(l) && id in l.cases
    ensures Grows(l, Chat(provider, l, id, Some(FLASH), request).0)
    ensures forall x :: x in l.cases && x != id ==> Chat(provider, l, id, Some(FLASH), request).0.cases[x] == l.cases[x]
  {
    GrantedIff(provider, l, id, Some(FLASH), request);
    if l.stopCode.None? && CallsLeft(l, id) && TokensLeft(l, id) && AsksForOutput(Some(FLASH), request) {
      GrantedCallAnswers(provider, l, id, Some(FLASH), request);
      var (l', outcome) := Chat(provider, l, id, Some(FLASH), request);
      var reply :| Called(provider, l, l', id, Some(FLASH), request, reply)
                   && Answered(l, l', id, Some(FLASH), reply, outcome);
      AnsweredGrows(l, l', id, reply, outcome);
    }
  }

  /** An answered call moves its own case's row and no other. */
  lemma {:induction false} AnsweredGrows(l: Ledger, l': Ledger, id: string, reply: Reply, outcome: ChatOutcome)
    requires id in l.cases && Answered(l, l', id, Some(FLASH), reply, outcome)
    ensures Grows(l, l') && l'.cases[id].calls == l.cases[id].calls + 1
    ensures forall x :: x in l.cases && x != id ==> l'.cases[x] == l.cases[x]
  {
    match reply.answer
    case Response(r) =>
    case _ =>
  }

  /** No call goes through the wrapper of the case with this id. */
  predicate Leaves(calls: seq<ExecutorCall>, id: string) {
    forall c :: c in calls ==> c.caseId != id
  }

  predicate RowLeft(l: Ledger, l': Ledger, calls: seq<ExecutorCall>, id: string)
    requires id in l.cases
  {
    Leaves(calls, id) ==> id in l'.cases && l'.cases[id] == l.cases[id]
  }

  /** Executors move no row but those of the wrappers they use. */
  lemma {:induction false} ChatsGrow(provider: Provider, l: Ledger, calls: seq<ExecutorCall>)
    requires Sound(l)
    ensures Grows(l, Chats(provider, l, calls))
    ensures forall id :: id in l.cases ==> RowLeft(l, Chats(provider, l, calls), calls, id)
  {
    if calls != [] {
      var front, c := calls[..|calls| - 1], calls[|calls| - 1];
      ChatsGrow(provider, l, front);
      ChatsSound(provider, l, front);
      var before, after := Chats(provider, l, front), Chats(provider, l, calls);
      if c.caseId in before.cases {
        ChatGrows(provider, before, c.caseId, c.request);
      }
      GrowsTransitive(l, before, after);
      forall id | id in l.cases ensures RowLeft(l, after, calls, id) {
        assert RowLeft(l, before, front, id);
        assert c in calls && forall x :: x in front ==> x in calls;
      }
    }
  }

  lemma {:induction false} GrowsTransitive(a: Ledger, b: Ledger, c: Ledger)
    requires Grows(a, b) && Grows(b, c)
    ensures Grows(a, c)
  {
    forall id | id in a.cases ensures id in c.cases && GrowsRow(a.cases[id], c.cases[id]) {
      assert GrowsRow(b.cases[id], c.cases[id]);
    }
  }

  /** A case leaves the rows of earlier cases as the calls of its executor leave them. */
  lemma {:induction false} CloseKeepsRows(env: Env, c: E.Case, outcome: Outcome, s: GateState, l: Ledger)
    requires c.caseId in l.cases && CloseCase(env, c, outcome, s, l).Go?
    ensures CloseCase(env, c, outcome, s, l).state.ledger.cases == l.cases
  {
    if outcome.Observed? && outcome.semantic.caseId == c.caseId {
      ObservedReported(env, c, s, l, outcome.semantic);
    }
  }

  /** What a case does to the rows of the cases before it. */
  predicate RowsMoved(l: Ledger, l': Ledger, calls: seq<ExecutorCall>) {
    Grows(l, l') && forall id :: id in l.cases ==> RowLeft(l, l', calls, id)
  }

  lemma {:induction false} StepMovesRows(env: Env, c: E.Case, script: Script, s: GateState)
    requires Sound(s.ledger) && (s.ledger.stopCode.None? ==> c.caseId !in s.ledger.cases)
    requires StepCase(env, c, script, s).Go?
    ensures RowsMoved(s.ledger, StepCase(env, c, script, s).state.ledger, script.calls)
    ensures s.ledger.stopCode.None? ==>
      StepCase(env, c, script, s).state.ledger.cases == Chats(env.provider, Register(s.ledger, c.caseId), script.calls).cases
  {
    if s.ledger.stopCode.None? {
      var l := Chats(env.provider, Register(s.ledger, c.caseId), script.calls);
      StartedRowsMoved(env, c, script, s, l);
      CloseKeepsRows(env, c, script.outcome, s, l);
      SameRowsMoved(s.ledger, l, StepCase(env, c, script, s).state.ledger, script.calls);
    }
  }

  lemma {:induction false} StartedRowsMoved(env: Env, c: E.Case, script: Script, s: GateState, l: Ledger)
    requires Sound(s.ledger) && c.caseId !in s.ledger.cases
    requires l == Chats(env.provider, Register(s.ledger, c.caseId), script.calls)
    ensures RowsMoved(s.ledger, l, script.calls)
  {
    RegisterSound(s.ledger, c.caseId);
    ChatsGrow(env.provider, Register(s.ledger, c.caseId), script.calls);
    RegisteredSame(s.ledger, c.caseId);
    RegisteredRowsMoved(s.ledger, Register(s.ledger, c.caseId), l, script.calls);
  }

  lemma {:induction false} RegisteredSame(l: Ledger, id: string)
    requires id !in l.cases
    ensures SameRows(l, Register(l, id))
  {
  }

  predicate SameRows(l: Ledger, l': Ledger) {
    forall id :: id in l.cases ==> id in l'.cases && l'.cases[id] == l.cases[id]
  }

  lemma {:induction false} SameRowsMoved(l: Ledger, closed: Ledger, l': Ledger, calls: seq<ExecutorCall>)
    requires RowsMoved(l, closed, calls) && l'.cases == closed.cases
    ensures RowsMoved(l, l', calls)
  {
  }

  lemma {:induction false} RegisteredRowsMoved(l: Ledger, registered: Ledger, closed: Ledger,
                                               calls: seq<ExecutorCall>)
    requires SameRows(l, registered)
    requires RowsMoved(registered, closed, calls)
    ensures RowsMoved(l, closed, calls)
  {
    forall id | id in l.cases
      ensures id in closed.cases && GrowsRow(l.cases[id], closed.cases[id]) && RowLeft(l, closed, calls, id)
    {
      assert GrowsRow(registered.cases[id], closed.cases[id]) && RowLeft(registered, closed, calls, id);
    }
  }

  lemma {:induction false} NextCaseMoves(env: Env, d: E.Dataset, n: nat)
    requires E.ValidDataset(d) && ExecutorContract(env) && n < |d.cases| && RunCases(env, d, n + 1).Go?
    ensures RunCases(env, d, n).Go?
    ensures var l, l' := RunCases(env, d, n).state.ledger, RunCases(env, d, n + 1).state.ledger;
      RowsMoved(l, l', env.executor(n).calls) && (l.stopCode.None? ==> l'.cases == Closing(env, d, n).cases)
  {
    NextRecorded(env, d, n);
    RunCasesKeeps(env, d, n);
    var s := RunCases(env, d, n).state;
    assert RunCases(env, d, n + 1) == StepCase(env, d.cases[n], env.executor(n), s) by {
      ProgressLinked(env, d, n);
    }
    if s.ledger.stopCode.None? {
      NextCaseFresh(d, s.ledger);
    }
    StepMovesRows(env, d.cases[n], env.executor(n), s);
  }

  /** No executor after case i calls through the wrapper of case i. */
  predicate NoLaterCalls(env: Env, d: E.Dataset, i: nat)
    requires i < |d.cases|
  {
    forall k: nat :: i < k < |d.cases| ==> Leaves(env.executor(k).calls, d.cases[i].caseId)
  }

  /** The row of a case in a state of the run, if it has one. */
  function RowIn(step: GateStep, id: string): Option<CaseUse> {
    if step.Go? && id in step.state.ledger.cases then Some(step.state.ledger.cases[id]) else None
  }

  /** A row stays, moves at most by growing, and not at all while it is left alone. */
  predicate RowMove(before: Option<CaseUse>, after: Option<CaseUse>, quiet: bool) {
    before.Some? ==> after.Some? && GrowsRow(before.value, after.value) && (quiet ==> after == before)
  }

  predicate MovesAt(run: nat -> GateStep, id: string, quiet: nat -> bool, k: nat) {
    run(k + 1).Go? ==> run(k).Go? && RowMove(RowIn(run(k), id), RowIn(run(k + 1), id), quiet(k))
  }

  lemma {:induction false} RowChain(run: nat -> GateStep, id: string, quiet: nat -> bool, from: nat, n: nat)
    requires from <= n && run(n).Go? && forall k: nat :: from <= k < n ==> MovesAt(run, id, quiet, k)
    ensures run(from).Go?
    ensures RowMove(RowIn(run(from), id), RowIn(run(n), id), forall k: nat :: from <= k < n ==> quiet(k))
  {
    if from < n {
      assert MovesAt(run, id, quiet, n - 1);
      RowChain(run, id, quiet, from, n - 1);
    }
  }

  lemma {:induction false} MovedRow(l: Ledger, l': Ledger, calls: seq<ExecutorCall>, id: string, s: GateStep, s': GateStep)
    requires s.Go? && s'.Go? && s.state.ledger == l && s'.state.ledger == l' && RowsMoved(l, l', calls)
    ensures RowMove(RowIn(s, id), RowIn(s', id), Leaves(calls, id))
  {
    if id in l.cases {
      assert RowLeft(l, l', calls, id) && GrowsRow(l.cases[id], l'.cases[id]);
    }
  }

  lemma {:induction false} CaseMovesRow(env: Env, d: E.Dataset, id: string, n: nat)
    requires E.ValidDataset(d) && ExecutorContract(env) && n < |d.cases| && RunCases(env, d, n + 1).Go?
    ensures RunCases(env, d, n).Go?
    ensures RowMove(RowIn(RunCases(env, d, n), id), RowIn(RunCases(env, d, n + 1), id), Leaves(env.executor(n).calls, id))
  {
    NextCaseMoves(env, d, n);
    var s, s' := RunCases(env, d, n), RunCases(env, d, n + 1);
    MovedRow(s.state.ledger, s'.state.ledger, env.executor(n).calls, id, s, s');
  }

  /** When case i closes without having been skipped, its row is the one of its closing. */
  lemma {:induction false} ClosedRow(env: Env, d: E.Dataset, i: nat)
    requires E.ValidDataset(d) && ExecutorContract(env) && i < |d.cases| && RunCases(env, d, i + 1).Go?
    requires RunCases(env, d, i).Go? ==> RunCases(env, d, i).state.ledger.stopCode.None?
    ensures RunCases(env, d, i).Go?
    ensures RowIn(RunCases(env, d, i + 1), d.cases[i].caseId) == Some(Closing(env, d, i).cases[d.cases[i].caseId])
  {
    NextCaseMoves(env, d, i);
    assert d.cases[i].caseId in Closing(env, d, i).cases;
  }

  function Quiet(env: Env, id: string): nat -> bool {
    (k: nat) => Leaves(env.executor(k).calls, id)
  }

  /** What case k does to a row, if the run goes on. */
  predicate CaseMoves(env: Env, d: E.Dataset, id: string, k: nat)
    requires k < |d.cases|
  {
    RunCases(env, d, k + 1).Go? ==>
      && RunCases(env, d, k).Go?
      && RowMove(RowIn(RunCases(env, d, k), id), RowIn(RunCases(env, d, k + 1), id), Leaves(env.executor(k).calls, id))
  }

  lemma {:induction false} EveryCaseMoves(env: Env, d: E.Dataset, id: string, k: nat)
    requires E.ValidDataset(d) && ExecutorContract(env) && k < |d.cases|
    ensures CaseMoves(env, d, id, k)
  {
    if RunCases(env, d, k + 1).Go? {
      CaseMovesRow(env, d, id, k);
    }
  }

  lemma {:induction false} CaseMovesAt(env: Env, d: E.Dataset, id: string, k: nat)
    requires k < |d.cases| && CaseMoves(env, d, id, k)
    ensures MovesAt(Progress(env, d), id, Quiet(env, id), k)
  {
    ProgressAt(env, d, k);
    ProgressAt(env, d, k + 1);
  }

  lemma {:induction false} RowMovesAt(env: Env, d: E.Dataset, id: string, k: nat)
    requires E.ValidDataset(d) && ExecutorContract(env) && k < |d.cases|
    ensures MovesAt(Progress(env, d), id, Quiet(env, id), k)
  {
    EveryCaseMoves(env, d, id, k);
    CaseMovesAt(env, d, id, k);
  }

  lemma {:induction false} RowsLater(env: Env, d: E.Dataset, i: nat)
    requires E.ValidDataset(d) && ExecutorContract(env) && i < |d.cases| && Progress(env, d)(|d.cases|).Go?
    requires RunCases(env, d, i).Go? ==> RunCases(env, d, i).state.ledger.stopCode.None?
    ensures RunCases(env, d, i).Go?
    ensures RowMove(Some(Closing(env, d, i).cases[d.cases[i].caseId]), RowIn(Progress(env, d)(|d.cases|), d.cases[i].caseId),
                    NoLaterCalls(env, d, i))
  {
    var id := d.cases[i].caseId;
    forall k: nat | i + 1 <= k < |d.cases| ensures MovesAt(Progress(env, d), id, Quiet(env, id), k) {
      RowMovesAt(env, d, id, k);
    }
    RowChain(Progress(env, d), id, Quiet(env, id), i + 1, |d.cases|);
    ProgressAt(env, d, i + 1);
    ClosedRow(env, d, i);
    if NoLaterCalls(env, d, i) {
      forall k: nat | i + 1 <= k < |d.cases| ensures Quiet(env, id)(k) {}
    }
  }

  /**
   The resources of a record against those of the final snapshot: the snapshot shows no
   less; both agree exactly when they count the same calls, and they do whenever no later
   executor calls through this case's wrapper.
   */
  predicate ResourcesAgree(env: Env, d: E.Dataset, i: nat, o: E.Observation, use: CaseUse)
    requires i < |d.cases|
  {
    && o.inputTokens.Some? && o.outputTokens.Some? && o.latency.Some?
    && o.providerCalls <= use.calls && o.inputTokens.value <= use.inputTokens
    && o.outputTokens.value <= use.outputTokens && o.latency.value <= use.latency
    && (ShowsUse(o, use) <==> o.providerCalls == use.calls)
    && (NoLaterCalls(env, d, i) ==> ShowsUse(o, use))
  }

  lemma {:induction false} RecordedResources(env: Env, d: E.Dataset, admission: Admission, i: nat)
    requires E.ValidDataset(d) && ExecutorContract(env) && RunGate(env, d, admission).GateReturned?
    requires i < |d.cases| && |RunGate(env, d, admission).result.cases| == |d.cases|
    requires RunGate(env, d, admission).result.cases[i].status.Executed?
    ensures var r := RunGate(env, d, admission).result;
      && i < |r.resources.cases| && r.resources.cases[i].caseId == d.cases[i].caseId
      && r.cases[i].observation.Some? && ResourcesAgree(env, d, i, r.cases[i].observation.value, r.resources.cases[i].use)
  {
    var l := ReturnedShows(env, d, admission);
    RecordsReport(env, d, admission);
    var r := RunGate(env, d, admission).result;
    assert RecordedOf(env, d, i, r.cases[i]);
    ProgressAt(env, d, |d.cases|);
    RowsLater(env, d, i);
    RunCasesKeeps(env, d, |d.cases|);
    var k :| 0 <= k < |l.order| && l.order[k] == d.cases[i].caseId;
    assert E.CaseIds(d.cases)[k] == E.CaseIds(d.cases)[i];
    assert k == i;
  }

  // ----- stops -----

  /** The code a provider stop keeps of the one it is given. */
  predicate KeptOf(code: Option<string>, kept: Option<string>) {
    match code case None => kept.None? case Some(text) => KeptAs(text, kept)
  }

  /** The provider is stopped for this failure; what was set before stays. */
  ghost predicate ProviderHalted(l: Ledger, l': Ledger, failure: FailureCode, code: Option<string>) {
    && SameUse(l, l') && l'.inner == l.inner && l'.globalStop == l.globalStop
    && KeepsFirst(l.stopCode, l'.stopCode, failure)
    && exists kept :: KeptOf(code, kept) && KeepsFirst(l.providerStop, l'.providerStop, ProviderStop(failure, kept))
  }

  /** The whole run is stopped for this failure. */
  predicate GloballyHalted(l: Ledger, l': Ledger, failure: FailureCode) {
    && SameUse(l, l') && l'.inner == l.inner && l'.providerStop == l.providerStop
    && KeepsFirst(l.stopCode, l'.stopCode, failure) && KeepsFirst(l.globalStop, l'.globalStop, failure)
  }

  /** What the record of a started case does to the stops. */
  ghost predicate Halts(outcome: Outcome, r: Record, l: Ledger, l': Ledger) {
    if r.failure.None? then l' == l
    else if r.status.Executed? && r.failure == Some(UnsafePublication) then GloballyHalted(l, l', UnsafePublication)
    else ProviderHalted(l, l', r.failure.value, CodeOf(outcome, r))
  }

  /** The provider's error code that comes with an outcome, if it is of the case itself. */
  function CodeOf(outcome: Outcome, r: Record): Option<string> {
    match outcome
    case ProviderFault(code, _) => Some(code)
    case OtherFault => None
    case Observed(sem) => if r.status.Executed? then sem.safeErrorCode else None
  }

  lemma {:induction false} StopHalts(l: Ledger, failure: FailureCode, code: Option<string>)
    ensures ProviderHalted(l, StopProvider(l, failure, code), failure, code)
    ensures GloballyHalted(l, StopGlobal(l, failure), failure)
  {
    StopGlobalMeans(l, failure);
    var l' := StopProvider(l, failure, code);
    if code.Some? {
      CodeKept(code.value);
    }
    assert KeptOf(code, SafeErrorCode(code))
      && KeepsFirst(l.providerStop, l'.providerStop, ProviderStop(failure, SafeErrorCode(code)));
  }

  lemma {:induction false} CloseHalts(env: Env, c: E.Case, outcome: Outcome, s: GateState, l: Ledger)
    requires c.caseId in l.cases && CloseCase(env, c, outcome, s, l).Go?
    ensures var s' := CloseCase(env, c, outcome, s, l).state;
      && |s'.records| == |s.records| + 1
      && Halts(outcome, s'.records[|s.records|], l, s'.ledger)
  {
    match outcome
    case ProviderFault(code, classified) => StopHalts(l, classified, Some(code));
    case OtherFault => StopHalts(l, CaseObservationInvalid, None);
    case Observed(sem) =>
      if sem.caseId != c.caseId {
        StopHalts(l, CaseObservationInvalid, None);
      } else {
        ObservedReported(env, c, s, l, sem);
        var r := CloseCase(env, c, outcome, s, l).state.records[|s.records|];
        if r.failure.Some? {
          StopHalts(l, r.failure.value, sem.safeErrorCode);
        }
      }
  }

  /** Every case that is started sets the stops its record calls for, and no others. */
  lemma {:induction false} CaseHalts(env: Env, d: E.Dataset, n: nat)
    requires n < |d.cases| && RunCases(env, d, n + 1).Go?
    requires RunCases(env, d, n).Go? ==> RunCases(env, d, n).state.ledger.stopCode.None?
    ensures RunCases(env, d, n).Go?
    ensures var s, s' := RunCases(env, d, n).state, RunCases(env, d, n + 1).state;
      && |s'.records| == |s.records| + 1
      && Halts(env.executor(n).outcome, s'.records[|s.records|], Closing(env, d, n), s'.ledger)
  {
    NextRecorded(env, d, n);
    var s := RunCases(env, d, n).state;
    assert RunCases(env, d, n + 1) == CloseCase(env, d.cases[n], env.executor(n).outcome, s, Closing(env, d, n)) by {
      ProgressLinked(env, d, n);
    }
    CloseHalts(env, d.cases[n], env.executor(n).outcome, s, Closing(env, d, n));
  }

  // ----- the aggregate of a result -----

  function OutcomesMatched(records: seq<Record>): seq<bool> {
    seq(|records|, i requires 0 <= i < |records| =>
      records[i].evaluation.Some? && records[i].evaluation.value.succeeded == records[i].evaluation.value.expectedSuccess)
  }

  function FailuresMatched(records: seq<Record>): seq<bool> {
    seq(|records|, i requires 0 <= i < |records| =>
      records[i].evaluation.Some? && records[i].evaluation.value.primaryFailure == records[i].evaluation.value.expectedFailure)
  }

  function PublishedUnsafely(records: seq<Record>): seq<bool> {
    seq(|records|, i requires 0 <= i < |records| =>
      records[i].evaluation.Some? && records[i].evaluation.value.unsafePublication)
  }

  /** The candidate is the recorded observations, in order, under the identity of dataset and experiment. */
  predicate ShowsRecords(d: E.Dataset, r: GateResult, c: E.Candidate) {
    && c.schemaVersion == d.schemaVersion && c.datasetId == d.datasetId && c.datasetVersion == d.datasetVersion
    && c.contract == d.contract && c.externalCalls == r.resources.calls
    && "zhipu-glm53-flash-domain-" <= c.candidateId
    && c.candidateId[|"zhipu-glm53-flash-domain-"|..] <= r.experimentId
    && |c.candidateId| == |"zhipu-glm53-flash-domain-"| + Min(16, |r.experimentId|)
    && |c.cases| == |r.cases| && forall i :: 0 <= i < |c.cases| ==> r.cases[i].observation == Some(c.cases[i])
  }

  /** The evaluation is the recorded ones, in order, and the rates over them. */
  predicate ShowsEvaluations(r: GateResult, e: E.Evaluation) {
    && r.candidate.Some? && e.candidateId == r.candidate.value.candidateId && e.externalCalls == r.resources.calls
    && |e.cases| == |r.cases| && (forall i :: 0 <= i < |e.cases| ==> r.cases[i].evaluation == Some(e.cases[i]))
    && e.outcomeAccuracy == E.Rate(E.CountTrue(OutcomesMatched(r.cases)), |r.cases|)
    && e.classificationAccuracy == E.Rate(E.CountTrue(FailuresMatched(r.cases)), |r.cases|)
    && e.unsafeRate == E.Rate(E.CountTrue(PublishedUnsafely(r.cases)), |r.cases|)
  }

  /** What evaluating a case says about its matches. */
  predicate MatchesItself(e: E.CaseResult) {
    && e.outcomeMatch == (e.succeeded == e.expectedSuccess)
    && e.classificationMatch == (e.primaryFailure == e.expectedFailure)
  }

  lemma {:induction false} EvaluationMatches(c: E.Case, o: E.Observation)
    ensures MatchesItself(E.EvaluateCase(c, o))
  {
  }

  lemma {:induction false} RowsOfRecords(records: seq<Record>, rs: seq<E.CaseResult>)
    requires EvaluationsRecorded(records, rs) && forall i :: 0 <= i < |rs| ==> MatchesItself(rs[i])
    ensures E.OutcomeRows(rs) == OutcomesMatched(records)
    ensures E.ClassificationRows(rs) == FailuresMatched(records)
    ensures E.UnsafeRows(rs) == PublishedUnsafely(records)
  {
  }

  lemma {:induction false} AggregateShows(d: E.Dataset, admission: Admission, s: GateState, c: E.Candidate, e: E.Evaluation,
                                          r: GateResult)
    requires |s.observations| == |d.cases| && c == AggregateCandidate(d, admission, s)
    requires r.experimentId == admission.experimentId && r.resources.calls == s.ledger.calls && r.cases == s.records
    requires |s.records| == |d.cases| && forall i :: 0 <= i < |s.records| ==> s.records[i].observation == Some(s.observations[i])
    ensures ShowsRecords(d, r, c)
  {
    var head := "zhipu-glm53-flash-domain-";
    assert c.candidateId[|head|..] == admission.experimentId[..Min(16, |admission.experimentId|)];
  }

  /** The aggregate of a returned result is made of its records, and there is one exactly when all were executed. */
  lemma {:induction false} ResultAggregates(env: Env, d: E.Dataset, admission: Admission)
    requires E.ValidDataset(d) && ExecutorContract(env) && RunGate(env, d, admission).GateReturned?
    ensures var r := RunGate(env, d, admission).result;
      && (r.candidate.Some? <==> forall i :: 0 <= i < |r.cases| ==> r.cases[i].status.Executed?)
      && (r.candidate.Some? <==> r.evaluation.Some?)
      && (r.candidate.Some? ==> ShowsRecords(d, r, r.candidate.value) && ShowsEvaluations(r, r.evaluation.value))
  {
    var s := ReturnedIsAssembled(env, d, admission);
    var candidate := AggregateOf(d, admission, s);
    var evaluation := EvaluationOf(d, candidate);
    AssembledShows(admission, s, candidate, evaluation);
    if candidate.Some? {
      var r := RunGate(env, d, admission).result;
      assert r.experimentId == admission.experimentId;
      CompleteObservations(E.EvaluateCase, d, s.records);
      ObservationsInPlace(d, s);
      AggregateShows(d, admission, s, candidate.value, evaluation.value, r);
      EvaluationShows(d, s, r, candidate.value, evaluation.value);
    }
  }

  lemma {:induction false} ObservationsInPlace(d: E.Dataset, s: GateState)
    requires Faithful(E.EvaluateCase, d, s.records) && |s.records| == |d.cases|
    requires s.observations == Observations(s.records) && |s.observations| == |d.cases|
    ensures forall i :: 0 <= i < |s.records| ==> s.records[i].observation == Some(s.observations[i])
  {
    RecordsValid(E.EvaluateCase, d, s.records);
    ObservationCount(s.records);
  }

  lemma {:induction false} EvaluationShows(d: E.Dataset, s: GateState, r: GateResult, c: E.Candidate, e: E.Evaluation)
    requires Faithful(E.EvaluateCase, d, s.records) && |s.records| == |d.cases| && r.cases == s.records
    requires AggregateCoherent(d, s, Some(c), Some(e)) && EvaluationOf(d, Some(c)) == Some(e)
    requires r.candidate == Some(c) && r.resources.calls == s.ledger.calls
    ensures ShowsEvaluations(r, e)
  {
    forall i | 0 <= i < |e.cases| ensures MatchesItself(e.cases[i]) {
      assert RecordFaithful(E.EvaluateCase, d.cases[i], s.records[i]);
      EvaluationMatches(d.cases[i], s.records[i].observation.value);
    }
    RowsOfRecords(s.records, e.cases);
  }

  // ----- a run whose records and final resources differ -----

  /** A case that demands nothing but publication. */
  function Lenient(id: string): E.Case {
    E.Case(id, "any", true, None,
           E.Requirements(0, None, None, [], 0, 0, false, false, false, false, None, [E.Published], None, None, None, None))
  }

  /** An executor's report that nothing happened but publication. */
  function Silent(id: string): Semantic {
    Semantic(id, 0, None, None, None, [], [], [], None, None, None, false, None, Some(E.Published), None)
  }

  function NoResponses(): Provider {
    (n, q) => Reply(NotAResponse, 0)
  }

  /** Two cases; the second one's executor calls once, through the first one's wrapper, and gets no response. */
  function Borrower(first: string, second: string, request: ChatRequest): Env {
    Env(NoResponses(),
        (n: nat) => if n == 0 then Script([], Observed(Silent(first)))
                    else Script([ExecutorCall(first, request)], Observed(Silent(second))),
        code => ProviderErrorUnknown)
  }

  function TwoCases(first: string, second: string): E.Dataset {
    E.Dataset("1.0", "data", "1", "contract", [Lenient(first), Lenient(second)])
  }

  /** Both cases are registered, the first one's row counts these calls and nothing else has been used. */
  predicate Charged(l: Ledger, first: string, second: string, calls: nat) {
    && l.order == [first, second] && first in l.cases && second in l.cases
    && l.cases[first] == CaseUse(calls, 0, 0, 0) && l.cases[second] == NO_USE
    && l.calls == calls && l.inputTokens == 0 && l.outputTokens == 0
  }

  lemma {:induction false} SilentIsClean(id: string)
    ensures CleanEvaluation(E.EvaluateCase(Lenient(id), CandidateCase(Silent(id), NO_USE, NO_USE)))
  {
    var o := CandidateCase(Silent(id), NO_USE, NO_USE);
    var ls := E.LayersOf(Lenient(id).requirements, o);
    assert E.AllIn([], []);
    assert ls.providerAgent == E.NOT_APPLICABLE && ls.tool == E.NOT_APPLICABLE && ls.evidence == E.NOT_APPLICABLE;
    assert ls.evaluation == E.NOT_APPLICABLE && !E.Obstructed(E.Functional(ls));
    assert ls.terminal == E.PASS && ls.resources == E.NOT_APPLICABLE;
    ET.SucceededHasNoCodes(Lenient(id), o);
  }

  /** A clean case that has used nothing and reports no error leaves the budget as it is. */
  lemma {:induction false} CleanGoes(env: Env, c: E.Case, s: GateState, l: Ledger, sem: Semantic, e: E.CaseResult)
    requires c.caseId in l.cases && l.cases[c.caseId] == NO_USE && l.stopCode.None?
    requires sem.caseId == c.caseId && sem.responseCount == 0 && sem.safeErrorCode.None?
    requires e == E.EvaluateCase(c, CandidateCase(sem, NO_USE, l.cases[c.caseId]))
    requires CleanEvaluation(e)
    ensures var step := ConcludeObserved(env, c, s, l, sem); step.Go? && step.state.ledger == l
  {
    SnapshotOfNothing(c, l, sem);
    ObservedAppends(env, c, s, l, sem, e);
  }

  lemma {:induction false} SnapshotOfNothing(c: E.Case, l: Ledger, sem: Semantic)
    requires c.caseId in l.cases && l.cases[c.caseId] == NO_USE && sem.responseCount == 0
    ensures SnapshotOk(l.cases[c.caseId])
    ensures CandidateCase(sem, NO_USE, l.cases[c.caseId]).responseCount <= CandidateCase(sem, NO_USE, l.cases[c.caseId]).providerCalls
  {
  }

  lemma {:induction false} NoCalls(provider: Provider, l: Ledger)
    ensures Chats(provider, l, []) == l
  {
  }

  lemma {:induction false} FirstStep(env: Env, d: E.Dataset)
    requires d.cases != []
    ensures RunCases(env, d, 1) == StepCase(env, d.cases[0], env.executor(0), EMPTY_STATE)
  {
    assert RunCases(env, d, 0) == Go(EMPTY_STATE);
  }

  lemma {:induction false} SecondStep(env: Env, d: E.Dataset, s: GateState)
    requires |d.cases| > 1 && RunCases(env, d, 1) == Go(s)
    ensures RunCases(env, d, 2) == StepCase(env, d.cases[1], env.executor(1), s)
  {
  }

  lemma {:induction false} CallFreeStep(env: Env, c: E.Case, script: Script, sem: Semantic)
    requires script == Script([], Observed(sem)) && sem.caseId == c.caseId && sem.responseCount == 0 && sem.safeErrorCode.None?
    requires CleanEvaluation(E.EvaluateCase(c, CandidateCase(sem, NO_USE, NO_USE)))
    ensures var step := StepCase(env, c, script, EMPTY_STATE); step.Go? && step.state.ledger == Register(EMPTY_LEDGER, c.caseId)
  {
    var l := Register(EMPTY_LEDGER, c.caseId);
    NoCalls(env.provider, l);
    CleanGoes(env, c, EMPTY_STATE, l, sem, E.EvaluateCase(c, CandidateCase(sem, NO_USE, NO_USE)));
  }

  /** A call that is answered with something else than a response. */
  lemma {:induction false} UnansweredCall(l: Ledger, id: string, request: ChatRequest)
    requires Sound(l) && id in l.cases && l.stopCode.None? && CallsLeft(l, id) && TokensLeft(l, id) && request.maxTokens.None?
    ensures var l' := Chat(NoResponses(), l, id, Some(FLASH), request).0;
      OneCallCounted(l, l', id) && StoppedBy(l', ProviderResponseInvalid, None)
  {
    GrantedCallAnswers(NoResponses(), l, id, Some(FLASH), request);
    var (l', outcome) := Chat(NoResponses(), l, id, Some(FLASH), request);
    var reply :| Called(NoResponses(), l, l', id, Some(FLASH), request, reply)
                 && Answered(l, l', id, Some(FLASH), reply, outcome);
    assert reply.answer == NotAResponse;
  }

  lemma {:induction false} OneCall(provider: Provider, l: Ledger, call: ExecutorCall)
    requires call.caseId in l.cases
    ensures Chats(provider, l, [call]) == Chat(provider, l, call.caseId, Some(FLASH), call.request).0
  {
    assert [call][..0] == [];
  }

  lemma {:induction false} EmptySound()
    ensures Sound(EMPTY_LEDGER)
  {
  }

  lemma {:induction false} TwoRegistered(a: string, b: string)
    requires a != b
    ensures Sound(Register(Register(EMPTY_LEDGER, a), b))
  {
    EmptySound();
    RegisterSound(EMPTY_LEDGER, a);
    RegisterSound(Register(EMPTY_LEDGER, a), b);
  }

  lemma {:induction false} TwoUncharged(a: string, b: string)
    requires a != b
    ensures Charged(Register(Register(EMPTY_LEDGER, a), b), a, b, 0) && Register(Register(EMPTY_LEDGER, a), b).stopCode.None?
  {
  }

  lemma {:induction false} UnchargedLeaves(l: Ledger, a: string, b: string)
    requires Charged(l, a, b, 0)
    ensures CallsLeft(l, a) && TokensLeft(l, a)
  {
  }

  lemma {:induction false} CountedIsCharged(l: Ledger, l': Ledger, a: string, b: string)
    requires a != b && Charged(l, a, b, 0) && OneCallCounted(l, l', a)
    ensures Charged(l', a, b, 1)
  {
  }

  lemma {:induction false} UnchargedCall(l: Ledger, a: string, b: string, request: ChatRequest)
    requires a != b && Sound(l) && Charged(l, a, b, 0) && l.stopCode.None? && request.maxTokens.None?
    ensures var l' := Chats(NoResponses(), l, [ExecutorCall(a, request)]);
      Charged(l', a, b, 1) && StoppedBy(l', ProviderResponseInvalid, None)
  {
    UnchargedLeaves(l, a, b);
    UnansweredCall(l, a, request);
    CountedIsCharged(l, Chat(NoResponses(), l, a, Some(FLASH), request).0, a, b);
    OneCall(NoResponses(), l, ExecutorCall(a, request));
  }

  lemma {:induction false} BorrowedCall(a: string, b: string, request: ChatRequest)
    requires a != b && request.maxTokens.None?
    ensures var l := Chats(NoResponses(), Register(Register(EMPTY_LEDGER, a), b), [ExecutorCall(a, request)]);
      Charged(l, a, b, 1) && StoppedBy(l, ProviderResponseInvalid, None)
  {
    TwoRegistered(a, b);
    TwoUncharged(a, b);
    UnchargedCall(Register(Register(EMPTY_LEDGER, a), b), a, b, request);
  }

  predicate SameBudget(l: Ledger, l': Ledger) {
    SameUse(l, l') && l'.stopCode == l.stopCode && l'.providerStop == l.providerStop && l'.globalStop == l.globalStop
  }

  /** Once stopped, an observed case changes nothing in the budget. */
  lemma {:induction false} StoppedCaseCloses(env: Env, c: E.Case, s: GateState, l: Ledger, sem: Semantic)
    requires c.caseId in l.cases && sem.caseId == c.caseId && SnapshotOk(l.cases[c.caseId]) && sem.responseCount == 0
    requires l.stopCode.Some? && l.providerStop.Some? && l.stopCode != Some(UnsafePublication)
    ensures CloseCase(env, c, Observed(sem), s, l).Go?
    ensures SameBudget(l, CloseCase(env, c, Observed(sem), s, l).state.ledger)
  {
    CloseHalts(env, c, Observed(sem), s, l);
    ObservedReported(env, c, s, l, sem);
  }

  /** A started case is closed with the ledger its executor's calls leave. */
  lemma {:induction false} StartedStep(env: Env, c: E.Case, script: Script, s: GateState)
    requires s.ledger.stopCode.None?
    ensures var l := Chats(env.provider, Register(s.ledger, c.caseId), script.calls);
      c.caseId in l.cases && StepCase(env, c, script, s) == CloseCase(env, c, script.outcome, s, l)
  {
  }

  lemma {:induction false} ChargedStays(l: Ledger, l': Ledger, a: string, b: string)
    requires Charged(l, a, b, 1) && StoppedBy(l, ProviderResponseInvalid, None) && SameBudget(l, l')
    ensures Charged(l', a, b, 1) && StoppedBy(l', ProviderResponseInvalid, None)
  {
  }

  lemma {:induction false} BorrowingCloses(env: Env, c: E.Case, s: GateState, l: Ledger, a: string, sem: Semantic)
    requires Charged(l, a, c.caseId, 1) && StoppedBy(l, ProviderResponseInvalid, None)
    requires sem.caseId == c.caseId && sem.responseCount == 0
    ensures var step := CloseCase(env, c, Observed(sem), s, l);
      step.Go? && Charged(step.state.ledger, a, c.caseId, 1) && StoppedBy(step.state.ledger, ProviderResponseInvalid, None)
  {
    StoppedCaseCloses(env, c, s, l, sem);
    ChargedStays(l, CloseCase(env, c, Observed(sem), s, l).state.ledger, a, c.caseId);
  }

  lemma {:induction false} BorrowingStep(env: Env, c: E.Case, script: Script, s: GateState, a: string, request: ChatRequest,
                                         sem: Semantic)
    requires a != c.caseId && request.maxTokens.None? && env.provider == NoResponses()
    requires s.ledger == Register(EMPTY_LEDGER, a)
    requires script == Script([ExecutorCall(a, request)], Observed(sem)) && sem.caseId == c.caseId && sem.responseCount == 0
    ensures var step := StepCase(env, c, script, s);
      step.Go? && Charged(step.state.ledger, a, c.caseId, 1) && StoppedBy(step.state.ledger, ProviderResponseInvalid, None)
  {
    StartedStep(env, c, script, s);
    BorrowedCall(a, c.caseId, request);
    BorrowingCloses(env, c, s, Chats(NoResponses(), Register(s.ledger, c.caseId), script.calls), a, sem);
  }

  lemma {:induction false} BorrowerRuns(env: Env, d: E.Dataset, first: string, second: string, request: ChatRequest)
    requires first != second && request.maxTokens.None?
    requires env == Borrower(first, second, request) && d == TwoCases(first, second)
    ensures RunCases(env, d, 2).Go?
    ensures var l := RunCases(env, d, 2).state.ledger; Charged(l, first, second, 1) && StoppedBy(l, ProviderResponseInvalid, None)
  {
    SilentIsClean(first);
    CallFreeStep(env, d.cases[0], env.executor(0), Silent(first));
    FirstStep(env, d);
    SecondStep(env, d, RunCases(env, d, 1).state);
    BorrowingStep(env, d.cases[1], env.executor(1), RunCases(env, d, 1).state, first, request, Silent(second));
  }

  lemma {:induction false} BorrowerIsValid(first: string, second: string, request: ChatRequest)
    requires first != second
    ensures E.ValidDataset(TwoCases(first, second)) && ExecutorContract(Borrower(first, second, request))
  {
    assert E.CaseIds(TwoCases(first, second).cases) == [first, second];
    assert ValidSemantic(Silent(first)) && ValidSemantic(Silent(second));
  }

  lemma {:induction false} ChargedAssembles(admission: Admission, s: GateState, candidate: Option<E.Candidate>,
                                            evaluation: Option<E.Evaluation>, first: string, second: string)
    requires Charged(s.ledger, first, second, 1) && StoppedBy(s.ledger, ProviderResponseInvalid, None)
    ensures Assemble(admission, s, candidate, evaluation).GateReturned?
  {
  }

  lemma {:induction false} BorrowerReturns(env: Env, d: E.Dataset, admission: Admission, first: string, second: string)
    requires E.ValidDataset(d) && ExecutorContract(env) && |d.cases| == 2 && RunCases(env, d, 2).Go?
    requires var l := RunCases(env, d, 2).state.ledger; Charged(l, first, second, 1) && StoppedBy(l, ProviderResponseInvalid, None)
    ensures RunGate(env, d, admission).GateReturned?
  {
    RunCasesKeeps(env, d, 2);
    var s := RunCases(env, d, 2).state;
    AggregateOfRun(d, admission, s);
    ConclusionAssembles(d, admission, s);
    var candidate := AggregateOf(d, admission, s);
    ChargedAssembles(admission, s, candidate, EvaluationOf(d, candidate), first, second);
  }

  lemma {:induction false} FirstRecorded(env: Env, d: E.Dataset, r: Record, sem: Semantic)
    requires d.cases != [] && RecordedOf(env, d, 0, r) && env.executor(0) == Script([], Observed(sem))
    requires sem.caseId == d.cases[0].caseId
    ensures r.status.Executed? && r.observation.Some? && r.observation.value.providerCalls == 0
  {
    assert RunCases(env, d, 0) == Go(EMPTY_STATE);
    NoCalls(env.provider, Register(EMPTY_LEDGER, d.cases[0].caseId));
  }

  /**
   An executor that borrows the wrapper of an earlier case charges that case after its
   record is written: the returned result shows no call in the record and one in the row.
   */
  lemma {:induction false} BorrowedCallUnrecorded(admission: Admission, first: string, second: string, request: ChatRequest)
    requires first != second && request.maxTokens.None?
    ensures var env, d := Borrower(first, second, request), TwoCases(first, second);
      var o := RunGate(env, d, admission);
      && E.ValidDataset(d) && ExecutorContract(env)
      && o.GateReturned? && |o.result.cases| == 2 == |o.result.resources.cases|
      && o.result.cases[0].status.Executed? && o.result.cases[0].observation.Some?
      && o.result.cases[0].observation.value.providerCalls == 0 && o.result.resources.cases[0].use.calls == 1
  {
    var env, d := Borrower(first, second, request), TwoCases(first, second);
    BorrowerIsValid(first, second, request);
    BorrowerRuns(env, d, first, second, request);
    BorrowerReturns(env, d, admission, first, second);
    BorrowerShows(env, d, admission, first, second);
  }

  lemma {:induction false} BorrowerShows(env: Env, d: E.Dataset, admission: Admission, first: string, second: string)
    requires E.ValidDataset(d) && ExecutorContract(env) && |d.cases| == 2 && RunGate(env, d, admission).GateReturned?
    requires RunCases(env, d, 2).Go? && Charged(RunCases(env, d, 2).state.ledger, first, second, 1)
    requires env.executor(0) == Script([], Observed(Silent(d.cases[0].caseId)))
    ensures var r := RunGate(env, d, admission).result;
      && |r.cases| == 2 == |r.resources.cases| && r.cases[0].status.Executed? && r.cases[0].observation.Some?
      && r.cases[0].observation.value.providerCalls == 0 && r.resources.cases[0].use.calls == 1
  {
    var l := ReturnedShows(env, d, admission);
    RecordsReport(env, d, admission);
    FirstRecorded(env, d, RunGate(env, d, admission).result.cases[0], Silent(d.cases[0].caseId));
  }
}
