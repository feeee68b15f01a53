/**
 Build, compile, run, prepare: how a context bundle becomes a loop request and a finished
 run becomes a draft (app/agent/context.py, compiler.py, draft.py).
 */
module SkillRun {
  import opened Prelude
  import opened ProviderModels
  import opened ContextSizer
  import opened ContextSelection
  import Loop = AgentLoop
  import Transcript = AgentLoopTranscript
  import Runs = AgentLoopRuns
  import LoopMethod = AgentLoopMethod

  /** The parts of a validated skill execution that the run derives its limits from. */
  datatype SkillExecution = SkillExecution(
    runId: string, skillName: string, skillVersion: string, contextCeiling: int,
    allowedTools: seq<string>, maxIterations: nat, maxToolCalls: nat, timeout: real)

  /** `ModelRuntimeProfile`, reduced to what reaches the request. */
  datatype RuntimeProfile = RuntimeProfile(agentTimeout: real, temperature: real, maxOutputTokens: int, topP: real)

  datatype ContextBundle = ContextBundle(
    runId: string, skillName: string, skillVersion: string, sections: seq<ContextSection>,
    messages: seq<ChatMessage>, estimatedTokens: int, maxContextTokens: int, omittedSectionIds: seq<string>)

  /** The manifest's own validation (app/skills/models.py). */
  predicate ValidExecution(e: SkillExecution) {
    && 1 <= e.maxIterations <= 20 && 1 <= e.maxToolCalls <= 50
    && 0.0 < e.timeout <= 300.0 && 1000 <= e.contextCeiling <= 200_000
    && Distinct(e.allowedTools) && forall i :: 0 <= i < |e.allowedTools| ==> !Blank(e.allowedTools[i])
  }

  predicate ValidProfile(p: RuntimeProfile) {
    0.0 < p.agentTimeout <= 300.0 && 0.0 <= p.temperature <= 2.0 && 1 <= p.maxOutputTokens <= 8192 && 0.0 <= p.topP <= 1.0
  }

  // ----- build -----

  function Stripped(ids: seq<string>): seq<string> {
    seq(|ids|, i requires 0 <= i < |ids| => Strip(ids[i]))
  }

  /** The checks of `ContextBundle.__post_init__`. */
  predicate BundleAccepted(b: ContextBundle) {
    var ids, omitted := Ids(b.sections), Stripped(b.omittedSectionIds);
    && Distinct(ids)
    && |b.messages| == 2 && b.messages[0].role.System? && b.messages[1].role.User?
    && b.messages == RenderMessages(b.sections)
    && 0 < b.maxContextTokens && 0 <= b.estimatedTokens <= b.maxContextTokens
    && (forall i :: 0 <= i < |omitted| ==> omitted[i] != "")
    && Distinct(omitted)
    && (forall i, j :: 0 <= i < |ids| && 0 <= j < |omitted| ==> ids[i] != omitted[j])
  }

  datatype BuildResult = Built(bundle: ContextBundle) | LimitInvalid | BudgetError | BundleRejected

  function EffectiveLimit(e: SkillExecution, callerLimit: Option<int>): int {
    Min(e.contextCeiling, if callerLimit.Some? then callerLimit.value else e.contextCeiling)
  }

  /** From assembled sections to a checked bundle. */
  function Build(sizer: Sizer, sections: seq<ContextSection>, e: SkillExecution, callerLimit: Option<int>): BuildResult {
    if callerLimit.Some? && callerLimit.value <= 0 then LimitInvalid
    else
      var limit := EffectiveLimit(e, callerLimit);
      match Select(sizer, sections, limit)
      case BudgetExceeded => BudgetError
      case Selected(selected, messages, estimate, omitted) =>
        var b := ContextBundle(e.runId, e.skillName, e.skillVersion, selected, messages, estimate, limit, omitted);
        if BundleAccepted(b) then Built(b) else BundleRejected
  }

  lemma {:induction false} StrippedTrimmed(ids: seq<string>)
    requires forall i :: 0 <= i < |ids| ==> Trimmed(ids[i])
    ensures Stripped(ids) == ids
  {
    forall i | 0 <= i < |ids| ensures Stripped(ids)[i] == ids[i] {
      TrimmedIff(ids[i]);
    }
  }

  /** Two lists are duplicate-free and disjoint exactly when their union counts nothing twice. */
  lemma {:induction false} DistinctTogether(a: seq<string>, b: seq<string>, whole: seq<string>)
    requires multiset(a) + multiset(b) == multiset(whole)
    ensures Distinct(whole) <==> Distinct(a) && Distinct(b) && forall i, j :: 0 <= i < |a| && 0 <= j < |b| ==> a[i] != b[j]
  {
    DistinctCounts(a + b);
    DistinctCounts(whole);
    assert multiset(a + b) == multiset(whole);
    var ab := a + b;
    if Distinct(ab) {
      forall i, j | 0 <= i < j < |a| ensures a[i] != a[j] { assert ab[i] != ab[j]; }
      forall i, j | 0 <= i < j < |b| ensures b[i] != b[j] { assert ab[|a| + i] != ab[|a| + j]; }
      forall i, j | 0 <= i < |a| && 0 <= j < |b| ensures a[i] != b[j] { assert ab[i] != ab[|a| + j]; }
    }
  }

  lemma {:induction false} DistinctCounts(s: seq<string>)
    ensures Distinct(s) <==> forall x :: x in multiset(s) ==> multiset(s)[x] == 1
  {
    if s != [] {
      var n := |s| - 1;
      var front, last := s[..n], s[n];
      DistinctCounts(front);
      assert s == front + [last];
      assert multiset(s) == multiset(front) + multiset{last};
      if Distinct(s) {
        assert Distinct(front) && last !in front;
        assert last !in multiset(front);
      } else if Distinct(front) {
        assert last in front;
        assert multiset(s)[last] == 2;
      } else {
        var x :| x in multiset(front) && multiset(front)[x] != 1;
        assert multiset(s)[x] != 1;
      }
    }
  }

  /**
   For trimmed ids and a non-negative sizer, building succeeds exactly when the required
   sections fit and no section id occurs twice in the input, selected or not.
   */
  lemma {:induction false} BuildSucceedsIff(sizer: Sizer, sections: seq<ContextSection>, e: SkillExecution,
                                            callerLimit: Option<int>)
    requires ValidExecution(e) && (callerLimit.Some? ==> 0 < callerLimit.value)
    requires forall i :: 0 <= i < |sections| ==> Trimmed(sections[i].sectionId)
    requires forall ms :: 0 <= sizer(ms)
    ensures Build(sizer, sections, e, callerLimit).Built?
       <==> Fits(sizer, sections, EffectiveLimit(e, callerLimit), RequiredIndices(sections)) && Distinct(Ids(sections))
  {
    var limit := EffectiveLimit(e, callerLimit);
    if Fits(sizer, sections, limit, RequiredIndices(sections)) {
      SelectionAccepted(sizer, sections, e, limit, Select(sizer, sections, limit));
    }
  }

  /** A bundle of a selection passes the checks exactly when no id repeats. */
  lemma {:induction false} SelectionAccepted(sizer: Sizer, sections: seq<ContextSection>, e: SkillExecution, limit: int,
                                             r: Selection)
    requires r == Select(sizer, sections, limit) && r.Selected? && 0 < limit
    requires forall i :: 0 <= i < |sections| ==> Trimmed(sections[i].sectionId)
    requires forall ms :: 0 <= sizer(ms)
    ensures BundleAccepted(ContextBundle(e.runId, e.skillName, e.skillVersion, r.sections, r.messages, r.estimate, limit, r.omitted))
       <==> Distinct(Ids(sections))
  {
    var chosen := Choice(sizer, sections, limit);
    GreedyBounds(sizer, sections, limit, TrialOrder(sections, |sections|), RequiredIndices(sections));
    SelectedIds(sections, chosen, Ids(Pick(sections, chosen)), Ids(Pick(sections, Indices(sections) - chosen)));
  }

  /** Selected and omitted ids pass the bundle's checks exactly when the input repeats none. */
  lemma {:induction false} SelectedIds(sections: seq<ContextSection>, chosen: set<nat>, ids: seq<string>,
                                       omitted: seq<string>)
    requires forall i :: 0 <= i < |sections| ==> Trimmed(sections[i].sectionId)
    requires ids == Ids(Pick(sections, chosen)) && omitted == Ids(Pick(sections, Indices(sections) - chosen))
    ensures Stripped(omitted) == omitted && forall i :: 0 <= i < |omitted| ==> omitted[i] != ""
    ensures Distinct(Ids(sections)) <==>
      Distinct(ids) && Distinct(omitted) && forall i, j :: 0 <= i < |ids| && 0 <= j < |omitted| ==> ids[i] != omitted[j]
  {
    IdsPartition(sections, chosen, Indices(sections) - chosen);
    DistinctTogether(ids, omitted, Ids(sections));
    PickedIdsTrimmed(sections, Indices(sections) - chosen);
    StrippedTrimmed(omitted);
  }

  lemma {:induction false} PickedIdsTrimmed(sections: seq<ContextSection>, chosen: set<nat>)
    requires forall i :: 0 <= i < |sections| ==> Trimmed(sections[i].sectionId)
    ensures var ids := Ids(Pick(sections, chosen)); forall i :: 0 <= i < |ids| ==> Trimmed(ids[i])
  {
    PickKeepsOrder(sections, chosen);
  }

  // ----- compile -----

  datatype CompileResult =
    | Compiled(request: Loop.RunRequest)
    | IdentityMismatch
    | ExceedsCeiling
    | ExceedsLimit
    | MissingTools(names: seq<string>)

  function Unregistered(tools: seq<string>, registry: map<string, Loop.ToolDefinition>): seq<string> {
    if tools == [] then []
    else
      var n := |tools| - 1;
      Unregistered(tools[..n], registry) + if tools[n] in registry then [] else [tools[n]]
  }

  function RequestOf(e: SkillExecution, b: ContextBundle, profile: Option<RuntimeProfile>): Loop.RunRequest {
    match profile
    case None =>
      Loop.RunRequest(b.messages, e.allowedTools, e.maxIterations, e.maxToolCalls, e.timeout, b.maxContextTokens, 0.0, None, None)
    case Some(p) =>
      Loop.RunRequest(b.messages, e.allowedTools, e.maxIterations, e.maxToolCalls, p.agentTimeout, b.maxContextTokens,
                      p.temperature, Some(p.maxOutputTokens), Some(p.topP))
  }

  function Compile(sizer: Sizer, registry: map<string, Loop.ToolDefinition>, profile: Option<RuntimeProfile>,
                   e: SkillExecution, b: ContextBundle): CompileResult
  {
    if (b.runId, b.skillName, b.skillVersion) != (e.runId, e.skillName, e.skillVersion) then IdentityMismatch
    else if b.maxContextTokens > e.contextCeiling then ExceedsCeiling
    else if sizer(b.messages) > b.maxContextTokens then ExceedsLimit
    else
      var missing := Unregistered(e.allowedTools, registry);
      if missing != [] then MissingTools(missing) else Compiled(RequestOf(e, b, profile))
  }

  /** The list of missing tools, grown in a loop. */
  method CollectMissing(tools: seq<string>, registry: map<string, Loop.ToolDefinition>) returns (missing: seq<string>)
    ensures missing == Unregistered(tools, registry)
  {
    missing := [];
    for k := 0 to |tools|
      invariant missing == Unregistered(tools[..k], registry)
    {
      assert tools[..k + 1][..k] == tools[..k];
      if tools[k] !in registry {
        missing := missing + [tools[k]];
      }
    }
    assert tools[..|tools|] == tools;
  }

  method CompileRun(sizer: Sizer, registry: map<string, Loop.ToolDefinition>, profile: Option<RuntimeProfile>,
                    e: SkillExecution, b: ContextBundle) returns (r: CompileResult)
    ensures r == Compile(sizer, registry, profile, e, b)
  {
    if b.runId != e.runId || b.skillName != e.skillName || b.skillVersion != e.skillVersion {
      return IdentityMismatch;
    }
    if b.maxContextTokens > e.contextCeiling {
      return ExceedsCeiling;
    }
    if sizer(b.messages) > b.maxContextTokens {
      return ExceedsLimit;
    }
    var missing := CollectMissing(e.allowedTools, registry);
    if missing != [] {
      return MissingTools(missing);
    }
    r := Compiled(RequestOf(e, b, profile));
  }

  /** The missing tools are exactly the allowed ones the registry does not know. */
  lemma {:induction false} UnregisteredMeans(tools: seq<string>, registry: map<string, Loop.ToolDefinition>)
    ensures forall t :: t in Unregistered(tools, registry) <==> t in tools && t !in registry
  {
    if tools != [] {
      var n := |tools| - 1;
      UnregisteredMeans(tools[..n], registry);
      assert tools == tools[..n] + [tools[n]];
    }
  }

  /** The missing tools are named in the order in which they are allowed. */
  lemma {:induction false} UnregisteredInOrder(tools: seq<string>, registry: map<string, Loop.ToolDefinition>)
    returns (places: seq<nat>)
    ensures |places| == |Unregistered(tools, registry)| && forall a, b :: 0 <= a < b < |places| ==> places[a] < places[b]
    ensures forall k :: 0 <= k < |places| ==> places[k] < |tools| && tools[places[k]] == Unregistered(tools, registry)[k]
  {
    places := [];
    if tools != [] {
      var n := |tools| - 1;
      places := UnregisteredInOrder(tools[..n], registry);
      if tools[n] !in registry {
        places := places + [n];
      }
    }
  }

  predicate SameRun(e: SkillExecution, b: ContextBundle) {
    b.runId == e.runId && b.skillName == e.skillName && b.skillVersion == e.skillVersion
  }

  /** Every allowed tool is registered. */
  predicate ToolsKnown(e: SkillExecution, registry: map<string, Loop.ToolDefinition>) {
    forall t :: t in e.allowedTools ==> t in registry
  }

  /** Limits and tools are the skill's, the sampling the profile's; without one it is deterministic. */
  predicate AsksFor(e: SkillExecution, b: ContextBundle, profile: Option<RuntimeProfile>, r: Loop.RunRequest) {
    && r.messages == b.messages && r.allowedTools == e.allowedTools && r.maxContextTokens == b.maxContextTokens
    && r.maxIterations == e.maxIterations && r.maxToolCalls == e.maxToolCalls
    && match profile
       case None => r.timeout == e.timeout && r.temperature == 0.0 && r.maxTokens.None? && r.topP.None?
       case Some(p) =>
         && r.timeout == p.agentTimeout && r.temperature == p.temperature
         && r.maxTokens == Some(p.maxOutputTokens) && r.topP == Some(p.topP)
  }

  /** What compiling decides, for any bundle: which check fails first, or the request in every field. */
  lemma {:induction false} CompileDecides(sizer: Sizer, registry: map<string, Loop.ToolDefinition>,
                                          profile: Option<RuntimeProfile>, e: SkillExecution, b: ContextBundle)
    ensures var r := Compile(sizer, registry, profile, e, b);
      && (r.IdentityMismatch? <==> !SameRun(e, b))
      && (r.ExceedsCeiling? <==> SameRun(e, b) && b.maxContextTokens > e.contextCeiling)
      && (r.ExceedsLimit? <==> SameRun(e, b) && b.maxContextTokens <= e.contextCeiling && sizer(b.messages) > b.maxContextTokens)
      && (r.MissingTools? <==>
            && SameRun(e, b) && sizer(b.messages) <= b.maxContextTokens <= e.contextCeiling && !ToolsKnown(e, registry))
      && (r.MissingTools? ==> forall t :: t in r.names <==> t in e.allowedTools && t !in registry)
      && (r.Compiled? ==> AsksFor(e, b, profile, r.request))
  {
    UnregisteredMeans(e.allowedTools, registry);
    var missing := Unregistered(e.allowedTools, registry);
    if missing != [] {
      assert missing[0] in missing;
    }
  }

  /**
   A bundle built for an execution with the compiler's sizer can fail to compile only for
   unregistered tools, which the error names; otherwise the request is valid and carries
   the bundle's messages and ceiling.
   */
  lemma {:induction false} BuiltBundleCompiles(sizer: Sizer, registry: map<string, Loop.ToolDefinition>,
                                               profile: Option<RuntimeProfile>,
                            sections: seq<ContextSection>, e: SkillExecution, callerLimit: Option<int>)
    requires ValidExecution(e) && (profile.Some? ==> ValidProfile(profile.value))
    requires Build(sizer, sections, e, callerLimit).Built?
    ensures var b := Build(sizer, sections, e, callerLimit).bundle;
      var r := Compile(sizer, registry, profile, e, b);
      && (r.Compiled? || r.MissingTools?)
      && (r.Compiled? <==> forall t :: t in e.allowedTools ==> t in registry)
      && (r.MissingTools? ==> forall t :: t in r.names <==> t in e.allowedTools && t !in registry)
      && (r.Compiled? ==>
            && Loop.ValidRequest(r.request) && r.request.messages == b.messages
            && r.request.allowedTools == e.allowedTools
            && r.request.maxContextTokens == b.maxContextTokens && sizer(b.messages) <= b.maxContextTokens)
  {
    UnregisteredMeans(e.allowedTools, registry);
    var missing := Unregistered(e.allowedTools, registry);
    if missing != [] {
      assert missing[0] in missing;
    }
  }

  /** A compiled request never fails on tool configuration, nor on context size before its first answer. */
  lemma {:induction false} CompiledRunStarts(env: Loop.Env, profile: Option<RuntimeProfile>, e: SkillExecution,
                                             b: ContextBundle)
    requires ValidExecution(e) && (profile.Some? ==> ValidProfile(profile.value))
    requires BundleAccepted(b)
    requires Compile(env.sizer, env.registry, profile, e, b).Compiled?
    ensures var r := Loop.Final(env, Compile(env.sizer, env.registry, profile, e, b).request).phase.result;
      && !r.stopReason.InvalidToolConfiguration?
      && (r.stopReason.ContextBudgetExceeded? ==> r.responses != [])
      && b.messages <= r.messages
  {
    var req := RequestOf(e, b, profile);
    UnregisteredMeans(e.allowedTools, env.registry);
    assert Loop.ToolsRegistered(env, req) by {
      forall i | 0 <= i < |e.allowedTools| ensures e.allowedTools[i] in env.registry {
        assert e.allowedTools[i] in Unregistered(e.allowedTools, env.registry) <==> e.allowedTools[i] !in env.registry;
      }
    }
    Runs.EveryExitExplained(env, req);
    var f := Loop.Final(env, req);
    var bs :| Runs.GrammarOfRun(req, bs, f) && Runs.ExitCause(env, req, bs, f, f.phase.result);
    if f.responses == [] {
      assert bs == [];
      assert req.messages + Transcript.Flatten([]) == req.messages;
    }
  }

  // ----- prepare -----

  const KNOWLEDGE_TOOL := "knowledge.search"

  /** Evidence built from the search payloads, or None when they cannot be attributed. */
  type EvidenceBuilder<!E> = seq<string> -> Option<E>

  datatype Preparation<+E> = Prepared(report: string, knowledge: E, run: Loop.RunResult) | Refused

  /** An execution that may contribute evidence. */
  predicate Usable(x: Loop.ToolExecutionRecord) {
    && x.toolName == KNOWLEDGE_TOOL && x.result.toolName == x.toolName
    && x.result.success && x.result.data.Some?
  }

  /** The payloads of usable executions, or None at the first unusable one. */
  function Payloads(xs: seq<Loop.ToolExecutionRecord>): Option<seq<string>> {
    if xs == [] then Some([])
    else if !Usable(xs[0]) then None
    else match Payloads(xs[1..])
      case None => None
      case Some(rest) => Some([xs[0].result.data.value] + rest)
  }

  /** `_knowledge_from_actual_tool_executions`, up to the evidence builder. */
  method CollectPayloads(xs: seq<Loop.ToolExecutionRecord>) returns (r: Option<seq<string>>)
    ensures r == Payloads(xs)
  {
    var payloads: seq<string> := [];
    for k := 0 to |xs|
      invariant Payloads(xs).Some? <==> Payloads(xs[k..]).Some?
      invariant Payloads(xs).Some? ==> Payloads(xs).value == payloads + Payloads(xs[k..]).value
    {
      var x := xs[k];
      assert xs[k..][0] == x && xs[k..][1..] == xs[k + 1..];
      if x.toolName != KNOWLEDGE_TOOL {
        return None;
      }
      if x.result.toolName != x.toolName {
        return None;
      }
      if !x.result.success {
        return None;
      }
      if x.result.data.None? {
        return None;
      }
      payloads := payloads + [x.result.data.value];
    }
    assert xs[|xs|..] == [] && Payloads([]) == Some([]);
    assert payloads + [] == payloads;
    r := Some(payloads);
  }

  /** Payloads exist exactly when every execution is usable, and are then their data, in order. */
  lemma {:induction false} PayloadsMean(xs: seq<Loop.ToolExecutionRecord>)
    ensures Payloads(xs).Some? <==> forall i :: 0 <= i < |xs| ==> Usable(xs[i])
    ensures Payloads(xs).Some? ==> |Payloads(xs).value| == |xs|
    ensures Payloads(xs).Some? ==> forall i :: 0 <= i < |xs| ==> Some(Payloads(xs).value[i]) == xs[i].result.data
  {
    if xs != [] {
      PayloadsMean(xs[1..]);
      assert forall i :: 0 < i < |xs| ==> xs[i] == xs[1..][i - 1];
      assert forall i :: 0 <= i < |xs[1..]| ==> xs[1..][i] == xs[i + 1];
    }
  }

  function Prepare<E>(env: Loop.Env, build: EvidenceBuilder<E>, profile: Option<RuntimeProfile>, sizer: Sizer,
                      e: SkillExecution, b: ContextBundle): Preparation<E>
  {
    var compiled := Compile(sizer, env.registry, profile, e, b);
    if !compiled.Compiled? then Refused else DraftFrom(build, Loop.Final(env, compiled.request).phase.result)
  }

  /** What `prepare` makes of a finished run. */
  function DraftFrom<E>(build: EvidenceBuilder<E>, r: Loop.RunResult): Preparation<E> {
    if !(r.status.Completed? && r.stopReason.FinalResponse?) then Refused
    else if r.finalResponse.None? || r.finalResponse.value.content.None? || Blank(r.finalResponse.value.content.value) then Refused
    else
      var payloads := Payloads(r.executions);
      if payloads.None? then Refused
      else match build(payloads.value)
        case None => Refused
        case Some(knowledge) => Prepared(r.finalResponse.value.content.value, knowledge, r)
  }

  /** `prepare`: compile, run, and turn a completed run into an unpublished draft. */
  method PrepareDraft<E>(env: Loop.Env, build: EvidenceBuilder<E>, profile: Option<RuntimeProfile>, sizer: Sizer,
                         e: SkillExecution, b: ContextBundle) returns (p: Preparation<E>)
    requires ValidExecution(e) && (profile.Some? ==> ValidProfile(profile.value)) && BundleAccepted(b)
    ensures p == Prepare(env, build, profile, sizer, e, b)
  {
    var compiled := CompileRun(sizer, env.registry, profile, e, b);
    if !compiled.Compiled? {
      return Refused;
    }
    var run, signals := LoopMethod.Run(env, compiled.request);
    if !run.status.Completed? || !run.stopReason.FinalResponse? {
      return Refused;
    }
    if run.finalResponse.None? || run.finalResponse.value.content.None? || Blank(run.finalResponse.value.content.value) {
      return Refused;
    }
    var payloads := CollectPayloads(run.executions);
    if payloads.None? {
      return Refused;
    }
    var knowledge := build(payloads.value);
    if knowledge.None? {
      return Refused;
    }
    p := Prepared(run.finalResponse.value.content.value, knowledge.value, run);
  }

  function DataOf(x: Loop.ToolExecutionRecord): string {
    if x.result.data.Some? then x.result.data.value else ""
  }

  function AllData(xs: seq<Loop.ToolExecutionRecord>): seq<string> {
    seq(|xs|, i requires 0 <= i < |xs| => DataOf(xs[i]))
  }

  /** What `prepare` demands of a finished run, and what it makes of it. */
  ghost predicate DraftOf<E>(build: EvidenceBuilder<E>, r: Loop.RunResult, p: Preparation<E>) {
    && (p.Prepared? <==>
          && r.status.Completed?
          && (forall i :: 0 <= i < |r.executions| ==> Usable(r.executions[i]))
          && build(AllData(r.executions)).Some?)
    && (p.Prepared? ==>
          && p.run == r && r.responses != []
          && Some(p.report) == Transcript.Last(r.responses).content
          && Some(p.knowledge) == build(AllData(r.executions)))
  }

  lemma {:induction false} PayloadsAreData(xs: seq<Loop.ToolExecutionRecord>)
    ensures Payloads(xs).Some? <==> forall i :: 0 <= i < |xs| ==> Usable(xs[i])
    ensures Payloads(xs).Some? ==> Payloads(xs).value == AllData(xs)
  {
    PayloadsMean(xs);
  }

  /**
   A draft exists exactly when the run completed, every execution of it is a successful
   knowledge search with data, and those data in order yield evidence; the report is the
   last response's text.
   */
  lemma {:induction false} PreparedMeans<E>(env: Loop.Env, build: EvidenceBuilder<E>,
                                            profile: Option<RuntimeProfile>, sizer: Sizer,
                         e: SkillExecution, b: ContextBundle)
    requires ValidExecution(e) && (profile.Some? ==> ValidProfile(profile.value)) && BundleAccepted(b)
    requires Compile(sizer, env.registry, profile, e, b).Compiled? && Loop.ProviderContract(env)
    ensures var req := Compile(sizer, env.registry, profile, e, b).request;
      DraftOf(build, Loop.Final(env, req).phase.result, Prepare(env, build, profile, sizer, e, b))
  {
    var req := RequestOf(e, b, profile);
    var r := Loop.Final(env, req).phase.result;
    Runs.EveryExitExplained(env, req);
    if r.status.Completed? {
      Runs.CompletedHasText(env, req);
    }
    DraftFromMeans(build, r);
  }

  /** Nothing is prepared from what does not compile. */
  lemma {:induction false} PreparedIsCompiled<E>(env: Loop.Env, build: EvidenceBuilder<E>, profile: Option<RuntimeProfile>,
                                                 sizer: Sizer, e: SkillExecution, b: ContextBundle)
    ensures Prepare(env, build, profile, sizer, e, b).Prepared? ==>
      && SameRun(e, b) && sizer(b.messages) <= b.maxContextTokens <= e.contextCeiling && ToolsKnown(e, env.registry)
  {
    CompileDecides(sizer, env.registry, profile, e, b);
  }

  lemma {:induction false} DraftFromMeans<E>(build: EvidenceBuilder<E>, r: Loop.RunResult)
    requires r.status.Completed? ==>
      && r.stopReason.FinalResponse? && r.responses != [] && r.finalResponse == Some(Transcript.Last(r.responses))
      && r.finalResponse.value.content.Some? && !Blank(r.finalResponse.value.content.value)
    ensures DraftOf(build, r, DraftFrom(build, r))
  {
    PayloadsAreData(r.executions);
  }
}
