/**
 What a built context shows: read back, its messages list the bundle's sections, and these
 are the skill's own texts under their ids, the citations and the additional data.
 */
module ContextMeaning {
  import opened Prelude
  import opened ProviderModels
  import opened ContextSizer
  import opened ContextSelection
  import opened ContextReading
  import opened ContextBuilder
  import S = SkillRun

  // ----- a bundle -----

  /** The kept sections are the given ones at increasing positions; the dropped ids are those of all others, in order. */
  predicate Keeps(all: seq<ContextSection>, kept: seq<ContextSection>, places: seq<nat>, dropped: seq<string>, others: seq<nat>) {
    && |kept| == |places| && |dropped| == |others|
    && (forall a, b :: 0 <= a < b < |places| ==> places[a] < places[b])
    && (forall a, b :: 0 <= a < b < |others| ==> others[a] < others[b])
    && (forall k :: 0 <= k < |places| ==> places[k] < |all| && kept[k] == all[places[k]])
    && (forall k :: 0 <= k < |others| ==> others[k] < |all| && dropped[k] == all[others[k]].sectionId)
    && (forall i: nat :: i < |all| ==> (i in places <==> i !in others))
    && forall i: nat :: i < |all| && all[i].required ==> i in places
  }

  ghost predicate Shown(sizer: Sizer, all: seq<ContextSection>, e: S.SkillExecution, callerLimit: Option<int>, b: S.ContextBundle) {
    && b.runId == e.runId && b.skillName == e.skillName && b.skillVersion == e.skillVersion
    && b.maxContextTokens <= e.contextCeiling
    && (callerLimit.None? ==> b.maxContextTokens == e.contextCeiling)
    && (callerLimit.Some? ==>
          b.maxContextTokens <= callerLimit.value && (b.maxContextTokens == e.contextCeiling || b.maxContextTokens == callerLimit.value))
    && b.estimatedTokens == sizer(b.messages) && 0 <= b.estimatedTokens <= b.maxContextTokens
    && ShowsContext(b.messages, b.sections)
    && exists places, others :: Keeps(all, b.sections, places, b.omittedSectionIds, others)
  }

  lemma {:induction false} ChoiceKeeps(sizer: Sizer, all: seq<ContextSection>, limit: int) returns (places: seq<nat>, others: seq<nat>)
    requires Select(sizer, all, limit).Selected?
    ensures var r := Select(sizer, all, limit); Keeps(all, r.sections, places, r.omitted, others)
  {
    var chosen := Choice(sizer, all, limit);
    GreedyBounds(sizer, all, limit, TrialOrder(all, |all|), RequiredIndices(all));
    PickKeepsOrder(all, chosen);
    PickKeepsOrder(all, Indices(all) - chosen);
    places := Positions(|all|, chosen);
    others := Positions(|all|, Indices(all) - chosen);
    PositionsAscend(|all|, chosen);
    PositionsAscend(|all|, Indices(all) - chosen);
  }

  lemma {:induction false} PositionsAscend(n: nat, chosen: set<nat>)
    ensures var p := Positions(n, chosen);
      (forall a, b :: 0 <= a < b < |p| ==> p[a] < p[b]) && forall a :: 0 <= a < |p| ==> p[a] < n
  {
    if n > 0 {
      PositionsAscend(n - 1, chosen);
    }
  }

  /** A built bundle, in every field: identity, ceiling, size, messages and omissions. */
  lemma {:induction false} BundleShown(sizer: Sizer, all: seq<ContextSection>, e: S.SkillExecution, callerLimit: Option<int>)
    requires S.Build(sizer, all, e, callerLimit).Built?
    ensures Shown(sizer, all, e, callerLimit, S.Build(sizer, all, e, callerLimit).bundle)
  {
    var limit := S.EffectiveLimit(e, callerLimit);
    SelectionReadsBack(sizer, all, limit);
    var places, others := ChoiceKeeps(sizer, all, limit);
  }

  /** Why no bundle is built: the limit, then the required sections, then the ids. */
  lemma {:induction false} BuildFailsFor(sizer: Sizer, all: seq<ContextSection>, e: S.SkillExecution, callerLimit: Option<int>)
    ensures var r := S.Build(sizer, all, e, callerLimit);
      var limited := callerLimit.Some? && callerLimit.value <= 0;
      var limit := if callerLimit.Some? then Min(e.contextCeiling, callerLimit.value) else e.contextCeiling;
      && (r.LimitInvalid? <==> limited)
      && (r.BudgetError? <==> !limited && sizer(RenderMessages(Pick(all, RequiredIndices(all)))) > limit)
  {
  }

  // ----- the sections of a skill's context -----

  /** A section with this id, trust, source, text and rank. */
  predicate Is(s: ContextSection, id: string, trust: ContextTrust, source: string, content: string, required: bool, priority: nat) {
    && s.sectionId == id && s.trust == trust && s.source == source && s.content == content
    && s.required == required && s.priority == priority
  }

  predicate Has(sections: seq<ContextSection>, id: string, trust: ContextTrust, source: string, content: string, priority: nat) {
    exists i :: 0 <= i < |sections| && Is(sections[i], id, trust, source, content, true, priority)
  }

  predicate IsRow(s: ContextSection, rows: seq<string>) {
    exists k :: 0 <= k < |rows| && k < 10
      && Is(s, "facts:recent_match:" + Padded(2, k), DeterministicFacts, "player_summary:matches[" + Digits(k) + "]", rows[k], false, 500)
  }

  predicate IsCitation(s: ContextSection, citations: seq<Citation>, text: CitationText) {
    exists k :: 0 <= k < |citations|
      && Is(s, "knowledge:citation:" + Padded(3, k), KnowledgeEvidence,
            "knowledge:" + Strip(citations[k].sourceId) + ":" + Strip(citations[k].chunkId), text(citations[k]), false, 400)
  }

  /** The texts every review starts with. */
  predicate HasInstructions(sections: seq<ContextSection>, policy: string, skill: string, instructions: string) {
    && Has(sections, "policy", InternalPolicy, "riftcoach.context-policy.v1", policy, 1000)
    && Has(sections, "skill_instructions", SkillInstructions, "skill:" + skill, instructions, 900)
  }

  predicate HasRecentFacts(sections: seq<ContextSection>, t: RecentTexts) {
    && Has(sections, "facts:scope", DeterministicFacts, "player_summary:scope", t.scope, 800)
    && Has(sections, "facts:recent_aggregate", DeterministicFacts, "player_summary:recent_summary", t.aggregate, 790)
    && Has(sections, "facts:sample_boundaries", DeterministicFacts, "player_summary:sample_boundaries", t.boundaries, 780)
    && Has(sections, "facts:deterministic_report", DeterministicFacts, "deterministic_report:1.0", t.report, 770)
    && Has(sections, "request:user", UserRequest, "skill_execution_request", t.request, 760)
  }

  predicate HasMatchFacts(sections: seq<ContextSection>, t: MatchTexts) {
    && Has(sections, "facts:scope", DeterministicFacts, "player_summary:single_match_scope", t.scope, 800)
    && Has(sections, "facts:target_match", DeterministicFacts, "player_summary:match:" + t.matchId, t.target, 790)
    && Has(sections, "request:user", UserRequest, "skill_execution_request", t.request, 780)
  }

  /** Everything optional comes from where it should. */
  predicate OptionalFrom(sections: seq<ContextSection>, own: ContextSection -> bool, citations: seq<Citation>, text: CitationText,
                         additional: seq<ContextSection>) {
    forall i :: 0 <= i < |sections| && !sections[i].required ==>
      own(sections[i]) || IsCitation(sections[i], citations, text) || sections[i] in additional
  }

  /** What required sections of the base are in every bundle made of it. */
  lemma {:induction false} BaseKept(base: seq<ContextSection>, k: nat, data: seq<ContextSection>, additional: seq<ContextSection>,
                                    kept: seq<ContextSection>, places: seq<nat>, dropped: seq<string>, others: seq<nat>, j: nat)
    requires k <= |base| && j < |base| && base[j].required
    requires Keeps(base[..k] + data + base[k..] + additional, kept, places, dropped, others)
    ensures base[j] in kept
  {
    var all := base[..k] + data + base[k..] + additional;
    var i := if j < k then j else j + |data|;
    assert all[i] == base[j];
    assert i in places;
    var n :| 0 <= n < |places| && places[n] == i;
    assert kept[n] == base[j];
  }

  /** Whatever is kept comes from the base, the inserted data or the additional sections. */
  lemma {:induction false} KeptFrom(base: seq<ContextSection>, k: nat, data: seq<ContextSection>, additional: seq<ContextSection>,
                                    kept: seq<ContextSection>, places: seq<nat>, dropped: seq<string>, others: seq<nat>, n: nat)
    requires k <= |base| && n < |kept|
    requires Keeps(base[..k] + data + base[k..] + additional, kept, places, dropped, others)
    ensures kept[n] in base || kept[n] in data || kept[n] in additional
  {
    var all := base[..k] + data + base[k..] + additional;
    assert kept[n] == all[places[n]] && all[places[n]] in all;
  }

  lemma {:induction false} CitationSectionsAre(citations: seq<Citation>, text: CitationText)
    ensures forall s :: s in KnowledgeSections(citations, text) ==> IsCitation(s, citations, text)
  {
    forall s | s in KnowledgeSections(citations, text) ensures IsCitation(s, citations, text) {
      var k :| 0 <= k < |citations| && KnowledgeSections(citations, text)[k] == s;
    }
  }

  ghost predicate Assembled(sizer: Sizer, base: seq<ContextSection>, citations: seq<Citation>, text: CitationText,
                            additional: seq<ContextSection>, e: S.SkillExecution, callerLimit: Option<int>, b: S.ContextBundle) {
    var r := BuildContext(sizer, base, citations, text, additional, e, callerLimit);
    r.Finished? && r.build == S.Built(b)
  }

  /** Whatever the base: its required sections are kept, and everything else kept is optional of the base, a citation or additional. */
  lemma {:induction false} AssembledShown(sizer: Sizer, base: seq<ContextSection>, citations: seq<Citation>, text: CitationText,
                                          additional: seq<ContextSection>, e: S.SkillExecution, callerLimit: Option<int>,
                                          b: S.ContextBundle)
    requires Assembled(sizer, base, citations, text, additional, e, callerLimit, b)
    ensures ShowsContext(b.messages, b.sections)
    ensures forall j :: 0 <= j < |base| && base[j].required ==> base[j] in b.sections
    ensures forall n :: 0 <= n < |b.sections| ==>
      b.sections[n] in base || IsCitation(b.sections[n], citations, text) || b.sections[n] in additional
  {
    var all := Assemble(base, citations, text, additional);
    var k, data := RequestIndex(base), KnowledgeSections(citations, text);
    BundleShown(sizer, all, e, callerLimit);
    var places, others :| Keeps(all, b.sections, places, b.omittedSectionIds, others);
    assert all == base[..k] + data + base[k..] + additional;
    CitationSectionsAre(citations, text);
    forall j | 0 <= j < |base| && base[j].required ensures base[j] in b.sections {
      BaseKept(base, k, data, additional, b.sections, places, b.omittedSectionIds, others, j);
    }
    forall n | 0 <= n < |b.sections|
      ensures b.sections[n] in base || IsCitation(b.sections[n], citations, text) || b.sections[n] in additional
    {
      KeptFrom(base, k, data, additional, b.sections, places, b.omittedSectionIds, others, n);
    }
  }

  lemma {:induction false} HasKept(base: seq<ContextSection>, kept: seq<ContextSection>, id: string, trust: ContextTrust,
                                   source: string, content: string, priority: nat)
    requires forall j :: 0 <= j < |base| && base[j].required ==> base[j] in kept
    requires Has(base, id, trust, source, content, priority)
    ensures Has(kept, id, trust, source, content, priority)
  {
    var j :| 0 <= j < |base| && Is(base[j], id, trust, source, content, true, priority);
    var i :| 0 <= i < |kept| && kept[i] == base[j];
  }

  // ----- the two reviews -----

  lemma {:induction false} RecentBaseHas(t: RecentTexts)
    ensures var base := RecentFormSections(t); HasInstructions(base, t.policy, t.skill, t.instructions) && HasRecentFacts(base, t)
  {
    var base := RecentFormSections(t);
    var n := |base| - 1;
    assert Is(base[0], "policy", InternalPolicy, "riftcoach.context-policy.v1", t.policy, true, 1000);
    assert Is(base[1], "skill_instructions", SkillInstructions, "skill:" + t.skill, t.instructions, true, 900);
    assert Is(base[2], "facts:scope", DeterministicFacts, "player_summary:scope", t.scope, true, 800);
    assert Is(base[3], "facts:recent_aggregate", DeterministicFacts, "player_summary:recent_summary", t.aggregate, true, 790);
    assert Is(base[4], "facts:sample_boundaries", DeterministicFacts, "player_summary:sample_boundaries", t.boundaries, true, 780);
    assert Is(base[5], "facts:deterministic_report", DeterministicFacts, "deterministic_report:1.0", t.report, true, 770);
    assert Is(base[n], "request:user", UserRequest, "skill_execution_request", t.request, true, 760);
  }

  /** Each of the first ten match rows has its section, in order, before the request. */
  lemma {:induction false} RecentRowsPresent(t: RecentTexts, k: nat)
    requires k < |t.rows| && k < 10
    ensures var base := RecentFormSections(t);
      && 6 + k < |base| - 1 && base[|base| - 1].sectionId == "request:user"
      && Is(base[6 + k], "facts:recent_match:" + Padded(2, k), DeterministicFacts,
            "player_summary:matches[" + Digits(k) + "]", t.rows[k], false, 500)
  {
    assert RecentFormSections(t)[6 + k] == RowSections(t.rows)[k] == RowSection(t.rows, k);
  }

  /** All citations stand in order before the user's request, or at the end; then the rest, then the additional sections. */
  lemma {:induction false} CitationsPlaced(base: seq<ContextSection>, citations: seq<Citation>, text: CitationText,
                                           additional: seq<ContextSection>) returns (k: nat)
    ensures var all, n := Assemble(base, citations, text, additional), |citations|;
      && k <= |base| && |all| == |base| + n + |additional|
      && (forall i :: 0 <= i < k ==> all[i] == base[i] && base[i].sectionId != "request:user")
      && (k < |base| ==> base[k].sectionId == "request:user")
      && (forall j :: 0 <= j < n ==>
            Is(all[k + j], "knowledge:citation:" + Padded(3, j), KnowledgeEvidence,
               "knowledge:" + Strip(citations[j].sourceId) + ":" + Strip(citations[j].chunkId), text(citations[j]), false, 400))
      && (forall i :: k <= i < |base| ==> all[i + n] == base[i])
      && forall j :: 0 <= j < |additional| ==> all[|base| + n + j] == additional[j]
  {
    k := RequestIndex(base);
    var ks := KnowledgeSections(citations, text);
    assert Assemble(base, citations, text, additional) == base[..k] + ks + base[k..] + additional;
  }

  lemma {:induction false} RecentOptionalAreRows(t: RecentTexts)
    ensures forall s :: s in RecentFormSections(t) && !s.required ==> IsRow(s, t.rows)
  {
    forall s | s in RecentFormSections(t) && !s.required ensures IsRow(s, t.rows) {
      var i :| 0 <= i < |RecentFormSections(t)| && RecentFormSections(t)[i] == s;
      var k := i - 6;
      assert s == RowSections(t.rows)[k] == RowSection(t.rows, k);
      assert Is(s, "facts:recent_match:" + Padded(2, k), DeterministicFacts, "player_summary:matches[" + Digits(k) + "]",
                t.rows[k], false, 500);
    }
  }

  /**
   A built recent-form context: its messages read back as its sections; the instructions,
   the facts and the request are among them, each with its own text; and whatever else is
   there is a match row, a citation or an additional section.
   */
  lemma {:induction false} RecentFormShown(sizer: Sizer, t: RecentTexts, citations: seq<Citation>, text: CitationText,
                                           additional: seq<ContextSection>, e: S.SkillExecution, callerLimit: Option<int>,
                                           b: S.ContextBundle)
    requires Assembled(sizer, RecentFormSections(t), citations, text, additional, e, callerLimit, b)
    ensures ShowsContext(b.messages, b.sections)
    ensures HasInstructions(b.sections, t.policy, t.skill, t.instructions) && HasRecentFacts(b.sections, t)
    ensures OptionalFrom(b.sections, s => IsRow(s, t.rows), citations, text, additional)
  {
    var base := RecentFormSections(t);
    AssembledShown(sizer, base, citations, text, additional, e, callerLimit, b);
    RecentBaseHas(t);
    RecentOptionalAreRows(t);
    HasKept(base, b.sections, "policy", InternalPolicy, "riftcoach.context-policy.v1", t.policy, 1000);
    HasKept(base, b.sections, "skill_instructions", SkillInstructions, "skill:" + t.skill, t.instructions, 900);
    HasKept(base, b.sections, "facts:scope", DeterministicFacts, "player_summary:scope", t.scope, 800);
    HasKept(base, b.sections, "facts:recent_aggregate", DeterministicFacts, "player_summary:recent_summary", t.aggregate, 790);
    HasKept(base, b.sections, "facts:sample_boundaries", DeterministicFacts, "player_summary:sample_boundaries", t.boundaries, 780);
    HasKept(base, b.sections, "facts:deterministic_report", DeterministicFacts, "deterministic_report:1.0", t.report, 770);
    HasKept(base, b.sections, "request:user", UserRequest, "skill_execution_request", t.request, 760);
  }

  lemma {:induction false} MatchBaseHas(t: MatchTexts)
    ensures var base := SingleMatchSections(t); HasInstructions(base, t.policy, t.skill, t.instructions) && HasMatchFacts(base, t)
  {
    var base := SingleMatchSections(t);
    var n := |base| - 1;
    assert Is(base[0], "policy", InternalPolicy, "riftcoach.context-policy.v1", t.policy, true, 1000);
    assert Is(base[1], "skill_instructions", SkillInstructions, "skill:" + t.skill, t.instructions, true, 900);
    assert Is(base[2], "facts:scope", DeterministicFacts, "player_summary:single_match_scope", t.scope, true, 800);
    assert Is(base[3], "facts:target_match", DeterministicFacts, "player_summary:match:" + t.matchId, t.target, true, 790);
    assert Is(base[n], "request:user", UserRequest, "skill_execution_request", t.request, true, 780);
  }

  predicate IsReportLines(s: ContextSection, lines: string) {
    lines != "" && Is(s, "facts:target_report_lines", DeterministicFacts, "deterministic_report:target_match_lines", lines, false, 500)
  }

  lemma {:induction false} MatchOptionalIsReport(t: MatchTexts)
    ensures forall s :: s in SingleMatchSections(t) && !s.required ==> IsReportLines(s, t.reportLines)
  {
  }

  /** The same for the review of a single match, whose optional text is the lines about it. */
  lemma {:induction false} SingleMatchShown(sizer: Sizer, t: MatchTexts, citations: seq<Citation>, text: CitationText,
                                            additional: seq<ContextSection>, e: S.SkillExecution, callerLimit: Option<int>,
                                            b: S.ContextBundle)
    requires Assembled(sizer, SingleMatchSections(t), citations, text, additional, e, callerLimit, b)
    ensures ShowsContext(b.messages, b.sections)
    ensures HasInstructions(b.sections, t.policy, t.skill, t.instructions) && HasMatchFacts(b.sections, t)
    ensures OptionalFrom(b.sections, s => IsReportLines(s, t.reportLines), citations, text, additional)
  {
    var base := SingleMatchSections(t);
    AssembledShown(sizer, base, citations, text, additional, e, callerLimit, b);
    MatchBaseHas(t);
    MatchOptionalIsReport(t);
    HasKept(base, b.sections, "policy", InternalPolicy, "riftcoach.context-policy.v1", t.policy, 1000);
    HasKept(base, b.sections, "skill_instructions", SkillInstructions, "skill:" + t.skill, t.instructions, 900);
    HasKept(base, b.sections, "facts:scope", DeterministicFacts, "player_summary:single_match_scope", t.scope, 800);
    HasKept(base, b.sections, "facts:target_match", DeterministicFacts, "player_summary:match:" + t.matchId, t.target, 790);
    HasKept(base, b.sections, "request:user", UserRequest, "skill_execution_request", t.request, 780);
  }

  /** Whatever citations and additional sections say, the system message lists exactly the skill's own instructions. */
  lemma {:induction false} SystemMessageLists(sizer: Sizer, base: seq<ContextSection>, citations: seq<Citation>, text: CitationText,
                                              additional: seq<ContextSection>, e: S.SkillExecution, callerLimit: Option<int>,
                                              b: S.ContextBundle)
    requires BaseSections(base) && Assembled(sizer, base, citations, text, additional, e, callerLimit, b)
    ensures b.messages != [] && b.messages[0].content.Some? && Lists(b.messages[0].content.value, base, true)
  {
    AssembledShown(sizer, base, citations, text, additional, e, callerLimit, b);
    SystemMessageFixed(sizer, base, citations, text, additional, e, callerLimit);
    GroupLists(base, System);
  }
}
