/**
 `ContextBuilderV1.build` as a whole (app/agent/context.py): the sections of the two skills,
 knowledge citations before the user's request, memory and meta sections at the end.
 Section contents are texts given from outside; ids, trust, order and priorities are the source's.
 */
module ContextBuilder {
  import opened Prelude
  import opened ProviderModels
  import opened ContextSizer
  import opened ContextSelection
  import opened ContextAssembly
  import S = SkillRun

  const MATCH_CAP := 10

  // ----- numbered ids -----

  function Digit(n: nat): char
    requires n < 10
  {
    "0123456789"[n]
  }

  function Digits(n: nat): string {
    if n < 10 then [Digit(n)] else Digits(n / 10) + [Digit(n % 10)]
  }

  function Zeros(n: int): string {
    if n <= 0 then "" else "0" + Zeros(n - 1)
  }

  /** The format `{n:0<width>d}`. */
  function Padded(width: nat, n: nat): string {
    Zeros(width - |Digits(n)|) + Digits(n)
  }

  function DigitValue(c: char): nat {
    if '0' <= c <= '9' then c as nat - '0' as nat else 0
  }

  function Number(s: string): nat {
    if s == "" then 0 else 10 * Number(s[..|s| - 1]) + DigitValue(s[|s| - 1])
  }

  lemma {:induction false} NumberOfDigits(n: nat)
    ensures Number(Digits(n)) == n
  {
    if n >= 10 {
      NumberOfDigits(n / 10);
      assert Digits(n)[..|Digits(n)| - 1] == Digits(n / 10);
    }
  }

  lemma {:induction false} LeadingZero(s: string)
    ensures Number("0" + s) == Number(s)
  {
    if s != "" {
      assert ("0" + s)[..|s|] == "0" + s[..|s| - 1];
      LeadingZero(s[..|s| - 1]);
    } else {
      assert ("0" + s)[..0] == "";
    }
  }

  lemma {:induction false} LeadingZeros(n: int, s: string)
    ensures Number(Zeros(n) + s) == Number(s)
  {
    if n > 0 {
      LeadingZeros(n - 1, s);
      LeadingZero(Zeros(n - 1) + s);
      assert Zeros(n) + s == "0" + (Zeros(n - 1) + s);
    } else {
      assert Zeros(n) + s == s;
    }
  }

  /** Padded numbers read back, so numbered ids never collide, whatever the width. */
  lemma {:induction false} PaddedReadsBack(width: nat, n: nat)
    ensures Number(Padded(width, n)) == n
  {
    NumberOfDigits(n);
    ZerosVanish(width, n, Digits(n));
  }

  lemma {:induction false} ZerosVanish(width: nat, n: nat, digits: string)
    requires Number(digits) == n
    ensures Number(Zeros(width - |digits|) + digits) == n
  {
    LeadingZeros(width - |digits|, digits);
  }

  /** A padded number is as wide as asked for, or as its digits need. */
  lemma {:induction false} PaddedWidth(width: nat, n: nat)
    ensures |Padded(width, n)| == if |Digits(n)| <= width then width else |Digits(n)|
  {
    ZerosLength(width - |Digits(n)|);
  }

  lemma {:induction false} ZerosLength(n: int)
    ensures |Zeros(n)| == if n <= 0 then 0 else n
  {
    if n > 0 { ZerosLength(n - 1); }
  }

  predicate EndsInDigit(s: string) {
    s != "" && '0' <= s[|s| - 1] <= '9'
  }

  lemma {:induction false} PaddedEnds(width: nat, n: nat)
    ensures EndsInDigit(Padded(width, n))
  {
  }

  /** `head` followed by the padded positions 0, 1, 2, ... */
  predicate Numbered(head: string, width: nat, ids: seq<string>) {
    forall i :: 0 <= i < |ids| ==> ids[i] == head + Padded(width, i)
  }

  lemma {:induction false} NumberedDistinct(head: string, width: nat, ids: seq<string>)
    requires Numbered(head, width, ids)
    ensures Distinct(ids)
  {
    forall i, j | 0 <= i < j < |ids| ensures ids[i] != ids[j] {
      PaddedReadsBack(width, i);
      PaddedReadsBack(width, j);
      assert ids[i][|head|..] == Padded(width, i) && ids[j][|head|..] == Padded(width, j);
    }
  }

  // ----- the sections of the two skills -----

  function InstructionSections(policy: string, skill: string, instructions: string): seq<ContextSection> {
    [ContextSection("policy", InternalPolicy, "riftcoach.context-policy.v1", policy, true, 1000),
     ContextSection("skill_instructions", SkillInstructions, "skill:" + skill, instructions, true, 900)]
  }

  datatype RecentTexts = RecentTexts(
    policy: string, skill: string, instructions: string, scope: string, aggregate: string, boundaries: string,
    report: string, rows: seq<string>, request: string)

  function RowSection(rows: seq<string>, i: nat): ContextSection
    requires i < |rows|
  {
    ContextSection("facts:recent_match:" + Padded(2, i), DeterministicFacts,
                   "player_summary:matches[" + Digits(i) + "]", rows[i], false, 500)
  }

  function RecentHead(t: RecentTexts): seq<ContextSection> {
    InstructionSections(t.policy, t.skill, t.instructions)
    + [ContextSection("facts:scope", DeterministicFacts, "player_summary:scope", t.scope, true, 800),
       ContextSection("facts:recent_aggregate", DeterministicFacts, "player_summary:recent_summary", t.aggregate, true, 790),
       ContextSection("facts:sample_boundaries", DeterministicFacts, "player_summary:sample_boundaries", t.boundaries, true, 780),
       ContextSection("facts:deterministic_report", DeterministicFacts, "deterministic_report:1.0", t.report, true, 770)]
  }

  function RowSections(rows: seq<string>): seq<ContextSection> {
    seq(Min(MATCH_CAP, |rows|), i requires 0 <= i < Min(MATCH_CAP, |rows|) => RowSection(rows, i))
  }

  function RequestSection(text: string, priority: nat): ContextSection {
    ContextSection("request:user", UserRequest, "skill_execution_request", text, true, priority)
  }

  function RecentFormSections(t: RecentTexts): seq<ContextSection> {
    RecentHead(t) + RowSections(t.rows) + [RequestSection(t.request, 760)]
  }

  /** `_build_recent_form_sections`: rows are appended up to the cap. */
  method BuildRecentFormSections(t: RecentTexts) returns (sections: seq<ContextSection>)
    ensures sections == RecentFormSections(t)
  {
    sections := RecentHead(t);
    var i := 0;
    while i < MATCH_CAP && i < |t.rows|
      invariant i <= MATCH_CAP && i <= |t.rows|
      invariant sections == RecentHead(t) + RowSections(t.rows)[..i]
    {
      sections := sections + [RowSection(t.rows, i)];
      i := i + 1;
    }
    sections := sections + [RequestSection(t.request, 760)];
  }

  datatype MatchTexts = MatchTexts(
    policy: string, skill: string, instructions: string, scope: string, matchId: string, target: string,
    reportLines: string, request: string)

  function SingleMatchSections(t: MatchTexts): seq<ContextSection> {
    InstructionSections(t.policy, t.skill, t.instructions)
    + [ContextSection("facts:scope", DeterministicFacts, "player_summary:single_match_scope", t.scope, true, 800),
       ContextSection("facts:target_match", DeterministicFacts, "player_summary:match:" + t.matchId, t.target, true, 790)]
    + (if t.reportLines == "" then []
       else [ContextSection("facts:target_report_lines", DeterministicFacts, "deterministic_report:target_match_lines",
                            t.reportLines, false, 500)])
    + [RequestSection(t.request, 780)]
  }

  // ----- what both builders guarantee -----

  /** Neither a knowledge, a memory nor a meta id. */
  predicate OwnId(id: string) {
    Trimmed(id) && id[0] != 'k' && id[0] != 'm'
  }

  predicate OwnSection(s: ContextSection) {
    && OwnId(s.sectionId)
    && (Instructional(s.trust) ==> s.required)
    && (!s.required ==> s.priority == 500)
  }

  predicate BaseSections(sections: seq<ContextSection>) {
    Distinct(Ids(sections)) && forall i :: 0 <= i < |sections| ==> OwnSection(sections[i])
  }

  lemma {:induction false} RecentFormBase(t: RecentTexts)
    ensures BaseSections(RecentFormSections(t))
  {
    var rows := RowSections(t.rows);
    RowsOwn(t.rows);
    NumberedDistinct("facts:recent_match:", 2, Ids(rows));
    HeadBase(t);
    RowsApart(t);
    var head := Ids(RecentHead(t));
    var all := Ids(RecentFormSections(t));
    assert all == head + Ids(rows) + ["request:user"];
    JoinDistinct(head, Ids(rows), "request:user");
  }

  lemma {:induction false} RowsOwn(rows: seq<string>)
    ensures forall i :: 0 <= i < |RowSections(rows)| ==> OwnSection(RowSections(rows)[i])
    ensures Numbered("facts:recent_match:", 2, Ids(RowSections(rows)))
  {
    forall i | 0 <= i < |RowSections(rows)| ensures OwnSection(RowSections(rows)[i]) {
      PaddedEnds(2, i);
    }
  }

  /** The other ids of the skill do not end in a digit. */
  lemma {:induction false} HeadBase(t: RecentTexts)
    ensures Distinct(Ids(RecentHead(t)))
    ensures forall i :: 0 <= i < |RecentHead(t)| ==> OwnSection(RecentHead(t)[i]) && !EndsInDigit(RecentHead(t)[i].sectionId)
    ensures forall i :: 0 <= i < |RecentHead(t)| ==> RecentHead(t)[i].sectionId[0] != 'r'
  {
  }

  lemma {:induction false} RowsApart(t: RecentTexts)
    ensures forall i, j :: 0 <= i < |RecentHead(t)| && 0 <= j < |RowSections(t.rows)| ==>
      Ids(RecentHead(t))[i] != Ids(RowSections(t.rows))[j]
  {
    HeadBase(t);
    forall j | 0 <= j < |RowSections(t.rows)| ensures EndsInDigit(Ids(RowSections(t.rows))[j]) {
      PaddedEnds(2, j);
    }
  }

  lemma {:induction false} JoinDistinct(a: seq<string>, b: seq<string>, last: string)
    requires Distinct(a) && Distinct(b) && forall i, j :: 0 <= i < |a| && 0 <= j < |b| ==> a[i] != b[j]
    requires last !in a && last !in b
    ensures Distinct(a + b + [last])
  {
  }

  lemma {:induction false} SingleMatchBase(t: MatchTexts)
    ensures BaseSections(SingleMatchSections(t))
  {
  }

  // ----- knowledge, memory and meta sections -----

  /** The fields of a citation that must not be blank; `rest` is what else its section shows. */
  datatype Citation = Citation(citationId: string, chunkId: string, sourceId: string, title: string, content: string, rest: string)

  /** The JSON text of a citation's section. */
  type CitationText = Citation -> string

  predicate CitationComplete(c: Citation) {
    !Blank(c.citationId) && !Blank(c.chunkId) && !Blank(c.sourceId) && !Blank(c.title) && !Blank(c.content)
  }

  function CitationIds(citations: seq<Citation>): seq<string> {
    seq(|citations|, i requires 0 <= i < |citations| => Strip(citations[i].citationId))
  }

  predicate CitationsAccepted(citations: seq<Citation>) {
    Distinct(CitationIds(citations)) && forall i :: 0 <= i < |citations| ==> CitationComplete(citations[i])
  }

  function KnowledgeSections(citations: seq<Citation>, text: CitationText): seq<ContextSection> {
    seq(|citations|, i requires 0 <= i < |citations| =>
      ContextSection("knowledge:citation:" + Padded(3, i), KnowledgeEvidence,
                     "knowledge:" + Strip(citations[i].sourceId) + ":" + Strip(citations[i].chunkId),
                     text(citations[i]), false, 400))
  }

  /** The position of the user's request, or the end. */
  function RequestIndex(sections: seq<ContextSection>): (k: nat)
    ensures k <= |sections|
    ensures k < |sections| ==> sections[k].sectionId == "request:user"
    ensures forall i :: 0 <= i < k ==> sections[i].sectionId != "request:user"
  {
    if sections == [] || sections[0].sectionId == "request:user" then 0 else 1 + RequestIndex(sections[1..])
  }

  function InsertKnowledge(sections: seq<ContextSection>, citations: seq<Citation>,
                           text: CitationText): seq<ContextSection> {
    Inserted(sections, RequestIndex(sections), KnowledgeSections(citations, text))
  }

  /** What the builder demands of an additional section: optional data, memory or meta. */
  predicate AdditionalAllowed(s: ContextSection) {
    && !Instructional(s.trust) && !s.required
    && ((s.trust.DeterministicFacts? && "memory:" <= s.sectionId) || (s.trust.ExternalMetaEvidence? && "meta:" <= s.sectionId))
  }

  predicate AllAllowed(additional: seq<ContextSection>) {
    forall i :: 0 <= i < |additional| ==> AdditionalAllowed(additional[i])
  }

  function Assemble(base: seq<ContextSection>, citations: seq<Citation>, text: CitationText,
                    additional: seq<ContextSection>): seq<ContextSection> {
    InsertKnowledge(base, citations, text) + additional
  }

  datatype ContextResult = LimitRejected | AdditionalRejected | CitationsRejected | Finished(build: S.BuildResult)

  /** `build`; absent knowledge is an empty list of citations. */
  function BuildContext(sizer: Sizer, base: seq<ContextSection>, citations: seq<Citation>, text: CitationText,
                        additional: seq<ContextSection>, e: S.SkillExecution, callerLimit: Option<int>): ContextResult
  {
    if callerLimit.Some? && callerLimit.value <= 0 then LimitRejected
    else if !AllAllowed(additional) then AdditionalRejected
    else if !CitationsAccepted(citations) then CitationsRejected
    else Finished(S.Build(sizer, Assemble(base, citations, text, additional), e, callerLimit))
  }

  predicate AllTrimmed(sections: seq<ContextSection>) {
    forall i :: 0 <= i < |sections| ==> Trimmed(sections[i].sectionId)
  }

  // ----- the assembled ids -----

  lemma {:induction false} KnowledgeOwn(citations: seq<Citation>, text: CitationText)
    ensures var ks := KnowledgeSections(citations, text);
      && AllOptional(ks) && AllTrimmed(ks) && Distinct(Ids(ks))
      && (forall i :: 0 <= i < |ks| ==> !Instructional(ks[i].trust) && ks[i].sectionId[0] == 'k' && ks[i].priority == 400)
  {
    var ks := KnowledgeSections(citations, text);
    NumberedDistinct("knowledge:citation:", 3, Ids(ks));
    forall i | 0 <= i < |ks| ensures Trimmed(ks[i].sectionId) && ks[i].sectionId[0] == 'k' {
      PaddedEnds(3, i);
    }
  }

  lemma {:induction false} AdditionalApart(s: ContextSection)
    requires AdditionalAllowed(s)
    ensures s.sectionId != "" && s.sectionId[0] == 'm'
  {
  }

  lemma {:induction false} IdsConcat(a: seq<ContextSection>, b: seq<ContextSection>)
    ensures Ids(a + b) == Ids(a) + Ids(b)
  {
  }

  lemma {:induction false} IdsInserted(base: seq<ContextSection>, k: nat, extra: seq<ContextSection>)
    requires k <= |base|
    ensures multiset(Ids(Inserted(base, k, extra))) == multiset(Ids(base)) + multiset(Ids(extra))
  {
    assert base == base[..k] + base[k..];
    IdsConcat(base[..k], base[k..]);
    IdsConcat(base[..k] + extra, base[k..]);
    IdsConcat(base[..k], extra);
  }

  /** With one skill's sections as base, only additional sections can bring a repeated id. */
  lemma {:induction false} AssembledDistinctIff(base: seq<ContextSection>, citations: seq<Citation>,
                                                text: CitationText, additional: seq<ContextSection>)
    requires BaseSections(base) && AllAllowed(additional)
    ensures Distinct(Ids(Assemble(base, citations, text, additional))) <==> Distinct(Ids(additional))
  {
    var ks := KnowledgeSections(citations, text);
    var withKnowledge := InsertKnowledge(base, citations, text);
    KnowledgeOwn(citations, text);
    IdsInserted(base, RequestIndex(base), ks);
    ApartByFirst(base, ks, 'k');
    S.DistinctTogether(Ids(base), Ids(ks), Ids(withKnowledge));
    IdsConcat(withKnowledge, additional);
    NoneStartWithM(base, RequestIndex(base), ks);
    forall i | 0 <= i < |additional| ensures Ids(additional)[i] != "" && Ids(additional)[i][0] == 'm' {
      AdditionalApart(additional[i]);
    }
    S.DistinctTogether(Ids(withKnowledge), Ids(additional), Ids(withKnowledge + additional));
  }

  lemma {:induction false} ApartByFirst(base: seq<ContextSection>, extra: seq<ContextSection>, first: char)
    requires forall i :: 0 <= i < |base| ==> OwnSection(base[i])
    requires first == 'k' && forall j :: 0 <= j < |extra| ==> extra[j].sectionId != "" && extra[j].sectionId[0] == first
    ensures forall i, j :: 0 <= i < |base| && 0 <= j < |extra| ==> Ids(base)[i] != Ids(extra)[j]
  {
  }

  lemma {:induction false} NoneStartWithM(base: seq<ContextSection>, k: nat, ks: seq<ContextSection>)
    requires k <= |base| && forall i :: 0 <= i < |base| ==> OwnSection(base[i])
    requires forall j :: 0 <= j < |ks| ==> ks[j].sectionId != "" && ks[j].sectionId[0] == 'k'
    ensures var ids := Ids(Inserted(base, k, ks)); forall i :: 0 <= i < |ids| ==> ids[i] != "" && ids[i][0] != 'm'
  {
  }

  // ----- what a whole build guarantees -----

  lemma {:induction false} AppendedIsInserted(sections: seq<ContextSection>, additional: seq<ContextSection>)
    ensures sections + additional == Inserted(sections, |sections|, additional)
  {
  }

  /** The assembled context fits without its optional sections exactly when the base does. */
  lemma {:induction false} AssembledFitsIff(sizer: Sizer, base: seq<ContextSection>, citations: seq<Citation>,
                                            text: CitationText,
                                            additional: seq<ContextSection>, limit: int)
    requires AllAllowed(additional)
    ensures var whole := Assemble(base, citations, text, additional);
      Fits(sizer, whole, limit, RequiredIndices(whole)) <==> Fits(sizer, base, limit, RequiredIndices(base))
  {
    KnowledgeOwn(citations, text);
    OptionalNeverExceeds(sizer, base, RequestIndex(base), KnowledgeSections(citations, text), limit);
    var withKnowledge := InsertKnowledge(base, citations, text);
    AppendedIsInserted(withKnowledge, additional);
    OptionalNeverExceeds(sizer, withKnowledge, |withKnowledge|, additional, limit);
  }

  lemma {:induction false} AssembledTrimmed(base: seq<ContextSection>, citations: seq<Citation>, text: CitationText,
                                            additional: seq<ContextSection>)
    requires BaseSections(base) && AllTrimmed(additional)
    ensures AllTrimmed(Assemble(base, citations, text, additional))
  {
    KnowledgeOwn(citations, text);
  }

  /**
   A context is built exactly when the limit is positive, every additional section is
   optional memory or meta data and no two share an id, the citations are complete and
   distinct, and the skill's own required sections fit. Knowledge, memory and meta sections
   can never make a context exceed its budget.
   */
  lemma {:induction false} ContextBuiltIff(sizer: Sizer, base: seq<ContextSection>, citations: seq<Citation>,
                                           text: CitationText,
                                           additional: seq<ContextSection>, e: S.SkillExecution, callerLimit: Option<int>)
    requires BaseSections(base) && AllTrimmed(additional) && S.ValidExecution(e) && forall ms :: 0 <= sizer(ms)
    ensures var r := BuildContext(sizer, base, citations, text, additional, e, callerLimit);
      (r.Finished? && r.build.Built?) <==>
        && (callerLimit.Some? ==> callerLimit.value > 0)
        && AllAllowed(additional) && Distinct(Ids(additional)) && CitationsAccepted(citations)
        && Fits(sizer, base, S.EffectiveLimit(e, callerLimit), RequiredIndices(base))
  {
    if (callerLimit.Some? ==> callerLimit.value > 0) && AllAllowed(additional) && CitationsAccepted(citations) {
      var whole := Assemble(base, citations, text, additional);
      AssembledTrimmed(base, citations, text, additional);
      S.BuildSucceedsIff(sizer, whole, e, callerLimit);
      AssembledDistinctIff(base, citations, text, additional);
      AssembledFitsIff(sizer, base, citations, text, additional, S.EffectiveLimit(e, callerLimit));
    }
  }

  /** Citations have a lower priority than match rows and report lines, and never displace them. */
  lemma {:induction false} KnowledgeNeverDisplaces(sizer: Sizer, base: seq<ContextSection>, citations: seq<Citation>,
                                                   text: CitationText,
                                                   limit: int, i: nat)
    requires BaseSections(base) && i < |base| && Fits(sizer, base, limit, RequiredIndices(base))
    ensures Moved(RequestIndex(base), |citations|, i) in Choice(sizer, InsertKnowledge(base, citations, text), limit)
       <==> i in Choice(sizer, base, limit)
  {
    KnowledgeOwn(citations, text);
    LowerPriorityNeverDisplaces(sizer, base, RequestIndex(base), KnowledgeSections(citations, text), limit, i);
  }

  // ----- instructions come from the base alone -----

  lemma {:induction false} SystemGroupConcat(a: seq<ContextSection>, b: seq<ContextSection>)
    ensures Group(a + b, System) == Group(a, System) + Group(b, System)
  {
    if b == [] {
      assert a + b == a;
    } else {
      assert (a + b)[..|a + b| - 1] == a + b[..|b| - 1];
      SystemGroupConcat(a, b[..|b| - 1]);
    }
  }

  lemma {:induction false} DataHasNoSystemGroup(sections: seq<ContextSection>)
    requires forall i :: 0 <= i < |sections| ==> !Instructional(sections[i].trust)
    ensures Group(sections, System) == []
  {
    if sections != [] {
      DataHasNoSystemGroup(sections[..|sections| - 1]);
    }
  }

  lemma {:induction false} InsertedSystemGroup(base: seq<ContextSection>, k: nat, data: seq<ContextSection>)
    requires k <= |base| && forall i :: 0 <= i < |data| ==> !Instructional(data[i].trust)
    ensures Group(Inserted(base, k, data), System) == Group(base, System)
  {
    var front, back := base[..k], base[k..];
    assert base == front + back;
    SystemGroupConcat(front, back);
    SystemGroupConcat(front + data, back);
    SystemGroupConcat(front, data);
    DataHasNoSystemGroup(data);
    assert Group(front, System) + [] == Group(front, System);
  }

  lemma {:induction false} AssembledSystemGroup(base: seq<ContextSection>, citations: seq<Citation>,
                                                text: CitationText, additional: seq<ContextSection>)
    requires AllAllowed(additional)
    ensures Group(Assemble(base, citations, text, additional), System) == Group(base, System)
  {
    KnowledgeOwn(citations, text);
    InsertedSystemGroup(base, RequestIndex(base), KnowledgeSections(citations, text));
    var withKnowledge := InsertKnowledge(base, citations, text);
    AppendedIsInserted(withKnowledge, additional);
    InsertedSystemGroup(withKnowledge, |withKnowledge|, additional);
  }

  /** Choosing at least the required sections keeps the whole system group, if that is required. */
  lemma {:induction false} RequiredSystemGroup(sections: seq<ContextSection>, chosen: set<nat>)
    requires forall i :: 0 <= i < |sections| && Instructional(sections[i].trust) ==> i in chosen
    ensures Group(Pick(sections, chosen), System) == Group(sections, System)
  {
    if sections != [] {
      var n := |sections| - 1;
      RequiredSystemGroup(sections[..n], chosen);
      PickLast(sections, chosen);
      if n in chosen {
        assert Pick(sections, chosen)[..|Pick(sections, chosen)| - 1] == Pick(sections[..n], chosen);
      } else {
        assert Pick(sections, chosen) == Pick(sections[..n], chosen);
      }
    }
  }

  lemma {:induction false} AssembledInstructionsRequired(base: seq<ContextSection>, citations: seq<Citation>,
                                                         text: CitationText, additional: seq<ContextSection>)
    requires BaseSections(base) && AllAllowed(additional)
    ensures var whole := Assemble(base, citations, text, additional);
      forall i :: 0 <= i < |whole| && Instructional(whole[i].trust) ==> whole[i].required
  {
    KnowledgeOwn(citations, text);
  }

  /**
   Whatever the citations and the additional sections say, a built context's system message
   is the rendering of the skill's own instruction sections.
   */
  lemma {:induction false} SystemMessageFixed(sizer: Sizer, base: seq<ContextSection>, citations: seq<Citation>,
                                              text: CitationText,
                                              additional: seq<ContextSection>, e: S.SkillExecution, callerLimit: Option<int>)
    requires BaseSections(base)
    requires var r := BuildContext(sizer, base, citations, text, additional, e, callerLimit); r.Finished? && r.build.Built?
    ensures BuildContext(sizer, base, citations, text, additional, e, callerLimit).build.bundle.messages[0]
         == TextMessage(System, GroupContent(Texts(Group(base, System), SectionText)))
  {
    var whole := Assemble(base, citations, text, additional);
    var limit := S.EffectiveLimit(e, callerLimit);
    var chosen := Choice(sizer, whole, limit);
    GreedyBounds(sizer, whole, limit, TrialOrder(whole, |whole|), RequiredIndices(whole));
    AssembledInstructionsRequired(base, citations, text, additional);
    RequiredSystemGroup(whole, chosen);
    AssembledSystemGroup(base, citations, text, additional);
  }
}
