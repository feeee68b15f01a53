/**
 Rendering of context sections into messages and the deterministic size estimate
 (app/agent/context.py). Strings are the JSON text the source produces; the factor
 1.15 is the exact rational 23/20.
 */
module ContextSizer {
  import opened Prelude
  import opened ProviderModels
  import opened Json

  datatype ContextTrust =
    | InternalPolicy | SkillInstructions | DeterministicFacts | UserRequest | KnowledgeEvidence | ExternalMetaEvidence

  datatype ContextSection = ContextSection(
    sectionId: string, trust: ContextTrust, source: string, content: string, required: bool, priority: nat)

  predicate Instructional(t: ContextTrust) {
    t.InternalPolicy? || t.SkillInstructions?
  }

  function RoleOf(t: ContextTrust): MessageRole {
    if Instructional(t) then System else User
  }

  function TrustValue(t: ContextTrust): string {
    match t
    case InternalPolicy => "internal_policy"
    case SkillInstructions => "skill_instructions"
    case DeterministicFacts => "deterministic_facts"
    case UserRequest => "user_request"
    case KnowledgeEvidence => "knowledge_evidence"
    case ExternalMetaEvidence => "external_meta_evidence"
  }

  function RoleValue(r: MessageRole): string {
    match r
    case System => "system"
    case User => "user"
    case Assistant => "assistant"
    case Tool => "tool"
  }

  // ----- rendering (indent=2, sorted keys) -----

  function SectionText(s: ContextSection): string {
    "\n    {\n      \"content\": " + Quote(s.content)
    + ",\n      \"instructional\": " + Bool(Instructional(s.trust))
    + ",\n      \"section_id\": " + Quote(s.sectionId)
    + ",\n      \"source\": " + Quote(s.source)
    + ",\n      \"trust\": " + Quote(TrustValue(s.trust)) + "\n    }"
  }

  /** Texts separated by commas. */
  function Join(texts: seq<string>): string
    requires texts != []
  {
    if |texts| == 1 then texts[0] else texts[0] + "," + Join(texts[1..])
  }

  /** An empty list has no line breaks. */
  function ListText(texts: seq<string>): string {
    if texts == [] then "[]" else "[" + Join(texts) + "\n  ]"
  }

  const LIST_HEAD := "{\n  \"schema_version\": \"1.0\",\n  \"sections\": "

  function Texts(items: seq<ContextSection>, render: ContextSection -> string): seq<string> {
    seq(|items|, i requires 0 <= i < |items| => render(items[i]))
  }

  function GroupContent(texts: seq<string>): string {
    LIST_HEAD + ListText(texts) + "\n}"
  }

  function Group(sections: seq<ContextSection>, role: MessageRole): seq<ContextSection> {
    if sections == [] then []
    else
      var n := |sections| - 1;
      Group(sections[..n], role) + if RoleOf(sections[n].trust) == role then [sections[n]] else []
  }

  function TextMessage(role: MessageRole, content: string): ChatMessage {
    ChatMessage(role, Some(content), [], None, None, None)
  }

  /** One system and one user message, whatever the sections. */
  function RenderMessages(sections: seq<ContextSection>): seq<ChatMessage> {
    [TextMessage(System, GroupContent(Texts(Group(sections, System), SectionText))),
     TextMessage(User, GroupContent(Texts(Group(sections, User), SectionText)))]
  }

  // ----- the estimate -----

  predicate IsWord(c: char) {
    'A' <= c <= 'Z' || 'a' <= c <= 'z' || '0' <= c <= '9' || c == '_'
  }

  function OrNull(s: Option<string>): string {
    match s case None => "null" case Some(v) => Quote(v)
  }

  function CallText(c: ToolCall): string {
    "{\"arguments\":" + c.arguments.canonicalJson + ",\"id\":" + Quote(c.id) + ",\"name\":" + Quote(c.name) + "}"
  }

  function CallsText(calls: seq<ToolCall>): string {
    if calls == [] then ""
    else if |calls| == 1 then CallText(calls[0])
    else CallText(calls[0]) + "," + CallsText(calls[1..])
  }

  /** The compact JSON text of a message (sorted keys, no spaces). */
  function Payload(m: ChatMessage): string {
    "{\"content\":" + OrNull(m.content) + ",\"name\":" + OrNull(m.name)
    + (match m.reasoning case None => "" case Some(r) => ",\"reasoning_content\":" + Quote(r))
    + ",\"role\":" + Quote(RoleValue(m.role)) + ",\"tool_call_id\":" + OrNull(m.toolCallId)
    + ",\"tool_calls\":[" + CallsText(m.toolCalls) + "]}"
  }

  /** Length of the run of word characters at the front. */
  function RunLength(s: string): (n: nat)
    ensures n <= |s| && (forall i :: 0 <= i < n ==> IsWord(s[i])) && (n < |s| ==> !IsWord(s[n]))
  {
    if s == "" || !IsWord(s[0]) then 0 else 1 + RunLength(s[1..])
  }

  function TotalLength(runs: seq<string>): nat {
    if runs == [] then 0 else |runs[0]| + TotalLength(runs[1..])
  }

  /** `re.finditer(r"[A-Za-z0-9_]+", s)`: the maximal runs, left to right. */
  function WordRuns(s: string): (runs: seq<string>)
    ensures TotalLength(runs) <= |s|
    decreases |s|
  {
    if s == "" then []
    else if !IsWord(s[0]) then WordRuns(s[1..])
    else [s[..RunLength(s)]] + WordRuns(s[RunLength(s)..])
  }

  function CeilDiv(a: nat, b: nat): nat
    requires 0 < b
  {
    (a + b - 1) / b
  }

  function EstimateMessage(m: ChatMessage): int {
    var content := Payload(m);
    var wordCharacters := TotalLength(WordRuns(content));
    var baseUnits := CeilDiv(wordCharacters, 4) + (|content| - wordCharacters);
    CeilDiv(23 * baseUnits, 20) + 8
  }

  function SumOver(messages: seq<ChatMessage>, size: ChatMessage -> int): int {
    if messages == [] then 0 else size(messages[0]) + SumOver(messages[1..], size)
  }

  function EstimateMessages(messages: seq<ChatMessage>): int {
    SumOver(messages, EstimateMessage)
  }

  lemma {:induction false} SumOverAppend(messages: seq<ChatMessage>, last: ChatMessage, size: ChatMessage -> int)
    ensures SumOver(messages + [last], size) == SumOver(messages, size) + size(last)
  {
    if messages == [] {
      assert messages + [last] == [last];
    } else {
      SumOverAppend(messages[1..], last, size);
      assert (messages + [last])[1..] == messages[1..] + [last];
    }
  }

  /** Every message adds its own estimate, and nothing else is added. */
  lemma {:induction false} EstimateAdds(messages: seq<ChatMessage>, last: ChatMessage)
    ensures EstimateMessages([]) == 0
    ensures EstimateMessages(messages + [last]) == EstimateMessages(messages) + EstimateMessage(last)
  {
    SumOverAppend(messages, last, EstimateMessage);
  }

  // ----- what the estimate measures -----

  /** Number of word characters (word), respectively of all others (!word). */
  function Count(s: string, word: bool): nat {
    if s == "" then 0 else (if IsWord(s[0]) == word then 1 else 0) + Count(s[1..], word)
  }

  lemma {:induction false} CountConcat(a: string, b: string, word: bool)
    ensures Count(a + b, word) == Count(a, word) + Count(b, word)
  {
    if a == "" {
      assert a + b == b;
    } else {
      CountConcat(a[1..], b, word);
      assert (a + b)[1..] == a[1..] + b;
    }
  }

  lemma {:induction false} CountsCoverLength(s: string)
    ensures Count(s, true) + Count(s, false) == |s|
  {
    if s != "" {
      CountsCoverLength(s[1..]);
    }
  }

  lemma {:induction false} CountOfWords(s: string)
    requires forall i :: 0 <= i < |s| ==> IsWord(s[i])
    ensures Count(s, true) == |s|
  {
    if s != "" {
      CountOfWords(s[1..]);
    }
  }

  /** Summing the lengths of the regex matches counts the word characters. */
  lemma {:induction false} RunsCountWords(s: string)
    ensures TotalLength(WordRuns(s)) == Count(s, true)
    decreases |s|
  {
    if s == "" {
    } else if !IsWord(s[0]) {
      RunsCountWords(s[1..]);
    } else {
      var n := RunLength(s);
      RunsCountWords(s[n..]);
      CountOfWords(s[..n]);
      CountConcat(s[..n], s[n..], true);
      assert s == s[..n] + s[n..];
      var runs := WordRuns(s);
      assert runs == [s[..n]] + WordRuns(s[n..]);
      assert runs[0] == s[..n] && runs[1..] == WordRuns(s[n..]);
    }
  }

  /** Ceiling of 23/20 of ceiling(w/4) + o, plus the fixed overhead. */
  function Units(w: nat, o: nat): nat {
    (23 * ((w + 3) / 4 + o) + 19) / 20 + 8
  }

  lemma {:induction false} UnitsMonotone(w: nat, o: nat, w': nat, o': nat)
    requires w <= w' && o <= o'
    ensures Units(w, o) <= Units(w', o')
  {
    assert (w + 3) / 4 <= (w' + 3) / 4;
  }

  lemma {:induction false} EstimateIsUnits(m: ChatMessage)
    ensures EstimateMessage(m) == Units(Count(Payload(m), true), Count(Payload(m), false))
  {
    RunsCountWords(Payload(m));
    CountsCoverLength(Payload(m));
  }

  /** Inserting text anywhere in a message's payload never lowers its estimate. */
  lemma {:induction false} InsertionNeverShrinks(before: string, inserted: string, after: string, m: ChatMessage,
                                                 m': ChatMessage)
    requires Payload(m) == before + after && Payload(m') == before + inserted + after
    ensures EstimateMessage(m) <= EstimateMessage(m')
  {
    EstimateIsUnits(m);
    EstimateIsUnits(m');
    forall word: bool ensures Count(Payload(m), word) <= Count(Payload(m'), word) {
      CountConcat(before, after, word);
      CountConcat(before + inserted, after, word);
      CountConcat(before, inserted, word);
    }
    UnitsMonotone(Count(Payload(m), true), Count(Payload(m), false), Count(Payload(m'), true), Count(Payload(m'), false));
  }

  // ----- sections -----

  /** Characters of a text once it is embedded in a JSON string. */
  function Embedded(s: string, word: bool): nat {
    Count(Escape(s), word)
  }

  lemma {:induction false} EmbeddedConcat(a: string, b: string, word: bool)
    ensures Embedded(a + b, word) == Embedded(a, word) + Embedded(b, word)
  {
    EscapeConcat(a, b);
    CountConcat(Escape(a), Escape(b), word);
  }

  lemma {:induction false} EmbeddedThree(a: string, b: string, c: string, word: bool)
    ensures Embedded(a + b + c, word) == Embedded(a, word) + Embedded(b, word) + Embedded(c, word)
  {
    EmbeddedConcat(a + b, c, word);
    EmbeddedConcat(a, b, word);
  }

  /** Each text with one separator. */
  function Weight(texts: seq<string>, word: bool): nat {
    if texts == [] then 0
    else Weight(texts[..|texts| - 1], word) + Embedded(",", word) + Embedded(texts[|texts| - 1], word)
  }

  lemma {:induction false} JoinSplit(texts: seq<string>, last: string)
    requires texts != []
    ensures Join(texts + [last]) == Join(texts) + "," + last
  {
    if |texts| > 1 {
      JoinSplit(texts[1..], last);
      assert (texts + [last])[1..] == texts[1..] + [last];
      var x, y := texts[0] + ",", Join(texts[1..]);
      assert x + (y + "," + last) == (x + y) + "," + last;
    } else {
      assert (texts + [last])[1..] == [last];
    }
  }

  lemma {:induction false} JoinWeight(texts: seq<string>, word: bool)
    requires texts != []
    ensures Embedded(Join(texts), word) + Embedded(",", word) == Weight(texts, word)
  {
    var n := |texts| - 1;
    if n > 0 {
      JoinWeight(texts[..n], word);
      var front, last := texts[..n], texts[n];
      assert texts == front + [last];
      JoinSplit(front, last);
      EmbeddedThree(Join(front), ",", last, word);
    }
  }

  /** A longer, heavier list has a heavier text; the empty list is the lightest. */
  lemma {:induction false} ListWeightMonotone(texts: seq<string>, texts': seq<string>, word: bool)
    requires Weight(texts, word) <= Weight(texts', word) && (texts != [] ==> texts' != [])
    ensures Embedded(ListText(texts), word) <= Embedded(ListText(texts'), word)
  {
    if texts' != [] {
      EmbeddedThree("[", Join(texts'), "\n  ]", word);
      JoinWeight(texts', word);
      if texts != [] {
        EmbeddedThree("[", Join(texts), "\n  ]", word);
        JoinWeight(texts, word);
      } else {
        EmptyListLightest(word);
      }
    }
  }

  lemma {:induction false} EmptyListLightest(word: bool)
    ensures Embedded("[]", word) <= Embedded("[", word) + Embedded("\n  ]", word)
  {
    EmbeddedConcat("[", "]", word);
    EmbeddedConcat("\n  ", "]", word);
    assert "[" + "]" == "[]" && "\n  " + "]" == "\n  ]";
  }

  const PAYLOAD_HEAD := "{\"content\":\""

  function PayloadTail(role: MessageRole): string {
    "\",\"name\":null,\"role\":" + Quote(RoleValue(role)) + ",\"tool_call_id\":null,\"tool_calls\":[]}"
  }

  lemma {:induction false} PayloadOfText(role: MessageRole, content: string)
    ensures Payload(TextMessage(role, content)) == PAYLOAD_HEAD + Escape(content) + PayloadTail(role)
  {
    var e, q := Escape(content), Quote(RoleValue(role));
    PayloadShape(e, q);
  }

  lemma {:induction false} PayloadShape(e: string, q: string)
    ensures "{\"content\":" + ("\"" + e + "\"") + ",\"name\":" + "null" + "" + ",\"role\":" + q
            + ",\"tool_call_id\":" + "null" + ",\"tool_calls\":[" + "" + "]}"
         == "{\"content\":\"" + e + ("\",\"name\":null,\"role\":" + q + ",\"tool_call_id\":null,\"tool_calls\":[]}")
  {
    Regroup("{\"content\":", "\"", e, ",\"name\":", "null", ",\"role\":", q, ",\"tool_call_id\":", ",\"tool_calls\":[", "]}");
    HeadText();
    MiddleText();
    TailText();
  }

  lemma {:induction false} HeadText()
    ensures "{\"content\":" + "\"" == "{\"content\":\""
  {
  }

  lemma {:induction false} MiddleText()
    ensures "\"" + ",\"name\":" + "null" + ",\"role\":" == "\",\"name\":null,\"role\":"
  {
  }

  lemma {:induction false} TailText()
    ensures ",\"tool_call_id\":" + "null" + ",\"tool_calls\":[" + "]}" == ",\"tool_call_id\":null,\"tool_calls\":[]}"
  {
  }

  /** Concatenation regrouped around the two variable parts. */
  lemma {:induction false} Regroup(a: string, x: string, e: string, b: string, n: string, c: string, q: string,
                                   d: string, f: string, g: string)
    ensures a + (x + e + x) + b + n + "" + c + q + d + n + f + "" + g
         == (a + x) + e + ((x + b + n + c) + q + (d + n + f + g))
  {
  }

  /** The payload of a rendered message is fixed text around the embedded list. */
  lemma {:induction false} GroupWeight(role: MessageRole, texts: seq<string>, word: bool)
    ensures Count(Payload(TextMessage(role, GroupContent(texts))), word)
         == Count(PAYLOAD_HEAD, word) + (Embedded(LIST_HEAD, word) + Embedded(ListText(texts), word)
            + Embedded("\n}", word)) + Count(PayloadTail(role), word)
  {
    PayloadOfText(role, GroupContent(texts));
    EmbeddedThree(LIST_HEAD, ListText(texts), "\n}", word);
    CountThree(PAYLOAD_HEAD, Escape(GroupContent(texts)), PayloadTail(role), word);
  }

  lemma {:induction false} CountThree(a: string, b: string, c: string, word: bool)
    ensures Count(a + b + c, word) == Count(a, word) + Count(b, word) + Count(c, word)
  {
    CountConcat(a + b, c, word);
    CountConcat(a, b, word);
  }

  lemma {:induction false} GroupEstimateMonotone(role: MessageRole, texts: seq<string>, texts': seq<string>)
    requires forall word: bool :: Weight(texts, word) <= Weight(texts', word)
    requires texts != [] ==> texts' != []
    ensures EstimateMessage(TextMessage(role, GroupContent(texts))) <= EstimateMessage(TextMessage(role, GroupContent(texts')))
  {
    var m, m' := TextMessage(role, GroupContent(texts)), TextMessage(role, GroupContent(texts'));
    EstimateIsUnits(m);
    EstimateIsUnits(m');
    forall word: bool ensures Count(Payload(m), word) <= Count(Payload(m'), word) {
      ListWeightMonotone(texts, texts', word);
      GroupWeight(role, texts, word);
      GroupWeight(role, texts', word);
    }
    UnitsMonotone(Count(Payload(m), true), Count(Payload(m), false), Count(Payload(m'), true), Count(Payload(m'), false));
  }
}
