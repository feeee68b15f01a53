/**
 Rendered contexts read back: every section's fields stand under their own keys, and the
 two messages list the instructional and the data sections in order.
 */
module ContextReading {
  import opened Prelude
  import opened ProviderModels
  import opened Json
  import opened JsonReader
  import opened ContextSizer
  import opened ContextSelection

  // ----- what a reader should find -----

  /** Policy and skill instructions instruct; everything else is data. */
  predicate Instructs(t: ContextTrust) {
    t == InternalPolicy || t == SkillInstructions
  }

  predicate TrustNamed(t: ContextTrust, name: string) {
    || (t == InternalPolicy && name == "internal_policy")
    || (t == SkillInstructions && name == "skill_instructions")
    || (t == DeterministicFacts && name == "deterministic_facts")
    || (t == UserRequest && name == "user_request")
    || (t == KnowledgeEvidence && name == "knowledge_evidence")
    || (t == ExternalMetaEvidence && name == "external_meta_evidence")
  }

  /** The value shows the section's fields, each under its own key. */
  predicate ShowsSection(v: Value, s: ContextSection) {
    && Field(v, "content") == Some(JText(s.content))
    && Field(v, "instructional") == Some(JAtom(if Instructs(s.trust) then "true" else "false"))
    && Field(v, "section_id") == Some(JText(s.sectionId))
    && Field(v, "source") == Some(JText(s.source))
    && Field(v, "trust").Some? && Field(v, "trust").value.JText? && TrustNamed(s.trust, Field(v, "trust").value.text)
  }

  // ----- one section -----

  function HeadOf(i: nat): string {
    if i == 0 then "\n    {\n      \"content\": "
    else if i == 1 then ",\n      \"instructional\": "
    else if i == 2 then ",\n      \"section_id\": "
    else if i == 3 then ",\n      \"source\": "
    else ",\n      \"trust\": "
  }

  function KeyOf(i: nat): string {
    if i == 0 then "content" else if i == 1 then "instructional" else if i == 2 then "section_id"
    else if i == 3 then "source" else "trust"
  }

  function ValueOf(s: ContextSection, i: nat): Value {
    if i == 0 then JText(s.content)
    else if i == 1 then JAtom(Bool(Instructional(s.trust)))
    else if i == 2 then JText(s.sectionId)
    else if i == 3 then JText(s.source)
    else JText(TrustValue(s.trust))
  }

  /** A string in quotes, a word as it is. */
  function Written(v: Value): string {
    match v
    case JText(text) => Quote(text)
    case JAtom(word) => word
    case _ => ""
  }

  function SectionPieces(s: ContextSection): seq<Piece> {
    seq(5, i requires 0 <= i < 5 => Piece(HeadOf(i), KeyOf(i), Written(ValueOf(s, i)), ValueOf(s, i)))
  }

  function SectionValue(s: ContextSection): Value {
    JObject(MembersOf(SectionPieces(s)))
  }

  lemma {:induction false} ContentHead()
    ensures Lexes("\n    {\n      \"content\": ", [Sign('{'), Text("content"), Sign(':')])
  {
    KeyLexes("\n    {\n      \"content\": ", "\n    ", '{', "\n      ", "content", " ");
  }

  lemma {:induction false} InstructionalHead()
    ensures Lexes(",\n      \"instructional\": ", [Sign(','), Text("instructional"), Sign(':')])
  {
    KeyLexes(",\n      \"instructional\": ", "", ',', "\n      ", "instructional", " ");
  }

  lemma {:induction false} SectionIdText()
    ensures ",\n      \"section_id\": " == "" + [','] + "\n      " + ("\"" + "section_id" + "\"") + ":" + " "
  {
  }

  lemma {:induction false} SectionIdHead()
    ensures Lexes(",\n      \"section_id\": ", [Sign(','), Text("section_id"), Sign(':')])
  {
    SectionIdText();
    KeyLexes(",\n      \"section_id\": ", "", ',', "\n      ", "section_id", " ");
  }

  lemma {:induction false} SourceHead()
    ensures Lexes(",\n      \"source\": ", [Sign(','), Text("source"), Sign(':')])
  {
    KeyLexes(",\n      \"source\": ", "", ',', "\n      ", "source", " ");
  }

  lemma {:induction false} TrustHead()
    ensures Lexes(",\n      \"trust\": ", [Sign(','), Text("trust"), Sign(':')])
  {
    KeyLexes(",\n      \"trust\": ", "", ',', "\n      ", "trust", " ");
  }

  lemma {:induction false} SectionEnd()
    ensures Lexes("\n    }", [Sign('}')])
  {
    SignAfterLexes("\n    ", '}');
    assert "\n    " + "}" == "\n    }";
  }

  /** The text of five pieces, one after the other. */
  lemma {:induction false} FivePieces(ps: seq<Piece>)
    requires |ps| == 5
    ensures PiecesText(ps) == ps[0].head + ps[0].text + ps[1].head + ps[1].text + ps[2].head + ps[2].text
                              + ps[3].head + ps[3].text + ps[4].head + ps[4].text
  {
    PiecesAt(ps, 1);
    PiecesAt(ps, 2);
    PiecesAt(ps, 3);
    PiecesAt(ps, 4);
    PiecesAt(ps, 5);
    assert ps[..0] == [] && ps[..5] == ps;
    assert "" + ps[0].head == ps[0].head;
  }

  lemma {:induction false} PiecesAt(ps: seq<Piece>, n: nat)
    requires 0 < n <= |ps|
    ensures PiecesText(ps[..n]) == PiecesText(ps[..n - 1]) + ps[n - 1].head + ps[n - 1].text
  {
    assert ps[..n][..n - 1] == ps[..n - 1];
  }

  lemma {:induction false} HeadLexes(i: nat)
    requires i < 5
    ensures Lexes(HeadOf(i), [Sign(if i == 0 then '{' else ','), Text(KeyOf(i)), Sign(':')])
  {
    if i == 0 { ContentHead(); }
    else if i == 1 { InstructionalHead(); }
    else if i == 2 { SectionIdHead(); }
    else if i == 3 { SourceHead(); }
    else { TrustHead(); }
  }

  lemma {:induction false} WrittenLexes(v: Value)
    requires v.JText? || (v.JAtom? && exists b: bool :: v.word == Bool(b))
    ensures WellFormed(v) && Lexes(Written(v), Tokens(v))
  {
    match v
    case JText(text) => QuoteLexes(text);
    case JAtom(word) => BoolLexes(word == Bool(true));
  }

  lemma {:induction false} KeysOrdered(i: nat, j: nat)
    requires i < j < 5
    ensures KeyOf(i) != KeyOf(j)
  {
    assert |KeyOf(i)| != |KeyOf(j)|;
  }

  lemma {:induction false} SectionPiecesFit(s: ContextSection)
    ensures PiecesFit(SectionPieces(s)) && KeysDiffer(SectionPieces(s))
  {
    forall i | 0 <= i < 5 ensures PieceFits(SectionPieces(s)[i], i == 0) {
      HeadLexes(i);
      WrittenLexes(ValueOf(s, i));
    }
    forall i, j | 0 <= i < j < 5 ensures KeyOf(i) != KeyOf(j) {
      KeysOrdered(i, j);
    }
  }

  lemma {:induction false} SectionTextOfPieces(s: ContextSection)
    ensures SectionText(s) == PiecesText(SectionPieces(s)) + "\n    }"
  {
    FivePieces(SectionPieces(s));
  }

  lemma {:induction false} SectionFields(s: ContextSection, v: Value)
    requires forall i :: 0 <= i < 5 ==> Field(v, KeyOf(i)) == Some(ValueOf(s, i))
    ensures ShowsSection(v, s)
  {
    assert Field(v, KeyOf(0)) == Some(ValueOf(s, 0)) && Field(v, KeyOf(1)) == Some(ValueOf(s, 1))
      && Field(v, KeyOf(2)) == Some(ValueOf(s, 2)) && Field(v, KeyOf(3)) == Some(ValueOf(s, 3))
      && Field(v, KeyOf(4)) == Some(ValueOf(s, 4));
  }

  lemma {:induction false} SectionLexes(s: ContextSection)
    ensures WellFormed(SectionValue(s)) && Lexes(SectionText(s), Tokens(SectionValue(s)))
    ensures ShowsSection(SectionValue(s), s)
  {
    var ps := SectionPieces(s);
    SectionPiecesFit(s);
    SectionEnd();
    ObjectLexes(ps, "\n    }");
    SectionTextOfPieces(s);
    forall i | 0 <= i < 5 ensures Field(SectionValue(s), KeyOf(i)) == Some(ValueOf(s, i)) {
      assert ps[i].key == KeyOf(i) && ps[i].value == ValueOf(s, i);
    }
    SectionFields(s, SectionValue(s));
  }

  /** Whatever a section contains, its text reads back as its five fields, each under its own key. */
  lemma {:induction false} SectionReadsBack(s: ContextSection)
    ensures ReadJson(SectionText(s)).Some? && ShowsSection(ReadJson(SectionText(s)).value, s)
  {
    SectionLexes(s);
    TextReadsBack(SectionText(s), SectionValue(s));
  }

  // ----- a list of sections -----

  function ItemsFrom(vs: seq<Value>): Items {
    if vs == [] then NoItem else Item(vs[0], ItemsFrom(vs[1..]))
  }

  lemma {:induction false} ItemsFromSeq(vs: seq<Value>)
    requires forall i :: 0 <= i < |vs| ==> WellFormed(vs[i])
    ensures ItemSeq(ItemsFrom(vs)) == vs && ItemsFormed(ItemsFrom(vs))
  {
    if vs != [] {
      ItemsFromSeq(vs[1..]);
    }
  }

  /** The texts are those of the values. */
  predicate TextsOf(texts: seq<string>, vs: seq<Value>) {
    |texts| == |vs| && forall i :: 0 <= i < |vs| ==> WellFormed(vs[i]) && Lexes(texts[i], Tokens(vs[i]))
  }

  lemma {:induction false} JoinLexes(texts: seq<string>, vs: seq<Value>)
    requires TextsOf(texts, vs) && texts != []
    ensures Lexes(Join(texts), ItemTokens(ItemsFrom(vs)))
  {
    var first, more := Tokens(vs[0]), ItemTokens(ItemsFrom(vs[1..]));
    if |texts| == 1 {
      assert first + [] == first;
    } else {
      JoinLexes(texts[1..], vs[1..]);
      SignLexes(',');
      LexConcat(texts[0], ",", first, [Sign(',')]);
      LexConcat(texts[0] + ",", Join(texts[1..]), first + [Sign(',')], more);
      assert first + [Sign(',')] + more == first + ([Sign(',')] + more);
    }
  }

  /** A list that is not empty, with its closing bracket as it comes. */
  lemma {:induction false} BracketsLex(texts: seq<string>, vs: seq<Value>, close: string)
    requires TextsOf(texts, vs) && texts != [] && Lexes(close, [Sign(']')])
    ensures Lexes("[" + Join(texts) + close, Tokens(JList(ItemsFrom(vs))))
  {
    SignLexes('[');
    JoinLexes(texts, vs);
    LexConcat("[", Join(texts), [Sign('[')], ItemTokens(ItemsFrom(vs)));
    LexConcat("[" + Join(texts), close, [Sign('[')] + ItemTokens(ItemsFrom(vs)), [Sign(']')]);
  }

  lemma {:induction false} EmptyListLexes()
    ensures Lexes("[]", Tokens(JList(NoItem)))
  {
    SignLexes('[');
    SignLexes(']');
    LexConcat("[", "]", [Sign('[')], [Sign(']')]);
    assert "[" + "]" == "[]";
    assert [Sign('[')] + [] + [Sign(']')] == [Sign('[')] + [Sign(']')];
  }

  lemma {:induction false} ListLexes(texts: seq<string>, vs: seq<Value>)
    requires TextsOf(texts, vs)
    ensures WellFormed(JList(ItemsFrom(vs))) && Lexes(ListText(texts), Tokens(JList(ItemsFrom(vs))))
  {
    ItemsFromSeq(vs);
    if texts == [] {
      EmptyListLexes();
    } else {
      SignAfterLexes("\n  ", ']');
      assert "\n  " + "]" == "\n  ]";
      BracketsLex(texts, vs, "\n  ]");
    }
  }

  // ----- one message -----

  const VERSION_HEAD := "{\n  \"schema_version\": "
  const SECTIONS_HEAD := ",\n  \"sections\": "

  lemma {:induction false} VersionText()
    ensures VERSION_HEAD == "" + ['{'] + "\n  " + ("\"" + "schema_version" + "\"") + ":" + " "
  {
  }

  lemma {:induction false} VersionHead()
    ensures Lexes(VERSION_HEAD, [Sign('{'), Text("schema_version"), Sign(':')])
  {
    VersionText();
    KeyLexes(VERSION_HEAD, "", '{', "\n  ", "schema_version", " ");
  }

  lemma {:induction false} SectionsHead()
    ensures Lexes(SECTIONS_HEAD, [Sign(','), Text("sections"), Sign(':')])
  {
    KeyLexes(SECTIONS_HEAD, "", ',', "\n  ", "sections", " ");
  }

  function GroupPieces(texts: seq<string>, vs: seq<Value>): seq<Piece> {
    [Piece(VERSION_HEAD, "schema_version", Quote("1.0"), JText("1.0")),
     Piece(SECTIONS_HEAD, "sections", ListText(texts), JList(ItemsFrom(vs)))]
  }

  lemma {:induction false} ListHeadText()
    ensures LIST_HEAD == VERSION_HEAD + Quote("1.0") + SECTIONS_HEAD
  {
    VersionQuoted();
  }

  lemma {:induction false} VersionQuoted()
    ensures Quote("1.0") == "\"1.0\""
  {
    EscapeOfPlain("1.0");
  }

  lemma {:induction false} TwoPieces(ps: seq<Piece>)
    requires |ps| == 2
    ensures PiecesText(ps) == ps[0].head + ps[0].text + ps[1].head + ps[1].text
  {
    PiecesAt(ps, 1);
    PiecesAt(ps, 2);
    assert ps[..0] == [] && ps[..2] == ps;
    assert "" + ps[0].head == ps[0].head;
  }

  lemma {:induction false} GroupPiecesFit(texts: seq<string>, vs: seq<Value>)
    requires TextsOf(texts, vs)
    ensures PiecesFit(GroupPieces(texts, vs)) && KeysDiffer(GroupPieces(texts, vs))
  {
    VersionHead();
    SectionsHead();
    QuoteLexes("1.0");
    ListLexes(texts, vs);
  }

  /** A rendered list of values reads back as that list, under its schema version. */
  lemma {:induction false} GroupReadsBack(texts: seq<string>, vs: seq<Value>)
    requires TextsOf(texts, vs)
    ensures var v := ReadJson(GroupContent(texts));
      && v.Some? && Field(v.value, "schema_version") == Some(JText("1.0"))
      && Field(v.value, "sections") == Some(JList(ItemsFrom(vs))) && ItemSeq(ItemsFrom(vs)) == vs
  {
    var ps := GroupPieces(texts, vs);
    GroupPiecesFit(texts, vs);
    SignAfterLexes("\n", '}');
    assert "\n" + "}" == "\n}";
    ObjectLexes(ps, "\n}");
    TwoPieces(ps);
    ListHeadText();
    assert GroupContent(texts) == PiecesText(ps) + "\n}";
    TextReadsBack(GroupContent(texts), JObject(MembersOf(ps)));
    assert Field(JObject(MembersOf(ps)), ps[0].key) == Some(ps[0].value);
    assert Field(JObject(MembersOf(ps)), ps[1].key) == Some(ps[1].value);
    ItemsFromSeq(vs);
  }

  // ----- both messages -----

  /** The shown values are exactly the sections of one kind, in order; `places` are their positions. */
  predicate InOrder(shown: seq<Value>, sections: seq<ContextSection>, instructing: bool, places: seq<nat>) {
    && |places| == |shown|
    && (forall a, b :: 0 <= a < b < |places| ==> places[a] < places[b])
    && (forall k :: 0 <= k < |places| ==>
          && places[k] < |sections| && Instructs(sections[places[k]].trust) == instructing
          && ShowsSection(shown[k], sections[places[k]]))
    && forall i: nat :: i < |sections| && Instructs(sections[i].trust) == instructing ==> i in places
  }

  /** The content reads as a list of exactly the sections of one kind, in order. */
  ghost predicate Lists(content: string, sections: seq<ContextSection>, instructing: bool) {
    var v := ReadJson(content);
    && v.Some? && Field(v.value, "schema_version") == Some(JText("1.0"))
    && Field(v.value, "sections").Some? && Field(v.value, "sections").value.JList?
    && exists places: seq<nat> :: InOrder(ItemSeq(Field(v.value, "sections").value.items), sections, instructing, places)
  }

  function Values(sections: seq<ContextSection>): seq<Value> {
    seq(|sections|, i requires 0 <= i < |sections| => SectionValue(sections[i]))
  }

  lemma {:induction false} OrderSkips(shown: seq<Value>, front: seq<ContextSection>, s: ContextSection, instructing: bool,
                                      places: seq<nat>)
    requires InOrder(shown, front, instructing, places) && Instructs(s.trust) != instructing
    ensures InOrder(shown, front + [s], instructing, places)
  {
    var all := front + [s];
    forall k | 0 <= k < |places| ensures places[k] < |all| && all[places[k]] == front[places[k]] {}
    forall i: nat | i < |all| && Instructs(all[i].trust) == instructing ensures i in places {
      assert i < |front| && all[i] == front[i];
    }
  }

  lemma {:induction false} OrderTakes(shown: seq<Value>, front: seq<ContextSection>, s: ContextSection, instructing: bool,
                                      places: seq<nat>, v: Value)
    requires InOrder(shown, front, instructing, places) && Instructs(s.trust) == instructing && ShowsSection(v, s)
    ensures InOrder(shown + [v], front + [s], instructing, places + [|front|])
  {
    var all := front + [s];
    forall k | 0 <= k < |places| ensures places[k] < |all| && all[places[k]] == front[places[k]] {}
    forall i: nat | i < |all| && Instructs(all[i].trust) == instructing ensures i in places + [|front|] {
      if i < |front| { assert all[i] == front[i]; }
    }
  }

  lemma {:induction false} GroupExtends(front: seq<ContextSection>, s: ContextSection, role: MessageRole)
    requires role.System? || role.User?
    ensures Values(Group(front + [s], role))
         == if Instructs(s.trust) == role.System? then Values(Group(front, role)) + [SectionValue(s)]
            else Values(Group(front, role))
  {
    assert (front + [s])[..|front|] == front;
  }

  lemma {:induction false} SectionValueShows(s: ContextSection)
    ensures ShowsSection(SectionValue(s), s)
  {
    SectionLexes(s);
  }

  lemma {:induction false} GroupInOrder(sections: seq<ContextSection>, role: MessageRole) returns (places: seq<nat>)
    requires role.System? || role.User?
    ensures InOrder(Values(Group(sections, role)), sections, role.System?, places)
  {
    places := [];
    if sections != [] {
      var front, s := sections[..|sections| - 1], sections[|sections| - 1];
      places := GroupInOrder(front, role);
      assert sections == front + [s];
      GroupExtends(front, s, role);
      places := OrderContinues(Values(Group(front, role)), front, s, role.System?, places, SectionValue(s));
    }
  }

  lemma {:induction false} OrderContinues(shown: seq<Value>, front: seq<ContextSection>, s: ContextSection, instructing: bool,
                                          places: seq<nat>, v: Value) returns (places': seq<nat>)
    requires InOrder(shown, front, instructing, places) && v == SectionValue(s)
    ensures InOrder(if Instructs(s.trust) == instructing then shown + [v] else shown, front + [s], instructing, places')
  {
    if Instructs(s.trust) == instructing {
      SectionValueShows(s);
      OrderTakes(shown, front, s, instructing, places, v);
      places' := places + [|front|];
    } else {
      OrderSkips(shown, front, s, instructing, places);
      places' := places;
    }
  }

  lemma {:induction false} GroupLists(sections: seq<ContextSection>, role: MessageRole)
    requires role.System? || role.User?
    ensures Lists(GroupContent(Texts(Group(sections, role), SectionText)), sections, role.System?)
  {
    var shown := Group(sections, role);
    forall i | 0 <= i < |shown|
      ensures WellFormed(Values(shown)[i]) && Lexes(Texts(shown, SectionText)[i], Tokens(Values(shown)[i]))
    {
      SectionLexes(shown[i]);
    }
    GroupReadsBack(Texts(shown, SectionText), Values(shown));
    var places := GroupInOrder(sections, role);
  }

  /** A message of text alone. */
  predicate PlainMessage(m: ChatMessage, role: MessageRole) {
    && m.role == role && m.content.Some? && m.toolCalls == [] && m.toolCallId.None? && m.name.None? && m.reasoning.None?
  }

  /** Two messages: the instructions for the system, the data for the user. */
  ghost predicate ShowsContext(messages: seq<ChatMessage>, sections: seq<ContextSection>) {
    && |messages| == 2
    && PlainMessage(messages[0], System) && Lists(messages[0].content.value, sections, true)
    && PlainMessage(messages[1], User) && Lists(messages[1].content.value, sections, false)
  }

  /** Reading the messages of any sections gives exactly those sections, by kind and in order. */
  lemma {:induction false} MessagesReadBack(sections: seq<ContextSection>)
    ensures ShowsContext(RenderMessages(sections), sections)
  {
    GroupLists(sections, System);
    GroupLists(sections, User);
  }

  /** The messages of a selection show exactly the selected sections, and its estimate is theirs. */
  lemma {:induction false} SelectionReadsBack(sizer: Sizer, sections: seq<ContextSection>, limit: int)
    ensures var r := Select(sizer, sections, limit);
      r.Selected? ==> ShowsContext(r.messages, r.sections) && r.estimate == sizer(r.messages)
  {
    var r := Select(sizer, sections, limit);
    if r.Selected? {
      MessagesReadBack(r.sections);
    }
  }
}
