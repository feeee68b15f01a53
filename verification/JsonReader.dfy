/**
 A reader of JSON texts, as the counterpart of what the agent code writes: strings are
 read up to their closing quote with every escape undone, and objects and lists by their
 brackets. Numbers, `true`, `false` and `null` are kept as they are written.
 */
module JsonReader {
  import opened Prelude
  import opened Json

  /** A string, or any other character that is not white space. */
  datatype Token = Text(value: string) | Sign(c: char)

  datatype Value = JText(text: string) | JAtom(word: string) | JObject(members: Members) | JList(items: Items)
  datatype Members = NoMember | Member(key: string, value: Value, rest: Members)
  datatype Items = NoItem | Item(value: Value, rest: Items)

  // ----- strings -----

  /** A character and the number of characters it was written with. */
  datatype Unescaped = Unescaped(c: char, length: nat)

  function HexValue(c: char): Option<int> {
    if '0' <= c <= '9' then Some(c as int - '0' as int)
    else if 'a' <= c <= 'f' then Some(10 + c as int - 'a' as int)
    else None
  }

  /** Undoes one escape, or takes one character as it is. */
  function ReadChar(s: string): (r: Option<Unescaped>)
    requires s != ""
    ensures r.Some? ==> 1 <= r.value.length <= |s|
  {
    if s[0] != '\\' then Some(Unescaped(s[0], 1))
    else if |s| < 2 then None
    else if s[1] == 'u' then
      if |s| >= 6 && s[2] == '0' && s[3] == '0' && HexValue(s[4]).Some? && HexValue(s[5]).Some?
      then Some(Unescaped((16 * HexValue(s[4]).value + HexValue(s[5]).value) as char, 6)) else None
    else if s[1] == 'n' then Some(Unescaped('\n', 2))
    else if s[1] == 'r' then Some(Unescaped('\r', 2))
    else if s[1] == 't' then Some(Unescaped('\t', 2))
    else if s[1] == 'b' then Some(Unescaped(8 as char, 2))
    else if s[1] == 'f' then Some(Unescaped(12 as char, 2))
    else if s[1] == '"' || s[1] == '\\' || s[1] == '/' then Some(Unescaped(s[1], 2))
    else None
  }

  datatype StringRead = StringRead(text: string, rest: string)

  /** The rest of a string and what follows its closing quote. */
  function ReadString(s: string): (r: Option<StringRead>)
    ensures r.Some? ==> |r.value.rest| < |s|
    decreases |s|
  {
    if s == "" then None
    else if s[0] == '"' then Some(StringRead("", s[1..]))
    else
      var first := ReadChar(s);
      if first.None? then None
      else
        var more := ReadString(s[first.value.length..]);
        if more.None? then None else Some(StringRead([first.value.c] + more.value.text, more.value.rest))
  }

  predicate IsWhite(c: char) {
    c == ' ' || c == '\n' || c == '\r' || c == '\t'
  }

  /** None if a string is not closed. */
  function Lex(s: string): Option<seq<Token>>
    decreases |s|
  {
    if s == "" then Some([])
    else if IsWhite(s[0]) then Lex(s[1..])
    else if s[0] == '"' then
      var r := ReadString(s[1..]);
      if r.None? then None else Prepend(Text(r.value.text), Lex(r.value.rest))
    else Prepend(Sign(s[0]), Lex(s[1..]))
  }

  function Prepend(t: Token, ts: Option<seq<Token>>): Option<seq<Token>> {
    if ts.None? then None else Some([t] + ts.value)
  }

  // ----- values -----

  predicate Structural(t: Token) {
    t.Text? || t.c in "{}[],:"
  }

  datatype Parsed<T> = Parsed(value: T, rest: seq<Token>)

  function ReadWord(ts: seq<Token>): (r: Parsed<string>)
    ensures |r.rest| + |r.value| == |ts|
  {
    if ts == [] || Structural(ts[0]) then Parsed("", ts)
    else
      var more := ReadWord(ts[1..]);
      Parsed([ts[0].c] + more.value, more.rest)
  }

  function Parse(ts: seq<Token>): (r: Option<Parsed<Value>>)
    ensures r.Some? ==> |r.value.rest| < |ts|
    decreases |ts|, 0
  {
    if ts == [] then None
    else if ts[0].Text? then Some(Parsed(JText(ts[0].value), ts[1..]))
    else if ts[0].c == '{' then
      var r := if |ts| > 1 && ts[1] == Sign('}') then Some(Parsed(NoMember, ts[2..])) else ParseMembers(ts[1..]);
      if r.None? then None else Some(Parsed(JObject(r.value.value), r.value.rest))
    else if ts[0].c == '[' then
      var r := if |ts| > 1 && ts[1] == Sign(']') then Some(Parsed(NoItem, ts[2..])) else ParseItems(ts[1..]);
      if r.None? then None else Some(Parsed(JList(r.value.value), r.value.rest))
    else if Structural(ts[0]) then None
    else var r := ReadWord(ts); Some(Parsed(JAtom(r.value), r.rest))
  }

  /** One or more members, up to the closing bracket. */
  function ParseMembers(ts: seq<Token>): (r: Option<Parsed<Members>>)
    ensures r.Some? ==> |r.value.rest| < |ts|
    decreases |ts|, 1
  {
    if |ts| < 2 || !ts[0].Text? || ts[1] != Sign(':') then None
    else
      var v := Parse(ts[2..]);
      if v.None? || v.value.rest == [] then None
      else if v.value.rest[0] == Sign('}') then
        Some(Parsed(Member(ts[0].value, v.value.value, NoMember), v.value.rest[1..]))
      else if v.value.rest[0] != Sign(',') then None
      else
        var more := ParseMembers(v.value.rest[1..]);
        if more.None? then None
        else Some(Parsed(Member(ts[0].value, v.value.value, more.value.value), more.value.rest))
  }

  /** One or more items, up to the closing bracket. */
  function ParseItems(ts: seq<Token>): (r: Option<Parsed<Items>>)
    ensures r.Some? ==> |r.value.rest| < |ts|
    decreases |ts|, 1
  {
    var v := Parse(ts);
    if v.None? || v.value.rest == [] then None
    else if v.value.rest[0] == Sign(']') then Some(Parsed(Item(v.value.value, NoItem), v.value.rest[1..]))
    else if v.value.rest[0] != Sign(',') then None
    else
      var more := ParseItems(v.value.rest[1..]);
      if more.None? then None else Some(Parsed(Item(v.value.value, more.value.value), more.value.rest))
  }

  /** The value a text denotes, if it is one value and nothing else. */
  function ReadJson(s: string): Option<Value> {
    var ts := Lex(s);
    if ts.None? then None
    else
      var r := Parse(ts.value);
      if r.None? || r.value.rest != [] then None else Some(r.value.value)
  }

  /** The value of the first member with this key. */
  function Find(ms: Members, key: string): Option<Value> {
    match ms
    case NoMember => None
    case Member(k, v, rest) => if k == key then Some(v) else Find(rest, key)
  }

  function Field(v: Value, key: string): Option<Value> {
    if v.JObject? then Find(v.members, key) else None
  }

  function ItemSeq(items: Items): seq<Value> {
    match items
    case NoItem => []
    case Item(v, rest) => [v] + ItemSeq(rest)
  }

  // ----- what escaping is undone to -----

  lemma {:induction false} HexReadsBack(n: int)
    requires 0 <= n < 16
    ensures HexValue(HexDigit(n)) == Some(n)
  {
  }

  lemma {:induction false} CharReadsBack(c: char, rest: string)
    ensures EscapeChar(c) != "" && EscapeChar(c)[0] != '"'
    ensures ReadChar(EscapeChar(c) + rest) == Some(Unescaped(c, |EscapeChar(c)|))
  {
    if (c as int) < 0x20 {
      HexReadsBack(c as int / 16);
      HexReadsBack(c as int % 16);
    }
  }

  /** Whatever a string contains, reading its escaped form gives it back and stops at the quote. */
  lemma {:induction false} EscapeReadsBack(v: string, rest: string)
    ensures ReadString(Escape(v) + "\"" + rest) == Some(StringRead(v, rest))
  {
    if v == "" {
      assert Escape(v) + "\"" + rest == "\"" + rest;
    } else {
      var e, more := EscapeChar(v[0]), Escape(v[1..]) + "\"" + rest;
      assert Escape(v) + "\"" + rest == e + more;
      CharReadsBack(v[0], more);
      assert (e + more)[0] == e[0] && (e + more)[|e|..] == more;
      EscapeReadsBack(v[1..], rest);
      assert [v[0]] + v[1..] == v;
    }
  }

  // ----- tokens of concatenated texts -----

  predicate Lexes(s: string, ts: seq<Token>) {
    Lex(s) == Some(ts)
  }

  lemma {:induction false} StringExtends(s: string, more: string)
    requires ReadString(s).Some?
    ensures ReadString(s + more) == Some(StringRead(ReadString(s).value.text, ReadString(s).value.rest + more))
    decreases |s|
  {
    if s[0] == '"' {
      assert (s + more)[1..] == s[1..] + more;
    } else {
      var n := ReadChar(s).value.length;
      CharExtends(s, more);
      StringExtends(s[n..], more);
      assert (s + more)[n..] == s[n..] + more;
    }
  }

  lemma {:induction false} CharExtends(s: string, more: string)
    requires s != "" && ReadChar(s).Some?
    ensures ReadChar(s + more) == ReadChar(s)
  {
  }

  lemma {:induction false} LexConcat(a: string, b: string, ta: seq<Token>, tb: seq<Token>)
    requires Lexes(a, ta) && Lexes(b, tb)
    ensures Lexes(a + b, ta + tb)
    decreases |a|
  {
    if a == "" {
      assert a + b == b && ta + tb == tb;
    } else if IsWhite(a[0]) {
      LexConcat(a[1..], b, ta, tb);
      assert (a + b)[1..] == a[1..] + b;
    } else {
      var rest := if a[0] == '"' then ReadString(a[1..]).value.rest else a[1..];
      assert (a + b)[1..] == a[1..] + b;
      if a[0] == '"' { StringExtends(a[1..], b); }
      LexConcat(rest, b, ta[1..], tb);
      assert ta + tb == [ta[0]] + (ta[1..] + tb);
    }
  }

  lemma {:induction false} QuoteLexes(v: string)
    ensures Lexes(Quote(v), [Text(v)])
  {
    EscapeReadsBack(v, "");
    assert Quote(v)[1..] == Escape(v) + "\"" + "";
    assert Lex("") == Some([]) && [Text(v)] + [] == [Text(v)];
  }

  lemma {:induction false} WhiteLexes(s: string)
    requires forall i :: 0 <= i < |s| ==> IsWhite(s[i])
    ensures Lexes(s, [])
  {
    if s != "" {
      WhiteLexes(s[1..]);
    }
  }

  function Signs(s: string): seq<Token> {
    seq(|s|, i requires 0 <= i < |s| => Sign(s[i]))
  }

  lemma {:induction false} SignsLex(s: string)
    requires forall i :: 0 <= i < |s| ==> !IsWhite(s[i]) && s[i] != '"'
    ensures Lexes(s, Signs(s))
  {
    if s != "" {
      SignsLex(s[1..]);
      assert Signs(s) == [Sign(s[0])] + Signs(s[1..]);
    }
  }

  /** Text that needs no escape. */
  predicate Unescapable(s: string) {
    forall i :: 0 <= i < |s| ==> EscapeChar(s[i]) == [s[i]]
  }

  lemma {:induction false} EscapeOfPlain(s: string)
    requires Unescapable(s)
    ensures Escape(s) == s
  {
    if s != "" {
      EscapeOfPlain(s[1..]);
      assert s == [s[0]] + s[1..];
    }
  }

  // ----- values read back -----

  predicate WellFormed(v: Value) {
    match v
    case JText(_) => true
    case JAtom(w) => w != "" && forall i :: 0 <= i < |w| ==> !Structural(Sign(w[i]))
    case JObject(ms) => MembersFormed(ms)
    case JList(vs) => ItemsFormed(vs)
  }

  predicate MembersFormed(ms: Members) {
    ms.Member? ==> WellFormed(ms.value) && MembersFormed(ms.rest)
  }

  predicate ItemsFormed(vs: Items) {
    vs.Item? ==> WellFormed(vs.value) && ItemsFormed(vs.rest)
  }

  function Tokens(v: Value): seq<Token> {
    match v
    case JText(s) => [Text(s)]
    case JAtom(w) => Signs(w)
    case JObject(ms) => [Sign('{')] + MemberTokens(ms) + [Sign('}')]
    case JList(vs) => [Sign('[')] + ItemTokens(vs) + [Sign(']')]
  }

  function MemberTokens(ms: Members): seq<Token> {
    match ms
    case NoMember => []
    case Member(k, v, rest) =>
      [Text(k), Sign(':')] + Tokens(v) + if rest.NoMember? then [] else [Sign(',')] + MemberTokens(rest)
  }

  function ItemTokens(vs: Items): seq<Token> {
    match vs
    case NoItem => []
    case Item(v, rest) => Tokens(v) + if rest.NoItem? then [] else [Sign(',')] + ItemTokens(rest)
  }

  /** A value may be followed by nothing or by a bracket, comma or colon. */
  predicate Closes(rest: seq<Token>) {
    rest == [] || Structural(rest[0])
  }

  lemma {:induction false} WordReadsBack(w: string, rest: seq<Token>)
    requires Closes(rest) && forall i :: 0 <= i < |w| ==> !Structural(Sign(w[i]))
    ensures ReadWord(Signs(w) + rest) == Parsed(w, rest)
  {
    if w == "" {
      assert Signs(w) + rest == rest;
    } else {
      WordReadsBack(w[1..], rest);
      assert (Signs(w) + rest)[1..] == Signs(w[1..]) + rest;
      assert w == [w[0]] + w[1..];
    }
  }

  /** The tokens of a value parse to it, whatever may follow. */
  lemma {:induction false} ValueReadsBack(v: Value, rest: seq<Token>)
    requires WellFormed(v) && Closes(rest)
    ensures Parse(Tokens(v) + rest) == Some(Parsed(v, rest))
  {
    match v
    case JText(s) => assert (Tokens(v) + rest)[1..] == rest;
    case JAtom(w) => WordReadsBack(w, rest);
    case JObject(ms) =>
      ObjectUnfolds(ms, rest);
      if ms.Member? { MembersReadBack(ms, rest); }
    case JList(vs) =>
      ListUnfolds(vs, rest);
      if vs.Item? { ItemsReadBack(vs, rest); }
  }

  lemma {:induction false} ObjectUnfolds(ms: Members, rest: seq<Token>)
    ensures var ts := Tokens(JObject(ms)) + rest;
      && ts[0] == Sign('{') && ts[1..] == MemberTokens(ms) + [Sign('}')] + rest
      && (ms.Member? ==> ts[1] == Text(ms.key)) && (ms.NoMember? ==> ts[1] == Sign('}') && ts[2..] == rest)
  {
    Bracketed('{', MemberTokens(ms), '}', rest);
  }

  lemma {:induction false} Bracketed(open: char, inner: seq<Token>, close: char, rest: seq<Token>)
    ensures var ts := [Sign(open)] + inner + [Sign(close)] + rest;
      && ts[0] == Sign(open) && ts[1..] == inner + [Sign(close)] + rest
      && (inner != [] ==> ts[1] == inner[0]) && (inner == [] ==> ts[1] == Sign(close) && ts[2..] == rest)
  {
  }

  lemma {:induction false} ListUnfolds(vs: Items, rest: seq<Token>)
    requires ItemsFormed(vs)
    ensures var ts := Tokens(JList(vs)) + rest;
      && ts[0] == Sign('[') && ts[1..] == ItemTokens(vs) + [Sign(']')] + rest
      && (vs.Item? ==> ts[1] != Sign(']')) && (vs.NoItem? ==> ts[1] == Sign(']') && ts[2..] == rest)
  {
    if vs.Item? { FirstToken(vs.value); }
  }

  lemma {:induction false} FirstToken(v: Value)
    requires WellFormed(v)
    ensures Tokens(v) != [] && Tokens(v)[0] != Sign(']')
  {
  }

  /** What follows a member or an item inside its brackets. */
  function After(more: seq<Token>, last: bool, close: char, rest: seq<Token>): seq<Token> {
    if last then [Sign(close)] + rest else [Sign(',')] + (more + [Sign(close)] + rest)
  }

  lemma {:induction false} MembersReadBack(ms: Members, rest: seq<Token>)
    requires ms.Member? && MembersFormed(ms)
    ensures ParseMembers(MemberTokens(ms) + [Sign('}')] + rest) == Some(Parsed(ms, rest))
  {
    var ts, last := MemberTokens(ms) + [Sign('}')] + rest, ms.rest.NoMember?;
    var after := After(MemberTokens(ms.rest), last, '}', rest);
    MemberUnfolds(ms, rest);
    ValueReadsBack(ms.value, after);
    if last {
      assert after[1..] == rest;
    } else {
      assert after[1..] == MemberTokens(ms.rest) + [Sign('}')] + rest;
      MembersReadBack(ms.rest, rest);
    }
  }

  lemma {:induction false} MemberUnfolds(ms: Members, rest: seq<Token>)
    requires ms.Member?
    ensures var ts := MemberTokens(ms) + [Sign('}')] + rest;
      && |ts| >= 2 && ts[0] == Text(ms.key) && ts[1] == Sign(':')
      && ts[2..] == Tokens(ms.value) + After(MemberTokens(ms.rest), ms.rest.NoMember?, '}', rest)
  {
    MemberSplit(ms.key, Tokens(ms.value), MemberTokens(ms.rest), ms.rest.NoMember?, rest);
  }

  lemma {:induction false} MemberSplit(key: string, vs: seq<Token>, more: seq<Token>, last: bool, rest: seq<Token>)
    ensures var ts := [Text(key), Sign(':')] + vs + (if last then [] else [Sign(',')] + more) + [Sign('}')] + rest;
      |ts| >= 2 && ts[0] == Text(key) && ts[1] == Sign(':') && ts[2..] == vs + After(more, last, '}', rest)
  {
  }

  lemma {:induction false} ItemsReadBack(vs: Items, rest: seq<Token>)
    requires vs.Item? && ItemsFormed(vs)
    ensures ParseItems(ItemTokens(vs) + [Sign(']')] + rest) == Some(Parsed(vs, rest))
  {
    var last := vs.rest.NoItem?;
    var after := After(ItemTokens(vs.rest), last, ']', rest);
    assert ItemTokens(vs) + [Sign(']')] + rest == Tokens(vs.value) + after;
    ValueReadsBack(vs.value, after);
    if last {
      assert after[1..] == rest;
    } else {
      assert after[1..] == ItemTokens(vs.rest) + [Sign(']')] + rest;
      ItemsReadBack(vs.rest, rest);
    }
  }

  /** A text made of the tokens of a value denotes that value. */
  lemma {:induction false} TextReadsBack(s: string, v: Value)
    requires WellFormed(v) && Lexes(s, Tokens(v))
    ensures ReadJson(s) == Some(v)
  {
    ValueReadsBack(v, []);
    assert Tokens(v) + [] == Tokens(v);
  }

  // ----- objects written member by member -----

  /** The text of a member: the bracket or comma and the key, then the value. */
  datatype Piece = Piece(head: string, key: string, text: string, value: Value)

  function PiecesText(ps: seq<Piece>): string {
    if ps == [] then ""
    else
      var p := ps[|ps| - 1];
      PiecesText(ps[..|ps| - 1]) + p.head + p.text
  }

  function Append(ms: Members, key: string, value: Value): Members {
    match ms
    case NoMember => Member(key, value, NoMember)
    case Member(k, v, rest) => Member(k, v, Append(rest, key, value))
  }

  function MembersOf(ps: seq<Piece>): Members {
    if ps == [] then NoMember
    else
      var p := ps[|ps| - 1];
      Append(MembersOf(ps[..|ps| - 1]), p.key, p.value)
  }

  predicate PieceFits(p: Piece, first: bool) {
    && Lexes(p.head, [Sign(if first then '{' else ','), Text(p.key), Sign(':')])
    && Lexes(p.text, Tokens(p.value)) && WellFormed(p.value)
  }

  predicate PiecesFit(ps: seq<Piece>) {
    forall i :: 0 <= i < |ps| ==> PieceFits(ps[i], i == 0)
  }

  lemma {:induction false} AppendTokens(ms: Members, key: string, value: Value)
    ensures MemberTokens(Append(ms, key, value))
         == (if ms.NoMember? then [] else MemberTokens(ms) + [Sign(',')]) + ([Text(key), Sign(':')] + Tokens(value))
  {
    if ms.Member? {
      AppendTokens(ms.rest, key, value);
      Regrouped([Text(ms.key), Sign(':')] + Tokens(ms.value), MemberTokens(ms.rest), [Text(key), Sign(':')] + Tokens(value));
    }
  }

  lemma {:induction false} Regrouped(here: seq<Token>, middle: seq<Token>, more: seq<Token>)
    ensures here + ([Sign(',')] + (middle + [Sign(',')] + more)) == here + ([Sign(',')] + middle) + [Sign(',')] + more
    ensures here + ([Sign(',')] + ([] + more)) == here + [] + [Sign(',')] + more
    ensures more + [] == [] + more
  {
  }

  lemma {:induction false} FindAppended(ms: Members, k: string, v: Value, key: string)
    ensures Find(Append(ms, k, v), key)
         == if Find(ms, key).Some? then Find(ms, key) else if k == key then Some(v) else None
  {
    if ms.Member? {
      FindAppended(ms.rest, k, v, key);
    }
  }

  lemma {:induction false} AppendFormed(ms: Members, key: string, value: Value)
    requires MembersFormed(ms) && WellFormed(value)
    ensures MembersFormed(Append(ms, key, value)) && Append(ms, key, value).Member?
  {
    if ms.Member? {
      AppendFormed(ms.rest, key, value);
    }
  }

  /** The first member, behind the bracket. */
  lemma {:induction false} FirstPieceLexes(p: Piece)
    requires PieceFits(p, true)
    ensures Lexes("" + p.head + p.text, [Sign('{')] + MemberTokens(Append(NoMember, p.key, p.value)))
  {
    assert "" + p.head == p.head;
    LexConcat(p.head, p.text, [Sign('{'), Text(p.key), Sign(':')], Tokens(p.value));
    AppendTokens(NoMember, p.key, p.value);
    assert [Sign('{'), Text(p.key), Sign(':')] + Tokens(p.value)
        == [Sign('{')] + ([] + ([Text(p.key), Sign(':')] + Tokens(p.value)));
  }

  /** A further member, behind a comma. */
  lemma {:induction false} NextPieceLexes(text: string, ms: Members, p: Piece)
    requires ms.Member? && Lexes(text, [Sign('{')] + MemberTokens(ms)) && PieceFits(p, false)
    ensures Lexes(text + p.head + p.text, [Sign('{')] + MemberTokens(Append(ms, p.key, p.value)))
  {
    var ts, head, vs := MemberTokens(ms), [Sign(','), Text(p.key), Sign(':')], Tokens(p.value);
    LexConcat(text, p.head, [Sign('{')] + ts, head);
    LexConcat(text + p.head, p.text, [Sign('{')] + ts + head, vs);
    AppendTokens(ms, p.key, p.value);
    NextTokens(ts, p.key, vs);
  }

  lemma {:induction false} NextTokens(ts: seq<Token>, key: string, vs: seq<Token>)
    ensures [Sign('{')] + ts + [Sign(','), Text(key), Sign(':')] + vs
         == [Sign('{')] + (ts + [Sign(',')] + ([Text(key), Sign(':')] + vs))
  {
  }

  lemma {:induction false} PiecesLex(ps: seq<Piece>)
    requires ps != [] && PiecesFit(ps)
    ensures MembersFormed(MembersOf(ps)) && MembersOf(ps).Member?
    ensures Lexes(PiecesText(ps), [Sign('{')] + MemberTokens(MembersOf(ps)))
  {
    var n := |ps| - 1;
    var front, p := ps[..n], ps[n];
    assert PieceFits(p, n == 0);
    if n == 0 {
      FirstPieceLexes(p);
      AppendFormed(NoMember, p.key, p.value);
    } else {
      forall i | 0 <= i < n ensures PieceFits(front[i], i == 0) { assert PieceFits(ps[i], i == 0); }
      PiecesLex(front);
      AppendFormed(MembersOf(front), p.key, p.value);
      NextPieceLexes(PiecesText(front), MembersOf(front), p);
    }
  }

  /** The keys differ pairwise. */
  predicate KeysDiffer(ps: seq<Piece>) {
    forall i, j :: 0 <= i < j < |ps| ==> ps[i].key != ps[j].key
  }

  lemma {:induction false} PieceFound(ps: seq<Piece>, i: nat)
    requires KeysDiffer(ps) && i < |ps|
    ensures Find(MembersOf(ps), ps[i].key) == Some(ps[i].value)
  {
    var n := |ps| - 1;
    FindAppended(MembersOf(ps[..n]), ps[n].key, ps[n].value, ps[i].key);
    if i < n {
      PieceFound(ps[..n], i);
    } else {
      KeyMissing(ps[..n], ps[n].key);
    }
  }

  lemma {:induction false} KeyMissing(ps: seq<Piece>, key: string)
    requires forall i :: 0 <= i < |ps| ==> ps[i].key != key
    ensures Find(MembersOf(ps), key).None?
  {
    if ps != [] {
      var n := |ps| - 1;
      KeyMissing(ps[..n], key);
      FindAppended(MembersOf(ps[..n]), ps[n].key, ps[n].value, key);
    }
  }

  /** An object written member by member has the tokens of the object, and every member is found under its key. */
  lemma {:induction false} ObjectLexes(ps: seq<Piece>, end: string)
    requires ps != [] && PiecesFit(ps) && KeysDiffer(ps) && Lexes(end, [Sign('}')])
    ensures WellFormed(JObject(MembersOf(ps))) && Lexes(PiecesText(ps) + end, Tokens(JObject(MembersOf(ps))))
    ensures forall i :: 0 <= i < |ps| ==> Field(JObject(MembersOf(ps)), ps[i].key) == Some(ps[i].value)
    ensures forall key :: (forall i :: 0 <= i < |ps| ==> ps[i].key != key) ==> Field(JObject(MembersOf(ps)), key).None?
  {
    PiecesLex(ps);
    LexConcat(PiecesText(ps), end, [Sign('{')] + MemberTokens(MembersOf(ps)), [Sign('}')]);
    forall i | 0 <= i < |ps| ensures Field(JObject(MembersOf(ps)), ps[i].key) == Some(ps[i].value) {
      PieceFound(ps, i);
    }
    forall key | forall i :: 0 <= i < |ps| ==> ps[i].key != key ensures Field(JObject(MembersOf(ps)), key).None? {
      KeyMissing(ps, key);
    }
  }

  // ----- pieces of text -----

  predicate White(s: string) {
    forall i :: 0 <= i < |s| ==> IsWhite(s[i])
  }

  predicate PlainSign(c: char) {
    !IsWhite(c) && c != '"'
  }

  lemma {:induction false} SignLexes(c: char)
    requires PlainSign(c)
    ensures Lexes([c], [Sign(c)])
  {
    SignsLex([c]);
    assert Signs([c]) == [Sign(c)];
  }

  /** A bracket or comma, then a key. */
  lemma {:induction false} KeyLexes(head: string, before: string, sign: char, indent: string, key: string, gap: string)
    requires head == before + [sign] + indent + ("\"" + key + "\"") + ":" + gap
    requires White(before) && White(indent) && White(gap) && PlainSign(sign) && Unescapable(key)
    ensures Lexes(head, [Sign(sign), Text(key), Sign(':')])
  {
    SignAfterLexes(before, sign);
    KeyAfterLexes(before + [sign], indent, key, gap, [Sign(sign)]);
    assert [Sign(sign)] + [Text(key), Sign(':')] == [Sign(sign), Text(key), Sign(':')];
  }

  lemma {:induction false} SignAfterLexes(before: string, sign: char)
    requires White(before) && PlainSign(sign)
    ensures Lexes(before + [sign], [Sign(sign)])
  {
    WhiteLexes(before);
    SignLexes(sign);
    LexConcat(before, [sign], [], [Sign(sign)]);
    assert [] + [Sign(sign)] == [Sign(sign)];
  }

  lemma {:induction false} KeyAfterLexes(text: string, indent: string, key: string, gap: string, ts: seq<Token>)
    requires Lexes(text, ts) && White(indent) && White(gap) && Unescapable(key)
    ensures Lexes(text + indent + ("\"" + key + "\"") + ":" + gap, ts + [Text(key), Sign(':')])
  {
    EscapeOfPlain(key);
    WhiteLexes(indent);
    WhiteLexes(gap);
    SignLexes(':');
    QuoteLexes(key);
    var quoted := "\"" + key + "\"";
    assert quoted == Quote(key);
    LexConcat(text, indent, ts, []);
    LexConcat(text + indent, quoted, ts + [], [Text(key)]);
    LexConcat(text + indent + quoted, ":", ts + [] + [Text(key)], [Sign(':')]);
    LexConcat(text + indent + quoted + ":", gap, ts + [] + [Text(key)] + [Sign(':')], []);
    assert ts + [] + [Text(key)] + [Sign(':')] + [] == ts + [Text(key), Sign(':')];
  }

  lemma {:induction false} AtomLexes(w: string)
    requires w != "" && forall i :: 0 <= i < |w| ==> 'a' <= w[i] <= 'z'
    ensures WellFormed(JAtom(w)) && Lexes(w, Tokens(JAtom(w)))
  {
    SignsLex(w);
  }

  lemma {:induction false} BoolLexes(b: bool)
    ensures WellFormed(JAtom(Bool(b))) && Lexes(Bool(b), Tokens(JAtom(Bool(b))))
  {
    AtomLexes(Bool(b));
  }

  // ----- compact objects -----

  /** The text is that of the value. */
  predicate Denotes(text: string, v: Value) {
    WellFormed(v) && Lexes(text, Tokens(v))
  }

  function CompactHead(key: string, first: bool): string {
    (if first then "{" else ",") + ("\"" + key + "\"") + ":"
  }

  /** A member with no white space around it. */
  function Compact(key: string, first: bool, text: string, value: Value): Piece {
    Piece(CompactHead(key, first), key, text, value)
  }

  lemma {:induction false} CompactFits(key: string, first: bool, text: string, value: Value)
    requires Unescapable(key) && Denotes(text, value)
    ensures PieceFits(Compact(key, first, text, value), first)
  {
    var sign := if first then '{' else ',';
    assert CompactHead(key, first) == "" + [sign] + "" + ("\"" + key + "\"") + ":" + "";
    KeyLexes(CompactHead(key, first), "", sign, "", key, "");
  }

  function Keys(ps: seq<Piece>): seq<string> {
    seq(|ps|, i requires 0 <= i < |ps| => ps[i].key)
  }

  /** Members that make up an object. */
  predicate Makes(ps: seq<Piece>) {
    PiecesFit(ps) && KeysDiffer(ps)
  }

  /** Keys of one object that need no escape. */
  predicate PlainKeys(keys: seq<string>) {
    Distinct(keys) && forall i :: 0 <= i < |keys| ==> Unescapable(keys[i])
  }

  /** Lower-case words, with underscores. */
  predicate Plain(keys: seq<string>) {
    forall i, k :: 0 <= i < |keys| && 0 <= k < |keys[i]| ==> 'a' <= keys[i][k] <= 'z' || keys[i][k] == '_'
  }

  lemma {:induction false} PlainNeedNoEscape(keys: seq<string>)
    requires Plain(keys) && Distinct(keys)
    ensures PlainKeys(keys)
  {
    forall i | 0 <= i < |keys| ensures Unescapable(keys[i]) {
      forall k | 0 <= k < |keys[i]| ensures EscapeChar(keys[i][k]) == [keys[i][k]] {}
    }
  }

  predicate AllDenote(texts: seq<string>, values: seq<Value>) {
    |texts| == |values| && forall i :: 0 <= i < |texts| ==> Denotes(texts[i], values[i])
  }

  function CompactPieces(keys: seq<string>, texts: seq<string>, values: seq<Value>): seq<Piece>
    requires |keys| == |texts| == |values|
  {
    seq(|keys|, i requires 0 <= i < |keys| => Compact(keys[i], i == 0, texts[i], values[i]))
  }

  lemma {:induction false} CompactMakes(keys: seq<string>, texts: seq<string>, values: seq<Value>)
    requires |keys| == |texts| && PlainKeys(keys) && AllDenote(texts, values)
    ensures Makes(CompactPieces(keys, texts, values)) && Keys(CompactPieces(keys, texts, values)) == keys
  {
    forall i | 0 <= i < |keys| ensures PieceFits(CompactPieces(keys, texts, values)[i], i == 0) {
      CompactFits(keys[i], i == 0, texts[i], values[i]);
    }
  }

  /** The text of a compact object, member by member. */
  function CompactText(keys: seq<string>, texts: seq<string>): string
    requires |keys| == |texts|
  {
    if keys == [] then ""
    else
      var n := |keys| - 1;
      CompactText(keys[..n], texts[..n]) + CompactHead(keys[n], n == 0) + texts[n]
  }

  lemma {:induction false} CompactPrefix(keys: seq<string>, texts: seq<string>, n: nat)
    requires 0 < n <= |keys| == |texts|
    ensures CompactText(keys[..n], texts[..n])
         == CompactText(keys[..n - 1], texts[..n - 1]) + CompactHead(keys[n - 1], n == 1) + texts[n - 1]
  {
    assert keys[..n][..n - 1] == keys[..n - 1] && texts[..n][..n - 1] == texts[..n - 1];
  }

  lemma {:induction false} ThreeCompact(keys: seq<string>, texts: seq<string>)
    requires 3 <= |keys| == |texts|
    ensures CompactText(keys[..3], texts[..3])
         == CompactHead(keys[0], true) + texts[0] + CompactHead(keys[1], false) + texts[1] + CompactHead(keys[2], false) + texts[2]
  {
    CompactPrefix(keys, texts, 1);
    CompactPrefix(keys, texts, 2);
    CompactPrefix(keys, texts, 3);
    assert "" + CompactHead(keys[0], true) == CompactHead(keys[0], true);
  }

  lemma {:induction false} CompactTextOfPieces(keys: seq<string>, texts: seq<string>, values: seq<Value>)
    requires |keys| == |texts| == |values|
    ensures PiecesText(CompactPieces(keys, texts, values)) == CompactText(keys, texts)
  {
    if keys != [] {
      var n := |keys| - 1;
      CompactTextOfPieces(keys[..n], texts[..n], values[..n]);
      assert CompactPieces(keys, texts, values)[..n] == CompactPieces(keys[..n], texts[..n], values[..n]);
    }
  }

  /** A compact object denotes its members, and shows each value under its key. */
  lemma {:induction false} CompactDenotes(keys: seq<string>, texts: seq<string>, values: seq<Value>, text: string)
    returns (v: Value)
    requires |keys| == |texts| && keys != [] && PlainKeys(keys) && AllDenote(texts, values)
    requires text == CompactText(keys, texts) + "}"
    ensures Denotes(text, v)
    ensures forall i :: 0 <= i < |keys| ==> Field(v, keys[i]) == Some(values[i])
    ensures forall key :: key !in keys ==> Field(v, key).None?
  {
    var ps := CompactPieces(keys, texts, values);
    CompactMakes(keys, texts, values);
    CompactTextOfPieces(keys, texts, values);
    MadeObject(ps);
    v := JObject(MembersOf(ps));
    forall i | 0 <= i < |keys| ensures Field(v, keys[i]) == Some(values[i]) {
      assert ps[i].key == keys[i] && ps[i].value == values[i];
    }
  }

  /** The object of these members has their tokens, and shows each value under its key. */
  lemma {:induction false} MadeObject(ps: seq<Piece>)
    requires Makes(ps) && ps != []
    ensures Denotes(PiecesText(ps) + "}", JObject(MembersOf(ps)))
    ensures forall i :: 0 <= i < |ps| ==> Field(JObject(MembersOf(ps)), ps[i].key) == Some(ps[i].value)
    ensures forall key :: key !in Keys(ps) ==> Field(JObject(MembersOf(ps)), key).None?
  {
    SignLexes('}');
    ObjectLexes(ps, "}");
    forall key | key !in Keys(ps) ensures Field(JObject(MembersOf(ps)), key).None? {
      forall i | 0 <= i < |ps| ensures ps[i].key != key { assert Keys(ps)[i] == ps[i].key; }
    }
  }

  lemma {:induction false} QuoteDenotes(s: string)
    ensures Denotes(Quote(s), JText(s))
  {
    QuoteLexes(s);
  }
}
