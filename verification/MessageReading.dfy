/**
 Messages read back: what a tool returned stands under its own keys in the message the
 provider is shown, and the text whose size is estimated shows every field of a message.
 */
module MessageReading {
  import opened Prelude
  import opened ProviderModels
  import opened Json
  import opened JsonReader
  import opened ContextSizer
  import opened ContextReading
  import opened AgentLoop

  // ----- the error of a result -----

  const ERROR_KEYS := ["code", "message", "retryable"]

  function ErrorText(e: ToolErrorInfo): string {
    "{\"code\":" + Quote(e.code) + ",\"message\":" + Quote(e.message) + ",\"retryable\":" + Bool(e.retryable) + "}"
  }

  /** The error's fields, each under its own key. */
  predicate ShowsError(v: Value, e: ToolErrorInfo) {
    && Field(v, "code") == Some(JText(e.code)) && Field(v, "message") == Some(JText(e.message))
    && Field(v, "retryable") == Some(JAtom(if e.retryable then "true" else "false"))
  }

  lemma {:induction false} ErrorKeysDiffer()
    ensures Distinct(ERROR_KEYS)
  {
    assert |ERROR_KEYS[0]| == 4 && |ERROR_KEYS[1]| == 7 && |ERROR_KEYS[2]| == 9;
  }

  lemma {:induction false} ErrorKeysPlain()
    ensures PlainKeys(ERROR_KEYS)
  {
    ErrorKeysDiffer();
    PlainNeedNoEscape(ERROR_KEYS);
  }

  lemma {:induction false} CodeHead()
    ensures CompactHead("code", true) == "{\"code\":"
  {
  }

  lemma {:induction false} MessageHead()
    ensures CompactHead("message", false) == ",\"message\":"
  {
  }

  lemma {:induction false} RetryableHead()
    ensures CompactHead("retryable", false) == ",\"retryable\":"
  {
  }

  lemma {:induction false} ErrorTextMade(e: ToolErrorInfo, texts: seq<string>)
    requires texts == [Quote(e.code), Quote(e.message), Bool(e.retryable)]
    ensures ErrorText(e) == CompactText(ERROR_KEYS, texts) + "}"
  {
    ThreeCompact(ERROR_KEYS, texts);
    assert ERROR_KEYS[..3] == ERROR_KEYS && texts[..3] == texts;
    CodeHead();
    MessageHead();
    RetryableHead();
  }

  lemma {:induction false} ErrorDenotes(e: ToolErrorInfo) returns (v: Value)
    ensures Denotes(ErrorText(e), v) && ShowsError(v, e)
  {
    var texts, values := [Quote(e.code), Quote(e.message), Bool(e.retryable)], [JText(e.code), JText(e.message), JAtom(Bool(e.retryable))];
    ErrorKeysPlain();
    QuoteDenotes(e.code);
    QuoteDenotes(e.message);
    BoolLexes(e.retryable);
    ErrorTextMade(e, texts);
    v := CompactDenotes(ERROR_KEYS, texts, values, ErrorText(e));
    assert Field(v, ERROR_KEYS[0]) == Some(values[0]) && Field(v, ERROR_KEYS[1]) == Some(values[1])
      && Field(v, ERROR_KEYS[2]) == Some(values[2]);
  }

  // ----- the result of a tool -----

  const RESULT_KEYS := ["data", "success", "tool_name", "tool_version"]
  const FAILED_KEYS := ["data", "error", "success", "tool_name", "tool_version"]

  function DataText(r: ToolResult): string {
    match r.data case None => "null" case Some(text) => text
  }

  /** The result's fields, each under its own key; `data` is what its payload's text denotes. */
  predicate ShowsToolResult(v: Value, r: ToolResult, data: Value) {
    && Field(v, "data") == Some(if r.data.Some? then data else JAtom("null"))
    && Field(v, "success") == Some(JAtom(if r.success then "true" else "false"))
    && Field(v, "tool_name") == Some(JText(r.toolName))
    && Field(v, "tool_version") == Some(JText(r.toolVersion))
    && (r.error.None? ==> Field(v, "error").None?)
    && (r.error.Some? ==> Field(v, "error").Some? && ShowsError(Field(v, "error").value, r.error.value))
  }

  lemma {:induction false} ResultKeysDiffer()
    ensures Distinct(RESULT_KEYS)
  {
    assert |RESULT_KEYS[0]| == 4 && |RESULT_KEYS[1]| == 7 && |RESULT_KEYS[2]| == 9 && |RESULT_KEYS[3]| == 12;
  }

  lemma {:induction false} ResultKeysPlain()
    ensures PlainKeys(RESULT_KEYS)
  {
    ResultKeysDiffer();
    PlainNeedNoEscape(RESULT_KEYS);
  }

  lemma {:induction false} FailedKeysDiffer()
    ensures Distinct(FAILED_KEYS)
  {
    assert |FAILED_KEYS[0]| == 4 && |FAILED_KEYS[1]| == 5 && |FAILED_KEYS[2]| == 7 && |FAILED_KEYS[3]| == 9
      && |FAILED_KEYS[4]| == 12;
  }

  lemma {:induction false} FailedKeysPlain()
    ensures PlainKeys(FAILED_KEYS)
  {
    FailedKeysDiffer();
    PlainNeedNoEscape(FAILED_KEYS);
  }

  lemma {:induction false} DataHead()
    ensures CompactHead("data", true) == "{\"data\":"
  {
  }

  lemma {:induction false} ErrorHead()
    ensures CompactHead("error", false) + "{\"code\":" == ",\"error\":{\"code\":"
  {
  }

  lemma {:induction false} SuccessHead()
    ensures CompactHead("success", false) == ",\"success\":"
  {
  }

  lemma {:induction false} ToolNameHead()
    ensures CompactHead("tool_name", false) == ",\"tool_name\":"
  {
  }

  lemma {:induction false} ToolVersionHead()
    ensures CompactHead("tool_version", false) == ",\"tool_version\":"
  {
  }

  lemma {:induction false} ResultTextMade(r: ToolResult, texts: seq<string>)
    requires r.error.None? && texts == [DataText(r), Bool(r.success), Quote(r.toolName), Quote(r.toolVersion)]
    ensures ToolResultContent(r) == CompactText(RESULT_KEYS, texts) + "}"
  {
    ThreeCompact(RESULT_KEYS, texts);
    CompactPrefix(RESULT_KEYS, texts, 4);
    assert RESULT_KEYS[..4] == RESULT_KEYS && texts[..4] == texts;
    DataHead();
    SuccessHead();
    ToolNameHead();
    ToolVersionHead();
    assert "{\"data\":" + DataText(r) + "" == "{\"data\":" + DataText(r);
  }

  lemma {:induction false} ErrorTextIn(e: ToolErrorInfo)
    ensures CompactHead("error", false) + ErrorText(e)
         == ",\"error\":{\"code\":" + Quote(e.code) + ",\"message\":" + Quote(e.message) + ",\"retryable\":" + Bool(e.retryable) + "}"
  {
    ErrorHead();
    Leading(CompactHead("error", false), "{\"code\":", Quote(e.code), ",\"message\":", Quote(e.message),
            ",\"retryable\":", Bool(e.retryable), "}");
  }

  lemma {:induction false} Leading(h: string, a: string, b: string, c: string, d: string, e: string, f: string, g: string)
    ensures h + (a + b + c + d + e + f + g) == (h + a) + b + c + d + e + f + g
  {
  }

  lemma {:induction false} Inserted(before: string, head: string, text: string, s: string, b: string, n: string, q: string,
                                    w: string, x: string, end: string)
    ensures before + (head + text) + s + b + n + q + w + x + end == before + head + text + s + b + n + q + w + x + end
  {
    assert before + (head + text) == before + head + text;
  }

  lemma {:induction false} FailedShape(r: ToolResult, part: string)
    requires r.error.Some? && part == CompactHead("error", false) + ErrorText(r.error.value)
    ensures ToolResultContent(r)
         == "{\"data\":" + DataText(r) + part + ",\"success\":" + Bool(r.success) + ",\"tool_name\":" + Quote(r.toolName)
            + ",\"tool_version\":" + Quote(r.toolVersion) + "}"
  {
    ErrorTextIn(r.error.value);
  }

  lemma {:induction false} FailedCompact(r: ToolResult, texts: seq<string>)
    requires r.error.Some?
    requires texts == [DataText(r), ErrorText(r.error.value), Bool(r.success), Quote(r.toolName), Quote(r.toolVersion)]
    ensures CompactText(FAILED_KEYS, texts)
         == "{\"data\":" + texts[0] + CompactHead("error", false) + texts[1] + ",\"success\":" + texts[2]
            + ",\"tool_name\":" + texts[3] + ",\"tool_version\":" + texts[4]
  {
    ThreeCompact(FAILED_KEYS, texts);
    CompactPrefix(FAILED_KEYS, texts, 4);
    CompactPrefix(FAILED_KEYS, texts, 5);
    assert FAILED_KEYS[..5] == FAILED_KEYS && texts[..5] == texts;
    DataHead();
    SuccessHead();
    ToolNameHead();
    ToolVersionHead();
  }

  lemma {:induction false} FailedTextMade(r: ToolResult, texts: seq<string>)
    requires r.error.Some?
    requires texts == [DataText(r), ErrorText(r.error.value), Bool(r.success), Quote(r.toolName), Quote(r.toolVersion)]
    ensures ToolResultContent(r) == CompactText(FAILED_KEYS, texts) + "}"
  {
    FailedShape(r, CompactHead("error", false) + ErrorText(r.error.value));
    FailedCompact(r, texts);
    Inserted("{\"data\":" + DataText(r), CompactHead("error", false), ErrorText(r.error.value), ",\"success\":",
             Bool(r.success), ",\"tool_name\":", Quote(r.toolName), ",\"tool_version\":", Quote(r.toolVersion), "}");
  }

  lemma {:induction false} NullDenotes()
    ensures Denotes("null", JAtom("null"))
  {
    AtomLexes("null");
  }

  lemma {:induction false} ResultDenotes(r: ToolResult, data: Value) returns (v: Value)
    requires r.data.Some? ==> Denotes(r.data.value, data)
    ensures Denotes(ToolResultContent(r), v) && ShowsToolResult(v, r, data)
  {
    var shown := if r.data.Some? then data else JAtom("null");
    NullDenotes();
    BoolLexes(r.success);
    QuoteDenotes(r.toolName);
    QuoteDenotes(r.toolVersion);
    if r.error.None? {
      v := PlainResultDenotes(r, shown);
    } else {
      v := FailedResultDenotes(r, shown);
    }
  }

  lemma {:induction false} PlainResultDenotes(r: ToolResult, shown: Value) returns (v: Value)
    requires r.error.None? && Denotes(DataText(r), shown)
    ensures Denotes(ToolResultContent(r), v) && Field(v, "data") == Some(shown) && Field(v, "error").None?
    ensures Field(v, "success") == Some(JAtom(Bool(r.success)))
    ensures Field(v, "tool_name") == Some(JText(r.toolName)) && Field(v, "tool_version") == Some(JText(r.toolVersion))
  {
    var texts := [DataText(r), Bool(r.success), Quote(r.toolName), Quote(r.toolVersion)];
    var values := [shown, JAtom(Bool(r.success)), JText(r.toolName), JText(r.toolVersion)];
    BoolLexes(r.success);
    QuoteDenotes(r.toolName);
    QuoteDenotes(r.toolVersion);
    ResultKeysPlain();
    ResultTextMade(r, texts);
    v := CompactDenotes(RESULT_KEYS, texts, values, ToolResultContent(r));
    assert Field(v, RESULT_KEYS[0]) == Some(values[0]) && Field(v, RESULT_KEYS[1]) == Some(values[1])
      && Field(v, RESULT_KEYS[2]) == Some(values[2]) && Field(v, RESULT_KEYS[3]) == Some(values[3]);
    assert |"error"| == 5 && "error" !in RESULT_KEYS;
  }

  lemma {:induction false} FailedResultDenotes(r: ToolResult, shown: Value) returns (v: Value)
    requires r.error.Some? && Denotes(DataText(r), shown)
    ensures Denotes(ToolResultContent(r), v) && Field(v, "data") == Some(shown)
    ensures Field(v, "error").Some? && ShowsError(Field(v, "error").value, r.error.value)
    ensures Field(v, "success") == Some(JAtom(Bool(r.success)))
    ensures Field(v, "tool_name") == Some(JText(r.toolName)) && Field(v, "tool_version") == Some(JText(r.toolVersion))
  {
    var e := ErrorDenotes(r.error.value);
    var texts := [DataText(r), ErrorText(r.error.value), Bool(r.success), Quote(r.toolName), Quote(r.toolVersion)];
    var values := [shown, e, JAtom(Bool(r.success)), JText(r.toolName), JText(r.toolVersion)];
    BoolLexes(r.success);
    QuoteDenotes(r.toolName);
    QuoteDenotes(r.toolVersion);
    FailedKeysPlain();
    FailedTextMade(r, texts);
    v := CompactDenotes(FAILED_KEYS, texts, values, ToolResultContent(r));
    assert Field(v, FAILED_KEYS[0]) == Some(values[0]) && Field(v, FAILED_KEYS[1]) == Some(values[1])
      && Field(v, FAILED_KEYS[2]) == Some(values[2]) && Field(v, FAILED_KEYS[3]) == Some(values[3])
      && Field(v, FAILED_KEYS[4]) == Some(values[4]);
  }

  /** What the provider is shown of a tool's result reads back as that result, each field under its own key. */
  lemma {:induction false} ToolResultReadsBack(r: ToolResult, data: Value)
    requires r.data.Some? ==> Denotes(r.data.value, data)
    ensures var v := ReadJson(ToolResultContent(r)); v.Some? && ShowsToolResult(v.value, r, data)
  {
    var v := ResultDenotes(r, data);
    TextReadsBack(ToolResultContent(r), v);
  }

  // ----- the calls of a message -----

  const CALL_KEYS := ["arguments", "id", "name"]

  /** A call's fields; `arguments` is what its canonical text denotes. */
  predicate ShowsCall(v: Value, c: ToolCall, arguments: Value) {
    && Field(v, "arguments") == Some(arguments) && Field(v, "id") == Some(JText(c.id)) && Field(v, "name") == Some(JText(c.name))
  }

  predicate ArgumentsDenote(calls: seq<ToolCall>, arguments: seq<Value>) {
    |calls| == |arguments| && forall i :: 0 <= i < |calls| ==> Denotes(calls[i].arguments.canonicalJson, arguments[i])
  }

  lemma {:induction false} CallKeysDiffer()
    ensures Distinct(CALL_KEYS)
  {
    assert |CALL_KEYS[0]| == 9 && |CALL_KEYS[1]| == 2 && |CALL_KEYS[2]| == 4;
  }

  lemma {:induction false} CallKeysPlain()
    ensures PlainKeys(CALL_KEYS)
  {
    CallKeysDiffer();
    PlainNeedNoEscape(CALL_KEYS);
  }

  lemma {:induction false} ArgumentsHead()
    ensures CompactHead("arguments", true) == "{\"arguments\":"
  {
  }

  lemma {:induction false} IdHead()
    ensures CompactHead("id", false) == ",\"id\":"
  {
  }

  lemma {:induction false} NameHead()
    ensures CompactHead("name", false) == ",\"name\":"
  {
  }

  lemma {:induction false} CallTextMade(c: ToolCall, texts: seq<string>)
    requires texts == [c.arguments.canonicalJson, Quote(c.id), Quote(c.name)]
    ensures CallText(c) == CompactText(CALL_KEYS, texts) + "}"
  {
    ThreeCompact(CALL_KEYS, texts);
    assert CALL_KEYS[..3] == CALL_KEYS && texts[..3] == texts;
    ArgumentsHead();
    IdHead();
    NameHead();
  }

  lemma {:induction false} CallDenotes(c: ToolCall, arguments: Value) returns (v: Value)
    requires Denotes(c.arguments.canonicalJson, arguments)
    ensures Denotes(CallText(c), v) && ShowsCall(v, c, arguments)
  {
    var texts, values := [c.arguments.canonicalJson, Quote(c.id), Quote(c.name)], [arguments, JText(c.id), JText(c.name)];
    CallKeysPlain();
    QuoteDenotes(c.id);
    QuoteDenotes(c.name);
    CallTextMade(c, texts);
    v := CompactDenotes(CALL_KEYS, texts, values, CallText(c));
    assert Field(v, CALL_KEYS[0]) == Some(values[0]) && Field(v, CALL_KEYS[1]) == Some(values[1])
      && Field(v, CALL_KEYS[2]) == Some(values[2]);
  }

  function CallTexts(calls: seq<ToolCall>): seq<string> {
    seq(|calls|, i requires 0 <= i < |calls| => CallText(calls[i]))
  }

  lemma {:induction false} CallsJoined(calls: seq<ToolCall>)
    requires calls != []
    ensures CallsText(calls) == Join(CallTexts(calls))
  {
    if |calls| > 1 {
      CallsJoined(calls[1..]);
      assert CallTexts(calls)[1..] == CallTexts(calls[1..]);
    }
  }

  /** The values show the calls, in order. */
  predicate ShowsCalls(shown: seq<Value>, calls: seq<ToolCall>, arguments: seq<Value>) {
    |shown| == |calls| == |arguments| && forall i :: 0 <= i < |calls| ==> ShowsCall(shown[i], calls[i], arguments[i])
  }

  lemma {:induction false} CallValues(calls: seq<ToolCall>, arguments: seq<Value>) returns (vs: seq<Value>)
    requires ArgumentsDenote(calls, arguments)
    ensures TextsOf(CallTexts(calls), vs) && ShowsCalls(vs, calls, arguments)
  {
    vs := [];
    for i := 0 to |calls|
      invariant |vs| == i
      invariant forall k :: 0 <= k < i ==> Denotes(CallText(calls[k]), vs[k]) && ShowsCall(vs[k], calls[k], arguments[k])
    {
      var v := CallDenotes(calls[i], arguments[i]);
      vs := vs + [v];
    }
  }

  lemma {:induction false} CallsDenote(calls: seq<ToolCall>, arguments: seq<Value>) returns (vs: seq<Value>)
    requires ArgumentsDenote(calls, arguments)
    ensures Denotes("[" + CallsText(calls) + "]", JList(ItemsFrom(vs)))
    ensures ItemSeq(ItemsFrom(vs)) == vs && ShowsCalls(vs, calls, arguments)
  {
    vs := CallValues(calls, arguments);
    ItemsFromSeq(vs);
    if calls == [] {
      EmptyListLexes();
      assert "[" + "" + "]" == "[]";
    } else {
      SignLexes(']');
      CallsJoined(calls);
      BracketsLex(CallTexts(calls), vs, "]");
    }
  }

  // ----- the payload of a message -----

  const PAYLOAD_KEYS := ["content", "name", "role", "tool_call_id", "tool_calls"]
  const REASONED_KEYS := ["content", "name", "reasoning_content", "role", "tool_call_id", "tool_calls"]

  /** The text, or null. */
  predicate ShowsOptional(v: Option<Value>, s: Option<string>) {
    v == Some(if s.Some? then JText(s.value) else JAtom("null"))
  }

  predicate RoleNamed(r: MessageRole, name: string) {
    || (r == System && name == "system") || (r == User && name == "user")
    || (r == Assistant && name == "assistant") || (r == Tool && name == "tool")
  }

  /** The message's fields, each under its own key; reasoning is left out if there is none. */
  predicate ShowsMessage(v: Value, m: ChatMessage, arguments: seq<Value>) {
    && ShowsOptional(Field(v, "content"), m.content)
    && ShowsOptional(Field(v, "name"), m.name)
    && ShowsOptional(Field(v, "tool_call_id"), m.toolCallId)
    && Field(v, "role").Some? && Field(v, "role").value.JText? && RoleNamed(m.role, Field(v, "role").value.text)
    && Field(v, "reasoning_content") == (if m.reasoning.Some? then Some(JText(m.reasoning.value)) else None)
    && Field(v, "tool_calls").Some? && Field(v, "tool_calls").value.JList?
    && ShowsCalls(ItemSeq(Field(v, "tool_calls").value.items), m.toolCalls, arguments)
  }

  lemma {:induction false} PayloadKeysDiffer()
    ensures Distinct(PAYLOAD_KEYS)
  {
    assert |PAYLOAD_KEYS[0]| == 7 && |PAYLOAD_KEYS[1]| == 4 && |PAYLOAD_KEYS[2]| == 4 && |PAYLOAD_KEYS[3]| == 12
      && |PAYLOAD_KEYS[4]| == 10;
    assert PAYLOAD_KEYS[1][0] != PAYLOAD_KEYS[2][0];
  }

  lemma {:induction false} PayloadKeysPlain()
    ensures PlainKeys(PAYLOAD_KEYS)
  {
    PayloadKeysDiffer();
    PlainNeedNoEscape(PAYLOAD_KEYS);
  }

  lemma {:induction false} ReasonedKeysDiffer()
    ensures Distinct(REASONED_KEYS)
  {
    assert |REASONED_KEYS[0]| == 7 && |REASONED_KEYS[1]| == 4 && |REASONED_KEYS[2]| == 17 && |REASONED_KEYS[3]| == 4
      && |REASONED_KEYS[4]| == 12 && |REASONED_KEYS[5]| == 10;
    assert REASONED_KEYS[1][0] != REASONED_KEYS[3][0];
  }

  lemma {:induction false} ReasonedKeysPlain()
    ensures PlainKeys(REASONED_KEYS)
  {
    ReasonedKeysDiffer();
    PlainNeedNoEscape(REASONED_KEYS);
  }

  lemma {:induction false} NoReasoningKey()
    ensures "reasoning_content" !in PAYLOAD_KEYS
  {
    assert |"reasoning_content"| == 17 && forall i :: 0 <= i < 5 ==> |PAYLOAD_KEYS[i]| < 17;
  }

  lemma {:induction false} ContentFieldHead()
    ensures CompactHead("content", true) == "{\"content\":"
  {
  }

  lemma {:induction false} ReasoningHead()
    ensures CompactHead("reasoning_content", false) == ",\"reasoning_content\":"
  {
  }

  lemma {:induction false} RoleHead()
    ensures CompactHead("role", false) == ",\"role\":"
  {
  }

  lemma {:induction false} ToolCallIdHead()
    ensures CompactHead("tool_call_id", false) == ",\"tool_call_id\":"
  {
  }

  lemma {:induction false} ToolCallsHead()
    ensures CompactHead("tool_calls", false) + "[" == ",\"tool_calls\":["
  {
  }

  function Optional(s: Option<string>): Value {
    if s.Some? then JText(s.value) else JAtom("null")
  }

  lemma {:induction false} OptionalDenotes(s: Option<string>)
    ensures Denotes(OrNull(s), Optional(s))
  {
    NullDenotes();
    if s.Some? { QuoteDenotes(s.value); }
  }

  lemma {:induction false} PayloadEnd(before: string, head: string, bracketed: string, calls: string)
    requires head + "[" == bracketed
    ensures before + bracketed + calls + "]}" == before + head + ("[" + calls + "]") + "}"
  {
    assert before + bracketed == before + head + "[";
    assert "]}" == "]" + "}";
  }

  lemma {:induction false} PayloadCompact(texts: seq<string>)
    requires |texts| == 5
    ensures CompactText(PAYLOAD_KEYS, texts)
         == "{\"content\":" + texts[0] + ",\"name\":" + texts[1] + ",\"role\":" + texts[2] + ",\"tool_call_id\":" + texts[3]
            + CompactHead("tool_calls", false) + texts[4]
  {
    ThreeCompact(PAYLOAD_KEYS, texts);
    CompactPrefix(PAYLOAD_KEYS, texts, 4);
    CompactPrefix(PAYLOAD_KEYS, texts, 5);
    assert PAYLOAD_KEYS[..5] == PAYLOAD_KEYS && texts[..5] == texts;
    ContentFieldHead();
    NameHead();
    RoleHead();
    ToolCallIdHead();
  }

  lemma {:induction false} ReasonedCompact(texts: seq<string>)
    requires |texts| == 6
    ensures CompactText(REASONED_KEYS, texts)
         == "{\"content\":" + texts[0] + ",\"name\":" + texts[1] + ",\"reasoning_content\":" + texts[2] + ",\"role\":" + texts[3]
            + ",\"tool_call_id\":" + texts[4] + CompactHead("tool_calls", false) + texts[5]
  {
    ThreeCompact(REASONED_KEYS, texts);
    CompactPrefix(REASONED_KEYS, texts, 4);
    CompactPrefix(REASONED_KEYS, texts, 5);
    CompactPrefix(REASONED_KEYS, texts, 6);
    assert REASONED_KEYS[..6] == REASONED_KEYS && texts[..6] == texts;
    ContentFieldHead();
    NameHead();
    ReasoningHead();
    RoleHead();
    ToolCallIdHead();
  }

  lemma {:induction false} PayloadTextMade(m: ChatMessage, texts: seq<string>)
    requires m.reasoning.None?
    requires texts == [OrNull(m.content), OrNull(m.name), Quote(RoleValue(m.role)), OrNull(m.toolCallId),
                       "[" + CallsText(m.toolCalls) + "]"]
    ensures Payload(m) == CompactText(PAYLOAD_KEYS, texts) + "}"
  {
    PayloadCompact(texts);
    ToolCallsHead();
    var front := "{\"content\":" + OrNull(m.content) + ",\"name\":" + OrNull(m.name);
    assert front + "" == front;
    PayloadEnd(front + ",\"role\":" + Quote(RoleValue(m.role)) + ",\"tool_call_id\":" + OrNull(m.toolCallId),
               CompactHead("tool_calls", false), ",\"tool_calls\":[", CallsText(m.toolCalls));
  }

  lemma {:induction false} Joined(a: string, b: string, c: string)
    ensures a + (b + c) == a + b + c
  {
  }

  lemma {:induction false} ReasonedTextMade(m: ChatMessage, texts: seq<string>)
    requires m.reasoning.Some?
    requires texts == [OrNull(m.content), OrNull(m.name), Quote(m.reasoning.value), Quote(RoleValue(m.role)),
                       OrNull(m.toolCallId), "[" + CallsText(m.toolCalls) + "]"]
    ensures Payload(m) == CompactText(REASONED_KEYS, texts) + "}"
  {
    ReasonedCompact(texts);
    ToolCallsHead();
    var front := "{\"content\":" + OrNull(m.content) + ",\"name\":" + OrNull(m.name);
    Joined(front, ",\"reasoning_content\":", Quote(m.reasoning.value));
    PayloadEnd(front + ",\"reasoning_content\":" + Quote(m.reasoning.value) + ",\"role\":" + Quote(RoleValue(m.role))
                 + ",\"tool_call_id\":" + OrNull(m.toolCallId),
               CompactHead("tool_calls", false), ",\"tool_calls\":[", CallsText(m.toolCalls));
  }

  lemma {:induction false} PayloadObject(texts: seq<string>, values: seq<Value>, text: string) returns (v: Value)
    requires |texts| == 5 && AllDenote(texts, values) && text == CompactText(PAYLOAD_KEYS, texts) + "}"
    ensures Denotes(text, v) && Field(v, "reasoning_content").None?
    ensures Field(v, "content") == Some(values[0]) && Field(v, "name") == Some(values[1]) && Field(v, "role") == Some(values[2])
    ensures Field(v, "tool_call_id") == Some(values[3]) && Field(v, "tool_calls") == Some(values[4])
  {
    PayloadKeysPlain();
    v := CompactDenotes(PAYLOAD_KEYS, texts, values, text);
    PayloadFields(v, values);
    NoReasoningKey();
  }

  lemma {:induction false} SixDenote(t: seq<string>, v: seq<Value>)
    requires |t| == |v| == 6 && Denotes(t[0], v[0]) && Denotes(t[1], v[1]) && Denotes(t[2], v[2])
    requires Denotes(t[3], v[3]) && Denotes(t[4], v[4]) && Denotes(t[5], v[5])
    ensures AllDenote(t, v)
  {
  }

  lemma {:induction false} ReasonedObject(texts: seq<string>, values: seq<Value>, text: string) returns (v: Value)
    requires |texts| == 6 && AllDenote(texts, values) && text == CompactText(REASONED_KEYS, texts) + "}"
    ensures Denotes(text, v) && Field(v, "content") == Some(values[0]) && Field(v, "name") == Some(values[1])
    ensures Field(v, "reasoning_content") == Some(values[2]) && Field(v, "role") == Some(values[3])
    ensures Field(v, "tool_call_id") == Some(values[4]) && Field(v, "tool_calls") == Some(values[5])
  {
    ReasonedKeysPlain();
    v := CompactDenotes(REASONED_KEYS, texts, values, text);
    ReasonedFields(v, values);
  }

  lemma {:induction false} PayloadFields(v: Value, values: seq<Value>)
    requires |values| == 5 && forall i :: 0 <= i < 5 ==> Field(v, PAYLOAD_KEYS[i]) == Some(values[i])
    ensures Field(v, "content") == Some(values[0]) && Field(v, "name") == Some(values[1]) && Field(v, "role") == Some(values[2])
    ensures Field(v, "tool_call_id") == Some(values[3]) && Field(v, "tool_calls") == Some(values[4])
  {
    assert Field(v, PAYLOAD_KEYS[0]) == Some(values[0]) && Field(v, PAYLOAD_KEYS[1]) == Some(values[1])
      && Field(v, PAYLOAD_KEYS[2]) == Some(values[2]) && Field(v, PAYLOAD_KEYS[3]) == Some(values[3])
      && Field(v, PAYLOAD_KEYS[4]) == Some(values[4]);
  }

  lemma {:induction false} ReasonedFields(v: Value, values: seq<Value>)
    requires |values| == 6 && forall i :: 0 <= i < 6 ==> Field(v, REASONED_KEYS[i]) == Some(values[i])
    ensures Field(v, "content") == Some(values[0]) && Field(v, "name") == Some(values[1])
    ensures Field(v, "reasoning_content") == Some(values[2]) && Field(v, "role") == Some(values[3])
    ensures Field(v, "tool_call_id") == Some(values[4]) && Field(v, "tool_calls") == Some(values[5])
  {
    assert Field(v, REASONED_KEYS[0]) == Some(values[0]) && Field(v, REASONED_KEYS[1]) == Some(values[1])
      && Field(v, REASONED_KEYS[2]) == Some(values[2]) && Field(v, REASONED_KEYS[3]) == Some(values[3])
      && Field(v, REASONED_KEYS[4]) == Some(values[4]) && Field(v, REASONED_KEYS[5]) == Some(values[5]);
  }

  lemma {:induction false} PlainPayloadReads(m: ChatMessage, list: string, calls: Value) returns (v: Value)
    requires m.reasoning.None? && list == "[" + CallsText(m.toolCalls) + "]" && Denotes(list, calls)
    ensures Denotes(Payload(m), v) && Field(v, "content") == Some(Optional(m.content)) && Field(v, "name") == Some(Optional(m.name))
    ensures Field(v, "role") == Some(JText(RoleValue(m.role))) && Field(v, "tool_call_id") == Some(Optional(m.toolCallId))
    ensures Field(v, "tool_calls") == Some(calls) && Field(v, "reasoning_content").None?
  {
    var texts := [OrNull(m.content), OrNull(m.name), Quote(RoleValue(m.role)), OrNull(m.toolCallId), list];
    var values := [Optional(m.content), Optional(m.name), JText(RoleValue(m.role)), Optional(m.toolCallId), calls];
    OptionalDenotes(m.content);
    OptionalDenotes(m.name);
    OptionalDenotes(m.toolCallId);
    QuoteDenotes(RoleValue(m.role));
    PayloadTextMade(m, texts);
    v := PayloadObject(texts, values, Payload(m));
  }

  lemma {:induction false} ReasonedPayloadReads(m: ChatMessage, list: string, calls: Value) returns (v: Value)
    requires m.reasoning.Some? && list == "[" + CallsText(m.toolCalls) + "]" && Denotes(list, calls)
    ensures Denotes(Payload(m), v) && Field(v, "content") == Some(Optional(m.content)) && Field(v, "name") == Some(Optional(m.name))
    ensures Field(v, "role") == Some(JText(RoleValue(m.role))) && Field(v, "tool_call_id") == Some(Optional(m.toolCallId))
    ensures Field(v, "tool_calls") == Some(calls) && Field(v, "reasoning_content") == Some(JText(m.reasoning.value))
  {
    var texts := [OrNull(m.content), OrNull(m.name), Quote(m.reasoning.value), Quote(RoleValue(m.role)),
                  OrNull(m.toolCallId), list];
    var values := [Optional(m.content), Optional(m.name), JText(m.reasoning.value), JText(RoleValue(m.role)),
                   Optional(m.toolCallId), calls];
    OptionalDenotes(m.content);
    OptionalDenotes(m.name);
    OptionalDenotes(m.toolCallId);
    QuoteDenotes(RoleValue(m.role));
    QuoteDenotes(m.reasoning.value);
    SixDenote(texts, values);
    ReasonedTextMade(m, texts);
    v := ReasonedObject(texts, values, Payload(m));
  }

  /** The text whose size is estimated reads back as the message, each field under its own key. */
  lemma {:induction false} PayloadReadsBack(m: ChatMessage, arguments: seq<Value>)
    requires ArgumentsDenote(m.toolCalls, arguments)
    ensures var v := ReadJson(Payload(m)); v.Some? && ShowsMessage(v.value, m, arguments)
  {
    var vs := CallsDenote(m.toolCalls, arguments);
    var v: Value;
    if m.reasoning.None? {
      v := PlainPayloadReads(m, "[" + CallsText(m.toolCalls) + "]", JList(ItemsFrom(vs)));
    } else {
      v := ReasonedPayloadReads(m, "[" + CallsText(m.toolCalls) + "]", JList(ItemsFrom(vs)));
    }
    TextReadsBack(Payload(m), v);
  }
}
