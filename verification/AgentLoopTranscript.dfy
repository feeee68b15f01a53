/**
 What every run of the loop keeps about its transcript: the messages are the initial
 messages followed by blocks, one per response, each an assistant message and the tool
 messages that answer its calls in order; and a block's calls execute only when the
 whole batch was admissible.
 */
module AgentLoopTranscript {
  import opened Prelude
  import opened ProviderModels
  import opened AgentLoop

  /** One response and the records of those of its calls that were executed. */
  datatype Block = Block(response: ChatResponse, records: seq<ToolExecutionRecord>)

  function Init<T>(s: seq<T>): seq<T>
    requires s != []
  {
    s[..|s| - 1]
  }

  function Last<T>(s: seq<T>): T
    requires s != []
  {
    s[|s| - 1]
  }

  function ToolMessages(records: seq<ToolExecutionRecord>): seq<ChatMessage> {
    seq(|records|, j requires 0 <= j < |records| => ToolMessage(records[j]))
  }

  function Flatten(bs: seq<Block>): seq<ChatMessage> {
    if bs == [] then []
    else Flatten(Init(bs)) + ([AssistantMessage(Last(bs).response)] + ToolMessages(Last(bs).records))
  }

  function Records(bs: seq<Block>): seq<ToolExecutionRecord> {
    if bs == [] then [] else Records(Init(bs)) + Last(bs).records
  }

  function Responses(bs: seq<Block>): seq<ChatResponse> {
    seq(|bs|, i requires 0 <= i < |bs| => bs[i].response)
  }

  /** The record carries the call's own id, name and arguments. */
  predicate AnswersCall(e: ToolExecutionRecord, c: ToolCall) {
    e.toolCallId == c.id && e.toolName == c.name && e.arguments == c.arguments
  }

  /** The records answer a prefix of the calls, in order. */
  predicate Answers(b: Block) {
    && |b.records| <= |b.response.toolCalls|
    && forall j :: 0 <= j < |b.records| ==> AnswersCall(b.records[j], b.response.toolCalls[j])
  }

  predicate Closed(b: Block) {
    Answers(b) && b.response.toolCalls != [] && |b.records| == |b.response.toolCalls|
  }

  predicate AllClosed(bs: seq<Block>) {
    forall i :: 0 <= i < |bs| ==> Closed(bs[i])
  }

  /** Closed blocks, then at most one that is short of a suffix of its tool messages. */
  predicate Grammatical(bs: seq<Block>) {
    bs != [] ==> AllClosed(Init(bs)) && Answers(Last(bs))
  }

  function Signatures(es: seq<ToolExecutionRecord>): set<Signature> {
    set e | e in es :: RecordSignature(e)
  }

  function CallSignatures(calls: seq<ToolCall>): set<Signature> {
    set c | c in calls :: CallSignature(c)
  }

  /** Every call allowed, none executed before, no two alike. */
  predicate Admissible(allowed: seq<string>, seen: set<Signature>, calls: seq<ToolCall>) {
    && (forall i :: 0 <= i < |calls| ==> calls[i].name in allowed && CallSignature(calls[i]) !in seen)
    && (forall i, j :: 0 <= i < j < |calls| ==> CallSignature(calls[i]) != CallSignature(calls[j]))
  }

  /** The whole batch fits the tool budget and is admissible after the given history. */
  predicate BatchAdmitted(req: RunRequest, before: seq<ToolExecutionRecord>, calls: seq<ToolCall>) {
    |before| + |calls| <= req.maxToolCalls && Admissible(req.allowedTools, Signatures(before), calls)
  }

  /** No call of a response executes unless its whole batch was admitted. */
  predicate AllOrNothing(req: RunRequest, bs: seq<Block>) {
    forall i :: 0 <= i < |bs| && bs[i].records != [] ==>
      BatchAdmitted(req, Records(bs[..i]), bs[i].response.toolCalls)
  }

  /** The blocks account for the machine's messages, responses and executions. */
  predicate Transcribes(req: RunRequest, bs: seq<Block>, m: Machine) {
    && m.messages == req.messages + Flatten(bs)
    && m.responses == Responses(bs)
    && m.executions == Records(bs)
    && Grammatical(bs)
    && AllOrNothing(req, bs)
  }

  predicate Inv(req: RunRequest, bs: seq<Block>, m: Machine) {
    && Transcribes(req, bs, m)
    && |bs| <= req.maxIterations
    && match m.phase
       case Begin(i) =>
         i == |bs| + 1 <= req.maxIterations && AllClosed(bs) && m.seen == Signatures(m.executions)
       case Received(i, r) =>
         && bs != [] && i == |bs| && Last(bs) == Block(r, [])
         && m.seen == Signatures(m.executions)
       case Executing(i, r, k) =>
         && bs != [] && i == |bs| < req.maxIterations && r.toolCalls != [] && k <= |r.toolCalls|
         && Last(bs).response == r && |Last(bs).records| == k
         && BatchAdmitted(req, Records(Init(bs)), r.toolCalls)
         && m.seen == Signatures(Records(Init(bs))) + CallSignatures(r.toolCalls)
       case Done(res) => true
  }

  // ----- batch validation -----

  lemma {:induction false} ValidateBatchMeans(calls: seq<ToolCall>, allowed: seq<string>, seen: set<Signature>)
    ensures ValidateBatch(calls, allowed, seen).Admitted? <==> Admissible(allowed, seen, calls)
    ensures Admissible(allowed, seen, calls) ==>
      ValidateBatch(calls, allowed, seen).seen == seen + CallSignatures(calls)
  {
    if calls == [] {
      assert CallSignatures(calls) == {};
    } else if calls[0].name in allowed && CallSignature(calls[0]) !in seen {
      var c, rest := CallSignature(calls[0]), calls[1..];
      ValidateBatchMeans(rest, allowed, seen + {c});
      assert calls == [calls[0]] + rest;
      assert CallSignatures(calls) == {c} + CallSignatures(rest);
      AdmissibleFirst(allowed, seen, calls);
    }
  }

  /** A batch is admissible when its first call is and the rest is after it. */
  lemma {:induction false} AdmissibleFirst(allowed: seq<string>, seen: set<Signature>, calls: seq<ToolCall>)
    requires calls != [] && calls[0].name in allowed && CallSignature(calls[0]) !in seen
    ensures Admissible(allowed, seen, calls) <==> Admissible(allowed, seen + {CallSignature(calls[0])}, calls[1..])
  {
    var c, rest := CallSignature(calls[0]), calls[1..];
    if Admissible(allowed, seen + {c}, rest) {
      forall i | 0 <= i < |calls| ensures calls[i].name in allowed && CallSignature(calls[i]) !in seen {
        if i > 0 { assert calls[i] == rest[i - 1]; }
      }
      forall i, j | 0 <= i < j < |calls| ensures CallSignature(calls[i]) != CallSignature(calls[j]) {
        assert calls[j] == rest[j - 1];
        if i > 0 { assert calls[i] == rest[i - 1]; }
      }
    }
    if Admissible(allowed, seen, calls) {
      forall i | 0 <= i < |rest| ensures rest[i].name in allowed && CallSignature(rest[i]) !in seen + {c} {
        assert rest[i] == calls[i + 1];
      }
      forall i, j | 0 <= i < j < |rest| ensures CallSignature(rest[i]) != CallSignature(rest[j]) {
        assert rest[i] == calls[i + 1] && rest[j] == calls[j + 1];
      }
    }
  }

  // ----- growing the block list -----

  lemma {:induction false} AppendBlock(bs: seq<Block>, b: Block)
    ensures Flatten(bs + [b]) == Flatten(bs) + ([AssistantMessage(b.response)] + ToolMessages(b.records))
    ensures Records(bs + [b]) == Records(bs) + b.records
    ensures Responses(bs + [b]) == Responses(bs) + [b.response]
  {
    assert Init(bs + [b]) == bs;
  }

  lemma {:induction false} AllOrNothingAppend(req: RunRequest, bs: seq<Block>, b: Block)
    requires AllOrNothing(req, bs)
    requires b.records != [] ==> BatchAdmitted(req, Records(bs), b.response.toolCalls)
    ensures AllOrNothing(req, bs + [b])
  {
    var bs' := bs + [b];
    forall i | 0 <= i < |bs'| && bs'[i].records != []
      ensures BatchAdmitted(req, Records(bs'[..i]), bs'[i].response.toolCalls)
    {
      assert bs'[..i] == bs[..i];
      if i == |bs| { assert bs[..i] == bs; }
    }
  }

  lemma {:induction false} AllOrNothingInit(req: RunRequest, bs: seq<Block>)
    requires bs != [] && AllOrNothing(req, bs)
    ensures AllOrNothing(req, Init(bs))
  {
    forall i | 0 <= i < |Init(bs)| && Init(bs)[i].records != []
      ensures BatchAdmitted(req, Records(Init(bs)[..i]), Init(bs)[i].response.toolCalls)
    {
      assert Init(bs)[..i] == bs[..i];
    }
  }

  /** A response opens a new, empty block. */
  lemma {:induction false} OpenBlock(req: RunRequest, bs: seq<Block>, m: Machine, m': Machine, r: ChatResponse)
    requires Transcribes(req, bs, m) && AllClosed(bs)
    requires m'.messages == m.messages + [AssistantMessage(r)]
    requires m'.responses == m.responses + [r] && m'.executions == m.executions
    ensures Transcribes(req, bs + [Block(r, [])], m')
  {
    var b := Block(r, []);
    AppendBlock(bs, b);
    AllOrNothingAppend(req, bs, b);
    assert Init(bs + [b]) == bs;
    assert ToolMessages(b.records) == [];
  }

  /** An executed call extends the open block by its record. */
  lemma {:induction false} ExtendBlock(req: RunRequest, bs: seq<Block>, m: Machine, m': Machine, e: ToolExecutionRecord)
    returns (bs': seq<Block>)
    requires Transcribes(req, bs, m) && bs != []
    requires |Last(bs).records| < |Last(bs).response.toolCalls|
    requires AnswersCall(e, Last(bs).response.toolCalls[|Last(bs).records|])
    requires BatchAdmitted(req, Records(Init(bs)), Last(bs).response.toolCalls)
    requires m'.messages == m.messages + [ToolMessage(e)]
    requires m'.responses == m.responses && m'.executions == m.executions + [e]
    ensures bs' == Init(bs) + [Block(Last(bs).response, Last(bs).records + [e])]
    ensures Transcribes(req, bs', m')
  {
    var before, b := Init(bs), Last(bs);
    var b' := Block(b.response, b.records + [e]);
    bs' := before + [b'];
    assert bs == before + [b];
    ExtendSequences(before, b, e);
    AllOrNothingInit(req, bs);
    AllOrNothingAppend(req, before, b');
    GrammarExtended(before, b, e);
  }

  lemma {:induction false} GrammarExtended(before: seq<Block>, b: Block, e: ToolExecutionRecord)
    requires Grammatical(before + [b])
    requires |b.records| < |b.response.toolCalls| && AnswersCall(e, b.response.toolCalls[|b.records|])
    ensures Grammatical(before + [Block(b.response, b.records + [e])])
  {
    var b' := Block(b.response, b.records + [e]);
    assert Init(before + [b]) == before && Init(before + [b']) == before;
    assert Answers(b');
  }

  lemma {:induction false} ExtendSequences(before: seq<Block>, b: Block, e: ToolExecutionRecord)
    ensures var b' := Block(b.response, b.records + [e]);
      && Flatten(before + [b']) == Flatten(before + [b]) + [ToolMessage(e)]
      && Records(before + [b']) == Records(before + [b]) + [e]
      && Responses(before + [b']) == Responses(before + [b])
  {
    var b' := Block(b.response, b.records + [e]);
    AppendBlock(before, b);
    AppendBlock(before, b');
    assert ToolMessages(b'.records) == ToolMessages(b.records) + [ToolMessage(e)];
    var f, h, t := Flatten(before), [AssistantMessage(b.response)], ToolMessages(b.records);
    assert f + (h + (t + [ToolMessage(e)])) == f + (h + t) + [ToolMessage(e)];
    assert Records(before) + (b.records + [e]) == Records(before) + b.records + [e];
  }

  // ----- preservation -----

  /** The block list after a step: a new response opens a block, a new record extends the last. */
  function Grow(bs: seq<Block>, m: Machine, m': Machine): seq<Block> {
    if |m'.responses| > |m.responses| then bs + [Block(Last(m'.responses), [])]
    else if |m'.executions| > |m.executions| && bs != [] then
      Init(bs) + [Block(Last(bs).response, Last(bs).records + [Last(m'.executions)])]
    else bs
  }

  /** The step left messages, responses and executions alone. */
  predicate Quiet(m: Machine, m': Machine) {
    m'.messages == m.messages && m'.responses == m.responses && m'.executions == m.executions
  }

  predicate Answered(m: Machine, m': Machine, r: ChatResponse) {
    && m'.messages == m.messages + [AssistantMessage(r)]
    && m'.responses == m.responses + [r] && m'.executions == m.executions
  }

  predicate Executed(m: Machine, m': Machine, e: ToolExecutionRecord) {
    && m'.messages == m.messages + [ToolMessage(e)]
    && m'.responses == m.responses && m'.executions == m.executions + [e]
  }

  /** What a step does to the transcript, phase by phase. */
  predicate TranscriptEffect(req: RunRequest, m: Machine, m': Machine) {
    match m.phase
    case Begin(i) =>
      || (Quiet(m, m') && m'.phase.Done?)
      || (m'.phase.Received? && m'.phase.iteration == i && Answered(m, m', m'.phase.response) && m'.seen == m.seen)
    case Received(i, r) =>
      && Quiet(m, m')
      && (m'.phase.Done?
          || (m'.phase == Executing(i, r, 0) && r.toolCalls != [] && i < req.maxIterations
              && |m.executions| + |r.toolCalls| <= req.maxToolCalls
              && ValidateBatch(r.toolCalls, req.allowedTools, m.seen) == BatchVerdict.Admitted(m'.seen)))
    case Executing(i, r, k) =>
      if k >= |r.toolCalls| then Quiet(m, m') && m'.phase == Begin(i + 1) && m'.seen == m.seen
      else
        || (Quiet(m, m') && m'.phase.Done?)
        || (m'.executions != [] && Executed(m, m', Last(m'.executions))
            && AnswersCall(Last(m'.executions), r.toolCalls[k]) && m'.seen == m.seen
            && (m'.phase.Done? || m'.phase == Executing(i, r, k + 1)))
    case Done(_) => m' == m
  }

  lemma {:induction false} BeginEffect(env: Env, req: RunRequest, m: Machine)
    requires ToolsRegistered(env, req) && m.phase.Begin?
    ensures TranscriptEffect(req, m, StepBegin(env, req, m, m.phase.iteration))
  {
  }

  lemma {:induction false} ReceivedEffect(env: Env, req: RunRequest, m: Machine)
    requires m.phase.Received?
    ensures TranscriptEffect(req, m, StepReceived(env, req, m, m.phase.iteration, m.phase.response))
  {
  }

  lemma {:induction false} ExecutingEffect(env: Env, req: RunRequest, m: Machine)
    requires ToolsRegistered(env, req) && CallsAllowed(req, m.phase) && m.phase.Executing?
    ensures TranscriptEffect(req, m, StepExecuting(env, req, m, m.phase.iteration, m.phase.response, m.phase.next))
  {
    var m' := StepExecuting(env, req, m, m.phase.iteration, m.phase.response, m.phase.next);
    if m.phase.next < |m.phase.response.toolCalls| && |m'.executions| > |m.executions| {
      var call := m.phase.response.toolCalls[m.phase.next];
      var e := RecordFor(call, env.runtime(|m.invocations|, m'.invocations[|m.invocations|].what));
      assert m'.executions == m.executions + [e] && Last(m'.executions) == e;
      assert AnswersCall(e, call);
    }
  }

  lemma {:induction false} StepTranscriptEffect(env: Env, req: RunRequest, m: Machine)
    requires ToolsRegistered(env, req) && CallsAllowed(req, m.phase)
    ensures TranscriptEffect(req, m, Step(env, req, m))
  {
    match m.phase
    case Begin(_) => BeginEffect(env, req, m);
    case Received(_, _) => ReceivedEffect(env, req, m);
    case Executing(_, _, _) => ExecutingEffect(env, req, m);
    case Done(_) =>
  }

  lemma {:induction false} QuietKeeps(req: RunRequest, bs: seq<Block>, m: Machine, m': Machine)
    requires Transcribes(req, bs, m) && Quiet(m, m')
    ensures Grow(bs, m, m') == bs && Transcribes(req, bs, m')
  {
  }

  lemma {:induction false} BeginKeeps(req: RunRequest, bs: seq<Block>, m: Machine, m': Machine)
    requires m.phase.Begin? && Inv(req, bs, m) && TranscriptEffect(req, m, m')
    ensures Inv(req, Grow(bs, m, m'), m')
  {
    if m'.phase.Done? && Quiet(m, m') {
      QuietKeeps(req, bs, m, m');
    } else {
      OpenBlock(req, bs, m, m', m'.phase.response);
    }
  }

  lemma {:induction false} ReceivedKeeps(req: RunRequest, bs: seq<Block>, m: Machine, m': Machine)
    requires m.phase.Received? && Inv(req, bs, m) && TranscriptEffect(req, m, m')
    ensures Inv(req, Grow(bs, m, m'), m')
  {
    QuietKeeps(req, bs, m, m');
    AppendBlock(Init(bs), Last(bs));
    assert bs == Init(bs) + [Last(bs)];
    if m'.phase.Executing? {
      ValidateBatchMeans(m.phase.response.toolCalls, req.allowedTools, m.seen);
    }
  }

  lemma {:induction false} ExecutingKeeps(req: RunRequest, bs: seq<Block>, m: Machine, m': Machine)
    requires m.phase.Executing? && Inv(req, bs, m) && TranscriptEffect(req, m, m')
    ensures Inv(req, Grow(bs, m, m'), m')
  {
    var r, k := m.phase.response, m.phase.next;
    assert bs == Init(bs) + [Last(bs)];
    if k >= |r.toolCalls| {
      QuietKeeps(req, bs, m, m');
      AppendBlock(Init(bs), Last(bs));
      BlockSignatures(Records(Init(bs)), Last(bs));
    } else if Quiet(m, m') && m'.phase.Done? {
      QuietKeeps(req, bs, m, m');
    } else {
      var bs' := ExtendBlock(req, bs, m, m', Last(m'.executions));
      assert Init(bs') == Init(bs);
      assert bs' == Grow(bs, m, m');
    }
  }

  lemma {:induction false} StepKeepsTranscript(env: Env, req: RunRequest, bs: seq<Block>, m: Machine)
    requires ToolsRegistered(env, req) && CallsAllowed(req, m.phase) && Inv(req, bs, m)
    ensures Inv(req, Grow(bs, m, Step(env, req, m)), Step(env, req, m))
  {
    StepTranscriptEffect(env, req, m);
    KeepsTranscript(req, bs, m, Step(env, req, m));
  }

  lemma {:induction false} KeepsTranscript(req: RunRequest, bs: seq<Block>, m: Machine, m': Machine)
    requires Inv(req, bs, m) && TranscriptEffect(req, m, m')
    ensures Inv(req, Grow(bs, m, m'), m')
  {
    match m.phase
    case Begin(_) => BeginKeeps(req, bs, m, m');
    case Received(_, _) => ReceivedKeeps(req, bs, m, m');
    case Executing(_, _, _) => ExecutingKeeps(req, bs, m, m');
    case Done(_) =>
  }

  /** Once every call of a block is answered, the executed signatures are the batch's. */
  lemma {:induction false} BlockSignatures(before: seq<ToolExecutionRecord>, b: Block)
    requires Closed(b)
    ensures Signatures(before + b.records) == Signatures(before) + CallSignatures(b.response.toolCalls)
  {
    forall c | c in b.response.toolCalls ensures CallSignature(c) in Signatures(b.records) {
      var j :| 0 <= j < |b.response.toolCalls| && b.response.toolCalls[j] == c;
      assert AnswersCall(b.records[j], c);
      assert b.records[j] in b.records;
    }
    forall e | e in b.records ensures RecordSignature(e) in CallSignatures(b.response.toolCalls) {
      var j :| 0 <= j < |b.records| && b.records[j] == e;
      assert AnswersCall(e, b.response.toolCalls[j]);
      assert b.response.toolCalls[j] in b.response.toolCalls;
    }
    assert Signatures(b.records) == CallSignatures(b.response.toolCalls);
    assert Signatures(before + b.records) == Signatures(before) + Signatures(b.records);
  }

  // ----- what the block list says about executions -----

  lemma {:induction false} RecordsCount(bs: seq<Block>)
    requires AllClosed(bs)
    ensures |Records(bs)| >= |bs|
  {
    if bs != [] {
      RecordsCount(Init(bs));
    }
  }

  predicate AtMostOnce(req: RunRequest, es: seq<ToolExecutionRecord>) {
    && |es| <= req.maxToolCalls
    && (forall j :: 0 <= j < |es| ==> es[j].toolName in req.allowedTools)
    && (forall i, j :: 0 <= i < j < |es| ==> RecordSignature(es[i]) != RecordSignature(es[j]))
  }

  /** Batch admission makes every execution of the run allowed, within budget and unrepeated. */
  lemma {:induction false} AdmissionGivesAtMostOnce(req: RunRequest, bs: seq<Block>)
    requires AllOrNothing(req, bs) && forall i :: 0 <= i < |bs| ==> Answers(bs[i])
    ensures AtMostOnce(req, Records(bs))
  {
    if bs != [] {
      var b, before := Last(bs), Records(Init(bs));
      AllOrNothingInit(req, bs);
      AdmissionGivesAtMostOnce(req, Init(bs));
      if b.records != [] {
        assert bs[..|bs| - 1] == Init(bs);
        assert BatchAdmitted(req, before, b.response.toolCalls);
        var es := before + b.records;
        forall j | 0 <= j < |b.records| ensures AnswersCall(b.records[j], b.response.toolCalls[j]) {}
        forall i, j | 0 <= i < j < |es| ensures RecordSignature(es[i]) != RecordSignature(es[j]) {
          if i < |before| && j >= |before| {
            assert es[i] in before;
            assert AnswersCall(b.records[j - |before|], b.response.toolCalls[j - |before|]);
          } else if i >= |before| {
            assert AnswersCall(b.records[i - |before|], b.response.toolCalls[i - |before|]);
            assert AnswersCall(b.records[j - |before|], b.response.toolCalls[j - |before|]);
          }
        }
      }
    }
  }
}
