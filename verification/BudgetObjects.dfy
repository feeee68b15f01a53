/**
 `GLM53BudgetState` and `GLM53BudgetedProvider` as the objects they are: one shared budget
 whose fields every wrapper updates in place, proved to follow the ledger.
 */
module BudgetObjects {
  import opened Prelude
  import opened ProviderModels
  import L = BudgetLedger

  /** `_MutableCaseResources`. */
  class CaseRow {
    var callsUsed: nat
    var inputTokens: nat
    var outputTokens: nat
    var latencyMs: nat

    function Use(): L.CaseUse
      reads this
    {
      L.CaseUse(callsUsed, inputTokens, outputTokens, latencyMs)
    }

    constructor ()
      ensures Use() == L.NO_USE
    {
      callsUsed, inputTokens, outputTokens, latencyMs := 0, 0, 0, 0;
    }

    method Add(usage: TokenUsage, latency: nat)
      modifies this
      ensures Use() == L.AddUse(old(Use()), usage, latency)
    {
      inputTokens := inputTokens + usage.inputTokens;
      outputTokens := outputTokens + usage.outputTokens;
      latencyMs := latencyMs + latency;
    }
  }

  class BudgetState {
    var callsUsed: nat
    var inputTokens: nat
    var outputTokens: nat
    var latencyMs: nat
    var stopCode: Option<L.FailureCode>
    var globalStop: Option<L.FailureCode>
    var providerStop: Option<L.ProviderStop>
    var order: seq<string>
    var cases: map<string, CaseRow>
    ghost var inner: seq<L.InnerCall>

    /** No two cases share a row, and only registered cases are listed. */
    ghost predicate Valid()
      reads this
    {
      && (forall id :: id in order ==> id in cases)
      && forall a, b :: a in cases && b in cases && cases[a] == cases[b] ==> a == b
    }

    ghost function Uses(): map<string, L.CaseUse>
      reads this, cases.Values
    {
      map id | id in cases :: cases[id].Use()
    }

    ghost function View(): L.Ledger
      reads this, cases.Values
    {
      L.Ledger(callsUsed, inputTokens, outputTokens, latencyMs, stopCode, globalStop, providerStop, order, Uses(), inner)
    }

    constructor ()
      ensures Valid() && cases == map[] && View() == L.EMPTY_LEDGER
    {
      callsUsed, inputTokens, outputTokens, latencyMs := 0, 0, 0, 0;
      stopCode, globalStop, providerStop := None, None, None;
      order, cases, inner := [], map[], [];
    }

    method RegisterCase(caseId: string) returns (registered: bool)
      requires Valid()
      modifies this`order, this`cases
      ensures Valid() && registered == (caseId !in old(cases))
      ensures fresh(cases.Values - old(cases.Values)) && cases.Keys == old(cases.Keys) + {caseId}
      ensures View() == if registered then L.Register(old(View()), caseId) else old(View())
    {
      if caseId in cases {
        return false;
      }
      var row := new CaseRow();
      cases := cases[caseId := row];
      order := order + [caseId];
      registered := true;
      assert Uses() == old(Uses())[caseId := L.NO_USE];
    }

    method StopProvider(failure: L.FailureCode, code: Option<string>)
      modifies this`providerStop, this`stopCode
      ensures View() == L.StopProvider(old(View()), failure, code)
    {
      var safe := L.SafeErrorCode(code);
      if providerStop.None? {
        providerStop := Some(L.ProviderStop(failure, safe));
      }
      if stopCode.None? {
        stopCode := Some(failure);
      }
      assert Uses() == old(Uses());
    }

    method StopGlobal(failure: L.FailureCode)
      modifies this`globalStop, this`stopCode
      ensures View() == L.StopGlobal(old(View()), failure)
    {
      if globalStop.None? {
        globalStop := Some(failure);
      }
      if stopCode.None? {
        stopCode := Some(failure);
      }
      assert Uses() == old(Uses());
    }
  }

  datatype Preparation = Stopped(failure: L.FailureCode) | Ready(request: ChatRequest)

  class BudgetedProvider {
    const provider: L.Provider
    const state: BudgetState
    const caseId: string
    const profile: Option<L.FlashProfile>

    constructor (provider: L.Provider, state: BudgetState, caseId: string, profile: Option<L.FlashProfile>)
      requires caseId in state.cases
      ensures this.provider == provider && this.state == state && this.caseId == caseId && this.profile == profile
    {
      this.provider, this.state, this.caseId, this.profile := provider, state, caseId, profile;
    }

    method Block(failure: L.FailureCode) returns (p: Preparation)
      requires caseId in state.cases
      modifies state`providerStop, state`stopCode
      ensures p == Stopped(failure) && state.View() == L.StopProvider(old(state.View()), failure, None)
    {
      state.StopProvider(failure, None);
      p := Stopped(failure);
    }

    method Reserve(request: ChatRequest) returns (p: Preparation)
      requires state.Valid() && caseId in state.cases
      modifies state, state.cases[caseId]
      ensures state.Valid() && state.cases == old(state.cases)
      ensures match L.Reserve(old(state.View()), caseId, profile, request)
              case Refused(l, failure) => p == Stopped(failure) && state.View() == l
              case Granted(l, prepared) => p == Ready(prepared) && state.View() == l
    {
      if state.stopCode.Some? {
        return Stopped(state.stopCode.value);
      }
      var row := state.cases[caseId];
      if state.callsUsed >= L.DOMAIN_MAX_CALLS {
        p := Block(L.ExternalCallBudgetExhausted);
        return;
      }
      if row.callsUsed >= L.CASE_MAX_CALLS {
        p := Block(L.ExternalCallBudgetExhausted);
        return;
      }
      var remaining := Min(L.DOMAIN_MAX_TOKENS - (state.inputTokens + state.outputTokens),
                           L.CASE_MAX_TOKENS - row.inputTokens - row.outputTokens);
      if remaining <= 0 {
        p := Block(L.TokenBudgetExhausted);
        return;
      }
      var maxTokens := L.GrantedTokens(request, profile, remaining);
      if maxTokens <= 0 {
        p := Block(L.TokenBudgetExhausted);
        return;
      }
      state.callsUsed := state.callsUsed + 1;
      row.callsUsed := row.callsUsed + 1;
      var prepared := L.Prepared(request, profile, maxTokens);
      p := Ready(prepared);
      assert state.Uses() == old(state.Uses())[caseId := row.Use()];
    }

    /** The additions of `_settle`, to the shared totals and to the case's row. */
    method Charge(usage: TokenUsage, latency: nat)
      requires state.Valid() && caseId in state.cases
      modifies state`inputTokens, state`outputTokens, state`latencyMs, state.cases[caseId]
      ensures state.View() == L.Charge(old(state.View()), caseId, usage, latency)
    {
      var row := state.cases[caseId];
      state.inputTokens := state.inputTokens + usage.inputTokens;
      state.outputTokens := state.outputTokens + usage.outputTokens;
      state.latencyMs := state.latencyMs + latency;
      row.Add(usage, latency);
      assert state.Uses() == old(state.Uses())[caseId := row.Use()];
    }

    method Settle(response: ChatResponse, latency: nat) returns (blocked: Option<L.FailureCode>)
      requires state.Valid() && caseId in state.cases
      modifies state, state.cases[caseId]
      ensures state.Valid() && state.cases == old(state.cases)
      ensures (state.View(), blocked) == L.Settle(old(state.View()), caseId, profile, response.usage, latency)
    {
      Charge(response.usage, latency);
      var row := state.cases[caseId];
      assert state.View().cases[caseId] == row.Use();
      blocked := None;
      if response.usage.outputTokens > L.OutputCap(profile)
         || state.inputTokens + state.outputTokens > L.DOMAIN_MAX_TOKENS
         || row.inputTokens + row.outputTokens > L.CASE_MAX_TOKENS
      {
        var _ := Block(L.TokenBudgetExhausted);
        blocked := Some(L.TokenBudgetExhausted);
      }
    }

    /** Notes a call of the inner provider in the ghost trace. */
    ghost method Note(c: L.InnerCall)
      modifies state`inner
      ensures state.View() == L.Deliver(old(state.View()), c)
    {
      state.inner := state.inner + [c];
      assert state.Uses() == old(state.Uses());
    }

    /** An error is an outcome; nothing else leaves the wrapper. */
    method Chat(request: ChatRequest) returns (outcome: L.ChatOutcome)
      requires state.Valid() && caseId in state.cases
      modifies state, state.cases[caseId]
      ensures state.Valid() && state.cases == old(state.cases)
      ensures (state.View(), outcome) == L.Chat(provider, old(state.View()), caseId, profile, request)
    {
      var made := state.callsUsed;
      ghost var remaining := L.Remaining(state.View(), caseId);
      var p := Reserve(request);
      if p.Stopped? {
        return L.Blocked(p.failure);
      }
      var reply := provider(made, p.request);
      Note(L.InnerCall(caseId, p.request, remaining, L.OutputCap(profile)));
      outcome := Conclude(reply);
    }

    method Conclude(reply: L.Reply) returns (outcome: L.ChatOutcome)
      requires state.Valid() && caseId in state.cases
      modifies state, state.cases[caseId]
      ensures state.Valid() && state.cases == old(state.cases)
      ensures (state.View(), outcome) == L.Conclude(old(state.View()), caseId, profile, reply)
    {
      match reply.answer
      case Fault(code, classified) =>
        state.StopProvider(classified, Some(code));
        outcome := L.Raised;
      case Unexpected =>
        state.StopProvider(L.ProviderErrorUnknown, Some("unexpected_sdk_error"));
        outcome := L.Raised;
      case NotAResponse =>
        var _ := Block(L.ProviderResponseInvalid);
        outcome := L.Blocked(L.ProviderResponseInvalid);
      case Response(r) =>
        if r.provider != L.PROVIDER_ID || r.model != L.MODEL {
          var _ := Block(L.ProviderResponseInvalid);
          outcome := L.Blocked(L.ProviderResponseInvalid);
        } else {
          var blocked := Settle(r, L.Latency(reply.elapsed));
          outcome := if blocked.Some? then L.Blocked(blocked.value) else L.Returned(r);
        }
    }
  }
}
