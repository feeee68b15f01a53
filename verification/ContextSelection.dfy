/**
 Greedy selection of context sections under a token ceiling
 (ContextBuilderV1._select_sections and the checks of ContextBundle).
 */
module ContextSelection {
  import opened Prelude
  import opened ProviderModels
  import opened ContextSizer

  type Sizer = seq<ChatMessage> -> int

  // ----- index sets -----

  function Below(n: nat): (r: set<nat>)
    ensures forall i: nat :: i in r <==> i < n
  {
    if n == 0 then {} else Below(n - 1) + {n - 1}
  }

  function Indices(sections: seq<ContextSection>): set<nat> {
    Below(|sections|)
  }

  function RequiredIndices(sections: seq<ContextSection>): set<nat> {
    set i: nat | i < |sections| && sections[i].required :: i
  }

  /** The sections at the given indices, in source order. */
  function Pick(sections: seq<ContextSection>, chosen: set<nat>): seq<ContextSection> {
    if sections == [] then []
    else
      var n := |sections| - 1;
      Pick(sections[..n], chosen) + if n in chosen then [sections[n]] else []
  }

  function Ids(sections: seq<ContextSection>): seq<string> {
    seq(|sections|, i requires 0 <= i < |sections| => sections[i].sectionId)
  }

  function Estimate(sizer: Sizer, sections: seq<ContextSection>, chosen: set<nat>): int {
    sizer(RenderMessages(Pick(sections, chosen)))
  }

  // ----- the order in which optional sections are tried -----

  /** sorted(..., key=(-priority, index)) */
  predicate Before(sections: seq<ContextSection>, i: nat, j: nat) {
    && i < |sections| && j < |sections|
    && (sections[i].priority > sections[j].priority || (sections[i].priority == sections[j].priority && i < j))
  }

  predicate Sorted(sections: seq<ContextSection>, order: seq<nat>) {
    forall a, b :: 0 <= a < b < |order| ==> Before(sections, order[a], order[b])
  }

  function Elements(order: seq<nat>): set<nat> {
    set i | i in order
  }

  function Insert(sections: seq<ContextSection>, order: seq<nat>, i: nat): (r: seq<nat>)
    ensures forall j: nat :: j in r <==> j == i || j in order
  {
    if order == [] then [i]
    else if Before(sections, i, order[0]) then [i] + order
    else [order[0]] + Insert(sections, order[1..], i)
  }

  /** The optional sections among the first n, in trial order. */
  function TrialOrder(sections: seq<ContextSection>, n: nat): (r: seq<nat>)
    requires n <= |sections|
    ensures forall i: nat :: i in r <==> i < n && !sections[i].required
  {
    if n == 0 then []
    else if sections[n - 1].required then TrialOrder(sections, n - 1)
    else Insert(sections, TrialOrder(sections, n - 1), n - 1)
  }

  lemma {:induction false} InsertSorted(sections: seq<ContextSection>, order: seq<nat>, i: nat)
    requires Sorted(sections, order) && i < |sections| && i !in order
    requires forall j: nat :: j in order ==> j < |sections|
    ensures Sorted(sections, Insert(sections, order, i))
  {
    if order != [] && !Before(sections, i, order[0]) {
      assert order == [order[0]] + order[1..];
      assert order[0] in order;
      InsertSorted(sections, order[1..], i);
      var rest := Insert(sections, order[1..], i);
      forall b | 0 <= b < |rest| ensures Before(sections, order[0], rest[b]) {
        assert rest[b] in rest;
      }
    }
  }

  /** The trial order is the optional indices by descending priority, then source position. */
  lemma {:induction false} TrialOrderSorted(sections: seq<ContextSection>, n: nat)
    requires n <= |sections|
    ensures Sorted(sections, TrialOrder(sections, n))
  {
    if n > 0 {
      TrialOrderSorted(sections, n - 1);
      if !sections[n - 1].required {
        InsertSorted(sections, TrialOrder(sections, n - 1), n - 1);
      }
    }
  }

  // ----- the greedy pass -----

  predicate Fits(sizer: Sizer, sections: seq<ContextSection>, limit: int, chosen: set<nat>) {
    Estimate(sizer, sections, chosen) <= limit
  }

  function Greedy(sizer: Sizer, sections: seq<ContextSection>, limit: int, order: seq<nat>, chosen: set<nat>): set<nat> {
    if order == [] then chosen
    else Greedy(sizer, sections, limit, order[1..],
                if Fits(sizer, sections, limit, chosen + {order[0]}) then chosen + {order[0]} else chosen)
  }

  datatype Selection =
    | BudgetExceeded
    | Selected(sections: seq<ContextSection>, messages: seq<ChatMessage>, estimate: int, omitted: seq<string>)

  function Choice(sizer: Sizer, sections: seq<ContextSection>, limit: int): set<nat> {
    Greedy(sizer, sections, limit, TrialOrder(sections, |sections|), RequiredIndices(sections))
  }

  function Select(sizer: Sizer, sections: seq<ContextSection>, limit: int): Selection {
    if !Fits(sizer, sections, limit, RequiredIndices(sections)) then BudgetExceeded
    else
      var chosen := Choice(sizer, sections, limit);
      var selected := Pick(sections, chosen);
      var messages := RenderMessages(selected);
      Selected(selected, messages, sizer(messages), Ids(Pick(sections, Indices(sections) - chosen)))
  }

  /** `_select_sections`: the set of selected indexes grows in a loop. */
  method SelectSections(sizer: Sizer, sections: seq<ContextSection>, limit: int) returns (r: Selection)
    ensures r == Select(sizer, sections, limit)
  {
    var selectedIndexes := RequiredIndices(sections);
    if sizer(RenderMessages(Pick(sections, selectedIndexes))) > limit {
      return BudgetExceeded;
    }
    var optional := TrialOrder(sections, |sections|);
    for k := 0 to |optional|
      invariant Greedy(sizer, sections, limit, optional[k..], selectedIndexes) == Choice(sizer, sections, limit)
    {
      assert optional[k..][0] == optional[k] && optional[k..][1..] == optional[k + 1..];
      var tentative := selectedIndexes + {optional[k]};
      if sizer(RenderMessages(Pick(sections, tentative))) <= limit {
        selectedIndexes := tentative;
      }
    }
    var selected := Pick(sections, selectedIndexes);
    var omitted := Ids(Pick(sections, Indices(sections) - selectedIndexes));
    var messages := RenderMessages(selected);
    r := Selected(selected, messages, sizer(messages), omitted);
  }

  // ----- optimality -----

  /** Adding sections never lowers the estimate. */
  ghost predicate MonotoneOn(sizer: Sizer, sections: seq<ContextSection>) {
    forall s: set<nat>, t: set<nat> {:trigger Estimate(sizer, sections, s), Estimate(sizer, sections, t)} ::
      s <= t ==> Estimate(sizer, sections, s) <= Estimate(sizer, sections, t)
  }

  /** Every required section, and within the ceiling. */
  predicate Feasible(sizer: Sizer, sections: seq<ContextSection>, limit: int, s: set<nat>) {
    RequiredIndices(sections) <= s <= Indices(sections) && Fits(sizer, sections, limit, s)
  }

  /** The inclusion vector of s along the order is lexicographically at least that of t. */
  predicate LexAtLeast(order: seq<nat>, s: set<nat>, t: set<nat>) {
    order == []
    || (order[0] in s && order[0] !in t)
    || ((order[0] in s <==> order[0] in t) && LexAtLeast(order[1..], s, t))
  }

  lemma {:induction false} GreedyBounds(sizer: Sizer, sections: seq<ContextSection>, limit: int, order: seq<nat>,
                                        chosen: set<nat>)
    requires Fits(sizer, sections, limit, chosen)
    ensures var g := Greedy(sizer, sections, limit, order, chosen);
      chosen <= g <= chosen + Elements(order) && Fits(sizer, sections, limit, g)
  {
    if order != [] {
      var next := if Fits(sizer, sections, limit, chosen + {order[0]}) then chosen + {order[0]} else chosen;
      GreedyBounds(sizer, sections, limit, order[1..], next);
      assert order == [order[0]] + order[1..];
    }
  }

  lemma {:induction false} MonotoneUse(sizer: Sizer, sections: seq<ContextSection>, s: set<nat>, t: set<nat>)
    requires MonotoneOn(sizer, sections)
    ensures s <= t ==> Estimate(sizer, sections, s) <= Estimate(sizer, sections, t)
  {
  }

  lemma {:induction false} GreedyLex(sizer: Sizer, sections: seq<ContextSection>, limit: int, order: seq<nat>,
                                     chosen: set<nat>, s: set<nat>)
    requires MonotoneOn(sizer, sections) && Distinct(order)
    requires Fits(sizer, sections, limit, chosen) && Fits(sizer, sections, limit, s)
    requires chosen !! Elements(order) && s - Elements(order) == chosen
    ensures LexAtLeast(order, Greedy(sizer, sections, limit, order, chosen), s)
  {
    if order != [] {
      var i, rest := order[0], order[1..];
      assert order == [i] + rest && i !in rest;
      assert i !in Elements(rest);
      assert Elements(order) == {i} + Elements(rest);
      var with := chosen + {i};
      MonotoneUse(sizer, sections, with, s);
      assert Distinct(rest) by {
        forall a, b | 0 <= a < b < |rest| ensures rest[a] != rest[b] {
          assert rest[a] == order[a + 1] && rest[b] == order[b + 1];
        }
      }
      if Fits(sizer, sections, limit, with) {
        GreedyBounds(sizer, sections, limit, rest, with);
        if i in s {
          assert s - Elements(rest) == with;
          GreedyLex(sizer, sections, limit, rest, with, s);
        }
      } else {
        assert i !in s;
        assert s - Elements(rest) == chosen;
        GreedyBounds(sizer, sections, limit, rest, chosen);
        GreedyLex(sizer, sections, limit, rest, chosen, s);
      }
    }
  }

  /** Vectors that each dominate the other agree along the whole order. */
  lemma {:induction false} LexAntisymmetric(order: seq<nat>, s: set<nat>, t: set<nat>)
    requires LexAtLeast(order, s, t) && LexAtLeast(order, t, s)
    ensures forall k :: 0 <= k < |order| ==> (order[k] in s <==> order[k] in t)
  {
    if order != [] {
      LexAntisymmetric(order[1..], s, t);
      assert order == [order[0]] + order[1..];
    }
  }

  /** A superset along the order dominates. */
  lemma {:induction false} LexSuperset(order: seq<nat>, s: set<nat>, t: set<nat>)
    requires t <= s
    ensures LexAtLeast(order, s, t)
  {
    if order != [] {
      LexSuperset(order[1..], s, t);
    }
  }

  lemma {:induction false} SortedDistinct(sections: seq<ContextSection>, order: seq<nat>)
    requires Sorted(sections, order)
    ensures Distinct(order)
  {
    forall a, b | 0 <= a < b < |order| ensures order[a] != order[b] {
      assert Before(sections, order[a], order[b]);
    }
  }

  /**
   Optimality. When the required sections fit, the choice is feasible, and along
   (-priority, position) its inclusion vector is the greatest of all feasible sets; it is
   the only feasible set with that vector.
   */
  lemma {:induction false} ChoiceIsOptimal(sizer: Sizer, sections: seq<ContextSection>, limit: int, s: set<nat>)
    requires MonotoneOn(sizer, sections) && Feasible(sizer, sections, limit, RequiredIndices(sections))
    requires Feasible(sizer, sections, limit, s)
    ensures var g := Choice(sizer, sections, limit); var order := TrialOrder(sections, |sections|);
      && Feasible(sizer, sections, limit, g)
      && LexAtLeast(order, g, s)
      && (LexAtLeast(order, s, g) ==> s == g)
  {
    var order, required := TrialOrder(sections, |sections|), RequiredIndices(sections);
    TrialOrderSorted(sections, |sections|);
    SortedDistinct(sections, order);
    OptionalComplement(sections, s);
    GreedyBounds(sizer, sections, limit, order, required);
    GreedyLex(sizer, sections, limit, order, required, s);
    if LexAtLeast(order, s, Choice(sizer, sections, limit)) {
      LexAntisymmetric(order, s, Choice(sizer, sections, limit));
      AgreementDecides(sections, s, Choice(sizer, sections, limit));
    }
  }

  lemma {:induction false} OptionalComplement(sections: seq<ContextSection>, s: set<nat>)
    requires RequiredIndices(sections) <= s <= Indices(sections)
    ensures var optional := Elements(TrialOrder(sections, |sections|));
      && RequiredIndices(sections) !! optional && s - optional == RequiredIndices(sections)
      && RequiredIndices(sections) + optional == Indices(sections)
  {
    var optional := Elements(TrialOrder(sections, |sections|));
    forall i: nat ensures i in optional <==> i < |sections| && i !in RequiredIndices(sections) {
      assert i in optional <==> i in TrialOrder(sections, |sections|);
    }
  }

  lemma {:induction false} AgreementDecides(sections: seq<ContextSection>, s: set<nat>, t: set<nat>)
    requires RequiredIndices(sections) <= s <= Indices(sections) && RequiredIndices(sections) <= t <= Indices(sections)
    requires var order := TrialOrder(sections, |sections|);
      forall k :: 0 <= k < |order| ==> (order[k] in s <==> order[k] in t)
    ensures s == t
  {
    OptionalComplement(sections, s);
    OptionalComplement(sections, t);
    forall i: nat ensures i in s <==> i in t {
      if i in Elements(TrialOrder(sections, |sections|)) {
        var k :| 0 <= k < |TrialOrder(sections, |sections|)| && TrialOrder(sections, |sections|)[k] == i;
      }
    }
  }

  lemma {:induction false} FeasibleSupersetIsChoice(sizer: Sizer, sections: seq<ContextSection>, limit: int, s: set<nat>)
    requires MonotoneOn(sizer, sections) && Feasible(sizer, sections, limit, RequiredIndices(sections))
    requires Feasible(sizer, sections, limit, s) && Choice(sizer, sections, limit) <= s
    ensures s == Choice(sizer, sections, limit)
  {
    LexSuperset(TrialOrder(sections, |sections|), s, Choice(sizer, sections, limit));
    ChoiceIsOptimal(sizer, sections, limit, s);
  }

  /** No set of omitted sections can be added and still fit. */
  lemma {:induction false} ChoiceIsMaximal(sizer: Sizer, sections: seq<ContextSection>, limit: int, extra: set<nat>)
    requires MonotoneOn(sizer, sections) && Feasible(sizer, sections, limit, RequiredIndices(sections))
    requires extra != {} && extra <= Indices(sections) - Choice(sizer, sections, limit)
    ensures !Fits(sizer, sections, limit, Choice(sizer, sections, limit) + extra)
  {
    var g := Choice(sizer, sections, limit);
    var i :| i in extra;
    assert i in g + extra && i !in g;
    ChoiceIsOptimal(sizer, sections, limit, RequiredIndices(sections));
    if Feasible(sizer, sections, limit, g + extra) {
      FeasibleSupersetIsChoice(sizer, sections, limit, g + extra);
    }
  }

  // ----- the deterministic sizer is monotone -----

  lemma {:induction false} GroupMonotone(sections: seq<ContextSection>, s: set<nat>, t: set<nat>, role: MessageRole,
                                         render: ContextSection -> string, word: bool)
    requires s <= t
    ensures Weight(Texts(Group(Pick(sections, s), role), render), word)
         <= Weight(Texts(Group(Pick(sections, t), role), render), word)
    ensures |Group(Pick(sections, s), role)| <= |Group(Pick(sections, t), role)|
  {
    if sections != [] {
      var n := |sections| - 1;
      GroupMonotone(sections[..n], s, t, role, render, word);
      GroupStep(sections, s, role, render, word);
      GroupStep(sections, t, role, render, word);
    }
  }

  /** What the last section adds to a group: its own text and a separator, if chosen and of that role. */
  lemma {:induction false} GroupStep(sections: seq<ContextSection>, chosen: set<nat>, role: MessageRole,
                  render: ContextSection -> string, word: bool)
    requires sections != []
    ensures var n := |sections| - 1;
      var g, g' := Group(Pick(sections[..n], chosen), role), Group(Pick(sections, chosen), role);
      var added := n in chosen && RoleOf(sections[n].trust) == role;
      && |g'| == |g| + (if added then 1 else 0)
      && Weight(Texts(g', render), word)
         == Weight(Texts(g, render), word)
            + (if added then Embedded(",", word) + Embedded(render(sections[n]), word) else 0)
  {
    var n := |sections| - 1;
    var front := Pick(sections[..n], chosen);
    if n in chosen {
      GroupExtend(front, sections[n], role, render, word);
    } else {
      assert Pick(sections, chosen) == front;
    }
  }

  lemma {:induction false} GroupExtend(items: seq<ContextSection>, last: ContextSection, role: MessageRole,
                    render: ContextSection -> string, word: bool)
    ensures var g, g' := Group(items, role), Group(items + [last], role);
      if RoleOf(last.trust) == role then
        g' == g + [last]
        && Weight(Texts(g', render), word) == Weight(Texts(g, render), word) + Embedded(",", word) + Embedded(render(last), word)
      else g' == g
  {
    GroupAppend(items, last, role);
    TextsExtend(Group(items, role), last, render, word);
  }

  lemma {:induction false} GroupAppend(items: seq<ContextSection>, last: ContextSection, role: MessageRole)
    ensures Group(items + [last], role) == Group(items, role) + if RoleOf(last.trust) == role then [last] else []
  {
    assert (items + [last])[..|items|] == items;
  }

  lemma {:induction false} TextsExtend(items: seq<ContextSection>, last: ContextSection,
                                       render: ContextSection -> string, word: bool)
    ensures Weight(Texts(items + [last], render), word)
         == Weight(Texts(items, render), word) + Embedded(",", word) + Embedded(render(last), word)
  {
    WeightExtend(Texts(items, render), render(last), word);
    assert Texts(items + [last], render) == Texts(items, render) + [render(last)];
  }

  lemma {:induction false} WeightExtend(texts: seq<string>, last: string, word: bool)
    ensures Weight(texts + [last], word) == Weight(texts, word) + Embedded(",", word) + Embedded(last, word)
  {
    assert (texts + [last])[..|texts|] == texts;
  }

  /** Rendering more sections never lowers the deterministic estimate. */
  lemma {:induction false} DeterministicSizerMonotone(sections: seq<ContextSection>)
    ensures MonotoneOn(EstimateMessages, sections)
  {
    forall s: set<nat>, t: set<nat> | s <= t
      ensures Estimate(EstimateMessages, sections, s) <= Estimate(EstimateMessages, sections, t)
    {
      RoleMonotone(sections, s, t, System);
      RoleMonotone(sections, s, t, User);
      EstimateByRole(sections, s);
      EstimateByRole(sections, t);
    }
  }

  function RoleEstimate(sections: seq<ContextSection>, chosen: set<nat>, role: MessageRole): int {
    EstimateMessage(TextMessage(role, GroupContent(Texts(Group(Pick(sections, chosen), role), SectionText))))
  }

  lemma {:induction false} EstimateByRole(sections: seq<ContextSection>, chosen: set<nat>)
    ensures Estimate(EstimateMessages, sections, chosen)
         == RoleEstimate(sections, chosen, System) + RoleEstimate(sections, chosen, User)
  {
    SumOfTwo(RenderMessages(Pick(sections, chosen)), EstimateMessage);
  }

  lemma {:induction false} RoleMonotone(sections: seq<ContextSection>, s: set<nat>, t: set<nat>, role: MessageRole)
    requires s <= t
    ensures RoleEstimate(sections, s, role) <= RoleEstimate(sections, t, role)
  {
    GroupMonotone(sections, s, t, role, SectionText, true);
    GroupMonotone(sections, s, t, role, SectionText, false);
    GroupEstimateMonotone(role, Texts(Group(Pick(sections, s), role), SectionText),
                          Texts(Group(Pick(sections, t), role), SectionText));
  }

  lemma {:induction false} SumOfTwo(messages: seq<ChatMessage>, size: ChatMessage -> int)
    requires |messages| == 2
    ensures SumOver(messages, size) == size(messages[0]) + size(messages[1])
  {
    assert SumOver(messages[1..], size) == size(messages[1]) + SumOver(messages[1..][1..], size);
  }

  // ----- order and partition -----

  /** The chosen indices in ascending order. */
  function Positions(n: nat, chosen: set<nat>): (p: seq<nat>)
    ensures forall k :: 0 <= k < |p| ==> p[k] < n && p[k] in chosen
    ensures forall a, b :: 0 <= a < b < |p| ==> p[a] < p[b]
  {
    if n == 0 then [] else Positions(n - 1, chosen) + if n - 1 in chosen then [n - 1] else []
  }

  lemma {:induction false} PositionsAll(n: nat, chosen: set<nat>, i: nat)
    ensures i in Positions(n, chosen) <==> i in chosen && i < n
  {
    if n > 0 {
      PositionsAll(n - 1, chosen, i);
    }
  }

  lemma {:induction false} PickedAt(sections: seq<ContextSection>, chosen: set<nat>)
    ensures var p := Positions(|sections|, chosen);
      |Pick(sections, chosen)| == |p| && forall k :: 0 <= k < |p| ==> Pick(sections, chosen)[k] == sections[p[k]]
  {
    if sections != [] {
      PickedAt(sections[..|sections| - 1], chosen);
    }
  }

  /** Selected sections are the chosen ones, in source order. */
  lemma {:induction false} PickKeepsOrder(sections: seq<ContextSection>, chosen: set<nat>)
    ensures var p := Positions(|sections|, chosen);
      && |Pick(sections, chosen)| == |p|
      && (forall k :: 0 <= k < |p| ==> Pick(sections, chosen)[k] == sections[p[k]])
      && (forall i: nat :: i in p <==> i in chosen && i < |sections|)
  {
    PickedAt(sections, chosen);
    forall i: nat ensures i in Positions(|sections|, chosen) <==> i in chosen && i < |sections| {
      PositionsAll(|sections|, chosen, i);
    }
  }

  lemma {:induction false} IdsExtend(items: seq<ContextSection>, last: ContextSection)
    ensures Ids(items + [last]) == Ids(items) + [last.sectionId]
  {
  }

  /** Selected and omitted ids together are the input's ids, each as often as it occurs. */
  lemma {:induction false} IdsPartition(sections: seq<ContextSection>, chosen: set<nat>, rest: set<nat>)
    requires forall i: nat :: i < |sections| ==> (i in rest <==> i !in chosen)
    ensures multiset(Ids(Pick(sections, chosen))) + multiset(Ids(Pick(sections, rest))) == multiset(Ids(sections))
  {
    if sections != [] {
      var n := |sections| - 1;
      IdsPartition(sections[..n], chosen, rest);
      IdsExtend(sections[..n], sections[n]);
      assert sections == sections[..n] + [sections[n]];
      IdsExtend(Pick(sections[..n], chosen), sections[n]);
      IdsExtend(Pick(sections[..n], rest), sections[n]);
      assert Pick(sections[..n], chosen) + [] == Pick(sections[..n], chosen);
      assert Pick(sections[..n], rest) + [] == Pick(sections[..n], rest);
    }
  }
}
