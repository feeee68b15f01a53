/**
 How the sections of a context are put together (ContextBuilderV1.build, the two section
 builders and _insert_knowledge_sections in app/agent/context.py), and what knowledge,
 memory and meta sections cannot do to the sections that were there before them.
 */
module ContextAssembly {
  import opened Prelude
  import opened ProviderModels
  import opened ContextSizer
  import opened ContextSelection

  // ----- insertion -----

  /** `extra` put before position k. */
  function Inserted(base: seq<ContextSection>, k: nat, extra: seq<ContextSection>): seq<ContextSection>
    requires k <= |base|
  {
    base[..k] + extra + base[k..]
  }

  /** Where the i-th base section stands after m sections were put before position k. */
  function Moved(k: nat, m: nat, i: nat): nat {
    if i < k then i else i + m
  }

  function MovedSet(k: nat, m: nat, chosen: set<nat>): set<nat> {
    set i | i in chosen :: Moved(k, m, i)
  }

  function MovedOrder(k: nat, m: nat, order: seq<nat>): (r: seq<nat>)
    ensures |r| == |order| && forall a :: 0 <= a < |r| ==> r[a] == Moved(k, m, order[a])
  {
    seq(|order|, a requires 0 <= a < |order| => Moved(k, m, order[a]))
  }

  predicate AllOptional(sections: seq<ContextSection>) {
    forall i :: 0 <= i < |sections| ==> !sections[i].required
  }

  /** Every optional base section is tried before every extra one. */
  predicate LowerPriority(base: seq<ContextSection>, extra: seq<ContextSection>) {
    forall i, j :: 0 <= i < |base| && 0 <= j < |extra| && !base[i].required ==> extra[j].priority < base[i].priority
  }

  lemma {:induction false} InMovedSet(k: nat, m: nat, chosen: set<nat>, i: nat)
    ensures Moved(k, m, i) in MovedSet(k, m, chosen) <==> i in chosen
  {
    if Moved(k, m, i) in MovedSet(k, m, chosen) {
      var j: nat :| j in chosen && Moved(k, m, j) == Moved(k, m, i);
    }
  }

  /** Choosing the moved sections picks what was picked before the insertion. */
  lemma {:induction false} PickInserted(base: seq<ContextSection>, k: nat, extra: seq<ContextSection>, chosen: set<nat>)
    requires k <= |base|
    ensures Pick(Inserted(base, k, extra), MovedSet(k, |extra|, chosen)) == Pick(base, chosen)
  {
    var whole := Inserted(base, k, extra);
    var moved := MovedSet(k, |extra|, chosen);
    if k < |base| {
      var n := |base| - 1;
      assert whole[..|whole| - 1] == Inserted(base[..n], k, extra);
      PickInserted(base[..n], k, extra, chosen);
      InMovedSet(k, |extra|, chosen, n);
      PickLast(whole, moved);
      PickLast(base, chosen);
    } else {
      assert whole == base + extra;
      PickNoneOf(base, extra, moved);
      forall i: nat | i < |base| ensures i in moved <==> i in chosen {
        InMovedSet(k, |extra|, chosen, i);
      }
      SamePick(base, moved, chosen);
    }
  }

  lemma {:induction false} PickNoneOf(base: seq<ContextSection>, extra: seq<ContextSection>, chosen: set<nat>)
    requires forall i: nat :: |base| <= i < |base| + |extra| ==> i !in chosen
    ensures Pick(base + extra, chosen) == Pick(base, chosen)
  {
    var whole := base + extra;
    if extra == [] {
      assert whole == base;
    } else {
      assert whole[..|whole| - 1] == base + extra[..|extra| - 1];
      PickNoneOf(base, extra[..|extra| - 1], chosen);
      PickLast(whole, chosen);
    }
  }

  lemma {:induction false} PickLast(sections: seq<ContextSection>, chosen: set<nat>)
    requires sections != []
    ensures var n := |sections| - 1;
      Pick(sections, chosen) == Pick(sections[..n], chosen) + if n in chosen then [sections[n]] else []
  {
  }

  lemma {:induction false} SamePick(sections: seq<ContextSection>, a: set<nat>, b: set<nat>)
    requires forall i: nat :: i < |sections| ==> (i in a <==> i in b)
    ensures Pick(sections, a) == Pick(sections, b)
  {
    if sections != [] {
      SamePick(sections[..|sections| - 1], a, b);
    }
  }

  lemma {:induction false} EstimateInserted(sizer: Sizer, base: seq<ContextSection>, k: nat,
                                            extra: seq<ContextSection>, chosen: set<nat>)
    requires k <= |base|
    ensures Estimate(sizer, Inserted(base, k, extra), MovedSet(k, |extra|, chosen)) == Estimate(sizer, base, chosen)
  {
    PickInserted(base, k, extra, chosen);
  }

  lemma {:induction false} RequiredInserted(base: seq<ContextSection>, k: nat, extra: seq<ContextSection>)
    requires k <= |base| && AllOptional(extra)
    ensures RequiredIndices(Inserted(base, k, extra)) == MovedSet(k, |extra|, RequiredIndices(base))
  {
    var whole, m := Inserted(base, k, extra), |extra|;
    forall i: nat ensures i in RequiredIndices(whole) <==> i in MovedSet(k, m, RequiredIndices(base)) {
      if i < k {
        InMovedSet(k, m, RequiredIndices(base), i);
        assert i < |base| ==> whole[i] == base[i];
      } else if k + m <= i {
        InMovedSet(k, m, RequiredIndices(base), i - m);
        assert i < |whole| ==> whole[i] == base[i - m];
      } else {
        assert i < |whole| ==> whole[i] == extra[i - k];
      }
    }
  }

  /** Optional sections never decide whether a context fits at all. */
  lemma {:induction false} OptionalNeverExceeds(sizer: Sizer, base: seq<ContextSection>, k: nat,
                                                extra: seq<ContextSection>, limit: int)
    requires k <= |base| && AllOptional(extra)
    ensures Select(sizer, Inserted(base, k, extra), limit).BudgetExceeded? <==> Select(sizer, base, limit).BudgetExceeded?
  {
    RequiredInserted(base, k, extra);
    EstimateInserted(sizer, base, k, extra, RequiredIndices(base));
  }

  // ----- lower priorities never displace -----

  /** Two strictly sorted orders of the same indices are the same order. */
  lemma {:induction false} SortedUnique(sections: seq<ContextSection>, a: seq<nat>, b: seq<nat>)
    requires Sorted(sections, a) && Sorted(sections, b) && forall i: nat :: i in a <==> i in b
    ensures a == b
  {
    assert a != [] ==> a[0] in b;
    assert b != [] ==> b[0] in a;
    if a != [] {
      HeadsAgree(sections, a, b);
      forall i: nat ensures i in a[1..] <==> i in b[1..] {
        InTail(sections, a, i);
        InTail(sections, b, i);
      }
      SortedUnique(sections, a[1..], b[1..]);
      assert a == [a[0]] + a[1..] && b == [b[0]] + b[1..];
    }
  }

  lemma {:induction false} HeadsAgree(sections: seq<ContextSection>, a: seq<nat>, b: seq<nat>)
    requires a != [] && b != [] && Sorted(sections, a) && Sorted(sections, b) && forall i: nat :: i in a <==> i in b
    ensures a[0] == b[0]
  {
    assert a[0] in b && b[0] in a;
    assert forall x :: 0 < x < |b| ==> Before(sections, b[0], b[x]);
    assert forall y :: 0 < y < |a| ==> Before(sections, a[0], a[y]);
  }

  lemma {:induction false} InTail(sections: seq<ContextSection>, order: seq<nat>, i: nat)
    requires order != [] && Sorted(sections, order)
    ensures i in order[1..] <==> i in order && i != order[0]
  {
    if i in order[1..] {
      var x :| 0 <= x < |order[1..]| && order[1..][x] == i;
      assert order[x + 1] == i && Before(sections, order[0], order[x + 1]);
    }
    if i in order && i != order[0] {
      var x :| 0 <= x < |order| && order[x] == i;
      assert order[1..][x - 1] == i;
    }
  }

  /** The extra sections' indices, in trial order. */
  function ExtraOrder(base: seq<ContextSection>, k: nat, extra: seq<ContextSection>): seq<nat>
    requires k <= |base|
  {
    var whole := Inserted(base, k, extra);
    Keep(TrialOrder(whole, |whole|), i => k <= i < k + |extra|)
  }

  function Keep(order: seq<nat>, p: nat -> bool): (r: seq<nat>)
    ensures forall i: nat :: i in r <==> i in order && p(i)
  {
    if order == [] then [] else if p(order[0]) then [order[0]] + Keep(order[1..], p) else Keep(order[1..], p)
  }

  lemma {:induction false} KeepSorted(sections: seq<ContextSection>, order: seq<nat>, p: nat -> bool)
    requires Sorted(sections, order)
    ensures Sorted(sections, Keep(order, p))
  {
    if order != [] {
      KeepSorted(sections, order[1..], p);
      var rest := Keep(order[1..], p);
      forall b | 0 <= b < |rest| ensures Before(sections, order[0], rest[b]) {
        assert rest[b] in order[1..];
        var x :| 0 <= x < |order[1..]| && order[1..][x] == rest[b];
        assert order[x + 1] == rest[b];
      }
    }
  }

  /** The trial order of the whole: the base's own, moved, then the extra ones. */
  lemma {:induction false} TrialOrderInserted(base: seq<ContextSection>, k: nat, extra: seq<ContextSection>)
    requires k <= |base| && AllOptional(extra) && LowerPriority(base, extra)
    ensures var whole := Inserted(base, k, extra);
      TrialOrder(whole, |whole|) == MovedOrder(k, |extra|, TrialOrder(base, |base|)) + ExtraOrder(base, k, extra)
  {
    var whole := Inserted(base, k, extra);
    TrialOrderSorted(whole, |whole|);
    TrialOrderSorted(base, |base|);
    KeepSorted(whole, TrialOrder(whole, |whole|), i => k <= i < k + |extra|);
    OrdersAgree(base, k, extra, TrialOrder(base, |base|), ExtraOrder(base, k, extra), TrialOrder(whole, |whole|));
  }

  lemma {:induction false} OrdersAgree(base: seq<ContextSection>, k: nat, extra: seq<ContextSection>,
                                       order: seq<nat>, back: seq<nat>, all: seq<nat>)
    requires k <= |base| && AllOptional(extra) && LowerPriority(base, extra)
    requires Sorted(base, order) && forall i: nat :: i in order <==> i < |base| && !base[i].required
    requires Sorted(Inserted(base, k, extra), back) && forall i: nat :: i in back <==> i in all && k <= i < k + |extra|
    requires Sorted(Inserted(base, k, extra), all)
    requires forall i: nat :: i in all <==> i < |base| + |extra| && !Inserted(base, k, extra)[i].required
    ensures all == MovedOrder(k, |extra|, order) + back
  {
    var front := MovedOrder(k, |extra|, order);
    JoinedSorted(base, k, extra, order, back);
    forall i: nat ensures i in front + back <==> i in all {
      InMovedOrder(k, |extra|, order, i);
    }
    SortedUnique(Inserted(base, k, extra), all, front + back);
  }

  lemma {:induction false} InMovedOrder(k: nat, m: nat, order: seq<nat>, i: nat)
    ensures i in MovedOrder(k, m, order) <==> (i < k && i in order) || (k + m <= i && i - m in order)
  {
    var moved := MovedOrder(k, m, order);
    if i in moved {
      var a :| 0 <= a < |moved| && moved[a] == i;
      assert order[a] in order;
    }
    if i < k && i in order {
      var a :| 0 <= a < |order| && order[a] == i;
      assert moved[a] == i;
    }
    if k + m <= i && i - m in order {
      var a :| 0 <= a < |order| && order[a] == i - m;
      assert moved[a] == i;
    }
  }

  lemma {:induction false} JoinedSorted(base: seq<ContextSection>, k: nat, extra: seq<ContextSection>,
                                        order: seq<nat>, back: seq<nat>)
    requires k <= |base| && LowerPriority(base, extra) && Sorted(base, order)
    requires forall i: nat :: i in order ==> i < |base| && !base[i].required
    requires Sorted(Inserted(base, k, extra), back) && forall j: nat :: j in back ==> k <= j < k + |extra|
    ensures Sorted(Inserted(base, k, extra), MovedOrder(k, |extra|, order) + back)
  {
    var whole, front := Inserted(base, k, extra), MovedOrder(k, |extra|, order);
    forall a, b | 0 <= a < b < |front + back| ensures Before(whole, (front + back)[a], (front + back)[b]) {
      if b < |front| {
        assert Before(base, order[a], order[b]);
      } else if a < |front| {
        assert order[a] in order && back[b - |front|] in back;
        assert whole[front[a]] == base[order[a]] && whole[back[b - |front|]] == extra[back[b - |front|] - k];
      } else {
        assert Before(whole, back[a - |front|], back[b - |front|]);
      }
    }
  }

  lemma {:induction false} GreedyConcat(sizer: Sizer, sections: seq<ContextSection>, limit: int, a: seq<nat>,
                                        b: seq<nat>, chosen: set<nat>)
    ensures Greedy(sizer, sections, limit, a + b, chosen)
         == Greedy(sizer, sections, limit, b, Greedy(sizer, sections, limit, a, chosen))
  {
    if a == [] {
      assert a + b == b;
    } else {
      assert (a + b)[1..] == a[1..] + b;
      GreedyConcat(sizer, sections, limit, a[1..], b,
                   if Fits(sizer, sections, limit, chosen + {a[0]}) then chosen + {a[0]} else chosen);
    }
  }

  /** The greedy pass over the moved order chooses what it chose before the insertion. */
  lemma {:induction false} GreedyInserted(sizer: Sizer, base: seq<ContextSection>, k: nat,
                                          extra: seq<ContextSection>, limit: int,
                                          order: seq<nat>, chosen: set<nat>)
    requires k <= |base|
    ensures Greedy(sizer, Inserted(base, k, extra), limit, MovedOrder(k, |extra|, order), MovedSet(k, |extra|, chosen))
         == MovedSet(k, |extra|, Greedy(sizer, base, limit, order, chosen))
  {
    if order != [] {
      var m, i := |extra|, order[0];
      assert MovedOrder(k, m, order)[1..] == MovedOrder(k, m, order[1..]);
      assert MovedSet(k, m, chosen + {i}) == MovedSet(k, m, chosen) + {Moved(k, m, i)} by {
        forall j: nat ensures j in MovedSet(k, m, chosen + {i}) <==> j in MovedSet(k, m, chosen) + {Moved(k, m, i)} {
        }
      }
      EstimateInserted(sizer, base, k, extra, chosen + {i});
      GreedyInserted(sizer, base, k, extra, limit, order[1..],
                     if Fits(sizer, base, limit, chosen + {i}) then chosen + {i} else chosen);
    }
  }

  /**
   Optional sections of lower priority, put anywhere, change nothing about which of the
   sections already there are chosen.
   */
  lemma {:induction false} LowerPriorityNeverDisplaces(sizer: Sizer, base: seq<ContextSection>, k: nat,
                                                       extra: seq<ContextSection>, limit: int, i: nat)
    requires k <= |base| && AllOptional(extra) && LowerPriority(base, extra) && i < |base|
    requires Fits(sizer, base, limit, RequiredIndices(base))
    ensures Moved(k, |extra|, i) in Choice(sizer, Inserted(base, k, extra), limit) <==> i in Choice(sizer, base, limit)
  {
    var whole, m := Inserted(base, k, extra), |extra|;
    var order, back := TrialOrder(base, |base|), ExtraOrder(base, k, extra);
    RequiredInserted(base, k, extra);
    TrialOrderInserted(base, k, extra);
    GreedyConcat(sizer, whole, limit, MovedOrder(k, m, order), back, RequiredIndices(whole));
    GreedyInserted(sizer, base, k, extra, limit, order, RequiredIndices(base));
    var kept := Choice(sizer, base, limit);
    GreedyBounds(sizer, base, limit, order, RequiredIndices(base));
    EstimateInserted(sizer, base, k, extra, kept);
    GreedyBounds(sizer, whole, limit, back, MovedSet(k, m, kept));
    InMovedSet(k, m, kept, i);
    assert Moved(k, m, i) !in back;
  }
}
