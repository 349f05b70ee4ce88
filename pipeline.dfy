/** The deterministic part of the automatic analysis flow: intents ordered by priority and
    truncated, each planned into a cut and executed or recorded as failed, and the
    per-cut execution results merged into one. */
module Pipeline {
  import opened Wrappers
  import opened OrderedDicts
  import opened Specs
  import opened Engine
  import opened Agents
  import opened HighLevelPlanning
  import ToolOutputs

  // ---------------------------------------------------------------------------
  // Priority order

  /** `{"high": 0, "medium": 1, "low": 2}.get(priority, 3)`. */
  function Rank(intent: AnalysisIntent): (r: nat)
    ensures r == 0 <==> intent.priority == TextPriority("high")
    ensures r == 1 <==> intent.priority == TextPriority("medium")
    ensures r == 2 <==> intent.priority == TextPriority("low")
    ensures r == 3 <==> intent.priority !in [TextPriority("high"), TextPriority("medium"), TextPriority("low")]
  {
    match intent.priority
    case TextPriority(s) => if s == "high" then 0 else if s == "medium" then 1 else if s == "low" then 2 else 3
    case IntPriority(_) => 3
  }

  /** The intents of rank `r`, in their original order. */
  function OfRank(intents: seq<AnalysisIntent>, r: nat): (out: seq<AnalysisIntent>)
    ensures |out| <= |intents|
    decreases |intents|
  {
    if intents == [] then []
    else
      var last := intents[|intents| - 1];
      OfRank(intents[..|intents| - 1], r) + if Rank(last) == r then [last] else []
  }

  /** The groups of rank `k` and above, lowest rank first, each in input order. */
  function GroupsFrom(intents: seq<AnalysisIntent>, k: nat): seq<AnalysisIntent>
    decreases 4 - k
  {
    if k > 3 then [] else OfRank(intents, k) + GroupsFrom(intents, k + 1)
  }

  /** `sorted(intents, key=rank)`: Python's sort is stable, so it is the high intents, then
      the medium, then the low, then the rest, each group in input order. */
  function SortByPriority(intents: seq<AnalysisIntent>): seq<AnalysisIntent> {
    GroupsFrom(intents, 0)
  }

  ghost predicate SortedByRank(intents: seq<AnalysisIntent>) {
    forall i, j :: 0 <= i < j < |intents| ==> Rank(intents[i]) <= Rank(intents[j])
  }

  ghost predicate RanksAtLeast(intents: seq<AnalysisIntent>, k: nat) {
    forall i :: 0 <= i < |intents| ==> Rank(intents[i]) >= k
  }

  ghost predicate RanksAtMost(intents: seq<AnalysisIntent>, k: nat) {
    forall i :: 0 <= i < |intents| ==> Rank(intents[i]) <= k
  }

  // Facts about one group

  /** Filtering a list with one more intent at its end. */
  lemma OfRankSnoc(init: seq<AnalysisIntent>, last: AnalysisIntent, r: nat)
    ensures OfRank(init + [last], r) == OfRank(init, r) + if Rank(last) == r then [last] else []
  {
    assert (init + [last])[..|init|] == init;
  }

  lemma {:induction false} OfRankConcat(a: seq<AnalysisIntent>, b: seq<AnalysisIntent>, r: nat)
    ensures OfRank(a + b, r) == OfRank(a, r) + OfRank(b, r)
    decreases |b|
  {
    if b == [] {
      assert a + b == a;
    } else {
      var init, last := b[..|b| - 1], b[|b| - 1];
      assert a + b == (a + init) + [last];
      assert b == init + [last];
      OfRankConcat(a, init, r);
      OfRankSnoc(a + init, last, r);
      OfRankSnoc(init, last, r);
    }
  }

  /** Filtering a sequence whose ranks are all `q`. */
  lemma {:induction false} OfRankUniform(intents: seq<AnalysisIntent>, q: nat, r: nat)
    requires forall i :: 0 <= i < |intents| ==> Rank(intents[i]) == q
    ensures OfRank(intents, r) == if q == r then intents else []
    decreases |intents|
  {
    if intents != [] {
      OfRankUniform(intents[..|intents| - 1], q, r);
    }
  }

  /** Filtering a rank group by its own rank leaves it unchanged. */
  lemma {:induction false} OfRankSame(intents: seq<AnalysisIntent>, q: nat)
    ensures OfRank(OfRank(intents, q), q) == OfRank(intents, q)
    decreases |intents|
  {
    if intents != [] {
      var init, last := intents[..|intents| - 1], intents[|intents| - 1];
      assert intents == init + [last];
      OfRankSame(init, q);
      OfRankSnoc(init, last, q);
      if Rank(last) == q {
        OfRankSnoc(OfRank(init, q), last, q);
      } else {
        assert OfRank(init, q) + [] == OfRank(init, q);
      }
    }
  }

  /** Filtering a rank group by another rank leaves nothing. */
  lemma {:induction false} OfRankOther(intents: seq<AnalysisIntent>, q: nat, r: nat)
    requires q != r
    ensures OfRank(OfRank(intents, q), r) == []
    decreases |intents|
  {
    if intents != [] {
      var init, last := intents[..|intents| - 1], intents[|intents| - 1];
      assert intents == init + [last];
      OfRankOther(init, q, r);
      OfRankSnoc(init, last, q);
      if Rank(last) == q {
        OfRankSnoc(OfRank(init, q), last, r);
        assert OfRank(OfRank(intents, q), r) == [] + [];
      } else {
        assert OfRank(intents, q) == OfRank(init, q) + [];
        assert OfRank(init, q) + [] == OfRank(init, q);
      }
    }
  }

  /** Every member of a rank group has that rank. */
  lemma {:induction false} OfRankRanks(intents: seq<AnalysisIntent>, r: nat)
    ensures forall i :: 0 <= i < |OfRank(intents, r)| ==> Rank(OfRank(intents, r)[i]) == r
    decreases |intents|
  {
    if intents != [] {
      OfRankRanks(intents[..|intents| - 1], r);
    }
  }

  /** No intent ranks above 3. */
  lemma {:induction false} OfRankNone(intents: seq<AnalysisIntent>, r: nat)
    requires r > 3
    ensures OfRank(intents, r) == []
    decreases |intents|
  {
    if intents != [] {
      OfRankNone(intents[..|intents| - 1], r);
    }
  }

  /** A list ranked at most `k` has no intent of a higher rank. */
  lemma {:induction false} OfRankAbove(intents: seq<AnalysisIntent>, k: nat, q: nat)
    requires RanksAtMost(intents, k)
    requires q > k
    ensures OfRank(intents, q) == []
    decreases |intents|
  {
    if intents != [] {
      OfRankAbove(intents[..|intents| - 1], k, q);
    }
  }

  // The sort

  lemma ConcatSorted(a: seq<AnalysisIntent>, b: seq<AnalysisIntent>, k: nat)
    requires SortedByRank(a) && SortedByRank(b)
    requires RanksAtMost(a, k) && RanksAtLeast(b, k)
    ensures SortedByRank(a + b)
  {
    var s := a + b;
    forall i, j | 0 <= i < j < |s|
      ensures Rank(s[i]) <= Rank(s[j])
    {
      if j < |a| {
        assert s[i] == a[i] && s[j] == a[j];
      } else if i >= |a| {
        assert s[i] == b[i - |a|] && s[j] == b[j - |a|];
      } else {
        assert s[i] == a[i] && s[j] == b[j - |a|];
      }
    }
  }

  lemma {:induction false} GroupsFromSorted(intents: seq<AnalysisIntent>, k: nat)
    ensures SortedByRank(GroupsFrom(intents, k)) && RanksAtLeast(GroupsFrom(intents, k), k)
    decreases 4 - k
  {
    if k <= 3 {
      GroupsFromSorted(intents, k + 1);
      OfRankRanks(intents, k);
      var g, rest := OfRank(intents, k), GroupsFrom(intents, k + 1);
      ConcatSorted(g, rest, k);
      forall i | 0 <= i < |g + rest|
        ensures Rank((g + rest)[i]) >= k
      {
        if i >= |g| {
          assert (g + rest)[i] == rest[i - |g|];
        } else {
          assert (g + rest)[i] == g[i];
        }
      }
    }
  }

  /** The sort orders the intents by rank. */
  lemma SortIsSorted(intents: seq<AnalysisIntent>)
    ensures SortedByRank(SortByPriority(intents))
  {
    GroupsFromSorted(intents, 0);
  }

  /** In the sorted list every "high" intent precedes every other one, every "medium"
      intent precedes the "low" ones and those of any other priority, and every "low"
      intent precedes those of any other priority. */
  lemma SortPutsHighFirst(intents: seq<AnalysisIntent>)
    ensures var s := SortByPriority(intents);
            forall i, j :: 0 <= i < |s| && 0 <= j < |s| ==>
              (s[i].priority == TextPriority("high") && s[j].priority != TextPriority("high") ==> i < j)
    ensures var s := SortByPriority(intents);
            forall i, j :: 0 <= i < |s| && 0 <= j < |s| ==>
              (s[i].priority == TextPriority("medium") && s[j].priority !in [TextPriority("high"), TextPriority("medium")] ==> i < j)
    ensures var s := SortByPriority(intents);
            forall i, j :: 0 <= i < |s| && 0 <= j < |s| ==>
              (s[i].priority == TextPriority("low") && s[j].priority !in [TextPriority("high"), TextPriority("medium"), TextPriority("low")] ==> i < j)
  {
    SortIsSorted(intents);
  }

  lemma {:induction false} GroupsFromStable(intents: seq<AnalysisIntent>, k: nat, r: nat)
    requires k <= r
    ensures OfRank(GroupsFrom(intents, k), r) == OfRank(intents, r)
    decreases 4 - k
  {
    if k > 3 {
      OfRankNone(intents, r);
    } else {
      var g, rest := OfRank(intents, k), GroupsFrom(intents, k + 1);
      OfRankConcat(g, rest, r);
      if r == k {
        GroupsFromAbove(intents, k + 1, r);
        OfRankSame(intents, k);
        assert OfRank(g, r) + [] == OfRank(g, r);
      } else {
        GroupsFromStable(intents, k + 1, r);
        OfRankOther(intents, k, r);
        assert [] + OfRank(rest, r) == OfRank(rest, r);
      }
    }
  }

  /** The groups after rank `r` hold no intent of rank `r`. */
  lemma {:induction false} GroupsFromAbove(intents: seq<AnalysisIntent>, k: nat, r: nat)
    requires r < k
    ensures OfRank(GroupsFrom(intents, k), r) == []
    decreases 4 - k
  {
    if k <= 3 {
      var g, rest := OfRank(intents, k), GroupsFrom(intents, k + 1);
      GroupsFromAbove(intents, k + 1, r);
      OfRankConcat(g, rest, r);
      OfRankOther(intents, k, r);
    }
  }

  /** Each rank's intents appear in the sorted list in their input order: ties keep
      their order. */
  lemma SortIsStable(intents: seq<AnalysisIntent>, r: nat)
    ensures OfRank(SortByPriority(intents), r) == OfRank(intents, r)
  {
    GroupsFromStable(intents, 0, r);
  }

  /** The groups above every rank of the list are empty. */
  lemma {:induction false} GroupsAbove(intents: seq<AnalysisIntent>, j: nat, k: nat)
    requires RanksAtMost(intents, j) && k > j
    ensures GroupsFrom(intents, k) == []
    decreases 4 - k
  {
    if k <= 3 {
      OfRankAbove(intents, j, k);
      GroupsAbove(intents, j, k + 1);
    }
  }

  /** An intent ranked at or after all the others joins the end of its group, which is
      the end of the grouped list. */
  lemma {:induction false} GroupsSnoc(init: seq<AnalysisIntent>, last: AnalysisIntent, k: nat)
    requires RanksAtMost(init, Rank(last)) && k <= Rank(last)
    ensures GroupsFrom(init + [last], k) == GroupsFrom(init, k) + [last]
    decreases 4 - k
  {
    if k == Rank(last) {
      GroupsSnocAtOwnRank(init, last);
    } else {
      var g, rest := OfRank(init, k), GroupsFrom(init, k + 1);
      OfRankSnoc(init, last, k);
      GroupsSnoc(init, last, k + 1);
      assert GroupsFrom(init + [last], k) == (g + []) + (rest + [last]);
      assert (g + []) + (rest + [last]) == (g + rest) + [last];
    }
  }

  /** The step of `GroupsSnoc` at the new intent's own rank, where the groups above are
      empty. */
  lemma GroupsSnocAtOwnRank(init: seq<AnalysisIntent>, last: AnalysisIntent)
    requires RanksAtMost(init, Rank(last))
    ensures GroupsFrom(init + [last], Rank(last)) == GroupsFrom(init, Rank(last)) + [last]
  {
    GroupsAboveSnoc(init, last);
    SnocAtRank(init, last, Rank(last));
  }

  /** Above the new intent's rank there are no groups, before or after appending it. */
  lemma GroupsAboveSnoc(init: seq<AnalysisIntent>, last: AnalysisIntent)
    requires RanksAtMost(init, Rank(last))
    ensures GroupsFrom(init, Rank(last) + 1) == [] && GroupsFrom(init + [last], Rank(last) + 1) == []
  {
    RanksAtMostSnoc(init, last);
    GroupsAbove(init + [last], Rank(last), Rank(last) + 1);
    GroupsAbove(init, Rank(last), Rank(last) + 1);
  }

  lemma SnocAtRank(init: seq<AnalysisIntent>, last: AnalysisIntent, k: nat)
    requires k == Rank(last)
    requires GroupsFrom(init, k + 1) == [] && GroupsFrom(init + [last], k + 1) == []
    ensures GroupsFrom(init + [last], k) == GroupsFrom(init, k) + [last]
  {
    var g := OfRank(init, k);
    OfRankSnoc(init, last, k);
    assert GroupsFrom(init, k) == g + [];
    assert GroupsFrom(init + [last], k) == (g + [last]) + [];
    assert (g + [last]) + [] == (g + []) + [last];
  }

  lemma RanksAtMostSnoc(init: seq<AnalysisIntent>, last: AnalysisIntent)
    requires RanksAtMost(init, Rank(last))
    ensures RanksAtMost(init + [last], Rank(last))
  {
    forall i | 0 <= i < |init + [last]|
      ensures Rank((init + [last])[i]) <= Rank(last)
    {
      if i < |init| {
        assert (init + [last])[i] == init[i];
      }
    }
  }

  /** A list is the concatenation of its rank groups exactly when it is sorted by rank. */
  lemma {:induction false} SortedIsGroups(intents: seq<AnalysisIntent>)
    requires SortedByRank(intents)
    ensures intents == SortByPriority(intents)
    decreases |intents|
  {
    if intents != [] {
      var init := intents[..|intents| - 1];
      var last := intents[|intents| - 1];
      assert SortedByRank(init);
      SortedIsGroups(init);
      assert intents == init + [last];
      assert RanksAtMost(init, Rank(last));
      GroupsSnoc(init, last, 0);
    }
  }

  /** Stable sorting has one result: any list sorted by rank whose rank groups are those of
      the input is the sorted list. */
  lemma SortIsUnique(intents: seq<AnalysisIntent>, candidate: seq<AnalysisIntent>)
    requires SortedByRank(candidate)
    requires forall r :: r <= 3 ==> OfRank(candidate, r) == OfRank(intents, r)
    ensures candidate == SortByPriority(intents)
  {
    SortedIsGroups(candidate);
    GroupsFromSameGroups(candidate, intents, 0);
  }

  /** Lists with the same rank groups have the same grouped list. */
  lemma {:induction false} GroupsFromSameGroups(a: seq<AnalysisIntent>, b: seq<AnalysisIntent>, k: nat)
    requires forall r :: r <= 3 ==> OfRank(a, r) == OfRank(b, r)
    ensures GroupsFrom(a, k) == GroupsFrom(b, k)
    decreases 4 - k
  {
    if k <= 3 {
      GroupsFromSameGroups(a, b, k + 1);
    }
  }

  /** The groups from rank `k` on hold, with multiplicity, exactly the intents ranked `k` or
      above. */
  lemma {:induction false} GroupsFromSnocCount(init: seq<AnalysisIntent>, last: AnalysisIntent, k: nat)
    ensures multiset(GroupsFrom(init + [last], k))
            == multiset(GroupsFrom(init, k)) + if k <= Rank(last) then multiset{last} else multiset{}
    decreases 4 - k
  {
    if k <= 3 {
      GroupsFromSnocCount(init, last, k + 1);
      OfRankSnoc(init, last, k);
    }
  }

  lemma {:induction false} GroupsCoverAll(intents: seq<AnalysisIntent>)
    ensures multiset(GroupsFrom(intents, 0)) == multiset(intents)
    decreases |intents|
  {
    if intents != [] {
      var init := intents[..|intents| - 1];
      var last := intents[|intents| - 1];
      GroupsCoverAll(init);
      assert intents == init + [last];
      GroupsFromSnocCount(init, last, 0);
    }
  }

  /** The sort is a permutation. */
  lemma SortIsPermutation(intents: seq<AnalysisIntent>)
    ensures multiset(SortByPriority(intents)) == multiset(intents)
  {
    GroupsCoverAll(intents);
  }

  /** A list whose intents all rank `q` is its own group `q`, with nothing below or above. */
  lemma {:induction false} GroupsFromUniform(intents: seq<AnalysisIntent>, q: nat, k: nat)
    requires q <= 3 && k <= q
    requires forall i :: 0 <= i < |intents| ==> Rank(intents[i]) == q
    ensures GroupsFrom(intents, k) == intents
    decreases 4 - k
  {
    OfRankUniform(intents, q, k);
    if k == q {
      assert RanksAtMost(intents, q);
      GroupsAbove(intents, q, k + 1);
      assert intents + [] == intents;
    } else {
      GroupsFromUniform(intents, q, k + 1);
      assert [] + intents == intents;
    }
  }

  /** A plan that passed validation carries integer priorities, which the string-keyed rank
      maps to 3: the sort leaves such a plan's intents in plan order. */
  lemma ValidatedPlanKeepsOrder(plan: HighLevelPlan)
    requires PlanErrors(plan) == []
    ensures SortByPriority(plan.intents) == plan.intents
  {
    PlanAcceptedIff(plan);
    var s := plan.intents;
    assert forall i :: 0 <= i < |s| ==> Rank(s[i]) == 3;
    GroupsFromUniform(s, 3, 0);
  }

  // ---------------------------------------------------------------------------
  // Truncation

  /** `intents[:max_cuts]`, including Python's reading of a negative bound as counting
      from the end. */
  function Take(intents: seq<AnalysisIntent>, maxCuts: int): (out: seq<AnalysisIntent>)
    ensures out <= intents
    ensures maxCuts >= 0 ==> |out| == if maxCuts < |intents| then maxCuts else |intents|
    ensures maxCuts < 0 ==> |out| == if -maxCuts < |intents| then |intents| + maxCuts else 0
  {
    var n := if maxCuts >= 0 then (if maxCuts < |intents| then maxCuts else |intents|)
             else (if -maxCuts < |intents| then |intents| + maxCuts else 0);
    intents[..n]
  }

  const DefaultMaxCuts := 20

  // ---------------------------------------------------------------------------
  // Planning and executing each intent

  /** What planning a cut from an intent's description did: returned an envelope, or
      raised. The planner itself calls a language model and is a parameter here. */
  datatype PlanAttempt = Returned(out: ToolOutputs.ToolOutput<CutSpec>) | Raised(message: string)

  /** Why an intent produced no cut: the planner's errors, or the raised exception's text. */
  datatype FailureDetail = PlanRejected(errors: seq<ToolOutputs.ToolMessage>) | RaisedError(error: string)

  /** An entry of `all_cuts_failed`. */
  datatype FailedCut = FailedCut(intentId: string, description: string, detail: FailureDetail)

  /** A planner whose ok envelopes carry their cut, as `ToolOutput.success` builds them. */
  ghost predicate PlannerWellBehaved(planCut: string -> PlanAttempt) {
    forall d :: planCut(d).Returned? && planCut(d).out.ok ==> planCut(d).out.data.Some?
  }

  /** Whether the intent's planning produced a cut. */
  predicate Planned(planCut: string -> PlanAttempt, intent: AnalysisIntent) {
    planCut(intent.description).Returned? && planCut(intent.description).out.ok
  }

  /** The three lists the intent loop builds. */
  datatype Processing = Processing(planned: seq<CutSpec>, failed: seq<FailedCut>, results: seq<ExecutionResult>)

  /** One turn of the intent loop: a planned cut is appended to `planned` and its
      execution result to `results`; anything else appends one entry to `failed`. */
  function ProcessOne(env: Environment, planCut: string -> PlanAttempt, prev: Processing, intent: AnalysisIntent): Processing
    requires env.Valid() && PlannerWellBehaved(planCut)
  {
    match planCut(intent.description)
    case Raised(msg) =>
      prev.(failed := prev.failed + [FailedCut(intent.intentId, intent.description, RaisedError(msg))])
    case Returned(out) =>
      if out.ok then
        var cut := out.data.value;
        Processing(prev.planned + [cut], prev.failed, prev.results + [BatchResult(env, [cut])])
      else
        prev.(failed := prev.failed + [FailedCut(intent.intentId, intent.description, PlanRejected(out.errors))])
  }

  /** The intent loop over all intents: every intent lands in `planned` or in `failed`,
      and each planned cut's execution result sits at the same position in `results`. */
  function ProcessAll(env: Environment, planCut: string -> PlanAttempt, intents: seq<AnalysisIntent>): (p: Processing)
    requires env.Valid() && PlannerWellBehaved(planCut)
    ensures |p.planned| + |p.failed| == |intents|
    ensures |p.results| == |p.planned|
    ensures forall k :: 0 <= k < |p.results| ==> p.results[k] == BatchResult(env, [p.planned[k]])
    decreases |intents|
  {
    if intents == [] then Processing([], [], [])
    else ProcessOne(env, planCut, ProcessAll(env, planCut, intents[..|intents| - 1]), intents[|intents| - 1])
  }

  /** The number of intents whose planning produced a cut. */
  function CountPlanned(planCut: string -> PlanAttempt, intents: seq<AnalysisIntent>): nat
    decreases |intents|
  {
    if intents == [] then 0
    else CountPlanned(planCut, intents[..|intents| - 1]) + if Planned(planCut, intents[|intents| - 1]) then 1 else 0
  }

  /** Each processed intent lands in exactly one list: the planned ones in `planned`,
      the others in `failed`. */
  lemma {:induction false} PlannedFailedSplit(env: Environment, planCut: string -> PlanAttempt, intents: seq<AnalysisIntent>)
    requires env.Valid() && PlannerWellBehaved(planCut)
    ensures |ProcessAll(env, planCut, intents).planned| == CountPlanned(planCut, intents)
    ensures |ProcessAll(env, planCut, intents).failed| == |intents| - CountPlanned(planCut, intents)
    decreases |intents|
  {
    if intents != [] {
      PlannedFailedSplit(env, planCut, intents[..|intents| - 1]);
    }
  }

  lemma {:induction false} CountPlannedZero(planCut: string -> PlanAttempt, intents: seq<AnalysisIntent>)
    ensures CountPlanned(planCut, intents) == 0 <==> forall i :: 0 <= i < |intents| ==> !Planned(planCut, intents[i])
    decreases |intents|
  {
    if intents != [] {
      CountPlannedZero(planCut, intents[..|intents| - 1]);
    }
  }

  /** The intents whose planning produced a cut, in order. */
  function PlannedIntents(planCut: string -> PlanAttempt, intents: seq<AnalysisIntent>): (out: seq<AnalysisIntent>)
    ensures forall k :: 0 <= k < |out| ==> Planned(planCut, out[k])
    decreases |intents|
  {
    if intents == [] then []
    else
      var last := intents[|intents| - 1];
      PlannedIntents(planCut, intents[..|intents| - 1]) + if Planned(planCut, last) then [last] else []
  }

  /** The intents whose planning produced no cut, in order. */
  function UnplannedIntents(planCut: string -> PlanAttempt, intents: seq<AnalysisIntent>): (out: seq<AnalysisIntent>)
    ensures forall k :: 0 <= k < |out| ==> !Planned(planCut, out[k])
    decreases |intents|
  {
    if intents == [] then []
    else
      var last := intents[|intents| - 1];
      UnplannedIntents(planCut, intents[..|intents| - 1]) + if Planned(planCut, last) then [] else [last]
  }

  /** Why planning an intent produced no cut: the rejecting envelope's errors, or the
      text of the exception. */
  function FailureOf(attempt: PlanAttempt): FailureDetail {
    match attempt
    case Raised(msg) => RaisedError(msg)
    case Returned(out) => PlanRejected(out.errors)
  }

  /** `planned` holds the cut of each intent whose planning succeeded, and `failed` one
      entry per other intent naming it and the planner's errors or exception text; both in
      intent order. */
  lemma {:induction false} PlannedFailedInOrder(env: Environment, planCut: string -> PlanAttempt, intents: seq<AnalysisIntent>)
    requires env.Valid() && PlannerWellBehaved(planCut)
    ensures var p := ProcessAll(env, planCut, intents);
            var ok := PlannedIntents(planCut, intents);
            |p.planned| == |ok| && forall k :: 0 <= k < |ok| ==> p.planned[k] == planCut(ok[k].description).out.data.value
    ensures var p := ProcessAll(env, planCut, intents);
            var bad := UnplannedIntents(planCut, intents);
            |p.failed| == |bad| &&
            forall k :: 0 <= k < |bad| ==>
              p.failed[k] == FailedCut(bad[k].intentId, bad[k].description, FailureOf(planCut(bad[k].description)))
    decreases |intents|
  {
    if intents != [] {
      PlannedFailedInOrder(env, planCut, intents[..|intents| - 1]);
    }
  }

  // ---------------------------------------------------------------------------
  // Combining the execution results

  /** Every result's `segments_computed` is a well-formed dictionary. */
  ghost predicate AllValid(results: seq<ExecutionResult>) {
    forall k :: 0 <= k < |results| ==> results[k].segmentsComputed.Valid()
  }

  /** The tables of the results, in order. */
  function CombinedTables(results: seq<ExecutionResult>): seq<TableResult>
    decreases |results|
  {
    if results == [] then [] else CombinedTables(results[..|results| - 1]) + results[|results| - 1].tables
  }

  /** The cut errors of the results, in order. */
  function CombinedErrors(results: seq<ExecutionResult>): seq<CutError>
    decreases |results|
  {
    if results == [] then [] else CombinedErrors(results[..|results| - 1]) + results[|results| - 1].errors
  }

  /** Each result's `segments_computed`, when not empty, merged in with later values
      winning. */
  function CombinedSegments(results: seq<ExecutionResult>): (d: Dict<string, int>)
    requires AllValid(results)
    ensures d.Valid()
    decreases |results|
  {
    if results == [] then Empty()
    else
      var prev := CombinedSegments(results[..|results| - 1]);
      var last := results[|results| - 1].segmentsComputed;
      if |last.keys| > 0 then PutAll(prev, Items(last)) else prev
  }

  /** The combine loop's result. */
  function Combine(results: seq<ExecutionResult>): ExecutionResult
    requires AllValid(results)
  {
    ExecutionResult(CombinedTables(results), CombinedErrors(results), CombinedSegments(results))
  }

  lemma AllValidConcat(a: seq<ExecutionResult>, b: seq<ExecutionResult>)
    requires AllValid(a) && AllValid(b)
    ensures AllValid(a + b)
  {
    forall k | 0 <= k < |a + b|
      ensures (a + b)[k].segmentsComputed.Valid()
    {
      if k >= |a| {
        assert (a + b)[k] == b[k - |a|];
      } else {
        assert (a + b)[k] == a[k];
      }
    }
  }

  /** Combining is concatenation: the combined tables of `a + b` are those of `a`
      followed by those of `b`. */
  lemma {:induction false} CombinedTablesConcat(a: seq<ExecutionResult>, b: seq<ExecutionResult>)
    ensures CombinedTables(a + b) == CombinedTables(a) + CombinedTables(b)
    decreases |b|
  {
    if b == [] {
      assert a + b == a;
    } else {
      var init, last := b[..|b| - 1], b[|b| - 1];
      assert (a + b)[..|a + b| - 1] == a + init;
      CombinedTablesConcat(a, init);
    }
  }

  /** The same for the cut errors. */
  lemma {:induction false} CombinedErrorsConcat(a: seq<ExecutionResult>, b: seq<ExecutionResult>)
    ensures CombinedErrors(a + b) == CombinedErrors(a) + CombinedErrors(b)
    decreases |b|
  {
    if b == [] {
      assert a + b == a;
    } else {
      var init, last := b[..|b| - 1], b[|b| - 1];
      assert (a + b)[..|a + b| - 1] == a + init;
      CombinedErrorsConcat(a, init);
    }
  }

  /** Merging an empty `segments_computed` changes nothing, so each step of the combination
      is an update with the next result's dictionary. */
  lemma CombineStep(results: seq<ExecutionResult>)
    requires |results| > 0 && AllValid(results)
    ensures AllValid(results[..|results| - 1])
    ensures CombinedSegments(results)
            == PutAll(CombinedSegments(results[..|results| - 1]), Items(results[|results| - 1].segmentsComputed))
  {
    var last := results[|results| - 1].segmentsComputed;
    if |last.keys| == 0 {
      assert Items(last) == [];
    }
  }

  /** The `i`-th key of the last result's `segments_computed` ends with that result's
      value. */
  lemma CombineLastKey(results: seq<ExecutionResult>, i: nat)
    requires |results| > 0 && AllValid(results)
    requires i < |results[|results| - 1].segmentsComputed.keys|
    ensures var last := results[|results| - 1].segmentsComputed;
            last.keys[i] in CombinedSegments(results).entries &&
            CombinedSegments(results).entries[last.keys[i]] == last.entries[last.keys[i]]
  {
    CombineStep(results);
    var last := results[|results| - 1].segmentsComputed;
    PutAllLast(CombinedSegments(results[..|results| - 1]), Items(last), i);
  }

  /** A key of the last result's `segments_computed` ends with that result's value. */
  lemma CombineLaterWins(results: seq<ExecutionResult>, key: string)
    requires |results| > 0 && AllValid(results)
    requires key in results[|results| - 1].segmentsComputed.entries
    ensures key in Combine(results).segmentsComputed.entries
    ensures Combine(results).segmentsComputed.entries[key] == results[|results| - 1].segmentsComputed.entries[key]
  {
    var last := results[|results| - 1].segmentsComputed;
    var i :| 0 <= i < |last.keys| && last.keys[i] == key;
    CombineLastKey(results, i);
  }

  /** The executor never fills `segments_computed`, so neither does the combination. */
  lemma {:induction false} CombineOfBatchesComputesNoSegments(env: Environment, results: seq<ExecutionResult>, cuts: seq<CutSpec>)
    requires env.Valid() && |results| == |cuts|
    requires forall k :: 0 <= k < |results| ==> results[k] == BatchResult(env, [cuts[k]])
    ensures AllValid(results)
    ensures CombinedSegments(results) == Empty()
    decreases |results|
  {
    forall k | 0 <= k < |results|
      ensures results[k].segmentsComputed == Empty()
    {
      BatchAccountsForEveryCut(env, [cuts[k]]);
    }
    if results != [] {
      CombineOfBatchesComputesNoSegments(env, results[..|results| - 1], cuts[..|cuts| - 1]);
    }
  }

  // ---------------------------------------------------------------------------
  // The result

  /** A `PipelineResult`. */
  datatype PipelineResult = PipelineResult(
    success: bool,
    runId: string,
    runDir: string,
    plan: Option<HighLevelPlan>,
    cutsPlanned: seq<CutSpec>,
    cutsFailed: seq<FailedCut>,
    executionResult: Option<ExecutionResult>,
    errors: seq<string>)

  const NothingExecuted := "No cuts were successfully executed"

  /** The autoplan result: a success exactly when some cut was planned, and otherwise the
      single error that nothing was executed. */
  function AutoplanResult(runId: string, runDir: string, plan: HighLevelPlan, p: Processing, combined: ExecutionResult): (r: PipelineResult)
    ensures r.success <==> |p.planned| > 0
    ensures r.errors == if |p.planned| > 0 then [] else [NothingExecuted]
    ensures r.cutsPlanned == p.planned && r.cutsFailed == p.failed && r.executionResult == Some(combined)
  {
    var ok := |p.planned| > 0;
    PipelineResult(ok, runId, runDir, Some(plan), p.planned, p.failed, Some(combined),
      if ok then [] else [NothingExecuted])
  }

  /** The deterministic part of `run_autoplan` once the plan exists. */
  function Autoplan(env: Environment, planCut: string -> PlanAttempt, plan: HighLevelPlan, maxCuts: int,
                    runId: string, runDir: string): PipelineResult
    requires env.Valid() && PlannerWellBehaved(planCut)
  {
    var p := ProcessAll(env, planCut, Take(SortByPriority(plan.intents), maxCuts));
    CombineOfBatchesComputesNoSegments(env, p.results, p.planned);
    AutoplanResult(runId, runDir, plan, p, Combine(p.results))
  }

  /** The run succeeds exactly when planning produced a cut for at least one of the
      processed intents, and the number of tables and cut errors it reports is the
      number of cuts it planned. */
  lemma AutoplanOutcome(env: Environment, planCut: string -> PlanAttempt, plan: HighLevelPlan, maxCuts: int,
                        runId: string, runDir: string)
    requires env.Valid() && PlannerWellBehaved(planCut)
    ensures var processed := Take(SortByPriority(plan.intents), maxCuts);
            var r := Autoplan(env, planCut, plan, maxCuts, runId, runDir);
            && (r.success <==> exists i :: 0 <= i < |processed| && Planned(planCut, processed[i]))
            && |r.cutsPlanned| + |r.cutsFailed| == |processed|
            && |r.executionResult.value.tables| + |r.executionResult.value.errors| == |r.cutsPlanned|
            && r.executionResult.value.segmentsComputed == Empty()
  {
    var processed := Take(SortByPriority(plan.intents), maxCuts);
    var p := ProcessAll(env, planCut, processed);
    PlannedFailedSplit(env, planCut, processed);
    CountPlannedZero(planCut, processed);
    CombineOfBatchesComputesNoSegments(env, p.results, p.planned);
    CombineCounts(env, p.results, p.planned);
  }

  /** Each combined execution result contributes one table or one error per cut. */
  lemma {:induction false} CombineCounts(env: Environment, results: seq<ExecutionResult>, cuts: seq<CutSpec>)
    requires env.Valid() && |results| == |cuts|
    requires forall k :: 0 <= k < |results| ==> results[k] == BatchResult(env, [cuts[k]])
    ensures |CombinedTables(results)| + |CombinedErrors(results)| == |results|
    decreases |results|
  {
    if results != [] {
      CombineCounts(env, results[..|results| - 1], cuts[..|cuts| - 1]);
      BatchAccountsForEveryCut(env, [cuts[|cuts| - 1]]);
    }
  }

  // ---------------------------------------------------------------------------
  // The loops

  /** One turn of the intent loop: plan a cut from the intent's description and, when
      planning succeeds, execute it through the agent. */
  method ProcessIntent(agent: Agent, planCut: string -> PlanAttempt, prev: Processing, intent: AnalysisIntent)
    returns (next: Processing)
    requires agent.Valid() && PlannerWellBehaved(planCut)
    ensures next == ProcessOne(agent.ExecutorEnv(), planCut, prev, intent)
  {
    var attempt := planCut(intent.description);
    match attempt {
      case Raised(msg) =>
        next := prev.(failed := prev.failed + [FailedCut(intent.intentId, intent.description, RaisedError(msg))]);
      case Returned(out) =>
        if out.ok {
          var cut := out.data.value;
          var executed := agent.ExecuteSingleCut(cut);
          next := Processing(prev.planned + [cut], prev.failed, prev.results + [executed]);
        } else {
          next := prev.(failed := prev.failed + [FailedCut(intent.intentId, intent.description, PlanRejected(out.errors))]);
        }
    }
  }

  /** The intent loop of `run_autoplan`. */
  method ProcessIntents(agent: Agent, planCut: string -> PlanAttempt, intents: seq<AnalysisIntent>) returns (p: Processing)
    requires agent.Valid() && PlannerWellBehaved(planCut)
    ensures p == ProcessAll(agent.ExecutorEnv(), planCut, intents)
  {
    ghost var env := agent.ExecutorEnv();
    p := Processing([], [], []);
    for i := 0 to |intents|
      invariant p == ProcessAll(env, planCut, intents[..i])
    {
      ProcessAllStep(env, planCut, intents, i);
      p := ProcessIntent(agent, planCut, p, intents[i]);
    }
    assert intents[..|intents|] == intents;
  }

  lemma ProcessAllStep(env: Environment, planCut: string -> PlanAttempt, intents: seq<AnalysisIntent>, i: nat)
    requires env.Valid() && PlannerWellBehaved(planCut) && i < |intents|
    ensures ProcessAll(env, planCut, intents[..i + 1]) == ProcessOne(env, planCut, ProcessAll(env, planCut, intents[..i]), intents[i])
  {
    assert intents[..i + 1][..i] == intents[..i];
  }

  /** The combine loop of `run_autoplan`. */
  method CombineResults(results: seq<ExecutionResult>) returns (combined: ExecutionResult)
    requires AllValid(results)
    ensures combined == Combine(results)
  {
    var tables: seq<TableResult> := [];
    var errors: seq<CutError> := [];
    var segmentsComputed: Dict<string, int> := Empty();
    for i := 0 to |results|
      invariant ExecutionResult(tables, errors, segmentsComputed) == Combine(results[..i])
    {
      assert results[..i + 1][..i] == results[..i];
      var result := results[i];
      tables := tables + result.tables;
      errors := errors + result.errors;
      if |result.segmentsComputed.keys| > 0 {
        segmentsComputed := PutAll(segmentsComputed, Items(result.segmentsComputed));
      }
    }
    assert results[..|results|] == results;
    combined := ExecutionResult(tables, errors, segmentsComputed);
  }

  /** The plan's suggested segments are added to the session, one after the other. */
  method AddSuggestedSegments(agent: Agent, suggested: seq<SegmentSpec>)
    requires agent.Valid()
    modifies agent
    ensures agent.Valid()
    ensures agent.segments == AddedAll(old(agent.segments), suggested)
    ensures agent.segmentsById == PutAll(old(agent.segmentsById), IdPairs(suggested))
  {
    ghost var segments0, byId0 := agent.segments, agent.segmentsById;
    for k := 0 to |suggested|
      invariant agent.Valid()
      invariant agent.segments == AddedAll(segments0, suggested[..k])
      invariant agent.segmentsById == PutAll(byId0, IdPairs(suggested[..k]))
    {
      AddedAllStep(segments0, byId0, suggested, k);
      agent.AddSegment(suggested[k]);
    }
    assert suggested[..|suggested|] == suggested;
  }

  lemma AddedAllStep(segments: seq<SegmentSpec>, byId: Dict<string, SegmentSpec>, suggested: seq<SegmentSpec>, k: nat)
    requires k < |suggested|
    ensures AddedAll(segments, suggested[..k + 1]) == AddedSegments(AddedAll(segments, suggested[..k]), suggested[k])
    ensures PutAll(byId, IdPairs(suggested[..k + 1]))
         == Put(PutAll(byId, IdPairs(suggested[..k])), suggested[k].segmentId, suggested[k])
  {
    assert suggested[..k + 1][..k] == suggested[..k];
    assert IdPairs(suggested[..k + 1])[..k] == IdPairs(suggested[..k]);
  }

  /** `run_autoplan` from adding the suggested segments to the returned result: the
      intents run against the session as it stands once those segments are added. */
  method RunAutoplan(agent: Agent, planCut: string -> PlanAttempt, plan: HighLevelPlan, maxCuts: int,
                     runId: string, runDir: string) returns (r: PipelineResult)
    requires agent.Valid() && PlannerWellBehaved(planCut)
    modifies agent
    ensures agent.Valid()
    ensures agent.segments == AddedAll(old(agent.segments), plan.suggestedSegments)
    ensures agent.segmentsById == PutAll(old(agent.segmentsById), IdPairs(plan.suggestedSegments))
    ensures r == Autoplan(agent.ExecutorEnv(), planCut, plan, maxCuts, runId, runDir)
  {
    AddSuggestedSegments(agent, plan.suggestedSegments);
    var sorted := SortByPriority(plan.intents);
    var toProcess := Take(sorted, maxCuts);
    var p := ProcessIntents(agent, planCut, toProcess);
    CombineOfBatchesComputesNoSegments(agent.ExecutorEnv(), p.results, p.planned);
    var combined := CombineResults(p.results);
    r := AutoplanResult(runId, runDir, plan, p, combined);
  }
}
