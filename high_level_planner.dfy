/** The check the high-level planner applies to a generated plan: every intent needs an
    id, a description and a priority among 1, 2 and 3, and the rationale needs at least
    ten characters once surrounding whitespace is stripped. */
module HighLevelPlanning {
  import opened Wrappers
  import opened Specs

  // ---------------------------------------------------------------------------
  // Python's str() on integers and str.strip()

  function DigitChar(d: nat): char
    requires d < 10
  {
    "0123456789"[d]
  }

  /** The decimal digits of `n`, most significant first. */
  function NatToString(n: nat): (s: string)
    ensures |s| > 0 && forall i :: 0 <= i < |s| ==> '0' <= s[i] <= '9'
    decreases n
  {
    if n < 10 then [DigitChar(n)] else NatToString(n / 10) + [DigitChar(n % 10)]
  }

  /** `str(n)`. */
  function IntToString(n: int): string {
    if n < 0 then "-" + NatToString(-n) else NatToString(n)
  }

  /** The characters `str.strip()` removes: the code points Python classes as whitespace. */
  predicate IsSpace(c: char) {
    var n := c as int;
    || n == 0x20 || 0x09 <= n <= 0x0D || 0x1C <= n <= 0x1F || n == 0x85 || n == 0xA0
    || n == 0x1680 || 0x2000 <= n <= 0x200A || n == 0x2028 || n == 0x2029 || n == 0x202F
    || n == 0x205F || n == 0x3000
  }

  function StripStart(s: string): (r: string)
    ensures |r| <= |s| && r == s[|s| - |r|..]
    ensures forall i :: 0 <= i < |s| - |r| ==> IsSpace(s[i])
    ensures |r| > 0 ==> !IsSpace(r[0])
    decreases |s|
  {
    if |s| > 0 && IsSpace(s[0]) then StripStart(s[1..]) else s
  }

  function StripEnd(s: string): (r: string)
    ensures |r| <= |s| && r == s[..|r|]
    ensures forall i :: |r| <= i < |s| ==> IsSpace(s[i])
    ensures |r| > 0 ==> !IsSpace(r[|r| - 1])
    decreases |s|
  {
    if |s| > 0 && IsSpace(s[|s| - 1]) then StripEnd(s[..|s| - 1]) else s
  }

  /** `s.strip()`: the slice of `s` between its leading and trailing whitespace. */
  function Strip(s: string): string {
    StripEnd(StripStart(s))
  }

  /** `strip` keeps a contiguous slice that neither starts nor ends with whitespace and
      drops only whitespace around it. */
  lemma StripIsTrimmedSlice(s: string)
    ensures exists lo, hi :: 0 <= lo <= hi <= |s| && Strip(s) == s[lo..hi]
                          && (forall i :: 0 <= i < lo ==> IsSpace(s[i]))
                          && (forall i :: hi <= i < |s| ==> IsSpace(s[i]))
    ensures |Strip(s)| > 0 ==> !IsSpace(Strip(s)[0]) && !IsSpace(Strip(s)[|Strip(s)| - 1])
  {
    var t := StripStart(s);
    var r := StripEnd(t);
    var lo := |s| - |t|;
    var hi := lo + |r|;
    assert r == s[lo..hi];
    forall i | hi <= i < |s|
      ensures IsSpace(s[i])
    {
      assert s[i] == t[i - lo];
    }
    if |r| > 0 {
      assert r[0] == t[0];
    }
  }

  // ---------------------------------------------------------------------------
  // The checks

  const MissingRationale := "Rationale is too short or missing"

  /** `priority in [1, 2, 3]`. */
  predicate ValidPriority(p: Priority) {
    p.IntPriority? && 1 <= p.n <= 3
  }

  /** `f"{priority}"`. */
  function PriorityText(p: Priority): string {
    match p
    case IntPriority(n) => IntToString(n)
    case TextPriority(s) => s
  }

  /** The errors of the intent at index `i`, in the order the checks run. */
  function IntentErrors(i: nat, intent: AnalysisIntent): (errs: seq<string>)
    ensures |errs| <= 3
    ensures errs == [] <==> intent.intentId != "" && intent.description != "" && ValidPriority(intent.priority)
  {
    (if intent.intentId == "" then ["Intent at index " + NatToString(i) + " missing intent_id"] else [])
    + (if intent.description == "" then ["Intent " + intent.intentId + " missing description"] else [])
    + (if !ValidPriority(intent.priority)
       then ["Intent " + intent.intentId + " has invalid priority: " + PriorityText(intent.priority)]
       else [])
  }

  /** The errors of the first `n` intents, intent by intent. */
  function IntentsErrors(intents: seq<AnalysisIntent>, n: nat): (errs: seq<string>)
    requires n <= |intents|
    decreases n
  {
    if n == 0 then [] else IntentsErrors(intents, n - 1) + IntentErrors(n - 1, intents[n - 1])
  }

  /** `not rationale or len(rationale.strip()) < 10`. */
  predicate RationaleRejected(rationale: Option<string>) {
    rationale.None? || rationale.value == "" || |Strip(rationale.value)| < 10
  }

  /** What `_validate_plan` returns. */
  function PlanErrors(plan: HighLevelPlan): seq<string> {
    IntentsErrors(plan.intents, |plan.intents|) + (if RationaleRejected(plan.rationale) then [MissingRationale] else [])
  }

  /** Every intent passes all three checks. */
  predicate IntentsValid(intents: seq<AnalysisIntent>) {
    forall i :: 0 <= i < |intents| ==>
      intents[i].intentId != "" && intents[i].description != "" && ValidPriority(intents[i].priority)
  }

  lemma {:induction false} IntentsErrorsEmptyIff(intents: seq<AnalysisIntent>, n: nat)
    requires n <= |intents|
    ensures IntentsErrors(intents, n) == [] <==> forall i :: 0 <= i < n ==> IntentErrors(i, intents[i]) == []
    ensures |IntentsErrors(intents, n)| <= 3 * n
    decreases n
  {
    if n > 0 {
      IntentsErrorsEmptyIff(intents, n - 1);
      var prev, last := IntentsErrors(intents, n - 1), IntentErrors(n - 1, intents[n - 1]);
      assert IntentsErrors(intents, n) == prev + last;
      assert |prev + last| == |prev| + |last|;
    }
  }

  /** The plan is accepted exactly when every intent passes every check and the
      rationale passes. */
  lemma PlanAcceptedIff(plan: HighLevelPlan)
    ensures PlanErrors(plan) == [] <==> IntentsValid(plan.intents) && !RationaleRejected(plan.rationale)
  {
    IntentsErrorsEmptyIff(plan.intents, |plan.intents|);
  }

  /** At most three errors per intent and one for the rationale; the rationale error, when
      present, is the last one. */
  lemma PlanErrorsShape(plan: HighLevelPlan)
    ensures |PlanErrors(plan)| <= 3 * |plan.intents| + 1
    ensures RationaleRejected(plan.rationale) <==> |PlanErrors(plan)| > 0 && PlanErrors(plan)[|PlanErrors(plan)| - 1] == MissingRationale
  {
    IntentsErrorsEmptyIff(plan.intents, |plan.intents|);
    var errs := IntentsErrors(plan.intents, |plan.intents|);
    if !RationaleRejected(plan.rationale) && |errs| > 0 {
      IntentsErrorsNeverRationale(plan.intents, |plan.intents|);
      assert errs[|errs| - 1] in errs;
    }
  }

  lemma {:induction false} IntentsErrorsNeverRationale(intents: seq<AnalysisIntent>, n: nat)
    requires n <= |intents|
    ensures MissingRationale !in IntentsErrors(intents, n)
    decreases n
  {
    if n > 0 {
      IntentsErrorsNeverRationale(intents, n - 1);
      var prev, last := IntentsErrors(intents, n - 1), IntentErrors(n - 1, intents[n - 1]);
      assert IntentsErrors(intents, n) == prev + last;
      IntentErrorsStartWithI(n - 1, intents[n - 1]);
      assert MissingRationale[0] == 'R';
      assert MissingRationale !in last;
    }
  }

  /** Every intent error starts with "Intent". */
  lemma IntentErrorsStartWithI(i: nat, intent: AnalysisIntent)
    ensures forall e :: e in IntentErrors(i, intent) ==> |e| > 0 && e[0] == 'I'
  {
  }

  /** The errors of earlier intents come first: the errors of the first `n` intents are a
      prefix of those of the first `m`. */
  lemma {:induction false} IntentsErrorsInOrder(intents: seq<AnalysisIntent>, n: nat, m: nat)
    requires n <= m <= |intents|
    ensures IntentsErrors(intents, n) <= IntentsErrors(intents, m)
    decreases m - n
  {
    if n < m {
      IntentsErrorsInOrder(intents, n, m - 1);
      var a, b := IntentsErrors(intents, n), IntentsErrors(intents, m - 1);
      var c := IntentsErrors(intents, m);
      assert c == b + IntentErrors(m - 1, intents[m - 1]);
      assert c[..|b|] == b;
      assert c[..|a|] == b[..|a|] == a;
    }
  }

  /** Every error of intent `i` is among the plan's errors. */
  lemma IntentErrorInPlan(plan: HighLevelPlan, i: nat, e: string)
    requires i < |plan.intents| && e in IntentErrors(i, plan.intents[i])
    ensures e in PlanErrors(plan)
  {
    var errs := IntentErrors(i, plan.intents[i]);
    var k :| 0 <= k < |errs| && errs[k] == e;
    var p := IntentErrorPosition(plan.intents, i, k);
    IntentsErrorsInOrder(plan.intents, i + 1, |plan.intents|);
    var all := IntentsErrors(plan.intents, |plan.intents|);
    assert all[p] == e;
    assert PlanErrors(plan)[p] == e;
  }

  /** The `k`th error of intent `i` follows the errors of the intents before it. */
  lemma IntentErrorPosition(intents: seq<AnalysisIntent>, i: nat, k: nat) returns (p: nat)
    requires i < |intents| && k < |IntentErrors(i, intents[i])|
    ensures p < |IntentsErrors(intents, i + 1)|
    ensures IntentsErrors(intents, i + 1)[p] == IntentErrors(i, intents[i])[k]
  {
    var before := IntentsErrors(intents, i);
    p := |before| + k;
  }

  /** Each failing check of intent `i` is reported, with its own message. */
  lemma BadIntentReported(plan: HighLevelPlan, i: nat)
    requires i < |plan.intents|
    ensures plan.intents[i].intentId == "" ==>
      "Intent at index " + NatToString(i) + " missing intent_id" in PlanErrors(plan)
    ensures plan.intents[i].description == "" ==>
      "Intent " + plan.intents[i].intentId + " missing description" in PlanErrors(plan)
    ensures !ValidPriority(plan.intents[i].priority) ==>
      "Intent " + plan.intents[i].intentId + " has invalid priority: " + PriorityText(plan.intents[i].priority) in PlanErrors(plan)
  {
    var intent := plan.intents[i];
    var errs := IntentErrors(i, intent);
    var e1 := "Intent at index " + NatToString(i) + " missing intent_id";
    var e2 := "Intent " + intent.intentId + " missing description";
    var e3 := "Intent " + intent.intentId + " has invalid priority: " + PriorityText(intent.priority);
    if intent.intentId == "" {
      assert errs[0] == e1;
      IntentErrorInPlan(plan, i, e1);
    }
    if intent.description == "" {
      assert e2 in errs;
      IntentErrorInPlan(plan, i, e2);
    }
    if !ValidPriority(intent.priority) {
      assert errs[|errs| - 1] == e3;
      IntentErrorInPlan(plan, i, e3);
    }
  }

  /** `_validate_plan`: appends the errors of each intent in order, then the rationale's. */
  method ValidatePlan(plan: HighLevelPlan) returns (errors: seq<string>)
    ensures errors == PlanErrors(plan)
  {
    errors := [];
    for i := 0 to |plan.intents|
      invariant errors == IntentsErrors(plan.intents, i)
    {
      var intent := plan.intents[i];
      if intent.intentId == "" {
        errors := errors + ["Intent at index " + NatToString(i) + " missing intent_id"];
      }
      if intent.description == "" {
        errors := errors + ["Intent " + intent.intentId + " missing description"];
      }
      if !ValidPriority(intent.priority) {
        errors := errors + ["Intent " + intent.intentId + " has invalid priority: " + PriorityText(intent.priority)];
      }
    }
    if plan.rationale.None? || plan.rationale.value == "" || |Strip(plan.rationale.value)| < 10 {
      errors := errors + [MissingRationale];
    }
  }
}
