/** Old tool results are shortened or cleared, oldest first, within two character budgets. */
module ContextPruning {
  import opened Text

  datatype Entry = Entry(kind: string, role: string, toolName: string, toolCallId: string, text: string)

  datatype Policy = Policy(
    keepLastAssistants: int, minPrunableToolChars: int,
    softTrimRatio: real, softTrimMaxChars: int, softTrimHeadChars: int, softTrimTailChars: int,
    hardClearRatio: real, hardClearEnabled: bool, hardClearPlaceholder: string)

  // ---- Which entries are protected ----

  function NormalizeTranscriptRole(role: string, kind: string): string {
    var normalized := Trim(Lower(role));
    if kind == "tool_call" then "assistant"
    else if kind == "tool_result" then "tool"
    else if kind == "system_event" || kind == "internal_event" then "system"
    else if normalized in ["user", "assistant", "system", "tool"] then normalized
    else "user"
  }

  /** Partial output does not count. */
  predicate IsAssistant(e: Entry) {
    NormalizeTranscriptRole(e.role, e.kind) == "assistant" && Trim(Lower(e.kind)) != "assistant_partial"
  }

  /** Tool calls count as the assistant's, results and events never do, and otherwise the role decides. */
  lemma AssistantEntries(e: Entry)
    ensures IsAssistant(e) <==>
            && Trim(Lower(e.kind)) != "assistant_partial"
            && (e.kind == "tool_call"
                || (e.kind !in {"tool_result", "system_event", "internal_event"} && Trim(Lower(e.role)) == "assistant"))
  {
    hide Trim, Lower;
  }

  function Assistants(history: seq<Entry>): nat {
    if history == [] then 0 else (if IsAssistant(history[0]) then 1 else 0) + Assistants(history[1..])
  }

  function KeepCount(p: Policy): (n: nat)
    ensures n > 0
  {
    if p.keepLastAssistants <= 0 then 3 else p.keepLastAssistants
  }

  predicate IsCutoff(history: seq<Entry>, p: Policy, cutoff: int) {
    if Assistants(history) < KeepCount(p) then cutoff == -1
    else
      && 0 <= cutoff < |history| && IsAssistant(history[cutoff])
      && Assistants(history[cutoff..]) == KeepCount(p)
  }

  /** The cutoff is the assistant entry with which the kept ones begin; -1 when there are too few. */
  method PruningAssistantCutoff(history: seq<Entry>, p: Policy) returns (cutoff: int)
    ensures IsCutoff(history, p, cutoff)
  {
    hide IsAssistant;
    var keep := KeepCount(p);
    var seen, i := 0, |history|;
    while i > 0
      invariant 0 <= i <= |history| && seen == Assistants(history[i..]) < keep
    {
      i := i - 1;
      assert history[i..][1..] == history[i + 1..];
      if IsAssistant(history[i]) {
        seen := seen + 1;
        if seen >= keep {
          MoreBefore(history, i);
          return i;
        }
      }
    }
    assert history[0..] == history;
    return -1;
  }

  lemma {:induction false} MoreBefore(history: seq<Entry>, i: nat)
    requires i <= |history|
    ensures Assistants(history) >= Assistants(history[i..])
  {
    hide IsAssistant;
    if i > 0 {
      MoreBefore(history[1..], i - 1);
      assert history[1..][i - 1..] == history[i..];
    } else {
      assert history[0..] == history;
    }
  }

  /** A tool result, old enough, long enough, of a tool that may be pruned. */
  predicate Eligible(history: seq<Entry>, cutoff: int, p: Policy, prunable: string -> bool, i: nat)
    requires i < |history|
  {
    && i < cutoff && Trim(Lower(history[i].kind)) == "tool_result" && prunable(history[i].toolName)
    && |Trim(history[i].text)| >= if p.minPrunableToolChars <= 0 then 50000 else p.minPrunableToolChars
  }

  // ---- The two ways to shorten ----

  function Decimal(n: nat): string {
    if n < 10 then [Digit(n)] else Decimal(n / 10) + [Digit(n % 10)]
  }

  function Digit(n: nat): char
    requires n < 10
  {
    '0' + n as char
  }

  function ReadDecimal(s: string): int {
    if s == "" then 0 else 10 * ReadDecimal(s[..|s| - 1]) + (s[|s| - 1] as int - '0' as int)
  }

  /** The numbers in the notices read as what was measured. */
  lemma {:induction false} DecimalReadsBack(n: nat)
    ensures ReadDecimal(Decimal(n)) == n
  {
    if n < 10 {
      assert [Digit(n)][..0] == "";
    } else {
      DecimalReadsBack(n / 10);
      var s := Decimal(n);
      assert s[..|s| - 1] == Decimal(n / 10) && s[|s| - 1] == Digit(n % 10);
    }
  }

  function MaxChars(p: Policy): nat {
    if p.softTrimMaxChars <= 0 then 4000 else p.softTrimMaxChars
  }

  function HeadChars(p: Policy): nat {
    if p.softTrimHeadChars <= 0 then 1500 else p.softTrimHeadChars
  }

  function TailChars(p: Policy): nat {
    if p.softTrimTailChars <= 0 then 1500 else p.softTrimTailChars
  }

  const GAP := "\n...\n"
  const NOTE := "\n[tool result trimmed from "
  const NOTE_END := " chars]"

  function SoftTrimToolResult(text: string, p: Policy): string {
    var head, tail := HeadChars(p), TailChars(p);
    if |text| <= MaxChars(p) || head + tail >= |text| then text
    else Trim(text[..head] + GAP + text[|text| - tail..] + NOTE + Decimal(|text|) + NOTE_END)
  }

  function HardClearPlaceholder(p: Policy, chars: nat): string {
    var placeholder := Trim(p.hardClearPlaceholder);
    (if placeholder == "" then "[Old tool result content cleared]" else placeholder)
    + " (" + Decimal(chars) + " chars)"
  }

  /** Trimming keeps both ends; it makes the text shorter only when what it cuts out outweighs what it adds. */
  lemma SoftTrimShortensIff(text: string, p: Policy)
    requires Trimmed(text) && |text| > MaxChars(p) && HeadChars(p) + TailChars(p) < |text|
    ensures var r, added := SoftTrimToolResult(text, p), |GAP| + |NOTE| + |Decimal(|text|)| + |NOTE_END|;
            && |r| == HeadChars(p) + TailChars(p) + added
            && text[..HeadChars(p)] <= r
            && r[HeadChars(p) + |GAP|..][..TailChars(p)] == text[|text| - TailChars(p)..]
            && r[HeadChars(p) + |GAP| + TailChars(p)..]
               == "\n[tool result trimmed from " + Decimal(|text|) + " chars]"
            && (|r| < |text| <==> HeadChars(p) + TailChars(p) + added < |text|)
  {
    hide Trim, Decimal;
    var head, tail := HeadChars(p), TailChars(p);
    var whole := text[..head] + GAP + text[|text| - tail..] + NOTE + Decimal(|text|) + NOTE_END;
    TrimmedEnds(text);
    assert whole[0] == text[0];
    assert whole[|whole| - 1] == ']';
    TrimmedEnds(whole);
  }

  // ---- The pruning ----

  datatype Treatment = Kept | Shortened | Cleared

  /** Characters of the entries before position n that got this treatment. */
  function Spent(history: seq<Entry>, ts: seq<Treatment>, t: Treatment, n: nat): nat
    requires n <= |history| && n <= |ts|
  {
    if n == 0 then 0
    else Spent(history, ts, t, n - 1) + if ts[n - 1] == t then |Trim(history[n - 1].text)| else 0
  }

  /** A fraction of the characters, rounded toward zero. */
  function TargetOf(total: nat, ratio: real): int {
    var x := total as real * ratio;
    if x >= 0.0 then x.Floor else -(-x).Floor
  }

  datatype Budget = Budget(softTarget: int, hardTarget: int)

  /** What the entry at i gets, given what the budgets have paid for so far. */
  function Decide(
    history: seq<Entry>, cutoff: int, p: Policy, prunable: string -> bool, b: Budget, i: nat,
    soft: nat, hard: nat): Treatment
    requires i < |history|
  {
    var text := Trim(history[i].text);
    if !Eligible(history, cutoff, p, prunable, i) || text == "" then Kept
    else if soft < b.softTarget && SoftTrimToolResult(text, p) != text then Shortened
    else if p.hardClearEnabled && hard < b.hardTarget then Cleared
    else Kept
  }

  function Treat(e: Entry, p: Policy, t: Treatment): Entry {
    var text := Trim(e.text);
    match t
    case Kept => e
    case Shortened => e.(text := SoftTrimToolResult(text, p))
    case Cleared => e.(text := HardClearPlaceholder(p, |text|))
  }

  /** Each entry is treated in turn, against what the earlier ones have spent. */
  predicate Treated(
    history: seq<Entry>, cutoff: int, p: Policy, prunable: string -> bool, b: Budget, ts: seq<Treatment>, n: nat)
    requires n <= |history|
  {
    && |ts| == n
    && forall i :: 0 <= i < n ==>
         ts[i] == Decide(history, cutoff, p, prunable, b, i,
                         Spent(history, ts, Shortened, i), Spent(history, ts, Cleared, i))
  }

  /** All characters that could be pruned. */
  function Prunable(history: seq<Entry>, cutoff: int, p: Policy, prunable: string -> bool, n: nat): nat
    requires n <= |history|
  {
    if n == 0 then 0
    else
      Prunable(history, cutoff, p, prunable, n - 1)
      + if Eligible(history, cutoff, p, prunable, n - 1) then |Trim(history[n - 1].text)| else 0
  }

  function BudgetFor(total: nat, p: Policy): Budget {
    Budget(TargetOf(total, p.softTrimRatio), TargetOf(total, p.hardClearRatio))
  }

  /** A cleared result says so, in the configured words if there are any, and how long it was. */
  lemma ClearedSays(e: Entry, p: Policy)
    ensures
      var r, own := Treat(e, p, Cleared).text, Trim(p.hardClearPlaceholder);
      && (own != "" ==> own <= r) && (own == "" ==> "[Old tool result content cleared]" <= r)
      && r[if own != "" then |own| else 33..] == " (" + Decimal(|Trim(e.text)|) + " chars)"
  {
    hide Trim, Decimal;
  }

  /** Short results stay as they are: by default up to 4000 characters, or where head and tail would cover them. */
  lemma ShortResultsStay(text: string, p: Policy)
    ensures p.softTrimMaxChars <= 0 && |text| <= 4000 ==> SoftTrimToolResult(text, p) == text
    ensures p.softTrimMaxChars > 0 && |text| <= p.softTrimMaxChars ==> SoftTrimToolResult(text, p) == text
    ensures p.softTrimHeadChars <= 0 && p.softTrimTailChars <= 0 && |text| <= 3000 ==>
              SoftTrimToolResult(text, p) == text
    ensures p.softTrimHeadChars > 0 && p.softTrimTailChars > 0 ==>
              (|text| <= p.softTrimHeadChars + p.softTrimTailChars ==> SoftTrimToolResult(text, p) == text)
  {
  }

  /** Each budget is its own share of what could be pruned, rounded down. */
  lemma BudgetsAreShares(total: nat, p: Policy)
    ensures
      var b := BudgetFor(total, p);
      && (p.softTrimRatio >= 0.0 ==> 0.0 <= total as real * p.softTrimRatio - b.softTarget as real < 1.0)
      && (p.hardClearRatio >= 0.0 ==> 0.0 <= total as real * p.hardClearRatio - b.hardTarget as real < 1.0)
      && (p.softTrimRatio <= 0.0 ==> b.softTarget <= 0) && (p.hardClearRatio <= 0.0 ==> b.hardTarget <= 0)
  {
    TargetIsShare(total, p.softTrimRatio);
    TargetIsShare(total, p.hardClearRatio);
  }

  lemma TargetIsShare(total: nat, ratio: real)
    ensures ratio >= 0.0 ==> 0.0 <= total as real * ratio - TargetOf(total, ratio) as real < 1.0
    ensures ratio <= 0.0 ==> TargetOf(total, ratio) <= 0
  {
    var t := total as real;
    if ratio >= 0.0 { assert t * ratio >= 0.0; } else { assert t * (-ratio) >= 0.0; }
  }

  /** `out` is the history with these treatments, which keep to the budgets. */
  predicate Pruned(
    history: seq<Entry>, cutoff: int, p: Policy, prunable: string -> bool, ts: seq<Treatment>, out: seq<Entry>)
  {
    var total := Prunable(history, cutoff, p, prunable, |history|);
    && Treated(history, cutoff, p, prunable, BudgetFor(total, p), ts, |history|)
    && |out| == |history|
    && forall i :: 0 <= i < |history| ==> out[i] == Treat(history[i], p, ts[i])
  }

  method ApplyContextPruning(history: seq<Entry>, p: Policy, prunable: string -> bool)
    returns (out: seq<Entry>)
    ensures exists cutoff, ts :: IsCutoff(history, p, cutoff) && Pruned(history, cutoff, p, prunable, ts, out)
  {
    hide Trim, Eligible, IsAssistant, SoftTrimToolResult, HardClearPlaceholder, TargetOf, Treated, Spent;
    var cutoff := PruningAssistantCutoff(history, p);
    var total, candidates := CollectPrunable(history, cutoff, p, prunable);
    var b := BudgetFor(total, p);
    var softTrimmed, hardCleared := 0, 0;
    out := history;
    ghost var ts: seq<Treatment> := [];
    NothingTreated(history, cutoff, p, prunable, b);
    for i := 0 to |history|
      invariant |ts| == i && Treated(history, cutoff, p, prunable, b, ts, i)
      invariant softTrimmed == Spent(history, ts, Shortened, i) && hardCleared == Spent(history, ts, Cleared, i)
      invariant |out| == |history| && forall k :: i <= k < |out| ==> out[k] == history[k]
      invariant forall k :: 0 <= k < i ==> out[k] == Treat(history[k], p, ts[k])
    {
      var t := Kept;
      var text := Trim(out[i].text);
      if candidates[i] && text != "" {
        if b.softTarget > 0 && softTrimmed < b.softTarget && SoftTrimToolResult(text, p) != text {
          t := Shortened;
          out := out[i := out[i].(text := SoftTrimToolResult(text, p))];
        } else if p.hardClearEnabled && b.hardTarget > 0 && hardCleared < b.hardTarget {
          t := Cleared;
          out := out[i := out[i].(text := HardClearPlaceholder(p, |text|))];
        }
      }
      TreatedSnoc(history, cutoff, p, prunable, b, ts, i, t);
      if t == Shortened { softTrimmed := softTrimmed + |text|; }
      if t == Cleared { hardCleared := hardCleared + |text|; }
      ts := ts + [t];
    }
    assert Pruned(history, cutoff, p, prunable, ts, out);
  }

  lemma NothingTreated(history: seq<Entry>, cutoff: int, p: Policy, prunable: string -> bool, b: Budget)
    ensures Treated(history, cutoff, p, prunable, b, [], 0)
    ensures forall t :: Spent(history, [], t, 0) == 0
  {
  }

  lemma TreatedSnoc(
    history: seq<Entry>, cutoff: int, p: Policy, prunable: string -> bool, b: Budget, ts: seq<Treatment>, n: nat,
    t: Treatment)
    requires n < |history| && Treated(history, cutoff, p, prunable, b, ts, n)
    requires t == Decide(history, cutoff, p, prunable, b, n,
                         Spent(history, ts, Shortened, n), Spent(history, ts, Cleared, n))
    ensures Treated(history, cutoff, p, prunable, b, ts + [t], n + 1)
    ensures forall u :: Spent(history, ts + [t], u, n + 1)
                     == Spent(history, ts, u, n) + if u == t then |Trim(history[n].text)| else 0
  {
    hide Trim, Decide, Spent;
    SpentSnoc(history, ts, t, n);
    forall u ensures Spent(history, ts + [t], u, n + 1)
                  == Spent(history, ts + [t], u, n) + if u == t then |Trim(history[n].text)| else 0
    {
      SpentLast(history, ts + [t], u, n);
    }
    forall i | 0 <= i <= n
      ensures (ts + [t])[i] == Decide(history, cutoff, p, prunable, b, i, Spent(history, ts + [t], Shortened, i),
                                      Spent(history, ts + [t], Cleared, i))
    {
    }
  }

  lemma SpentLast(history: seq<Entry>, ts: seq<Treatment>, u: Treatment, n: nat)
    requires n < |history| && n < |ts|
    ensures Spent(history, ts, u, n + 1)
         == Spent(history, ts, u, n) + if ts[n] == u then |Trim(history[n].text)| else 0
  {
    hide Trim;
  }

  lemma SpentSnoc(history: seq<Entry>, ts: seq<Treatment>, t: Treatment, n: nat)
    requires n < |history| && |ts| == n
    ensures forall u, k :: 0 <= k <= n ==> Spent(history, ts + [t], u, k) == Spent(history, ts, u, k)
  {
    hide Trim;
    forall u, k | 0 <= k <= n ensures Spent(history, ts + [t], u, k) == Spent(history, ts, u, k) {
      SpentPrefix(history, ts, ts + [t], u, k);
    }
  }

  lemma {:induction false} SpentPrefix(history: seq<Entry>, a: seq<Treatment>, b: seq<Treatment>, u: Treatment, n: nat)
    requires n <= |history| && n <= |a| && n <= |b| && a[..n] == b[..n]
    ensures Spent(history, a, u, n) == Spent(history, b, u, n)
  {
    hide Trim;
    if n > 0 {
      assert a[n - 1] == a[..n][n - 1] == b[n - 1];
      assert a[..n - 1] == a[..n][..n - 1] == b[..n - 1];
      SpentPrefix(history, a, b, u, n - 1);
    }
  }

  method CollectPrunable(history: seq<Entry>, cutoff: int, p: Policy, prunable: string -> bool)
    returns (total: nat, candidates: seq<bool>)
    ensures |candidates| == |history| && total == Prunable(history, cutoff, p, prunable, |history|)
    ensures forall i :: 0 <= i < |history| ==> candidates[i] == Eligible(history, cutoff, p, prunable, i)
  {
    hide Trim;
    total, candidates := 0, [];
    for i := 0 to |history|
      invariant |candidates| == i && total == Prunable(history, cutoff, p, prunable, i)
      invariant forall k :: 0 <= k < i ==> candidates[k] == Eligible(history, cutoff, p, prunable, k)
    {
      var eligible := Eligible(history, cutoff, p, prunable, i);
      if eligible { total := total + |Trim(history[i].text)|; }
      candidates := candidates + [eligible];
    }
  }

  // ---- What the pruning guarantees ----

  lemma DecidedAt(
    history: seq<Entry>, cutoff: int, p: Policy, prunable: string -> bool, b: Budget, ts: seq<Treatment>, i: nat)
    requires Treated(history, cutoff, p, prunable, b, ts, |history|) && i < |history|
    ensures |ts| == |history|
    ensures ts[i] == Decide(history, cutoff, p, prunable, b, i,
                            Spent(history, ts, Shortened, i), Spent(history, ts, Cleared, i))
    ensures ts[i] != Kept ==>
              Eligible(history, cutoff, p, prunable, i) && Spent(history, ts, ts[i], i) < Target(b, ts[i])
  {
    hide Trim, Eligible, SoftTrimToolResult;
  }

  /** Everything from the cutoff on stays, and so does every entry that is not an old, long, prunable result. */
  lemma OthersStay(
    history: seq<Entry>, cutoff: int, p: Policy, prunable: string -> bool, b: Budget, ts: seq<Treatment>, i: nat)
    requires Treated(history, cutoff, p, prunable, b, ts, |history|) && i < |history|
    requires i >= cutoff || Trim(Lower(history[i].kind)) != "tool_result" || !prunable(history[i].toolName)
             || |Trim(history[i].text)| < if p.minPrunableToolChars <= 0 then 50000 else p.minPrunableToolChars
    ensures Treat(history[i], p, ts[i]) == history[i]
  {
    hide Trim;
    assert !Eligible(history, cutoff, p, prunable, i);
  }

  lemma {:induction false} SpentGrows(history: seq<Entry>, ts: seq<Treatment>, t: Treatment, i: nat, j: nat)
    requires i <= j <= |history| && j <= |ts|
    ensures Spent(history, ts, t, i) <= Spent(history, ts, t, j)
    decreases j
  {
    hide Trim;
    if i < j { SpentGrows(history, ts, t, i, j - 1); }
  }

  function Target(b: Budget, t: Treatment): int
    requires t != Kept
  {
    if t == Shortened then b.softTarget else b.hardTarget
  }

  /** What is spent beyond a budget comes from the last entry charged to it. */
  lemma {:induction false} OvershotByLastOnly(
    history: seq<Entry>, cutoff: int, p: Policy, prunable: string -> bool, b: Budget, ts: seq<Treatment>,
    t: Treatment, n: nat)
    returns (last: nat)
    requires Treated(history, cutoff, p, prunable, b, ts, |history|) && n <= |history|
    requires t != Kept && Spent(history, ts, t, n) > 0
    ensures last < n && ts[last] == t
    ensures Spent(history, ts, t, n) == Spent(history, ts, t, last) + |Trim(history[last].text)|
    ensures Spent(history, ts, t, last) < Target(b, t)
  {
    hide Trim, Eligible, Decide, Treated;
    DecidedAt(history, cutoff, p, prunable, b, ts, n - 1);
    if ts[n - 1] == t { return n - 1; }
    last := OvershotByLastOnly(history, cutoff, p, prunable, b, ts, t, n - 1);
  }

  predicate Shortenable(history: seq<Entry>, cutoff: int, p: Policy, prunable: string -> bool, i: nat)
    requires i < |history|
  {
    && i < cutoff && Trim(Lower(history[i].kind)) == "tool_result" && prunable(history[i].toolName)
    && |Trim(history[i].text)| >= (if p.minPrunableToolChars <= 0 then 50000 else p.minPrunableToolChars)
    && Trim(history[i].text) != "" && SoftTrimToolResult(Trim(history[i].text), p) != Trim(history[i].text)
  }

  /** Oldest first: no result is shortened while an older one that could have been was passed over. */
  lemma OldestFirst(
    history: seq<Entry>, cutoff: int, p: Policy, prunable: string -> bool, b: Budget, ts: seq<Treatment>,
    i: nat, j: nat)
    requires Treated(history, cutoff, p, prunable, b, ts, |history|) && i < j < |history|
    requires Shortenable(history, cutoff, p, prunable, i) && ts[j] == Shortened
    ensures ts[i] == Shortened
  {
    hide Trim, SoftTrimToolResult;
    SpentGrows(history, ts, Shortened, i, j);
  }

  /** A result that could be shortened is kept only when both budgets are spent (or clearing is off). */
  lemma KeptOnlyWhenSpent(
    history: seq<Entry>, cutoff: int, p: Policy, prunable: string -> bool, b: Budget, ts: seq<Treatment>, i: nat)
    requires Treated(history, cutoff, p, prunable, b, ts, |history|) && i < |history|
    requires Shortenable(history, cutoff, p, prunable, i) && ts[i] == Kept
    ensures Spent(history, ts, Shortened, |history|) >= b.softTarget
    ensures p.hardClearEnabled ==> Spent(history, ts, Cleared, |history|) >= b.hardTarget
  {
    hide Trim, SoftTrimToolResult;
    SpentGrows(history, ts, Shortened, i, |history|);
    SpentGrows(history, ts, Cleared, i, |history|);
  }

  /** The two budgets never pay for more than there is. */
  lemma {:induction false} SpentWithinPrunable(
    history: seq<Entry>, cutoff: int, p: Policy, prunable: string -> bool, b: Budget, ts: seq<Treatment>, n: nat)
    requires Treated(history, cutoff, p, prunable, b, ts, |history|) && n <= |history|
    ensures Spent(history, ts, Shortened, n) + Spent(history, ts, Cleared, n)
         <= Prunable(history, cutoff, p, prunable, n)
  {
    hide Trim, Eligible, Decide, Treated;
    if n == 0 { return; }
    DecidedAt(history, cutoff, p, prunable, b, ts, n - 1);
    SpentWithinPrunable(history, cutoff, p, prunable, b, ts, n - 1);
  }

  /** The rule fixes the treatments. */
  lemma {:induction false} TreatmentsUnique(
    history: seq<Entry>, cutoff: int, p: Policy, prunable: string -> bool, b: Budget,
    x: seq<Treatment>, y: seq<Treatment>, n: nat)
    requires Treated(history, cutoff, p, prunable, b, x, |history|)
    requires Treated(history, cutoff, p, prunable, b, y, |history|) && n <= |history|
    ensures x[..n] == y[..n]
  {
    hide Trim, Decide, Treated, Spent;
    if n > 0 {
      DecidedAt(history, cutoff, p, prunable, b, x, n - 1);
      DecidedAt(history, cutoff, p, prunable, b, y, n - 1);
      TreatmentsUnique(history, cutoff, p, prunable, b, x, y, n - 1);
      SpentPrefix(history, x, y, Shortened, n - 1);
      SpentPrefix(history, x, y, Cleared, n - 1);
      assert x[..n] == x[..n - 1] + [x[n - 1]] && y[..n] == y[..n - 1] + [y[n - 1]];
    }
  }
}
