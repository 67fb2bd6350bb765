/** Token estimates and the pruning of stale tool output. */
module Prune {
  import opened Text
  import opened Transcript

  const IMAGE_TOKENS := 1000
  const PROTECT_RECENT_TOKENS := 40000
  const MIN_RECLAIM_TOKENS := 20000
  const MIN_BODY_TOKENS := 200

  // ---------------------------------------------------------------------------------------------
  // Estimates
  // ---------------------------------------------------------------------------------------------

  function NonSpace(s: string): nat {
    if s == [] then 0 else NonSpace(s[..|s| - 1]) + if IsSpace(s[|s| - 1]) then 0 else 1
  }

  function Tokens(s: string): nat { NonSpace(s) / 4 }

  function CallTokens(calls: seq<ToolCall>): nat {
    if calls == [] then 0
    else
      var c := calls[|calls| - 1];
      CallTokens(calls[..|calls| - 1]) + Tokens(c.name) + Tokens(c.arguments) + 4
  }

  function MessageTokens(m: Message): nat {
    Tokens(m.content) + CallTokens(m.calls) + m.images * IMAGE_TOKENS + 4
  }

  function EstimateTokens(ms: seq<Message>): nat {
    if ms == [] then 0 else EstimateTokens(ms[..|ms| - 1]) + MessageTokens(ms[|ms| - 1])
  }

  method ApproxTextTokens(value: string) returns (tokens: nat)
    ensures tokens == Tokens(value)
  {
    var nonSpace := 0;
    for i := 0 to |value|
      invariant nonSpace == NonSpace(value[..i])
    {
      assert value[..i + 1][..i] == value[..i];
      if !IsSpace(value[i]) {
        nonSpace := nonSpace + 1;
      }
    }
    assert value[..|value|] == value;
    tokens := nonSpace / 4;
  }

  method EstimateMessages(ms: seq<Message>) returns (total: nat)
    ensures total == EstimateTokens(ms)
  {
    total := 0;
    for i := 0 to |ms|
      invariant total == EstimateTokens(ms[..i])
    {
      assert ms[..i + 1][..i] == ms[..i];
      var calls := ms[i].calls;
      var content := ApproxTextTokens(ms[i].content);
      var callTotal := 0;
      for j := 0 to |calls|
        invariant callTotal == CallTokens(calls[..j])
      {
        assert calls[..j + 1][..j] == calls[..j];
        var name := ApproxTextTokens(calls[j].name);
        var arguments := ApproxTextTokens(calls[j].arguments);
        callTotal := callTotal + name + arguments + 4;
      }
      assert calls[..|calls|] == calls;
      total := total + content + callTotal + ms[i].images * IMAGE_TOKENS + 4;
    }
    assert ms[..|ms|] == ms;
  }

  // ---------------------------------------------------------------------------------------------
  // What pruning does
  // ---------------------------------------------------------------------------------------------

  function Decimal(n: nat): string {
    if n < 10 then [('0' as int + n) as char] else Decimal(n / 10) + [('0' as int + n % 10) as char]
  }

  function Placeholder(toolName: string, tokens: nat): string {
    "[pruned " + ((if toolName == "" then "tool" else toolName) + " output (~" + Decimal(tokens)
                  + " tokens) to reclaim context \U{E2}\U{80}\U{94} re-run the tool if you need it again]")
  }

  predicate IsPlaceholder(content: string) {
    "[pruned " <= TrimSpace(content)
  }

  lemma PlaceholderIsPlaceholder(toolName: string, tokens: nat)
    ensures IsPlaceholder(Placeholder(toolName, tokens))
  {
    TrimKeepsPrefixAnd("[pruned ", Placeholder(toolName, tokens));
  }

  /** A prefix that ends in a space survives trimming when more text, not all of it space, follows. */
  lemma TrimKeepsPrefixAnd(p: string, s: string)
    requires p != [] && !IsSpace(p[0]) && p <= s
    requires !IsSpace(s[|s| - 1])
    ensures p <= TrimSpace(s)
  {
    assert s[0] == p[0];
  }

  /** Tokens of tool output from message `i` on. */
  function ToolTokensFrom(ms: seq<Message>, i: nat): nat
    requires i <= |ms|
    decreases |ms| - i
  {
    if i == |ms| then 0
    else (if ms[i].role == Tool then Tokens(ms[i].content) else 0) + ToolTokensFrom(ms, i + 1)
  }

  /** Message `i` is stale tool output: outside the last `keep` messages, behind at least the
      protected window of later tool output, large, and not already pruned. */
  predicate Prunable(ms: seq<Message>, keep: int, i: nat)
    requires i < |ms|
  {
    && ms[i].role == Tool
    && i < |ms| - (if keep < 0 then 0 else keep)
    && ToolTokensFrom(ms, i + 1) >= PROTECT_RECENT_TOKENS
    && Tokens(ms[i].content) >= MIN_BODY_TOKENS
    && !IsPlaceholder(ms[i].content)
  }

  /** In numbers: a tool result outside the last messages to keep, with 40,000 tokens of tool output behind it, of 200 tokens
      or more, and not pruned already; and pruning is done if that frees 20,000. */
  lemma PrunableMeans(ms: seq<Message>, keep: nat, i: nat)
    requires i < |ms|
    ensures Prunable(ms, keep, i) <==>
              ms[i].role == Tool && i + keep < |ms| && ToolTokensFrom(ms, i + 1) >= 40000 && NonSpace(ms[i].content) >= 800
              && !("[pruned " <= TrimSpace(ms[i].content))
    ensures Reclaimable(ms, keep, 0) < 20000 ==> Pruned(ms, keep) == (ms, 0)
    ensures Reclaimable(ms, keep, 0) >= 20000 && Prunable(ms, keep, i) ==> Pruned(ms, keep).0[i] == ms[i].(content := PrunedBody(ms, i))
  {
    hide TrimSpace, NonSpace, ToolTokensFrom, Reclaimable, Reclaimed, PrunedBody;
  }

  function CallNamed(calls: seq<ToolCall>, id: string): Option<string> {
    if calls == [] then None
    else if calls[0].id == id then Some(calls[0].name)
    else CallNamed(calls[1..], id)
  }

  function CallBefore(ms: seq<Message>, j: nat, id: string): string
    requires j <= |ms|
  {
    if j == 0 then ""
    else if CallNamed(ms[j - 1].calls, id).Some? then CallNamed(ms[j - 1].calls, id).value
    else CallBefore(ms, j - 1, id)
  }

  function ToolName(ms: seq<Message>, i: nat): string
    requires i < |ms|
  {
    if ms[i].callID == "" then "" else CallBefore(ms, i, ms[i].callID)
  }

  function PrunedBody(ms: seq<Message>, i: nat): string
    requires i < |ms|
  {
    Placeholder(ToolName(ms, i), Tokens(ms[i].content))
  }

  function Reclaimable(ms: seq<Message>, keep: int, i: nat): nat
    requires i <= |ms|
    decreases |ms| - i
  {
    if i == |ms| then 0
    else (if Prunable(ms, keep, i) then Tokens(ms[i].content) else 0) + Reclaimable(ms, keep, i + 1)
  }

  function Reclaimed(ms: seq<Message>, keep: int, i: nat): int
    requires i <= |ms|
    decreases |ms| - i
  {
    if i == |ms| then 0
    else (if Prunable(ms, keep, i) then Tokens(ms[i].content) - Tokens(PrunedBody(ms, i)) else 0)
         + Reclaimed(ms, keep, i + 1)
  }

  function PrunedFrom(ms: seq<Message>, keep: int, from: nat): (out: seq<Message>)
    ensures |out| == |ms|
    ensures forall i | 0 <= i < |ms| ::
              out[i] == if from <= i && Prunable(ms, keep, i) then ms[i].(content := PrunedBody(ms, i)) else ms[i]
  {
    seq(|ms|, i requires 0 <= i < |ms| =>
      if from <= i && Prunable(ms, keep, i) then ms[i].(content := PrunedBody(ms, i)) else ms[i])
  }

  function Pruned(ms: seq<Message>, keep: int): (seq<Message>, int) {
    if Reclaimable(ms, keep, 0) < MIN_RECLAIM_TOKENS then (ms, 0)
    else (PrunedFrom(ms, keep, 0), Reclaimed(ms, keep, 0))
  }

  // ---------------------------------------------------------------------------------------------
  // The code
  // ---------------------------------------------------------------------------------------------

  method ToolNameForResult(ms: seq<Message>, index: nat) returns (name: string)
    requires index < |ms|
    ensures name == ToolName(ms, index)
  {
    var id := ms[index].callID;
    if id == "" {
      return "";
    }
    var j := index;
    while j > 0
      invariant 0 <= j <= index
      invariant CallBefore(ms, index, id) == CallBefore(ms, j, id)
    {
      j := j - 1;
      var calls := ms[j].calls;
      for k := 0 to |calls|
        invariant CallNamed(calls, id) == CallNamed(calls[k..], id)
      {
        assert calls[k..][1..] == calls[k + 1..];
        if calls[k].id == id {
          return calls[k].name;
        }
      }
    }
    name := "";
  }

  /** The backward scan: which messages to prune, newest first, and how much that would reclaim. */
  method Candidates(ms: seq<Message>, keep: nat) returns (candidates: seq<nat>, reclaimable: nat)
    ensures reclaimable == Reclaimable(ms, keep, 0)
    ensures ListsPrunable(ms, keep, candidates)
  {
    candidates, reclaimable := [], 0;
    var recent := 0;
    var i := |ms|;
    while i > 0
      invariant 0 <= i <= |ms|
      invariant reclaimable == Reclaimable(ms, keep, i)
      invariant i >= |ms| - keep ==> recent == ToolTokensFrom(ms, i)
      invariant recent < PROTECT_RECENT_TOKENS ==> recent == ToolTokensFrom(ms, i)
      invariant recent <= ToolTokensFrom(ms, i)
      invariant forall k | 0 <= k < |candidates| :: i <= candidates[k] < |ms| && Prunable(ms, keep, candidates[k])
      invariant forall k, l | 0 <= k < l < |candidates| :: candidates[l] < candidates[k]
      invariant forall k | i <= k < |ms| && Prunable(ms, keep, k) :: k in candidates
    {
      i := i - 1;
      var m := ms[i];
      if m.role != Tool { continue; }
      var bodyTokens := ApproxTextTokens(m.content);
      if i >= |ms| - keep {
        recent := recent + bodyTokens;
        continue;
      }
      if recent < PROTECT_RECENT_TOKENS {
        recent := recent + bodyTokens;
        continue;
      }
      if bodyTokens < MIN_BODY_TOKENS || IsPlaceholder(m.content) { continue; }
      candidates := candidates + [i];
      reclaimable := reclaimable + bodyTokens;
    }
  }

  method PruneStaleToolOutput(ms: seq<Message>, preserveLast: int) returns (out: seq<Message>, reclaimed: int)
    ensures (out, reclaimed) == Pruned(ms, preserveLast)
  {
    if |ms| == 0 {
      return ms, 0;
    }
    var keep := if preserveLast < 0 then 0 else preserveLast;
    KeepClamped(ms, preserveLast, 0);
    assert Pruned(ms, preserveLast) == Pruned(ms, keep);
    var candidates, reclaimable := Candidates(ms, keep);
    if reclaimable < MIN_RECLAIM_TOKENS || |candidates| == 0 {
      if |candidates| == 0 {
        NothingReclaimable(ms, keep, 0);
      }
      return ms, 0;
    }
    out, reclaimed := RewriteCandidates(ms, keep, candidates);
  }

  /** The newest-first list of exactly the prunable positions. */
  ghost predicate ListsPrunable(ms: seq<Message>, keep: nat, candidates: seq<nat>) {
    && (forall k | 0 <= k < |candidates| :: candidates[k] < |ms| && Prunable(ms, keep, candidates[k]))
    && (forall k, l | 0 <= k < l < |candidates| :: candidates[l] < candidates[k])
    && (forall i | 0 <= i < |ms| && Prunable(ms, keep, i) :: i in candidates)
  }

  /** Where the first `n` candidates leave off. */
  ghost function Reached(ms: seq<Message>, candidates: seq<nat>, n: nat): nat
    requires n <= |candidates|
  {
    if n == 0 then |ms| else candidates[n - 1]
  }

  lemma NothingBetween(ms: seq<Message>, keep: nat, candidates: seq<nat>, n: nat, k: nat)
    requires ListsPrunable(ms, keep, candidates) && n <= |candidates|
    requires (if n == |candidates| then true else candidates[n] < k) && k < Reached(ms, candidates, n) && k < |ms|
    ensures !Prunable(ms, keep, k)
  {
    assert Prunable(ms, keep, k) ==> k in candidates;
  }

  method RewriteCandidates(ms: seq<Message>, keep: nat, candidates: seq<nat>)
    returns (out: seq<Message>, reclaimed: int)
    requires ListsPrunable(ms, keep, candidates)
    ensures out == PrunedFrom(ms, keep, 0) && reclaimed == Reclaimed(ms, keep, 0)
  {
    hide PrunedBody, ToolTokensFrom;
    out, reclaimed := ms, 0;
    ghost var from := |ms|;
    NoneReached(ms, keep);
    for n := 0 to |candidates|
      invariant from == Reached(ms, candidates, n) <= |ms|
      invariant out == PrunedFrom(ms, keep, from)
      invariant reclaimed == Reclaimed(ms, keep, from)
    {
      var i := candidates[n];
      Gap(ms, keep, candidates, n);
      var saved;
      out, saved := RewriteOne(ms, keep, out, i, from);
      reclaimed := reclaimed + saved;
      from := i;
    }
    AllReached(ms, keep, candidates);
  }

  lemma NoneReached(ms: seq<Message>, keep: int)
    ensures PrunedFrom(ms, keep, |ms|) == ms
  {
  }

  lemma AllReached(ms: seq<Message>, keep: nat, candidates: seq<nat>)
    requires ListsPrunable(ms, keep, candidates) && Reached(ms, candidates, |candidates|) <= |ms|
    ensures var from := Reached(ms, candidates, |candidates|);
            PrunedFrom(ms, keep, from) == PrunedFrom(ms, keep, 0) && Reclaimed(ms, keep, from) == Reclaimed(ms, keep, 0)
  {
    hide PrunedBody;
    var from := Reached(ms, candidates, |candidates|);
    forall k | 0 <= k < from ensures !Prunable(ms, keep, k) {
      NothingBetween(ms, keep, candidates, |candidates|, k);
    }
    ReclaimedSkips(ms, keep, 0, from);
  }

  method RewriteOne(ms: seq<Message>, keep: nat, out0: seq<Message>, i: nat, ghost from: nat)
    returns (out: seq<Message>, saved: int)
    requires i < from <= |ms| && Prunable(ms, keep, i) && out0 == PrunedFrom(ms, keep, from)
    requires forall k | i < k < from :: !Prunable(ms, keep, k)
    ensures out == PrunedFrom(ms, keep, i)
    ensures Reclaimed(ms, keep, i) == Reclaimed(ms, keep, from) + saved
  {
    SameNames(ms, out0, i);
    var toolName := ToolNameForResult(out0, i);
    var tokens: int := ApproxTextTokens(ms[i].content);
    var newBody := Placeholder(toolName, tokens);
    var newTokens: int := ApproxTextTokens(newBody);
    PrunedFromStep(ms, keep, i, from);
    ReclaimedStep(ms, keep, i, from);
    out, saved := out0[i := out0[i].(content := newBody)], tokens - newTokens;
  }

  lemma Gap(ms: seq<Message>, keep: nat, candidates: seq<nat>, n: nat)
    requires ListsPrunable(ms, keep, candidates) && n < |candidates|
    ensures candidates[n] < Reached(ms, candidates, n) <= |ms| && Prunable(ms, keep, candidates[n])
    ensures forall k | candidates[n] < k < Reached(ms, candidates, n) :: !Prunable(ms, keep, k)
  {
    assert n > 0 ==> candidates[n] < candidates[n - 1];
    forall k | candidates[n] < k < Reached(ms, candidates, n) ensures !Prunable(ms, keep, k) {
      NothingBetween(ms, keep, candidates, n, k);
    }
  }

  lemma ReclaimedStep(ms: seq<Message>, keep: int, i: nat, from: nat)
    requires i < from <= |ms| && Prunable(ms, keep, i)
    requires forall k | i < k < from :: !Prunable(ms, keep, k)
    ensures Reclaimed(ms, keep, i) == Reclaimed(ms, keep, from) + Tokens(ms[i].content) - Tokens(PrunedBody(ms, i))
  {
    hide PrunedBody;
    ReclaimedSkips(ms, keep, i + 1, from);
  }

  lemma PrunedFromStep(ms: seq<Message>, keep: int, i: nat, from: nat)
    requires i < from <= |ms| && Prunable(ms, keep, i)
    requires forall k | i < k < from :: !Prunable(ms, keep, k)
    ensures PrunedFrom(ms, keep, i) == PrunedFrom(ms, keep, from)[i := ms[i].(content := PrunedBody(ms, i))]
  {
    var a, b := PrunedFrom(ms, keep, i), PrunedFrom(ms, keep, from)[i := ms[i].(content := PrunedBody(ms, i))];
    assert |a| == |b|;
    forall j | 0 <= j < |ms| ensures a[j] == b[j] {
    }
  }

  lemma {:induction false} KeepClamped(ms: seq<Message>, keep: int, i: nat)
    requires i <= |ms|
    ensures var k := if keep < 0 then 0 else keep;
            Reclaimable(ms, keep, i) == Reclaimable(ms, k, i) && Reclaimed(ms, keep, i) == Reclaimed(ms, k, i)
            && PrunedFrom(ms, keep, 0) == PrunedFrom(ms, k, 0)
    decreases |ms| - i
  {
    if i < |ms| {
      KeepClamped(ms, keep, i + 1);
    }
  }

  lemma {:induction false} NothingReclaimable(ms: seq<Message>, keep: int, i: nat)
    requires i <= |ms| && forall k | i <= k < |ms| :: !Prunable(ms, keep, k)
    ensures Reclaimable(ms, keep, i) == 0 && Reclaimed(ms, keep, i) == 0
    decreases |ms| - i
  {
    if i < |ms| {
      NothingReclaimable(ms, keep, i + 1);
    }
  }

  lemma {:induction false} ReclaimedSkips(ms: seq<Message>, keep: int, i: nat, from: nat)
    requires i <= from <= |ms| && forall k | i <= k < from :: !Prunable(ms, keep, k)
    ensures Reclaimed(ms, keep, i) == Reclaimed(ms, keep, from)
    decreases from - i
  {
    if i < from {
      ReclaimedSkips(ms, keep, i + 1, from);
    }
  }

  /** Only the bodies of tool results may differ. */
  ghost predicate SameShape(a: seq<Message>, b: seq<Message>) {
    |a| == |b| && forall i | 0 <= i < |a| :: SameButBody(a[i], b[i])
  }

  ghost predicate SameButBody(m: Message, n: Message) {
    m == n || (m.role == Tool && m.(content := n.content) == n)
  }

  lemma SameNames(a: seq<Message>, b: seq<Message>, i: nat)
    requires SameShape(a, b) && i < |a|
    ensures ToolName(a, i) == ToolName(b, i)
  {
    SameCallBefore(a, b, i, a[i].callID);
  }

  lemma {:induction false} SameCallBefore(a: seq<Message>, b: seq<Message>, j: nat, id: string)
    requires SameShape(a, b) && j <= |a|
    ensures CallBefore(a, j, id) == CallBefore(b, j, id)
  {
    if j > 0 {
      SameCallBefore(a, b, j - 1, id);
    }
  }

  // ---------------------------------------------------------------------------------------------
  // What a placeholder says
  // ---------------------------------------------------------------------------------------------

  /** The message makes a call with this id. */
  ghost predicate Calls(m: Message, id: string) {
    exists k :: 0 <= k < |m.calls| && m.calls[k].id == id
  }

  lemma {:induction false} NamedFirst(calls: seq<ToolCall>, id: string) returns (k: nat)
    ensures match CallNamed(calls, id)
            case Some(name) => k < |calls| && calls[k].id == id && calls[k].name == name && forall l | 0 <= l < k :: calls[l].id != id
            case None => forall l | 0 <= l < |calls| :: calls[l].id != id
  {
    k := 0;
    if calls != [] && calls[0].id != id {
      k := NamedFirst(calls[1..], id);
      assert forall l | 1 <= l < |calls| :: calls[l] == calls[1..][l - 1];
      k := k + 1;
    }
  }

  /** A result is named after the first call with its id in the latest earlier message that makes one. */
  lemma {:induction false} NamedLatest(ms: seq<Message>, i: nat, id: string) returns (j: nat, k: nat)
    requires i <= |ms|
    ensures if forall l | 0 <= l < i :: !Calls(ms[l], id) then CallBefore(ms, i, id) == ""
            else && j < i && k < |ms[j].calls| && ms[j].calls[k].id == id && CallBefore(ms, i, id) == ms[j].calls[k].name
                 && (forall l | j < l < i :: !Calls(ms[l], id)) && forall l | 0 <= l < k :: ms[j].calls[l].id != id
  {
    j, k := 0, 0;
    if i > 0 {
      j := i - 1;
      k := NamedFirst(ms[i - 1].calls, id);
      if CallNamed(ms[i - 1].calls, id).None? {
        j, k := NamedLatest(ms, i - 1, id);
      } else {
        assert Calls(ms[i - 1], id);
      }
    }
  }

  function Digit(c: char): int { c as int - '0' as int }

  /** The number a string of digits is. */
  function Read(s: string): int {
    if s == [] then 0 else 10 * Read(s[..|s| - 1]) + Digit(s[|s| - 1])
  }

  lemma {:induction false} DecimalReads(n: nat)
    ensures Read(Decimal(n)) == n
  {
    if n < 10 {
      assert Decimal(n)[..0] == [];
    } else {
      DecimalReads(n / 10);
      var last := [('0' as int + n % 10) as char];
      assert (Decimal(n / 10) + last)[..|Decimal(n / 10)|] == Decimal(n / 10);
    }
  }

  const PRUNED_TAIL := " tokens) to reclaim context \U{E2}\U{80}\U{94} re-run the tool if you need it again]"

  /** A placeholder tells how much output it stands for, and of which tool. */
  lemma PlaceholderTells(toolName: string, tokens: nat, more: nat)
    ensures var name := if toolName == "" then "tool" else toolName;
            && "[pruned " + name <= Placeholder(toolName, tokens)
            && (Placeholder(toolName, tokens) == Placeholder(toolName, more) ==> tokens == more)
  {
    hide Decimal;
    var name := if toolName == "" then "tool" else toolName;
    PlaceholderParts(name, Decimal(tokens));
    PlaceholderParts(name, Decimal(more));
    if Placeholder(toolName, tokens) == Placeholder(toolName, more) {
      SameNumber("[pruned " + name + " output (~", Decimal(tokens), Decimal(more), PRUNED_TAIL);
      DecimalReads(tokens);
      DecimalReads(more);
    }
  }

  lemma PlaceholderParts(name: string, number: string)
    ensures "[pruned " + (name + " output (~" + number + PRUNED_TAIL) == "[pruned " + name + " output (~" + (number + PRUNED_TAIL)
  {
  }

  lemma SameNumber(front: string, a: string, b: string, back: string)
    requires front + (a + back) == front + (b + back)
    ensures a == b
  {
    var all := front + (a + back);
    assert |a| == |b|;
    assert all[|front|..|front| + |a|] == a && all[|front|..|front| + |b|] == b;
  }

  /** What a message weighs: a token for four characters that are no space, four for itself and for each call, and a
      thousand for an image. */
  lemma MessageWeighs(m: Message, c: ToolCall)
    ensures MessageTokens(Note("")) == 4
    ensures MessageTokens(m.(images := m.images + 1)) == MessageTokens(m) + 1000
    ensures MessageTokens(m.(calls := m.calls + [c])) == MessageTokens(m) + NonSpace(c.name) / 4 + NonSpace(c.arguments) / 4 + 4
    ensures MessageTokens(m) - MessageTokens(m.(content := "")) == NonSpace(m.content) / 4
  {
    assert (m.calls + [c])[..|m.calls|] == m.calls;
  }

  // ---------------------------------------------------------------------------------------------
  // What is kept
  // ---------------------------------------------------------------------------------------------

  lemma AnsweredSameShape(a: seq<Message>, b: seq<Message>, i: nat)
    requires SameShape(a, b) && i < |a| && AnsweredAt(a, i)
    ensures AnsweredAt(b, i)
  {
    var k := |a[i].calls|;
    var before, after := a[i + 1..i + 1 + k], b[i + 1..i + 1 + k];
    forall j | 0 <= j < k ensures after[j].role == Tool && after[j].callID == a[i].calls[j].id && after[j].calls == [] {
      assert before[j] == a[i + 1 + j];
    }
  }

  lemma PairedSameShape(a: seq<Message>, b: seq<Message>)
    requires SameShape(a, b) && Paired(a)
    ensures Paired(b)
  {
    PairedIffByPosition(a);
    forall i | 0 <= i < |b| && b[i].role == Assistant ensures AnsweredAt(b, i) {
      assert AnsweredAt(a, i);
      AnsweredSameShape(a, b, i);
    }
    forall p | 0 <= p < |b| && b[p].role == Tool ensures ResultOwned(b, p) {
      assert ResultOwned(a, p);
      var i :| 0 <= i < p && OwnsResult(a, i, p);
      assert OwnsResult(b, i, p);
    }
    PairedIffByPosition(b);
  }

  /** Pruning keeps the transcript's shape, and with it the pairing. */
  lemma PruneKeepsPairing(ms: seq<Message>, keep: int)
    ensures SameShape(ms, Pruned(ms, keep).0)
    ensures Paired(ms) ==> Paired(Pruned(ms, keep).0)
  {
    if Paired(ms) {
      PairedSameShape(ms, Pruned(ms, keep).0);
    }
  }

  lemma {:induction false} EstimateConcat(a: seq<Message>, b: seq<Message>)
    ensures EstimateTokens(a + b) == EstimateTokens(a) + EstimateTokens(b)
  {
    if b == [] {
      assert a + b == a;
    } else {
      assert (a + b)[..|a + b| - 1] == a + b[..|b| - 1];
      EstimateConcat(a, b[..|b| - 1]);
    }
  }

  lemma EstimateOne(ms: seq<Message>, i: nat)
    requires i < |ms|
    ensures EstimateTokens(ms[i..]) == MessageTokens(ms[i]) + EstimateTokens(ms[i + 1..])
  {
    assert ms[i..] == [ms[i]] + ms[i + 1..];
    EstimateConcat([ms[i]], ms[i + 1..]);
    assert [ms[i]][..0] == [];
  }

  lemma {:induction false} SuffixConserved(ms: seq<Message>, keep: int, i: nat)
    requires i <= |ms|
    ensures EstimateTokens(PrunedFrom(ms, keep, 0)[i..]) + Reclaimed(ms, keep, i) == EstimateTokens(ms[i..])
    decreases |ms| - i
  {
    var out := PrunedFrom(ms, keep, 0);
    if i < |ms| {
      SuffixConserved(ms, keep, i + 1);
      EstimateOne(ms, i);
      EstimateOne(out, i);
    } else {
      assert ms[i..] == [] && out[i..] == [];
    }
  }

  /** Every token taken out of the estimate is reported as reclaimed, and none besides. */
  lemma PruneConserves(ms: seq<Message>, keep: int)
    ensures EstimateTokens(Pruned(ms, keep).0) + Pruned(ms, keep).1 == EstimateTokens(ms)
  {
    SuffixConserved(ms, keep, 0);
    assert ms[0..] == ms && PrunedFrom(ms, keep, 0)[0..] == PrunedFrom(ms, keep, 0);
  }

  /** The last `keep` messages, and every tool result with less than the protected window of tool
      output behind it, stay as they are; nothing but tool results is touched at all. */
  lemma PruneProtects(ms: seq<Message>, keep: nat, i: nat)
    requires i < |ms|
    requires ms[i].role != Tool || i >= |ms| - keep || ToolTokensFrom(ms, i + 1) < PROTECT_RECENT_TOKENS
    ensures Pruned(ms, keep).0[i] == ms[i]
  {
  }

  lemma {:induction false} ToolTokensDecrease(ms: seq<Message>, i: nat, j: nat)
    requires i <= j <= |ms|
    ensures ToolTokensFrom(ms, j) <= ToolTokensFrom(ms, i)
    decreases j - i
  {
    if i < j {
      ToolTokensDecrease(ms, i + 1, j);
    }
  }

  /** Behind a suffix that is still protected nothing has been pruned. */
  lemma {:induction false} ProtectedSuffixUnchanged(ms: seq<Message>, keep: int, i: nat)
    requires i <= |ms| && ToolTokensFrom(ms, i) < PROTECT_RECENT_TOKENS
    ensures ToolTokensFrom(PrunedFrom(ms, keep, 0), i) == ToolTokensFrom(ms, i)
    decreases |ms| - i
  {
    if i < |ms| {
      ToolTokensDecrease(ms, i, i + 1);
      ProtectedSuffixUnchanged(ms, keep, i + 1);
    }
  }

  /** A second pass finds nothing to do. */
  lemma PruneIdempotent(ms: seq<Message>, keep: int)
    ensures Pruned(Pruned(ms, keep).0, keep) == (Pruned(ms, keep).0, 0)
  {
    if Reclaimable(ms, keep, 0) >= MIN_RECLAIM_TOKENS {
      var out := PrunedFrom(ms, keep, 0);
      forall i | 0 <= i < |out| ensures !Prunable(out, keep, i) {
        if Prunable(ms, keep, i) {
          PlaceholderIsPlaceholder(ToolName(ms, i), Tokens(ms[i].content));
        } else if ToolTokensFrom(ms, i + 1) < PROTECT_RECENT_TOKENS {
          ProtectedSuffixUnchanged(ms, keep, i + 1);
        }
      }
      NothingReclaimable(out, keep, 0);
    }
  }
}
