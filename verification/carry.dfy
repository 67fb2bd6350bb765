/** Carrying the preserved state from summary to summary. */
module Carry {
  import opened Text
  import opened Transcript
  import opened Preserve
  import opened Extraction

  // ---------------------------------------------------------------------------------------------
  // Extraction over two stretches of transcript
  // ---------------------------------------------------------------------------------------------

  ghost predicate HasID(calls: seq<ToolCall>, id: string) {
    exists i :: 0 <= i < |calls| && calls[i].id == id
  }

  /** Results of these calls are read into the state: edits, skills and tool searches. */
  predicate IsStateCall(codec: Codec, c: ToolCall) {
    EditSource(codec).key(c).Some? || SkillSource(codec).key(c).Some? || ToolSource(codec).key(c).Some?
  }

  /** No result of `a` bears the id of a call the source files in `b`. */
  ghost predicate Misses(src: Source, a: seq<Message>, b: seq<Message>) {
    forall i | 0 <= i < |a| && a[i].role == Tool && a[i].callID != "" :: a[i].callID !in ByID(src, CallsOf(b))
  }

  /** In neither stretch is a result read into the state of a call made in the other. */
  ghost predicate Separate(codec: Codec, a: seq<Message>, b: seq<Message>) {
    && Misses(EditSource(codec), a, b) && Misses(EditSource(codec), b, a)
    && Misses(SkillSource(codec), a, b) && Misses(SkillSource(codec), b, a)
    && Misses(ToolSource(codec), a, b) && Misses(ToolSource(codec), b, a)
  }

  /** Every edited path has a result for one of its calls. */
  ghost predicate EditsAnswered(codec: Codec, ms: seq<Message>) {
    forall p | p in EditPaths(codec, CallsOf(ms)) :: p in NamesOf(EventsOf(EditSource(codec), ms))
  }

  lemma {:induction false} CallsOfConcat(a: seq<Message>, b: seq<Message>)
    ensures CallsOf(a + b) == CallsOf(a) + CallsOf(b)
  {
    if b == [] {
      assert a + b == a;
    } else {
      var n := |b| - 1;
      assert (a + b)[..|a + b| - 1] == a + b[..n];
      CallsOfConcat(a, b[..n]);
      Assoc(CallsOf(a), CallsOf(b[..n]), b[n].calls);
    }
  }

  lemma {:induction false} ByIDConcat(src: Source, a: seq<ToolCall>, b: seq<ToolCall>)
    ensures ByID(src, a + b) == ByID(src, a) + ByID(src, b)
  {
    if b == [] {
      assert a + b == a;
    } else {
      var n := |b| - 1;
      assert (a + b)[..|a + b| - 1] == a + b[..n];
      ByIDConcat(src, a, b[..n]);
    }
  }

  /** The call behind an entry of the table. */
  lemma {:induction false} KeyedCall(src: Source, calls: seq<ToolCall>, id: string) returns (k: nat)
    requires id in ByID(src, calls)
    ensures k < |calls| && calls[k].id == id != "" && src.key(calls[k]).Some?
  {
    var n := |calls| - 1;
    if id in ByID(src, calls[..n]) {
      k := KeyedCall(src, calls[..n], id);
    } else {
      k := n;
    }
  }

  /** A filed call's id is in the table, for this call or a later one. */
  lemma {:induction false} CallIsFiled(src: Source, calls: seq<ToolCall>, k: nat)
    requires k < |calls| && calls[k].id != "" && src.key(calls[k]).Some?
    ensures calls[k].id in ByID(src, calls)
  {
    var n := |calls| - 1;
    if k < n {
      CallIsFiled(src, calls[..n], k);
    }
  }

  lemma {:induction false} EventsWithConcat(src: Source, a: seq<Message>, b: seq<Message>, byID: map<string, string>)
    ensures EventsWith(src, a + b, byID) == EventsWith(src, a, byID) + EventsWith(src, b, byID)
  {
    if b == [] {
      assert a + b == a;
    } else {
      var n := |b| - 1;
      assert (a + b)[..|a + b| - 1] == a + b[..n];
      EventsWithConcat(src, a, b[..n], byID);
      Assoc(EventsWith(src, a, byID), EventsWith(src, b[..n], byID), ResultEvents(src, b[n], byID));
    }
  }

  lemma {:induction false} EventsAgree(src: Source, ms: seq<Message>, t1: map<string, string>, t2: map<string, string>)
    requires forall i | 0 <= i < |ms| && ms[i].role == Tool && ms[i].callID != "" ::
               (ms[i].callID in t1 <==> ms[i].callID in t2)
               && (ms[i].callID in t1 ==> t1[ms[i].callID] == t2[ms[i].callID])
    ensures EventsWith(src, ms, t1) == EventsWith(src, ms, t2)
  {
    if ms != [] {
      EventsAgree(src, ms[..|ms| - 1], t1, t2);
    }
  }

  /** Separate stretches are extracted separately. */
  lemma EventsSeparate(src: Source, a: seq<Message>, b: seq<Message>)
    requires Misses(src, a, b) && Misses(src, b, a)
    ensures EventsOf(src, a + b) == EventsOf(src, a) + EventsOf(src, b)
  {
    var ta, tb := ByID(src, CallsOf(a)), ByID(src, CallsOf(b));
    CallsOfConcat(a, b);
    ByIDConcat(src, CallsOf(a), CallsOf(b));
    EventsWithConcat(src, a, b, ta + tb);
    EventsAgree(src, a, ta + tb, ta);
    EventsAgree(src, b, ta + tb, tb);
  }

  lemma {:induction false} EditPathsConcat(codec: Codec, a: seq<ToolCall>, b: seq<ToolCall>)
    ensures EditPaths(codec, a + b) == EditPaths(codec, a) + EditPaths(codec, b)
  {
    if b == [] {
      assert a + b == a;
    } else {
      var n := |b| - 1;
      assert a + b == (a + b[..n]) + [b[n]] && b == b[..n] + [b[n]];
      EditPathsConcat(codec, a, b[..n]);
      EditPathsStep(codec, a + b[..n], b[n]);
      EditPathsStep(codec, b[..n], b[n]);
    }
  }

  lemma {:induction false} FiledPathsAreEdited(codec: Codec, calls: seq<ToolCall>, id: string)
    requires id in ByID(EditSource(codec), calls)
    ensures ByID(EditSource(codec), calls)[id] in EditPaths(codec, calls)
  {
    var n := |calls| - 1;
    var c := calls[n];
    assert calls == calls[..n] + [c];
    EditPathsStep(codec, calls[..n], c);
    ByIDStep(EditSource(codec), calls[..n], c);
    if id in ByID(EditSource(codec), calls[..n]) {
      FiledPathsAreEdited(codec, calls[..n], id);
    }
  }

  lemma {:induction false} EventNamesAreFiled(codec: Codec, ms: seq<Message>, byID: map<string, string>, p: string)
    requires p in NamesOf(EventsWith(EditSource(codec), ms, byID))
    ensures exists id :: id in byID && byID[id] == p
  {
    var n := |ms| - 1;
    var front, last := EventsWith(EditSource(codec), ms[..n], byID), ResultEvents(EditSource(codec), ms[n], byID);
    assert NamesOf(front + last) == NamesOf(front) + NamesOf(last);
    if p in NamesOf(front) {
      EventNamesAreFiled(codec, ms[..n], byID, p);
    }
  }

  lemma NotedPathsAreEdited(codec: Codec, ms: seq<Message>)
    ensures forall p | p in NamesOf(EventsOf(EditSource(codec), ms)) :: p in EditPaths(codec, CallsOf(ms))
  {
    var byID := ByID(EditSource(codec), CallsOf(ms));
    forall p | p in NamesOf(EventsOf(EditSource(codec), ms)) ensures p in EditPaths(codec, CallsOf(ms)) {
      EventNamesAreFiled(codec, ms, byID, p);
      var id :| id in byID && byID[id] == p;
      FiledPathsAreEdited(codec, CallsOf(ms), id);
    }
  }

  /** Carrying the edits of an earlier stretch into a later one gives the edits of both: the last
      twenty paths in last-edited order, each with its newest note. */
  lemma RecentEditsCarry(codec: Codec, a: seq<Message>, b: seq<Message>)
    requires Separate(codec, a, b) && EditsAnswered(codec, b)
    ensures CapRecentEdits(MergeEditsSpec(RecentEditsSpec(codec, a), RecentEditsSpec(codec, b)))
            == RecentEditsSpec(codec, a + b)
  {
    var pa, pb := EditPaths(codec, CallsOf(a)), EditPaths(codec, CallsOf(b));
    var o1, o2 := LastSeen(pa), LastSeen(pb);
    var b1, b2 := Bodies(EventsOf(EditSource(codec), a)), Bodies(EventsOf(EditSource(codec), b));
    LastSeenMembers(pa);
    LastSeenMembers(pb);
    NotedPathsAreEdited(codec, b);
    CapDistinct(o2);
    MergeEditsEntries(CapRecentEdits(o1), b1, CapRecentEdits(o2), b2);
    CapMergedEntries(o1, b1, o2, b2);
    CallsOfConcat(a, b);
    EditPathsConcat(codec, CallsOf(a), CallsOf(b));
    LastSeenConcat(pa, pb);
    MinusSameMembers(o1, pb, o2);
    EventsSeparate(EditSource(codec), a, b);
    BodiesConcat(EventsOf(EditSource(codec), a), EventsOf(EditSource(codec), b));
  }

  lemma CapDistinct(xs: seq<string>)
    requires Distinct(xs)
    ensures Distinct(CapRecentEdits(xs))
  {
  }

  lemma CapEntries(order: seq<string>, bodies: map<string, string>)
    ensures CapRecentEdits(EntriesFor(order, bodies)) == EntriesFor(CapRecentEdits(order), bodies)
  {
  }

  lemma CapMergedEntries(o1: seq<string>, b1: map<string, string>, o2: seq<string>, b2: map<string, string>)
    requires Distinct(o1) && Distinct(o2)
    requires forall x :: x in b2 <==> x in o2
    ensures CapRecentEdits(EntriesFor(Minus(CapRecentEdits(o1), CapRecentEdits(o2)), b1) + EntriesFor(CapRecentEdits(o2), b2))
            == EntriesFor(CapRecentEdits(Minus(o1, o2) + o2), b1 + b2)
  {
    EntriesAgreeOn(CapRecentEdits(o2), b2, b1 + b2);
    if |o2| >= MAX_RECENT_EDITS {
      CapOfLongSuffix(EntriesFor(Minus(CapRecentEdits(o1), CapRecentEdits(o2)), b1), EntriesFor(CapRecentEdits(o2), b2));
      CapOfLongSuffix(Minus(o1, o2), o2);
    } else {
      var kept := Minus(CapRecentEdits(o1), o2);
      MinusMembers(CapRecentEdits(o1), o2);
      Preserve.EntriesAgree(kept, b1, b1 + b2);
      EntriesConcat(kept, o2, b1 + b2);
      CapEntries(kept + o2, b1 + b2);
      CapCommutesWithMerge(o1, o2);
    }
  }

  lemma EntriesAgreeOn(order: seq<string>, b2: map<string, string>, all: map<string, string>)
    requires forall x | x in order :: x in b2 && x in all && all[x] == b2[x]
    ensures EntriesFor(order, b2) == EntriesFor(order, all)
  {
    Preserve.EntriesAgree(order, b2, all);
  }

  lemma {:induction false} PlanCarry(codec: Codec, a: seq<ToolCall>, b: seq<ToolCall>)
    ensures PlanIn(codec, a + b) == if PlanIn(codec, b) != "" then PlanIn(codec, b) else PlanIn(codec, a)
  {
    if b == [] {
      assert a + b == a;
    } else {
      var n := |b| - 1;
      assert a + b == (a + b[..n]) + [b[n]] && b == b[..n] + [b[n]];
      PlanCarry(codec, a, b[..n]);
      PlanStep(codec, a + b[..n], b[n]);
      PlanStep(codec, b[..n], b[n]);
    }
  }

  lemma {:induction false} InstructionsConcat(codec: Codec, a: seq<Message>, b: seq<Message>)
    ensures InstructionEvents(codec, a + b) == InstructionEvents(codec, a) + InstructionEvents(codec, b)
  {
    if b == [] {
      assert a + b == a;
    } else {
      var n := |b| - 1;
      assert (a + b)[..|a + b| - 1] == a + b[..n];
      InstructionsConcat(codec, a, b[..n]);
      Assoc(InstructionEvents(codec, a), InstructionEvents(codec, b[..n]), InstructionOf(codec, b[n]));
    }
  }

  /** Fresh state laid over carried state, field by field. */
  function Combine(prior: PreservedState, recent: PreservedState): PreservedState {
    PreservedState(
      if recent.plan != "" then recent.plan else prior.plan,
      CapRecentEdits(MergeEditsSpec(prior.edits, recent.edits)),
      MergeSkillsSpec(prior.tools, recent.tools),
      MergeSkillsSpec(prior.skills, recent.skills),
      MergeSkillsSpec(prior.instructions, recent.instructions))
  }

  /** One carry step is exact. */
  lemma CombineExtracts(codec: Codec, a: seq<Message>, b: seq<Message>)
    requires Separate(codec, a, b) && EditsAnswered(codec, b)
    ensures Combine(Extract(codec, a), Extract(codec, b)) == Extract(codec, a + b)
  {
    RecentEditsCarry(codec, a, b);
    CallsOfConcat(a, b);
    PlanCarry(codec, CallsOf(a), CallsOf(b));
    EventsSeparate(ToolSource(codec), a, b);
    MergeLatest(EventsOf(ToolSource(codec), a), EventsOf(ToolSource(codec), b));
    EventsSeparate(SkillSource(codec), a, b);
    MergeLatest(EventsOf(SkillSource(codec), a), EventsOf(SkillSource(codec), b));
    InstructionsConcat(codec, a, b);
    MergeLatest(InstructionEvents(codec, a), InstructionEvents(codec, b));
  }

  // ---------------------------------------------------------------------------------------------
  // What that asks of the call ids
  // ---------------------------------------------------------------------------------------------

  /** No call in either list reuses the id of an edit, skill or tool search in the other. */
  ghost predicate NoReuse(codec: Codec, a: seq<ToolCall>, b: seq<ToolCall>) {
    forall i, j | 0 <= i < |a| && 0 <= j < |b| && (IsStateCall(codec, a[i]) || IsStateCall(codec, b[j])) ::
      a[i].id == "" || a[i].id != b[j].id
  }

  /** Each edited path has a call whose id no later edit of another path takes over. */
  ghost predicate EditsFiled(codec: Codec, calls: seq<ToolCall>) {
    forall p | p in EditPaths(codec, calls) :: p in ByID(EditSource(codec), calls).Values
  }

  lemma {:induction false} ResultsNameCalls(ms: seq<Message>)
    requires Paired(ms)
    ensures forall p | 0 <= p < |ms| && ms[p].role == Tool :: HasID(CallsOf(ms), ms[p].callID)
  {
    PairedImpliesByPosition(ms);
    forall p | 0 <= p < |ms| && ms[p].role == Tool ensures HasID(CallsOf(ms), ms[p].callID) {
      assert ResultOwned(ms, p);
      var i :| 0 <= i < p && OwnsResult(ms, i, p);
      assert AnsweredAt(ms, i);
      var j := p - i - 1;
      assert ms[i + 1..i + 1 + |ms[i].calls|][j] == ms[p];
      CallInCallsOf(ms, i, j);
    }
  }

  lemma {:induction false} CallInCallsOf(ms: seq<Message>, i: nat, j: nat)
    requires i < |ms| && j < |ms[i].calls|
    ensures exists k :: 0 <= k < |CallsOf(ms)| && CallsOf(ms)[k] == ms[i].calls[j]
  {
    var n := |ms| - 1;
    var front := CallsOf(ms[..n]);
    if i == n {
      assert CallsOf(ms)[|front| + j] == ms[i].calls[j];
    } else {
      CallInCallsOf(ms[..n], i, j);
      var k :| 0 <= k < |front| && front[k] == ms[..n][i].calls[j];
      assert CallsOf(ms)[k] == front[k];
    }
  }

  /** None of these calls bears an id in the table. */
  ghost predicate NotFiled(calls: seq<ToolCall>, table: map<string, string>) {
    forall k | 0 <= k < |calls| && calls[k].id != "" :: calls[k].id !in table
  }

  lemma MissesIff(src: Source, a: seq<Message>, b: seq<Message>)
    requires Paired(a)
    ensures Misses(src, a, b) <==> NotFiled(CallsOf(a), ByID(src, CallsOf(b)))
  {
    hide ByID, CallsOf, Paired;
    var calls, table := CallsOf(a), ByID(src, CallsOf(b));
    if Misses(src, a, b) {
      forall k | 0 <= k < |calls| && calls[k].id != "" ensures calls[k].id !in table {
        var q := CallIsAnswered(a, k);
      }
    }
    if NotFiled(calls, table) {
      ResultsNameCalls(a);
      forall i | 0 <= i < |a| && a[i].role == Tool && a[i].callID != "" ensures a[i].callID !in table {
        assert HasID(calls, a[i].callID);
        var k :| 0 <= k < |calls| && calls[k].id == a[i].callID;
      }
      assert Misses(src, a, b);
    }
  }

  /** For paired stretches this is a matter of ids alone. */
  lemma SeparateIff(codec: Codec, a: seq<Message>, b: seq<Message>)
    requires Paired(a) && Paired(b)
    ensures Separate(codec, a, b) <==> NoReuse(codec, CallsOf(a), CallsOf(b))
  {
    hide Misses, IsStateCall;
    MissesIff(EditSource(codec), a, b);
    MissesIff(EditSource(codec), b, a);
    MissesIff(SkillSource(codec), a, b);
    MissesIff(SkillSource(codec), b, a);
    MissesIff(ToolSource(codec), a, b);
    MissesIff(ToolSource(codec), b, a);
    var x, y := CallsOf(a), CallsOf(b);
    if NoReuse(codec, x, y) {
      NotFiledElsewhere(codec, EditSource(codec), x, y);
      NotFiledElsewhere(codec, SkillSource(codec), x, y);
      NotFiledElsewhere(codec, ToolSource(codec), x, y);
    }
    if Separate(codec, a, b) {
      forall i, j | 0 <= i < |x| && 0 <= j < |y| && (IsStateCall(codec, x[i]) || IsStateCall(codec, y[j]))
        ensures x[i].id == "" || x[i].id != y[j].id
      {
        if x[i].id == y[j].id != "" {
          StateCallFiled(codec, if IsStateCall(codec, x[i]) then x else y, if IsStateCall(codec, x[i]) then i else j);
        }
      }
    }
  }

  lemma StateCallFiled(codec: Codec, calls: seq<ToolCall>, k: nat)
    requires k < |calls| && IsStateCall(codec, calls[k]) && calls[k].id != ""
    ensures calls[k].id in ByID(EditSource(codec), calls) || calls[k].id in ByID(SkillSource(codec), calls)
            || calls[k].id in ByID(ToolSource(codec), calls)
  {
    hide ByID;
    if EditSource(codec).key(calls[k]).Some? {
      CallIsFiled(EditSource(codec), calls, k);
    } else if SkillSource(codec).key(calls[k]).Some? {
      CallIsFiled(SkillSource(codec), calls, k);
    } else {
      CallIsFiled(ToolSource(codec), calls, k);
    }
  }

  lemma NotFiledElsewhere(codec: Codec, src: Source, x: seq<ToolCall>, y: seq<ToolCall>)
    requires src == EditSource(codec) || src == SkillSource(codec) || src == ToolSource(codec)
    requires NoReuse(codec, x, y)
    ensures NotFiled(x, ByID(src, y)) && NotFiled(y, ByID(src, x))
  {
    forall k | 0 <= k < |x| && x[k].id != "" ensures x[k].id !in ByID(src, y) {
      if x[k].id in ByID(src, y) {
        var j := KeyedCall(src, y, x[k].id);
      }
    }
    forall k | 0 <= k < |y| && y[k].id != "" ensures y[k].id !in ByID(src, x) {
      if y[k].id in ByID(src, x) {
        var j := KeyedCall(src, x, y[k].id);
      }
    }
  }

  lemma {:induction false} WhereCalled(ms: seq<Message>, k: nat) returns (i: nat, j: nat)
    requires k < |CallsOf(ms)|
    ensures i < |ms| && j < |ms[i].calls| && ms[i].calls[j] == CallsOf(ms)[k]
  {
    var n := |ms| - 1;
    var front := CallsOf(ms[..n]);
    if k < |front| {
      i, j := WhereCalled(ms[..n], k);
    } else {
      i, j := n, k - |front|;
    }
  }

  lemma {:induction false} ResultIsNoted(codec: Codec, ms: seq<Message>, byID: map<string, string>, q: nat)
    requires q < |ms| && ms[q].role == Tool && ms[q].callID != "" && ms[q].callID in byID
    ensures byID[ms[q].callID] in NamesOf(EventsWith(EditSource(codec), ms, byID))
  {
    var n := |ms| - 1;
    var front, last := EventsWith(EditSource(codec), ms[..n], byID), ResultEvents(EditSource(codec), ms[n], byID);
    assert NamesOf(front + last) == NamesOf(front) + NamesOf(last);
    if q < n {
      ResultIsNoted(codec, ms[..n], byID, q);
    } else {
      assert NamesOf(last)[0] == byID[ms[q].callID];
    }
  }

  lemma CallIsAnswered(ms: seq<Message>, k: nat) returns (q: nat)
    requires Paired(ms) && k < |CallsOf(ms)|
    ensures q < |ms| && ms[q].role == Tool && ms[q].callID == CallsOf(ms)[k].id
  {
    PairedImpliesByPosition(ms);
    var i, j := WhereCalled(ms, k);
    assert AnsweredAt(ms, i);
    q := i + 1 + j;
    assert ms[i + 1..i + 1 + |ms[i].calls|][j] == ms[q];
  }

  /** And so is whether every edited path has a note. */
  lemma EditsAnsweredIff(codec: Codec, ms: seq<Message>)
    requires Paired(ms)
    ensures EditsAnswered(codec, ms) <==> EditsFiled(codec, CallsOf(ms))
  {
    var src, calls := EditSource(codec), CallsOf(ms);
    var byID := ByID(src, calls);
    if EditsFiled(codec, calls) {
      forall p | p in EditPaths(codec, calls) ensures p in NamesOf(EventsOf(src, ms)) {
        var id :| id in byID && byID[id] == p;
        var k := KeyedCall(src, calls, id);
        var q := CallIsAnswered(ms, k);
        ResultIsNoted(codec, ms, byID, q);
      }
    }
    if EditsAnswered(codec, ms) {
      forall p | p in EditPaths(codec, calls) ensures p in byID.Values {
        EventNamesAreFiled(codec, ms, byID, p);
      }
    }
  }

  // ---- ids that are distinct altogether are more than enough ----

  ghost predicate DistinctIDs(calls: seq<ToolCall>) {
    && (forall i | 0 <= i < |calls| :: calls[i].id != "")
    && (forall i, j | 0 <= i < j < |calls| :: calls[i].id != calls[j].id)
  }

  lemma {:induction false} ByIDDistinct(src: Source, calls: seq<ToolCall>, k: nat)
    requires DistinctIDs(calls) && k < |calls| && src.key(calls[k]).Some?
    ensures calls[k].id in ByID(src, calls) && ByID(src, calls)[calls[k].id] == src.key(calls[k]).value
  {
    var n := |calls| - 1;
    if k < n {
      assert DistinctIDs(calls[..n]);
      ByIDDistinct(src, calls[..n], k);
    }
  }

  lemma {:induction false} WhereEdited(codec: Codec, calls: seq<ToolCall>, p: string) returns (k: nat)
    requires p in EditPaths(codec, calls)
    ensures k < |calls| && EditSource(codec).key(calls[k]) == Some(p)
  {
    var n := |calls| - 1;
    if EditSource(codec).key(calls[n]) == Some(p) {
      k := n;
    } else {
      k := WhereEdited(codec, calls[..n], p);
    }
  }

  lemma DistinctIDsSuffice(codec: Codec, a: seq<ToolCall>, b: seq<ToolCall>)
    requires DistinctIDs(a + b)
    ensures NoReuse(codec, a, b) && EditsFiled(codec, b)
  {
    var all := a + b;
    forall i, j | 0 <= i < |a| && 0 <= j < |b| ensures a[i].id != b[j].id {
      assert all[i] == a[i] && all[|a| + j] == b[j];
    }
    forall k | 0 <= k < |b| ensures b[k] == all[|a| + k] {
    }
    assert DistinctIDs(b);
    forall p | p in EditPaths(codec, b) ensures p in ByID(EditSource(codec), b).Values {
      var k := WhereEdited(codec, b, p);
      ByIDDistinct(EditSource(codec), b, k);
    }
  }

  // ---- and some reuse does lose notes ----

  /** The paths one extraction over both stretches keeps. */
  function KeptPaths(codec: Codec, calls: seq<ToolCall>): seq<string> { CapRecentEdits(LastSeen(EditPaths(codec, calls))) }

  lemma UnfiledHasNoNote(codec: Codec, ms: seq<Message>, p: string)
    requires p !in ByID(EditSource(codec), CallsOf(ms)).Values
    ensures BodyOf(Bodies(EventsOf(EditSource(codec), ms)), p) == ""
  {
    var es := EventsOf(EditSource(codec), ms);
    if p in NamesOf(es) {
      EventNamesAreFiled(codec, ms, ByID(EditSource(codec), CallsOf(ms)), p);
    }
  }

  lemma NamedEntryBody(es: seq<Entry>, order: seq<string>, bodies: map<string, string>, p: string)
    requires es == EntriesFor(order, bodies) && p in order
    ensures Entry(p, BodyOf(bodies, p)) in es
  {
    var i :| 0 <= i < |order| && order[i] == p;
    assert es[i] == Entry(p, BodyOf(bodies, p));
  }

  /** Whenever a kept path of the earlier stretch has a note there, is not edited again, and loses all its
      ids to later edits of other paths: carrying keeps the note, and one extraction over both drops it. */
  lemma ReusedIDsLoseNote(codec: Codec, a: seq<Message>, b: seq<Message>, p: string)
    requires EditsAnswered(codec, b) && p in KeptPaths(codec, CallsOf(a + b)) && p !in EditPaths(codec, CallsOf(b))
    requires BodyOf(Bodies(EventsOf(EditSource(codec), a)), p) != ""
    requires p !in ByID(EditSource(codec), CallsOf(a + b)).Values
    ensures Combine(Extract(codec, a), Extract(codec, b)).edits != Extract(codec, a + b).edits
  {
    var pa, pb := EditPaths(codec, CallsOf(a)), EditPaths(codec, CallsOf(b));
    var o1, o2 := LastSeen(pa), LastSeen(pb);
    var b1, b2 := Bodies(EventsOf(EditSource(codec), a)), Bodies(EventsOf(EditSource(codec), b));
    LastSeenMembers(pa);
    LastSeenMembers(pb);
    NotedPathsAreEdited(codec, b);
    CapDistinct(o2);
    MergeEditsEntries(CapRecentEdits(o1), b1, CapRecentEdits(o2), b2);
    CapMergedEntries(o1, b1, o2, b2);
    CallsOfConcat(a, b);
    EditPathsConcat(codec, CallsOf(a), CallsOf(b));
    LastSeenConcat(pa, pb);
    MinusSameMembers(o1, pb, o2);
    var kept := KeptPaths(codec, CallsOf(a + b));
    NamedEntryBody(Combine(Extract(codec, a), Extract(codec, b)).edits, kept, b1 + b2, p);
    UnfiledHasNoNote(codec, a + b, p);
    assert p !in b2 && BodyOf(b1 + b2, p) == BodyOf(b1, p);
  }
}
