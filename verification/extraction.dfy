/** Extraction of the carried state from a stretch of transcript: the loops, and the functions they
    compute. Calls name things, later tool results give them bodies, and the two are joined by call id. */
module Extraction {
  import opened Text
  import opened Transcript
  import opened Preserve

  // ---------------------------------------------------------------------------------------------
  // Calls and results joined by id
  // ---------------------------------------------------------------------------------------------

  function CallsOf(ms: seq<Message>): (r: seq<ToolCall>) {
    if ms == [] then [] else CallsOf(ms[..|ms| - 1]) + ms[|ms| - 1].calls
  }

  /** `key` picks the calls of interest and what to file their id under; `events` reads one result. */
  datatype Source = Source(key: ToolCall -> Option<string>, events: (string, string) -> seq<Entry>)

  function IsEditCall(c: ToolCall): bool { c.name == "write_file" || c.name == "edit_file" }

  function EditSource(codec: Codec): Source {
    Source((c: ToolCall) => if IsEditCall(c) && codec.editPath(c.arguments) != "" then Some(codec.editPath(c.arguments)) else None,
           (path, content) => [Entry(path, codec.editNote(content))])
  }

  function SkillSource(codec: Codec): Source {
    Source((c: ToolCall) => if c.name == "skill" then Some(codec.skillName(c.arguments)) else None,
           (name, content) => if TrimSpace(content) == "" then []
                              else [Entry(if name == "" then "(unnamed)" else name, codec.capBody(TrimSpace(content)))])
  }

  function ToolSource(codec: Codec): Source {
    Source((c: ToolCall) => if c.name == "tool_search" then Some("") else None,
           (_, content) => codec.toolEntries(content))
  }

  /** The table from call id to key; a repeated id keeps its latest call. */
  function ByID(src: Source, calls: seq<ToolCall>): (r: map<string, string>) {
    if calls == [] then map[]
    else
      FileCall(src, ByID(src, calls[..|calls| - 1]), calls[|calls| - 1])
  }

  function FileCall(src: Source, table: map<string, string>, c: ToolCall): (r: map<string, string>) {
    if src.key(c).Some? && c.id != "" then table[c.id := src.key(c).value] else table
  }

  /** What one message says about the calls in the table. */
  function ResultEvents(src: Source, m: Message, byID: map<string, string>): (r: seq<Entry>) {
    if m.role == Tool && m.callID != "" && m.callID in byID then src.events(byID[m.callID], m.content) else []
  }

  /** Everything the tool results say about the calls in the table, in transcript order. */
  function EventsWith(src: Source, ms: seq<Message>, byID: map<string, string>): (r: seq<Entry>) {
    if ms == [] then []
    else EventsWith(src, ms[..|ms| - 1], byID) + ResultEvents(src, ms[|ms| - 1], byID)
  }

  function EventsOf(src: Source, ms: seq<Message>): seq<Entry> {
    EventsWith(src, ms, ByID(src, CallsOf(ms)))
  }

  function EditPaths(codec: Codec, calls: seq<ToolCall>): (r: seq<string>) {
    if calls == [] then []
    else
      var key := EditSource(codec).key(calls[|calls| - 1]);
      EditPaths(codec, calls[..|calls| - 1]) + if key.Some? then [key.value] else []
  }

  /** Project instructions sit in user messages whose trimmed text starts with a heading. */
  function InstructionEvents(codec: Codec, ms: seq<Message>): (r: seq<Entry>) {
    if ms == [] then []
    else InstructionEvents(codec, ms[..|ms| - 1]) + InstructionOf(codec, ms[|ms| - 1])
  }

  function InstructionOf(codec: Codec, m: Message): seq<Entry> {
    if m.role == User && "# " <= TrimSpace(m.content) && codec.instructionBlock(TrimSpace(m.content)).body != ""
    then [codec.instructionBlock(TrimSpace(m.content))] else []
  }

  // ---------------------------------------------------------------------------------------------
  // What one extraction yields
  // ---------------------------------------------------------------------------------------------

  function RecentEditsSpec(codec: Codec, ms: seq<Message>): seq<Entry> {
    EntriesFor(CapRecentEdits(LastSeen(EditPaths(codec, CallsOf(ms)))), Bodies(EventsOf(EditSource(codec), ms)))
  }

  /** The last call that holds a readable plan. */
  function PlanIn(codec: Codec, calls: seq<ToolCall>): string {
    if calls == [] then ""
    else
      var c := calls[|calls| - 1];
      if c.name == "update_plan" && codec.planText(c.arguments) != "" then codec.planText(c.arguments)
      else PlanIn(codec, calls[..|calls| - 1])
  }

  function Extract(codec: Codec, ms: seq<Message>): PreservedState {
    PreservedState(
      PlanIn(codec, CallsOf(ms)),
      RecentEditsSpec(codec, ms),
      Latest(EventsOf(ToolSource(codec), ms)),
      Latest(EventsOf(SkillSource(codec), ms)),
      Latest(InstructionEvents(codec, ms)))
  }

  // ---------------------------------------------------------------------------------------------
  // Where the state is read from
  // ---------------------------------------------------------------------------------------------

  /** A result is read for the last call of the source's that was made under its id, and for none without. */
  lemma {:induction false} CallReadFor(src: Source, calls: seq<ToolCall>, id: string) returns (k: nat)
    ensures if id == "" || forall i | 0 <= i < |calls| && calls[i].id == id :: src.key(calls[i]).None? then id !in ByID(src, calls)
            else && k < |calls| && calls[k].id == id && src.key(calls[k]).Some?
                 && id in ByID(src, calls) && ByID(src, calls)[id] == src.key(calls[k]).value
                 && forall i | k < i < |calls| && calls[i].id == id :: src.key(calls[i]).None?
  {
    k := 0;
    if calls != [] {
      var n := |calls| - 1;
      k := n;
      if src.key(calls[n]).None? || calls[n].id != id || id == "" {
        k := CallReadFor(src, calls[..n], id);
        assert forall i | 0 <= i < n :: calls[..n][i] == calls[i];
      }
    }
  }

  /** The message is a result that says so about a call in the table. */
  predicate Says(src: Source, m: Message, byID: map<string, string>, e: Entry) {
    m.role == Tool && m.callID != "" && m.callID in byID && e in src.events(byID[m.callID], m.content)
  }

  /** Exactly what some result says is read. */
  lemma {:induction false} EventsAreSaid(src: Source, ms: seq<Message>, byID: map<string, string>, e: Entry)
    ensures e in EventsWith(src, ms, byID) <==> exists i :: 0 <= i < |ms| && Says(src, ms[i], byID, e)
  {
    hide Says;
    if ms != [] {
      var n := |ms| - 1;
      EventsAreSaid(src, ms[..n], byID, e);
      SaidLast(src, ms[n], byID, e);
      assert e in EventsWith(src, ms, byID) <==> e in EventsWith(src, ms[..n], byID) || e in ResultEvents(src, ms[n], byID);
      if e in EventsWith(src, ms[..n], byID) {
        var i :| 0 <= i < n && Says(src, ms[..n][i], byID, e);
        assert Says(src, ms[i], byID, e);
      }
      if i: nat :| i < |ms| && Says(src, ms[i], byID, e) {
        assert i < n ==> Says(src, ms[..n][i], byID, e);
      }
    }
  }

  lemma SaidLast(src: Source, m: Message, byID: map<string, string>, e: Entry)
    ensures e in ResultEvents(src, m, byID) <==> Says(src, m, byID, e)
  {
  }

  /** The user message begins with this block. */
  predicate Instructs(codec: Codec, m: Message, e: Entry) {
    && m.role == User && "# " <= TrimSpace(m.content)
    && e == codec.instructionBlock(TrimSpace(m.content)) && e.body != ""
  }

  /** Exactly the blocks that user messages begin with are read as instructions. */
  lemma {:induction false} InstructionsAreSaid(codec: Codec, ms: seq<Message>, e: Entry)
    ensures e in InstructionEvents(codec, ms) <==> exists i :: 0 <= i < |ms| && Instructs(codec, ms[i], e)
  {
    hide Instructs;
    if ms != [] {
      var n := |ms| - 1;
      InstructionsAreSaid(codec, ms[..n], e);
      InstructedLast(codec, ms[n], e);
      assert e in InstructionEvents(codec, ms) <==> e in InstructionEvents(codec, ms[..n]) || e in InstructionOf(codec, ms[n]);
      if e in InstructionEvents(codec, ms[..n]) {
        var i :| 0 <= i < n && Instructs(codec, ms[..n][i], e);
        assert Instructs(codec, ms[i], e);
      }
      if i: nat :| i < |ms| && Instructs(codec, ms[i], e) {
        assert i < n ==> Instructs(codec, ms[..n][i], e);
      }
    }
  }

  lemma InstructedLast(codec: Codec, m: Message, e: Entry)
    ensures e in InstructionOf(codec, m) <==> Instructs(codec, m, e)
  {
    hide TrimSpace;
  }

  /** The tools whose calls are filed, and what is read out of their results: of edits, a note under the path; ... */
  lemma EditsRead(codec: Codec, c: ToolCall, path: string, content: string)
    ensures var edits, key := c.name == "write_file" || c.name == "edit_file", EditSource(codec).key(c);
            if edits && codec.editPath(c.arguments) != "" then key == Some(codec.editPath(c.arguments)) else key == None
    ensures EditSource(codec).events(path, content) == [Entry(path, codec.editNote(content))]
  {
    var src := EditSource(codec);
    assert IsEditCall(c) <==> c.name == "write_file" || c.name == "edit_file";
    assert src.events(path, content) == [Entry(path, codec.editNote(content))];
  }

  /** ... of skills, their capped text under the skill's name, unless it is blank; ... */
  lemma SkillsRead(codec: Codec, c: ToolCall, name: string, content: string)
    ensures SkillSource(codec).key(c) == if c.name == "skill" then Some(codec.skillName(c.arguments)) else None
    ensures TrimSpace(content) == "" ==> SkillSource(codec).events(name, content) == []
    ensures TrimSpace(content) != "" ==>
              SkillSource(codec).events(name, content)
              == [Entry(if name == "" then "(unnamed)" else name, codec.capBody(TrimSpace(content)))]
  {
    hide TrimSpace;
    var src := SkillSource(codec);
    assert src.key(c) == if c.name == "skill" then Some(codec.skillName(c.arguments)) else None;
    assert src.events(name, content) == if TrimSpace(content) == "" then []
                                        else [Entry(if name == "" then "(unnamed)" else name, codec.capBody(TrimSpace(content)))];
  }

  /** ... of tool searches, the schemas found. */
  lemma SearchesRead(codec: Codec, c: ToolCall, name: string, content: string)
    ensures ToolSource(codec).key(c).Some? <==> c.name == "tool_search"
    ensures ToolSource(codec).events(name, content) == codec.toolEntries(content)
  {
  }

  // ---------------------------------------------------------------------------------------------
  // The loops
  // ---------------------------------------------------------------------------------------------

  method LastSeenOrder(paths: seq<string>) returns (order: seq<string>)
    ensures order == LastSeen(paths)
  {
    var lastIdx: map<string, nat> := map[];
    for i := 0 to |paths|
      invariant forall k | 0 <= k < i :: paths[k] in lastIdx && k <= lastIdx[paths[k]]
      invariant forall p | p in lastIdx :: lastIdx[p] < i && paths[lastIdx[p]] == p
    {
      lastIdx := lastIdx[paths[i] := i];
    }
    order := KeepLast(paths, lastIdx);
  }

  method KeepLast(paths: seq<string>, lastIdx: map<string, nat>) returns (order: seq<string>)
    requires forall k | 0 <= k < |paths| :: paths[k] in lastIdx && k <= lastIdx[paths[k]]
    requires forall p | p in lastIdx :: lastIdx[p] < |paths| && paths[lastIdx[p]] == p
    ensures order == LastSeen(paths)
  {
    order := [];
    ghost var rest := LastSeen(paths);
    for i := 0 to |paths|
      invariant rest == LastSeen(paths[i..])
      invariant order + rest == LastSeen(paths)
    {
      var p := paths[i];
      LastSeenSuffix(paths, i);
      LastIndexIsLast(paths, i, lastIdx[p]);
      rest := LastSeen(paths[i + 1..]);
      if lastIdx[p] == i {
        Assoc(order, [p], rest);
        order := order + [p];
      }
    }
  }

  lemma LastSeenSuffix(paths: seq<string>, i: nat)
    requires i < |paths|
    ensures LastSeen(paths[i..]) == (if paths[i] in paths[i + 1..] then [] else [paths[i]]) + LastSeen(paths[i + 1..])
  {
    assert paths[i..] == [paths[i]] + paths[i + 1..];
  }

  lemma LastIndexIsLast(paths: seq<string>, i: nat, last: nat)
    requires i <= last < |paths| && paths[last] == paths[i]
    requires forall k | 0 <= k < |paths| && paths[k] == paths[i] :: k <= last
    ensures last == i <==> paths[i] !in paths[i + 1..]
  {
    assert last > i ==> paths[i + 1..][last - i - 1] == paths[last];
  }

  lemma CallsOfStep(ms: seq<Message>, i: nat)
    requires i < |ms|
    ensures CallsOf(ms[..i + 1]) == CallsOf(ms[..i]) + ms[i].calls
    ensures ms[..i + 1] == ms[..i] + [ms[i]]
  {
    assert ms[..i + 1][..i] == ms[..i];
  }

  lemma TakeOneMore<T>(before: seq<T>, xs: seq<T>, j: nat)
    requires j < |xs|
    ensures before + xs[..j + 1] == (before + xs[..j]) + [xs[j]]
  {
  }

  lemma ByIDStep(src: Source, calls: seq<ToolCall>, c: ToolCall)
    ensures ByID(src, calls + [c])
            == FileCall(src, ByID(src, calls), c)
  {
    assert (calls + [c])[..|calls + [c]| - 1] == calls;
  }

  lemma EditPathsStep(codec: Codec, calls: seq<ToolCall>, c: ToolCall)
    ensures EditPaths(codec, calls + [c])
            == EditPaths(codec, calls) + if EditSource(codec).key(c).Some? then [codec.editPath(c.arguments)] else []
  {
    assert (calls + [c])[..|calls + [c]| - 1] == calls;
  }

  lemma EventsStep(src: Source, ms: seq<Message>, i: nat, byID: map<string, string>)
    requires i < |ms|
    ensures EventsWith(src, ms[..i + 1], byID)
            == EventsWith(src, ms[..i], byID) + ResultEvents(src, ms[i], byID)
  {
    assert ms[..i + 1][..i] == ms[..i];
  }

  lemma BodiesStep(es: seq<Entry>, e: Entry)
    ensures Bodies(es + [e]) == Bodies(es)[e.name := e.body]
  {
    assert (es + [e])[..|es + [e]| - 1] == es;
  }

  lemma NamesStep(es: seq<Entry>, e: Entry)
    ensures FirstSeen(NamesOf(es + [e])) == FirstSeen(NamesOf(es)) + if e.name in NamesOf(es) then [] else [e.name]
  {
    assert NamesOf(es + [e]) == NamesOf(es) + [e.name];
    FirstSeenStep(NamesOf(es) + [e.name], NamesOf(es), e.name);
  }

  lemma TakeAll<T>(xs: seq<T>)
    ensures xs[..|xs|] == xs
  {
  }

  /** The first pass over the calls: their ids and the sequence of edited paths. */
  method FileEditCalls(codec: Codec, ms: seq<Message>) returns (pathByID: map<string, string>, sequence: seq<string>)
    ensures pathByID == ByID(EditSource(codec), CallsOf(ms))
    ensures sequence == EditPaths(codec, CallsOf(ms))
  {
    pathByID, sequence := map[], [];
    for i := 0 to |ms|
      invariant pathByID == ByID(EditSource(codec), CallsOf(ms[..i]))
      invariant sequence == EditPaths(codec, CallsOf(ms[..i]))
    {
      CallsOfStep(ms, i);
      var calls := ms[i].calls;
      ghost var seen := CallsOf(ms[..i]);
      for j := 0 to |calls|
        invariant seen == CallsOf(ms[..i]) + calls[..j]
        invariant pathByID == ByID(EditSource(codec), seen)
        invariant sequence == EditPaths(codec, seen)
      {
        var call := calls[j];
        TakeOneMore(CallsOf(ms[..i]), calls, j);
        ByIDStep(EditSource(codec), seen, call);
        EditPathsStep(codec, seen, call);
        seen := seen + [call];
        if !IsEditCall(call) { continue; }
        var path := codec.editPath(call.arguments);
        if path == "" { continue; }
        if call.id != "" {
          pathByID := pathByID[call.id := path];
        }
        sequence := sequence + [path];
      }
      TakeAll(calls);
    }
    TakeAll(ms);
  }

  /** The second pass, over the results: the latest note of each path. */
  method NotesByPath(codec: Codec, ms: seq<Message>, pathByID: map<string, string>)
    returns (noteByPath: map<string, string>)
    ensures noteByPath == Bodies(EventsWith(EditSource(codec), ms, pathByID))
  {
    noteByPath := map[];
    ghost var events: seq<Entry> := [];
    for i := 0 to |ms|
      invariant events == EventsWith(EditSource(codec), ms[..i], pathByID)
      invariant noteByPath == Bodies(events)
    {
      EventsStep(EditSource(codec), ms, i, pathByID);
      var m := ms[i];
      if m.role != Tool || m.callID == "" {
        assert events + [] == events;
        continue;
      }
      if m.callID in pathByID {
        var event := Entry(pathByID[m.callID], codec.editNote(m.content));
        BodiesStep(events, event);
        noteByPath := noteByPath[event.name := event.body];
        events := events + [event];
      } else {
        assert events + [] == events;
      }
    }
    TakeAll(ms);
  }

  method RecentEdits(codec: Codec, ms: seq<Message>) returns (entries: seq<Entry>)
    ensures entries == RecentEditsSpec(codec, ms)
  {
    var pathByID, sequence := FileEditCalls(codec, ms);
    var order := LastSeenOrder(sequence);
    if |order| == 0 {
      return [];
    }
    var noteByPath := NotesByPath(codec, ms, pathByID);
    if |order| > MAX_RECENT_EDITS {
      order := order[|order| - MAX_RECENT_EDITS..];
    }
    entries := Render(order, noteByPath);
  }

  /** The closing loop: one entry a name, with the body on file. */
  method Render(order: seq<string>, bodies: map<string, string>) returns (entries: seq<Entry>)
    ensures entries == EntriesFor(order, bodies)
  {
    entries := [];
    for i := 0 to |order|
      invariant entries == EntriesFor(order[..i], bodies)
    {
      entries := entries + [Entry(order[i], BodyOf(bodies, order[i]))];
    }
    TakeAll(order);
  }

  method FileCalls(src: Source, ms: seq<Message>) returns (nameByID: map<string, string>)
    ensures nameByID == ByID(src, CallsOf(ms))
  {
    nameByID := map[];
    for i := 0 to |ms|
      invariant nameByID == ByID(src, CallsOf(ms[..i]))
    {
      CallsOfStep(ms, i);
      nameByID := FileCallsOf(src, nameByID, ms[i].calls, CallsOf(ms[..i]));
    }
    TakeAll(ms);
  }

  method FileCallsOf(src: Source, table: map<string, string>, calls: seq<ToolCall>, ghost before: seq<ToolCall>)
    returns (nameByID: map<string, string>)
    requires table == ByID(src, before)
    ensures nameByID == ByID(src, before + calls)
  {
    nameByID := table;
    ghost var seen := before;
    for j := 0 to |calls|
      invariant seen == before + calls[..j]
      invariant nameByID == ByID(src, seen)
    {
      TakeOneMore(before, calls, j);
      ByIDStep(src, seen, calls[j]);
      seen := seen + [calls[j]];
      nameByID := FileCall(src, nameByID, calls[j]);
    }
    TakeAll(calls);
  }

  /** The shape loadedSkills and loadedToolSchemas share: file call ids, then collect the bodies of
      the matching results, first-seen name order, latest body. */
  method LoadedEntries(src: Source, ms: seq<Message>) returns (entries: seq<Entry>)
    ensures entries == Latest(EventsOf(src, ms))
  {
    var nameByID := FileCalls(src, ms);
    var bodyByName: map<string, string> := map[];
    var nameOrder: seq<string> := [];
    ghost var events: seq<Entry> := [];
    for i := 0 to |ms|
      invariant events == EventsWith(src, ms[..i], nameByID)
      invariant bodyByName == Bodies(events) && nameOrder == FirstSeen(NamesOf(events))
    {
      EventsStep(src, ms, i, nameByID);
      var found := ResultEvents(src, ms[i], nameByID);
      nameOrder, bodyByName := Collect(nameOrder, bodyByName, found, events);
      events := events + found;
    }
    TakeAll(ms);
    entries := Render(nameOrder, bodyByName);
  }

  method ProjectInstructionEntries(codec: Codec, ms: seq<Message>) returns (entries: seq<Entry>)
    ensures entries == Latest(InstructionEvents(codec, ms))
  {
    var bodyBySource: map<string, string> := map[];
    var sourceOrder: seq<string> := [];
    ghost var events: seq<Entry> := [];
    for i := 0 to |ms|
      invariant events == InstructionEvents(codec, ms[..i])
      invariant bodyBySource == Bodies(events) && sourceOrder == FirstSeen(NamesOf(events))
    {
      assert ms[..i + 1][..i] == ms[..i];
      var found := InstructionOf(codec, ms[i]);
      sourceOrder, bodyBySource := Collect(sourceOrder, bodyBySource, found, events);
      events := events + found;
    }
    assert ms[..|ms|] == ms;
    entries := Render(sourceOrder, bodyBySource);
  }

  /** The inner loop: note each new name once, keep each name's latest body. */
  method Collect(order0: seq<string>, bodies0: map<string, string>, found: seq<Entry>, ghost before: seq<Entry>)
    returns (order: seq<string>, bodies: map<string, string>)
    requires bodies0 == Bodies(before) && order0 == FirstSeen(NamesOf(before))
    ensures bodies == Bodies(before + found) && order == FirstSeen(NamesOf(before + found))
  {
    order, bodies := order0, bodies0;
    ghost var soFar := before;
    for k := 0 to |found|
      invariant soFar == before + found[..k]
      invariant bodies == Bodies(soFar) && order == FirstSeen(NamesOf(soFar))
    {
      var e := found[k];
      TakeOneMore(before, found, k);
      BodiesStep(soFar, e);
      NamesStep(soFar, e);
      soFar := soFar + [e];
      if e.name !in bodies {
        order := order + [e.name];
      }
      bodies := bodies[e.name := e.body];
    }
    TakeAll(found);
  }

  /** Newest message first, last call first. */
  method ExtractLatestPlan(codec: Codec, ms: seq<Message>) returns (plan: string)
    ensures plan == PlanIn(codec, CallsOf(ms))
  {
    var i := |ms|;
    TakeAll(ms);
    while i > 0
      invariant 0 <= i <= |ms|
      invariant PlanIn(codec, CallsOf(ms)) == PlanIn(codec, CallsOf(ms[..i]))
    {
      i := i - 1;
      CallsOfStep(ms, i);
      plan := LatestPlanIn(codec, ms[i].calls, CallsOf(ms[..i]));
      if plan != "" {
        return;
      }
    }
    plan := "";
  }

  method LatestPlanIn(codec: Codec, calls: seq<ToolCall>, ghost before: seq<ToolCall>) returns (plan: string)
    ensures PlanIn(codec, before + calls) == if plan != "" then plan else PlanIn(codec, before)
  {
    var j := |calls|;
    TakeAll(calls);
    while j > 0
      invariant 0 <= j <= |calls|
      invariant PlanIn(codec, before + calls) == PlanIn(codec, before + calls[..j])
    {
      j := j - 1;
      TakeOneMore(before, calls, j);
      PlanStep(codec, before + calls[..j], calls[j]);
      if calls[j].name == "update_plan" && codec.planText(calls[j].arguments) != "" {
        return codec.planText(calls[j].arguments);
      }
    }
    assert before + calls[..0] == before;
    plan := "";
  }

  lemma PlanStep(codec: Codec, calls: seq<ToolCall>, c: ToolCall)
    ensures PlanIn(codec, calls + [c])
            == if c.name == "update_plan" && codec.planText(c.arguments) != "" then codec.planText(c.arguments)
               else PlanIn(codec, calls)
  {
    assert (calls + [c])[..|calls + [c]| - 1] == calls;
  }

  lemma {:induction false} WithoutNothing(es: seq<Entry>)
    ensures Without(es, []) == es
  {
    if es != [] {
      WithoutNothing(es[1..]);
    }
  }

  /** The filtering loop both merges run. */
  method KeepUnnamed(es: seq<Entry>, names: set<string>, ghost nameList: seq<string>) returns (kept: seq<Entry>)
    requires forall n :: n in names <==> n in nameList
    ensures kept == Without(es, nameList)
  {
    kept := [];
    ghost var rest := Without(es, nameList);
    for i := 0 to |es|
      invariant rest == Without(es[i..], nameList)
      invariant kept + rest == Without(es, nameList)
    {
      assert es[i..][1..] == es[i + 1..];
      rest := Without(es[i + 1..], nameList);
      if es[i].name !in names {
        Assoc(kept, [es[i]], rest);
        kept := kept + [es[i]];
      }
    }
  }

  method MergeRecentEdits(older: seq<Entry>, newer: seq<Entry>) returns (merged: seq<Entry>)
    ensures merged == MergeEditsSpec(older, newer)
  {
    if |newer| == 0 {
      WithoutNothing(older);
      assert NamesOf(newer) == [] && Latest(newer) == [];
      return older;
    }
    var freshOrder, freshBody := Collect([], map[], newer, []);
    assert [] + newer == newer;
    merged := KeepUnnamed(older, freshBody.Keys, NamesOf(newer));
    var refreshed := Render(freshOrder, freshBody);
    merged := merged + refreshed;
  }

  method MergeSkillEntries(older: seq<Entry>, newer: seq<Entry>) returns (merged: seq<Entry>)
    ensures merged == MergeSkillsSpec(older, newer)
  {
    if |newer| == 0 {
      assert Refreshed(older, Bodies(newer)) == older && Without(newer, NamesOf(older)) == [];
      return older;
    }
    var newBody: map<string, string> := map[];
    for i := 0 to |newer|
      invariant newBody == Bodies(newer[..i])
    {
      BodiesStep(newer[..i], newer[i]);
      assert newer[..i + 1] == newer[..i] + [newer[i]];
      newBody := newBody[newer[i].name := newer[i].body];
    }
    TakeAll(newer);
    merged := [];
    var seen: set<string> := {};
    for i := 0 to |older|
      invariant merged == Refreshed(older[..i], newBody)
      invariant forall n :: n in seen <==> n in NamesOf(older[..i])
    {
      var e := older[i];
      assert NamesOf(older[..i + 1]) == NamesOf(older[..i]) + [e.name];
      merged := merged + [Entry(e.name, if e.name in newBody then newBody[e.name] else e.body)];
      seen := seen + {e.name};
    }
    TakeAll(older);
    var added := KeepUnnamed(newer, seen, NamesOf(older));
    merged := merged + added;
  }
}
