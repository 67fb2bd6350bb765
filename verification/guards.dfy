/** The run guards: counters kept turn by turn that are to mean something about the whole run so far. */
module Guards {
  import opened Text
  import opened Transcript

  const MAX_EMPTY_TURNS := 3
  const STALE_TOOL_CALLS := 10
  const STALE_PLAN_TURNS := 8
  const TOOL_ONLY_REMINDER_AT := 6
  const PLAN_REMINDER_TURN := 3
  const FAILURE_HINT_AT := 2
  const FAILURE_STOP_AT := 6
  const PLAN_TOOL := "update_plan"

  datatype FailureRecord = FailureRecord(count: nat, errSig: string, hintShown: bool)

  datatype FailureOutcome = FailureOutcome(injectHint: bool, stop: bool, count: nat)

  /** What the guards see of a turn; `text` is the visible text. */
  datatype Turn = Turn(calls: seq<ToolCall>, text: string, reasoning: bool)

  datatype Reminder = NoReminder | ProgressReminder(turns: nat) | StalePlanReminder(calls: nat) | NotCalledReminder

  /** The number of unfinished items in an update_plan call's arguments, or None if unreadable. */
  type PlanReader = string -> Option<nat>

  /** The fields of the guard state as a value. */
  datatype State = State(
    emptyTurns: nat, totalToolCalls: nat, toolCallsSincePlanUpdate: nat, turnsSincePlanUpdate: nat,
    planEverCalled: bool, notCalledReminderSent: bool, staleReminderSent: bool,
    toolOnlyTurns: nat, toolOnlyReminderSent: bool, planItemsPending: nat,
    toolFailures: map<string, FailureRecord>)

  const FRESH := State(0, 0, 0, 0, false, false, false, 0, false, 0, map[])

  predicate HasText(t: Turn) { TrimSpace(t.text) != "" }

  predicate IsEmptyTurn(t: Turn) { t.calls == [] && !HasText(t) && !t.reasoning }

  predicate IsToolOnly(t: Turn) { t.calls != [] && !HasText(t) }

  // ---------------------------------------------------------------------------------------------
  // One observation
  // ---------------------------------------------------------------------------------------------

  function ObserveResultSpec(g: State, name: string, failed: bool, sig: string): (State, FailureOutcome) {
    if !failed then (g.(toolFailures := g.toolFailures - {name}), FailureOutcome(false, false, 0))
    else
      var count := if name in g.toolFailures && g.toolFailures[name].errSig == sig
                   then g.toolFailures[name].count + 1 else 1;
      var shown := name in g.toolFailures && g.toolFailures[name].errSig == sig && g.toolFailures[name].hintShown;
      var hint := count < FAILURE_STOP_AT && count >= FAILURE_HINT_AT && !shown;
      (g.(toolFailures := g.toolFailures[name := FailureRecord(count, sig, shown || hint)]),
       FailureOutcome(hint, count >= FAILURE_STOP_AT, count))
  }

  function ObserveCall(g: State, pending: PlanReader, c: ToolCall): State {
    if c.name == PLAN_TOOL then
      g.(totalToolCalls := g.totalToolCalls + 1, planEverCalled := true, toolCallsSincePlanUpdate := 0,
         turnsSincePlanUpdate := 0, staleReminderSent := false,
         planItemsPending := pending(c.arguments).GetOr(g.planItemsPending))
    else
      g.(totalToolCalls := g.totalToolCalls + 1, toolCallsSincePlanUpdate := g.toolCallsSincePlanUpdate + 1)
  }

  function ObserveCalls(g: State, pending: PlanReader, calls: seq<ToolCall>): State {
    if calls == [] then g
    else ObserveCall(ObserveCalls(g, pending, calls[..|calls| - 1]), pending, calls[|calls| - 1])
  }

  function ObserveTurnSpec(g: State, pending: PlanReader, t: Turn): State {
    var g1 := g.(emptyTurns := if IsEmptyTurn(t) then g.emptyTurns + 1 else 0,
                 toolOnlyTurns := if IsToolOnly(t) then g.toolOnlyTurns + 1 else 0,
                 toolOnlyReminderSent := IsToolOnly(t) && g.toolOnlyReminderSent,
                 turnsSincePlanUpdate := g.turnsSincePlanUpdate + 1);
    ObserveCalls(g1, pending, t.calls)
  }

  function ProgressReminderSpec(g: State): (State, Reminder) {
    if g.toolOnlyReminderSent || g.toolOnlyTurns < TOOL_ONLY_REMINDER_AT then (g, NoReminder)
    else (g.(toolOnlyReminderSent := true), ProgressReminder(g.toolOnlyTurns))
  }

  function PlanReminderSpec(g: State, turn: nat): (State, Reminder) {
    if g.planEverCalled && !g.staleReminderSent
       && (g.toolCallsSincePlanUpdate >= STALE_TOOL_CALLS
           || (g.turnsSincePlanUpdate >= STALE_PLAN_TURNS && g.planItemsPending > 0)) then
      (g.(staleReminderSent := true), StalePlanReminder(g.toolCallsSincePlanUpdate))
    else if !g.notCalledReminderSent && !g.planEverCalled && turn >= PLAN_REMINDER_TURN && g.totalToolCalls >= 1 then
      (g.(notCalledReminderSent := true), NotCalledReminder)
    else (g, NoReminder)
  }

  // ---------------------------------------------------------------------------------------------
  // The code
  // ---------------------------------------------------------------------------------------------

  class GuardState {
    const pending: PlanReader
    var emptyTurns: nat
    var totalToolCalls: nat
    var toolCallsSincePlanUpdate: nat
    var turnsSincePlanUpdate: nat
    var planEverCalled: bool
    var notCalledReminderSent: bool
    var staleReminderSent: bool
    var toolOnlyTurns: nat
    var toolOnlyReminderSent: bool
    var planItemsPending: nat
    var toolFailures: map<string, FailureRecord>

    constructor (pending: PlanReader)
      ensures View() == FRESH && this.pending == pending
    {
      this.pending := pending;
      emptyTurns, totalToolCalls, toolCallsSincePlanUpdate, turnsSincePlanUpdate := 0, 0, 0, 0;
      planEverCalled, notCalledReminderSent, staleReminderSent := false, false, false;
      toolOnlyTurns, toolOnlyReminderSent, planItemsPending := 0, false, 0;
      toolFailures := map[];
    }

    function View(): State
      reads this
    {
      State(emptyTurns, totalToolCalls, toolCallsSincePlanUpdate, turnsSincePlanUpdate, planEverCalled,
            notCalledReminderSent, staleReminderSent, toolOnlyTurns, toolOnlyReminderSent, planItemsPending,
            toolFailures)
    }

    /** `sig` is the error signature of the output. */
    method ObserveToolResult(name: string, failed: bool, sig: string) returns (outcome: FailureOutcome)
      modifies this
      ensures (View(), outcome) == ObserveResultSpec(old(View()), name, failed, sig)
    {
      if !failed {
        toolFailures := toolFailures - {name};
        return FailureOutcome(false, false, 0);
      }
      var record;
      if name !in toolFailures || toolFailures[name].errSig != sig {
        record := FailureRecord(1, sig, false);
      } else {
        record := toolFailures[name].(count := toolFailures[name].count + 1);
      }
      toolFailures := toolFailures[name := record];
      if record.count >= FAILURE_STOP_AT {
        return FailureOutcome(false, true, record.count);
      }
      if record.count >= FAILURE_HINT_AT && !record.hintShown {
        toolFailures := toolFailures[name := record.(hintShown := true)];
        assert toolFailures == old(toolFailures)[name := record.(hintShown := true)];
        return FailureOutcome(true, false, record.count);
      }
      outcome := FailureOutcome(false, false, record.count);
    }

    method ObserveTurn(t: Turn) returns (stop: bool)
      modifies this
      ensures View() == ObserveTurnSpec(old(View()), pending, t)
      ensures stop == (View().emptyTurns >= MAX_EMPTY_TURNS)
    {
      hide TrimSpace;
      var hasToolCalls := |t.calls| > 0;
      var hasVisibleText := TrimSpace(t.text) != "";
      if hasToolCalls || hasVisibleText || t.reasoning {
        emptyTurns := 0;
      } else {
        emptyTurns := emptyTurns + 1;
      }
      if hasToolCalls && !hasVisibleText {
        toolOnlyTurns := toolOnlyTurns + 1;
      } else {
        toolOnlyTurns := 0;
        toolOnlyReminderSent := false;
      }
      turnsSincePlanUpdate := turnsSincePlanUpdate + 1;
      ghost var start := View();
      ObserveToolCalls(t.calls);
      CallsKeepEmptyTurns(start, pending, t.calls);
      stop := emptyTurns >= MAX_EMPTY_TURNS;
    }

    method ObserveToolCalls(calls: seq<ToolCall>)
      modifies this
      ensures View() == ObserveCalls(old(View()), pending, calls)
    {
      for i := 0 to |calls|
        invariant View() == ObserveCalls(old(View()), pending, calls[..i])
      {
        hide ObserveCall;
        assert calls[..i + 1][..i] == calls[..i];
        ObserveToolCall(calls[i]);
      }
      assert calls[..|calls|] == calls;
    }

    method ObserveToolCall(call: ToolCall)
      modifies this
      ensures View() == ObserveCall(old(View()), pending, call)
    {
      totalToolCalls := totalToolCalls + 1;
      if call.name == PLAN_TOOL {
        planEverCalled := true;
        toolCallsSincePlanUpdate := 0;
        turnsSincePlanUpdate := 0;
        staleReminderSent := false;
        var parsed := pending(call.arguments);
        if parsed.Some? {
          planItemsPending := parsed.value;
        }
      } else {
        toolCallsSincePlanUpdate := toolCallsSincePlanUpdate + 1;
      }
    }

    method ProgressReminderDue() returns (r: Reminder)
      modifies this`toolOnlyReminderSent
      ensures (View(), r) == ProgressReminderSpec(old(View()))
    {
      if toolOnlyReminderSent || toolOnlyTurns < TOOL_ONLY_REMINDER_AT {
        return NoReminder;
      }
      toolOnlyReminderSent := true;
      r := ProgressReminder(toolOnlyTurns);
    }

    method PlanReminderDue(turn: nat) returns (r: Reminder)
      modifies this`staleReminderSent, this`notCalledReminderSent
      ensures (View(), r) == PlanReminderSpec(old(View()), turn)
    {
      if planEverCalled && !staleReminderSent
         && (toolCallsSincePlanUpdate >= STALE_TOOL_CALLS
             || (turnsSincePlanUpdate >= STALE_PLAN_TURNS && planItemsPending > 0))
      {
        staleReminderSent := true;
        return StalePlanReminder(toolCallsSincePlanUpdate);
      }
      if !notCalledReminderSent && !planEverCalled && turn >= PLAN_REMINDER_TURN && totalToolCalls >= 1 {
        notCalledReminderSent := true;
        return NotCalledReminder;
      }
      r := NoReminder;
    }
  }

  lemma {:induction false} CallsKeepEmptyTurns(g: State, pending: PlanReader, calls: seq<ToolCall>)
    ensures var g' := ObserveCalls(g, pending, calls);
            && g'.emptyTurns == g.emptyTurns && g'.toolOnlyTurns == g.toolOnlyTurns
            && g'.toolOnlyReminderSent == g.toolOnlyReminderSent
            && g'.notCalledReminderSent == g.notCalledReminderSent && g'.toolFailures == g.toolFailures
  {
    if calls != [] {
      CallsKeepEmptyTurns(g, pending, calls[..|calls| - 1]);
    }
  }

  // ---------------------------------------------------------------------------------------------
  // Repeated failures: the counters against the whole trace of tool results
  // ---------------------------------------------------------------------------------------------

  datatype ToolOutcome = ToolOutcome(name: string, failed: bool, sig: string)

  /** How many of `name`'s latest results, uninterrupted, failed with signature `sig`. */
  function FailureRun(trace: seq<ToolOutcome>, name: string, sig: string): nat {
    if trace == [] then 0
    else
      var o := trace[|trace| - 1];
      var before := trace[..|trace| - 1];
      if o.name != name then FailureRun(before, name, sig)
      else if o.failed && o.sig == sig then FailureRun(before, name, sig) + 1
      else 0
  }

  function AfterResults(g: State, trace: seq<ToolOutcome>): State {
    if trace == [] then g
    else
      var o := trace[|trace| - 1];
      ObserveResultSpec(AfterResults(g, trace[..|trace| - 1]), o.name, o.failed, o.sig).0
  }

  lemma AfterResultsSnoc(g: State, trace: seq<ToolOutcome>, o: ToolOutcome)
    ensures AfterResults(g, trace + [o]) == ObserveResultSpec(AfterResults(g, trace), o.name, o.failed, o.sig).0
  {
    assert (trace + [o])[..|trace|] == trace;
  }

  /** A record exists for a tool exactly while its latest result is a failure, and counts that run. */
  ghost predicate RecordsMatch(failures: map<string, FailureRecord>, trace: seq<ToolOutcome>) {
    forall name, sig ::
      if name in failures && failures[name].errSig == sig then
        failures[name].count == FailureRun(trace, name, sig) >= 1 && (failures[name].hintShown <==> failures[name].count >= 2)
      else FailureRun(trace, name, sig) == 0
  }

  lemma {:induction false} RecordsFollowTrace(trace: seq<ToolOutcome>)
    ensures RecordsMatch(AfterResults(FRESH, trace).toolFailures, trace)
  {
    if trace != [] {
      RecordsFollowTrace(trace[..|trace| - 1]);
      RecordStep(AfterResults(FRESH, trace[..|trace| - 1]), trace);
    }
  }

  lemma RecordStep(g: State, trace: seq<ToolOutcome>)
    requires trace != [] && RecordsMatch(g.toolFailures, trace[..|trace| - 1])
    ensures var o := trace[|trace| - 1];
            RecordsMatch(ObserveResultSpec(g, o.name, o.failed, o.sig).0.toolFailures, trace)
  {
    var o, before := trace[|trace| - 1], trace[..|trace| - 1];
    var after := ObserveResultSpec(g, o.name, o.failed, o.sig).0.toolFailures;
    forall name, sig
      ensures if name in after && after[name].errSig == sig then
                after[name].count == FailureRun(trace, name, sig) >= 1 && (after[name].hintShown <==> after[name].count >= 2)
              else FailureRun(trace, name, sig) == 0
    {
      assert FailureRun(before, name, sig) >= 0;
    }
  }

  /** After any results whatever: a failure's count is the length of its run of same-signature
      failures, the hint comes exactly with the second of a run, the stop exactly from the sixth. */
  lemma FailureGuardIsExact(trace: seq<ToolOutcome>, o: ToolOutcome)
    ensures var outcome := ObserveResultSpec(AfterResults(FRESH, trace), o.name, o.failed, o.sig).1;
            var run := FailureRun(trace + [o], o.name, o.sig);
            if o.failed then outcome == FailureOutcome(run == 2, run >= 6, run)
            else outcome == FailureOutcome(false, false, 0)
  {
    RecordsFollowTrace(trace);
    assert (trace + [o])[..|trace|] == trace;
    assert FailureRun(trace, o.name, o.sig) >= 0;
  }

  /** The same of the guards of a run, which count turns besides. */
  lemma FailureGuardInRun(g: State, trace: seq<ToolOutcome>, o: ToolOutcome)
    requires g.toolFailures == AfterResults(FRESH, trace).toolFailures
    ensures var outcome := ObserveResultSpec(g, o.name, o.failed, o.sig).1;
            var run := FailureRun(trace + [o], o.name, o.sig);
            if o.failed then outcome == FailureOutcome(run == 2, run >= 6, run)
            else outcome == FailureOutcome(false, false, 0)
  {
    FailureGuardIsExact(trace, o);
  }

  /** Tool results move only the failure records. */
  lemma {:induction false} ResultsMoveOnlyRecords(g: State, trace: seq<ToolOutcome>)
    ensures AfterResults(g, trace) == g.(toolFailures := AfterResults(g, trace).toolFailures)
  {
    if trace != [] {
      ResultsMoveOnlyRecords(g, trace[..|trace| - 1]);
    }
  }

  /** The records of a run go on where they left off. */
  lemma {:induction false} RecordsCarryOn(g: State, before: seq<ToolOutcome>, more: seq<ToolOutcome>)
    requires g.toolFailures == AfterResults(FRESH, before).toolFailures
    ensures AfterResults(g, more).toolFailures == AfterResults(FRESH, before + more).toolFailures
  {
    if more == [] {
      assert before + more == before;
    } else {
      var n, o := |more| - 1, more[|more| - 1];
      RecordsCarryOn(g, before, more[..n]);
      assert (before + more)[..|before| + n] == before + more[..n];
      SameRecordsAfter(AfterResults(g, more[..n]), AfterResults(FRESH, before + more[..n]), o);
    }
  }

  lemma SameRecordsAfter(g: State, h: State, o: ToolOutcome)
    requires g.toolFailures == h.toolFailures
    ensures ObserveResultSpec(g, o.name, o.failed, o.sig).0.toolFailures == ObserveResultSpec(h, o.name, o.failed, o.sig).0.toolFailures
  {
  }

  // ---------------------------------------------------------------------------------------------
  // Turns and reminders: the counters against the whole history
  // ---------------------------------------------------------------------------------------------

  datatype Event = Observed(turn: Turn) | ProgressAsked | PlanAsked(turns: nat)

  function Apply(g: State, pending: PlanReader, e: Event): (State, Reminder) {
    match e
    case Observed(t) => (ObserveTurnSpec(g, pending, t), NoReminder)
    case ProgressAsked => ProgressReminderSpec(g)
    case PlanAsked(turns) => PlanReminderSpec(g, turns)
  }

  function AfterEvents(pending: PlanReader, events: seq<Event>): State {
    if events == [] then FRESH
    else Apply(AfterEvents(pending, events[..|events| - 1]), pending, events[|events| - 1]).0
  }

  function LastReminder(pending: PlanReader, events: seq<Event>): Reminder
    requires events != []
  {
    Apply(AfterEvents(pending, events[..|events| - 1]), pending, events[|events| - 1]).1
  }

  function TurnsOf(events: seq<Event>): seq<Turn> {
    if events == [] then []
    else
      var e := events[|events| - 1];
      TurnsOf(events[..|events| - 1]) + if e.Observed? then [e.turn] else []
  }

  /** The turns at the end of the history that are all empty, or all tool-only. */
  function TrailingEmpty(turns: seq<Turn>): nat {
    if turns == [] || !IsEmptyTurn(turns[|turns| - 1]) then 0 else TrailingEmpty(turns[..|turns| - 1]) + 1
  }

  function TrailingToolOnly(turns: seq<Turn>): nat {
    if turns == [] || !IsToolOnly(turns[|turns| - 1]) then 0 else TrailingToolOnly(turns[..|turns| - 1]) + 1
  }

  predicate UpdatesPlan(t: Turn) {
    exists i :: 0 <= i < |t.calls| && t.calls[i].name == PLAN_TOOL
  }

  /** Turns since the one that last updated the plan. */
  function TurnsSincePlan(turns: seq<Turn>): nat {
    if turns == [] || UpdatesPlan(turns[|turns| - 1]) then 0 else TurnsSincePlan(turns[..|turns| - 1]) + 1
  }

  /** All tool calls of a run, in order. */
  function AllCalls(turns: seq<Turn>): seq<ToolCall> {
    if turns == [] then [] else AllCalls(turns[..|turns| - 1]) + turns[|turns| - 1].calls
  }

  predicate PlanCalled(calls: seq<ToolCall>) {
    exists i :: 0 <= i < |calls| && calls[i].name == PLAN_TOOL
  }

  /** Calls since the last plan update, or since the start. */
  function CallsSincePlan(calls: seq<ToolCall>): nat {
    if calls == [] || calls[|calls| - 1].name == PLAN_TOOL then 0 else CallsSincePlan(calls[..|calls| - 1]) + 1
  }

  /** Unfinished items in the last readable plan. */
  function ItemsInLastPlan(pending: PlanReader, calls: seq<ToolCall>): nat {
    if calls == [] then 0
    else
      var c := calls[|calls| - 1];
      if c.name == PLAN_TOOL && pending(c.arguments).Some? then pending(c.arguments).value
      else ItemsInLastPlan(pending, calls[..|calls| - 1])
  }

  ghost predicate MeansCalls(g: State, pending: PlanReader, calls: seq<ToolCall>) {
    && g.totalToolCalls == |calls|
    && g.planEverCalled == PlanCalled(calls)
    && g.toolCallsSincePlanUpdate == CallsSincePlan(calls)
    && g.planItemsPending == ItemsInLastPlan(pending, calls)
  }

  lemma CallMeans(g: State, pending: PlanReader, calls: seq<ToolCall>, c: ToolCall)
    requires MeansCalls(g, pending, calls)
    ensures MeansCalls(ObserveCall(g, pending, c), pending, calls + [c])
  {
    var all := calls + [c];
    assert all[..|calls|] == calls;
    if c.name == PLAN_TOOL {
      assert all[|calls|].name == PLAN_TOOL;
    } else if PlanCalled(calls) {
      var i :| 0 <= i < |calls| && calls[i].name == PLAN_TOOL;
      assert all[i].name == PLAN_TOOL;
    }
  }

  /** The pending items follow the plan calls, whatever else was observed. */
  lemma {:induction false} PendingFollows(g: State, pending: PlanReader, before: seq<ToolCall>, calls: seq<ToolCall>)
    requires g.planItemsPending == ItemsInLastPlan(pending, before)
    ensures ObserveCalls(g, pending, calls).planItemsPending == ItemsInLastPlan(pending, before + calls)
  {
    if calls == [] {
      assert before + calls == before;
    } else {
      var n := |calls| - 1;
      PendingFollows(g, pending, before, calls[..n]);
      assert (before + calls)[..|before + calls| - 1] == before + calls[..n];
    }
  }

  lemma PendingAfterTurn(g: State, pending: PlanReader, turns: seq<Turn>, t: Turn)
    requires g.planItemsPending == ItemsInLastPlan(pending, AllCalls(turns))
    ensures ObserveTurnSpec(g, pending, t).planItemsPending == ItemsInLastPlan(pending, AllCalls(turns + [t]))
  {
    hide ItemsInLastPlan, ObserveCalls, IsEmptyTurn, IsToolOnly;
    assert (turns + [t])[..|turns|] == turns;
    PendingFollows(g.(emptyTurns := if IsEmptyTurn(t) then g.emptyTurns + 1 else 0,
                      toolOnlyTurns := if IsToolOnly(t) then g.toolOnlyTurns + 1 else 0,
                      toolOnlyReminderSent := IsToolOnly(t) && g.toolOnlyReminderSent,
                      turnsSincePlanUpdate := g.turnsSincePlanUpdate + 1), pending, AllCalls(turns), t.calls);
  }

  /** Reminders leave the pending items alone. */
  lemma RemindersLeavePending(g: State, turn: nat)
    ensures ProgressReminderSpec(g).0.planItemsPending == g.planItemsPending
    ensures PlanReminderSpec(g, turn).0.planItemsPending == g.planItemsPending
  {
  }

  lemma {:induction false} CallsMean(g: State, pending: PlanReader, before: seq<ToolCall>, calls: seq<ToolCall>)
    requires MeansCalls(g, pending, before)
    ensures MeansCalls(ObserveCalls(g, pending, calls), pending, before + calls)
  {
    hide ObserveCall, MeansCalls;
    if calls == [] {
      assert before + calls == before;
    } else {
      var n := |calls| - 1;
      CallsMean(g, pending, before, calls[..n]);
      CallMeans(ObserveCalls(g, pending, calls[..n]), pending, before + calls[..n], calls[n]);
      assert before + calls == (before + calls[..n]) + [calls[n]];
    }
  }

  /** Reminders given: progress reminders in the current tool-only stretch, stale-plan reminders since
      the last plan update, not-called reminders ever. */
  function ProgressGiven(pending: PlanReader, events: seq<Event>): nat {
    if events == [] then 0
    else
      var before, e := events[..|events| - 1], events[|events| - 1];
      if e.Observed? && !IsToolOnly(e.turn) then 0
      else ProgressGiven(pending, before) + if LastReminder(pending, events).ProgressReminder? then 1 else 0
  }

  function StaleGiven(pending: PlanReader, events: seq<Event>): nat {
    if events == [] then 0
    else
      var before, e := events[..|events| - 1], events[|events| - 1];
      if e.Observed? && UpdatesPlan(e.turn) then 0
      else StaleGiven(pending, before) + if LastReminder(pending, events).StalePlanReminder? then 1 else 0
  }

  function NotCalledGiven(pending: PlanReader, events: seq<Event>): nat {
    if events == [] then 0
    else
      NotCalledGiven(pending, events[..|events| - 1])
      + if LastReminder(pending, events).NotCalledReminder? then 1 else 0
  }

  function Flag(b: bool): nat { if b then 1 else 0 }

  ghost predicate MeansHistory(g: State, pending: PlanReader, events: seq<Event>) {
    var turns := TurnsOf(events);
    && g.emptyTurns == TrailingEmpty(turns)
    && g.toolOnlyTurns == TrailingToolOnly(turns)
    && g.turnsSincePlanUpdate == TurnsSincePlan(turns)
    && MeansCalls(g, pending, AllCalls(turns))
    && ProgressGiven(pending, events) == Flag(g.toolOnlyReminderSent)
    && StaleGiven(pending, events) == Flag(g.staleReminderSent)
    && NotCalledGiven(pending, events) == Flag(g.notCalledReminderSent)
  }

  lemma {:induction false} CallsUpdatePlan(g: State, pending: PlanReader, calls: seq<ToolCall>)
    ensures var g', updates := ObserveCalls(g, pending, calls), exists i :: 0 <= i < |calls| && calls[i].name == PLAN_TOOL;
            && g'.turnsSincePlanUpdate == (if updates then 0 else g.turnsSincePlanUpdate)
            && g'.staleReminderSent == (g.staleReminderSent && !updates)
  {
    if calls != [] {
      var n := |calls| - 1;
      CallsUpdatePlan(g, pending, calls[..n]);
      if calls[n].name != PLAN_TOOL && exists i :: 0 <= i < |calls| && calls[i].name == PLAN_TOOL {
        var i :| 0 <= i < |calls| && calls[i].name == PLAN_TOOL;
        assert calls[..n][i].name == PLAN_TOOL;
      }
    }
  }

  /** After any history, every counter and flag means what it says about that history; so each kind of
      reminder is given at most once per tool-only stretch, plan interval, and run. */
  lemma {:induction false} CountersMeanHistory(pending: PlanReader, events: seq<Event>)
    ensures MeansHistory(AfterEvents(pending, events), pending, events)
  {
    if events != [] {
      var n := |events| - 1;
      CountersMeanHistory(pending, events[..n]);
      if events[n].Observed? {
        ObservedMeansHistory(AfterEvents(pending, events[..n]), pending, events);
      } else {
        AskedMeansHistory(AfterEvents(pending, events[..n]), pending, events);
      }
    }
  }

  lemma AskedMeansHistory(g: State, pending: PlanReader, events: seq<Event>)
    requires events != [] && !events[|events| - 1].Observed?
    requires g == AfterEvents(pending, events[..|events| - 1]) && MeansHistory(g, pending, events[..|events| - 1])
    ensures MeansHistory(Apply(g, pending, events[|events| - 1]).0, pending, events)
  {
    hide TrailingEmpty, TrailingToolOnly, TurnsSincePlan, AllCalls, PlanCalled, CallsSincePlan, ItemsInLastPlan;
    var before := events[..|events| - 1];
    assert TurnsOf(events) == TurnsOf(before) + [] == TurnsOf(before);
  }

  /** The turn-level fields after one observed turn. */
  lemma ObservedFields(g: State, pending: PlanReader, t: Turn)
    ensures var g' := ObserveTurnSpec(g, pending, t);
            && g'.emptyTurns == (if IsEmptyTurn(t) then g.emptyTurns + 1 else 0)
            && g'.toolOnlyTurns == (if IsToolOnly(t) then g.toolOnlyTurns + 1 else 0)
            && g'.turnsSincePlanUpdate == (if UpdatesPlan(t) then 0 else g.turnsSincePlanUpdate + 1)
            && g'.toolOnlyReminderSent == (IsToolOnly(t) && g.toolOnlyReminderSent)
            && g'.staleReminderSent == (g.staleReminderSent && !UpdatesPlan(t))
            && g'.notCalledReminderSent == g.notCalledReminderSent && g'.toolFailures == g.toolFailures
  {
    hide TrimSpace, IsEmptyTurn, IsToolOnly, ObserveCalls;
    var g1 := g.(emptyTurns := if IsEmptyTurn(t) then g.emptyTurns + 1 else 0,
                 toolOnlyTurns := if IsToolOnly(t) then g.toolOnlyTurns + 1 else 0,
                 toolOnlyReminderSent := IsToolOnly(t) && g.toolOnlyReminderSent,
                 turnsSincePlanUpdate := g.turnsSincePlanUpdate + 1);
    CallsKeepEmptyTurns(g1, pending, t.calls);
    CallsUpdatePlan(g1, pending, t.calls);
  }

  lemma ObservedGiven(pending: PlanReader, events: seq<Event>)
    requires events != [] && events[|events| - 1].Observed?
    ensures var before, t := events[..|events| - 1], events[|events| - 1].turn;
            && ProgressGiven(pending, events) == (if IsToolOnly(t) then ProgressGiven(pending, before) else 0)
            && StaleGiven(pending, events) == (if UpdatesPlan(t) then 0 else StaleGiven(pending, before))
            && NotCalledGiven(pending, events) == NotCalledGiven(pending, before)
  {
    hide IsToolOnly, UpdatesPlan, AfterEvents, ObserveTurnSpec;
  }

  lemma ObservedMeansHistory(g: State, pending: PlanReader, events: seq<Event>)
    requires events != [] && events[|events| - 1].Observed?
    requires MeansHistory(g, pending, events[..|events| - 1])
    ensures MeansHistory(ObserveTurnSpec(g, pending, events[|events| - 1].turn), pending, events)
  {
    hide IsEmptyTurn, IsToolOnly, UpdatesPlan, ObserveTurnSpec, ProgressGiven, StaleGiven, NotCalledGiven, MeansCalls;
    var t, turns := events[|events| - 1].turn, TurnsOf(events);
    assert turns[..|turns| - 1] == TurnsOf(events[..|events| - 1]) && turns[|turns| - 1] == t;
    ObservedFields(g, pending, t);
    ObservedGiven(pending, events);
    TurnMeansCalls(g, pending, AllCalls(TurnsOf(events[..|events| - 1])), t);
  }

  lemma TurnMeansCalls(g: State, pending: PlanReader, before: seq<ToolCall>, t: Turn)
    requires MeansCalls(g, pending, before)
    ensures MeansCalls(ObserveTurnSpec(g, pending, t), pending, before + t.calls)
  {
    hide ObserveCalls, PlanCalled, CallsSincePlan, ItemsInLastPlan, IsEmptyTurn, IsToolOnly;
    var g1 := g.(emptyTurns := if IsEmptyTurn(t) then g.emptyTurns + 1 else 0,
                 toolOnlyTurns := if IsToolOnly(t) then g.toolOnlyTurns + 1 else 0,
                 toolOnlyReminderSent := IsToolOnly(t) && g.toolOnlyReminderSent,
                 turnsSincePlanUpdate := g.turnsSincePlanUpdate + 1);
    CallsMean(g1, pending, before, t.calls);
  }

  /** On asking, the progress reminder is given exactly when the last six turns or more were tool-only and
      it was not given in this stretch; it names the length of the stretch. */
  lemma ProgressReminderIsExact(pending: PlanReader, events: seq<Event>)
    requires events != [] && events[|events| - 1].ProgressAsked?
    ensures var before := events[..|events| - 1];
            var stretch := TrailingToolOnly(TurnsOf(before));
            LastReminder(pending, events)
            == if stretch >= 6 && ProgressGiven(pending, before) == 0 then ProgressReminder(stretch) else NoReminder
  {
    CountersMeanHistory(pending, events[..|events| - 1]);
  }

  /** When a plan has gone stale: enough calls since its last update, or enough turns with items open. */
  predicate PlanIsStale(pending: PlanReader, turns: seq<Turn>) {
    var calls := AllCalls(turns);
    && PlanCalled(calls)
    && (CallsSincePlan(calls) >= 10 || (TurnsSincePlan(turns) >= 8 && ItemsInLastPlan(pending, calls) > 0))
  }

  /** On asking, the stale-plan reminder is given exactly when the plan is stale and none was given since
      its last update; failing that, the not-called reminder exactly when tools but never a plan were
      called by the third turn and none was given before. */
  lemma PlanReminderIsExact(pending: PlanReader, events: seq<Event>)
    requires events != [] && events[|events| - 1].PlanAsked?
    ensures var before, turn := events[..|events| - 1], events[|events| - 1].turns;
            var calls := AllCalls(TurnsOf(before));
            LastReminder(pending, events)
            == if PlanIsStale(pending, TurnsOf(before)) && StaleGiven(pending, before) == 0
               then StalePlanReminder(CallsSincePlan(calls))
               else if calls != [] && !PlanCalled(calls) && turn >= 3 && NotCalledGiven(pending, before) == 0
               then NotCalledReminder
               else NoReminder
  {
    CountersMeanHistory(pending, events[..|events| - 1]);
  }

  /** The no-output guard stops exactly when the last three observed turns were empty. */
  lemma NoOutputStopIsExact(pending: PlanReader, events: seq<Event>)
    ensures var turns := TurnsOf(events);
            AfterEvents(pending, events).emptyTurns >= MAX_EMPTY_TURNS
            <==> |turns| >= 3 && forall i | |turns| - 3 <= i < |turns| :: IsEmptyTurn(turns[i])
  {
    CountersMeanHistory(pending, events);
    TrailingAtLeast(TurnsOf(events), 3);
  }

  lemma {:induction false} TrailingAtLeast(turns: seq<Turn>, k: nat)
    ensures TrailingEmpty(turns) >= k <==> |turns| >= k && forall i | |turns| - k <= i < |turns| :: IsEmptyTurn(turns[i])
  {
    if k > 0 && turns != [] {
      var n := |turns| - 1;
      TrailingAtLeast(turns[..n], k - 1);
      assert forall i | 0 <= i < n :: turns[..n][i] == turns[i];
    }
  }

  // ---------------------------------------------------------------------------------------------
  // Quoted spans
  // ---------------------------------------------------------------------------------------------

  predicate Opens(c: char) { c == '"' || c == '\U{201C}' || c == '`' }

  function Closer(open: char): char { if open == '\U{201C}' then '\U{201D}' else open }

  /** Text with balanced quoted spans removed. Here text is decoded: one char is one rune of valid UTF-8; `open`
      is the pending opener and `span` the text since. */
  function Strip(s: string, open: Option<char>, span: string): string {
    if s == [] then span
    else if open.Some? then
      if s[0] == Closer(open.value) then Strip(s[1..], None, []) else Strip(s[1..], open, span + [s[0]])
    else if Opens(s[0]) then Strip(s[1..], Some(s[0]), [s[0]])
    else [s[0]] + Strip(s[1..], None, [])
  }

  method StripQuoted(s: string) returns (r: string)
    ensures r == Strip(s, None, [])
  {
    var b, span: string := [], [];
    var open: Option<char> := None;
    for i := 0 to |s|
      invariant open.None? ==> span == []
      invariant b + Strip(s[i..], open, span) == Strip(s, None, [])
    {
      assert s[i..][1..] == s[i + 1..];
      if open.Some? {
        if s[i] == Closer(open.value) {
          open, span := None, [];
        } else {
          span := span + [s[i]];
        }
      } else if Opens(s[i]) {
        open, span := Some(s[i]), [s[i]];
      } else {
        assert b + ([s[i]] + Strip(s[i + 1..], None, [])) == (b + [s[i]]) + Strip(s[i + 1..], None, []);
        b := b + [s[i]];
      }
    }
    assert s[|s|..] == [];
    r := b + span;
  }

  lemma {:induction false} StripUnquoted(s: string)
    requires forall i | 0 <= i < |s| :: !Opens(s[i])
    ensures Strip(s, None, []) == s
  {
    if s != [] {
      StripUnquoted(s[1..]);
    }
  }

  /** With an opener pending, either the span closes (at `k`) or all of it comes back. */
  lemma {:induction false} StripPending(s: string, open: char, span: string) returns (k: nat)
    ensures if Closer(open) in s
            then k < |s| && Strip(s, Some(open), span) == Strip(s[k + 1..], None, [])
            else Strip(s, Some(open), span) == span + s
  {
    k := 0;
    if s != [] && s[0] != Closer(open) {
      k := StripPending(s[1..], open, span + [s[0]]);
      if Closer(open) in s[1..] {
        assert s[1..][k + 1..] == s[k + 2..];
        k := k + 1;
      } else {
        assert (span + [s[0]]) + s[1..] == span + s;
      }
    }
  }

  lemma {:induction false} StripBehind(front: string, s: string)
    requires forall i | 0 <= i < |front| :: !Opens(front[i])
    ensures Strip(front + s, None, []) == front + Strip(s, None, [])
  {
    if front == [] {
      assert front + s == s;
    } else {
      assert (front + s)[1..] == front[1..] + s;
      StripBehind(front[1..], s);
      assert [front[0]] + (front[1..] + Strip(s, None, [])) == front + Strip(s, None, []);
    }
  }

  lemma {:induction false} SpanCloses(open: char, span: string, body: string, rest: string)
    requires Closer(open) !in body
    ensures Strip(body + [Closer(open)] + rest, Some(open), span) == Strip(rest, None, [])
    decreases |body|
  {
    var s := body + [Closer(open)] + rest;
    if body == [] {
      assert s[1..] == rest;
    } else {
      assert s[1..] == body[1..] + [Closer(open)] + rest;
      SpanCloses(open, span + [body[0]], body[1..], rest);
    }
  }

  /** The first quoted span goes, quotes and all, and nothing in front of it; what is behind is stripped in turn. */
  lemma QuotedSpanGoes(front: string, open: char, body: string, rest: string)
    requires (forall i | 0 <= i < |front| :: !Opens(front[i])) && Opens(open) && Closer(open) !in body
    ensures Strip(front + ([open] + (body + [Closer(open)] + rest)), None, []) == front + Strip(rest, None, [])
  {
    var quoted := [open] + (body + [Closer(open)] + rest);
    StripBehind(front, quoted);
    assert quoted[1..] == body + [Closer(open)] + rest;
    SpanCloses(open, [open], body, rest);
  }

  /** A span that is never closed stays. */
  lemma UnclosedSpanStays(front: string, open: char, body: string)
    requires (forall i | 0 <= i < |front| :: !Opens(front[i])) && Opens(open) && Closer(open) !in body
    ensures Strip(front + ([open] + body), None, []) == front + ([open] + body)
  {
    StripBehind(front, [open] + body);
    assert ([open] + body)[1..] == body;
    var _ := StripPending(body, open, [open]);
  }

  /** Stripping twice strips no more than once. */
  lemma {:induction false} StripIdempotent(s: string)
    ensures Strip(Strip(s, None, []), None, []) == Strip(s, None, [])
    decreases |s|
  {
    if s != [] {
      if Opens(s[0]) {
        var k := StripPending(s[1..], s[0], [s[0]]);
        if Closer(s[0]) in s[1..] {
          StripIdempotent(s[1..][k + 1..]);
        } else {
          assert [s[0]] + s[1..] == s;
        }
      } else {
        StripIdempotent(s[1..]);
        var r := Strip(s[1..], None, []);
        assert ([s[0]] + r)[1..] == r;
      }
    }
  }
}
