/** Scoring an agent evaluation: results are collected check by check, and the report's verdict is to
    be exactly the conjunction the suite asks for. */
module Score {
  import opened Text

  datatype Status = Pass | Fail | Blocked | Error

  datatype Command = Command(id: string, name: string)

  datatype Task = Task(
    id: string, commands: seq<Command>, expectedFiles: seq<string>, forbiddenFiles: seq<string>,
    contextRequired: seq<string>, contextForbidden: seq<string>, events: seq<string>)

  datatype CommandResult = CommandResult(id: string, exitCode: int, error: string)

  datatype ContextResult = ContextResult(missing: seq<string>, present: seq<string>)

  /** `events` are the event keys found in the trace. */
  datatype Input = Input(
    taskID: string, results: seq<CommandResult>, changedFiles: seq<string>,
    context: Option<ContextResult>, contextError: string, events: seq<string>, blocked: bool)

  datatype Result = Result(id: string, status: Status)

  datatype Summary = Summary(total: nat, passed: nat, failed: nat, blocked: nat, errors: nat)

  datatype Report = Report(status: Status, ok: bool, summary: Summary, changedFiles: seq<string>, results: seq<Result>)

  // ---------------------------------------------------------------------------------------------
  // Normal forms
  // ---------------------------------------------------------------------------------------------

  /** How a listed value is brought to its normal form; None when it is no valid entry. */
  type Normal = string -> Option<string>

  /** Backslashes as slashes. */
  function Slashes(s: string): string {
    if s == [] then [] else [if s[0] == '\\' then '/' else s[0]] + Slashes(s[1..])
  }

  /** Workspace-relative paths; `clean` is the path library's lexical cleaning. */
  function EvalPath(clean: string -> string): Normal {
    (file: string) =>
      var f := TrimSpace(Slashes(file));
      if f == "" then Some("")
      else if f[0] == '/' || ':' in f then None
      else if clean(f) == "." || clean(f) == ".." || "../" <= clean(f) then None
      else Some(clean(f))
  }

  function EvalString(): Normal { (s: string) => Some(TrimSpace(s)) }

  ghost predicate IsNormalForm(normal: Normal, values: seq<string>, v: string) {
    v != "" && exists i :: 0 <= i < |values| && normal(values[i]) == Some(v)
  }

  /** Drop what is invalid, empty or seen, and sort: the normal forms, each once, in order. */
  method Normalize(normal: Normal, values: seq<string>) returns (out: seq<string>)
    ensures Increasing(out)
    ensures forall v :: v in out <==> IsNormalForm(normal, values, v)
  {
    var seen: set<string>, kept: seq<string> := {}, [];
    for i := 0 to |values|
      invariant forall v :: v in seen <==> v in kept
      invariant forall v :: v in kept <==> v != "" && exists k :: 0 <= k < i && normal(values[k]) == Some(v)
    {
      var n := normal(values[i]);
      if n.None? || n.value == "" || n.value in seen { continue; }
      seen := seen + {n.value};
      kept := kept + [n.value];
    }
    SortedSetIncreasing(kept);
    out := SortedSet(kept);
  }

  ghost predicate NormalizedTask(clean: string -> string, raw: Task, task: Task) {
    && task.id == raw.id && task.commands == raw.commands
    && Normalized(EvalPath(clean), raw.expectedFiles, task.expectedFiles)
    && Normalized(EvalPath(clean), raw.forbiddenFiles, task.forbiddenFiles)
    && Normalized(EvalPath(clean), raw.contextRequired, task.contextRequired)
    && Normalized(EvalPath(clean), raw.contextForbidden, task.contextForbidden)
    && Normalized(EvalString(), raw.events, task.events)
  }

  ghost predicate Normalized(normal: Normal, values: seq<string>, out: seq<string>) {
    Increasing(out) && forall v :: v in out <==> IsNormalForm(normal, values, v)
  }

  method NormalizeTask(clean: string -> string, raw: Task) returns (task: Task)
    ensures NormalizedTask(clean, raw, task)
  {
    hide IsNormalForm, Increasing;
    var expected := Normalize(EvalPath(clean), raw.expectedFiles);
    var forbidden := Normalize(EvalPath(clean), raw.forbiddenFiles);
    var events := Normalize(EvalString(), raw.events);
    var required := Normalize(EvalPath(clean), raw.contextRequired);
    var contextForbidden := Normalize(EvalPath(clean), raw.contextForbidden);
    task := Task(raw.id, raw.commands, expected, forbidden, required, contextForbidden, events);
  }

  /** A list has one normal form: what the order and repetition of its entries were does not matter. */
  lemma NormalFormUnique(normal: Normal, a: seq<string>, b: seq<string>, x: seq<string>, y: seq<string>)
    requires Normalized(normal, a, x) && Normalized(normal, b, y)
    requires forall v :: IsNormalForm(normal, a, v) <==> IsNormalForm(normal, b, v)
    ensures x == y
  {
    hide IsNormalForm;
    IncreasingUnique(x, y);
  }

  // ---------------------------------------------------------------------------------------------
  // The verdict
  // ---------------------------------------------------------------------------------------------

  /** The last result reported under an id. */
  function LastResult(results: seq<CommandResult>, id: string): Option<CommandResult> {
    if results == [] then None
    else
      var r := results[|results| - 1];
      if r.id == id && id != "" then Some(r) else LastResult(results[..|results| - 1], id)
  }

  /** Whatever is reported again under an id counts the last time; the empty id never counts. */
  lemma {:induction false} LastCounts(results: seq<CommandResult>, id: string) returns (k: nat)
    ensures if LastResult(results, id).None? then id == "" || forall i | 0 <= i < |results| :: results[i].id != id
            else && id != "" && k < |results| && results[k].id == id && LastResult(results, id) == Some(results[k])
                 && forall i | k < i < |results| :: results[i].id != id
  {
    k := 0;
    if results != [] {
      var n := |results| - 1;
      if results[n].id == id {
        k := n;
        if id == "" {
          EmptyNeverCounts(results);
        }
      } else {
        k := LastCounts(results[..n], id);
        assert forall i | 0 <= i < n :: results[..n][i] == results[i];
      }
    }
  }

  lemma {:induction false} EmptyNeverCounts(results: seq<CommandResult>)
    ensures LastResult(results, "").None?
  {
    if results != [] {
      EmptyNeverCounts(results[..|results| - 1]);
    }
  }

  ghost predicate CommandPasses(results: seq<CommandResult>, id: string) {
    var r := LastResult(results, id);
    r.Some? && r.value.error == "" && r.value.exitCode == 0
  }

  predicate HasContextChecks(task: Task) { task.contextRequired != [] || task.contextForbidden != [] }

  ghost predicate ContextPasses(task: Task, input: Input) {
    HasContextChecks(task) ==>
      input.contextError == "" && input.context.Some?
      && input.context.value.missing == [] && input.context.value.present == []
  }

  ghost predicate Known(task: Task, id: string) {
    exists i :: 0 <= i < |task.commands| && task.commands[i].id == id
  }

  /** What a passing run has to show. */
  ghost predicate Verdict(task: Task, input: Input, changed: seq<string>) {
    && !input.blocked
    && (forall i | 0 <= i < |task.commands| :: CommandPasses(input.results, task.commands[i].id))
    && changed == task.expectedFiles
    && (forall f | f in task.forbiddenFiles :: f !in changed)
    && ContextPasses(task, input)
    && (forall e | e in task.events :: e in input.events)
    && (forall i | 0 <= i < |input.results| && input.results[i].id != "" :: Known(task, input.results[i].id))
  }

  function CheckCount(task: Task): nat {
    |task.commands| + 1 + (if task.forbiddenFiles != [] then 1 else 0) + (if HasContextChecks(task) then 1 else 0)
    + (if task.events != [] then 1 else 0)
  }

  function Tally(results: seq<Result>, status: Status): nat {
    if results == [] then 0
    else Tally(results[..|results| - 1], status) + if results[|results| - 1].status == status then 1 else 0
  }

  /** The positions of the results with that status. */
  ghost function Positions(results: seq<Result>, status: Status): set<nat> {
    set i: nat | i < |results| && results[i].status == status
  }

  lemma PositionsStep(results: seq<Result>, status: Status)
    requires results != []
    ensures var n := |results| - 1;
            && n !in Positions(results[..n], status)
            && Positions(results, status) == if results[n].status == status then Positions(results[..n], status) + {n}
                                             else Positions(results[..n], status)
  {
    var n := |results| - 1;
    assert forall i | 0 <= i < n :: results[..n][i] == results[i];
  }

  /** A tally is the number of results with that status. */
  lemma {:induction false} TallyCounts(results: seq<Result>, status: Status)
    ensures Tally(results, status) == |Positions(results, status)|
  {
    hide Positions;
    if results == [] {
      NoPositions(status);
    } else {
      TallyCounts(results[..|results| - 1], status);
      PositionsStep(results, status);
    }
  }

  lemma NoPositions(status: Status)
    ensures Positions([], status) == {}
  {
  }

  ghost predicate AllPass(results: seq<Result>) {
    forall i | 0 <= i < |results| :: results[i].status == Pass
  }

  lemma {:induction false} TalliesAddUp(results: seq<Result>)
    ensures Tally(results, Pass) + Tally(results, Fail) + Tally(results, Blocked) + Tally(results, Error) == |results|
    ensures AllPass(results) <==> Tally(results, Fail) == 0 && Tally(results, Blocked) == 0 && Tally(results, Error) == 0
  {
    if results != [] {
      var n := |results| - 1;
      TalliesAddUp(results[..n]);
      assert AllPass(results) <==> AllPass(results[..n]) && results[n].status == Pass by {
        if AllPass(results[..n]) && results[n].status == Pass {
          forall i | 0 <= i < |results| ensures results[i].status == Pass {
            assert i < n ==> results[..n][i] == results[i];
          }
        }
      }
    }
  }

  // ---------------------------------------------------------------------------------------------
  // Scoring
  // ---------------------------------------------------------------------------------------------

  method CommandResultsByID(results: seq<CommandResult>) returns (byID: map<string, CommandResult>)
    ensures forall id :: (if id in byID then Some(byID[id]) else None) == LastResult(results, id)
  {
    byID := map[];
    for i := 0 to |results|
      invariant forall id :: (if id in byID then Some(byID[id]) else None) == LastResult(results[..i], id)
    {
      assert results[..i + 1][..i] == results[..i];
      if results[i].id != "" {
        byID := byID[results[i].id := results[i]];
      }
    }
    assert results[..|results|] == results;
  }

  /** A command is scored under its own id: blocked with the run, an error without a result or with one that reports an
      error, and otherwise by its exit code. */
  ghost predicate IsScored(command: Command, result: Option<CommandResult>, blocked: bool, scored: Result) {
    && scored.id == command.id
    && scored.status == if blocked then Blocked
                        else if result.None? || result.value.error != "" then Error
                        else if result.value.exitCode == 0 then Pass else Fail
  }

  method ScoreCommand(command: Command, result: Option<CommandResult>, blocked: bool) returns (scored: Result)
    ensures IsScored(command, result, blocked, scored)
  {
    if blocked { return Result(command.id, Blocked); }
    if result.None? { return Result(command.id, Error); }
    if result.value.error != "" { return Result(command.id, Error); }
    if result.value.exitCode == 0 { return Result(command.id, Pass); }
    scored := Result(command.id, Fail);
  }

  method DiffFiles(left: seq<string>, right: seq<string>) returns (diff: seq<string>)
    ensures Sorted(diff) && forall f :: f in diff <==> f in left && f !in right
  {
    var rightSet: set<string> := {};
    for i := 0 to |right|
      invariant forall f :: f in rightSet <==> f in right[..i]
    {
      rightSet := rightSet + {right[i]};
    }
    assert right[..|right|] == right;
    diff := [];
    for i := 0 to |left|
      invariant forall f :: f in diff <==> f in left[..i] && f !in right
    {
      if left[i] !in rightSet {
        diff := diff + [left[i]];
      }
    }
    assert left[..|left|] == left;
    SortSorts(diff);
    diff := Sort(diff);
  }

  method IntersectFiles(left: seq<string>, right: seq<string>) returns (both: seq<string>)
    ensures Increasing(both) && forall f :: f in both <==> f in left && f in right
  {
    var rightSet, seen: set<string> := {}, {};
    for i := 0 to |right|
      invariant forall f :: f in rightSet <==> f in right[..i]
    {
      rightSet := rightSet + {right[i]};
    }
    assert right[..|right|] == right;
    both := [];
    for i := 0 to |left|
      invariant forall f :: f in both <==> f in left[..i] && f in right
      invariant forall f :: f in seen <==> f in both
    {
      if left[i] in rightSet && left[i] !in seen {
        seen := seen + {left[i]};
        both := both + [left[i]];
      }
    }
    assert left[..|left|] == left;
    SortedSetIncreasing(both);
    both := SortedSet(both);
  }

  lemma EmptyMeans(xs: seq<string>)
    ensures xs == [] <==> forall x :: x !in xs
  {
    if xs != [] {
      assert xs[0] in xs;
    }
  }

  /** Nothing missing and nothing unexpected means that the two sorted lists are the same. */
  method ScoreChangedFiles(expected: seq<string>, actual: seq<string>, blocked: bool) returns (scored: Result)
    requires Increasing(expected) && Increasing(actual)
    ensures scored.status == Pass <==> !blocked && actual == expected
    ensures scored.status == Blocked <==> blocked
    ensures scored.status != Error
  {
    hide Increasing;
    if blocked { return Result("changed_files", Blocked); }
    var missing := DiffFiles(expected, actual);
    var unexpected := DiffFiles(actual, expected);
    EmptyMeans(missing);
    EmptyMeans(unexpected);
    if missing == [] && unexpected == [] {
      IncreasingUnique(expected, actual);
      return Result("changed_files", Pass);
    }
    scored := Result("changed_files", Fail);
  }

  method ScoreForbiddenChangedFiles(forbidden: seq<string>, actual: seq<string>, blocked: bool) returns (scored: Result)
    ensures scored.status == Pass <==> !blocked && forall f | f in forbidden :: f !in actual
    ensures scored.status == Blocked <==> blocked
    ensures scored.status != Error
  {
    if blocked { return Result("forbidden_changed_files", Blocked); }
    var unexpected := IntersectFiles(actual, forbidden);
    EmptyMeans(unexpected);
    scored := Result("forbidden_changed_files", if |unexpected| > 0 then Fail else Pass);
  }

  method ScoreContextChecks(task: Task, input: Input) returns (scored: Result)
    requires HasContextChecks(task)
    ensures scored.status == Pass <==> !input.blocked && ContextPasses(task, input)
    ensures scored.status == Blocked <==> input.blocked
    ensures scored.status == Error <==> !input.blocked && (input.contextError != "" || input.context.None?)
  {
    if input.blocked { return Result("context_checks", Blocked); }
    if input.contextError != "" || input.context.None? { return Result("context_checks", Error); }
    var c := input.context.value;
    scored := Result("context_checks", if |c.missing| > 0 || |c.present| > 0 then Fail else Pass);
  }

  method ScoreTraceEvents(required: seq<string>, input: Input) returns (scored: Result)
    ensures scored.status == Pass <==> !input.blocked && forall e | e in required :: e in input.events
    ensures scored.status == Blocked <==> input.blocked
    ensures scored.status != Error
  {
    if input.blocked { return Result("trace_events", Blocked); }
    var missing := DiffFiles(required, input.events);
    EmptyMeans(missing);
    scored := Result("trace_events", if |missing| > 0 then Fail else Pass);
  }

  ghost predicate Unknown(task: Task, results: seq<CommandResult>, id: string) {
    id != "" && !Known(task, id) && LastResult(results, id).Some?
  }

  /** An unknown command never passes: it fails if all it did was exit badly, and is an error otherwise. */
  function UnknownStatus(r: Option<CommandResult>, blocked: bool): (status: Status)
    ensures status != Pass && (status == Blocked <==> blocked)
    ensures status == Fail <==> !blocked && r.Some? && r.value.error == "" && r.value.exitCode != 0
  {
    if blocked then Blocked
    else if r.Some? && r.value.error == "" && r.value.exitCode != 0 then Fail
    else Error
  }

  /** `ids` lists the unknown ids, each once. */
  ghost predicate ListsUnknown(task: Task, results: seq<CommandResult>, ids: seq<string>) {
    Increasing(ids) && forall id :: id in ids <==> Unknown(task, results, id)
  }

  /** One result for each unknown id; none of them passes. */
  method UnknownCommandResults(task: Task, results: seq<CommandResult>, seen: set<string>, blocked: bool)
    returns (scored: seq<Result>, ids: seq<string>)
    requires forall id :: id in seen <==> Known(task, id)
    ensures ListsUnknown(task, results, ids) && |scored| == |ids|
    ensures forall i | 0 <= i < |scored| :: scored[i].id == "unknown_command." + ids[i]
    ensures forall i | 0 <= i < |scored| :: scored[i].status == UnknownStatus(LastResult(results, ids[i]), blocked)
  {
    hide Increasing;
    var byID: map<string, CommandResult>, found: seq<string> := map[], [];
    for i := 0 to |results|
      invariant forall id :: id in byID <==> id in found
      invariant forall id | id in byID :: LastResult(results[..i], id) == Some(byID[id])
      invariant forall id :: id in found <==> id != "" && id !in seen && LastResult(results[..i], id).Some?
    {
      assert results[..i + 1][..i] == results[..i];
      var r := results[i];
      if r.id != "" && r.id !in seen {
        byID := byID[r.id := r];
        found := found + [r.id];
      }
    }
    assert results[..|results|] == results;
    SortedSetIncreasing(found);
    ids := SortedSet(found);
    scored := ScoreUnknown(byID, ids, blocked);
  }

  method ScoreUnknown(byID: map<string, CommandResult>, ids: seq<string>, blocked: bool) returns (scored: seq<Result>)
    requires forall id | id in ids :: id in byID
    ensures |scored| == |ids|
    ensures forall i | 0 <= i < |scored| :: scored[i].id == "unknown_command." + ids[i]
    ensures forall i | 0 <= i < |scored| ::
              ids[i] in ids && scored[i].status == UnknownStatus(Some(byID[ids[i]]), blocked)
  {
    scored := [];
    for i := 0 to |ids|
      invariant |scored| == i
      invariant forall k | 0 <= k < i :: scored[k].id == "unknown_command." + ids[k]
      invariant forall k | 0 <= k < i :: ids[k] in ids && scored[k].status == UnknownStatus(Some(byID[ids[k]]), blocked)
    {
      assert ids[i] in ids;
      var r := byID[ids[i]];
      var status := if blocked then Blocked else if r.error == "" && r.exitCode != 0 then Fail else Error;
      scored := scored + [Result("unknown_command." + ids[i], status)];
    }
  }

  /** The summary's counts, and the status by precedence. */
  method FinishSummary(results: seq<Result>, changed: seq<string>) returns (report: Report)
    ensures report.results == results && report.changedFiles == changed
    ensures var s := report.summary;
            s.total == |results| == s.passed + s.failed + s.blocked + s.errors
            && s.passed == Tally(results, Pass) && s.failed == Tally(results, Fail)
            && s.blocked == Tally(results, Blocked) && s.errors == Tally(results, Error)
    ensures report.ok <==> AllPass(results)
    ensures report.ok <==> report.status == Pass
    ensures report.status == Blocked <==> report.summary.blocked > 0
    ensures report.status == Error <==> report.summary.blocked == 0 && report.summary.errors > 0
  {
    var passed, failed, blocked, errors := 0, 0, 0, 0;
    for i := 0 to |results|
      invariant passed == Tally(results[..i], Pass) && failed == Tally(results[..i], Fail)
      invariant blocked == Tally(results[..i], Blocked) && errors == Tally(results[..i], Error)
    {
      assert results[..i + 1][..i] == results[..i];
      match results[i].status {
        case Pass => passed := passed + 1;
        case Fail => failed := failed + 1;
        case Blocked => blocked := blocked + 1;
        case Error => errors := errors + 1;
      }
    }
    assert results[..|results|] == results;
    TalliesAddUp(results);
    var ok := failed == 0 && blocked == 0 && errors == 0;
    var status := if blocked > 0 then Blocked else if errors > 0 then Error else if failed > 0 then Fail else Pass;
    report := Report(status, ok, Summary(|results|, passed, failed, blocked, errors), changed, results);
  }

  function SelectTask(tasks: seq<Task>, taskID: string): Option<Task> {
    if taskID == "" && |tasks| == 1 then Some(tasks[0]) else FirstTask(tasks, taskID)
  }

  function FirstTask(tasks: seq<Task>, taskID: string): Option<Task> {
    if tasks == [] then None else if tasks[0].id == taskID then Some(tasks[0]) else FirstTask(tasks[1..], taskID)
  }

  /** The task scored: the only one when none is named, and otherwise the first of that name. */
  lemma {:induction false} TaskIsFirst(tasks: seq<Task>, taskID: string) returns (k: nat)
    ensures match FirstTask(tasks, taskID)
            case Some(task) => k < |tasks| && task == tasks[k] && task.id == taskID && forall i | 0 <= i < k :: tasks[i].id != taskID
            case None => forall i | 0 <= i < |tasks| :: tasks[i].id != taskID
    ensures SelectTask(tasks, taskID) == if taskID == "" && |tasks| == 1 then Some(tasks[0]) else FirstTask(tasks, taskID)
  {
    k := 0;
    if tasks != [] && tasks[0].id != taskID {
      k := TaskIsFirst(tasks[1..], taskID);
      assert forall i | 1 <= i < |tasks| :: tasks[i] == tasks[1..][i - 1];
      k := k + 1;
    }
  }

  method ScoreCommands(task: Task, input: Input) returns (scored: seq<Result>, seen: set<string>)
    ensures |scored| == |task.commands| && forall id :: id in seen <==> Known(task, id)
    ensures forall i | 0 <= i < |scored| :: IsScored(task.commands[i], LastResult(input.results, task.commands[i].id), input.blocked, scored[i])
    ensures AllPass(scored) <==> forall i | 0 <= i < |task.commands| :: !input.blocked && CommandPasses(input.results, task.commands[i].id)
  {
    var byID := CommandResultsByID(input.results);
    scored, seen := [], {};
    for i := 0 to |task.commands|
      invariant |scored| == i
      invariant forall id :: id in seen <==> exists k :: 0 <= k < i && task.commands[k].id == id
      invariant forall k | 0 <= k < i ::
                  IsScored(task.commands[k], LastResult(input.results, task.commands[k].id), input.blocked, scored[k])
    {
      var id := task.commands[i].id;
      seen := seen + {id};
      var r := ScoreCommand(task.commands[i], if id in byID then Some(byID[id]) else None, input.blocked);
      assert (if id in byID then Some(byID[id]) else None) == LastResult(input.results, id);
      scored := scored + [r];
    }
    forall k | 0 <= k < |scored|
      ensures scored[k].status == Pass <==> !input.blocked && CommandPasses(input.results, task.commands[k].id)
    {
      assert IsScored(task.commands[k], LastResult(input.results, task.commands[k].id), input.blocked, scored[k]);
    }
  }

  /** The checks on files, context and trace, as far as the task has them. */
  method ScoreChecks(task: Task, input: Input, changed: seq<string>) returns (scored: seq<Result>)
    requires Increasing(task.expectedFiles) && Increasing(changed)
    ensures |scored| == CheckCount(task) - |task.commands|
    ensures AllPass(scored) <==>
              !input.blocked && changed == task.expectedFiles && (forall f | f in task.forbiddenFiles :: f !in changed)
              && ContextPasses(task, input) && (forall e | e in task.events :: e in input.events)
  {
    hide Increasing, ContextPasses;
    var r := ScoreChangedFiles(task.expectedFiles, changed, input.blocked);
    scored := [r];
    AllPassSnoc([], r);
    if |task.forbiddenFiles| > 0 {
      r := ScoreForbiddenChangedFiles(task.forbiddenFiles, changed, input.blocked);
      AllPassSnoc(scored, r);
      scored := scored + [r];
    }
    if HasContextChecks(task) {
      r := ScoreContextChecks(task, input);
      AllPassSnoc(scored, r);
      scored := scored + [r];
    } else {
      NoContextPasses(task, input);
    }
    if |task.events| > 0 {
      r := ScoreTraceEvents(task.events, input);
      AllPassSnoc(scored, r);
      scored := scored + [r];
    }
  }

  lemma NoContextPasses(task: Task, input: Input)
    requires !HasContextChecks(task)
    ensures ContextPasses(task, input)
  {
  }

  lemma AllPassSnoc(results: seq<Result>, r: Result)
    ensures AllPass(results + [r]) <==> AllPass(results) && r.status == Pass
  {
    var all := results + [r];
    if AllPass(all) {
      forall i | 0 <= i < |results| ensures results[i].status == Pass {
        assert all[i] == results[i];
      }
      assert all[|results|] == r;
    }
  }

  lemma AllPassJoin(a: seq<Result>, b: seq<Result>)
    ensures AllPass(a + b) <==> AllPass(a) && AllPass(b)
  {
    var all := a + b;
    if AllPass(all) {
      forall i | 0 <= i < |a| ensures a[i].status == Pass {
        assert all[i] == a[i];
      }
      forall i | 0 <= i < |b| ensures b[i].status == Pass {
        assert all[|a| + i] == b[i];
      }
    }
  }

  lemma {:induction false} ReportedHasLast(results: seq<CommandResult>, id: string)
    ensures LastResult(results, id).Some? <==> id != "" && exists i :: 0 <= i < |results| && results[i].id == id
  {
    if results != [] {
      var n := |results| - 1;
      ReportedHasLast(results[..n], id);
      if exists i :: 0 <= i < |results| && results[i].id == id && results[n].id != id {
        var i :| 0 <= i < |results| && results[i].id == id;
        assert results[..n][i].id == id;
      }
    }
  }

  lemma NoUnknown(task: Task, results: seq<CommandResult>, ids: seq<string>)
    requires ListsUnknown(task, results, ids)
    ensures ids == [] <==> forall i | 0 <= i < |results| && results[i].id != "" :: Known(task, results[i].id)
  {
    EmptyMeans(ids);
    forall id ensures LastResult(results, id).Some? <==> id != "" && exists i :: 0 <= i < |results| && results[i].id == id {
      ReportedHasLast(results, id);
    }
    if ids != [] {
      assert ids[0] in ids && Unknown(task, results, ids[0]);
      var i :| 0 <= i < |results| && results[i].id == ids[0];
    } else {
      forall i | 0 <= i < |results| && results[i].id != "" ensures Known(task, results[i].id) {
        assert !Unknown(task, results, results[i].id);
      }
    }
  }

  /** The report on a run: passing exactly when the verdict says so, its counts adding up, with one
      result for each of the task's checks and one for each unknown command. */
  method ScoreRun(clean: string -> string, tasks: seq<Task>, input: Input)
    returns (report: Report, task: Task, ghost ids: seq<string>)
    ensures Normalized(EvalPath(clean), input.changedFiles, report.changedFiles)
    ensures var s := report.summary; s.total == s.passed + s.failed + s.blocked + s.errors == |report.results|
    ensures SelectTask(tasks, input.taskID).None? ==> report.status == Error && !report.ok && report.summary.total == 1
    ensures SelectTask(tasks, input.taskID).Some? ==>
              && NormalizedTask(clean, SelectTask(tasks, input.taskID).value, task)
              && (report.ok <==> Verdict(task, input, report.changedFiles))
              && ListsUnknown(task, input.results, ids)
              && report.summary.total == CheckCount(task) + |ids|
              && ReportsAll(task, input, ids, report.results)
    ensures report.ok <==> report.status == Pass
  {
    hide IsNormalForm, Increasing, LastResult, Known, Tally, EvalPath;
    ids := [];
    var changed := Normalize(EvalPath(clean), input.changedFiles);
    var selected := SelectTask(tasks, input.taskID);
    if selected.None? {
      task := Task("", [], [], [], [], [], []);
      report := FinishSummary([Result("task", Error)], changed);
      OneError(report);
      return;
    }
    task := NormalizeTask(clean, selected.value);
    var results;
    results, ids := CollectResults(task, input, changed);
    report := FinishSummary(results, changed);
  }

  lemma OneError(report: Report)
    requires report.results == [Result("task", Error)]
    requires report.summary.blocked == Tally(report.results, Blocked) && report.summary.errors == Tally(report.results, Error)
    requires report.summary.failed == Tally(report.results, Fail) && report.summary.passed == Tally(report.results, Pass)
    ensures report.summary.blocked == 0 && report.summary.errors == 1 && !AllPass(report.results)
  {
    assert report.results[..0] == [];
  }

  /** The commands come first, in the task's order, and the unknown ones last, in the order of their ids. */
  ghost predicate ReportsAll(task: Task, input: Input, ids: seq<string>, results: seq<Result>) {
    && |results| == CheckCount(task) + |ids|
    && (forall i | 0 <= i < |task.commands| ::
          IsScored(task.commands[i], LastResult(input.results, task.commands[i].id), input.blocked, results[i]))
    && forall i | 0 <= i < |ids| ::
         results[CheckCount(task) + i] == Result("unknown_command." + ids[i], UnknownStatus(LastResult(input.results, ids[i]), input.blocked))
  }

  method CollectResults(task: Task, input: Input, changed: seq<string>) returns (results: seq<Result>, ghost ids: seq<string>)
    requires Increasing(task.expectedFiles) && Increasing(changed)
    ensures ListsUnknown(task, input.results, ids) && |results| == CheckCount(task) + |ids|
    ensures AllPass(results) <==> Verdict(task, input, changed)
    ensures ReportsAll(task, input, ids, results)
  {
    hide Increasing, LastResult, Known, AllPass, ContextPasses, CommandPasses, ListsUnknown, IsScored, UnknownStatus;
    var commands, seen := ScoreCommands(task, input);
    var checks := ScoreChecks(task, input, changed);
    var unknown;
    unknown, ids := UnknownCommandResults(task, input.results, seen, input.blocked);
    results := commands + checks + unknown;
    AllPassJoin(commands, checks);
    AllPassJoin(commands + checks, unknown);
    NoUnknown(task, input.results, ids);
    NonePass(unknown);
  }

  lemma NonePass(results: seq<Result>)
    requires forall i | 0 <= i < |results| :: results[i].status != Pass
    ensures AllPass(results) <==> results == []
  {
    if results != [] {
      assert results[0].status != Pass;
    }
  }
}
