/** Background tasks and the race to kill them. Every locked section of the manager is one step; writing
    a record succeeds or changes nothing; terminating a process happens outside the lock. */
module Manager {
  import opened Text

  datatype Status = Running | Completed | Failed | Killed

  datatype Task = Task(kind: string, pid: int, status: Status, exitCode: int, startedAt: nat, completedAt: Option<nat>)

  /** How far a call of Kill has come. `Terminating` is after its own mark, outside the lock. */
  datatype Phase =
    | Targeting
    | Checking(pid: int)
    | Marking(pid: int)
    | Terminating(pid: int)
    | Restoring(pid: int)
    | Ended(result: Result)

  datatype Result = NotKillable | AlreadyOver | NotMarked | KilledIt | CouldNotKill

  datatype Kill = Kill(task: string, phase: Phase)

  datatype Signal = Signal(kill: nat, task: string, pid: int)

  /** Memory and disk; the calls of Kill in flight; the successful marks and the signals sent, each by
      which call, for which task and process; and the tasks terminated. */
  datatype State = State(
    tasks: map<string, Task>, store: map<string, Task>, kills: map<nat, Kill>,
    marks: set<Signal>, signals: seq<Signal>, terminated: set<string>)

  /** `saved` tells whether writing the record succeeded. */
  datatype Step =
    | Register(id: string, kind: string, pid: int, now: nat, saved: bool)
    | SetPID(id: string, pid: int, saved: bool)
    | MarkExited(id: string, status: Status, exitCode: int, now: nat, saved: bool)
    | StartKill(kill: nat, id: string)
    | Target(kill: nat)
    | Check(kill: nat)
    | Mark(kill: nat, now: nat, saved: bool)
    | Terminate(kill: nat, succeeded: bool)
    | Restore(kill: nat, saved: bool)

  predicate IsIDChar(c: char) { 'a' <= c <= 'z' || 'A' <= c <= 'Z' || '0' <= c <= '9' }

  predicate ValidTaskID(id: string) {
    && 1 <= |id| <= 128 && IsIDChar(id[0])
    && forall i | 0 <= i < |id| :: IsIDChar(id[i]) || id[i] == '_' || id[i] == '-'
  }

  /** Write one record, to disk first, then to memory. */
  function Save(s: State, id: string, task: Task, saved: bool): State {
    if saved then s.(store := s.store[id := task], tasks := s.tasks[id := task]) else s
  }

  function Advance(s: State, kill: nat, phase: Phase): State
    requires kill in s.kills
  {
    s.(kills := s.kills[kill := s.kills[kill].(phase := phase)])
  }

  predicate Exits(status: Status) { status == Completed || status == Failed }

  function Completion(task: Task, now: nat): Option<nat> {
    if task.completedAt.None? then Some(now) else task.completedAt
  }

  predicate Enabled(s: State, step: Step) {
    match step
    case StartKill(k, _) => k !in s.kills
    case Target(k) => k in s.kills && s.kills[k].phase.Targeting?
    case Check(k) => k in s.kills && s.kills[k].phase.Checking?
    case Mark(k, _, _) => k in s.kills && s.kills[k].phase.Marking?
    case Terminate(k, _) => k in s.kills && s.kills[k].phase.Terminating?
    case Restore(k, _) => k in s.kills && s.kills[k].phase.Restoring?
    case _ => true
  }

  function TargetPhase(s: State, id: string): Phase {
    if id !in s.tasks || s.tasks[id].status != Running || s.tasks[id].pid <= 0 then Ended(NotKillable)
    else Checking(s.tasks[id].pid)
  }

  function CheckPhase(s: State, id: string, pid: int): Phase {
    if id in s.tasks && s.tasks[id].status == Running && s.tasks[id].pid == pid then Marking(pid) else Ended(AlreadyOver)
  }

  predicate Markable(s: State, id: string, pid: int) {
    id in s.tasks && s.tasks[id].status == Running && s.tasks[id].pid == pid
  }

  function AsKilled(task: Task, now: nat): Task {
    task.(status := Killed, exitCode := -1, completedAt := Completion(task, now))
  }

  function AsRunning(task: Task): Task { task.(status := Running, exitCode := 0, completedAt := None) }

  function RegisterTask(s: State, id: string, kind: string, pid: int, now: nat, saved: bool): State {
    if !ValidTaskID(id) || kind == "" || pid < 0 || id in s.tasks then s
    else Save(s, id, Task(kind, pid, Running, 0, now, None), saved)
  }

  function ChangePID(s: State, id: string, pid: int, saved: bool): State {
    if pid <= 0 || id !in s.tasks then s else Save(s, id, s.tasks[id].(pid := pid), saved)
  }

  function RecordExit(s: State, id: string, status: Status, exitCode: int, now: nat, saved: bool): State {
    if !Exits(status) || id !in s.tasks || s.tasks[id].status != Running then s
    else Save(s, id, s.tasks[id].(status := status, exitCode := exitCode, completedAt := Completion(s.tasks[id], now)), saved)
  }

  function MarkKilled(s: State, id: string, pid: int, now: nat, saved: bool): State {
    if Markable(s, id, pid) then Save(s, id, AsKilled(s.tasks[id], now), saved) else s
  }

  function RestoreRunning(s: State, id: string, pid: int, saved: bool): State {
    if id in s.tasks && s.tasks[id].status == Killed && s.tasks[id].pid == pid
    then Save(s, id, AsRunning(s.tasks[id]), saved)
    else s
  }

  function Apply(s: State, step: Step): State
    requires Enabled(s, step)
  {
    match step
    case Register(id, kind, pid, now, saved) => RegisterTask(s, id, kind, pid, now, saved)
    case SetPID(id, pid, saved) => ChangePID(s, id, pid, saved)
    case MarkExited(id, status, code, now, saved) => RecordExit(s, id, status, code, now, saved)
    case StartKill(k, id) => s.(kills := s.kills[k := Kill(id, Targeting)])
    case Target(k) => Advance(s, k, TargetPhase(s, s.kills[k].task))
    case Check(k) => Advance(s, k, CheckPhase(s, s.kills[k].task, s.kills[k].phase.pid))
    case Mark(k, now, saved) =>
      var c := s.kills[k];
      if Markable(s, c.task, c.phase.pid) && saved then
        Advance(MarkKilled(s, c.task, c.phase.pid, now, saved), k, Terminating(c.phase.pid)).(
          marks := s.marks + {Signal(k, c.task, c.phase.pid)})
      else Advance(MarkKilled(s, c.task, c.phase.pid, now, saved), k, Ended(NotMarked))
    case Terminate(k, succeeded) =>
      var c := s.kills[k];
      var signalled := s.(signals := s.signals + [Signal(k, c.task, c.phase.pid)],
                          terminated := if succeeded then s.terminated + {c.task} else s.terminated);
      Advance(signalled, k, if succeeded then Ended(KilledIt) else Restoring(c.phase.pid))
    case Restore(k, saved) =>
      var c := s.kills[k];
      Advance(RestoreRunning(s, c.task, c.phase.pid, saved), k, Ended(CouldNotKill))
  }

  /** A manager opened on `records`, then any interleaving; a step that is not enabled does not happen. */
  function After(records: map<string, Task>, steps: seq<Step>): State {
    if steps == [] then State(records, records, map[], {}, [], {})
    else
      var s, step := After(records, steps[..|steps| - 1]), steps[|steps| - 1];
      if Enabled(s, step) then Apply(s, step) else s
  }

  // ---------------------------------------------------------------------------------------------
  // What every step keeps
  // ---------------------------------------------------------------------------------------------

  predicate Consistent(task: Task) { task.completedAt.None? <==> task.status == Running }

  ghost predicate RecordsConsistent(records: map<string, Task>) {
    forall id | id in records :: Consistent(records[id])
  }

  /** Call `k` has marked task `id` and is not done with it. */
  predicate Holds(s: State, k: nat, id: string) {
    k in s.kills && s.kills[k].task == id && (s.kills[k].phase.Terminating? || s.kills[k].phase.Restoring?)
  }

  predicate IsKilled(s: State, id: string) { id in s.tasks && s.tasks[id].status == Killed }

  ghost predicate TaskInv(s: State, id: string) {
    && (id in s.tasks ==> Consistent(s.tasks[id]))
    && (forall k | Holds(s, k, id) :: IsKilled(s, id) && id !in s.terminated)
    && (forall k, l | Holds(s, k, id) && Holds(s, l, id) :: k == l)
    && (id in s.terminated ==> IsKilled(s, id))
  }

  ghost predicate Inv(s: State) { s.tasks == s.store && forall id :: TaskInv(s, id) }

  lemma SaveKeeps(s: State, id: string, task: Task, saved: bool, other: string)
    requires TaskInv(s, other) && TaskInv(s, id) && Consistent(task)
    requires IsKilled(s, id) ==> task.status == Killed
    ensures TaskInv(Save(s, id, task, saved), other)
  {
    var t := Save(s, id, task, saved);
    forall k | Holds(t, k, other) ensures IsKilled(t, other) && other !in t.terminated {
      assert Holds(s, k, other);
    }
    forall k, l | Holds(t, k, other) && Holds(t, l, other) ensures k == l {
      assert Holds(s, k, other) && Holds(s, l, other);
    }
  }

  lemma TaskStepKeeps(s: State, step: Step, id: string)
    requires Inv(s) && (step.Register? || step.SetPID? || step.MarkExited?)
    ensures TaskInv(Apply(s, step), id)
  {
    hide ValidTaskID;
    assert TaskInv(s, id) && TaskInv(s, step.id);
    match step
    case Register(i, kind, pid, now, saved) =>
      if i !in s.tasks {
        SaveKeeps(s, i, Task(kind, pid, Running, 0, now, None), saved, id);
      }
    case SetPID(i, pid, saved) =>
      if i in s.tasks {
        SaveKeeps(s, i, s.tasks[i].(pid := pid), saved, id);
      }
    case MarkExited(i, status, code, now, saved) =>
      if i in s.tasks && s.tasks[i].status == Running && Exits(status) {
        SaveKeeps(s, i, s.tasks[i].(status := status, exitCode := code, completedAt := Completion(s.tasks[i], now)), saved, id);
      }
  }

  /** Moving a call to a phase in which it holds nothing keeps everything. */
  lemma AdvanceKeeps(s: State, k: nat, phase: Phase, id: string)
    requires k in s.kills && TaskInv(s, id)
    requires (phase.Terminating? || phase.Restoring?) ==> Holds(s, k, s.kills[k].task)
    ensures TaskInv(Advance(s, k, phase), id)
  {
    var t := Advance(s, k, phase);
    forall l | Holds(t, l, id) ensures Holds(s, l, id) {
    }
  }

  lemma LookStepKeeps(s: State, step: Step, id: string)
    requires Inv(s) && Enabled(s, step) && (step.StartKill? || step.Target? || step.Check?)
    ensures TaskInv(Apply(s, step), id)
  {
    assert TaskInv(s, id);
    match step
    case StartKill(k, i) =>
      var t := Apply(s, step);
      forall l | Holds(t, l, id) ensures Holds(s, l, id) {
      }
    case Target(k) => AdvanceKeeps(s, k, TargetPhase(s, s.kills[k].task), id);
    case Check(k) => AdvanceKeeps(s, k, CheckPhase(s, s.kills[k].task, s.kills[k].phase.pid), id);
  }

  lemma MarkKeeps(s: State, k: nat, now: nat, saved: bool, id: string)
    requires Inv(s) && Enabled(s, Mark(k, now, saved))
    ensures TaskInv(Apply(s, Mark(k, now, saved)), id)
  {
    var c := s.kills[k];
    assert TaskInv(s, id) && TaskInv(s, c.task);
    var t := Apply(s, Mark(k, now, saved));
    if Markable(s, c.task, c.phase.pid) && saved {
      SaveKeeps(s, c.task, AsKilled(s.tasks[c.task], now), saved, id);
      forall l | Holds(t, l, id) ensures if id == c.task then l == k else Holds(s, l, id) {
        assert l != k ==> Holds(s, l, id);
      }
    } else {
      AdvanceKeeps(s, k, Ended(NotMarked), id);
    }
  }

  lemma TerminateKeeps(s: State, k: nat, succeeded: bool, id: string)
    requires Inv(s) && Enabled(s, Terminate(k, succeeded))
    ensures TaskInv(Apply(s, Terminate(k, succeeded)), id)
  {
    var c := s.kills[k];
    assert TaskInv(s, id) && TaskInv(s, c.task);
    assert Holds(s, k, c.task);
    var t := Apply(s, Terminate(k, succeeded));
    forall l | Holds(t, l, id) ensures Holds(s, l, id) && (succeeded ==> l != k) {
    }
  }

  lemma RestoreKeeps(s: State, k: nat, saved: bool, id: string)
    requires Inv(s) && Enabled(s, Restore(k, saved))
    ensures TaskInv(Apply(s, Restore(k, saved)), id)
  {
    var c := s.kills[k];
    assert TaskInv(s, id) && TaskInv(s, c.task);
    assert Holds(s, k, c.task);
    var t := Apply(s, Restore(k, saved));
    forall l | Holds(t, l, id) ensures Holds(s, l, id) && id != c.task {
      assert Holds(s, l, id) && l != k;
    }
  }

  lemma StoreKept(s: State, step: Step)
    requires s.tasks == s.store && Enabled(s, step)
    ensures Apply(s, step).tasks == Apply(s, step).store
  {
    hide ValidTaskID;
  }

  lemma StepKeeps(s: State, step: Step)
    requires Inv(s) && Enabled(s, step)
    ensures Inv(Apply(s, step))
  {
    hide Apply, TaskInv;
    StoreKept(s, step);
    forall id ensures TaskInv(Apply(s, step), id) {
      match step
      case Mark(k, now, saved) => MarkKeeps(s, k, now, saved, id);
      case Terminate(k, succeeded) => TerminateKeeps(s, k, succeeded, id);
      case Restore(k, saved) => RestoreKeeps(s, k, saved, id);
      case StartKill(_, _) => LookStepKeeps(s, step, id);
      case Target(_) => LookStepKeeps(s, step, id);
      case Check(_) => LookStepKeeps(s, step, id);
      case _ => TaskStepKeeps(s, step, id);
    }
  }

  lemma {:induction false} InvHolds(records: map<string, Task>, steps: seq<Step>)
    requires RecordsConsistent(records)
    ensures Inv(After(records, steps))
  {
    hide Apply, Enabled, TaskInv;
    if steps == [] {
      forall id ensures TaskInv(After(records, []), id) {
        OpenedConsistent(records, id);
      }
    } else {
      var s, step := After(records, steps[..|steps| - 1]), steps[|steps| - 1];
      InvHolds(records, steps[..|steps| - 1]);
      if Enabled(s, step) {
        StepKeeps(s, step);
      }
    }
  }

  lemma OpenedConsistent(records: map<string, Task>, id: string)
    requires RecordsConsistent(records)
    ensures TaskInv(State(records, records, map[], {}, [], {}), id)
  {
  }

  ghost predicate SignalInv(s: State) {
    && (forall k | k in s.kills :: KillFits(s, k))
    && (forall i | 0 <= i < |s.signals| :: s.signals[i] in s.marks && Signalled(s, s.signals[i]))
    && (forall i, j | 0 <= i < j < |s.signals| && s.signals[i].task == s.signals[j].task :: GaveUp(s, s.signals[i]))
    && (forall i, j | 0 <= i < j < |s.signals| :: s.signals[i].kill != s.signals[j].kill)
  }

  predicate KillFits(s: State, k: nat)
    requires k in s.kills
  {
    && (s.kills[k].phase.Terminating? ==> Signal(k, s.kills[k].task, s.kills[k].phase.pid) in s.marks)
    && (s.kills[k].phase == Ended(KilledIt) ==> s.kills[k].task in s.terminated)
  }

  predicate Signalled(s: State, g: Signal) {
    && g.kill in s.kills && s.kills[g.kill].task == g.task
    && (s.kills[g.kill].phase.Restoring? || s.kills[g.kill].phase == Ended(KilledIt) || s.kills[g.kill].phase == Ended(CouldNotKill))
  }

  /** The call's termination failed and it is over, its mark undone as far as the disk allowed. */
  predicate GaveUp(s: State, g: Signal) { g.kill in s.kills && s.kills[g.kill].phase == Ended(CouldNotKill) }

  lemma KillKept(s: State, step: Step, k: nat)
    requires Enabled(s, step) && !step.Terminate? && k in Apply(s, step).kills && (k in s.kills ==> KillFits(s, k))
    ensures KillFits(Apply(s, step), k)
  {
    hide ValidTaskID;
  }

  lemma SignalledKept(s: State, step: Step, g: Signal)
    requires Enabled(s, step) && !step.Terminate? && Signalled(s, g)
    ensures Signalled(Apply(s, step), g) && (GaveUp(s, g) ==> GaveUp(Apply(s, step), g))
  {
    hide ValidTaskID;
  }

  lemma LogsKept(s: State, step: Step)
    requires Enabled(s, step) && !step.Terminate?
    ensures Apply(s, step).signals == s.signals && s.marks <= Apply(s, step).marks
  {
    hide ValidTaskID;
  }

  lemma SignalStep(s: State, step: Step)
    requires SignalInv(s) && Enabled(s, step) && !step.Terminate?
    ensures SignalInv(Apply(s, step))
  {
    hide Apply, Enabled, KillFits, Signalled, GaveUp;
    var t := Apply(s, step);
    LogsKept(s, step);
    forall k | k in t.kills ensures KillFits(t, k) {
      KillKept(s, step, k);
    }
    forall i | 0 <= i < |s.signals| ensures Signalled(t, s.signals[i]) && (GaveUp(s, s.signals[i]) ==> GaveUp(t, s.signals[i])) {
      SignalledKept(s, step, s.signals[i]);
    }
  }

  lemma TerminateSignals(s: State, k: nat, succeeded: bool)
    requires Inv(s) && SignalInv(s) && Enabled(s, Terminate(k, succeeded))
    ensures SignalInv(Apply(s, Terminate(k, succeeded)))
  {
    var t, id := Apply(s, Terminate(k, succeeded)), s.kills[k].task;
    assert TaskInv(s, id) && Holds(s, k, id) && KillFits(s, k);
    forall l | l in t.kills ensures KillFits(t, l) {
      assert KillFits(s, l);
    }
    forall i | 0 <= i < |s.signals| && s.signals[i].task == id ensures GaveUp(s, s.signals[i]) {
      assert Signalled(s, s.signals[i]);
      if s.kills[s.signals[i].kill].phase.Restoring? {
        assert Holds(s, s.signals[i].kill, id);
        assert false;
      }
    }
    forall i | 0 <= i < |t.signals| ensures t.signals[i] in t.marks && Signalled(t, t.signals[i]) {
      assert i < |s.signals| ==> Signalled(s, s.signals[i]);
    }
    forall i, j | 0 <= i < j < |t.signals| && t.signals[i].task == t.signals[j].task ensures GaveUp(t, t.signals[i]) {
      assert j < |s.signals| ==> GaveUp(s, s.signals[i]);
    }
  }

  lemma {:induction false} SignalInvHolds(records: map<string, Task>, steps: seq<Step>)
    requires RecordsConsistent(records)
    ensures SignalInv(After(records, steps))
  {
    hide Apply, Enabled, TaskInv;
    if steps != [] {
      var s, step := After(records, steps[..|steps| - 1]), steps[|steps| - 1];
      InvHolds(records, steps[..|steps| - 1]);
      SignalInvHolds(records, steps[..|steps| - 1]);
      if Enabled(s, step) {
        if step.Terminate? {
          TerminateSignals(s, step.kill, step.succeeded);
        } else {
          SignalStep(s, step);
        }
      }
    }
  }

  // ---------------------------------------------------------------------------------------------
  // The race
  // ---------------------------------------------------------------------------------------------

  /** At all times, saves failing or not: memory is what disk says, and a completion time is set
      exactly on the tasks that are not running. */
  lemma RecordsAgree(records: map<string, Task>, steps: seq<Step>, id: string)
    requires RecordsConsistent(records)
    ensures var s := After(records, steps);
            && s.tasks == s.store
            && (id in s.tasks ==> (s.tasks[id].completedAt.None? <==> s.tasks[id].status == Running))
  {
    InvHolds(records, steps);
    assert TaskInv(After(records, steps), id);
  }

  /** A call about to signal made the mark itself, nobody else is between mark and outcome, and the
      task reads killed; so two calls never signal the same run of a task. */
  lemma OnlyTheMarkerSignals(records: map<string, Task>, steps: seq<Step>, k: nat, l: nat)
    requires RecordsConsistent(records)
    requires var s := After(records, steps);
             k in s.kills && l in s.kills && s.kills[k].task == s.kills[l].task
             && s.kills[k].phase.Terminating? && (s.kills[l].phase.Terminating? || s.kills[l].phase.Restoring?)
    ensures var s := After(records, steps);
            k == l && IsKilled(s, s.kills[k].task) && s.kills[k].task !in s.terminated
  {
    InvHolds(records, steps);
    var s := After(records, steps);
    assert TaskInv(s, s.kills[k].task) && Holds(s, k, s.kills[k].task) && Holds(s, l, s.kills[k].task);
  }

  /** Over any interleaving: every signal went to the process that the same call had itself marked, no
      call signals twice, and of two signals for one task the earlier call had failed and was over. */
  lemma SignalsAreMarkedAndApart(records: map<string, Task>, steps: seq<Step>, i: nat, j: nat)
    requires RecordsConsistent(records) && i < j < |After(records, steps).signals|
    ensures var s := After(records, steps);
            && s.signals[i] in s.marks && s.signals[j] in s.marks && s.signals[i].kill != s.signals[j].kill
            && (s.signals[i].task == s.signals[j].task ==> GaveUp(s, s.signals[i]))
  {
    SignalInvHolds(records, steps);
  }

  /** The step before `Terminating` is the call's own successful mark, of that very process. */
  lemma MarkedItself(s: State, step: Step, k: nat)
    requires Enabled(s, step) && k in Apply(s, step).kills && Apply(s, step).kills[k].phase.Terminating?
    requires k in s.kills ==> !s.kills[k].phase.Terminating?
    ensures step.Mark? && step.kill == k && step.saved && k in s.kills
    ensures var id, pid := s.kills[k].task, Apply(s, step).kills[k].phase.pid;
            Markable(s, id, pid) && IsKilled(Apply(s, step), id)
  {
    hide ValidTaskID;
  }

  /** A task whose termination succeeded reads killed from then on, whatever happens. */
  lemma {:induction false} TerminatedStaysKilled(records: map<string, Task>, steps: seq<Step>, more: seq<Step>, id: string)
    requires RecordsConsistent(records) && id in After(records, steps).terminated
    ensures IsKilled(After(records, steps + more), id) && id in After(records, steps + more).terminated
    decreases |more|
  {
    hide Apply, Enabled;
    var all := steps + more;
    InvHolds(records, all);
    assert TaskInv(After(records, all), id);
    if more == [] {
      assert all == steps;
    } else {
      assert all[..|all| - 1] == steps + more[..|more| - 1];
      TerminatedStaysKilled(records, steps, more[..|more| - 1], id);
      TerminatedGrows(After(records, all[..|all| - 1]), all[|all| - 1], id);
    }
  }

  lemma TerminatedGrows(s: State, step: Step, id: string)
    requires id in s.terminated
    ensures Enabled(s, step) ==> id in Apply(s, step).terminated
  {
    hide ValidTaskID;
  }

  // ---- what each call comes to ----

  lemma AfterStep(records: map<string, Task>, steps: seq<Step>, step: Step)
    requires Enabled(After(records, steps), step)
    ensures After(records, steps + [step]) == Apply(After(records, steps), step)
  {
    assert (steps + [step])[..|steps|] == steps;
  }

  /** A registration that is in order and can be saved adds exactly that task, running; any other changes nothing. */
  lemma RegistrationTakes(records: map<string, Task>, steps: seq<Step>, id: string, kind: string, pid: int, now: nat, saved: bool)
    ensures var s, t := After(records, steps), After(records, steps + [Step.Register(id, kind, pid, now, saved)]);
            && t.kills == s.kills && t.signals == s.signals
            && if ValidTaskID(id) && kind != "" && pid >= 0 && id !in s.tasks && saved
               then t.tasks == s.tasks[id := Task(kind, pid, Running, 0, now, None)]
               else t.tasks == s.tasks
  {
    hide ValidTaskID;
    AfterStep(records, steps, Step.Register(id, kind, pid, now, saved));
  }

  /** The exit of a running task is recorded as it was reported, once; any other report changes nothing. */
  lemma ExitIsRecorded(records: map<string, Task>, steps: seq<Step>, id: string, status: Status, exitCode: int, now: nat, saved: bool)
    requires RecordsConsistent(records)
    ensures var s, t := After(records, steps), After(records, steps + [Step.MarkExited(id, status, exitCode, now, saved)]);
            if id in s.tasks && s.tasks[id].status == Running && (status == Completed || status == Failed) && saved
            then t.tasks == s.tasks[id := s.tasks[id].(status := status, exitCode := exitCode, completedAt := Some(now))]
            else t.tasks == s.tasks
  {
    InvHolds(records, steps);
    assert TaskInv(After(records, steps), id);
    AfterStep(records, steps, Step.MarkExited(id, status, exitCode, now, saved));
  }

  /** A new pid is recorded for a known task; nothing else about it changes. */
  lemma PidIsRecorded(records: map<string, Task>, steps: seq<Step>, id: string, pid: int, saved: bool)
    ensures var s, t := After(records, steps), After(records, steps + [Step.SetPID(id, pid, saved)]);
            if id in s.tasks && pid > 0 && saved then t.tasks == s.tasks[id := s.tasks[id].(pid := pid)] else t.tasks == s.tasks
  {
    AfterStep(records, steps, Step.SetPID(id, pid, saved));
  }

  /** The steps of a call of Kill up to its signal. */
  function KillSteps(k: nat, id: string, now: nat): seq<Step> { [StartKill(k, id), Target(k), Check(k), Mark(k, now, true)] }

  lemma KillMarks(records: map<string, Task>, steps: seq<Step>, k: nat, id: string, now: nat)
    requires var s := After(records, steps); k !in s.kills && id in s.tasks && s.tasks[id].status == Running && s.tasks[id].pid > 0
    requires RecordsConsistent(records)
    ensures var s, t := After(records, steps), After(records, steps + KillSteps(k, id, now));
            && k in t.kills && t.kills[k] == Kill(id, Terminating(s.tasks[id].pid)) && t.signals == s.signals && t.terminated == s.terminated
            && t.tasks == s.tasks[id := s.tasks[id].(status := Killed, exitCode := -1, completedAt := Some(now))]
  {
    hide After, Apply, Enabled;
    var s := After(records, steps);
    var a := steps + [StartKill(k, id)];
    var b := a + [Target(k)];
    var c := b + [Check(k)];
    assert steps + KillSteps(k, id, now) == c + [Mark(k, now, true)];
    RunningHasNoEnd(records, steps, id);
    KillLooks(s, k, id);
    AfterStep(records, steps, StartKill(k, id));
    AfterStep(records, a, Target(k));
    AfterStep(records, b, Check(k));
    MarkMarks(After(records, c), k, id, now);
    AfterStep(records, c, Mark(k, now, true));
  }

  lemma RunningHasNoEnd(records: map<string, Task>, steps: seq<Step>, id: string)
    requires RecordsConsistent(records)
    ensures var s := After(records, steps); id in s.tasks && s.tasks[id].status == Running ==> s.tasks[id].completedAt.None?
  {
    InvHolds(records, steps);
    assert TaskInv(After(records, steps), id);
  }

  lemma KillLooks(s: State, k: nat, id: string)
    requires k !in s.kills && id in s.tasks && s.tasks[id].status == Running && s.tasks[id].pid > 0
    ensures Enabled(s, StartKill(k, id)) && Enabled(Apply(s, StartKill(k, id)), Target(k))
    ensures var t := Apply(Apply(s, StartKill(k, id)), Target(k));
            Enabled(t, Check(k)) && Apply(t, Check(k)) == s.(kills := s.kills[k := Kill(id, Marking(s.tasks[id].pid))])
  {
    var t := Apply(Apply(s, StartKill(k, id)), Target(k));
    assert t.kills == s.kills[k := Kill(id, Checking(s.tasks[id].pid))];
    assert Apply(t, Check(k)).kills == s.kills[k := Kill(id, Marking(s.tasks[id].pid))];
  }

  lemma MarkMarks(s: State, k: nat, id: string, now: nat)
    requires id in s.tasks && s.tasks[id].status == Running && s.tasks[id].completedAt.None?
    requires k in s.kills && s.kills[k] == Kill(id, Marking(s.tasks[id].pid))
    ensures Enabled(s, Mark(k, now, true))
    ensures var t := Apply(s, Mark(k, now, true));
            && k in t.kills && t.kills[k] == Kill(id, Terminating(s.tasks[id].pid)) && t.signals == s.signals && t.terminated == s.terminated
            && t.tasks == s.tasks[id := s.tasks[id].(status := Killed, exitCode := -1, completedAt := Some(now))]
  {
  }

  /** Left alone, a call of Kill on a running task signals exactly its process, and if that ends it the task reads killed,
      with its end and the killed exit code. */
  lemma KillWorks(records: map<string, Task>, steps: seq<Step>, k: nat, id: string, now: nat)
    requires var s := After(records, steps); k !in s.kills && id in s.tasks && s.tasks[id].status == Running && s.tasks[id].pid > 0
    requires RecordsConsistent(records)
    ensures var s, t := After(records, steps), After(records, steps + KillSteps(k, id, now) + [Terminate(k, true)]);
            && k in t.kills && t.kills[k].phase == Ended(KilledIt) && id in t.terminated
            && t.signals == s.signals + [Signal(k, id, s.tasks[id].pid)]
            && t.tasks == s.tasks[id := s.tasks[id].(status := Killed, exitCode := -1, completedAt := Some(now))]
  {
    hide KillSteps;
    KillMarks(records, steps, k, id, now);
    AfterStep(records, steps + KillSteps(k, id, now), Terminate(k, true));
  }

  /** If the process cannot be ended the task is running again, as it was. */
  lemma FailedKillIsUndone(records: map<string, Task>, steps: seq<Step>, k: nat, id: string, now: nat)
    requires var s := After(records, steps); k !in s.kills && id in s.tasks && s.tasks[id].status == Running && s.tasks[id].pid > 0
    requires RecordsConsistent(records)
    ensures var s, t := After(records, steps), After(records, steps + KillSteps(k, id, now) + [Terminate(k, false)] + [Restore(k, true)]);
            && k in t.kills && t.kills[k].phase == Ended(CouldNotKill) && t.terminated == s.terminated
            && t.tasks == s.tasks[id := s.tasks[id].(exitCode := 0)]
  {
    hide After, KillSteps;
    var marked := steps + KillSteps(k, id, now);
    KillMarks(records, steps, k, id, now);
    RunningHasNoEnd(records, steps, id);
    AfterStep(records, marked, Terminate(k, false));
    AfterStep(records, marked + [Terminate(k, false)], Restore(k, true));
    var s := After(records, steps);
    var killed := s.tasks[id].(status := Killed, exitCode := -1, completedAt := Some(now));
    assert s.tasks[id := killed][id := AsRunning(killed)] == s.tasks[id := s.tasks[id].(exitCode := 0)];
  }

  // ---- over until a failed kill is undone ----

  predicate IsOver(s: State, id: string) { id in s.tasks && s.tasks[id].status != Running }

  /** A call whose termination failed undoes its mark. */
  predicate Revives(s: State, step: Step, id: string) {
    && step.Restore? && Enabled(s, step) && step.saved && s.kills[step.kill].task == id
    && IsKilled(s, id) && s.tasks[id].pid == s.kills[step.kill].phase.pid
  }

  /** The same record, but for the process number. */
  predicate SameEnd(task: Task, s: State, id: string) {
    id in s.tasks && s.tasks[id] == task.(pid := s.tasks[id].pid)
  }

  lemma EndStep(s: State, step: Step, id: string, task: Task)
    requires SameEnd(task, s, id) && task.status != Running
    ensures SameEnd(task, if Enabled(s, step) then Apply(s, step) else s, id) <==> !Revives(s, step, id)
  {
    hide ValidTaskID;
  }

  /** At every point of the first `n` steps that follow. */
  ghost predicate KeepsEnd(records: map<string, Task>, steps: seq<Step>, more: seq<Step>, n: nat, id: string, task: Task)
    requires n <= |more|
  {
    forall m | 0 <= m <= n :: SameEnd(task, After(records, steps + more[..m]), id)
  }

  ghost predicate NoneRevives(records: map<string, Task>, steps: seq<Step>, more: seq<Step>, n: nat, id: string)
    requires n <= |more|
  {
    forall i | 0 <= i < n :: !Revives(After(records, steps + more[..i]), more[i], id)
  }

  lemma OneStepOn(records: map<string, Task>, steps: seq<Step>, more: seq<Step>, n: nat)
    requires n < |more|
    ensures var s := After(records, steps + more[..n]);
            After(records, steps + more[..n + 1]) == if Enabled(s, more[n]) then Apply(s, more[n]) else s
  {
    var all := steps + more[..n + 1];
    assert all[..|all| - 1] == steps + more[..n];
  }

  /** Whatever happens after a task completed, failed or was killed, its status, exit code and completion
      time stay as they are, late exits and further kills included, if and only if no call undoes its mark. */
  lemma {:induction false} OverUntilRevivedIff(records: map<string, Task>, steps: seq<Step>, more: seq<Step>, n: nat, id: string)
    requires IsOver(After(records, steps), id) && n <= |more|
    ensures KeepsEnd(records, steps, more, n, id, After(records, steps).tasks[id]) <==> NoneRevives(records, steps, more, n, id)
  {
    hide Revives, SameEnd, Apply, Enabled, After;
    var task := After(records, steps).tasks[id];
    if n == 0 {
      assert steps + more[..0] == steps;
      SameAsItself(After(records, steps), id);
    } else {
      OverUntilRevivedIff(records, steps, more, n - 1, id);
      OneStepOn(records, steps, more, n - 1);
      var s := After(records, steps + more[..n - 1]);
      if SameEnd(task, s, id) {
        EndStep(s, more[n - 1], id, task);
      }
    }
  }

  lemma SameAsItself(s: State, id: string)
    requires id in s.tasks
    ensures SameEnd(s.tasks[id], s, id)
  {
  }

  // ---------------------------------------------------------------------------------------------
  // The code
  // ---------------------------------------------------------------------------------------------

  class Tasks {
    var tasks: map<string, Task>
    var store: map<string, Task>
    /** The output files that exist. */
    var outputs: set<string>

    constructor (records: map<string, Task>, files: set<string>)
      ensures tasks == store == records && outputs == files
    {
      tasks, store, outputs := records, records, files;
    }

    ghost predicate Shows(s: State)
      reads this
    {
      tasks == s.tasks && store == s.store
    }

    /** Write a record to disk; `saved` says whether the disk took it. */
    method Persist(id: string, task: Task, saved: bool)
      modifies this`store
      ensures store == if saved then old(store)[id := task] else old(store)
    {
      if saved {
        store := store[id := task];
      }
    }

    /** `creatable` says whether the disk lets the output file be made; one that exists is never reused. */
    method Register(taskID: string, taskType: string, pid: int, outputFile: string, creatable: bool, now: nat, saved: bool,
                    ghost s: State) returns (ok: bool)
      requires Shows(s)
      modifies this
      ensures Shows(if creatable && outputFile !in old(outputs)
                    then RegisterTask(s, TrimSpace(taskID), TrimSpace(taskType), pid, now, saved) else s)
      ensures ok ==> TrimSpace(taskID) !in old(tasks) && TrimSpace(taskID) in tasks && tasks[TrimSpace(taskID)].status == Running
      ensures ok ==> outputFile !in old(outputs) && outputs == old(outputs) + {outputFile}
      ensures !ok ==> tasks == old(tasks) && store == old(store) && outputs == old(outputs)
    {
      hide TrimSpace, ValidTaskID;
      var id, kind := TrimSpace(taskID), TrimSpace(taskType);
      if !ValidTaskID(id) || kind == "" || pid < 0 || id in tasks {
        return false;
      }
      if outputFile in outputs || !creatable {
        return false;
      }
      outputs := outputs + {outputFile};
      var task := Task(kind, pid, Running, 0, now, None);
      tasks := tasks[id := task];
      Persist(id, task, saved);
      if !saved {
        tasks := tasks - {id};
        outputs := outputs - {outputFile};
      }
      ok := saved;
    }

    method SetPID(taskID: string, pid: int, saved: bool, ghost s: State)
      requires Shows(s)
      modifies this
      ensures Shows(ChangePID(s, TrimSpace(taskID), pid, saved))
    {
      var id := TrimSpace(taskID);
      if pid <= 0 || id !in tasks {
        return;
      }
      var task := tasks[id].(pid := pid);
      Persist(id, task, saved);
      if saved {
        tasks := tasks[id := task];
      }
    }

    method MarkExited(taskID: string, status: Status, exitCode: int, now: nat, saved: bool, ghost s: State)
      requires Shows(s)
      modifies this
      ensures Shows(RecordExit(s, TrimSpace(taskID), status, exitCode, now, saved))
    {
      var id := TrimSpace(taskID);
      if !Exits(status) || id !in tasks || tasks[id].status != Running {
        return;
      }
      var task := tasks[id].(status := status, exitCode := exitCode);
      if task.completedAt.None? {
        task := task.(completedAt := Some(now));
      }
      Persist(id, task, saved);
      if saved {
        tasks := tasks[id := task];
      }
    }

    method KillTarget(id: string, ghost s: State) returns (pid: Option<int>)
      requires Shows(s)
      ensures TargetPhase(s, id) == if pid.Some? then Checking(pid.value) else Ended(NotKillable)
    {
      if id !in tasks || tasks[id].status != Running || tasks[id].pid <= 0 {
        return None;
      }
      pid := Some(tasks[id].pid);
    }

    method IsRunningPID(id: string, pid: int, ghost s: State) returns (running: bool)
      requires Shows(s)
      ensures CheckPhase(s, id, pid) == if running then Marking(pid) else Ended(AlreadyOver)
    {
      running := id in tasks && tasks[id].status == Running && tasks[id].pid == pid;
    }

    method MarkKilledIfStillRunning(id: string, pid: int, now: nat, saved: bool, ghost s: State) returns (marked: bool)
      requires Shows(s)
      modifies this
      ensures Shows(MarkKilled(s, id, pid, now, saved)) && marked == (Markable(s, id, pid) && saved)
    {
      if id !in tasks || tasks[id].status != Running || tasks[id].pid != pid {
        return false;
      }
      var task := tasks[id].(status := Killed, exitCode := -1);
      if task.completedAt.None? {
        task := task.(completedAt := Some(now));
      }
      Persist(id, task, saved);
      if saved {
        tasks := tasks[id := task];
      }
      marked := saved;
    }

    method RestoreRunningAfterFailedKill(id: string, pid: int, saved: bool, ghost s: State)
      requires Shows(s)
      modifies this
      ensures Shows(RestoreRunning(s, id, pid, saved))
    {
      if id !in tasks || tasks[id].status != Killed || tasks[id].pid != pid {
        return;
      }
      var task := tasks[id].(status := Running, exitCode := 0, completedAt := None);
      Persist(id, task, saved);
      if saved {
        tasks := tasks[id := task];
      }
    }
  }
}
