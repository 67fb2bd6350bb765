/** Background diagnostics: one caller enqueues edited files and drains results, one worker checks
    files, and every locked section of either is one step. The clock orders enqueues and check starts. */
module Diagnostics {
  import opened Text

  /** The worker goroutine: gone, between files, or outside the lock with a file in hand. */
  datatype Worker = Absent | Ready | Checking(path: string, since: nat)

  /** A finished check: when it started and the block it returned. */
  datatype Check = Check(start: nat, block: string)

  /** What the caller does: nothing, or wait for the channel it found (None when there was none). */
  datatype Caller = Free | Draining(busy: Option<nat>)

  /** The shared fields; the two goroutines; and what happened: times of last enqueues, last finished
      checks, and the start times of the blocks last delivered. */
  datatype State = State(
    queue: seq<string>, queued: set<string>, results: map<string, string>, working: Option<nat>,
    worker: Worker, caller: Caller, channels: nat, closed: set<nat>, cancelled: bool,
    clock: nat, enqueuedAt: map<string, nat>, checked: map<string, Check>, delivered: map<string, nat>)

  const INITIAL := State([], {}, map[], None, Absent, Free, 0, {}, false, 0, map[], map[], map[])

  datatype Step =
    | Enqueue(files: seq<string>)
    | Take
    | Finish(block: string)
    | Leave
    | Close(channel: nat)
    | BeginDrain
    | GiveUp
    | Collect
    | Cancel

  predicate Enabled(s: State, step: Step) {
    match step
    case Enqueue(_) => s.caller.Free?
    case Take => s.worker.Ready? && s.queue != [] && !s.cancelled
    case Finish(_) => s.worker.Checking?
    case Leave => s.worker.Ready? && (s.queue == [] || s.cancelled)
    case Close(c) => c < s.channels && s.working != Some(c)
    case BeginDrain => s.caller.Free?
    case GiveUp => s.caller.Draining? && s.caller.busy.Some?
    case Collect => s.caller.Draining? && (s.caller.busy.Some? ==> s.caller.busy.value in s.closed)
    case Cancel => true
  }

  function EnqueueOne(s: State, path: string): State {
    var t := s.(clock := s.clock + 1, enqueuedAt := s.enqueuedAt[path := s.clock + 1]);
    if path in s.queued then t
    else t.(queued := s.queued + {path}, results := s.results - {path}, queue := s.queue + [path])
  }

  function EnqueueAll(s: State, files: seq<string>): State {
    if files == [] then s else EnqueueOne(EnqueueAll(s, files[..|files| - 1]), files[|files| - 1])
  }

  function StartWorker(s: State): State {
    if s.working.None? && s.queue != [] then
      s.(working := Some(s.channels), worker := Ready, channels := s.channels + 1)
    else s
  }

  function FinishCheck(s: State, block: string): State
    requires s.worker.Checking?
  {
    var path := s.worker.path;
    s.(results := if block != "" then s.results[path := block] else s.results - {path},
       checked := s.checked[path := Check(s.worker.since, block)], worker := Ready)
  }

  /** Deliver every finished block. */
  function Deliver(s: State): State {
    s.(results := map[], caller := Free,
       delivered := map p | p in s.delivered.Keys + s.results.Keys ::
                      if p in s.results then (if p in s.checked then s.checked[p].start else 0) else s.delivered[p])
  }

  function Apply(s: State, step: Step): State
    requires Enabled(s, step)
  {
    match step
    case Enqueue(files) => if files == [] then s else StartWorker(EnqueueAll(s, files))
    case Take =>
      s.(queue := s.queue[1..], queued := s.queued - {s.queue[0]}, clock := s.clock + 1,
         worker := Checking(s.queue[0], s.clock + 1))
    case Finish(block) => FinishCheck(s, block)
    case Leave => s.(working := None, worker := Absent)
    case Close(c) => s.(closed := s.closed + {c})
    case BeginDrain => s.(caller := Draining(s.working))
    case GiveUp => s.(caller := Free)
    case Collect => Deliver(s)
    case Cancel => s.(cancelled := true)
  }

  // ---------------------------------------------------------------------------------------------
  // What every step keeps
  // ---------------------------------------------------------------------------------------------

  ghost predicate NoRepeats(xs: seq<string>) {
    forall i, j | 0 <= i < j < |xs| :: xs[i] != xs[j]
  }

  /** The queue is duplicate-free and, under a live context, has a worker; channels are closed only
      after their worker is gone, and a drain waits for no other worker than the one it saw. */
  ghost predicate SharedInv(s: State) {
    && NoRepeats(s.queue)
    && (s.working.Some? <==> !s.worker.Absent?)
    && (s.queue != [] && !s.cancelled ==> s.working.Some?)
    && (s.working.Some? ==> s.working.value < s.channels && s.working.value !in s.closed)
    && (forall c | c in s.closed :: c < s.channels)
    && (s.caller.Draining? && s.working.Some? ==> s.caller.busy == s.working)
  }

  predicate IsFresh(s: State, start: nat, p: string) {
    p in s.enqueuedAt && start > s.enqueuedAt[p]
  }

  predicate InHand(s: State, p: string) {
    s.worker.Checking? && s.worker.path == p
  }

  predicate CheckedFresh(s: State, p: string) {
    p in s.checked && IsFresh(s, s.checked[p].start, p)
  }

  /** A file still queued was enqueued after its check in hand, or its finished check, began; every
      enqueued file is queued, in hand, or was checked in its final state. */
  predicate TimesFit(s: State, p: string) {
    && (p in s.queued <==> p in s.queue)
    && (p in s.enqueuedAt ==> s.enqueuedAt[p] <= s.clock)
    && (p in s.queued || p in s.checked || InHand(s, p) ==> p in s.enqueuedAt)
    && (p in s.checked ==> s.checked[p].start <= s.clock)
    && (InHand(s, p) ==> s.worker.since <= s.clock)
    && (InHand(s, p) ==> if p in s.queued then s.worker.since < s.enqueuedAt[p] else IsFresh(s, s.worker.since, p))
    && (p in s.checked && p in s.queued ==> s.checked[p].start < s.enqueuedAt[p])
    && (p in s.enqueuedAt ==>
          p in s.queued || InHand(s, p) || CheckedFresh(s, p))
  }

  /** A kept result is the last check's; an error that is not kept was delivered, or an edit made it stale. */
  predicate ResultFits(s: State, p: string) {
    && (p in s.results ==> p in s.checked && s.results[p] == s.checked[p].block != "")
    && (p !in s.results && p in s.checked && s.checked[p].block != "" ==>
          (p in s.delivered && s.delivered[p] == s.checked[p].start) || !IsFresh(s, s.checked[p].start, p))
  }

  predicate FileInv(s: State, p: string) { TimesFit(s, p) && ResultFits(s, p) }

  ghost predicate Inv(s: State) {
    SharedInv(s) && forall p :: FileInv(s, p)
  }

  lemma EnqueueOneKeeps(s: State, path: string, p: string)
    requires FileInv(s, p) && NoRepeats(s.queue)
    requires path in s.queued <==> path in s.queue
    ensures FileInv(EnqueueOne(s, path), p) && NoRepeats(EnqueueOne(s, path).queue)
  {
    assert p in s.queue + [path] <==> p in s.queue || p == path;
  }

  lemma {:induction false} EnqueueAllKeeps(s: State, files: seq<string>)
    requires NoRepeats(s.queue) && forall p :: FileInv(s, p)
    ensures var t := EnqueueAll(s, files);
            && NoRepeats(t.queue) && (forall p :: FileInv(t, p))
            && t.working == s.working && t.worker == s.worker && t.caller == s.caller && t.channels == s.channels
            && t.closed == s.closed && t.cancelled == s.cancelled
  {
    hide NoRepeats;
    if files != [] {
      var before, path := EnqueueAll(s, files[..|files| - 1]), files[|files| - 1];
      EnqueueAllKeeps(s, files[..|files| - 1]);
      assert FileInv(before, path);
      EnqueueOneKeeps(before, path, path);
      forall p ensures FileInv(EnqueueAll(s, files), p) {
        EnqueueOneKeeps(before, path, p);
      }
    }
  }

  lemma EnqueueKeeps(s: State, files: seq<string>)
    requires Inv(s) && s.caller.Free?
    ensures Inv(Apply(s, Enqueue(files)))
  {
    hide FileInv, EnqueueAll, NoRepeats;
    if files != [] {
      EnqueueAllKeeps(s, files);
      forall p ensures FileInv(StartWorker(EnqueueAll(s, files)), p) {
        StartKeepsFile(EnqueueAll(s, files), p);
      }
    }
  }

  lemma StartKeepsFile(s: State, p: string)
    requires FileInv(s, p) && (s.working.None? ==> s.worker.Absent?)
    ensures FileInv(StartWorker(s), p)
  {
  }

  lemma TakeKeepsFile(s: State, p: string)
    requires Enabled(s, Take) && SharedInv(s) && FileInv(s, p) && FileInv(s, s.queue[0])
    ensures FileInv(Apply(s, Take), p)
  {
    TailHas(s.queue, p);
  }

  lemma TailHas(queue: seq<string>, p: string)
    requires queue != [] && NoRepeats(queue)
    ensures p in queue[1..] <==> p in queue && p != queue[0]
  {
    if p in queue && p != queue[0] {
      var i :| 0 <= i < |queue| && queue[i] == p;
      assert queue[1..][i - 1] == p;
    }
  }

  lemma FinishKeepsFile(s: State, block: string, p: string)
    requires Enabled(s, Finish(block)) && FileInv(s, p)
    ensures FileInv(Apply(s, Finish(block)), p)
  {
  }

  lemma CollectKeepsFile(s: State, p: string)
    requires Enabled(s, Collect) && FileInv(s, p)
    ensures FileInv(Apply(s, Collect), p)
  {
    var t := Deliver(s);
    assert p in s.results ==> p in t.delivered && t.delivered[p] == s.checked[p].start;
    assert p !in s.results && p in s.delivered ==> p in t.delivered && t.delivered[p] == s.delivered[p];
  }

  lemma OthersKeepFile(s: State, step: Step, p: string)
    requires Enabled(s, step) && FileInv(s, p)
    requires step.Leave? || step.Close? || step.BeginDrain? || step.GiveUp? || step.Cancel?
    ensures FileInv(Apply(s, step), p)
  {
  }

  lemma SharedKept(s: State, step: Step)
    requires Enabled(s, step) && SharedInv(s) && !step.Enqueue?
    ensures SharedInv(Apply(s, step))
  {
  }

  lemma StepKeeps(s: State, step: Step)
    requires Inv(s) && Enabled(s, step)
    ensures Inv(Apply(s, step))
  {
    hide FileInv, Apply, SharedInv, Enabled;
    if step.Enqueue? {
      EnqueueEnabled(s, step);
      EnqueueKeeps(s, step.files);
    } else {
      SharedKept(s, step);
      forall p ensures FileInv(Apply(s, step), p) {
        FileKept(s, step, p);
      }
    }
  }

  lemma EnqueueEnabled(s: State, step: Step)
    requires Enabled(s, step) && step.Enqueue?
    ensures s.caller.Free?
  {
  }

  lemma FileKept(s: State, step: Step, p: string)
    requires Inv(s) && Enabled(s, step) && !step.Enqueue?
    ensures FileInv(Apply(s, step), p)
  {
    hide FileInv, Apply;
    match step
    case Take => TakeKeepsFile(s, p);
    case Finish(block) => FinishKeepsFile(s, block, p);
    case Collect => CollectKeepsFile(s, p);
    case _ => OthersKeepFile(s, step, p);
  }

  /** Any interleaving of caller and worker; a step that is not enabled does not happen. */
  function After(steps: seq<Step>): State {
    if steps == [] then INITIAL
    else
      var s, step := After(steps[..|steps| - 1]), steps[|steps| - 1];
      if Enabled(s, step) then Apply(s, step) else s
  }

  lemma {:induction false} InvHolds(steps: seq<Step>)
    ensures Inv(After(steps))
  {
    hide Apply, Enabled;
    if steps != [] {
      var s, step := After(steps[..|steps| - 1]), steps[|steps| - 1];
      InvHolds(steps[..|steps| - 1]);
      if Enabled(s, step) {
        StepKeeps(s, step);
      }
    }
  }

  // ---------------------------------------------------------------------------------------------
  // What that means for the reader of the diagnostics
  // ---------------------------------------------------------------------------------------------

  /** In every interleaving: the queue has no duplicates, `queued` is its set, and under a live
      context a file in the queue has a worker. */
  lemma QueueIsServed(steps: seq<Step>)
    ensures var s := After(steps);
            && NoRepeats(s.queue) && (forall p :: p in s.queued <==> p in s.queue)
            && (!s.cancelled && s.queue != [] ==> s.working.Some?)
  {
    InvHolds(steps);
    assert forall p :: FileInv(After(steps), p) ==> (p in After(steps).queued <==> p in After(steps).queue);
  }

  /** Whatever a drain delivers was found by the file's last check; and that check started after the
      file's last edit exactly when the file is not waiting to be checked again. */
  lemma DrainedBlocks(steps: seq<Step>, p: string)
    requires Enabled(After(steps), Collect) && p in After(steps).results
    ensures var s := After(steps);
            && p in s.checked && s.results[p] == s.checked[p].block
            && (IsFresh(s, s.checked[p].start, p) <==> p !in s.queued)
  {
    InvHolds(steps);
    assert FileInv(After(steps), p);
  }

  /** With a live context diagnostics are never stale. */
  lemma NeverStale(steps: seq<Step>, p: string)
    requires Enabled(After(steps), Collect) && p in After(steps).results && !After(steps).cancelled
    ensures var s := After(steps); CheckedFresh(s, p) && s.results[p] == s.checked[p].block
  {
    InvHolds(steps);
    assert FileInv(After(steps), p);
  }

  /** An idle worker under a live context has checked every file in its final state, and every error it
      found there is still to be delivered, or was. */
  lemma IdleLeavesNothing(steps: seq<Step>, p: string)
    requires After(steps).worker.Absent? && !After(steps).cancelled && p in After(steps).enqueuedAt
    ensures var s := After(steps);
            && CheckedFresh(s, p)
            && (s.checked[p].block != "" ==>
                  (p in s.results && s.results[p] == s.checked[p].block)
                  || (p in s.delivered && s.delivered[p] == s.checked[p].start))
  {
    InvHolds(steps);
    assert FileInv(After(steps), p);
  }

  /** After a cancellation a drain can deliver a stale block: edit, check, edit again, cancel. */
  lemma StaleOnceCancelled() returns (steps: seq<Step>)
    ensures var s := After(steps);
            && Enabled(s, Collect) && s.cancelled && s.results == map["f" := "error"]
            && "f" in s.checked && !IsFresh(s, s.checked["f"].start, "f")
  {
    steps := Edited([]);
    steps := Extend(steps, Take);
    steps := Edited(steps);
    steps := Extend(steps, Finish("error"));
    steps := Extend(steps, Cancel);
    steps := Extend(steps, Leave);
    steps := Extend(steps, BeginDrain);
  }

  lemma Extend(steps: seq<Step>, step: Step) returns (longer: seq<Step>)
    requires Enabled(After(steps), step)
    ensures After(longer) == Apply(After(steps), step)
  {
    longer := steps + [step];
    assert longer[..|longer| - 1] == steps;
  }

  lemma Edited(steps: seq<Step>) returns (longer: seq<Step>)
    requires After(steps).caller.Free?
    ensures After(longer) == StartWorker(EnqueueOne(After(steps), "f"))
  {
    longer := Extend(steps, Enqueue(["f"]));
    assert ["f"][..0] == [];
    assert EnqueueAll(After(steps), ["f"]) == EnqueueOne(EnqueueAll(After(steps), []), "f");
  }

  // ---------------------------------------------------------------------------------------------
  // What is edited gets checked
  // ---------------------------------------------------------------------------------------------

  /** From `s` to `t` these files were put down as edited, and nothing else happened. */
  predicate PutDown(s: State, t: State, p: string, edited: bool) {
    && t.working == s.working && t.channels == s.channels && t.worker == s.worker && t.caller == s.caller
    && t.cancelled == s.cancelled && s.clock <= t.clock
    && (if edited then p in t.enqueuedAt && s.clock < t.enqueuedAt[p] <= t.clock && p in t.queued
        else (p in t.enqueuedAt <==> p in s.enqueuedAt) && (p in t.enqueuedAt ==> t.enqueuedAt[p] == s.enqueuedAt[p])
             && (p in t.queued <==> p in s.queued))
  }

  lemma OnePutDown(s: State, t: State, path: string, p: string, edited: bool)
    requires PutDown(s, t, p, edited)
    ensures PutDown(s, EnqueueOne(t, path), p, edited || path == p)
  {
  }

  lemma {:induction false} AllPutDown(s: State, files: seq<string>, p: string)
    ensures PutDown(s, EnqueueAll(s, files), p, p in files)
  {
    hide PutDown, EnqueueOne;
    if files == [] {
      NonePutDown(s, p);
    } else {
      var n := |files| - 1;
      AllPutDown(s, files[..n], p);
      OnePutDown(s, EnqueueAll(s, files[..n]), files[n], p, p in files[..n]);
      assert files == files[..n] + [files[n]];
    }
  }

  lemma NonePutDown(s: State, p: string)
    ensures PutDown(s, s, p, false)
  {
  }

  /** Starting a worker leaves the files alone. */
  lemma StartKeeps(s: State)
    ensures var t := StartWorker(s);
            t.enqueuedAt == s.enqueuedAt && t.queue == s.queue && t.queued == s.queued && (s.queue != [] ==> t.working.Some?)
  {
  }

  /** Every edited file is down as edited just now, later than anything before, and waits for its check with a worker at
      work; no other file is touched. */
  lemma EditIsNoted(steps: seq<Step>, files: seq<string>, p: string)
    requires Enabled(After(steps), Enqueue(files))
    ensures var s, t := After(steps), After(steps + [Enqueue(files)]);
            && (p in files ==> p in t.enqueuedAt && s.clock < t.enqueuedAt[p] && p in t.queue && (!s.cancelled ==> t.working.Some?))
            && (p !in files ==> (p in t.enqueuedAt <==> p in s.enqueuedAt) && (p in t.enqueuedAt ==> t.enqueuedAt[p] == s.enqueuedAt[p])
                                && (p in t.queue <==> p in s.queue))
  {
    hide EnqueueAll, StartWorker, After, FileInv, SharedInv;
    var s, longer := After(steps), steps + [Enqueue(files)];
    AfterStep(steps, Enqueue(files));
    AllPutDown(s, files, p);
    StartKeeps(EnqueueAll(s, files));
    QueuedIs(steps, p);
    QueuedIs(longer, p);
  }

  lemma QueuedIs(steps: seq<Step>, p: string)
    ensures p in After(steps).queued <==> p in After(steps).queue
  {
    InvHolds(steps);
    assert FileInv(After(steps), p);
  }

  /** The worker takes the oldest file, checks it as it is then, and what it finds is kept for the reader, and only that. */
  lemma CheckIsKept(steps: seq<Step>, block: string)
    requires Enabled(After(steps), Take)
    ensures var s, t, u := After(steps), After(steps + [Take]), After(steps + [Take] + [Finish(block)]);
            var p := s.queue[0];
            && t.worker == Checking(p, s.clock + 1) && t.queue == s.queue[1..]
            && u.worker.Ready? && u.queue == s.queue[1..] && u.caller == s.caller && u.cancelled == s.cancelled && p in u.checked && u.checked[p] == Check(s.clock + 1, block)
            && (if block == "" then p !in u.results else p in u.results && u.results[p] == block)
            && forall q | q != p :: (q in u.results <==> q in s.results) && (q in u.results ==> u.results[q] == s.results[q])
  {
    assert (steps + [Take])[..|steps|] == steps;
    assert (steps + [Take] + [Finish(block)])[..|steps| + 1] == steps + [Take];
  }

  /** A drain takes everything that is kept, and is remembered to have. */
  lemma DrainTakesAll(steps: seq<Step>, p: string)
    requires Enabled(After(steps), Collect)
    ensures var s, t := After(steps), After(steps + [Collect]);
            && t.results == map[] && t.caller.Free?
            && (p in s.results ==> p in t.delivered && p in s.checked && t.delivered[p] == s.checked[p].start)
  {
    assert (steps + [Collect])[..|steps|] == steps;
    InvHolds(steps);
    assert FileInv(After(steps), p);
  }

  /** On an idle worker and a live context an edit is checked and its finding is there for the next drain. */
  lemma EditIsDelivered(steps: seq<Step>, p: string, block: string)
    requires After(steps).worker.Absent? && After(steps).caller.Free? && !After(steps).cancelled && block != ""
    ensures var t := After(steps + [Enqueue([p])] + [Take] + [Finish(block)] + [Leave] + [BeginDrain]);
            Enabled(t, Collect) && p in t.results && t.results[p] == block && CheckedFresh(t, p)
  {
    hide Apply, EnqueueAll, After;
    var s0 := steps + [Enqueue([p])];
    var s1 := s0 + [Take];
    var s2 := s1 + [Finish(block)];
    var s3 := s2 + [Leave];
    IdleQueue(steps);
    OneEdit(After(steps), p);
    AfterStep(steps, Enqueue([p]));
    CheckIsKept(s0, block);
    LeaveAndDrain(After(s2));
    AfterStep(s2, Leave);
    AfterStep(s3, BeginDrain);
    NeverStale(s3 + [BeginDrain], p);
  }

  lemma AfterStep(steps: seq<Step>, step: Step)
    requires Enabled(After(steps), step)
    ensures After(steps + [step]) == Apply(After(steps), step)
  {
    assert (steps + [step])[..|steps|] == steps;
  }

  lemma IdleQueue(steps: seq<Step>)
    ensures After(steps).worker.Absent? && !After(steps).cancelled ==>
              After(steps).queue == [] && After(steps).working.None? && After(steps).queued == {}
  {
    InvHolds(steps);
    var s := After(steps);
    if s.worker.Absent? && !s.cancelled {
      forall p ensures p !in s.queued {
        assert FileInv(s, p);
      }
    }
  }

  lemma OneEdit(s: State, p: string)
    requires s.worker.Absent? && s.caller.Free? && !s.cancelled && s.queue == [] && s.working.None? && s.queued == {}
    ensures var t := Apply(s, Enqueue([p]));
            t.queue == [p] && t.worker.Ready? && !t.cancelled && t.caller.Free?
  {
    assert [p][..0] == [];
    assert EnqueueAll(s, [p]) == EnqueueOne(EnqueueAll(s, []), p);
  }

  lemma LeaveAndDrain(s: State)
    requires s.worker.Ready? && s.queue == [] && s.caller.Free?
    ensures Enabled(s, Leave) && Enabled(Apply(s, Leave), BeginDrain)
    ensures var t := Apply(Apply(s, Leave), BeginDrain);
            Enabled(t, Collect) && t.results == s.results && t.cancelled == s.cancelled
  {
  }

  // ---------------------------------------------------------------------------------------------
  // The code
  // ---------------------------------------------------------------------------------------------

  class AsyncDiagnostics {
    var queue: seq<string>
    var queued: set<string>
    var results: map<string, string>
    var working: Option<nat>
    /** The rest of the state: goroutines, channels, and what happened so far. */
    ghost var rest: State

    ghost function View(): State
      reads this
    {
      rest.(queue := queue, queued := queued, results := results, working := working)
    }

    constructor ()
      ensures View() == INITIAL
    {
      queue, queued, results, working := [], {}, map[], None;
      rest := INITIAL;
    }

    /** `channel` is the done channel made for a worker, should one be started. */
    method Enqueue(files: seq<string>, channel: nat) returns (started: bool)
      requires Enabled(View(), Step.Enqueue(files)) && channel == View().channels
      modifies this
      ensures View() == Apply(old(View()), Step.Enqueue(files))
    {
      started := false;
      if |files| == 0 {
        return;
      }
      EnqueueFiles(files);
      if working.None? && |queue| > 0 {
        ghost var s := View();
        working, started := Some(channel), true;
        rest := StartWorker(s);
        assert View() == StartWorker(s);
      }
    }

    method EnqueueFiles(files: seq<string>)
      modifies this
      ensures View() == EnqueueAll(old(View()), files) && working == old(working)
      ensures rest.channels == old(rest.channels)
    {
      for i := 0 to |files|
        invariant View() == EnqueueAll(old(View()), files[..i])
        invariant working == old(working) && rest.channels == old(rest.channels)
      {
        assert files[..i + 1][..i] == files[..i];
        EnqueueFile(files[i]);
      }
      assert files[..|files|] == files;
    }

    method EnqueueFile(path: string)
      modifies this
      ensures View() == EnqueueOne(old(View()), path) && working == old(working)
      ensures rest.channels == old(rest.channels)
    {
      rest := EnqueueOne(View(), path);
      if path in queued {
        return;
      }
      queued := queued + {path};
      results := results - {path};
      queue := queue + [path];
    }

    /** The worker's turn at the lock: it leaves, or takes the oldest file. */
    method TakeNext(cancelled: bool) returns (path: Option<string>)
      requires View().worker.Ready? && cancelled == View().cancelled
      modifies this
      ensures path.None? ==> Enabled(old(View()), Leave) && View() == Apply(old(View()), Leave)
      ensures path.Some? ==> Enabled(old(View()), Take) && View() == Apply(old(View()), Take)
                             && View().worker.path == path.value
    {
      if |queue| == 0 || cancelled {
        rest := Apply(View(), Leave);
        working := None;
        return None;
      }
      rest := Apply(View(), Take);
      path := Some(queue[0]);
      queue := queue[1..];
      queued := queued - {path.value};
    }

    method StoreResult(path: string, block: string)
      requires View().worker.Checking? && View().worker.path == path
      modifies this
      ensures View() == Apply(old(View()), Finish(block))
    {
      rest := FinishCheck(View(), block);
      if block != "" {
        results := results[path := block];
      } else {
        results := results - {path};
      }
    }

    method BeginDrain() returns (busy: Option<nat>)
      requires Enabled(View(), Step.BeginDrain)
      modifies this
      ensures View() == Apply(old(View()), Step.BeginDrain) && View().caller.busy == busy
    {
      busy := working;
      rest := Apply(View(), Step.BeginDrain);
    }

    /** The delivered blocks, by path in sorted order: the same whatever order the map is read in. */
    method Collect() returns (paths: seq<string>, blocks: seq<string>)
      requires Enabled(View(), Step.Collect)
      modifies this
      ensures View() == Apply(old(View()), Step.Collect)
      ensures Increasing(paths) && forall p :: p in paths <==> p in old(results)
      ensures |blocks| == |paths| && forall i | 0 <= i < |paths| :: blocks[i] == old(results)[paths[i]]
    {
      paths := Keys(results);
      SortedSetIncreasing(paths);
      paths := SortedSet(paths);
      blocks := [];
      for i := 0 to |paths|
        invariant |blocks| == i && forall k | 0 <= k < i :: blocks[k] == results[paths[k]]
        invariant forall p :: p in paths <==> p in results
      {
        assert paths[i] in paths;
        blocks := blocks + [results[paths[i]]];
      }
      rest := Deliver(View());
      results := map[];
    }
  }

  method Keys(m: map<string, string>) returns (keys: seq<string>)
    ensures forall p :: p in keys <==> p in m
  {
    keys := [];
    var left := m.Keys;
    while left != {}
      invariant left <= m.Keys
      invariant forall p :: p in keys <==> p in m && p !in left
      decreases |left|
    {
      var p :| p in left;
      keys := keys + [p];
      left := left - {p};
    }
  }
}
