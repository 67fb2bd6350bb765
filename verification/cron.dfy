/** Scheduled jobs and the claim protocol that keeps concurrent schedulers off each other's slots. Times
    count seconds; each read-modify-write under the per-job lock is one step. */
module Cron {
  import opened Text

  const MINUTE := 60

  datatype Status = Active | Paused

  datatype Job = Job(expr: string, status: Status, nextRunAt: int, fireCount: nat)

  /** What parsing an expression and asking for the run after a time gives. */
  datatype Upcoming = Unparseable | Exhausted | At(time: int)

  type Schedule = (string, int) -> Upcoming

  /** What the schedule package promises: minute-aligned, and later than asked. */
  ghost predicate Proper(next: Schedule) {
    forall expr, t :: next(expr, t).At? ==> next(expr, t).time % MINUTE == 0 && next(expr, t).time > t
  }

  function Truncate(t: int): int { t - t % MINUTE }

  /** The slot that firing at `fired` moves a job to. */
  function NextSlot(next: Schedule, expr: string, fired: int): Upcoming { next(expr, Truncate(fired)) }

  predicate Claimable(job: Job, fired: int) { job.status == Active && job.nextRunAt <= fired }

  function Claimed(next: Schedule, job: Job, fired: int): Job {
    if !Claimable(job, fired) then job
    else if NextSlot(next, job.expr, fired).At? then job.(nextRunAt := NextSlot(next, job.expr, fired).time)
    else job.(status := Paused)
  }

  /** The stale copy a run advances when it is over. */
  function Advanced(next: Schedule, copy: Job, fired: int): Job {
    match NextSlot(next, copy.expr, fired)
    case At(time) => copy.(fireCount := copy.fireCount + 1, nextRunAt := time)
    case _ => copy.(fireCount := copy.fireCount + 1, status := Paused)
  }

  /** What the post-run write makes of the record it re-read. */
  function Merged(next: Schedule, current: Job, copy: Job, fired: int): Job {
    var job := Advanced(next, copy, fired);
    current.(fireCount := job.fireCount, nextRunAt := job.nextRunAt,
             status := if current.status == Paused then Paused else job.status)
  }

  predicate Overdue(job: Job, now: int) { job.status == Active && job.nextRunAt < Truncate(now) }

  /** A scheduler that starts up skips the backlog of a strictly overdue job. */
  function Skipped(next: Schedule, job: Job, now: int): Job {
    if Overdue(job, now) && next(job.expr, now).At? then job.(nextRunAt := next(job.expr, now).time) else job
  }

  // ---------------------------------------------------------------------------------------------
  // Single steps
  // ---------------------------------------------------------------------------------------------

  /** The first minute-aligned time after the minute of `fired` is after `fired` itself. */
  lemma AdvancePassesFire(next: Schedule, job: Job, fired: int)
    requires Proper(next) && Claimable(job, fired) && NextSlot(next, job.expr, fired).At?
    ensures Claimed(next, job, fired).nextRunAt > fired >= job.nextRunAt
    ensures Claimed(next, job, fired).nextRunAt % MINUTE == 0
  {
    assert next(job.expr, Truncate(fired)).time > Truncate(fired);
    AlignedAfter(fired, next(job.expr, Truncate(fired)).time);
  }

  lemma AlignedAfter(fired: int, time: int)
    requires time % MINUTE == 0 && time > Truncate(fired)
    ensures time > fired
  {
  }

  /** Every claim that is won is won for good: the same record cannot be claimed again at that time. */
  lemma WonOnce(next: Schedule, job: Job, fired: int, again: int)
    requires Proper(next) && Claimable(job, fired) && again <= fired
    ensures !Claimable(Claimed(next, job, fired), again)
  {
    if NextSlot(next, job.expr, fired).At? {
      AdvancePassesFire(next, job, fired);
    }
  }

  /** Claims between a run's claim and its write, by anybody. */
  function ClaimAll(next: Schedule, job: Job, fires: seq<int>): Job {
    if fires == [] then job else Claimed(next, ClaimAll(next, job, fires[..|fires| - 1]), fires[|fires| - 1])
  }

  predicate Advances(next: Schedule, job: Job, fired: int) {
    Claimable(job, fired) && NextSlot(next, job.expr, fired).At?
  }

  ghost predicate SomeAdvance(next: Schedule, job: Job, fires: seq<int>) {
    exists k :: 0 <= k < |fires| && Advances(next, ClaimAll(next, job, fires[..k]), fires[k])
  }

  lemma ClaimMovesForward(next: Schedule, job: Job, fired: int)
    requires Proper(next)
    ensures Claimed(next, job, fired).nextRunAt >= job.nextRunAt && Claimed(next, job, fired).expr == job.expr
    ensures Claimed(next, job, fired).nextRunAt == job.nextRunAt <==> !Advances(next, job, fired)
  {
    if Advances(next, job, fired) {
      AdvancePassesFire(next, job, fired);
    }
  }

  lemma SomeAdvanceStep(next: Schedule, job: Job, fires: seq<int>)
    requires fires != []
    ensures var n := |fires| - 1;
            SomeAdvance(next, job, fires) <==> SomeAdvance(next, job, fires[..n]) || Advances(next, ClaimAll(next, job, fires[..n]), fires[n])
  {
    hide Advances, ClaimAll;
    var n := |fires| - 1;
    if SomeAdvance(next, job, fires[..n]) {
      var k :| 0 <= k < n && Advances(next, ClaimAll(next, job, fires[..n][..k]), fires[..n][k]);
      assert fires[..n][..k] == fires[..k];
      assert Advances(next, ClaimAll(next, job, fires[..k]), fires[k]);
    }
    if SomeAdvance(next, job, fires) {
      var k :| 0 <= k < |fires| && Advances(next, ClaimAll(next, job, fires[..k]), fires[k]);
      assert k < n ==> fires[..n][..k] == fires[..k] && fires[..n][k] == fires[k];
    }
  }

  lemma {:induction false} ClaimsMoveForward(next: Schedule, job: Job, fires: seq<int>)
    requires Proper(next)
    ensures ClaimAll(next, job, fires).nextRunAt >= job.nextRunAt && ClaimAll(next, job, fires).expr == job.expr
    ensures ClaimAll(next, job, fires).nextRunAt == job.nextRunAt <==> !SomeAdvance(next, job, fires)
  {
    hide Advances, Proper, Claimed;
    if fires != [] {
      var n := |fires| - 1;
      ClaimsMoveForward(next, job, fires[..n]);
      ClaimMovesForward(next, ClaimAll(next, job, fires[..n]), fires[n]);
      SomeAdvanceStep(next, job, fires);
    }
  }

  /** A run whose claim advanced the job writes back the slot the job has, unless another claim
      advanced it meanwhile, and then it always sets the job back. */
  lemma WriteBackHarmlessIff(next: Schedule, copy: Job, job: Job, fired: int, meanwhile: seq<int>)
    requires Proper(next) && Advances(next, job, fired) && copy.expr == job.expr
    ensures var current := ClaimAll(next, Claimed(next, job, fired), meanwhile);
            var after := Merged(next, current, copy, fired).nextRunAt;
            && (after == current.nextRunAt <==> !SomeAdvance(next, Claimed(next, job, fired), meanwhile))
            && (SomeAdvance(next, Claimed(next, job, fired), meanwhile) ==> after < current.nextRunAt)
  {
    ClaimsMoveForward(next, Claimed(next, job, fired), meanwhile);
  }

  // ---------------------------------------------------------------------------------------------
  // Whole histories of one job
  // ---------------------------------------------------------------------------------------------

  /** How a store operation goes: reads and writes may fail. */
  datatype IO = Fine | ReadFails | WriteFails

  datatype Phase = Ticked | Running(fired: int, claims: nat) | Over

  /** One scheduler's dealings with the job, from the copy it listed. */
  datatype Run = Run(copy: Job, phase: Phase)

  datatype Win = Win(slot: int, fired: int, advanced: bool)

  datatype State = State(job: Option<Job>, runs: map<nat, Run>, wins: seq<Win>)

  datatype Step =
    | Tick(run: nat)
    | Claim(run: nat, fired: int, io: IO)
    | Persist(run: nat, io: IO)
    | Pause
    | Remove
    | Reconcile(now: int, saved: bool)

  predicate Enabled(s: State, step: Step) {
    match step
    case Tick(k) => k !in s.runs && s.job.Some?
    case Claim(k, _, _) => k in s.runs && s.runs[k].phase.Ticked?
    case Persist(k, _) => k in s.runs && s.runs[k].phase.Running?
    case _ => true
  }

  function To(s: State, k: nat, phase: Phase): State
    requires k in s.runs
  {
    s.(runs := s.runs[k := s.runs[k].(phase := phase)])
  }

  function ClaimStep(next: Schedule, s: State, k: nat, fired: int, io: IO): State
    requires k in s.runs
  {
    if s.job.None? || io != Fine || !Claimable(s.job.value, fired) then To(s, k, Over)
    else
      var job := s.job.value;
      To(s, k, Running(fired, |s.wins| + 1)).(
        job := Some(Claimed(next, job, fired)),
        wins := s.wins + [Win(job.nextRunAt, fired, NextSlot(next, job.expr, fired).At?)])
  }

  function PersistStep(next: Schedule, s: State, k: nat, io: IO): State
    requires k in s.runs && s.runs[k].phase.Running?
  {
    var copy, fired := s.runs[k].copy, s.runs[k].phase.fired;
    if s.job.None? || io == WriteFails then To(s, k, Over)
    else
      To(s, k, Over).(job := Some(if io == ReadFails then Advanced(next, copy, fired) else Merged(next, s.job.value, copy, fired)))
  }

  function Apply(next: Schedule, s: State, step: Step): State
    requires Enabled(s, step)
  {
    match step
    case Tick(k) => s.(runs := s.runs[k := Run(s.job.value, Ticked)])
    case Claim(k, fired, io) => ClaimStep(next, s, k, fired, io)
    case Persist(k, io) => PersistStep(next, s, k, io)
    case Pause => if s.job.Some? then s.(job := Some(s.job.value.(status := Paused))) else s
    case Remove => s.(job := None)
    case Reconcile(now, saved) => if s.job.Some? && saved then s.(job := Some(Skipped(next, s.job.value, now))) else s
  }

  /** Any interleaving of any number of schedulers; a step that is not enabled does not happen. */
  function After(next: Schedule, job: Job, steps: seq<Step>): State {
    if steps == [] then State(Some(job), map[], [])
    else
      var s, step := After(next, job, steps[..|steps| - 1]), steps[|steps| - 1];
      if Enabled(s, step) then Apply(next, s, step) else s
  }

  /** Nobody has claimed since this run did. */
  predicate Latest(s: State, k: nat) {
    k in s.runs && s.runs[k].phase.Running? && s.runs[k].phase.claims == |s.wins|
  }

  /** A run whose claim is no longer the latest writes its slot into a job that is then active. */
  predicate Disturbs(next: Schedule, s: State, step: Step) {
    && step.Persist? && Enabled(s, step) && s.job.Some? && step.io != WriteFails && !Latest(s, step.run)
    && var run := s.runs[step.run];
       && run.copy.status == Active && NextSlot(next, run.copy.expr, run.phase.fired).At?
       && (step.io == ReadFails || s.job.value.status == Active)
  }

  ghost predicate Undisturbed(next: Schedule, job: Job, steps: seq<Step>) {
    forall i | 0 <= i < |steps| :: !Disturbs(next, After(next, job, steps[..i]), steps[i])
  }

  /** The slot that follows a fire is at or before this one. */
  predicate Leads(next: Schedule, expr: string, fired: int, slot: int) {
    NextSlot(next, expr, fired).At? && NextSlot(next, expr, fired).time <= slot
  }

  /** Every win but the last moved the job on; the slot won next is that one, or a later one skipped to. */
  ghost predicate Chain(next: Schedule, expr: string, wins: seq<Win>) {
    && (forall i | 0 <= i < |wins| :: wins[i].slot <= wins[i].fired && (wins[i].advanced <==> NextSlot(next, expr, wins[i].fired).At?))
    && (forall i | 0 <= i < |wins| - 1 :: Leads(next, expr, wins[i].fired, wins[i + 1].slot))
  }

  ghost predicate Inv(next: Schedule, expr: string, s: State) {
    && Chain(next, expr, s.wins)
    && (forall k | k in s.runs :: RunFits(expr, s, k))
    && (s.job.Some? ==> s.job.value.expr == expr)
    && (s.job.Some? && s.job.value.status == Active && s.wins != [] ==>
          Leads(next, expr, s.wins[|s.wins| - 1].fired, s.job.value.nextRunAt))
  }

  /** A running run's claim is one of the wins. */
  predicate RunFits(expr: string, s: State, k: nat)
    requires k in s.runs
  {
    var run := s.runs[k];
    run.copy.expr == expr
    && (run.phase.Running? ==> 1 <= run.phase.claims <= |s.wins| && s.wins[run.phase.claims - 1].fired == run.phase.fired)
  }

  lemma ClaimKeeps(next: Schedule, expr: string, s: State, k: nat, fired: int, io: IO)
    requires Inv(next, expr, s) && Enabled(s, Claim(k, fired, io))
    ensures Inv(next, expr, ClaimStep(next, s, k, fired, io))
  {
    hide NextSlot;
    var t := ClaimStep(next, s, k, fired, io);
    forall l | l in t.runs ensures RunFits(expr, t, l) {
      assert RunFits(expr, s, l);
    }
  }

  lemma PersistKeeps(next: Schedule, expr: string, s: State, k: nat, io: IO)
    requires Inv(next, expr, s) && Enabled(s, Persist(k, io)) && !Disturbs(next, s, Persist(k, io))
    ensures Inv(next, expr, PersistStep(next, s, k, io))
  {
    var t := PersistStep(next, s, k, io);
    assert RunFits(expr, s, k);
    forall l | l in t.runs ensures RunFits(expr, t, l) {
      assert RunFits(expr, s, l);
    }
  }

  lemma OthersKeep(next: Schedule, expr: string, s: State, step: Step)
    requires Proper(next) && Inv(next, expr, s) && Enabled(s, step)
    requires step.Tick? || step.Pause? || step.Remove? || step.Reconcile?
    ensures Inv(next, expr, Apply(next, s, step))
  {
    var t := Apply(next, s, step);
    forall l | l in t.runs ensures RunFits(expr, t, l) {
      assert l in s.runs ==> RunFits(expr, s, l);
    }
  }

  lemma UndisturbedBefore(next: Schedule, job: Job, steps: seq<Step>, n: nat)
    requires Undisturbed(next, job, steps) && n <= |steps|
    ensures Undisturbed(next, job, steps[..n])
  {
    hide Disturbs;
    forall i | 0 <= i < n ensures !Disturbs(next, After(next, job, steps[..n][..i]), steps[..n][i]) {
      assert steps[..n][..i] == steps[..i];
    }
  }

  lemma {:induction false} InvHolds(next: Schedule, job: Job, steps: seq<Step>)
    requires Proper(next) && Undisturbed(next, job, steps)
    ensures Inv(next, job.expr, After(next, job, steps))
  {
    hide Inv, Enabled, ClaimStep, PersistStep, Disturbs;
    if steps == [] {
      InitInv(next, job);
    } else {
      var n := |steps| - 1;
      var s, step := After(next, job, steps[..n]), steps[n];
      UndisturbedBefore(next, job, steps, n);
      InvHolds(next, job, steps[..n]);
      if Enabled(s, step) {
        match step
        case Claim(k, fired, io) => ClaimKeeps(next, job.expr, s, k, fired, io);
        case Persist(k, io) => PersistKeeps(next, job.expr, s, k, io);
        case _ => OthersKeep(next, job.expr, s, step);
      }
    }
  }

  lemma InitInv(next: Schedule, job: Job)
    ensures Inv(next, job.expr, State(Some(job), map[], []))
  {
  }

  /** Slots move forward past every fire, so none is won twice. */
  ghost predicate WonOnceEach(wins: seq<Win>) {
    forall i, j | 0 <= i < j < |wins| :: wins[i].slot <= wins[i].fired < wins[j].slot
  }

  lemma {:induction false} ChainIncreases(next: Schedule, expr: string, wins: seq<Win>, i: nat, j: nat)
    requires Proper(next) && Chain(next, expr, wins) && i < j < |wins|
    ensures wins[i].fired < wins[j].slot
  {
    if i < j - 1 {
      ChainIncreases(next, expr, wins, i, j - 1);
    }
    assert Leads(next, expr, wins[j - 1].fired, wins[j].slot);
    AlignedAfter(wins[j - 1].fired, NextSlot(next, expr, wins[j - 1].fired).time);
  }

  /** Over any interleaving of listings, claims, pauses, removals, skipped backlogs and post-run writes that do not disturb:
      each slot is won at most once, slots only move forward past every fire, and a schedule that cannot
      advance is won at most once, last, and leaves the job paused. */
  lemma SlotsAreWonOnce(next: Schedule, job: Job, steps: seq<Step>)
    requires Proper(next) && Undisturbed(next, job, steps)
    ensures var s := After(next, job, steps);
            && WonOnceEach(s.wins)
            && (forall i | 0 <= i < |s.wins| && !s.wins[i].advanced ::
                  i == |s.wins| - 1 && (s.job.Some? ==> s.job.value.status == Paused))
  {
    hide After, NextSlot, Undisturbed;
    InvHolds(next, job, steps);
    var wins := After(next, job, steps).wins;
    forall i, j | 0 <= i < j < |wins| ensures wins[i].slot <= wins[i].fired < wins[j].slot {
      ChainIncreases(next, job.expr, wins, i, j);
    }
    forall i | 0 <= i < |wins| - 1 ensures wins[i].advanced {
      assert Leads(next, job.expr, wins[i].fired, wins[i + 1].slot);
    }
  }

  lemma {:induction false} SomeRunIsNew(next: Schedule, job: Job, steps: seq<Step>) returns (k: nat)
    ensures forall l | l in After(next, job, steps).runs :: l < k
  {
    hide ClaimStep, PersistStep;
    k := 0;
    if steps != [] {
      var n := |steps| - 1;
      k := SomeRunIsNew(next, job, steps[..n]);
      var s, step := After(next, job, steps[..n]), steps[n];
      if Enabled(s, step) {
        RunsOf(next, s, step);
        if step.Tick? && step.run >= k {
          k := step.run + 1;
        }
      }
    }
  }

  lemma RunsOf(next: Schedule, s: State, step: Step)
    requires Enabled(s, step)
    ensures forall l | l in Apply(next, s, step).runs :: l in s.runs || (step.Tick? && l == step.run)
  {
  }

  /** After a write that disturbs, one listing and one claim win a slot no later than one already won. */
  lemma DisturbanceWinsTwice(next: Schedule, job: Job, steps: seq<Step>, step: Step) returns (k: nat, fired: int)
    requires Proper(next) && Undisturbed(next, job, steps) && Disturbs(next, After(next, job, steps), step)
    ensures k !in After(next, job, steps + [step]).runs
    ensures !WonOnceEach(After(next, job, steps + [step] + [Tick(k), Claim(k, fired, Fine)]).wins)
  {
    var s := After(next, job, steps);
    InvHolds(next, job, steps);
    var late := s.runs[step.run];
    assert RunFits(job.expr, s, step.run);
    fired := NextSlot(next, job.expr, late.phase.fired).time;
    var later := Extend(next, job, steps, step);
    assert later == steps + [step];
    var t := After(next, job, later);
    DisturbedJob(next, job.expr, s, step);
    k := SomeRunIsNew(next, job, later);
    var ticked := Extend(next, job, later, Tick(k));
    var claimed := Extend(next, job, ticked, Claim(k, fired, Fine));
    assert claimed == steps + [step] + [Tick(k), Claim(k, fired, Fine)];
    var wins := After(next, job, claimed).wins;
    assert wins == s.wins + [Win(fired, fired, NextSlot(next, job.expr, fired).At?)];
    assert Leads(next, job.expr, s.wins[late.phase.claims - 1].fired, s.wins[late.phase.claims].slot);
    assert wins[|s.wins|].slot == fired <= wins[late.phase.claims].slot;
    assert late.phase.claims < |s.wins|;
  }

  lemma DisturbedJob(next: Schedule, expr: string, s: State, step: Step)
    requires Inv(next, expr, s) && Disturbs(next, s, step)
    ensures var t := Apply(next, s, step);
            && t.job.Some? && t.job.value.status == Active && t.job.value.expr == expr && t.wins == s.wins
            && NextSlot(next, expr, s.runs[step.run].phase.fired) == At(t.job.value.nextRunAt)
  {
    assert RunFits(expr, s, step.run);
  }

  lemma {:induction false} FirstDisturbance(next: Schedule, job: Job, steps: seq<Step>) returns (i: nat)
    requires !Undisturbed(next, job, steps)
    ensures i < |steps| && Undisturbed(next, job, steps[..i]) && Disturbs(next, After(next, job, steps[..i]), steps[i])
    decreases |steps|
  {
    hide Disturbs, After, Enabled;
    var n := |steps| - 1;
    var at: nat :| at < |steps| && Disturbs(next, After(next, job, steps[..at]), steps[at]);
    if Undisturbed(next, job, steps[..n]) {
      forall j | 0 <= j < n ensures !Disturbs(next, After(next, job, steps[..j]), steps[j]) {
        assert steps[..n][..j] == steps[..j] && steps[..n][j] == steps[j];
      }
      i := at;
    } else {
      i := FirstDisturbance(next, job, steps[..n]);
      assert steps[..n][..i] == steps[..i];
    }
  }

  /** The history up to step `n`, one more listing and one more claim win no slot twice. */
  ghost predicate SafeToClaim(next: Schedule, job: Job, steps: seq<Step>, n: nat, k: nat, fired: int)
    requires n <= |steps|
  {
    k !in After(next, job, steps[..n]).runs ==>
      WonOnceEach(After(next, job, steps[..n] + [Tick(k), Claim(k, fired, Fine)]).wins)
  }

  /** For whole histories this is exact: slots are won once, at every point and by whoever claims next, if
      and only if no write disturbs. */
  lemma SlotsAreWonOnceIff(next: Schedule, job: Job, steps: seq<Step>)
    requires Proper(next)
    ensures Undisturbed(next, job, steps)
            <==> forall n: nat, k, fired | n <= |steps| :: SafeToClaim(next, job, steps, n, k, fired)
  {
    hide Disturbs, WonOnceEach, After, Undisturbed;
    if Undisturbed(next, job, steps) {
      forall n: nat, k, fired | n <= |steps| ensures SafeToClaim(next, job, steps, n, k, fired) {
        UndisturbedBefore(next, job, steps, n);
        ClaimDoesNotDisturb(next, job, steps[..n], k, fired);
        SlotsAreWonOnce(next, job, steps[..n] + [Tick(k), Claim(k, fired, Fine)]);
      }
    } else {
      var i := FirstDisturbance(next, job, steps);
      var k, fired := DisturbanceWinsTwice(next, job, steps[..i], steps[i]);
      assert steps[..i] + [steps[i]] == steps[..i + 1];
      assert !SafeToClaim(next, job, steps, i + 1, k, fired);
    }
  }

  lemma ClaimDoesNotDisturb(next: Schedule, job: Job, steps: seq<Step>, k: nat, fired: int)
    requires Undisturbed(next, job, steps)
    ensures Undisturbed(next, job, steps + [Tick(k), Claim(k, fired, Fine)])
  {
    var all := steps + [Tick(k), Claim(k, fired, Fine)];
    forall i | 0 <= i < |all| ensures !Disturbs(next, After(next, job, all[..i]), all[i]) {
      if i < |steps| {
        assert all[..i] == steps[..i] && all[i] == steps[i];
      }
    }
  }

  /** Two overlapping runs: the first to claim writes back last, and the second one's slot is won again. */
  lemma OverlapWinsTwice(next: Schedule, expr: string) returns (steps: seq<Step>)
    requires next(expr, 0) == At(60) && next(expr, 60) == At(120)
    ensures var s := After(next, Job(expr, Active, 0, 0), steps);
            |s.wins| == 3 && s.wins[1].slot == s.wins[2].slot == 60 && s.wins[1].advanced && s.wins[2].advanced
  {
    var job := Job(expr, Active, 0, 0);
    steps := Extend(next, job, [], Tick(0));
    steps := Extend(next, job, steps, Claim(0, 0, Fine));
    steps := Extend(next, job, steps, Tick(1));
    steps := Extend(next, job, steps, Claim(1, 60, Fine));
    steps := Extend(next, job, steps, Persist(0, Fine));
    steps := Extend(next, job, steps, Tick(2));
    steps := Extend(next, job, steps, Claim(2, 60, Fine));
  }

  lemma Extend(next: Schedule, job: Job, steps: seq<Step>, step: Step) returns (longer: seq<Step>)
    requires Enabled(After(next, job, steps), step)
    ensures longer == steps + [step] && After(next, job, longer) == Apply(next, After(next, job, steps), step)
  {
    longer := steps + [step];
    assert longer[..|longer| - 1] == steps;
  }

  // ---- what each step comes to ----

  lemma AfterStep(next: Schedule, job: Job, steps: seq<Step>, step: Step)
    requires Enabled(After(next, job, steps), step)
    ensures After(next, job, steps + [step]) == Apply(next, After(next, job, steps), step)
  {
    assert (steps + [step])[..|steps|] == steps;
  }

  /** A claim is won if and only if the store works and the job is there, active and due at or before the fire time. The slot
      won is the one it was due at; the job moves to the slot after the minute of the fire, or pauses if there is none. */
  lemma ClaimIsWonIff(next: Schedule, job: Job, steps: seq<Step>, k: nat, fired: int, io: IO)
    requires Enabled(After(next, job, steps), Claim(k, fired, io))
    ensures var s, t := After(next, job, steps), After(next, job, steps + [Claim(k, fired, io)]);
            && k in t.runs && t.runs[k].copy == s.runs[k].copy
            && if io == Fine && s.job.Some? && s.job.value.status == Active && s.job.value.nextRunAt <= fired then
                 var after := next(s.job.value.expr, fired - fired % 60);
                 && |t.wins| == |s.wins| + 1 && s.wins <= t.wins && t.wins[|s.wins|] == Win(s.job.value.nextRunAt, fired, after.At?)
                 && t.job == Some(if after.At? then s.job.value.(nextRunAt := after.time) else s.job.value.(status := Paused))
                 && t.runs[k].phase.Running? && t.runs[k].phase.fired == fired
               else t.wins == s.wins && t.job == s.job && t.runs[k].phase.Over?
  {
    AfterStep(next, job, steps, Claim(k, fired, io));
  }

  /** A run nobody interferes with: listed, claimed, run and written. One slot is won, one fire counted, and the job waits
      for the next slot, or is paused if there is none. */
  lemma RunCounts(next: Schedule, job: Job, steps: seq<Step>, k: nat, fired: int)
    requires var s := After(next, job, steps);
             k !in s.runs && s.job.Some? && s.job.value.status == Active && s.job.value.nextRunAt <= fired
    ensures var s, t := After(next, job, steps), After(next, job, steps + [Tick(k)] + [Claim(k, fired, Fine)] + [Persist(k, Fine)]);
            var after := next(s.job.value.expr, fired - fired % 60);
            && t.wins == s.wins + [Win(s.job.value.nextRunAt, fired, after.At?)]
            && t.job == Some(if after.At? then s.job.value.(nextRunAt := after.time, fireCount := s.job.value.fireCount + 1)
                             else s.job.value.(status := Paused, fireCount := s.job.value.fireCount + 1))
  {
    AfterStep(next, job, steps, Tick(k));
    AfterStep(next, job, steps + [Tick(k)], Claim(k, fired, Fine));
    AfterStep(next, job, steps + [Tick(k)] + [Claim(k, fired, Fine)], Persist(k, Fine));
  }

  /** Pausing pauses and removing removes, at once; skipping a backlog moves only an active job that is due before the current
      minute, to its first slot after now. */
  lemma OthersDo(next: Schedule, job: Job, steps: seq<Step>, now: int, saved: bool)
    ensures var s := After(next, job, steps);
            && After(next, job, steps + [Remove]) == s.(job := None)
            && (s.job.Some? ==> After(next, job, steps + [Pause]) == s.(job := Some(s.job.value.(status := Paused))))
            && (s.job.Some? ==>
                  var j := s.job.value;
                  var t := After(next, job, steps + [Reconcile(now, saved)]);
                  if saved && j.status == Active && j.nextRunAt < now - now % 60 && next(j.expr, now).At?
                  then t == s.(job := Some(j.(nextRunAt := next(j.expr, now).time))) else t == s)
  {
    AfterStep(next, job, steps, Remove);
    AfterStep(next, job, steps, Pause);
    AfterStep(next, job, steps, Reconcile(now, saved));
  }

  // ---- paused or removed ----

  /** A write whose re-read failed puts a stale active copy in place of the record. */
  predicate Unpauses(next: Schedule, s: State, step: Step) {
    && step.Persist? && Enabled(s, step) && s.job.Some? && step.io == ReadFails
    && var run := s.runs[step.run];
       run.copy.status == Active && NextSlot(next, run.copy.expr, run.phase.fired).At?
  }

  predicate AtRest(s: State) { s.job.Some? ==> s.job.value.status == Paused }

  lemma RestStep(next: Schedule, s: State, step: Step)
    requires AtRest(s) && Enabled(s, step)
    ensures AtRest(Apply(next, s, step)) <==> !Unpauses(next, s, step)
  {
  }

  /** At every point of the first `n` steps that follow. */
  ghost predicate StaysAtRest(next: Schedule, job: Job, steps: seq<Step>, more: seq<Step>, n: nat)
    requires n <= |more|
  {
    forall m | 0 <= m <= n :: AtRest(After(next, job, steps + more[..m]))
  }

  ghost predicate NoneUnpauses(next: Schedule, job: Job, steps: seq<Step>, more: seq<Step>, n: nat)
    requires n <= |more|
  {
    forall i | 0 <= i < n :: !Unpauses(next, After(next, job, steps + more[..i]), more[i])
  }

  /** Whatever happens after a job was paused or removed, it stays so if and only if no later write had to
      do without its re-read and held an active copy whose schedule goes on. */
  lemma {:induction false} PausedStaysPausedIff(next: Schedule, job: Job, steps: seq<Step>, more: seq<Step>, n: nat)
    requires AtRest(After(next, job, steps)) && n <= |more|
    ensures StaysAtRest(next, job, steps, more, n) <==> NoneUnpauses(next, job, steps, more, n)
  {
    hide Unpauses, AtRest, Apply, Enabled, After;
    if n == 0 {
      assert steps + more[..0] == steps;
    } else {
      PausedStaysPausedIff(next, job, steps, more, n - 1);
      OneStepOn(next, job, steps, more, n - 1);
      var s := After(next, job, steps + more[..n - 1]);
      if AtRest(s) {
        RestStepOn(next, s, more[n - 1]);
      }
    }
  }

  lemma RestStepOn(next: Schedule, s: State, step: Step)
    requires AtRest(s)
    ensures AtRest(if Enabled(s, step) then Apply(next, s, step) else s) <==> !Unpauses(next, s, step)
  {
    if Enabled(s, step) {
      RestStep(next, s, step);
    }
  }

  lemma OneStepOn(next: Schedule, job: Job, steps: seq<Step>, more: seq<Step>, n: nat)
    requires n < |more|
    ensures var s := After(next, job, steps + more[..n]);
            After(next, job, steps + more[..n + 1]) == if Enabled(s, more[n]) then Apply(next, s, more[n]) else s
  {
    var all := steps + more[..n + 1];
    assert all[..|all| - 1] == steps + more[..n];
  }

  // ---------------------------------------------------------------------------------------------
  // The code
  // ---------------------------------------------------------------------------------------------

  datatype Outcome = Done | NotFound | IOError

  class Store {
    var jobs: map<string, Job>

    /** The claim, under the job's lock. */
    method ClaimFire(next: Schedule, fired: int, id: string, io: IO) returns (claimed: bool, outcome: Outcome)
      modifies this
      ensures id !in old(jobs) ==> outcome == NotFound && jobs == old(jobs)
      ensures id in old(jobs) && io != Fine ==> outcome == IOError && jobs == old(jobs)
      ensures id in old(jobs) && io == Fine ==>
                outcome == Done && claimed == Claimable(old(jobs)[id], fired)
                && jobs == old(jobs)[id := Claimed(next, old(jobs)[id], fired)]
    {
      claimed := true;
      if id !in jobs {
        return claimed, NotFound;
      }
      if io == ReadFails {
        return claimed, IOError;
      }
      var current := jobs[id];
      if current.status != Active || current.nextRunAt > fired {
        claimed := false;
      } else {
        var upcoming := next(current.expr, Truncate(fired));
        if upcoming.At? {
          current := current.(nextRunAt := upcoming.time);
        } else {
          current := current.(status := Paused);
        }
      }
      if io == WriteFails {
        return claimed, IOError;
      }
      jobs := jobs[id := current];
      outcome := Done;
    }

    /** The write after a run, from the copy listed before it. */
    method PersistRun(next: Schedule, fired: int, id: string, copy: Job, io: IO) returns (outcome: Outcome)
      modifies this
      ensures id !in old(jobs) ==> outcome == NotFound && jobs == old(jobs)
      ensures id in old(jobs) && io == WriteFails ==> outcome == IOError && jobs == old(jobs)
      ensures id in old(jobs) && io != WriteFails ==>
                outcome == Done
                && jobs == old(jobs)[id := if io == ReadFails then Advanced(next, copy, fired)
                                           else Merged(next, old(jobs)[id], copy, fired)]
    {
      var job := copy.(fireCount := copy.fireCount + 1);
      var upcoming := next(job.expr, Truncate(fired));
      if upcoming.At? {
        job := job.(nextRunAt := upcoming.time);
      } else {
        job := job.(status := Paused);
      }
      if id !in jobs {
        return NotFound;
      }
      if io != ReadFails {
        var current := jobs[id].(fireCount := job.fireCount, nextRunAt := job.nextRunAt);
        if current.status != Paused {
          current := current.(status := job.status);
        }
        job := current;
      }
      if io == WriteFails {
        return IOError;
      }
      jobs := jobs[id := job];
      outcome := Done;
    }
  }

  /** On startup strictly overdue jobs skip their backlog: none of those selected is left overdue while
      its schedule goes on and it can be saved, and a job due in the current minute is left to fire. */
  method ReconcileOverdue(next: Schedule, jobs: seq<Job>, selected: seq<bool>, saved: seq<bool>, now: int) returns (out: seq<Job>)
    requires Proper(next) && |selected| == |jobs| == |saved|
    ensures |out| == |jobs|
    ensures forall i | 0 <= i < |jobs| :: out[i] == if selected[i] && saved[i] then Skipped(next, jobs[i], now) else jobs[i]
    ensures forall i | 0 <= i < |jobs| ::
              if selected[i] && Overdue(jobs[i], now) && next(jobs[i].expr, now).At? && saved[i]
              then out[i] == jobs[i].(nextRunAt := out[i].nextRunAt) && out[i].nextRunAt > now && !Overdue(out[i], now)
                   && At(out[i].nextRunAt) == next(jobs[i].expr, now)
              else out[i] == jobs[i]
  {
    out := jobs;
    for i := 0 to |jobs|
      invariant |out| == |jobs| && forall k | i <= k < |jobs| :: out[k] == jobs[k]
      invariant forall k | 0 <= k < i ::
                  if selected[k] && Overdue(jobs[k], now) && next(jobs[k].expr, now).At? && saved[k]
                  then At(out[k].nextRunAt) == next(jobs[k].expr, now) && out[k] == jobs[k].(nextRunAt := out[k].nextRunAt)
                  else out[k] == jobs[k]
    {
      var j := jobs[i];
      if j.status != Active || !selected[i] || j.nextRunAt >= Truncate(now) { continue; }
      var upcoming := next(j.expr, now);
      if upcoming.At? && saved[i] {
        out := out[i := j.(nextRunAt := upcoming.time)];
      }
    }
  }
}
