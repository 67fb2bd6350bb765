/** One turn's batch of tool calls: parallel-safe stretches run ahead, results are taken in order. */
module Batch {
  import opened Text
  import opened Transcript
  import opened Schedules
  import Guards

  datatype Exit =
    | Running
    | Aborted(error: string)
    | Stopped(answer: string, reason: string)
    | Looping(tool: string, count: nat)

  /** What taking results changes, and how the batch ended. */
  datatype Progress = Progress(
    messages: seq<Message>, guards: Guards.State, loaded: set<string>,
    model: string, hint: Option<ToolResult>, changed: seq<string>, exit: Exit)

  const ABORTED_NOTICE := "aborted: run halted " + "by the repeated-" + "failure guard"

  function Placeholders(calls: seq<ToolCall>): seq<Message> {
    if calls == [] then []
    else Placeholders(calls[..|calls| - 1]) + [ResultMessage(calls[|calls| - 1].id, ABORTED_NOTICE)]
  }

  // ---------------------------------------------------------------------------------------------
  // Taking results, in order
  // ---------------------------------------------------------------------------------------------

  function Halted(p: Progress, rest: seq<ToolCall>, exit: Exit): Progress {
    p.(messages := p.messages + Placeholders(rest), exit := exit)
  }

  function Recorded(p: Progress, r: ToolResult): Progress {
    p.(messages := p.messages + [ResultMessage(r.callID, r.output)],
       loaded := p.loaded + (set name | name in r.loads),
       model := if p.model == "" then r.model else p.model)
  }

  /** The outcome of call `i`, taken into the run. */
  function Consumed<W>(env: Tools<W>, p: Progress, calls: seq<ToolCall>, i: nat, o: Outcome): Progress
    requires i < |calls|
  {
    var q, r := Recorded(p, o.result), o.result;
    var cut := if o.abort.Some? then o.abort else env.cancelled(i);
    if cut.Some? then Halted(q, calls[i + 1..], Aborted(cut.value))
    else if r.stop != "" then Halted(q, calls[i + 1..], Stopped(r.output, r.stop))
    else
      var (g, outcome) := Guards.ObserveResultSpec(p.guards, calls[i].name, r.failed, env.signature(r.output));
      if outcome.stop then Halted(q.(guards := g), calls[i + 1..], Looping(calls[i].name, outcome.count))
      else
        q.(guards := g,
           hint := if outcome.injectHint && p.hint.None? then Some(r) else p.hint,
           changed := p.changed + if r.status == Ok then r.changed else [])
  }

  /** The first `n` outcomes taken, up to the one that ends the batch. */
  function Taken<W>(env: Tools<W>, start: Progress, calls: seq<ToolCall>, known: seq<Outcome>, n: nat): Progress
    requires n <= |known| <= |calls|
  {
    if n == 0 then start
    else
      var p := Taken(env, start, calls, known, n - 1);
      if p.exit != Running then p else Consumed(env, p, calls, n - 1, known[n - 1])
  }

  /** One-by-one execution: each call runs only once the results before it are taken. */
  function Sequential<W>(env: Tools<W>, world: W, start: Progress, calls: seq<ToolCall>, n: nat): (Progress, W)
    requires n <= |calls|
  {
    if n == 0 then (start, world)
    else
      var (p, w) := Sequential(env, world, start, calls, n - 1);
      if p.exit != Running then (p, w)
      else
        var e := env.execute(w, calls[n - 1]);
        (Consumed(env, p, calls, n - 1, e.outcome), e.world)
  }

  /** The batch took exactly the first `n` outcomes: it ended with the last of them, or there are no more. */
  ghost predicate Takes<W>(env: Tools<W>, start: Progress, calls: seq<ToolCall>, known: seq<Outcome>, n: nat, out: Progress) {
    && n <= |known| <= |calls| && out == Taken(env, start, calls, known, n)
    && (n > 0 ==> Taken(env, start, calls, known, n - 1).exit == Running)
    && (out.exit == Running ==> n == |calls|)
  }

  // ---------------------------------------------------------------------------------------------
  // The code
  // ---------------------------------------------------------------------------------------------

  method AppendAbortedToolResults(messages0: seq<Message>, remaining: seq<ToolCall>) returns (messages: seq<Message>)
    ensures messages == messages0 + Placeholders(remaining)
  {
    messages := messages0;
    for i := 0 to |remaining|
      invariant messages == messages0 + Placeholders(remaining[..i])
    {
      assert remaining[..i + 1][..i] == remaining[..i];
      messages := messages + [ResultMessage(remaining[i].id, ABORTED_NOTICE)];
    }
    assert remaining[..|remaining|] == remaining;
  }

  method Halt(p: Progress, rest: seq<ToolCall>, exit: Exit) returns (out: Progress)
    ensures out == Halted(p, rest, exit)
  {
    var closed := AppendAbortedToolResults(p.messages, rest);
    out := p.(messages := closed, exit := exit);
  }

  method Record(p: Progress, r: ToolResult) returns (out: Progress)
    ensures out == Recorded(p, r)
  {
    out := p.(loaded := p.loaded + (set name | name in r.loads));
    if out.model == "" && r.model != "" {
      out := out.(model := r.model);
    }
    out := out.(messages := out.messages + [ResultMessage(r.callID, r.output)]);
  }

  method Consume<W>(env: Tools<W>, p: Progress, guards: Guards.GuardState, calls: seq<ToolCall>, i: nat, o: Outcome)
    returns (out: Progress)
    requires i < |calls| && guards.View() == p.guards && p.exit == Running
    modifies guards
    ensures out == Consumed(env, p, calls, i, o) && guards.View() == out.guards
  {
    hide Guards.ObserveResultSpec, Placeholders, Recorded, Halted;
    var r := o.result;
    KeptByRecord(p, r);
    out := Record(p, r);
    var abort := if o.abort.None? then env.cancelled(i) else o.abort;
    if abort.Some? {
      KeptByHalt(out, calls[i + 1..], Aborted(abort.value));
      out := Halt(out, calls[i + 1..], Aborted(abort.value));
      return;
    }
    if r.stop != "" {
      KeptByHalt(out, calls[i + 1..], Stopped(r.output, r.stop));
      out := Halt(out, calls[i + 1..], Stopped(r.output, r.stop));
      return;
    }
    var outcome := guards.ObserveToolResult(calls[i].name, r.failed, env.signature(r.output));
    out := out.(guards := guards.View());
    if outcome.stop {
      KeptByHalt(out, calls[i + 1..], Looping(calls[i].name, outcome.count));
      out := Halt(out, calls[i + 1..], Looping(calls[i].name, outcome.count));
      return;
    }
    if outcome.injectHint && out.hint.None? {
      out := out.(hint := Some(r));
    }
    if r.status == Ok && |r.changed| > 0 {
      out := out.(changed := out.changed + r.changed);
    }
  }

  lemma KeptByRecord(p: Progress, r: ToolResult)
    ensures var q := Recorded(p, r);
            q.guards == p.guards && q.hint == p.hint && q.changed == p.changed && q.exit == p.exit
  {
  }

  lemma KeptByHalt(p: Progress, rest: seq<ToolCall>, exit: Exit)
    ensures Halted(p, rest, exit).guards == p.guards
  {
  }

  /** Results of calls[start..end], executed ahead of their turn. */
  datatype Window = Window(start: nat, end: nat, results: seq<Outcome>)

  /** The calls run so far are the first |order|: those taken, or all up to the window's end. */
  ghost predicate Underway<W>(env: Tools<W>, world0: W, calls: seq<ToolCall>, w: Window, index: nat,
                              order: seq<nat>, known: seq<Outcome>, world: W) {
    && IsSchedule(env, calls, order) && InRange(calls, order) && Yields(env, world0, calls, order, known, world)
    && |known| == |order| == (if index < w.end then w.end else index)
    && w.start <= w.end && w.start <= index && AllSafe(env, calls, w.start, w.end)
    && (index < w.end ==> w.results == known[w.start..w.end] && (w.end < |calls| ==> !env.safe(calls[w.end])))
  }

  /** Where a stretch of two or more parallel-safe calls starts, all of it is executed at once. */
  method ReadAhead<W>(env: Tools<W>, world0: W, calls: seq<ToolCall>, index: nat, w0: Window,
                      order0: seq<nat>, known0: seq<Outcome>, world1: W)
    returns (w: Window, order: seq<nat>, known: seq<Outcome>, world: W)
    requires index < |calls| && Underway(env, world0, calls, w0, index, order0, known0, world1)
    ensures Underway(env, world0, calls, w, index, order, known, world)
    ensures known0 <= known
  {
    hide Yields, IsSchedule;
    w, order, known, world := w0, order0, known0, world1;
    if index >= w.end {
      var runEnd := ScanRun(env, calls, index);
      if runEnd - index >= 2 {
        var results;
        var ahead;
        results, world, ahead := ExecuteParallelReadBatch(env, world1, calls, index, runEnd);
        UnderwayGrows(env, world0, calls, order0, known0, world1, index, runEnd, ahead, results, world);
        w := Window(index, runEnd, results);
        order, known := order0 + Shifted(ahead, index), known0 + results;
        assert known[index..runEnd] == results;
      }
    }
  }

  /** The outcome of call `index`, from the window or executed now. */
  method Obtain<W>(env: Tools<W>, world0: W, calls: seq<ToolCall>, index: nat, w: Window,
                   order0: seq<nat>, known0: seq<Outcome>, world1: W)
    returns (o: Outcome, order: seq<nat>, known: seq<Outcome>, world: W)
    requires index < |calls| && Underway(env, world0, calls, w, index, order0, known0, world1)
    ensures Underway(env, world0, calls, w, index + 1, order, known, world)
    ensures known0 <= known && index < |known| && o == known[index]
  {
    order, known, world := order0, known0, world1;
    if w.start <= index < w.end {
      o := w.results[index - w.start];
    } else {
      var e := env.execute(world1, calls[index]);
      o, world := e.outcome, e.world;
      OneYields(env, world1, calls, index);
      UnderwayGrows(env, world0, calls, order0, known0, world1, index, index + 1, [0], [o], world);
      order, known := order0 + Shifted([0], index), known0 + [o];
    }
  }

  /** The batch. `order` lists the calls in the order they ran, `known` their outcomes by call, and the
      first `n` were taken; calls run ahead but not taken are the rest of one parallel-safe stretch. If
      such calls are independent, nothing tells the batch from one-by-one execution, except that on an
      early exit the rest of that stretch has run. */
  method RunBatch<W(!new)>(env: Tools<W>, world0: W, start: Progress, guards: Guards.GuardState, calls: seq<ToolCall>)
    returns (out: Progress, world: W, order: seq<nat>, known: seq<Outcome>, n: nat)
    requires guards.View() == start.guards && start.exit == Running
    modifies guards
    ensures guards.View() == out.guards
    ensures IsSchedule(env, calls, order) && InRange(calls, order) && Yields(env, world0, calls, order, known, world)
    ensures |known| == |order| && Takes(env, start, calls, known, n, out)
    ensures AllSafe(env, calls, n, |order|)
    ensures n < |order| < |calls| ==> !env.safe(calls[|order|])
    ensures Independent(env) ==> out == Sequential(env, world0, start, calls, |calls|).0
                                 && world == WorldAfter(env, world0, calls[..|order|])
    ensures Independent(env) && out.exit == Running ==> world == Sequential(env, world0, start, calls, |calls|).1
  {
    hide Consumed, Yields, IsSchedule, Independent, Sequential, Underway, AllSafe;
    out, order, known, world, n := start, [], [], world0, 0;
    var window := Window(0, 0, []);
    NothingUnderway(env, world0, calls);
    for index := 0 to |calls|
      invariant out.exit == Running && guards.View() == out.guards && n == index
      invariant Underway(env, world0, calls, window, index, order, known, world)
      invariant index <= |known| <= |calls| && out == Taken(env, start, calls, known, index)
    {
      ghost var before := known;
      window, order, known, world := ReadAhead(env, world0, calls, index, window, order, known, world);
      var o;
      UnderwayFits(env, world0, calls, window, index, order, known, world);
      o, order, known, world := Obtain(env, world0, calls, index, window, order, known, world);
      UnderwayFits(env, world0, calls, window, index + 1, order, known, world);
      TakenLater(env, start, calls, before, known, index);
      out := Consume(env, out, guards, calls, index, o);
      n := index + 1;
      if out.exit != Running {
        break;
      }
    }
    UnderwayFits(env, world0, calls, window, n, order, known, world);
    if Independent(env) {
      LooksSequential(env, world0, start, calls, order, known, world, n, out);
    }
  }

  lemma NothingUnderway<W>(env: Tools<W>, world: W, calls: seq<ToolCall>)
    ensures Underway(env, world, calls, Window(0, 0, []), 0, [], [], world)
  {
  }

  lemma UnderwayFits<W>(env: Tools<W>, world0: W, calls: seq<ToolCall>, w: Window, index: nat,
                        order: seq<nat>, known: seq<Outcome>, world: W)
    requires Underway(env, world0, calls, w, index, order, known, world)
    ensures IsSchedule(env, calls, order) && InRange(calls, order) && Yields(env, world0, calls, order, known, world)
    ensures |known| == |order| <= |calls| && index <= |order|
    ensures AllSafe(env, calls, index, |order|) && (index < |order| < |calls| ==> !env.safe(calls[|order|]))
  {
  }

  lemma {:induction false} TakenLater<W>(
    env: Tools<W>, start: Progress, calls: seq<ToolCall>, known: seq<Outcome>, more: seq<Outcome>, n: nat)
    requires n <= |known| && known <= more && |more| <= |calls|
    ensures Taken(env, start, calls, known, n) == Taken(env, start, calls, more, n)
  {
    hide Consumed;
    if n > 0 {
      TakenLater(env, start, calls, known, more, n - 1);
    }
  }

  // ---------------------------------------------------------------------------------------------
  // Independent batches look sequential
  // ---------------------------------------------------------------------------------------------

  lemma {:induction false} SequentialTakes<W>(
    env: Tools<W>, w: W, start: Progress, calls: seq<ToolCall>, known: seq<Outcome>, n: nat)
    requires n <= |known| <= |calls|
    requires forall k | 0 <= k < |known| :: known[k] == OutcomeAfter(env, w, calls[..k], calls[k])
    ensures Sequential(env, w, start, calls, n).0 == Taken(env, start, calls, known, n)
    ensures Sequential(env, w, start, calls, n).0.exit == Running ==> Sequential(env, w, start, calls, n).1 == WorldAfter(env, w, calls[..n])
  {
    if n == 0 {
      assert calls[..0] == [];
    } else {
      hide Consumed;
      SequentialTakes(env, w, start, calls, known, n - 1);
      assert calls[..n][..n - 1] == calls[..n - 1];
    }
  }

  lemma {:induction false} SequentialStops<W>(env: Tools<W>, w: W, start: Progress, calls: seq<ToolCall>, n: nat, m: nat)
    requires n <= m <= |calls| && Sequential(env, w, start, calls, n).0.exit != Running
    ensures Sequential(env, w, start, calls, m) == Sequential(env, w, start, calls, n)
  {
    if n < m {
      SequentialStops(env, w, start, calls, n, m - 1);
    }
  }

  lemma LooksSequential<W(!new)>(env: Tools<W>, w: W, start: Progress, calls: seq<ToolCall>, order: seq<nat>,
                                 known: seq<Outcome>, world: W, n: nat, out: Progress)
    requires Independent(env) && IsSchedule(env, calls, order) && InRange(calls, order)
    requires Yields(env, w, calls, order, known, world) && |known| == |order| && Takes(env, start, calls, known, n, out)
    ensures out == Sequential(env, w, start, calls, |calls|).0 && world == WorldAfter(env, w, calls[..|order|])
    ensures out.exit == Running ==> world == Sequential(env, w, start, calls, |calls|).1
  {
    hide Independent, WorldAfter, OutcomeAfter, Sequential, Taken;
    AnySchedule(env, w, calls, order);
    forall k | 0 <= k < |known| ensures known[k] == OutcomeAfter(env, w, calls[..k], calls[k]) {
      assert k in order;
      var p :| 0 <= p < |order| && order[p] == k;
      assert YieldsAt(env, w, calls, order, known, p) && SameOutcome(env, w, calls, order, p);
    }
    SequentialTakes(env, w, start, calls, known, n);
    if out.exit != Running {
      SequentialStops(env, w, start, calls, n, |calls|);
    }
  }

  // ---------------------------------------------------------------------------------------------
  // What a batch leaves behind
  // ---------------------------------------------------------------------------------------------

  function ResultMessages(known: seq<Outcome>): (r: seq<Message>)
    ensures |r| == |known|
    ensures forall k | 0 <= k < |known| :: r[k] == ResultMessage(known[k].result.callID, known[k].result.output)
  {
    seq(|known|, k requires 0 <= k < |known| => ResultMessage(known[k].result.callID, known[k].result.output))
  }

  /** The messages after `n` outcomes: their results, and if one of them ended the batch, placeholders. */
  lemma {:induction false} TakenShape<W>(env: Tools<W>, start: Progress, calls: seq<ToolCall>, known: seq<Outcome>, n: nat)
    requires n <= |known| <= |calls| && start.exit == Running
    requires n > 0 ==> Taken(env, start, calls, known, n - 1).exit == Running
    ensures var p := Taken(env, start, calls, known, n);
            p.messages == start.messages + (ResultMessages(known[..n]) + if p.exit == Running then [] else Placeholders(calls[n..]))
  {
    if n == 0 {
      assert start.messages + (ResultMessages(known[..0]) + []) == start.messages;
    } else {
      RunningBefore(env, start, calls, known, n - 1);
      TakenOne(env, start, calls, known, n);
      hide Taken, Consumed, Placeholders;
      TakenShape(env, start, calls, known, n - 1);
      var o := known[n - 1];
      ConsumedMessages(env, Taken(env, start, calls, known, n - 1), calls, n - 1, o);
      ResultsSnoc(known, n);
      var p, q := Taken(env, start, calls, known, n - 1), Taken(env, start, calls, known, n);
      hide ResultMessages;
      Regrouped(start.messages, ResultMessages(known[..n - 1]), ResultMessage(o.result.callID, o.result.output),
                if q.exit == Running then [] else Placeholders(calls[n..]), p.messages, q.messages);
    }
  }

  lemma ResultsSnoc(known: seq<Outcome>, n: nat)
    requires 0 < n <= |known|
    ensures var r := known[n - 1].result;
            ResultMessages(known[..n]) == ResultMessages(known[..n - 1]) + [ResultMessage(r.callID, r.output)]
  {
  }

  lemma ConsumedMessages<W>(env: Tools<W>, p: Progress, calls: seq<ToolCall>, i: nat, o: Outcome)
    requires i < |calls| && p.exit == Running
    ensures var q := Consumed(env, p, calls, i, o);
            q.messages == p.messages + [ResultMessage(o.result.callID, o.result.output)]
                          + if q.exit == Running then [] else Placeholders(calls[i + 1..])
  {
    hide Guards.ObserveResultSpec, Placeholders;
  }

  lemma RunningBefore<W>(env: Tools<W>, start: Progress, calls: seq<ToolCall>, known: seq<Outcome>, n: nat)
    requires n <= |known| <= |calls| && start.exit == Running && Taken(env, start, calls, known, n).exit == Running
    ensures n > 0 ==> Taken(env, start, calls, known, n - 1).exit == Running
  {
    hide Consumed;
  }

  lemma Regrouped(a: seq<Message>, b: seq<Message>, m: Message, tail: seq<Message>, before: seq<Message>, after: seq<Message>)
    requires before == a + (b + []) && after == before + [m] + tail
    ensures after == a + (b + [m] + tail)
  {
  }

  /** Whatever ends it, a batch adds the results of the calls it took, and placeholders for the rest. */
  lemma BatchShape<W>(env: Tools<W>, start: Progress, calls: seq<ToolCall>, known: seq<Outcome>, n: nat, out: Progress)
    requires start.exit == Running && Takes(env, start, calls, known, n, out)
    ensures out.messages == start.messages + (ResultMessages(known[..n]) + Placeholders(calls[n..]))
  {
    TakenShape(env, start, calls, known, n);
    assert n == |calls| ==> calls[n..] == [];
  }

  lemma {:induction false} PlaceholdersAnswer(calls: seq<ToolCall>)
    ensures Answers(calls, Placeholders(calls))
  {
    if calls != [] {
      PlaceholdersAnswer(calls[..|calls| - 1]);
    }
  }

  lemma AnswersJoin(a: seq<ToolCall>, b: seq<ToolCall>, ra: seq<Message>, rb: seq<Message>)
    requires Answers(a, ra) && Answers(b, rb)
    ensures Answers(a + b, ra + rb)
  {
  }

  lemma KnownIDs<W(!new)>(env: Tools<W>, w: W, calls: seq<ToolCall>, order: seq<nat>, known: seq<Outcome>, after: W)
    requires KeepsIDs(env) && IsSchedule(env, calls, order) && InRange(calls, order)
    requires Yields(env, w, calls, order, known, after) && |known| == |order|
    ensures forall k | 0 <= k < |known| :: known[k].result.callID == calls[k].id
  {
    forall k | 0 <= k < |known| ensures known[k].result.callID == calls[k].id {
      assert k in order;
      var p :| 0 <= p < |order| && order[p] == k;
      assert YieldsAt(env, w, calls, order, known, p);
    }
  }

  /** On every exit path, and in whatever order the calls ran, each advertised call has its result, in
      order, and nothing else was added. */
  lemma BatchAnswers<W>(env: Tools<W>, start: Progress, calls: seq<ToolCall>, known: seq<Outcome>, n: nat, out: Progress)
    returns (results: seq<Message>)
    requires start.exit == Running && Takes(env, start, calls, known, n, out)
    requires forall k | 0 <= k < |known| :: known[k].result.callID == calls[k].id
    ensures out.messages == start.messages + results && Answers(calls, results)
    ensures n <= |known| && results == ResultMessages(known[..n]) + Placeholders(calls[n..])
  {
    hide Taken, Placeholders;
    BatchShape(env, start, calls, known, n, out);
    PlaceholdersAnswer(calls[n..]);
    AnswersJoin(calls[..n], calls[n..], ResultMessages(known[..n]), Placeholders(calls[n..]));
    assert calls[..n] + calls[n..] == calls;
    results := ResultMessages(known[..n]) + Placeholders(calls[n..]);
  }

  /** What the failure guard is shown of the first `n` outcomes. */
  function Watched<W>(env: Tools<W>, calls: seq<ToolCall>, known: seq<Outcome>, n: nat): seq<Guards.ToolOutcome>
    requires n <= |known| <= |calls|
  {
    if n == 0 then []
    else
      var r := known[n - 1].result;
      Watched(env, calls, known, n - 1) + [Guards.ToolOutcome(calls[n - 1].name, r.failed, env.signature(r.output))]
  }

  /** An abort or a stop reason ends the batch before the guard sees that result. */
  function WatchedCount(exit: Exit, n: nat): nat {
    if n > 0 && (exit.Aborted? || exit.Stopped?) then n - 1 else n
  }

  ghost predicate ExitFits<W>(env: Tools<W>, p: Progress, calls: seq<ToolCall>, known: seq<Outcome>, n: nat, exit: Exit)
    requires 0 < n <= |known| <= |calls|
  {
    var o, i := known[n - 1], n - 1;
    match exit
    case Running => true
    case Aborted(error) => o.abort == Some(error) || (o.abort.None? && env.cancelled(i) == Some(error))
    case Stopped(answer, reason) => o.abort.None? && o.result.stop == reason != "" && o.result.output == answer
    case Looping(tool, count) =>
      var outcome := Guards.ObserveResultSpec(p.guards, calls[i].name, o.result.failed, env.signature(o.result.output)).1;
      tool == calls[i].name && o.result.failed && outcome.stop && count == outcome.count
  }

  lemma ConsumedFits<W>(env: Tools<W>, p: Progress, calls: seq<ToolCall>, known: seq<Outcome>, n: nat)
    requires 0 < n <= |known| <= |calls| && p.exit == Running
    ensures var q, r := Consumed(env, p, calls, n - 1, known[n - 1]), known[n - 1].result;
            && ExitFits(env, p, calls, known, n, q.exit)
            && q.guards == (if q.exit.Aborted? || q.exit.Stopped? then p.guards
                            else Guards.ObserveResultSpec(p.guards, calls[n - 1].name, r.failed, env.signature(r.output)).0)
  {
  }

  /** What ended the batch is there to see in the last outcome taken. */
  lemma ExitIsSeen<W>(env: Tools<W>, start: Progress, calls: seq<ToolCall>, known: seq<Outcome>, n: nat)
    requires 0 < n <= |known| <= |calls| && Taken(env, start, calls, known, n - 1).exit == Running
    ensures ExitFits(env, Taken(env, start, calls, known, n - 1), calls, known, n, Taken(env, start, calls, known, n).exit)
  {
    hide Consumed, ExitFits;
    ConsumedFits(env, Taken(env, start, calls, known, n - 1), calls, known, n);
  }

  lemma TakenOne<W>(env: Tools<W>, start: Progress, calls: seq<ToolCall>, known: seq<Outcome>, n: nat)
    requires 0 < n <= |known| <= |calls| && Taken(env, start, calls, known, n - 1).exit == Running
    ensures Taken(env, start, calls, known, n)
            == Consumed(env, Taken(env, start, calls, known, n - 1), calls, n - 1, known[n - 1])
  {
    hide Consumed;
  }

  /** The failure records after `n` outcomes are those of the results the guard was shown. */
  ghost predicate GuardsFit<W>(env: Tools<W>, start: Progress, calls: seq<ToolCall>, known: seq<Outcome>, n: nat)
    requires n <= |known| <= |calls|
  {
    var p := Taken(env, start, calls, known, n);
    p.guards == Guards.AfterResults(start.guards, Watched(env, calls, known, WatchedCount(p.exit, n)))
  }

  lemma GuardsStep<W>(env: Tools<W>, start: Progress, calls: seq<ToolCall>, known: seq<Outcome>, n: nat)
    requires 0 < n <= |known| <= |calls| && Taken(env, start, calls, known, n - 1).exit == Running
    requires GuardsFit(env, start, calls, known, n - 1)
    ensures GuardsFit(env, start, calls, known, n)
  {
    hide Consumed, ExitFits, Guards.ObserveResultSpec, Guards.AfterResults;
    var p, r := Taken(env, start, calls, known, n - 1), known[n - 1].result;
    var q, before := Consumed(env, p, calls, n - 1, known[n - 1]), Watched(env, calls, known, n - 1);
    var o := Guards.ToolOutcome(calls[n - 1].name, r.failed, env.signature(r.output));
    TakenOne(env, start, calls, known, n);
    WatchedLast(env, calls, known, n);
    assert WatchedCount(Running, n - 1) == n - 1;
    hide Taken, Watched;
    ConsumedFits(env, p, calls, known, n);
    Guards.AfterResultsSnoc(start.guards, before, o);
    if q.exit.Aborted? || q.exit.Stopped? {
      assert WatchedCount(q.exit, n) == n - 1;
    } else {
      assert WatchedCount(q.exit, n) == n;
    }
  }

  lemma WatchedLast<W>(env: Tools<W>, calls: seq<ToolCall>, known: seq<Outcome>, n: nat)
    requires 0 < n <= |known| <= |calls|
    ensures var r := known[n - 1].result;
            Watched(env, calls, known, n) == Watched(env, calls, known, n - 1)
                                             + [Guards.ToolOutcome(calls[n - 1].name, r.failed, env.signature(r.output))]
  {
  }

  lemma NothingWatched<W>(env: Tools<W>, start: Progress, calls: seq<ToolCall>, known: seq<Outcome>)
    requires |known| <= |calls|
    ensures GuardsFit(env, start, calls, known, 0)
  {
  }

  /** This holds however far the batch got. */
  lemma {:induction false} GuardsFollow<W>(env: Tools<W>, start: Progress, calls: seq<ToolCall>, known: seq<Outcome>, n: nat)
    requires n <= |known| <= |calls| && start.exit == Running
    requires n > 0 ==> Taken(env, start, calls, known, n - 1).exit == Running
    ensures GuardsFit(env, start, calls, known, n)
  {
    hide GuardsFit, Taken;
    NothingWatched(env, start, calls, known);
    if n > 0 {
      RunningBefore(env, start, calls, known, n - 1);
      GuardsFollow(env, start, calls, known, n - 1);
      GuardsStep(env, start, calls, known, n);
    }
  }

  /** What an exit says about the outcomes taken, and about all the results the failure guard was shown. */
  ghost predicate ExitMeans<W>(env: Tools<W>, known: seq<Outcome>, n: nat, trace: seq<Guards.ToolOutcome>, exit: Exit)
    requires n <= |known|
  {
    match exit
    case Running => true
    case Aborted(error) =>
      n > 0 && (known[n - 1].abort == Some(error) || (known[n - 1].abort.None? && env.cancelled(n - 1) == Some(error)))
    case Stopped(answer, reason) =>
      n > 0 && known[n - 1].abort.None? && known[n - 1].result.stop == reason != "" && known[n - 1].result.output == answer
    case Looping(tool, count) => LoopingMeans(trace, tool, count)
  }

  /** The last result shown is that tool's, and it has failed the same way so many times in a row. */
  ghost predicate LoopingMeans(trace: seq<Guards.ToolOutcome>, tool: string, count: nat) {
    && trace != [] && trace[|trace| - 1].name == tool && trace[|trace| - 1].failed
    && count == Guards.FailureRun(trace, tool, trace[|trace| - 1].sig) >= 6
  }

  /** A batch adds to the run's trace what the guard was shown, and ends for the reason it gives. */
  lemma BatchTraced<W>(env: Tools<W>, start: Progress, calls: seq<ToolCall>, known: seq<Outcome>, n: nat, out: Progress,
                       before: seq<Guards.ToolOutcome>)
    requires start.exit == Running && Takes(env, start, calls, known, n, out)
    requires start.guards.toolFailures == Guards.AfterResults(Guards.FRESH, before).toolFailures
    ensures var trace := before + Watched(env, calls, known, WatchedCount(out.exit, n));
            && out.guards == start.guards.(toolFailures := out.guards.toolFailures)
            && out.guards.toolFailures == Guards.AfterResults(Guards.FRESH, trace).toolFailures
            && ExitMeans(env, known, n, trace, out.exit)
  {
    var watched := Watched(env, calls, known, WatchedCount(out.exit, n));
    GuardsFollow(env, start, calls, known, n);
    Guards.ResultsMoveOnlyRecords(start.guards, watched);
    Guards.RecordsCarryOn(start.guards, before, watched);
    if out.exit != Running {
      ExitIsSeen(env, start, calls, known, n);
      if out.exit.Looping? {
        LoopSeen(env, start, calls, known, n, out, before);
      }
    }
  }

  lemma LoopSeen<W>(env: Tools<W>, start: Progress, calls: seq<ToolCall>, known: seq<Outcome>, n: nat, out: Progress,
                    before: seq<Guards.ToolOutcome>)
    requires start.exit == Running && Takes(env, start, calls, known, n, out) && n > 0 && out.exit.Looping?
    requires start.guards.toolFailures == Guards.AfterResults(Guards.FRESH, before).toolFailures
    ensures LoopingMeans(before + Watched(env, calls, known, n), out.exit.tool, out.exit.count)
  {
    hide Consumed, Guards.ObserveResultSpec, Guards.FailureRun, Guards.AfterResults;
    var p, r, seen := Taken(env, start, calls, known, n - 1), known[n - 1].result, Watched(env, calls, known, n - 1);
    var o := Guards.ToolOutcome(calls[n - 1].name, r.failed, env.signature(r.output));
    RunningBefore(env, start, calls, known, n - 1);
    GuardsFollow(env, start, calls, known, n - 1);
    Guards.RecordsCarryOn(start.guards, before, seen);
    Guards.FailureGuardInRun(p.guards, before + seen, o);
    ExitIsSeen(env, start, calls, known, n);
    WatchedLast(env, calls, known, n);
    assert before + (seen + [o]) == before + seen + [o];
  }

  // ---------------------------------------------------------------------------------------------
  // Where a batch stops
  // ---------------------------------------------------------------------------------------------

  /** What call `i` gives to stop for: its abort or the context's cancellation, else its stop reason, else the
      sixth failure of its tool in a row, counted over the run's whole trace. */
  ghost predicate StopsFor<W>(env: Tools<W>, before: seq<Guards.ToolOutcome>, calls: seq<ToolCall>, known: seq<Outcome>, i: nat, exit: Exit)
    requires i < |known| <= |calls|
  {
    var o := known[i];
    var sig := env.signature(o.result.output);
    var run := Guards.FailureRun(before + Watched(env, calls, known, i + 1), calls[i].name, sig);
    if o.abort.Some? then exit == Aborted(o.abort.value)
    else if env.cancelled(i).Some? then exit == Aborted(env.cancelled(i).value)
    else if o.result.stop != "" then exit == Stopped(o.result.output, o.result.stop)
    else if o.result.failed && run >= 6 then exit == Looping(calls[i].name, run)
    else exit == Running
  }

  /** The batch took its outcomes up to the first that gives something to stop for, and all if none does. */
  ghost predicate StopsAtFirst<W>(env: Tools<W>, before: seq<Guards.ToolOutcome>, calls: seq<ToolCall>, known: seq<Outcome>,
                                  n: nat, exit: Exit)
  {
    && n <= |known| <= |calls|
    && (forall i | 0 <= i < n - 1 :: StopsFor(env, before, calls, known, i, Running))
    && (if n == 0 then exit == Running else StopsFor(env, before, calls, known, n - 1, exit))
    && (exit == Running ==> n == |calls|)
  }

  lemma ConsumedStops<W>(env: Tools<W>, before: seq<Guards.ToolOutcome>, p: Progress, calls: seq<ToolCall>, known: seq<Outcome>, i: nat)
    requires i < |known| <= |calls| && p.exit == Running
    requires p.guards.toolFailures == Guards.AfterResults(Guards.FRESH, before + Watched(env, calls, known, i)).toolFailures
    ensures StopsFor(env, before, calls, known, i, Consumed(env, p, calls, i, known[i]).exit)
  {
    hide Guards.AfterResults, Guards.FailureRun, Guards.ObserveResultSpec, Placeholders;
    var r := known[i].result;
    var o := Guards.ToolOutcome(calls[i].name, r.failed, env.signature(r.output));
    var seen := before + Watched(env, calls, known, i);
    WatchedLast(env, calls, known, i + 1);
    assert before + Watched(env, calls, known, i + 1) == seen + [o];
    Guards.FailureGuardInRun(p.guards, seen, o);
  }

  lemma {:induction false} TakenStops<W>(env: Tools<W>, before: seq<Guards.ToolOutcome>, start: Progress, calls: seq<ToolCall>,
                                         known: seq<Outcome>, n: nat)
    requires 0 < n <= |known| <= |calls| && start.exit == Running && Taken(env, start, calls, known, n - 1).exit == Running
    requires start.guards.toolFailures == Guards.AfterResults(Guards.FRESH, before).toolFailures
    ensures forall i | 0 <= i < n - 1 :: StopsFor(env, before, calls, known, i, Running)
    ensures StopsFor(env, before, calls, known, n - 1, Taken(env, start, calls, known, n).exit)
  {
    hide Consumed, StopsFor, Guards.AfterResults, Watched, Taken;
    RunningBefore(env, start, calls, known, n - 1);
    if n > 1 {
      TakenStops(env, before, start, calls, known, n - 1);
    }
    RecordsSoFar(env, before, start, calls, known, n - 1);
    TakenOne(env, start, calls, known, n);
    ConsumedStops(env, before, Taken(env, start, calls, known, n - 1), calls, known, n - 1);
  }

  lemma RecordsSoFar<W>(env: Tools<W>, before: seq<Guards.ToolOutcome>, start: Progress, calls: seq<ToolCall>, known: seq<Outcome>, n: nat)
    requires n <= |known| <= |calls| && start.exit == Running && Taken(env, start, calls, known, n).exit == Running
    requires start.guards.toolFailures == Guards.AfterResults(Guards.FRESH, before).toolFailures
    ensures Taken(env, start, calls, known, n).guards.toolFailures
            == Guards.AfterResults(Guards.FRESH, before + Watched(env, calls, known, n)).toolFailures
  {
    hide Guards.AfterResults, Watched, Taken;
    RunningBefore(env, start, calls, known, n);
    GuardsFollow(env, start, calls, known, n);
    Guards.RecordsCarryOn(start.guards, before, Watched(env, calls, known, n));
  }

  /** Every batch stops exactly where it must: at the first outcome that carries an abort, a cancellation, a
      stop reason or a sixth failure in a row, for the first of these it carries; and nowhere else. */
  lemma BatchStops<W>(env: Tools<W>, before: seq<Guards.ToolOutcome>, start: Progress, calls: seq<ToolCall>, known: seq<Outcome>,
                      n: nat, out: Progress)
    requires start.exit == Running && Takes(env, start, calls, known, n, out)
    requires start.guards.toolFailures == Guards.AfterResults(Guards.FRESH, before).toolFailures
    ensures StopsAtFirst(env, before, calls, known, n, out.exit)
  {
    hide StopsFor, Guards.AfterResults;
    if n > 0 {
      TakenStops(env, before, start, calls, known, n);
    }
  }

  // ---------------------------------------------------------------------------------------------
  // What a batch takes along
  // ---------------------------------------------------------------------------------------------

  /** How many results the batch went on from. */
  function WentOn(exit: Exit, n: nat): nat { if n > 0 && exit != Running then n - 1 else n }

  /** The result is the second failure of its tool in a row, counted over the run's whole trace. */
  ghost predicate CallsForHint<W>(env: Tools<W>, before: seq<Guards.ToolOutcome>, calls: seq<ToolCall>, known: seq<Outcome>, i: nat)
    requires i < |known| <= |calls|
  {
    var r := known[i].result;
    r.failed && Guards.FailureRun(before + Watched(env, calls, known, i + 1), calls[i].name, env.signature(r.output)) == 2
  }

  /** Tools are loaded by every result taken; the model asked for is the first named; files count as changed by
      successful results, in order; the hint is for the first result that calls for one. */
  ghost predicate TakesAlong<W>(env: Tools<W>, before: seq<Guards.ToolOutcome>, start: Progress, calls: seq<ToolCall>,
                                known: seq<Outcome>, n: nat, out: Progress)
    requires n <= |known| <= |calls|
  {
    var went := WentOn(out.exit, n);
    && (forall name :: name in out.loaded <==> name in start.loaded || exists k :: 0 <= k < n && name in known[k].result.loads)
    && FirstNamed(start.model, known, n, out.model)
    && FilesChanged(start.changed, known, went, out.changed)
    && HintIsFirst(env, before, start.hint, calls, known, went, out.hint)
  }

  ghost predicate FirstNamed(model0: string, known: seq<Outcome>, n: nat, model: string)
    requires n <= |known|
  {
    if model0 != "" then model == model0
    else if model == "" then forall k | 0 <= k < n :: known[k].result.model == ""
    else exists k :: 0 <= k < n && known[k].result.model == model && forall j | 0 <= j < k :: known[j].result.model == ""
  }

  /** `changed` is what was there and then each successful result's files. */
  ghost predicate FilesChanged(changed0: seq<string>, known: seq<Outcome>, n: nat, changed: seq<string>)
    requires n <= |known|
  {
    exists starts: seq<nat> :: FilesStartAt(starts, changed0, known, n, changed)
  }

  ghost predicate FilesStartAt(starts: seq<nat>, changed0: seq<string>, known: seq<Outcome>, n: nat, changed: seq<string>)
    requires n <= |known|
  {
    && |starts| == n + 1 && starts[0] == |changed0| && starts[n] == |changed|
    && changed0 <= changed && forall k | 0 <= k < n :: FilesAt(known[k].result, starts[k], starts[k + 1], changed)
  }

  predicate FilesAt(r: ToolResult, from: nat, to: nat, changed: seq<string>) {
    from <= to <= |changed| && changed[from..to] == if r.status == Ok then r.changed else []
  }

  ghost predicate HintIsFirst<W>(env: Tools<W>, before: seq<Guards.ToolOutcome>, hint0: Option<ToolResult>, calls: seq<ToolCall>,
                                 known: seq<Outcome>, n: nat, hint: Option<ToolResult>)
    requires n <= |known| <= |calls|
  {
    if hint0.Some? then hint == hint0
    else if hint.None? then forall k | 0 <= k < n :: !CallsForHint(env, before, calls, known, k)
    else exists k :: 0 <= k < n && CallsForHint(env, before, calls, known, k) && hint == Some(known[k].result)
                     && forall j | 0 <= j < k :: !CallsForHint(env, before, calls, known, j)
  }

  /** One more result taken along. */
  ghost predicate AlongStep<W>(env: Tools<W>, before: seq<Guards.ToolOutcome>, p: Progress, q: Progress, calls: seq<ToolCall>,
                               known: seq<Outcome>, i: nat)
    requires i < |known| <= |calls|
  {
    var r := known[i].result;
    && (forall name :: name in q.loaded <==> name in p.loaded || name in r.loads)
    && q.model == (if p.model == "" then r.model else p.model)
    && (if q.exit != Running then q.changed == p.changed && q.hint == p.hint
        else q.changed == p.changed + (if r.status == Ok then r.changed else [])
             && q.hint == if p.hint.None? && CallsForHint(env, before, calls, known, i) then Some(r) else p.hint)
  }

  lemma ConsumedAlong<W>(env: Tools<W>, before: seq<Guards.ToolOutcome>, p: Progress, calls: seq<ToolCall>, known: seq<Outcome>, i: nat)
    requires i < |known| <= |calls| && p.exit == Running
    requires p.guards.toolFailures == Guards.AfterResults(Guards.FRESH, before + Watched(env, calls, known, i)).toolFailures
    ensures AlongStep(env, before, p, Consumed(env, p, calls, i, known[i]), calls, known, i)
  {
    hide Guards.AfterResults, Guards.FailureRun, Guards.ObserveResultSpec, Placeholders;
    var r := known[i].result;
    var o := Guards.ToolOutcome(calls[i].name, r.failed, env.signature(r.output));
    var seen := before + Watched(env, calls, known, i);
    WatchedLast(env, calls, known, i + 1);
    assert before + Watched(env, calls, known, i + 1) == seen + [o];
    Guards.FailureGuardInRun(p.guards, seen, o);
  }

  lemma MoreFiles(changed0: seq<string>, known: seq<Outcome>, n: nat, changed: seq<string>, more: seq<string>)
    requires n < |known| && FilesChanged(changed0, known, n, changed)
    requires more == changed + if known[n].result.status == Ok then known[n].result.changed else []
    ensures FilesChanged(changed0, known, n + 1, more)
  {
    hide FilesAt;
    var starts: seq<nat> :| FilesStartAt(starts, changed0, known, n, changed);
    var longer: seq<nat> := starts + [|more|];
    forall k | 0 <= k < n + 1 ensures FilesAt(known[k].result, longer[k], longer[k + 1], more) {
      if k < n {
        FilesStay(known[k].result, starts[k], starts[k + 1], changed, more);
      } else {
        FilesLast(known[n].result, changed, more);
      }
    }
    assert FilesStartAt(longer, changed0, known, n + 1, more);
  }

  lemma FilesStay(r: ToolResult, from: nat, to: nat, changed: seq<string>, more: seq<string>)
    requires FilesAt(r, from, to, changed) && changed <= more
    ensures FilesAt(r, from, to, more)
  {
    assert more[..|changed|][from..to] == more[from..to];
  }

  lemma FilesLast(r: ToolResult, changed: seq<string>, more: seq<string>)
    requires more == changed + if r.status == Ok then r.changed else []
    ensures FilesAt(r, |changed|, |more|, more)
  {
  }

  lemma AlongNothing<W>(env: Tools<W>, before: seq<Guards.ToolOutcome>, start: Progress, calls: seq<ToolCall>, known: seq<Outcome>)
    requires |known| <= |calls| && start.exit == Running
    ensures TakesAlong(env, before, start, calls, known, 0, start)
  {
    assert FilesStartAt([|start.changed|], start.changed, known, 0, start.changed);
  }

  lemma AlongMore<W>(env: Tools<W>, before: seq<Guards.ToolOutcome>, start: Progress, p: Progress, q: Progress, calls: seq<ToolCall>,
                     known: seq<Outcome>, i: nat)
    requires i < |known| <= |calls| && p.exit == Running
    requires TakesAlong(env, before, start, calls, known, i, p) && AlongStep(env, before, p, q, calls, known, i)
    ensures TakesAlong(env, before, start, calls, known, i + 1, q)
  {
    hide FilesChanged, CallsForHint;
    if q.exit == Running {
      MoreFiles(start.changed, known, i, p.changed, q.changed);
    }
  }

  lemma {:induction false} TakenAlong<W>(env: Tools<W>, before: seq<Guards.ToolOutcome>, start: Progress, calls: seq<ToolCall>,
                                         known: seq<Outcome>, n: nat)
    requires n <= |known| <= |calls| && start.exit == Running && (n > 0 ==> Taken(env, start, calls, known, n - 1).exit == Running)
    requires start.guards.toolFailures == Guards.AfterResults(Guards.FRESH, before).toolFailures
    ensures TakesAlong(env, before, start, calls, known, n, Taken(env, start, calls, known, n))
  {
    hide Consumed, TakesAlong, AlongStep, Guards.AfterResults, Watched;
    if n == 0 {
      AlongNothing(env, before, start, calls, known);
    } else {
      RunningBefore(env, start, calls, known, n - 1);
      TakenAlong(env, before, start, calls, known, n - 1);
      RecordsSoFar(env, before, start, calls, known, n - 1);
      TakenOne(env, start, calls, known, n);
      var p := Taken(env, start, calls, known, n - 1);
      ConsumedAlong(env, before, p, calls, known, n - 1);
      AlongMore(env, before, start, p, Taken(env, start, calls, known, n), calls, known, n - 1);
    }
  }

  /** What a batch takes along besides its messages, whatever ends it. */
  lemma BatchTakesAlong<W>(env: Tools<W>, before: seq<Guards.ToolOutcome>, start: Progress, calls: seq<ToolCall>, known: seq<Outcome>,
                           n: nat, out: Progress)
    requires start.exit == Running && Takes(env, start, calls, known, n, out)
    requires start.guards.toolFailures == Guards.AfterResults(Guards.FRESH, before).toolFailures
    ensures TakesAlong(env, before, start, calls, known, n, out)
  {
    hide TakesAlong, Guards.AfterResults, Taken;
    TakenAlong(env, before, start, calls, known, n);
  }
}
