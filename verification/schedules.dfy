/** Tool calls run in whatever order the scheduler picks. Stretches of parallel-safe calls run
    concurrently; whether such an order can be told from the original one is a question about the tools. */
module Schedules {
  import opened Text
  import opened Transcript
  import Guards

  datatype Status = Ok | Error

  /** `failed` tells a retriable failure; `stop` is a stop reason, "" for none. */
  datatype ToolResult = ToolResult(
    callID: string, output: string, status: Status, failed: bool, stop: string,
    loads: seq<string>, model: string, changed: seq<string>)

  /** What executing a call hands back: a result, and an abort if it demands one. */
  datatype Outcome = Outcome(result: ToolResult, abort: Option<string>)

  /** `world` is everything a tool may read or change: files, the record of files read, the plan. */
  datatype Execution<W> = Execution(outcome: Outcome, world: W)

  /** What surrounds a batch. `cancelled(i)` is the context's error once call `i` is done, and
      `signature` the error signature of an output. */
  datatype Tools<!W> = Tools(
    execute: (W, ToolCall) -> Execution<W>,
    safe: ToolCall -> bool,
    cancelled: nat -> Option<string>,
    signature: string -> string)

  /** Every return path of a tool execution carries the id of its call. */
  ghost predicate KeepsIDs<W(!new)>(env: Tools<W>) {
    forall w: W, c :: env.execute(w, c).outcome.result.callID == c.id
  }

  /** Running `d` first is nothing `c` can tell. */
  ghost predicate Unaffected<W>(env: Tools<W>, w: W, c: ToolCall, d: ToolCall) {
    env.execute(env.execute(w, d).world, c).outcome == env.execute(w, c).outcome
  }

  /** The effects of `c` and `d` are the same in either order. */
  ghost predicate Commute<W>(env: Tools<W>, w: W, c: ToolCall, d: ToolCall) {
    env.execute(env.execute(w, c).world, d).world == env.execute(env.execute(w, d).world, c).world
  }

  /** Parallel-safe calls may have effects, such as recording what was read, but not on one another. */
  ghost predicate Independent<W(!new)>(env: Tools<W>) {
    forall w: W, c, d | env.safe(c) && env.safe(d) :: Unaffected(env, w, c, d) && Commute(env, w, c, d)
  }

  // ---------------------------------------------------------------------------------------------
  // Executing calls, in whatever order
  // ---------------------------------------------------------------------------------------------

  function WorldAfter<W>(env: Tools<W>, world: W, calls: seq<ToolCall>): W {
    if calls == [] then world
    else env.execute(WorldAfter(env, world, calls[..|calls| - 1]), calls[|calls| - 1]).world
  }

  /** What `call` would give once `before` have run. */
  function OutcomeAfter<W>(env: Tools<W>, world: W, before: seq<ToolCall>, call: ToolCall): Outcome {
    env.execute(WorldAfter(env, world, before), call).outcome
  }

  ghost predicate InRange(calls: seq<ToolCall>, order: seq<nat>) {
    forall p | 0 <= p < |order| :: order[p] < |calls|
  }

  function Picked(calls: seq<ToolCall>, order: seq<nat>): (r: seq<ToolCall>)
    requires InRange(calls, order)
    ensures |r| == |order| && forall p | 0 <= p < |order| :: r[p] == calls[order[p]]
  {
    seq(|order|, p requires 0 <= p < |order| => calls[order[p]])
  }

  ghost predicate Distinct(order: seq<nat>) {
    forall p, q | 0 <= p < q < |order| :: order[p] != order[q]
  }

  ghost predicate AllSafe<W>(env: Tools<W>, calls: seq<ToolCall>, start: nat, end: nat) {
    end <= |calls| && forall k | start <= k < end :: env.safe(calls[k])
  }

  /** Calls leave their original order only inside a stretch of parallel-safe calls. */
  ghost predicate CrossesOnlySafe<W>(env: Tools<W>, calls: seq<ToolCall>, order: seq<nat>) {
    forall p, q | 0 <= p < q < |order| && order[q] < order[p] :: AllSafe(env, calls, order[q], order[p] + 1)
  }

  /** An order in which the first |order| calls may have run, each once. */
  ghost predicate IsSchedule<W>(env: Tools<W>, calls: seq<ToolCall>, order: seq<nat>) {
    && |order| <= |calls| && Distinct(order) && CrossesOnlySafe(env, calls, order)
    && forall k: nat :: k in order <==> k < |order|
  }

  /** Running the calls in this order hands back `known`, filed by call, and leaves `after`. */
  ghost predicate Yields<W>(env: Tools<W>, world: W, calls: seq<ToolCall>, order: seq<nat>, known: seq<Outcome>, after: W)
    requires InRange(calls, order)
  {
    && after == WorldAfter(env, world, Picked(calls, order))
    && forall p | 0 <= p < |order| :: YieldsAt(env, world, calls, order, known, p)
  }

  ghost predicate YieldsAt<W>(env: Tools<W>, world: W, calls: seq<ToolCall>, order: seq<nat>, known: seq<Outcome>, p: nat)
    requires InRange(calls, order) && p < |order|
  {
    && order[p] < |known|
    && known[order[p]] == OutcomeAfter(env, world, Picked(calls, order[..p]), calls[order[p]])
  }

  // ---------------------------------------------------------------------------------------------
  // The code
  // ---------------------------------------------------------------------------------------------

  /** The concurrent run of calls[start..end]: its members run in whatever order they like. `order` is
      that order, counted from `start`. */
  method ExecuteParallelReadBatch<W>(env: Tools<W>, world0: W, calls: seq<ToolCall>, start: nat, end: nat)
    returns (results: seq<Outcome>, world: W, order: seq<nat>)
    requires start <= end <= |calls|
    ensures |results| == |order| == end - start && Distinct(order)
    ensures forall k: nat :: k in order <==> k < end - start
    ensures InRange(calls[start..end], order) && Yields(env, world0, calls[start..end], order, results, world)
  {
    var slots := new Outcome[end - start];
    var batch := calls[start..end];
    world, order := world0, [];
    var pending: set<nat> := {};
    for index := 0 to end - start
      invariant forall k: nat :: k in pending <==> k < index
      invariant |pending| == index
    {
      pending := pending + {index};
    }
    while pending != {}
      invariant forall k | k in pending :: k < end - start
      invariant |order| + |pending| == end - start
      invariant Distinct(order) && forall k: nat :: k in order <==> k < end - start && k !in pending
      invariant InRange(batch, order) && Yields(env, world0, batch, order, slots[..], world)
      decreases |pending|
    {
      var k :| k in pending;
      var e := env.execute(world, batch[k]);
      YieldsSnoc(env, world0, batch, order, slots[..], world, k);
      DistinctSnoc(order, k);
      slots[k] := e.outcome;
      world := e.world;
      pending := pending - {k};
      order := order + [k];
    }
    results := slots[..];
  }

  lemma YieldsSnoc<W>(env: Tools<W>, world: W, calls: seq<ToolCall>, order: seq<nat>, known: seq<Outcome>, after: W, k: nat)
    requires InRange(calls, order) && Yields(env, world, calls, order, known, after)
    requires k < |calls| && k < |known| && k !in order
    ensures var e := env.execute(after, calls[k]);
            Yields(env, world, calls, order + [k], known[k := e.outcome], e.world)
  {
    var e, longer := env.execute(after, calls[k]), order + [k];
    var known' := known[k := e.outcome];
    assert Picked(calls, longer)[..|order|] == Picked(calls, order);
    forall p | 0 <= p < |longer| ensures YieldsAt(env, world, calls, longer, known', p) {
      assert longer[..p] == order[..p];
      if p < |order| {
        assert YieldsAt(env, world, calls, order, known, p);
        assert order[p] in order;
      } else {
        assert order[..p] == order;
      }
    }
  }

  lemma DistinctSnoc(order: seq<nat>, k: nat)
    requires Distinct(order) && k !in order
    ensures Distinct(order + [k])
  {
  }

  method ScanRun<W>(env: Tools<W>, calls: seq<ToolCall>, index: nat) returns (runEnd: nat)
    requires index <= |calls|
    ensures index <= runEnd <= |calls| && AllSafe(env, calls, index, runEnd)
    ensures runEnd < |calls| ==> !env.safe(calls[runEnd])
  {
    runEnd := index;
    while runEnd < |calls| && env.safe(calls[runEnd])
      invariant index <= runEnd <= |calls| && AllSafe(env, calls, index, runEnd)
    {
      runEnd := runEnd + 1;
    }
  }

  function Shifted(order: seq<nat>, shift: nat): (r: seq<nat>)
    ensures |r| == |order| && forall p | 0 <= p < |order| :: r[p] == order[p] + shift
  {
    seq(|order|, p requires 0 <= p < |order| => order[p] + shift)
  }

  lemma OneYields<W>(env: Tools<W>, world: W, calls: seq<ToolCall>, index: nat)
    requires index < |calls|
    ensures var e := env.execute(world, calls[index]);
            Yields(env, world, calls[index..index + 1], [0], [e.outcome], e.world)
  {
    var one := calls[index..index + 1];
    var e := env.execute(world, calls[index]);
    assert Picked(one, [0]) == [calls[index]] && [calls[index]][..0] == [] && Picked(one, [0][..0]) == [];
    assert YieldsAt(env, world, one, [0], [e.outcome], 0);
  }

  /** A schedule goes on with any arrangement of the next stretch, of one call or of parallel-safe ones. */
  lemma UnderwayGrows<W>(env: Tools<W>, world0: W, calls: seq<ToolCall>, order: seq<nat>, known: seq<Outcome>, world: W,
                         from: nat, to: nat, ahead: seq<nat>, results: seq<Outcome>, after: W)
    requires from < to <= |calls| && (to == from + 1 || AllSafe(env, calls, from, to))
    requires IsSchedule(env, calls, order) && InRange(calls, order) && Yields(env, world0, calls, order, known, world)
    requires |known| == |order| == from
    requires |results| == |ahead| == to - from && Distinct(ahead) && forall k: nat :: k in ahead <==> k < to - from
    requires InRange(calls[from..to], ahead) && Yields(env, world, calls[from..to], ahead, results, after)
    ensures var order', known' := order + Shifted(ahead, from), known + results;
            IsSchedule(env, calls, order') && InRange(calls, order') && Yields(env, world0, calls, order', known', after)
  {
    hide Yields;
    ScheduleGrows(env, calls, order, ahead, from, to);
    YieldsGrow(env, world0, calls, order, known, world, from, to, ahead, results, after);
  }

  lemma ScheduleGrows<W>(env: Tools<W>, calls: seq<ToolCall>, order: seq<nat>, ahead: seq<nat>, from: nat, to: nat)
    requires from < to <= |calls| && (to == from + 1 || AllSafe(env, calls, from, to))
    requires IsSchedule(env, calls, order) && |order| == from
    requires |ahead| == to - from && Distinct(ahead) && forall k: nat :: k in ahead <==> k < to - from
    ensures var all := order + Shifted(ahead, from); IsSchedule(env, calls, all) && InRange(calls, all)
  {
    var shifted := Shifted(ahead, from);
    var all := order + shifted;
    forall p | 0 <= p < |all| ensures if p < from then all[p] < from else from <= all[p] < to {
      if p < from {
        assert order[p] in order;
      } else {
        assert ahead[p - from] in ahead;
      }
    }
    forall k: nat ensures k in all <==> k < to {
      if from <= k < to {
        assert k - from in ahead;
        var p :| 0 <= p < |ahead| && ahead[p] == k - from;
        assert shifted[p] == k;
      }
    }
  }

  lemma PickedShifted(calls: seq<ToolCall>, from: nat, to: nat, ahead: seq<nat>)
    requires from <= to <= |calls| && InRange(calls[from..to], ahead) && InRange(calls, Shifted(ahead, from))
    ensures Picked(calls, Shifted(ahead, from)) == Picked(calls[from..to], ahead)
  {
  }

  lemma PickedConcat(calls: seq<ToolCall>, a: seq<nat>, b: seq<nat>)
    requires InRange(calls, a) && InRange(calls, b)
    ensures InRange(calls, a + b) && Picked(calls, a + b) == Picked(calls, a) + Picked(calls, b)
  {
  }

  lemma {:induction false} WorldConcat<W>(env: Tools<W>, world: W, a: seq<ToolCall>, b: seq<ToolCall>)
    ensures WorldAfter(env, world, a + b) == WorldAfter(env, WorldAfter(env, world, a), b)
  {
    if b == [] {
      assert a + b == a;
    } else {
      assert (a + b)[..|a + b| - 1] == a + b[..|b| - 1];
      WorldConcat(env, world, a, b[..|b| - 1]);
    }
  }

  lemma YieldsGrow<W>(env: Tools<W>, world0: W, calls: seq<ToolCall>, order: seq<nat>, known: seq<Outcome>, world: W,
                      from: nat, to: nat, ahead: seq<nat>, results: seq<Outcome>, after: W)
    requires from < to <= |calls| && InRange(calls, order) && Yields(env, world0, calls, order, known, world)
    requires |known| == |order| == from && |results| == |ahead| == to - from
    requires InRange(calls[from..to], ahead) && Yields(env, world, calls[from..to], ahead, results, after)
    requires InRange(calls, order + Shifted(ahead, from))
    ensures Yields(env, world0, calls, order + Shifted(ahead, from), known + results, after)
  {
    hide WorldAfter, OutcomeAfter;
    var batch, shifted := calls[from..to], Shifted(ahead, from);
    var all, known' := order + shifted, known + results;
    forall p | 0 <= p < |shifted| ensures shifted[p] < |calls| {
      assert all[from + p] == shifted[p];
    }
    PickedConcat(calls, order, shifted);
    PickedShifted(calls, from, to, ahead);
    WorldConcat(env, world0, Picked(calls, order), Picked(batch, ahead));
    forall p | 0 <= p < |all| ensures YieldsAt(env, world0, calls, all, known', p) {
      if p < from {
        assert YieldsAt(env, world0, calls, order, known, p) && all[..p] == order[..p];
      } else {
        GrownYieldsAt(env, world0, calls, order, known, world, from, to, ahead, results, after, p - from);
      }
    }
  }

  lemma GrownYieldsAt<W>(env: Tools<W>, world0: W, calls: seq<ToolCall>, order: seq<nat>, known: seq<Outcome>, world: W,
                         from: nat, to: nat, ahead: seq<nat>, results: seq<Outcome>, after: W, q: nat)
    requires from < to <= |calls| && InRange(calls, order) && world == WorldAfter(env, world0, Picked(calls, order))
    requires |known| == |order| == from && |results| == |ahead| == to - from && q < |ahead|
    requires InRange(calls[from..to], ahead) && YieldsAt(env, world, calls[from..to], ahead, results, q)
    requires InRange(calls, order + Shifted(ahead, from))
    ensures YieldsAt(env, world0, calls, order + Shifted(ahead, from), known + results, from + q)
  {
    hide WorldAfter;
    var all, front := order + Shifted(ahead, from), ahead[..q];
    assert all[..from + q] == order + Shifted(front, from);
    assert InRange(calls, all[..from + q]);
    forall p | 0 <= p < |front| ensures Shifted(front, from)[p] < |calls| {
      assert all[from + p] == Shifted(front, from)[p];
    }
    PickedConcat(calls, order, Shifted(front, from));
    PickedShifted(calls, from, to, front);
    WorldConcat(env, world0, Picked(calls, order), Picked(calls[from..to], front));
  }

  // ---------------------------------------------------------------------------------------------
  // Which order the calls ran in
  // ---------------------------------------------------------------------------------------------

  /** A call that neither affects nor is affected may as well run last. */
  lemma {:induction false} MoveLast<W(!new)>(env: Tools<W>, w: W, x: ToolCall, rest: seq<ToolCall>)
    requires Independent(env) && env.safe(x) && forall k | 0 <= k < |rest| :: env.safe(rest[k])
    ensures WorldAfter(env, w, [x] + rest) == WorldAfter(env, w, rest + [x])
    ensures OutcomeAfter(env, w, rest, x) == OutcomeAfter(env, w, [], x)
  {
    if rest == [] {
      assert [x] + rest == rest + [x];
    } else {
      var n := |rest| - 1;
      var front, d := rest[..n], rest[n];
      MoveLast(env, w, x, front);
      assert ([x] + rest)[..n + 1] == [x] + front && (rest + [x])[..n + 1] == rest;
      assert (front + [x])[..n] == front;
      var before := WorldAfter(env, w, front);
      assert Commute(env, before, x, d) && Unaffected(env, before, x, d);
      assert WorldAfter(env, w, rest) == env.execute(before, d).world;
    }
  }

  /** What runs after a call that affects nothing cannot tell it has run. */
  lemma BehindSafeCall<W(!new)>(env: Tools<W>, w: W, x: ToolCall, rest: seq<ToolCall>, d: ToolCall)
    requires Independent(env) && env.safe(x) && env.safe(d) && forall k | 0 <= k < |rest| :: env.safe(rest[k])
    ensures OutcomeAfter(env, w, [x] + rest, d) == OutcomeAfter(env, w, rest, d)
  {
    MoveLast(env, w, x, rest);
    assert (rest + [x])[..|rest|] == rest;
    assert Unaffected(env, WorldAfter(env, w, rest), d, x);
  }

  /** The schedule cannot be told from the original order. */
  ghost predicate Indistinguishable<W>(env: Tools<W>, w: W, calls: seq<ToolCall>, order: seq<nat>)
    requires InRange(calls, order) && |order| <= |calls|
  {
    && WorldAfter(env, w, Picked(calls, order)) == WorldAfter(env, w, calls[..|order|])
    && forall p | 0 <= p < |order| :: SameOutcome(env, w, calls, order, p)
  }

  ghost predicate SameOutcome<W>(env: Tools<W>, w: W, calls: seq<ToolCall>, order: seq<nat>, p: nat)
    requires InRange(calls, order) && p < |order|
  {
    OutcomeAfter(env, w, Picked(calls, order[..p]), calls[order[p]]) == OutcomeAfter(env, w, calls[..order[p]], calls[order[p]])
  }

  lemma ScheduleInRange<W>(env: Tools<W>, calls: seq<ToolCall>, order: seq<nat>)
    requires IsSchedule(env, calls, order)
    ensures InRange(calls, order)
  {
    forall p | 0 <= p < |order| ensures order[p] < |calls| {
      assert order[p] in order;
    }
  }

  lemma RemovedAt(order: seq<nat>, p: nat, n: nat)
    requires p < |order| && order[p] == n && Distinct(order) && forall k: nat :: k in order <==> k < n + 1
    ensures var rest := order[..p] + order[p + 1..];
            Distinct(rest) && forall k: nat :: k in rest <==> k < n
  {
    var rest := order[..p] + order[p + 1..];
    forall k: nat ensures k in rest <==> k < n {
      if k < n {
        assert k in order;
        var q :| 0 <= q < |order| && order[q] == k;
        assert rest[if q < p then q else q - 1] == k;
      }
      if k in rest {
        var q :| 0 <= q < |rest| && rest[q] == k;
        var q' := if q < p then q else q + 1;
        assert order[q'] == k && q' != p;
        assert k in order && k != n;
      }
    }
  }

  lemma StillCrossing<W>(env: Tools<W>, calls: seq<ToolCall>, order: seq<nat>, p: nat)
    requires p < |order| && CrossesOnlySafe(env, calls, order)
    ensures CrossesOnlySafe(env, calls, order[..p] + order[p + 1..])
  {
    hide AllSafe;
    var rest := order[..p] + order[p + 1..];
    forall q, r | 0 <= q < r < |rest| && rest[r] < rest[q] ensures AllSafe(env, calls, rest[r], rest[q] + 1) {
      var q', r' := if q < p then q else q + 1, if r < p then r else r + 1;
      assert rest[q] == order[q'] && rest[r] == order[r'];
    }
  }

  /** The call at `p`, the highest, has only been overtaken by parallel-safe calls, and is one itself. */
  ghost predicate SafeBehind<W>(env: Tools<W>, calls: seq<ToolCall>, order: seq<nat>, p: nat)
    requires InRange(calls, order) && 0 < |order| <= |calls|
  {
    && (forall q | p < q < |order| :: env.safe(calls[order[q]]))
    && (p < |order| - 1 ==> env.safe(calls[|order| - 1]))
  }

  /** Without its highest call a schedule is one of the calls before. */
  lemma WithoutHighest<W>(env: Tools<W>, calls: seq<ToolCall>, order: seq<nat>) returns (p: nat)
    requires order != [] && IsSchedule(env, calls, order) && InRange(calls, order)
    ensures p < |order| && order[p] == |order| - 1
    ensures IsSchedule(env, calls, order[..p] + order[p + 1..]) && InRange(calls, order[..p] + order[p + 1..])
    ensures SafeBehind(env, calls, order, p)
  {
    var n := |order| - 1;
    assert n in order;
    p :| 0 <= p < |order| && order[p] == n;
    RemovedAt(order, p, n);
    StillCrossing(env, calls, order, p);
    ScheduleInRange(env, calls, order[..p] + order[p + 1..]);
    forall q | p < q < |order| ensures env.safe(calls[order[q]]) && env.safe(calls[n]) {
      assert order[q] in order;
      assert AllSafe(env, calls, order[q], n + 1);
    }
    if p < n {
      assert order[p + 1] in order && AllSafe(env, calls, order[p + 1], n + 1);
    }
  }

  /** Any schedule at all looks like the original order, if parallel-safe calls are independent. */
  lemma {:induction false} AnySchedule<W(!new)>(env: Tools<W>, w: W, calls: seq<ToolCall>, order: seq<nat>)
    requires Independent(env) && IsSchedule(env, calls, order) && InRange(calls, order)
    ensures Indistinguishable(env, w, calls, order)
    decreases |order|
  {
    hide Independent, WorldAfter, OutcomeAfter, IsSchedule;
    if order == [] {
      assert Picked(calls, order) == calls[..0];
    } else {
      var n := |order| - 1;
      var p := WithoutHighest(env, calls, order);
      var a, b := order[..p], order[p + 1..];
      ScheduleShorter(env, calls, order, p);
      AnySchedule(env, w, calls, a + b);
      HighestMoves(env, w, calls, order, p);
      forall q | 0 <= q < |order| ensures SameOutcome(env, w, calls, order, q) {
        if q < p {
          assert SameOutcome(env, w, calls, a + b, q) && (a + b)[..q] == order[..q];
        } else if q > p {
          LaterMoves(env, w, calls, order, p, q);
        }
      }
    }
  }

  lemma ScheduleShorter<W>(env: Tools<W>, calls: seq<ToolCall>, order: seq<nat>, p: nat)
    requires IsSchedule(env, calls, order) && p < |order|
    ensures |order[..p] + order[p + 1..]| == |order| - 1 < |calls|
  {
  }

  lemma SplitAt(calls: seq<ToolCall>, order: seq<nat>, p: nat, q: nat)
    requires InRange(calls, order) && p < q <= |order|
    ensures InRange(calls, order[..q]) && InRange(calls, order[..p]) && InRange(calls, order[p + 1..q])
    ensures InRange(calls, order[..p] + order[p + 1..q])
    ensures Picked(calls, order[..q]) == Picked(calls, order[..p]) + ([calls[order[p]]] + Picked(calls, order[p + 1..q]))
    ensures Picked(calls, order[..p] + order[p + 1..q]) == Picked(calls, order[..p]) + Picked(calls, order[p + 1..q])
  {
    var a, one, b := order[..p], [order[p]], order[p + 1..q];
    assert order[..q] == a + (one + b);
    PickedConcat(calls, one, b);
    PickedConcat(calls, a, one + b);
    PickedConcat(calls, a, b);
    assert Picked(calls, one) == [calls[order[p]]];
  }

  lemma RunsLast<W(!new)>(env: Tools<W>, w: W, front: seq<ToolCall>, x: ToolCall, rest: seq<ToolCall>)
    requires Independent(env) && (rest != [] ==> env.safe(x)) && forall k | 0 <= k < |rest| :: env.safe(rest[k])
    ensures WorldAfter(env, w, front + ([x] + rest)) == env.execute(WorldAfter(env, w, front + rest), x).world
    ensures OutcomeAfter(env, w, front, x) == OutcomeAfter(env, w, front + rest, x)
  {
    var w1 := WorldAfter(env, w, front);
    WorldConcat(env, w, front, [x] + rest);
    WorldConcat(env, w, front, rest);
    WorldSnoc(env, w1, rest, x);
    if rest == [] {
      assert [x] + rest == rest + [x] && front + rest == front;
    } else {
      MoveLast(env, w1, x, rest);
      OutcomeConcat(env, w, front, rest, x);
      OutcomeConcat(env, w, front, [], x);
      assert front + [] == front;
    }
  }

  lemma WorldSnoc<W>(env: Tools<W>, w: W, calls: seq<ToolCall>, c: ToolCall)
    ensures WorldAfter(env, w, calls + [c]) == env.execute(WorldAfter(env, w, calls), c).world
  {
    assert (calls + [c])[..|calls|] == calls;
  }

  lemma OutcomeConcat<W>(env: Tools<W>, w: W, a: seq<ToolCall>, b: seq<ToolCall>, c: ToolCall)
    ensures OutcomeAfter(env, w, a + b, c) == OutcomeAfter(env, WorldAfter(env, w, a), b, c)
  {
    WorldConcat(env, w, a, b);
  }

  lemma HighestMoves<W(!new)>(env: Tools<W>, w: W, calls: seq<ToolCall>, order: seq<nat>, p: nat)
    requires Independent(env) && InRange(calls, order) && p < |order| <= |calls| && order[p] == |order| - 1
    requires SafeBehind(env, calls, order, p)
    requires InRange(calls, order[..p] + order[p + 1..]) && Indistinguishable(env, w, calls, order[..p] + order[p + 1..])
    ensures WorldAfter(env, w, Picked(calls, order)) == WorldAfter(env, w, calls[..|order|])
    ensures SameOutcome(env, w, calls, order, p)
  {
    hide Independent, WorldAfter, OutcomeAfter;
    var n, x := |order| - 1, calls[|order| - 1];
    SplitAt(calls, order, p, |order|);
    assert order[..|order|] == order && order[p + 1..|order|] == order[p + 1..];
    var front, rest := Picked(calls, order[..p]), Picked(calls, order[p + 1..]);
    RunsLast(env, w, front, x, rest);
    WorldSnoc(env, w, calls[..n], x);
    assert calls[..n] + [x] == calls[..n + 1];
    SameWorldSameOutcome(env, w, front + rest, calls[..n], x);
  }

  lemma SameWorldSameOutcome<W>(env: Tools<W>, w: W, a: seq<ToolCall>, b: seq<ToolCall>, c: ToolCall)
    requires WorldAfter(env, w, a) == WorldAfter(env, w, b)
    ensures OutcomeAfter(env, w, a, c) == OutcomeAfter(env, w, b, c)
  {
  }

  lemma LaterMoves<W(!new)>(env: Tools<W>, w: W, calls: seq<ToolCall>, order: seq<nat>, p: nat, q: nat)
    requires Independent(env) && InRange(calls, order) && p < q < |order| <= |calls| && order[p] == |order| - 1
    requires SafeBehind(env, calls, order, p)
    requires InRange(calls, order[..p] + order[p + 1..]) && Indistinguishable(env, w, calls, order[..p] + order[p + 1..])
    ensures SameOutcome(env, w, calls, order, q)
  {
    hide Independent, WorldAfter, OutcomeAfter;
    var x, d, shorter := calls[|order| - 1], calls[order[q]], order[..p] + order[p + 1..];
    assert SameOutcome(env, w, calls, shorter, q - 1);
    assert shorter[..q - 1] == order[..p] + order[p + 1..q] && shorter[q - 1] == order[q];
    SplitAt(calls, order, p, q);
    var front, rest := Picked(calls, order[..p]), Picked(calls, order[p + 1..q]);
    OutcomeConcat(env, w, front, [x] + rest, d);
    OutcomeConcat(env, w, front, rest, d);
    BehindSafeCall(env, WorldAfter(env, w, front), x, rest, d);
  }

  ghost predicate EveryScheduleAgrees<W(!new)>(env: Tools<W>) {
    forall w: W, calls, order | IsSchedule(env, calls, order) && InRange(calls, order) :: Indistinguishable(env, w, calls, order)
  }

  /** Independence is not only enough but exactly what is needed: a pair of parallel-safe calls of which
      one tells, or whose effects do not commute, gives the schedule away. */
  lemma IndependentIffSchedulesAgree<W(!new)>(env: Tools<W>)
    ensures Independent(env) <==> EveryScheduleAgrees(env)
  {
    if Independent(env) {
      forall w: W, calls, order | IsSchedule(env, calls, order) && InRange(calls, order)
        ensures Indistinguishable(env, w, calls, order)
      {
        AnySchedule(env, w, calls, order);
      }
    }
    if EveryScheduleAgrees(env) {
      forall w: W, c, d | env.safe(c) && env.safe(d) ensures Unaffected(env, w, c, d) && Commute(env, w, c, d) {
        var calls, order: seq<nat> := [d, c], [1, 0];
        assert AllSafe(env, calls, 0, 2);
        assert forall k: nat :: k in order <==> k < 2;
        assert Indistinguishable(env, w, calls, order) && SameOutcome(env, w, calls, order, 0);
        SwappedPair(env, w, c, d);
      }
    }
  }

  /** Two calls, in their order and swapped. */
  lemma SwappedPair<W>(env: Tools<W>, w: W, c: ToolCall, d: ToolCall)
    ensures var calls, order: seq<nat> := [d, c], [1, 0];
            Picked(calls, order) == [c, d] && calls[..2] == [d, c] && Picked(calls, order[..0]) == [] && calls[..1] == [d]
    ensures WorldAfter(env, w, [c, d]) == env.execute(env.execute(w, c).world, d).world
    ensures WorldAfter(env, w, [d, c]) == env.execute(env.execute(w, d).world, c).world
    ensures WorldAfter(env, w, [d]) == env.execute(w, d).world && WorldAfter(env, w, []) == w
  {
    WorldOfPair(env, w, c, d);
    WorldOfPair(env, w, d, c);
  }

  lemma WorldOfPair<W>(env: Tools<W>, w: W, c: ToolCall, d: ToolCall)
    ensures WorldAfter(env, w, [c, d]) == env.execute(env.execute(w, c).world, d).world
    ensures WorldAfter(env, w, [c]) == env.execute(w, c).world
  {
    assert WorldAfter(env, w, []) == w;
    hide WorldAfter;
    assert [] + [c] == [c] && [c] + [d] == [c, d];
    WorldSnoc(env, w, [], c);
    WorldSnoc(env, w, [c], d);
  }

  /** A planning tool that counts as read-only: the plan is all the world there is. */
  function PlanTools(): Tools<string> {
    Tools((plan: string, c: ToolCall) => Execution(Outcome(ToolResult(c.id, c.arguments, Ok, false, "", [], "", []), None), c.arguments),
          (c: ToolCall) => c.name == Guards.PLAN_TOOL, (i: nat) => None, (s: string) => s)
  }

  /** Two plan updates in one turn are both parallel-safe, and the plan that stays is whichever ran
      last: the second order is one the batch may run them in. */
  lemma PlanUpdatesDoNotCommute() returns (calls: seq<ToolCall>, order: seq<nat>)
    ensures IsSchedule(PlanTools(), calls, order) && InRange(calls, order) && |order| == |calls| == 2
    ensures WorldAfter(PlanTools(), "", calls) == "B" && WorldAfter(PlanTools(), "", Picked(calls, order)) == "A"
    ensures !Independent(PlanTools())
  {
    var a, b := ToolCall("1", Guards.PLAN_TOOL, "A"), ToolCall("2", Guards.PLAN_TOOL, "B");
    calls, order := [a, b], [1, 0];
    SwappedPair(PlanTools(), "", b, a);
    assert AllSafe(PlanTools(), calls, 0, 2);
    assert forall k: nat :: k in order <==> k < 2;
    assert !Commute(PlanTools(), "", a, b);
  }
}
