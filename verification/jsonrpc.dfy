/** A JSON-RPC peer: outbound calls wait on one-slot channels that the read loop fills. Calls, the
    reader and cancellations interleave; every locked section and every channel operation is one step. */
module JsonRpc {
  import opened Text

  /** What a call can be sent: a response frame, or the failure that closing the connection gives. */
  datatype Message = Response(id: nat, payload: string) | ConnectionFailure(error: string)

  datatype Outcome = WriteFailed | Cancelled | Answered(message: Message)

  datatype Call = Writing | Waiting | Leaving(outcome: Outcome) | Done(outcome: Outcome)

  datatype Reader = Reading | Delivering(message: Message) | Failing(left: set<nat>, error: string) | Stopped

  /** The shared fields; each call's channel and progress; the reader; and what was ever put into
      each channel. */
  datatype State = State(
    nextID: nat, pending: set<nat>, closed: bool,
    channels: map<nat, Option<Message>>, calls: map<nat, Call>, reader: Reader, put: map<nat, seq<Message>>)

  const INITIAL := State(0, {}, false, map[], map[], Reading, map[])

  datatype Step =
    | Register
    | FailWrite(id: nat)
    | Written(id: nat)
    | Receive(id: nat)
    | CancelCall(id: nat)
    | Unregister(id: nat)
    | TakeFrame(message: Message)
    | Put
    | CloseAll(error: string)
    | PutFailure(id: nat)

  predicate At(s: State, id: nat, phase: Call) { id in s.calls && s.calls[id] == phase }

  predicate Enabled(s: State, step: Step) {
    match step
    case Register => !s.closed
    case FailWrite(id) => At(s, id, Writing)
    case Written(id) => At(s, id, Writing)
    case Receive(id) => At(s, id, Waiting) && id in s.channels && s.channels[id].Some?
    case CancelCall(id) => At(s, id, Waiting)
    case Unregister(id) => id in s.calls && s.calls[id].Leaving?
    case TakeFrame(message) => s.reader.Reading? && message.Response?
    case Put => s.reader.Delivering?
    case CloseAll(_) => s.reader.Reading?
    case PutFailure(id) => s.reader.Failing? && id in s.reader.left
  }

  /** A non-blocking send: dropped if the slot is taken. */
  function Send(s: State, id: nat, m: Message): State {
    var full := id in s.channels && s.channels[id].Some?;
    s.(channels := if full then s.channels else s.channels[id := Some(m)],
       put := s.put[id := (if id in s.put then s.put[id] else []) + [m]])
  }

  function Move(s: State, id: nat, phase: Call): State { s.(calls := s.calls[id := phase]) }

  function FailureLeft(s: State, id: nat): Reader
    requires s.reader.Failing?
  {
    if s.reader.left - {id} == {} then Stopped else Failing(s.reader.left - {id}, s.reader.error)
  }

  function Apply(s: State, step: Step): State
    requires Enabled(s, step)
  {
    match step
    case Register =>
      var id := s.nextID + 1;
      s.(nextID := id, pending := s.pending + {id}, channels := s.channels[id := None],
         calls := s.calls[id := Writing], put := s.put[id := []])
    case FailWrite(id) => Move(s, id, Leaving(WriteFailed))
    case Written(id) => Move(s, id, Waiting)
    case Receive(id) => Move(s, id, Leaving(Answered(s.channels[id].value))).(channels := s.channels[id := None])
    case CancelCall(id) => Move(s, id, Leaving(Cancelled))
    case Unregister(id) => Move(s, id, Done(s.calls[id].outcome)).(pending := s.pending - {id})
    case TakeFrame(m) =>
      if m.id in s.pending then s.(pending := s.pending - {m.id}, reader := Delivering(m)) else s
    case Put => if s.reader.message.Response? then Send(s, s.reader.message.id, s.reader.message).(reader := Reading) else s
    case CloseAll(error) =>
      s.(closed := true, pending := {}, reader := if s.pending == {} then Stopped else Failing(s.pending, error))
    case PutFailure(id) => Send(s, id, ConnectionFailure(s.reader.error)).(reader := FailureLeft(s, id))
  }

  /** Any interleaving; a step that is not enabled does not happen. */
  function After(steps: seq<Step>): State {
    if steps == [] then INITIAL
    else
      var s, step := After(steps[..|steps| - 1]), steps[|steps| - 1];
      if Enabled(s, step) then Apply(s, step) else s
  }

  // ---------------------------------------------------------------------------------------------
  // What every step keeps
  // ---------------------------------------------------------------------------------------------

  predicate InTransit(s: State, id: nat) {
    match s.reader
    case Delivering(m) => m.Response? && m.id == id
    case Failing(left, _) => id in left
    case _ => false
  }

  predicate Registered(s: State, id: nat) { 0 < id <= s.nextID }

  /** The message put into the call's channel, waiting there or taken by the call. */
  predicate Sent(s: State, id: nat) { id in s.put && |s.put[id]| > 0 }

  predicate Gone(s: State, id: nat) { id in s.calls && s.calls[id].Done? }

  predicate Taken(s: State, id: nat) {
    id in s.calls && (s.calls[id].Leaving? || s.calls[id].Done?) && s.calls[id].outcome.Answered?
  }

  /** The right kind of message for this call. */
  predicate Fits(id: nat, m: Message) { m.Response? ==> m.id == id }

  predicate CallInv(s: State, id: nat) {
    && (id in s.calls <==> Registered(s, id)) && (id in s.channels <==> Registered(s, id)) && (id in s.put <==> Registered(s, id))
    && (id in s.pending ==> Registered(s, id) && !Gone(s, id) && !InTransit(s, id) && !Sent(s, id))
    && (InTransit(s, id) ==> Registered(s, id) && !Sent(s, id))
    && (Registered(s, id) ==>
          && |s.put[id]| <= 1
          && (s.channels[id].Some? ==> s.put[id] == [s.channels[id].value] && !Taken(s, id))
          && (Taken(s, id) ==> s.put[id] == [s.calls[id].outcome.message] && s.channels[id].None?)
          && (Sent(s, id) ==> Fits(id, s.put[id][0]) && (s.channels[id].Some? || Taken(s, id)))
          && (id in s.pending || InTransit(s, id) || Sent(s, id) || Gone(s, id)))
  }

  predicate ReaderInv(s: State) {
    && (s.closed <==> s.reader.Failing? || s.reader.Stopped?)
    && (s.closed ==> s.pending == {})
    && (s.reader.Delivering? ==> s.reader.message.Response?)
    && (s.reader.Failing? ==> s.reader.left != {})
  }

  ghost predicate Inv(s: State) { ReaderInv(s) && forall id :: CallInv(s, id) }

  lemma ReaderKept(s: State, step: Step)
    requires ReaderInv(s) && Enabled(s, step)
    ensures ReaderInv(Apply(s, step))
  {
  }

  lemma RegisterKept(s: State, id: nat)
    requires ReaderInv(s) && CallInv(s, id) && Enabled(s, Register) && CallInv(s, s.nextID + 1)
    ensures CallInv(Apply(s, Register), id)
  {
  }

  lemma CallStepKept(s: State, step: Step, id: nat)
    requires ReaderInv(s) && CallInv(s, id) && Enabled(s, step)
    requires step.FailWrite? || step.Written? || step.Receive? || step.CancelCall? || step.Unregister?
    ensures CallInv(Apply(s, step), id)
  {
  }

  lemma ReaderStepKept(s: State, step: Step, id: nat)
    requires ReaderInv(s) && CallInv(s, id) && Enabled(s, step)
    requires step.TakeFrame? || step.Put? || step.CloseAll? || step.PutFailure?
    ensures CallInv(Apply(s, step), id)
  {
  }

  lemma StepKeeps(s: State, step: Step)
    requires Inv(s) && Enabled(s, step)
    ensures Inv(Apply(s, step))
  {
    hide Apply, Enabled, CallInv, ReaderInv;
    ReaderKept(s, step);
    forall id ensures CallInv(Apply(s, step), id) {
      if step.Register? {
        assert CallInv(s, s.nextID + 1);
        RegisterKept(s, id);
      } else if step.TakeFrame? || step.Put? || step.CloseAll? || step.PutFailure? {
        ReaderStepKept(s, step, id);
      } else {
        CallStepKept(s, step, id);
      }
    }
  }

  lemma {:induction false} InvHolds(steps: seq<Step>)
    ensures Inv(After(steps))
  {
    hide Apply, Enabled;
    if steps != [] {
      var s, step := After(steps[..|steps| - 1]), steps[|steps| - 1];
      InvHolds(steps[..|steps| - 1]);
      if Enabled(s, step) {
        StepKeeps(s, step);
      }
    }
  }

  // ---------------------------------------------------------------------------------------------
  // What that means for a caller
  // ---------------------------------------------------------------------------------------------

  function Count(b: bool): nat { if b then 1 else 0 }

  /** A registered id is pending, in transit, or sent its message; or its call is over. */
  lemma OnePlace(steps: seq<Step>, id: nat)
    requires 0 < id <= After(steps).nextID
    ensures var s := After(steps);
            Count(id in s.pending) + Count(InTransit(s, id)) + Count(Sent(s, id))
            + Count(Gone(s, id) && id !in s.pending && !InTransit(s, id) && !Sent(s, id)) == 1
  {
    InvHolds(steps);
    assert CallInv(After(steps), id);
  }

  /** No send ever finds its slot taken: no message is dropped and the read loop never blocks. */
  lemma SlotsAreFree(steps: seq<Step>, id: nat)
    requires InTransit(After(steps), id)
    ensures id in After(steps).channels && After(steps).channels[id].None?
  {
    InvHolds(steps);
    assert CallInv(After(steps), id);
  }

  /** An answered call got the one message put into its channel: its own response, or the failure of
      the connection. */
  lemma OwnAnswer(steps: seq<Step>, id: nat)
    requires Taken(After(steps), id)
    ensures var s := After(steps);
            && id in s.put && s.put[id] == [s.calls[id].outcome.message]
            && (s.calls[id].outcome.message.Response? ==> s.calls[id].outcome.message.id == id)
  {
    InvHolds(steps);
    assert CallInv(After(steps), id);
  }

  /** Ids never repeat: the next one has no call, no channel and no history. */
  lemma NextIdUnused(steps: seq<Step>)
    ensures var s := After(steps); var id := s.nextID + 1;
            id !in s.calls && id !in s.pending && id !in s.channels && id !in s.put && !InTransit(s, id)
  {
    InvHolds(steps);
    assert CallInv(After(steps), After(steps).nextID + 1);
  }

  /** A call still waiting is one the reader can still serve, or has its message ready; once the reader
      has stopped, the message is ready. */
  lemma NobodyWaitsForever(steps: seq<Step>, id: nat)
    requires id in After(steps).calls && (After(steps).calls[id].Writing? || After(steps).calls[id].Waiting?)
    ensures var s := After(steps);
            && id in s.channels
            && (s.channels[id].Some? || ((id in s.pending || InTransit(s, id)) && !s.reader.Stopped?))
  {
    InvHolds(steps);
    assert CallInv(After(steps), id);
  }

  /** Closing is for good: from then on nothing is pending and nothing new is registered. */
  lemma {:induction false} ClosedForGood(steps: seq<Step>, more: seq<Step>)
    requires After(steps).closed
    ensures var s := After(steps + more);
            s.closed && s.pending == {} && s.nextID == After(steps).nextID
    decreases |more|
  {
    InvHolds(steps + more);
    if more == [] {
      assert steps + more == steps;
    } else {
      var all := steps + more;
      assert all[..|all| - 1] == steps + more[..|more| - 1];
      ClosedForGood(steps, more[..|more| - 1]);
    }
  }

  // ---------------------------------------------------------------------------------------------
  // What is read gets there
  // ---------------------------------------------------------------------------------------------

  /** The reader is about to put this message into the call's channel, or it is the one message ever put there. */
  predicate OnTheWay(s: State, id: nat, m: Message) {
    || (m.Response? && m.id == id && s.reader == Delivering(m))
    || (s.reader.Failing? && id in s.reader.left && m == ConnectionFailure(s.reader.error))
    || (id in s.put && s.put[id] == [m])
  }

  lemma StaysOnTheWay(s: State, step: Step, id: nat, m: Message)
    requires ReaderInv(s) && CallInv(s, id) && Enabled(s, step) && OnTheWay(s, id, m)
    ensures OnTheWay(Apply(s, step), id, m)
  {
  }

  lemma {:induction false} MessageStays(steps: seq<Step>, more: seq<Step>, id: nat, m: Message)
    requires OnTheWay(After(steps), id, m)
    ensures OnTheWay(After(steps + more), id, m)
    decreases |more|
  {
    hide OnTheWay, Apply, Enabled, CallInv, ReaderInv;
    if more == [] {
      assert steps + more == steps;
    } else {
      var all := steps + more;
      assert all[..|all| - 1] == steps + more[..|more| - 1];
      MessageStays(steps, more[..|more| - 1], id, m);
      InvHolds(all[..|all| - 1]);
      var s := After(all[..|all| - 1]);
      assert CallInv(s, id);
      if Enabled(s, all[|all| - 1]) {
        StaysOnTheWay(s, all[|all| - 1], id, m);
      }
    }
  }

  lemma AfterOne(steps: seq<Step>, step: Step)
    requires Enabled(After(steps), step)
    ensures After(steps + [step]) == Apply(After(steps), step)
  {
    assert (steps + [step])[..|steps|] == steps;
  }

  /** A response read while its call is pending is in transit from then on or was put into that call's channel,
      alone, whatever else happens meanwhile. */
  lemma ResponseArrives(steps: seq<Step>, m: Message, more: seq<Step>)
    requires Enabled(After(steps), TakeFrame(m)) && m.id in After(steps).pending
    ensures OnTheWay(After(steps + [TakeFrame(m)] + more), m.id, m)
  {
    AfterOne(steps, TakeFrame(m));
    MessageStays(steps + [TakeFrame(m)], more, m.id, m);
  }

  /** And once the connection closes, every call pending then gets its failure. */
  lemma FailureArrives(steps: seq<Step>, error: string, id: nat, more: seq<Step>)
    requires Enabled(After(steps), CloseAll(error)) && id in After(steps).pending
    ensures OnTheWay(After(steps + [CloseAll(error)] + more), id, ConnectionFailure(error))
  {
    AfterOne(steps, CloseAll(error));
    MessageStays(steps + [CloseAll(error)], more, id, ConnectionFailure(error));
  }

  /** A waiting call whose message was put can take it, and leaves with that message. */
  lemma ReadyIsReceived(steps: seq<Step>, id: nat, m: Message)
    requires id in After(steps).put && After(steps).put[id] == [m] && At(After(steps), id, Waiting)
    ensures Enabled(After(steps), Receive(id)) && At(After(steps + [Receive(id)]), id, Leaving(Answered(m)))
  {
    InvHolds(steps);
    assert CallInv(After(steps), id);
    AfterOne(steps, Receive(id));
  }

  /** The call waits under the next id, and nothing else has changed. */
  predicate Asking(s: State, t: State, id: nat) {
    && id == s.nextID + 1 && t.nextID == id && t.pending == s.pending + {id} && At(t, id, Waiting)
    && id in t.channels && t.channels[id].None? && id in t.put && t.put[id] == [] && t.reader == s.reader && t.closed == s.closed
    && forall k | k in s.calls && k != id :: k in t.calls && t.calls[k] == s.calls[k]
  }

  lemma AskingSteps(s: State)
    requires !s.closed
    ensures var id := s.nextID + 1;
            && Enabled(s, Register) && Enabled(Apply(s, Register), Written(id))
            && Asking(s, Apply(Apply(s, Register), Written(id)), id)
  {
  }

  lemma Asks(steps: seq<Step>)
    requires !After(steps).closed
    ensures var id := After(steps).nextID + 1; Asking(After(steps), After(steps + [Register] + [Written(id)]), id)
  {
    hide After, Apply, Enabled, Asking;
    AskingSteps(After(steps));
    AfterOne(steps, Register);
    AfterOne(steps + [Register], Written(After(steps).nextID + 1));
  }

  lemma DeliverySteps(s: State, m: Message)
    requires m.Response? && m.id in s.pending && s.reader.Reading?
    requires m.id in s.put && s.put[m.id] == [] && m.id in s.channels && s.channels[m.id].None?
    ensures Enabled(s, TakeFrame(m)) && Enabled(Apply(s, TakeFrame(m)), Put)
    ensures Apply(Apply(s, TakeFrame(m)), Put)
            == s.(pending := s.pending - {m.id}, put := s.put[m.id := [m]], channels := s.channels[m.id := Some(m)])
  {
    assert [] + [m] == [m];
  }

  lemma Delivers(steps: seq<Step>, m: Message)
    requires var s := After(steps);
             m.Response? && m.id in s.pending && s.reader.Reading?
             && m.id in s.put && s.put[m.id] == [] && m.id in s.channels && s.channels[m.id].None?
    ensures var s, t := After(steps), After(steps + [TakeFrame(m)] + [Put]);
            t == s.(pending := s.pending - {m.id}, put := s.put[m.id := [m]], channels := s.channels[m.id := Some(m)])
  {
    hide After, Apply, Enabled;
    DeliverySteps(After(steps), m);
    AfterOne(steps, TakeFrame(m));
    AfterOne(steps + [TakeFrame(m)], Put);
  }

  lemma Returns(steps: seq<Step>, id: nat, m: Message)
    requires At(After(steps), id, Waiting) && id in After(steps).channels && After(steps).channels[id] == Some(m)
    ensures var s, t := After(steps), After(steps + [Receive(id)] + [Unregister(id)]);
            t == s.(calls := s.calls[id := Done(Answered(m))], pending := s.pending - {id}, channels := s.channels[id := None])
  {
    AfterOne(steps, Receive(id));
    AfterOne(steps + [Receive(id)], Unregister(id));
    var s := After(steps);
    assert s.calls[id := Leaving(Answered(m))][id := Done(Answered(m))] == s.calls[id := Done(Answered(m))];
  }

  /** On an open connection with an idle reader a call goes through: it is registered under the next id, and the
      first response under that id is what it returns; everybody else's calls are as they were. */
  lemma CallGoesThrough(steps: seq<Step>, payload: string)
    requires !After(steps).closed && After(steps).reader.Reading?
    ensures var s := After(steps);
            var id := s.nextID + 1;
            var m := Response(id, payload);
            var t := After(steps + [Register] + [Written(id)] + [TakeFrame(m)] + [Put] + [Receive(id)] + [Unregister(id)]);
            && At(t, id, Done(Answered(m))) && t.pending == s.pending && t.reader.Reading? && !t.closed && t.nextID == id
            && forall k | k in s.calls && k != id :: k in t.calls && t.calls[k] == s.calls[k]
  {
    hide After, Apply, Enabled;
    var id := After(steps).nextID + 1;
    NextIdUnused(steps);
    Asks(steps);
    var asked := steps + [Register] + [Written(id)];
    Delivers(asked, Response(id, payload));
    Returns(asked + [TakeFrame(Response(id, payload))] + [Put], id, Response(id, payload));
  }

  predicate LeftWith(s: State, id: nat, outcome: Outcome) { At(s, id, Leaving(outcome)) || At(s, id, Done(outcome)) }

  lemma OutcomeKept(s: State, step: Step, id: nat, outcome: Outcome)
    requires CallInv(s, id) && Enabled(s, step) && LeftWith(s, id, outcome)
    ensures LeftWith(Apply(s, step), id, outcome)
  {
  }

  /** How a call came out never changes again: answered, cancelled or not written. */
  lemma {:induction false} OutcomeStays(steps: seq<Step>, more: seq<Step>, id: nat, outcome: Outcome)
    requires LeftWith(After(steps), id, outcome)
    ensures LeftWith(After(steps + more), id, outcome)
    decreases |more|
  {
    hide LeftWith, Apply, Enabled, CallInv, ReaderInv;
    if more == [] {
      assert steps + more == steps;
    } else {
      var all := steps + more;
      assert all[..|all| - 1] == steps + more[..|more| - 1];
      OutcomeStays(steps, more[..|more| - 1], id, outcome);
      InvHolds(all[..|all| - 1]);
      var s := After(all[..|all| - 1]);
      assert CallInv(s, id);
      if Enabled(s, all[|all| - 1]) {
        OutcomeKept(s, all[|all| - 1], id, outcome);
      }
    }
  }

  /** A call whose context ends, or whose request cannot be written, leaves at once, and its id with it. */
  lemma CallGivesUp(steps: seq<Step>, id: nat)
    requires id in After(steps).calls
    ensures At(After(steps), id, Waiting) ==>
              At(After(steps + [CancelCall(id)] + [Unregister(id)]), id, Done(Cancelled))
              && id !in After(steps + [CancelCall(id)] + [Unregister(id)]).pending
    ensures At(After(steps), id, Writing) ==>
              At(After(steps + [FailWrite(id)] + [Unregister(id)]), id, Done(WriteFailed))
              && id !in After(steps + [FailWrite(id)] + [Unregister(id)]).pending
  {
    if At(After(steps), id, Waiting) {
      AfterOne(steps, CancelCall(id));
      AfterOne(steps + [CancelCall(id)], Unregister(id));
    }
    if At(After(steps), id, Writing) {
      AfterOne(steps, FailWrite(id));
      AfterOne(steps + [FailWrite(id)], Unregister(id));
    }
  }

  // ---------------------------------------------------------------------------------------------
  // The code
  // ---------------------------------------------------------------------------------------------

  class Conn {
    var nextID: nat
    var pending: set<nat>
    var closed: bool
    var channels: map<nat, Option<Message>>
    /** The calls, the reader, and what was put into channels. */
    ghost var rest: State

    ghost function View(): State
      reads this
    {
      rest.(nextID := nextID, pending := pending, closed := closed, channels := channels)
    }

    constructor ()
      ensures View() == INITIAL
    {
      nextID, pending, closed, channels := 0, {}, false, map[];
      rest := INITIAL;
    }

    /** The first half of a call; None when the connection is closed. */
    method Begin() returns (id: Option<nat>)
      modifies this
      ensures id.None? ==> !Enabled(old(View()), Register) && View() == old(View())
      ensures id.Some? ==> Enabled(old(View()), Register) && View() == Apply(old(View()), Register) && id.value == View().nextID
      ensures id.None? <==> old(closed)
      ensures id.Some? ==> id.value == old(nextID) + 1 && pending == old(pending) + {id.value} && At(View(), id.value, Writing)
    {
      if closed {
        return None;
      }
      rest := Apply(View(), Register);
      nextID := nextID + 1;
      id := Some(nextID);
      channels := channels[nextID := None];
      pending := pending + {nextID};
    }

    /** The deferred removal that every way out of a call runs. */
    method End(id: nat)
      requires Enabled(View(), Unregister(id))
      modifies this
      ensures View() == Apply(old(View()), Unregister(id)) && pending == old(pending) - {id}
    {
      rest := Apply(View(), Unregister(id));
      pending := pending - {id};
    }

    method Take(message: Message) returns (known: bool)
      requires Enabled(View(), TakeFrame(message))
      modifies this
      ensures View() == Apply(old(View()), TakeFrame(message))
      ensures known == (message.id in old(pending))
      ensures known ==> View().reader == Delivering(message) && pending == old(pending) - {message.id}
      ensures !known ==> View() == old(View())
    {
      rest := Apply(View(), TakeFrame(message));
      known := message.id in pending;
      pending := pending - {message.id};
    }

    method Fill(id: nat, message: Message)
      modifies this`channels
      ensures channels == if id in old(channels) && old(channels)[id].Some? then old(channels) else old(channels)[id := Some(message)]
    {
      if !(id in channels && channels[id].Some?) {
        channels := channels[id := Some(message)];
      }
    }

    /** The read loop's way with a response frame. */
    method PutResponse(message: Message)
      requires View().reader == Delivering(message) && message.Response?
      modifies this
      ensures View() == Apply(old(View()), Put) && View().reader.Reading?
      ensures message.id in channels && channels[message.id].Some?
    {
      rest := Apply(View(), Put);
      Fill(message.id, message);
    }

    method Close(error: string) returns (left: set<nat>)
      requires Enabled(View(), CloseAll(error))
      modifies this
      ensures View() == Apply(old(View()), CloseAll(error)) && left == old(pending) && closed && pending == {}
      ensures View().reader == if left == {} then Stopped else Failing(left, error)
    {
      rest := Apply(View(), CloseAll(error));
      left := pending;
      closed, pending := true, {};
    }

    /** The loop over the calls that were pending: afterwards each has a message. */
    method FailEach(left0: set<nat>, error: string)
      requires if left0 == {} then View().reader.Stopped? else View().reader == Failing(left0, error)
      requires Inv(View())
      modifies this
      ensures Inv(View()) && View().reader.Stopped?
      ensures forall id | id in left0 :: Sent(View(), id)
    {
      var left := left0;
      while left != {}
        invariant left <= left0
        invariant if left == {} then View().reader.Stopped? else View().reader == Failing(left, error)
        invariant Inv(View())
        invariant forall id | id in left0 && id !in left :: Sent(View(), id)
        decreases |left|
      {
        var id :| id in left;
        ghost var before := View();
        StepKeeps(before, PutFailure(id));
        FailOne(id, error);
        left := left - {id};
      }
    }

    method FailOne(id: nat, error: string)
      requires Enabled(View(), PutFailure(id)) && View().reader.error == error
      modifies this
      ensures View() == Apply(old(View()), PutFailure(id))
    {
      rest := Apply(View(), PutFailure(id));
      Fill(id, ConnectionFailure(error));
    }
  }

  // ---------------------------------------------------------------------------------------------
  // Inbound frames
  // ---------------------------------------------------------------------------------------------

  const PARSE_ERROR := -32700
  const INVALID_REQUEST := -32600
  const METHOD_NOT_FOUND := -32601
  const INTERNAL_ERROR := -32603

  /** The codes are those of JSON-RPC 2.0, section 5.1. */
  lemma CodesAreStandard()
    ensures PARSE_ERROR == -32700 && INVALID_REQUEST == -32600 && METHOD_NOT_FOUND == -32601 && INTERNAL_ERROR == -32603
  {
  }

  /** A line of input. Absent members are ""; `id` is the raw JSON text. */
  datatype Frame = Garbled | Frame(version: string, id: string, name: string, params: string)

  /** A reply carries the id of what it answers and a result or an error code, never both. */
  datatype Reply = Result(id: string, value: string) | Error(id: string, code: int)

  /** What a handler returns; an encoded result is None when it has no JSON form. */
  datatype Handled = Value(encoded: Option<string>) | Refused(code: int) | Failure

  type Handlers = map<string, string -> Handled>

  predicate Understood(f: Frame) { f.Frame? && (f.version == "" || f.version == "2.0") }

  predicate IsRequest(f: Frame) { Understood(f) && f.name != "" && f.id != "" }

  predicate IsNotification(f: Frame) { Understood(f) && f.name != "" && f.id == "" }

  predicate IsResponse(f: Frame) { Understood(f) && f.name == "" && f.id != "" }

  method DispatchRequest(f: Frame, handlers: Handlers) returns (reply: Reply)
    requires f.Frame?
    ensures AnswersRequest(f, handlers, reply)
  {
    if f.name !in handlers {
      return Error(f.id, METHOD_NOT_FOUND);
    }
    var handled := handlers[f.name](f.params);
    if handled.Refused? {
      return Error(f.id, handled.code);
    }
    if handled.Failure? || handled.encoded.None? {
      return Error(f.id, INTERNAL_ERROR);
    }
    reply := Result(f.id, handled.encoded.value);
  }

  /** What a request is to be answered: the handler's result or code, the internal error if there is no result to
      send, and an error of its own for a method nobody handles. */
  ghost predicate AnswersRequest(f: Frame, handlers: Handlers, reply: Reply)
    requires f.Frame?
  {
    if f.name !in handlers then reply == Error(f.id, METHOD_NOT_FOUND)
    else
      match handlers[f.name](f.params)
      case Value(Some(v)) => reply == Result(f.id, v)
      case Refused(code) => reply == Error(f.id, code)
      case _ => reply == Error(f.id, INTERNAL_ERROR)
  }

  /** Every request is answered once, under its own id, with what its handler says; responses and notifications
      are not answered, responses alone reach the pending calls, and notifications their notifier. */
  method HandleLine(f: Frame, handlers: Handlers, notifiers: set<string>)
    returns (replies: seq<Reply>, delivered: bool, notified: bool)
    ensures delivered <==> IsResponse(f)
    ensures notified <==> IsNotification(f) && f.name in notifiers
    ensures IsResponse(f) || IsNotification(f) ==> replies == []
    ensures IsRequest(f) ==> |replies| == 1 && AnswersRequest(f, handlers, replies[0])
    ensures f.Garbled? ==> replies == [Error("null", PARSE_ERROR)]
    ensures f.Frame? && !Understood(f) ==> replies == if f.id != "" then [Error(f.id, INVALID_REQUEST)] else []
    ensures Understood(f) && f.name == "" && f.id == "" ==> replies == []
  {
    replies, delivered, notified := [], false, false;
    if f.Garbled? {
      return [Error("null", PARSE_ERROR)], false, false;
    }
    if f.version != "" && f.version != "2.0" {
      if |f.id| > 0 {
        replies := [Error(f.id, INVALID_REQUEST)];
      }
      return;
    }
    if f.name == "" && |f.id| > 0 {
      delivered := true;
    } else if f.name != "" && |f.id| > 0 {
      var reply := DispatchRequest(f, handlers);
      replies := [reply];
    } else if f.name != "" {
      notified := f.name in notifiers;
    }
  }
}
