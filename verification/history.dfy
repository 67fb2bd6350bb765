/** The record of a session's turns: what is appended turn by turn is what a later load gives back. */
module History {
  import opened Text

  datatype Turn = Turn(user: string, assistant: string)

  /** Recorded events. `Noise` stands for every other event type, for payloads that are no message,
      and for messages of other roles. */
  datatype Event = Message(role: string, content: string) | Noise

  predicate Silent(e: Event) { e.Noise? || (e.role != "user" && e.role != "assistant") }

  function UserEvent(t: Turn): Event { Message("user", t.user) }

  function AnswerEvent(t: Turn): Event { Message("assistant", t.assistant) }

  /** What one turn appends: its prompt, and its answer unless that is empty. */
  function EventsOf(t: Turn): seq<Event> {
    if t.assistant != "" then [UserEvent(t), AnswerEvent(t)] else [UserEvent(t)]
  }

  function EventsOfAll(turns: seq<Turn>): seq<Event> {
    if turns == [] then [] else EventsOfAll(turns[..|turns| - 1]) + EventsOf(turns[|turns| - 1])
  }

  /** The loader's progress: finished records, and a prompt whose answer may follow. */
  datatype Progress = Progress(records: seq<Turn>, pending: Option<string>)

  function Step(p: Progress, e: Event): Progress {
    if Silent(e) then p
    else if e.role == "user" then
      Progress(if p.pending.Some? then p.records + [Turn(p.pending.value, "")] else p.records, Some(e.content))
    else Progress(p.records + [Turn(p.pending.GetOr(""), e.content)], None)
  }

  function Load(events: seq<Event>): Progress {
    if events == [] then Progress([], None) else Step(Load(events[..|events| - 1]), events[|events| - 1])
  }

  function Closed(p: Progress): seq<Turn> {
    if p.pending.Some? then p.records + [Turn(p.pending.value, "")] else p.records
  }

  function Spoken(events: seq<Event>): seq<Event> {
    if events == [] then []
    else Spoken(events[..|events| - 1]) + if Silent(events[|events| - 1]) then [] else [events[|events| - 1]]
  }

  // ---------------------------------------------------------------------------------------------
  // The code
  // ---------------------------------------------------------------------------------------------

  class Session {
    /** The stored events; without a store nothing is recorded. `saved` says whether an append worked. */
    var events: seq<Event>
    var history: seq<Turn>
    const stored: bool

    constructor (stored: bool)
      ensures this.stored == stored && events == [] && history == []
    {
      this.stored, events, history := stored, [], [];
    }

    method PersistTurn(user: string, assistant: string, saved: bool)
      modifies this
      ensures history == old(history) + [Turn(user, assistant)]
      ensures events == old(events) + if stored && saved then EventsOf(Turn(user, assistant)) else []
    {
      history := history + [Turn(user, assistant)];
      if !stored {
        return;
      }
      var added := [Message("user", user)];
      if assistant != "" {
        added := added + [Message("assistant", assistant)];
      }
      if saved {
        events := events + added;
      }
    }

    /** Other events share the log. */
    method Record(e: Event)
      requires Silent(e)
      modifies this`events
      ensures events == old(events) + [e]
    {
      events := events + [e];
    }

    method LoadHistory() returns (records: seq<Turn>)
      ensures records == if stored then Closed(Load(events)) else []
    {
      if !stored {
        return [];
      }
      records := [];
      var pendingUser, havePending := "", false;
      for i := 0 to |events|
        invariant Load(events[..i]) == Progress(records, if havePending then Some(pendingUser) else None)
        invariant !havePending ==> pendingUser == ""
      {
        assert events[..i + 1][..i] == events[..i];
        var e := events[i];
        if e.Noise? { continue; }
        if e.role == "user" {
          if havePending {
            records := records + [Turn(pendingUser, "")];
          }
          pendingUser, havePending := e.content, true;
        } else if e.role == "assistant" {
          records := records + [Turn(pendingUser, e.content)];
          pendingUser, havePending := "", false;
        }
      }
      assert events[..|events|] == events;
      if havePending {
        records := records + [Turn(pendingUser, "")];
      }
    }
  }

  // ---------------------------------------------------------------------------------------------
  // The round trip
  // ---------------------------------------------------------------------------------------------

  lemma LoadSnoc(events: seq<Event>, e: Event)
    ensures Load(events + [e]) == Step(Load(events), e)
  {
    assert (events + [e])[..|events|] == events;
  }

  /** What the loader skips makes no difference, wherever it stands. */
  lemma {:induction false} NoiseIsSkipped(events: seq<Event>)
    ensures Load(events) == Load(Spoken(events))
  {
    if events != [] {
      var n := |events| - 1;
      NoiseIsSkipped(events[..n]);
      if !Silent(events[n]) {
        LoadSnoc(Spoken(events[..n]), events[n]);
      } else {
        assert Spoken(events) == Spoken(events[..n]);
      }
    }
  }

  lemma {:induction false} LoadsTurns(turns: seq<Turn>)
    ensures Closed(Load(EventsOfAll(turns))) == turns
  {
    if turns != [] {
      var n := |turns| - 1;
      var before, t := EventsOfAll(turns[..n]), turns[n];
      LoadsTurns(turns[..n]);
      hide Step;
      LoadTurn(before, t);
      assert turns == turns[..n] + [t];
    }
  }

  /** A turn's events finish the prompt before and add the turn. */
  lemma LoadTurn(before: seq<Event>, t: Turn)
    ensures Closed(Load(before + EventsOf(t))) == Closed(Load(before)) + [t]
  {
    LoadSnoc(before, UserEvent(t));
    if t.assistant != "" {
      LoadSnoc(before + [UserEvent(t)], AnswerEvent(t));
      assert before + EventsOf(t) == before + [UserEvent(t)] + [AnswerEvent(t)];
    }
  }

  /** Whatever turns were recorded, empty prompts and empty answers included, and whatever else is in
      the log between their events, a load gives back exactly those turns. */
  lemma RoundTrip(turns: seq<Turn>, log: seq<Event>)
    requires Spoken(log) == EventsOfAll(turns)
    ensures Closed(Load(log)) == turns
  {
    NoiseIsSkipped(log);
    LoadsTurns(turns);
  }

  lemma {:induction false} SpokenConcat(a: seq<Event>, b: seq<Event>)
    ensures Spoken(a + b) == Spoken(a) + Spoken(b)
  {
    if b == [] {
      assert a + b == a;
    } else {
      assert (a + b)[..|a + b| - 1] == a + b[..|b| - 1];
      SpokenConcat(a, b[..|b| - 1]);
    }
  }

  /** Appending a turn, or anything else, keeps the log a record of the turns so far. */
  lemma LogGrows(turns: seq<Turn>, log: seq<Event>, t: Turn, e: Event)
    requires Spoken(log) == EventsOfAll(turns) && Silent(e)
    ensures Spoken(log + EventsOf(t)) == EventsOfAll(turns + [t])
    ensures Spoken(log + [e]) == EventsOfAll(turns)
  {
    hide EventsOf;
    SpokenConcat(log, EventsOf(t));
    SpokenConcat(log, [e]);
    TurnIsSpoken(t);
    SpokenOne(e);
    assert (turns + [t])[..|turns|] == turns;
    assert Spoken(log) + [] == Spoken(log);
  }

  lemma SpokenOne(e: Event)
    ensures Spoken([e]) == if Silent(e) then [] else [e]
  {
    assert [e][..0] == [];
  }

  lemma TurnIsSpoken(t: Turn)
    ensures Spoken(EventsOf(t)) == EventsOf(t)
  {
    hide Spoken;
    SpokenOne(UserEvent(t));
    SpokenOne(AnswerEvent(t));
    if t.assistant != "" {
      SpokenConcat([UserEvent(t)], [AnswerEvent(t)]);
      assert EventsOf(t) == [UserEvent(t)] + [AnswerEvent(t)];
    }
  }
}
