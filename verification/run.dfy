/** The agent run: the turn loop that sends the conversation, takes the model's reply, runs its tools,
    and decides whether to go on. The outside world is a `Setting`, so that a statement about all
    settings is a statement about all runs. */
module Run {
  import opened Text
  import opened Transcript
  import opened Compaction
  import opened Views
  import opened Turns
  import Prune
  import Compactor
  import Preserve
  import Guards
  import Schedules
  import Batch
  import Carried
  import PreservedBlock
  import Rounds

  method HistorySafeToolCalls<W>(setting: Setting<W>, calls: seq<ToolCall>) returns (safe: seq<ToolCall>)
    ensures safe == ReplayCalls(setting, calls)
  {
    hide TrimSpace;
    safe := calls;
    for i := 0 to |calls|
      invariant |safe| == |calls|
      invariant forall k | i <= k < |calls| :: safe[k] == calls[k]
      invariant forall k | 0 <= k < i :: safe[k] == calls[k].(arguments := ReplayArguments(setting, calls[k].arguments))
    {
      var args := TrimSpace(calls[i].arguments);
      if args == "" {
        safe := safe[i := calls[i].(arguments := "{}")];
      } else if !setting.validJson(args) {
        var first := setting.recoverable(args);
        safe := safe[i := calls[i].(arguments := if first.Some? then first.value else "{}")];
      }
    }
  }

  /** Duplicates removed, first-seen order kept. */
  method DedupeStrings(values: seq<string>) returns (out: seq<string>)
    ensures out == Preserve.FirstSeen(values)
  {
    var seen: set<string> := {};
    out := [];
    for i := 0 to |values|
      invariant out == Preserve.FirstSeen(values[..i])
      invariant forall v :: v in seen <==> v in out
    {
      assert values[..i + 1][..i] == values[..i];
      if values[i] in seen { continue; }
      seen := seen + {values[i]};
      out := out + [values[i]];
    }
    assert values[..|values|] == values;
  }

  class AgentRun<W(!new)> {
    const setting: Setting<W>
    const guards: Guards.GuardState
    const compactor: Compactor.CompactionState
    var messages: seq<Message>
    var world: W
    var loaded: set<string>
    var continueNudges: nat
    var acceptanceRequested: bool
    /** The whole conversation, every request sent, and the turns the no-output guard counted. */
    ghost var history: seq<Message>
    ghost var sent: seq<Request>
    ghost var counted: seq<Guards.Turn>
    /** The tool outcomes taken, and the tool results the failure guard was shown. */
    ghost var outcomes: seq<Schedules.Outcome>
    ghost var trace: seq<Guards.ToolOutcome>
    /** The replies accepted so far, and what was done with them. */
    ghost var heard: seq<Heard>
    /** Every call of the compactor so far. */
    ghost var compactions: seq<Carried.Compacting>
    var requests: nat

    ghost predicate Sound()
      reads this, guards
    {
      && Replayable(messages, history)
      && requests == |sent|
      && (forall k | 0 <= k < |sent| :: Backed(sent[k], history))
      && continueNudges <= MAX_CONTINUE_NUDGES
      && guards.pending == setting.pending
      && guards.emptyTurns == Guards.TrailingEmpty(counted)
      && guards.toolFailures == Guards.AfterResults(Guards.FRESH, trace).toolFailures
      && compactor.preserveLast == setting.preserveLast
      && Carried.Replays(setting.codec, compactions, history, messages)
    }

    constructor (setting: Setting<W>, world: W)
      ensures Sound() && this.setting == setting && this.world == world
      ensures sent == [] && counted == [] && compactions == [] && heard == [] && !compactor.reactiveAttempted
      ensures InStep()
      ensures fresh(guards) && fresh(compactor)
    {
      this.setting := setting;
      guards := new Guards.GuardState(setting.pending);
      compactor := new Compactor.CompactionState(setting.contextWindow, setting.preserveLast);
      this.world := world;
      messages := [Message(System, setting.system, [], "", 0), Message(User, setting.prompt, [], "", setting.images)];
      history := [Message(System, setting.system, [], "", 0), Message(User, setting.prompt, [], "", setting.images)];
      loaded, continueNudges, acceptanceRequested := {}, 0, false;
      sent, counted, outcomes, trace, requests, compactions, heard := [], [], [], [], 0, [], [];
      new;
      SeedSound(messages);
    }

    /** The run's counts are what the replies heard amount to, and the log of replies is true of the run. */
    ghost predicate InStep()
      reads this, guards
    {
      && StandsAt(setting, RepliesOf(heard), counted, continueNudges, acceptanceRequested, guards.planItemsPending)
      && Follows(setting, heard, sent, history, trace)
    }

    /** Append a user note. */
    method Say(text: string)
      requires Sound()
      modifies this`messages, this`history
      ensures Sound()
      ensures messages == old(messages) + [Note(text)] && history == old(history) + [Note(text)]
    {
      hide Carried.Replays, Replayable, Backed, Guards.AfterResults, Guards.TrailingEmpty;
      Grow([Note(text)]);
      ReplayableSaid(messages, history, text);
      messages := messages + [Note(text)];
      history := history + [Note(text)];
    }

    method SayIfAny(text: string)
      requires Sound()
      modifies this`messages, this`history
      ensures Sound() && history == old(history) + Texts(text) && messages == old(messages) + Texts(text)
    {
      if text != "" {
        Say(text);
      }
    }

    lemma Grow(more: seq<Message>)
      requires Sound()
      ensures forall k | 0 <= k < |sent| :: Backed(sent[k], history + more)
      ensures Carried.Replays(setting.codec, compactions, history + more, messages + more)
    {
      hide Carried.Replays;
      Carried.ReplaysGrow(setting.codec, compactions, history, messages, more);
      forall k | 0 <= k < |sent| ensures Backed(sent[k], history + more) {
        BackedLater(sent[k], history, more);
      }
    }

    /** Take over a transcript grown by an assistant message and the results of its calls. */
    method Adopt(grown: seq<Message>, ghost block: seq<Message>)
      requires Sound() && grown == messages + block
      requires block != [] && block[0].role == Assistant && Answers(block[0].calls, block[1..])
      modifies this`messages, this`history
      ensures Sound()
      ensures messages == grown && history == old(history) + block
    {
      hide Carried.Replays, Replayable, Backed, Guards.AfterResults, Guards.TrailingEmpty;
      Grow(block);
      ReplayableTurn(messages, history, block);
      messages := grown;
      history := history + block;
    }

    /** `reply` is what the provider said to exactly the transcript as it stands. */
    ghost predicate Answering(reply: Reply)
      reads this
    {
      && sent != [] && sent[|sent| - 1] == Request(messages, history)
      && setting.provider(|sent| - 1, messages) == Streamed(reply)
    }

    /** The provider's last word was this error. */
    ghost predicate LastSaid(error: string)
      reads this
    {
      sent != [] &&
      match setting.provider(|sent| - 1, sent[|sent| - 1].messages)
      case Unreachable(e) => e == error
      case Streamed(reply) => reply.error == error
    }

    /** What the error that ends a run in some turn says. */
    ghost predicate ErrorFits(error: RunError, turn: TurnSetting<W>)
      reads this, compactor
    {
      match error
      case ImageRejected(e) => setting.imageRejection(e) && LastSaid(e)
      case NotCompacted => compactor.reactiveAttempted
      case Provider(e) => LastSaid(e)
      case Cancelled(e) => turn.lost == Some(e) || turn.backoff == Some(e)
      case ToolAbort(e) =>
        outcomes != [] &&
        var o := outcomes[|outcomes| - 1];
        o.abort == Some(e) || (o.abort.None? && exists i :: turn.tools.cancelled(i) == Some(e))
    }

    /** Send the conversation as it stands. */
    method Send() returns (reply: Sent)
      requires Sound()
      modifies this`sent, this`requests
      ensures Sound()
      ensures sent == old(sent) + [Request(messages, history)] && requests == old(requests) + 1
      ensures reply == setting.provider(|old(sent)|, messages)
      ensures reply.Streamed? ==> Answering(reply.reply)
      ensures reply.Unreachable? ==> LastSaid(reply.error)
    {
      hide Carried.Replays, Replayable, Backed, Guards.AfterResults, Guards.TrailingEmpty;
      BackedNow(messages, history);
      reply := setting.provider(requests, messages);
      requests := requests + 1;
      sent := sent + [Request(messages, history)];
    }

    /** Where the turn's request stands. */
    ghost function Now(): Standing
      reads this, compactor
    {
      Standing(compactor.View(), messages, |sent|)
    }

    /** The call of the compactor that is due now. */
    ghost function CallNow(turn: TurnSetting<W>, reactive: bool, limit: bool): Carried.Compacting
      reads this, compactor
    {
      Carried.Compacting(history, messages, compactor.View(), turn.toolTokens, turn.summarize, reactive, limit)
    }

    method CompactBeforeSend(turn: TurnSetting<W>)
      requires Sound()
      modifies this`messages, this`compactions, compactor
      ensures Sound()
      ensures compactor.reactiveAttempted == old(compactor.reactiveAttempted)
      ensures compactions == old(compactions) + [old(CallNow(turn, false, false))]
      ensures messages == Carried.Result(setting.codec, old(CallNow(turn, false, false)))
      ensures compactor.View() == TunerAfter(old(CallNow(turn, false, false)))
      ensures Logs(setting, turn, old(compactions), compactions, 1)
    {
      hide Replayable, Backed, Carried.Replays, Guards.AfterResults, Guards.TrailingEmpty;
      hide SummaryWriter, Compactor.MaybeCompactSpec, Compactor.RecoverSpec;
      ghost var call := CallNow(turn, false, false);
      var out := Shrink(turn);
      ReplayableRewritten(call.tuner, turn);
      Carried.ReplaysOneMore(setting.codec, compactions, call);
      compactions := compactions + [call];
      messages := out;
    }

    method Shrink(turn: TurnSetting<W>) returns (out: seq<Message>)
      modifies compactor
      ensures out == Compactor.MaybeCompactSpec(old(compactor.View()), SummaryWriter(setting.codec), messages, turn.toolTokens,
                                                turn.summarize).1
      ensures compactor.View() == old(compactor.View()).(lowWaterMark := compactor.lowWaterMark)
      ensures compactor.View() == Compactor.MaybeCompactSpec(old(compactor.View()), SummaryWriter(setting.codec), messages, turn.toolTokens,
                                                             turn.summarize).0
    {
      hide SummaryWriter, Compactor.Size, CompactSpec, Prune.Pruned;
      out := compactor.MaybeCompact(SummaryWriter(setting.codec), messages, turn.toolTokens, turn.summarize);
    }

    lemma ReplayableRewritten(t: Compactor.Tuner, turn: TurnSetting<W>)
      requires Replayable(messages, history)
      ensures Paired(messages) && Seeded(history)
      ensures Replayable(Compactor.MaybeCompactSpec(t, SummaryWriter(setting.codec), messages, turn.toolTokens, turn.summarize).1, history)
      ensures forall limit ::
                Replayable(Compactor.RecoverSpec(t, SummaryWriter(setting.codec), messages, turn.toolTokens, limit, turn.summarize).messages, history)
    {
      hide Compactor.MaybeCompactSpec, Compactor.RecoverSpec, Compactor.Rewrites, SummaryWriter;
      var write := SummaryWriter(setting.codec);
      Compactor.ProactiveRewrites(t, write, messages, turn.toolTokens, turn.summarize);
      RewriteKeepsView(history, messages, Compactor.MaybeCompactSpec(t, write, messages, turn.toolTokens, turn.summarize).1);
      forall limit ensures Replayable(Compactor.RecoverSpec(t, write, messages, turn.toolTokens, limit, turn.summarize).messages, history) {
        Compactor.ReactiveRewrites(t, write, messages, turn.toolTokens, limit, turn.summarize);
        RewriteKeepsView(history, messages, Compactor.RecoverSpec(t, write, messages, turn.toolTokens, limit, turn.summarize).messages);
      }
    }

    /** The one reactive compaction a run has. */
    method Recover(turn: TurnSetting<W>, error: string) returns (retried: bool, failed: bool)
      requires Sound()
      modifies this`messages, this`compactions, compactor
      ensures Sound()
      ensures retried ==> !old(compactor.reactiveAttempted) && compactor.reactiveAttempted
      ensures !retried ==> compactor.reactiveAttempted == old(compactor.reactiveAttempted) && messages == old(messages)
      ensures failed ==> retried
      ensures var r := Compactor.RecoverSpec(old(compactor.View()), SummaryWriter(setting.codec), old(messages), turn.toolTokens,
                                             setting.contextLimit(error), turn.summarize);
              messages == r.messages && retried == r.retried && failed == r.failed && compactor.View() == r.tuner
      ensures compactions == old(compactions) + [old(CallNow(turn, true, setting.contextLimit(error)))]
      ensures messages == Carried.Result(setting.codec, old(CallNow(turn, true, setting.contextLimit(error))))
      ensures Logs(setting, turn, old(compactions), compactions, 1)
    {
      hide SummaryWriter, CompactSpec, Compactor.Size;
      hide Replayable, Backed, Carried.Replays, Guards.AfterResults, Guards.TrailingEmpty;
      ghost var call := CallNow(turn, true, setting.contextLimit(error));
      var out;
      out, retried, failed := compactor.Recover(
        SummaryWriter(setting.codec), messages, turn.toolTokens, setting.contextLimit(error), turn.summarize);
      ReplayableRewritten(call.tuner, turn);
      Carried.ReplaysOneMore(setting.codec, compactions, call);
      compactions := compactions + [call];
      messages := out;
    }

    /** What the initial stream and a reissued one get alike when they carry an error. */
    method RecoverStreamError(turn: TurnSetting<W>, failed: Reply) returns (asked: Asked)
      requires Sound() && Answering(failed)
      modifies this`messages, this`compactions, this`sent, this`requests, compactor
      ensures Sound()
      ensures old(sent) <= sent
      ensures RecoveredAs(setting, turn, old(Now()), failed, asked, Now())
      ensures Logs(setting, turn, old(compactions), compactions, 1)
      ensures requests + Flag(old(compactor.reactiveAttempted)) <= old(requests) + Flag(compactor.reactiveAttempted)
      ensures asked.Answered? ==> Answering(asked.reply)
      ensures asked.Lost? ==> ErrorFits(asked.error, turn) && !asked.error.ToolAbort?
    {
      hide Sound, RetriedAs, Logs;
      LogsNothing(setting, turn, compactions, 1);
      if setting.imageRejection(failed.error) {
        return Lost(ImageRejected(failed.error));
      }
      asked := Retry(turn, failed.error, Answered(failed));
    }

    /** The reactive compaction after an error, and the request once more if it helped. */
    method Retry(turn: TurnSetting<W>, error: string, otherwise: Asked) returns (asked: Asked)
      requires Sound() && (otherwise.Answered? ==> Answering(otherwise.reply))
      requires otherwise.Lost? ==> ErrorFits(otherwise.error, turn) && !otherwise.error.ToolAbort?
      modifies this`messages, this`compactions, this`sent, this`requests, compactor
      ensures Sound()
      ensures old(sent) <= sent
      ensures RetriedAs(setting, turn, old(Now()), error, otherwise, asked, Now())
      ensures Logs(setting, turn, old(compactions), compactions, 1)
      ensures requests + Flag(old(compactor.reactiveAttempted)) <= old(requests) + Flag(compactor.reactiveAttempted)
      ensures asked.Answered? ==> Answering(asked.reply)
      ensures asked.Lost? ==> ErrorFits(asked.error, turn) && !asked.error.ToolAbort?
    {
      hide Sound, Carried.Result, Logs, CallNow, Compactor.RecoverSpec, SummaryWriter;
      var retried, broken := Recover(turn, error);
      if !retried {
        return otherwise;
      }
      if broken {
        return Lost(NotCompacted);
      }
      var reply := Send();
      asked := if reply.Unreachable? then Lost(Provider(reply.error)) else Answered(reply.reply);
    }

    /** The first stream of a turn, with its one reactive retry. */
    method Connect(turn: TurnSetting<W>) returns (asked: Asked)
      requires Sound()
      modifies this`messages, this`compactions, this`sent, this`requests, compactor
      ensures Sound()
      ensures old(sent) + [Request(old(messages), history)] <= sent
      ensures ConnectedAs(setting, turn, old(Now()), asked, Now())
      ensures asked.Answered? && setting.provider(|old(sent)|, old(messages)).Streamed? ==>
                compactions == old(compactions) && compactor.View() == old(compactor.View())
      ensures Logs(setting, turn, old(compactions), compactions, 1)
      ensures requests + Flag(old(compactor.reactiveAttempted)) <= old(requests) + 1 + Flag(compactor.reactiveAttempted)
      ensures asked.Answered? ==> Answering(asked.reply)
      ensures asked.Lost? ==> ErrorFits(asked.error, turn) && !asked.error.ToolAbort?
    {
      hide Sound, RetriedAs, Logs, ErrorFits;
      LogsNothing(setting, turn, compactions, 1);
      var reply := Send();
      if reply.Streamed? {
        return Answered(reply.reply);
      }
      RefusedFits(turn, reply.error);
      if setting.imageRejection(reply.error) {
        return Lost(ImageRejected(reply.error));
      }
      asked := Retry(turn, reply.error, Lost(Provider(reply.error)));
    }

    lemma RefusedFits(turn: TurnSetting<W>, error: string)
      requires LastSaid(error)
      ensures ErrorFits(Provider(error), turn) && (setting.imageRejection(error) ==> ErrorFits(ImageRejected(error), turn))
    {
    }

    /** Reissue a turn that stalled before any answer text was committed. */
    method RetryStalls(turn: TurnSetting<W>, stalled: Reply, shown0: bool) returns (asked: Asked)
      requires Sound() && Answering(stalled)
      modifies this`sent, this`requests
      ensures Sound() && requests <= old(requests) + MAX_STALL_RETRIES
      ensures old(sent) <= sent && ReissuedAs(setting, turn, messages, |old(sent)|, stalled, shown0, asked, |sent|)
      ensures asked.Answered? ==> Answering(asked.reply)
      ensures asked.Lost? ==> ErrorFits(asked.error, turn) && !asked.error.ToolAbort?
    {
      hide Sound, ErrorFits;
      var reply, shown, attempt := stalled, shown0, 1;
      while attempt <= MAX_STALL_RETRIES && setting.timeout(reply.error) && !shown && reply.text == ""
        invariant Sound() && 1 <= attempt <= MAX_STALL_RETRIES + 1 && requests < old(requests) + attempt
        invariant Answering(reply) && old(sent) <= sent && |sent| == |old(sent)| + attempt - 1
        invariant attempt == 1 ==> reply == stalled && shown == shown0
        invariant attempt == 2 ==> Stalled(setting, stalled, shown0) && turn.backoff.None?
                                   && setting.provider(|old(sent)|, messages) == Streamed(reply)
      {
        if turn.backoff.Some? {
          LostFits(turn);
          return Lost(Cancelled(turn.backoff.value));
        }
        var again := Send();
        if again.Unreachable? {
          LastSaidFits(turn, again.error);
          return Lost(Provider(again.error));
        }
        reply, shown, attempt := again.reply, shown || again.reply.shown, attempt + 1;
      }
      asked := Answered(reply);
    }

    lemma LostFits(turn: TurnSetting<W>)
      ensures turn.lost.Some? ==> ErrorFits(Cancelled(turn.lost.value), turn)
      ensures turn.backoff.Some? ==> ErrorFits(Cancelled(turn.backoff.value), turn)
    {
    }

    lemma LastSaidFits(turn: TurnSetting<W>, error: string)
      requires LastSaid(error)
      ensures ErrorFits(Provider(error), turn)
    {
    }

    /** One turn's request: at most two, and one more where the run's one reactive retry is spent. */
    method Ask(turn: TurnSetting<W>) returns (asked: Asked)
      requires Sound()
      modifies this`messages, this`compactions, this`sent, this`requests, compactor
      ensures Sound()
      ensures Logs(setting, turn, old(compactions), compactions, 4)
      ensures asked.Answered? ==> asked.reply.error == ""
      ensures requests + Flag(old(compactor.reactiveAttempted)) <= old(requests) + 2 + Flag(compactor.reactiveAttempted)
      ensures asked.Answered? ==> Answering(asked.reply)
      ensures asked.Lost? ==> ErrorFits(asked.error, turn) && !asked.error.ToolAbort?
      ensures var call := old(CallNow(turn, false, false));
              && old(compactions) + [call] <= compactions
              && old(sent) + [Request(Carried.Result(setting.codec, call), history)] <= sent
              && AskedAs(setting, turn, Standing(TunerAfter(call), Carried.Result(setting.codec, call), |old(sent)|), asked, Now())
    {
      hide Sound, Carried.Result, Logs, CallNow, ErrorFits, Answering, ConnectedAs, ReadAs, TunerAfter;
      ghost var log0 := compactions;
      CompactBeforeSend(turn);
      ghost var log1, start := compactions, Now();
      LogsPrefix(setting, turn, log0, log1, 1);
      asked := Connect(turn);
      ghost var log2, first, mid := compactions, asked, Now();
      LogsPrefix(setting, turn, log1, log2, 1);
      LogsTwice(setting, turn, log0, log1, log2, 1, 1);
      LogsLess(setting, turn, log0, log2, 2, 4);
      if asked.Lost? {
        Asks(setting, turn, start, first, mid, asked, mid);
        return;
      }
      asked := ReadStream(turn, asked.reply);
      LogsPrefix(setting, turn, log2, compactions, 2);
      LogsTwice(setting, turn, log0, log2, compactions, 2, 2);
      Asks(setting, turn, start, first, mid, asked, Now());
    }

    /** The compactor's state after a proactive call. */
    ghost function TunerAfter(c: Carried.Compacting): Compactor.Tuner {
      Compactor.MaybeCompactSpec(c.tuner, SummaryWriter(setting.codec), c.shown, c.toolTokens, c.summarize).0
    }

    /** The rest of a turn's request once a stream was collected. */
    method ReadStream(turn: TurnSetting<W>, first: Reply) returns (asked: Asked)
      requires Sound() && Answering(first)
      modifies this`messages, this`compactions, this`sent, this`requests, compactor
      ensures Sound()
      ensures Logs(setting, turn, old(compactions), compactions, 2)
      ensures asked.Answered? ==> asked.reply.error == ""
      ensures requests + Flag(old(compactor.reactiveAttempted)) <= old(requests) + 1 + Flag(compactor.reactiveAttempted)
      ensures asked.Answered? ==> Answering(asked.reply)
      ensures asked.Lost? ==> ErrorFits(asked.error, turn) && !asked.error.ToolAbort?
      ensures old(sent) <= sent
      ensures ReadAs(setting, turn, old(Now()), first, asked, Now())
    {
      hide Sound, Logs, ErrorFits, Answering, RecoveredAs, SettledAs;
      ghost var log0, start := compactions, Now();
      LogsNothing(setting, turn, log0, 1);
      asked := Answered(first);
      var shown := first.shown;
      if first.error != "" {
        asked := RecoverStreamError(turn, first);
        LogsLess(setting, turn, log0, compactions, 1, 2);
        if asked.Lost? {
          Reads(setting, turn, start, first, asked, Now(), asked, Now());
          return;
        }
      }
      ghost var log1, rec, mid := compactions, asked, Now();
      asked := Settle(turn, asked.reply, shown);
      LogsTwice(setting, turn, log0, log1, compactions, 1, 1);
      if first.error != "" {
        Reads(setting, turn, start, first, rec, mid, asked, Now());
      }
    }

    method Settle(turn: TurnSetting<W>, reply: Reply, shown: bool) returns (asked: Asked)
      requires Sound() && Answering(reply)
      modifies this`messages, this`compactions, this`sent, this`requests, compactor
      ensures Sound()
      ensures Logs(setting, turn, old(compactions), compactions, 1)
      ensures asked.Answered? ==> asked.reply.error == ""
      ensures requests + Flag(old(compactor.reactiveAttempted)) <= old(requests) + 1 + Flag(compactor.reactiveAttempted)
      ensures asked.Answered? ==> Answering(asked.reply)
      ensures asked.Lost? ==> ErrorFits(asked.error, turn) && !asked.error.ToolAbort?
      ensures old(sent) <= sent
      ensures SettledAs(setting, turn, old(Now()), reply, shown, asked, Now())
    {
      hide Sound, Logs, ReissuedAs, MendedAs, SettledAs, ErrorFits, Compactor.CalibrateSpec;
      LostFits(turn);
      LogsNothing(setting, turn, compactions, 1);
      ghost var start := Now();
      if turn.lost.Some? {
        LostSettles(setting, turn, start, reply, shown);
        return Lost(Cancelled(turn.lost.value));
      }
      asked := RetryStalls(turn, reply, shown);
      ghost var mid, m := asked, |sent|;
      asked := Mend(turn, asked);
      ghost var last := Now();
      if asked.Answered? {
        CountTokens(turn, asked.reply.inputTokens);
      }
      Settles(setting, turn, start, reply, shown, mid, m, asked, last, Now());
    }

    /** The last chance of a stream with an error. */
    method Mend(turn: TurnSetting<W>, mid: Asked) returns (asked: Asked)
      requires Sound() && (mid.Answered? ==> Answering(mid.reply))
      requires mid.Lost? ==> ErrorFits(mid.error, turn) && !mid.error.ToolAbort?
      modifies this`messages, this`compactions, this`sent, this`requests, compactor
      ensures Sound()
      ensures Logs(setting, turn, old(compactions), compactions, 1)
      ensures asked.Answered? ==> asked.reply.error == "" && Answering(asked.reply)
      ensures requests + Flag(old(compactor.reactiveAttempted)) <= old(requests) + Flag(compactor.reactiveAttempted)
      ensures asked.Lost? ==> ErrorFits(asked.error, turn) && !asked.error.ToolAbort?
      ensures old(sent) <= sent && MendedAs(setting, turn, old(Now()), mid, asked, Now())
    {
      hide Sound, Logs, RecoveredAs, MendedAs, ErrorFits;
      LogsNothing(setting, turn, compactions, 1);
      ghost var start := Now();
      if mid.Lost? || mid.reply.error == "" {
        NothingToMend(setting, turn, start, mid);
        return mid;
      }
      asked := RecoverStreamError(turn, mid.reply);
      Mends(setting, turn, start, mid, asked, Now());
      if asked.Answered? && asked.reply.error != "" {
        AnswerFits(turn, asked.reply);
        asked := Lost(Provider(asked.reply.error));
      }
    }

    lemma AnswerFits(turn: TurnSetting<W>, reply: Reply)
      requires Answering(reply)
      ensures ErrorFits(Provider(reply.error), turn)
    {
    }

    /** The provider's token count goes into the calibration. */
    method CountTokens(turn: TurnSetting<W>, inputTokens: int)
      requires Sound()
      modifies compactor`calibrationRatio
      ensures Sound()
      ensures compactor.View() == Compactor.CalibrateSpec(old(compactor.View()), Prune.EstimateTokens(messages) + turn.toolTokens, inputTokens)
    {
      hide Carried.Replays, Replayable, Backed, Guards.AfterResults, Guards.TrailingEmpty, Compactor.CalibrateSpec;
      var estimate := Prune.EstimateMessages(messages);
      compactor.Calibrate(estimate + turn.toolTokens, inputTokens);
    }

    method Observe(reply: Reply) returns (stop: bool)
      requires Sound()
      modifies guards, this`counted
      ensures Sound() && counted == old(counted) + [Guards.Turn(reply.calls, reply.text, reply.reasoning)]
      ensures stop <==> ThreeEmpty(counted)
      ensures guards.View() == Guards.ObserveTurnSpec(old(guards.View()), setting.pending, counted[|counted| - 1])
    {
      hide Carried.Replays, Replayable, Backed, Answering, Guards.ObserveTurnSpec, Guards.IsEmptyTurn;
      var turn := Guards.Turn(reply.calls, reply.text, reply.reasoning);
      Guards.ObservedFields(guards.View(), guards.pending, turn);
      counted := counted + [turn];
      assert counted[..|counted| - 1] == old(counted);
      stop := guards.ObserveTurn(turn);
      Guards.TrailingAtLeast(counted, 3);
    }

    /** Text without a tool call: the end of the work, or a reason to go on. */
    method JudgeAnswer(turn: TurnSetting<W>, reply: Reply) returns (flow: Flow)
      requires Sound() && reply.calls == []
      modifies this`messages, this`history, this`continueNudges, this`acceptanceRequested, this`counted, guards
      ensures Sound()
      ensures flow != OverBudget
      ensures counted == if reply.dropped > 0 then old(counted) else old(counted) + [TurnOf(reply)]
      ensures guards.planItemsPending == old(guards.planItemsPending)
      ensures var planPending := guards.planItemsPending > 0;
              var judged := reply.dropped == 0 && !ThreeEmpty(counted) && TrimSpace(reply.text) != "";
              && continueNudges == old(continueNudges)
                                   + Flag(judged && NudgesOn(setting, reply.text, old(continueNudges), planPending))
              && (acceptanceRequested <==>
                    (old(acceptanceRequested)
                     || (judged && ChecksAcceptance(setting, reply.text, old(continueNudges), old(acceptanceRequested), planPending))))
      ensures var v := Judged(setting, reply, turn.lateDiagnostics, old(continueNudges), old(acceptanceRequested),
                              old(guards.planItemsPending) > 0, ThreeEmpty(counted));
              match v
              case GoOn(note) => flow == Next && messages == old(messages) + [Note(note)] && history == old(history) + [Note(note)]
              case End(ending) =>
                flow == Return(ending) && messages == old(messages) && history == old(history)
                && acceptanceRequested == old(acceptanceRequested) && continueNudges == old(continueNudges)
    {
      hide Carried.Replays, Replayable, Backed, Answering, TrimSpace, ThreeEmpty, Guards.IsEmptyTurn, JudgedText;
      if reply.dropped > 0 {
        Say(setting.wording(DroppedCall));
        return Next;
      }
      var stop := Observe(reply);
      if stop {
        return Return(NoOutput);
      }
      assert guards.planItemsPending == old(guards.planItemsPending);
      if TrimSpace(reply.text) == "" {
        Say(setting.wording(EmptyResponse));
        return Next;
      }
      flow := JudgeText(turn.lateDiagnostics, reply.text);
    }

    method JudgeText(late: string, text: string) returns (flow: Flow)
      requires Sound()
      modifies this`messages, this`history, this`continueNudges, this`acceptanceRequested
      ensures Sound()
      ensures match JudgedText(setting, text, late, old(continueNudges), old(acceptanceRequested), guards.planItemsPending > 0)
              case GoOn(note) => flow == Next && messages == old(messages) + [Note(note)] && history == old(history) + [Note(note)]
              case End(ending) =>
                flow == Return(ending) && messages == old(messages) && history == old(history)
                && acceptanceRequested == old(acceptanceRequested) && continueNudges == old(continueNudges)
      ensures var planPending := guards.planItemsPending > 0;
              && continueNudges == old(continueNudges) + Flag(NudgesOn(setting, text, old(continueNudges), planPending))
              && acceptanceRequested == (old(acceptanceRequested)
                   || ChecksAcceptance(setting, text, old(continueNudges), old(acceptanceRequested), planPending))
    {
      hide Sound;
      if setting.requireCompletion {
        var reason := setting.admission(text);
        if reason != "" {
          return Return(Incomplete(text, reason));
        }
        var cue, planPending := setting.cue(text), guards.planItemsPending > 0;
        if cue || planPending {
          if continueNudges < MAX_CONTINUE_NUDGES {
            SpendNudge();
            Say(setting.wording(if cue then ContinueAfterCue else ContinueWithPlan));
            return Next;
          }
          if cue {
            return Return(Incomplete(text, "mid-step"));
          }
        }
        if setting.selfCorrect && !acceptanceRequested {
          SpendAcceptance();
          Say(setting.wording(AcceptanceCheck));
          return Next;
        }
      }
      if late != "" {
        Say(late);
        return Next;
      }
      flow := Return(Finished(text));
    }

    method SpendNudge()
      requires Sound() && continueNudges < MAX_CONTINUE_NUDGES
      modifies this`continueNudges
      ensures Sound() && continueNudges == old(continueNudges) + 1
    {
      continueNudges := continueNudges + 1;
    }

    method SpendAcceptance()
      requires Sound()
      modifies this`acceptanceRequested
      ensures Sound() && acceptanceRequested
    {
      acceptanceRequested := true;
    }

    method AnswerTurn(turn: TurnSetting<W>, reply: Reply, ghost turns: nat) returns (flow: Flow)
      requires Sound() && reply.calls == []
      modifies this`messages, this`history, this`continueNudges, this`acceptanceRequested, this`counted, guards
      ensures Sound()
      ensures flow != OverBudget
      ensures counted == if reply.dropped > 0 then old(counted) else old(counted) + [TurnOf(reply)]
      ensures guards.planItemsPending == old(guards.planItemsPending)
      ensures var planPending := guards.planItemsPending > 0;
              var judged := reply.dropped == 0 && !ThreeEmpty(counted) && TrimSpace(reply.text) != "";
              && continueNudges == old(continueNudges)
                                   + Flag(judged && NudgesOn(setting, reply.text, old(continueNudges), planPending))
              && (acceptanceRequested <==>
                    (old(acceptanceRequested)
                     || (judged && ChecksAcceptance(setting, reply.text, old(continueNudges), old(acceptanceRequested), planPending))))
      ensures var v, m := Judged(setting, reply, turn.lateDiagnostics, old(continueNudges), old(acceptanceRequested),
                                 guards.planItemsPending > 0, ThreeEmpty(counted)), Speech(reply.text, []);
              match v
              case GoOn(note) => flow == Next && messages == old(messages) + [m, Note(note)] && history == old(history) + [m, Note(note)]
              case End(ending) => flow == Return(ending) && messages == old(messages) + [m] && history == old(history) + [m]
      ensures flow.Return? ==> EndsWell(flow.ending, turns)
    {
      hide Sound, PassesGate, ThreeEmpty, TrimSpace, Judged, JudgedText;
      var m := Speech(reply.text, []);
      Adopt(messages + [m], [m]);
      flow := JudgeAnswer(turn, reply);
      SoundSays();
      FinishesIff(setting, reply, turn.lateDiagnostics, old(continueNudges), old(acceptanceRequested),
                  old(guards.planItemsPending) > 0, ThreeEmpty(counted));
      IncompleteMeans(setting, reply, turn.lateDiagnostics, old(continueNudges), old(acceptanceRequested),
                      old(guards.planItemsPending) > 0, ThreeEmpty(counted));
      EndingKinds(setting, reply, turn.lateDiagnostics, old(continueNudges), old(acceptanceRequested),
                  old(guards.planItemsPending) > 0, ThreeEmpty(counted));
    }

    /** The batch, before its results are taken over. */
    method CallTools(turn: TurnSetting<W>, m: Message, calls: seq<ToolCall>)
      returns (out: Batch.Progress, ghost results: seq<Message>, ghost ran: Ran)
      requires Sound() && Schedules.KeepsIDs(turn.tools)
      modifies guards, this`world, this`outcomes, this`trace
      ensures Sound()
      ensures RanAs(turn.tools, old(world), Started(messages + [m], old(guards.View()), loaded), calls, ran, out, world)
      ensures out.messages == messages + [m] + results && Answers(calls, results) && guards.View() == out.guards
      ensures ran.taken <= |ran.known| && outcomes == old(outcomes) + ran.known[..ran.taken]
      ensures Batch.ExitMeans(turn.tools, ran.known, ran.taken, trace, out.exit)
      ensures old(trace) <= trace && out.guards == old(guards.View()).(toolFailures := out.guards.toolFailures)
      ensures BatchFits(turn, Started(messages + [m], old(guards.View()), loaded), calls, ran, out, old(trace), results)
    {
      hide Carried.Replays, Replayable, Backed, Answering, Batch.Sequential, Batch.Taken, Batch.Watched, Batch.ExitMeans, Batch.StopsAtFirst, Batch.TakesAlong;
      hide Schedules.Yields, Schedules.IsSchedule, Guards.AfterResults, Guards.TrailingEmpty;
      var start := Started(messages + [m], guards.View(), loaded);
      var after, order, known, n;
      out, after, order, known, n := Batch.RunBatch(turn.tools, world, start, guards, calls);
      Batch.KnownIDs(turn.tools, world, calls, order, known, after);
      results := BatchIs(turn, start, calls, known, n, out);
      trace := trace + Batch.Watched(turn.tools, calls, known, Batch.WatchedCount(out.exit, n));
      outcomes := outcomes + known[..n];
      ran := Ran(order, known, n);
      world := after;
    }

    lemma BatchIs(turn: TurnSetting<W>, start: Batch.Progress, calls: seq<ToolCall>, known: seq<Schedules.Outcome>, n: nat,
                  out: Batch.Progress) returns (results: seq<Message>)
      requires start.exit == Batch.Running && Batch.Takes(turn.tools, start, calls, known, n, out)
      requires forall k | 0 <= k < |known| :: known[k].result.callID == calls[k].id
      requires start.guards.toolFailures == Guards.AfterResults(Guards.FRESH, trace).toolFailures
      ensures out.messages == start.messages + results && BatchFits(turn, start, calls, Ran([], known, n), out, trace, results)
      ensures n <= |known| <= |calls|
      ensures var after := trace + Batch.Watched(turn.tools, calls, known, Batch.WatchedCount(out.exit, n));
              && out.guards == start.guards.(toolFailures := out.guards.toolFailures)
              && out.guards.toolFailures == Guards.AfterResults(Guards.FRESH, after).toolFailures
              && Batch.ExitMeans(turn.tools, known, n, after, out.exit)
    {
      hide Batch.Taken, Batch.Watched, Batch.ExitMeans, Guards.AfterResults, Batch.StopsAtFirst, Batch.TakesAlong;
      results := Batch.BatchAnswers(turn.tools, start, calls, known, n, out);
      Batch.BatchStops(turn.tools, trace, start, calls, known, n, out);
      Batch.BatchTakesAlong(turn.tools, trace, start, calls, known, n, out);
      Batch.BatchTraced(turn.tools, start, calls, known, n, out, trace);
    }

    /** Where the batch stopped, what it took along, and the messages it added. */
    ghost predicate BatchFits(turn: TurnSetting<W>, start: Batch.Progress, calls: seq<ToolCall>, ran: Ran, out: Batch.Progress,
                              before: seq<Guards.ToolOutcome>, results: seq<Message>)
    {
      && ran.taken <= |ran.known| <= |calls|
      && Batch.StopsAtFirst(turn.tools, before, calls, ran.known, ran.taken, out.exit)
      && Batch.TakesAlong(turn.tools, before, start, calls, ran.known, ran.taken, out)
      && Answers(calls, results) && results == Batch.ResultMessages(ran.known[..ran.taken]) + Batch.Placeholders(calls[ran.taken..])
    }

    /** Run the turn's tools: the assistant message and one result per call join the conversation. */
    method RunTools(turn: TurnSetting<W>, reply: Reply) returns (out: Batch.Progress, ghost ran: Ran, ghost results: seq<Message>)
      requires Sound() && Schedules.KeepsIDs(turn.tools)
      modifies this`messages, this`history, this`world, this`loaded, this`outcomes, this`trace, guards
      ensures Sound()
      ensures history == old(history) + ([Speech(reply.text, ReplayCalls(setting, reply.calls))] + results)
      ensures old(trace) <= trace && out.guards == old(guards.View()).(toolFailures := out.guards.toolFailures)
      ensures BatchFits(turn, Started(Spoken(old(messages), reply), old(guards.View()), old(loaded)), reply.calls, ran, out, old(trace), results)
      ensures messages == out.messages && loaded == out.loaded && guards.View() == out.guards
      ensures var start := Started(Spoken(old(messages), reply), old(guards.View()), old(loaded));
              RanAs(turn.tools, old(world), start, reply.calls, ran, out, world)
      ensures ran.taken <= |ran.known| && outcomes == old(outcomes) + ran.known[..ran.taken]
      ensures Batch.ExitMeans(turn.tools, ran.known, ran.taken, trace, out.exit)
    {
      hide Sound, RanAs, Batch.ExitMeans, BatchFits;
      var safe := HistorySafeToolCalls(setting, reply.calls);
      var m := Speech(reply.text, safe);
      out, results, ran := CallTools(turn, m, reply.calls);
      TakeOver(out, m, results);
    }

    /** The transcript with the assistant's reply, its calls as they are replayed. */
    function Spoken(ms: seq<Message>, reply: Reply): seq<Message> {
      ms + [Speech(reply.text, ReplayCalls(setting, reply.calls))]
    }

    method TakeOver(out: Batch.Progress, m: Message, ghost results: seq<Message>)
      requires Sound() && m.role == Assistant && Answers(m.calls, results) && out.messages == messages + [m] + results
      modifies this`messages, this`history, this`loaded
      ensures Sound() && messages == out.messages && loaded == out.loaded
      ensures history == old(history) + ([m] + results)
    {
      hide Carried.Replays, Replayable, Backed;
      ghost var block := [m] + results;
      assert block[1..] == results && messages + [m] + results == messages + block;
      Adopt(out.messages, block);
      loaded := out.loaded;
    }

    /** What is said after a whole batch, so that results stay together. */
    method AfterBatch(turn: TurnSetting<W>, reply: Reply, done: Batch.Progress, turns: nat)
      requires Sound() && guards.View() == done.guards
      modifies this`messages, this`history, guards
      ensures Sound()
      ensures messages == old(messages) + BatchNotes(setting, turn, reply.dropped, done, turns)
      ensures history == old(history) + BatchNotes(setting, turn, reply.dropped, done, turns)
      ensures guards.planItemsPending == old(guards.planItemsPending)
    {
      hide Sound, HintOrReminder, BatchFeedback;
      SayFeedback(turn, reply, done);
      HintOrRemind(done.hint, turns);
    }

    method SayFeedback(turn: TurnSetting<W>, reply: Reply, done: Batch.Progress)
      requires Sound()
      modifies this`messages, this`history
      ensures Sound()
      ensures messages == old(messages) + BatchFeedback(setting, turn, reply.dropped, done)
      ensures history == old(history) + BatchFeedback(setting, turn, reply.dropped, done)
    {
      hide Sound, Preserve.FirstSeen, BatchFeedback, Texts;
      ghost var was, spoken := messages, history;
      var changed := DedupeStrings(done.changed);
      var feedback := if setting.selfCorrect && |done.changed| > 0 then turn.feedback(changed) else "";
      SayIfAny(feedback);
      var note := if done.model != "" then turn.switchNote(done.model) else "";
      SayIfAny(note);
      ghost var dropped := if reply.dropped > 0 then [Note(setting.wording(DroppedCall))] else [];
      if reply.dropped > 0 {
        Say(setting.wording(DroppedCall));
      }
      FeedbackIs(setting, turn, reply.dropped, done, feedback, note);
      Joined(was, Texts(feedback), Texts(note), dropped);
      Joined(spoken, Texts(feedback), Texts(note), dropped);
    }

    method HintOrRemind(hint: Option<Schedules.ToolResult>, turns: nat)
      requires Sound()
      modifies this`messages, this`history, guards
      ensures Sound()
      ensures messages == old(messages) + HintOrReminder(setting, hint, old(guards.View()), turns)
      ensures history == old(history) + HintOrReminder(setting, hint, old(guards.View()), turns)
      ensures guards.planItemsPending == old(guards.planItemsPending)
    {
      hide Sound, DueReminder;
      if hint.Some? {
        Say(setting.wording(FailureHint(hint.value)));
      } else {
        var reminder := GiveReminder(turns);
        if !reminder.NoReminder? {
          Say(setting.wording(Remind(reminder)));
        }
      }
    }

    method GiveReminder(turns: nat) returns (reminder: Guards.Reminder)
      requires Sound()
      modifies guards
      ensures guards.planItemsPending == old(guards.planItemsPending)
      ensures Sound() && (guards.View(), reminder) == DueReminder(old(guards.View()), turns)
    {
      hide Carried.Replays, Replayable, Backed;
      Guards.RemindersLeavePending(guards.View(), turns);
      Guards.RemindersLeavePending(Guards.ProgressReminderSpec(guards.View()).0, turns);
      reminder := guards.ProgressReminderDue();
      if reminder.NoReminder? {
        reminder := guards.PlanReminderDue(turns);
      }
    }

    /** A turn with tool calls: its batch, and after a batch that ran to its end the notes. */
    method ToolTurn(turn: TurnSetting<W>, reply: Reply, turns: nat)
      returns (flow: Flow, ghost done: Batch.Progress, ghost ran: Ran, ghost results: seq<Message>)
      requires Sound() && Schedules.KeepsIDs(turn.tools) && turns > 0 && turn == setting.turn(turns - 1)
      modifies this`messages, this`history, this`counted, this`world, this`loaded, this`outcomes, this`trace, guards
      ensures Sound()
      ensures flow == FlowOf(done.exit)
      ensures counted == old(counted) + [TurnOf(reply)] && old(trace) <= trace
      ensures guards.planItemsPending == Guards.ObserveTurnSpec(old(guards.View()), setting.pending, TurnOf(reply)).planItemsPending
      ensures history == old(history) + ([Speech(reply.text, ReplayCalls(setting, reply.calls))] + results)
                         + if flow == Next then BatchNotes(setting, turn, reply.dropped, done, turns) else []
      ensures var g := Guards.ObserveTurnSpec(old(guards.View()), setting.pending, TurnOf(reply));
              BatchFits(turn, Started(Spoken(old(messages), reply), g, old(loaded)), reply.calls, ran, done, old(trace), results)
      ensures flow.Return? ==> EndsWell(flow.ending, turns)
      ensures var g := Guards.ObserveTurnSpec(old(guards.View()), setting.pending, Guards.Turn(reply.calls, reply.text, reply.reasoning));
              RanAs(turn.tools, old(world), Started(Spoken(old(messages), reply), g, old(loaded)), reply.calls, ran, done, world)
      ensures loaded == done.loaded
      ensures messages == done.messages + if flow == Next then BatchNotes(setting, turn, reply.dropped, done, turns) else []
    {
      hide Sound, RanAs, BatchNotes, Guards.ObserveTurnSpec, Spoken, BatchFits;
      var _ := Observe(reply);
      var out;
      out, ran, results := RunTools(turn, reply);
      done := out;
      flow := FlowOf(out.exit);
      if flow == Next {
        AfterBatch(turn, reply, out, turns);
      }
    }

    /** The reply just accepted, one without calls: the end of the work, or a reason to go on. */
    method TakeText(t: nat, reply: Reply) returns (flow: Flow)
      requires Sound() && InStep() && |heard| == t && JustAccepted(reply) && reply.calls == []
      modifies this`messages, this`history, this`continueNudges, this`acceptanceRequested, this`counted, this`heard, guards
      ensures Sound() && InStep() && Took(t, reply, flow) && old(heard) <= heard && old(history) <= history
      ensures flow.Return? ==> EndsWell(flow.ending, t + 1)
    {
      hide Sound, Answering, Judged, ThreeEmpty, NudgesOn, ChecksAcceptance, TrimSpace, StandsAt, Follows, VerdictOn, EndsWell;
      ghost var before, counted0, nudges0, checked0 := history, counted, continueNudges, acceptanceRequested;
      ghost var items := guards.planItemsPending;
      SomethingSent(reply);
      ghost var h := Heard(|sent| - 1, |history|, reply, NO_BATCH, [], 0, NO_BATCH, 0);
      JustAcceptedIs(reply, h);
      flow := AnswerTurn(setting.turn(t), reply, t + 1);
      TextHeard(setting, heard, h, sent, before, history, trace, counted0, nudges0, checked0, items, counted, continueNudges, acceptanceRequested);
      LogReply(h);
    }

    /** The reply just accepted, one with calls: its batch. */
    method TakeCalls(t: nat, reply: Reply) returns (flow: Flow)
      requires Sound() && InStep() && |heard| == t && JustAccepted(reply) && reply.calls != [] && ToolsKeepIDs(setting)
      modifies this`messages, this`history, this`counted, this`world, this`loaded, this`outcomes, this`trace, this`heard, guards
      ensures Sound() && InStep() && Took(t, reply, flow) && old(heard) <= heard && old(history) <= history
      ensures flow.Return? ==> EndsWell(flow.ending, t + 1)
    {
      hide Sound, StandsAt, Follows, EndsWell, RanAs, BatchNotes, Guards.ObserveTurnSpec, BatchFits, Spoken, ReplayCalls, JustAccepted;
      hide GoesOn, EndsWith, FlowOf, CallsAnswered, JustSaid, Guards.ItemsInLastPlan, Guards.AllCalls, Batch.ExitMeans;
      InStepItems();
      ghost var before, counted0, trace0, items0 := history, counted, trace, guards.planItemsPending;
      ghost var g := Guards.ObserveTurnSpec(guards.View(), setting.pending, TurnOf(reply));
      ghost var start := Started(Spoken(messages, reply), g, loaded);
      ghost var guards0 := guards.View();
      SomethingSent(reply);
      ghost var said := Heard(|sent| - 1, |history|, reply, start, [], 0, start, |trace|);
      JustAcceptedIs(reply, said);
      ghost var done, ran, results;
      flow, done, ran, results := ToolTurn(setting.turn(t), reply, t + 1);
      ghost var h := Heard(|sent| - 1, |before|, reply, start, ran.known, ran.taken, done, |trace0|);
      ghost var notes := if flow == Next then BatchNotes(setting, setting.turn(t), reply.dropped, done, t + 1) else [];
      FlowIsExit(done.exit);
      SameSaid(setting, heard, said, h, sent, before);
      CallsFit(setting.turn(t), h, t, before, results, notes, trace0, ran);
      PendingNow(guards0, counted0, TurnOf(reply));
      CallsHeard(setting, heard, h, sent, before, history, trace0, trace, counted0, continueNudges, acceptanceRequested, items0, guards.planItemsPending);
      CallsGoOn(setting, heard, h);
      LogReply(h);
    }

    /** The provider's answer to exactly the transcript as it stands, later than any reply before. */
    ghost predicate JustAccepted(reply: Reply)
      reads this
    {
      Answering(reply) && reply.error == "" && (heard != [] ==> heard[|heard| - 1].at < |sent| - 1)
    }

    lemma InStepItems()
      requires InStep()
      ensures guards.planItemsPending == Guards.ItemsInLastPlan(setting.pending, Guards.AllCalls(counted))
    {
      hide Follows, Guards.ItemsInLastPlan, Guards.AllCalls;
    }

    lemma SomethingSent(reply: Reply)
      requires JustAccepted(reply)
      ensures sent != []
    {
    }

    ghost method LogReply(h: Heard)
      requires Sound()
      modifies this`heard
      ensures Sound() && heard == old(heard) + [h]
      ensures forall ending, turns :: old(EndsWell(ending, turns)) ==> EndsWell(ending, turns)
    {
      hide Replayable, Backed, Carried.Replays, Guards.AfterResults, Guards.TrailingEmpty, PassesGate, ThreeEmpty, Batch.LoopingMeans;
      heard := heard + [h];
    }

    lemma JustAcceptedIs(reply: Reply, h: Heard)
      requires JustAccepted(reply) && h.at == |sent| - 1 && h.spoken == |history| && h.reply == reply
      ensures JustSaid(setting, heard, h, sent, history)
    {
    }

    /** What was done with the reply accepted in turn `t`. */
    ghost predicate Took(t: nat, reply: Reply, flow: Flow)
      reads this
    {
      && |heard| == t + 1 && heard[t].at == |sent| - 1 && heard[t].reply == reply && flow != OverBudget
      && (flow == Next <==> GoesOn(setting, heard, t)) && (flow.Return? ==> EndsWith(setting, heard, t, flow.ending))
    }

    lemma CallsFit(turn: TurnSetting<W>, h: Heard, t: nat, before: seq<Message>, results: seq<Message>, notes: seq<Message>,
                   trace0: seq<Guards.ToolOutcome>, ran: Ran)
      requires turn == setting.turn(t) && trace0 <= trace && h.spoken == |before| && h.seen == |trace0|
      requires h.known == ran.known && h.taken == ran.taken && h.start.hint.None? && h.start.model == "" && h.start.changed == []
      requires BatchFits(turn, h.start, h.reply.calls, ran, h.done, trace0, results)
      requires h.done.exit == Batch.Running ==> notes == BatchNotes(setting, turn, h.reply.dropped, h.done, t + 1)
      ensures CallsAnswered(setting, h, t, before + ([Speech(h.reply.text, ReplayCalls(setting, h.reply.calls))] + results) + notes, trace)
    {
      hide Batch.StopsAtFirst, Batch.TakesAlong, BatchNotes, ReplayCalls, Batch.ResultMessages, Batch.Placeholders, CallsAnswered;
      CallsAre(setting, h, t, before, results, notes, trace0, trace);
    }

    lemma PendingNow(g: Guards.State, counted0: seq<Guards.Turn>, t: Guards.Turn)
      requires g.planItemsPending == Guards.ItemsInLastPlan(setting.pending, Guards.AllCalls(counted0))
      ensures Guards.ObserveTurnSpec(g, setting.pending, t).planItemsPending
              == Guards.ItemsInLastPlan(setting.pending, Guards.AllCalls(counted0 + [t]))
    {
      Guards.PendingAfterTurn(g, setting.pending, counted0, t);
    }

    /** One turn. Unless the budget is spent it compacts, sends what that gives, and accepts at most one reply, the answer to
        its last request; a reply without calls is judged, and the calls of any other are run. */
    method Turn(t: nat) returns (flow: Flow)
      requires Sound() && InStep() && |heard| == t && ToolsKeepIDs(setting)
      modifies this, guards, compactor
      ensures Sound() && InStep()
      ensures Logs(setting, setting.turn(t), old(compactions), compactions, 4)
      ensures requests + Flag(old(compactor.reactiveAttempted)) <= old(requests) + 2 + Flag(compactor.reactiveAttempted)
      ensures flow.Return? ==> EndsWell(flow.ending, t + 1)
      ensures old(heard) <= heard && old(sent) <= sent && old(history) <= history
      ensures if |heard| == t then flow == OverBudget || (flow.Return? && CutOff(flow.ending))
              else |heard| == t + 1 && Took(t, heard[t].reply, flow) && |old(sent)| <= heard[t].at
      ensures flow == OverBudget <==> setting.turn(t).overBudget
      ensures flow == OverBudget ==> sent == old(sent) && messages == old(messages) && history == old(history)
      ensures flow != OverBudget ==>
                var turn := setting.turn(t);
                var call := Carried.Compacting(old(history) + Texts(turn.diagnostics), old(messages) + Texts(turn.diagnostics),
                                               old(compactor.View()), turn.toolTokens, turn.summarize, false, false);
                && old(compactions) + [call] <= compactions
                && old(sent) + [Request(Carried.Result(setting.codec, call), call.conversation)] <= sent
    {
      hide Sound, InStep, Logs, EndsWell, Took, Carried.Result, ErrorFits, JustAccepted, AskedAs, TunerAfter, Texts;
      var turn := setting.turn(t);
      LogsNothing(setting, turn, compactions, 4);
      if turn.overBudget {
        return OverBudget;
      }
      var asked := Inquire(turn);
      if asked.Lost? {
        LostEndsWell(turn, asked.error, t);
        return Return(Broken(asked.error));
      }
      if |asked.reply.calls| == 0 {
        flow := TakeText(t, asked.reply);
      } else {
        flow := TakeCalls(t, asked.reply);
      }
      TookOne(t, asked.reply, flow);
    }

    /** Late diagnostics, and the turn's request. */
    method Inquire(turn: TurnSetting<W>) returns (asked: Asked)
      requires Sound() && InStep()
      modifies this`messages, this`history, this`compactions, this`sent, this`requests, compactor
      ensures Sound() && InStep()
      ensures Logs(setting, turn, old(compactions), compactions, 4)
      ensures requests + Flag(old(compactor.reactiveAttempted)) <= old(requests) + 2 + Flag(compactor.reactiveAttempted)
      ensures asked.Answered? ==> JustAccepted(asked.reply)
      ensures asked.Lost? ==> ErrorFits(asked.error, turn) && !asked.error.ToolAbort?
      ensures history == old(history) + Texts(turn.diagnostics) && |old(sent)| < |sent|
      ensures var call := Carried.Compacting(old(history) + Texts(turn.diagnostics), old(messages) + Texts(turn.diagnostics),
                                             old(compactor.View()), turn.toolTokens, turn.summarize, false, false);
              && old(compactions) + [call] <= compactions
              && old(sent) + [Request(Carried.Result(setting.codec, call), call.conversation)] <= sent
              && AskedAs(setting, turn, Standing(TunerAfter(call), Carried.Result(setting.codec, call), |old(sent)|), asked, Now())
    {
      hide Sound, StandsAt, Follows, Logs, Carried.Result, AskedAs, TunerAfter, ErrorFits, Answering;
      ghost var sent0, history0 := sent, history;
      SayIfAny(turn.diagnostics);
      asked := Ask(turn);
      FollowsOn(setting, heard, sent0, history0, trace, sent0, history, trace);
      FollowsOn(setting, heard, sent0, history0, trace, sent, history, trace);
      if asked.Answered? {
        LaterThan(sent0, asked.reply);
      }
    }

    lemma LostEndsWell(turn: TurnSetting<W>, error: RunError, t: nat)
      requires turn == setting.turn(t) && ErrorFits(error, turn)
      ensures EndsWell(Broken(error), t + 1)
    {
      hide ErrorFits;
    }

    lemma LaterThan(sent0: seq<Request>, reply: Reply)
      requires Follows(setting, heard, sent0, history, trace) && sent0 < sent && Answering(reply) && reply.error == ""
      ensures JustAccepted(reply)
    {
      hide Answering, CallsAnswered, VerdictOn;
      if heard != [] {
        assert HeardAt(setting, heard, |heard| - 1, sent0, history, trace);
      }
    }

    lemma TookOne(t: nat, reply: Reply, flow: Flow)
      requires Took(t, reply, flow)
      ensures |heard| == t + 1 && heard[t].reply == reply && heard[t].at == |sent| - 1 && flow != OverBudget
    {
      hide GoesOn, EndsWith;
    }

    /** What an ending says about the run of so many turns behind it. */
    ghost predicate EndsWell(ending: Ending, turns: nat)
      reads this, compactor
    {
      match ending
      case Finished(answer) => PassesGate(setting, answer, acceptanceRequested) && Concluded(answer)
      case Incomplete(answer, reason) =>
        && setting.requireCompletion && Concluded(answer)
        && (if setting.admission(answer) != "" then reason == setting.admission(answer)
            else setting.cue(answer) && continueNudges == MAX_CONTINUE_NUDGES)
      case Broken(error) =>
        (error.Cancelled? && setting.ended == Some(error.error)) || (turns > 0 && ErrorFits(error, setting.turn(turns - 1)))
      case NoOutput => ThreeEmpty(counted)
      case StoppedByTool(answer, reason) =>
        outcomes != [] && reason != "" &&
        var o := outcomes[|outcomes| - 1]; o.abort.None? && o.result.stop == reason && o.result.output == answer
      case Looping(tool, count) => Batch.LoopingMeans(trace, tool, count)
      case OutOfTurns(answer) =>
        && (turns == setting.maxTurns || (turns > 0 && setting.turn(turns - 1).overBudget))
        && (answer != "" ==> Concluded(answer))
    }

    /** The transcript ends with the assistant's answer. */
    ghost predicate Concluded(answer: string)
      reads this
    {
      messages != [] && messages[|messages| - 1] == Speech(answer, [])
    }

    /** One more request for a summary once the turns are used up. */
    method FinalAnswer() returns (answer: string)
      requires Sound()
      modifies this`messages, this`history, this`sent, this`requests
      ensures Sound() && requests == old(requests) + 1
      ensures answer != "" ==> Concluded(answer)
      ensures answer == "" ==> messages == old(messages) && history == old(history)
      ensures var prompt := Note(setting.wording(FinalAnswerPrompt));
              && FinalSays(setting, |old(sent)|, old(messages) + [prompt], answer)
              && sent == old(sent) + [Request(old(messages) + [prompt], old(history) + [prompt])]
              && (answer != "" ==> messages == old(messages) + [prompt] + [Speech(answer, [])]
                                   && history == old(history) + [prompt] + [Speech(answer, [])])
    {
      hide Sound;
      var prompt := setting.wording(FinalAnswerPrompt);
      var reply := SendWith(prompt);
      if reply.Unreachable? || setting.ended.Some? || reply.reply.error != "" || TrimSpace(reply.reply.text) == "" {
        return "";
      }
      answer := reply.reply.text;
      Say(prompt);
      Adopt(messages + [Speech(answer, [])], [Speech(answer, [])]);
    }

    /** Send the conversation with a prompt that is not part of it yet. */
    method SendWith(prompt: string) returns (reply: Sent)
      requires Sound()
      modifies this`sent, this`requests
      ensures Sound()
      ensures sent == old(sent) + [Request(messages + [Note(prompt)], history + [Note(prompt)])]
      ensures reply == setting.provider(|old(sent)|, messages + [Note(prompt)])
      ensures requests == old(requests) + 1
    {
      hide Carried.Replays, Replayable, Guards.AfterResults, Guards.TrailingEmpty;
      Grow([Note(prompt)]);
      ReplayableSaid(messages, history, prompt);
      reply := setting.provider(requests, messages + [Note(prompt)]);
      requests := requests + 1;
      sent := sent + [Request(messages + [Note(prompt)], history + [Note(prompt)])];
      assert (history + [Note(prompt)])[..|history|] == history;
    }

    /** Turn after turn, until one ends the run or the turns or the budget are used up. */
    method RunTurns() returns (flow: Flow, turns: nat)
      requires Sound() && ToolsKeepIDs(setting) && sent == [] && compactions == [] && heard == [] && InStep()
      requires !compactor.reactiveAttempted
      modifies this, guards, compactor
      ensures Sound() && InStep() && turns <= setting.maxTurns
      ensures requests <= 2 * turns + 1 && |compactions| <= 4 * turns && MadeInTurns(setting, turns, compactions)
      ensures flow.Return? ==> EndsWell(flow.ending, turns)
      ensures !flow.Return? ==> turns == setting.maxTurns || (turns > 0 && setting.turn(turns - 1).overBudget)
      ensures SoFar(setting, heard, |sent|, turns, flow)
    {
      hide Sound, EndsWell, StandsAt, Follows, SoFar, Took, Carried.Result;
      flow, turns := Next, 0;
      StartsAtZero();
      NothingSoFar(setting, heard, |sent|);
      while turns < setting.maxTurns && flow == Next
        invariant Sound() && InStep() && turns <= setting.maxTurns
        invariant requests <= 2 * turns + Flag(compactor.reactiveAttempted) && |compactions| <= 4 * turns
        invariant MadeInTurns(setting, turns, compactions)
        invariant flow.Return? ==> EndsWell(flow.ending, turns)
        invariant flow == OverBudget ==> turns > 0 && setting.turn(turns - 1).overBudget
        invariant SoFar(setting, heard, |sent|, turns, flow)
      {
        ghost var before, heard0, requests0 := compactions, heard, |sent|;
        NextSoFar(setting, heard, requests0, turns);
        flow := Turn(turns);
        OneTurnMore(heard0, requests0, turns, flow);
        LogGrows(setting, turns, before, compactions, 4);
        turns := turns + 1;
      }
    }

    /** The whole run. */
    method Execute() returns (ending: Ending, turns: nat)
      requires Sound() && ToolsKeepIDs(setting) && sent == [] && compactions == [] && heard == [] && InStep()
      requires !compactor.reactiveAttempted
      modifies this, guards, compactor
      ensures Sound() && EndsWell(ending, turns)
      ensures Replayable(messages, history) && forall k | 0 <= k < |sent| :: Backed(sent[k], history)
      ensures Follows(setting, heard, sent, history, trace) && Concludes(setting, heard, |sent|, turns, ending)
      ensures forall k | 0 <= k < |heard| && FinishesAt(setting, heard, k) ::
                k == |heard| - 1 && turns == |heard| && |sent| == heard[k].at + 1 && ending == Finished(heard[k].reply.text)
      ensures ending.Finished? ==> heard != [] && FinishesAt(setting, heard, |heard| - 1) && ending.answer == heard[|heard| - 1].reply.text
      ensures Carried.Replays(setting.codec, compactions, history, messages) && |compactions| <= 4 * turns
      ensures MadeInTurns(setting, turns, compactions)
      ensures LosesNothing() ==> Carried.CarriesState(setting.codec, history, messages)
      ensures turns <= setting.maxTurns && |sent| <= 2 * turns + 2 && continueNudges <= MAX_CONTINUE_NUDGES
    {
      hide Sound, EndsWell, StandsAt, Follows, SoFar, Concludes, FinishesAt, MadeInTurns, FinalSays, Replayable, Backed;
      hide Carried.Replays, Carried.CarriesState, LosesNothing;
      var flow;
      flow, turns := RunTurns();
      ghost var requests1 := |sent|;
      if flow.Return? {
        ending := flow.ending;
        SoFarConcludes(setting, heard, requests1, turns, flow, ending);
      } else {
        ghost var sent0, history0 := sent, history;
        ending := WindUp(turns);
        FollowsOn(setting, heard, sent0, history0, trace, sent, history, trace);
        SoFarCutOff(setting, heard, requests1, |sent|, turns, flow, ending);
      }
      FinishingReplyIsLast(setting, heard, |sent|, turns, ending);
      SoundSays();
    }

    lemma OneTurnMore(heard0: seq<Heard>, requests0: nat, t: nat, flow: Flow)
      requires SoFar(setting, heard0, requests0, t, Next) && heard0 <= heard && |heard0| == t
      requires if |heard| == t then flow == OverBudget || (flow.Return? && CutOff(flow.ending))
               else |heard| == t + 1 && Took(t, heard[t].reply, flow)
      ensures SoFar(setting, heard, |sent|, t + 1, flow)
    {
      hide GoesOn, EndsWith, SoFar;
      if |heard| == t {
        assert heard == heard0;
        NoReplySoFar(setting, heard, requests0, |sent|, t, flow);
      } else {
        assert heard == heard0 + [heard[t]];
        OneReplySoFar(setting, heard0, heard[t], requests0, |sent|, t, flow);
      }
    }

    lemma SoundSays()
      requires Sound()
      ensures Replayable(messages, history) && (forall k | 0 <= k < |sent| :: Backed(sent[k], history))
      ensures requests == |sent| && continueNudges <= MAX_CONTINUE_NUDGES
      ensures Carried.Replays(setting.codec, compactions, history, messages)
      ensures LosesNothing() ==> Carried.CarriesState(setting.codec, history, messages)
    {
      hide Replayable, Backed, Carried.Replays, Carried.CarriesState, Carried.AllLoseNothing, Guards.AfterResults, Guards.TrailingEmpty;
      if LosesNothing() {
        Carried.RunCarriesState(setting.codec, compactions, history, messages);
      }
    }

    /** Only summaries start like one, and no call of the compactor lost anything: what the carried state
        needs of a run, read off its conversation and its log. */
    ghost predicate LosesNothing()
      reads this
    {
      && PreservedBlock.JsonLike(setting.codec) && Rounds.NamesThings(setting.codec) && Rounds.NoSummaries(history)
      && Carried.AllLoseNothing(setting.codec, compactions)
    }

    lemma StartsAtZero()
      requires Sound() && sent == []
      ensures requests == 0
    {
    }

    method WindUp(ghost turns: nat) returns (ending: Ending)
      requires Sound()
      requires turns == setting.maxTurns || (turns > 0 && setting.turn(turns - 1).overBudget)
      modifies this`messages, this`history, this`sent, this`requests
      ensures Sound() && EndsWell(ending, turns) && CutOff(ending)
      ensures requests <= old(requests) + 1
      ensures old(sent) <= sent && old(history) <= history
      ensures match setting.ended
              case Some(e) => ending == Broken(Cancelled(e)) && sent == old(sent) && messages == old(messages)
              case None =>
                var ms := old(messages) + Texts(setting.lastDiagnostics) + [Note(setting.wording(FinalAnswerPrompt))];
                && |sent| == |old(sent)| + 1 && sent[|old(sent)|].messages == ms
                && ending.OutOfTurns? && FinalSays(setting, |old(sent)|, ms, ending.answer)
    {
      hide Sound, FinalSays, EndsWell;
      if setting.ended.Some? {
        CutOffWell(turns, "");
        return Broken(Cancelled(setting.ended.value));
      }
      SayIfAny(setting.lastDiagnostics);
      var answer := FinalAnswer();
      CutOffWell(turns, answer);
      ending := OutOfTurns(answer);
    }

    lemma CutOffWell(turns: nat, answer: string)
      requires turns == setting.maxTurns || (turns > 0 && setting.turn(turns - 1).overBudget)
      ensures setting.ended.Some? ==> EndsWell(Broken(Cancelled(setting.ended.value)), turns)
      ensures (answer != "" ==> Concluded(answer)) ==> EndsWell(OutOfTurns(answer), turns)
    {
      hide PassesGate, ThreeEmpty;
    }
  }

  lemma ReplayableSaid(ms: seq<Message>, conversation: seq<Message>, text: string)
    requires Replayable(ms, conversation)
    ensures Replayable(ms + [Note(text)], conversation + [Note(text)])
  {
    hide Paired, Shows;
    PairedNote(ms, Note(text));
    PairedNote(conversation, Note(text));
    ShowsGrows(conversation, ms, [Note(text)]);
  }

  lemma ReplayableTurn(ms: seq<Message>, conversation: seq<Message>, block: seq<Message>)
    requires Replayable(ms, conversation)
    requires block != [] && block[0].role == Assistant && Answers(block[0].calls, block[1..])
    ensures Replayable(ms + block, conversation + block)
  {
    hide Paired, Shows, Answers;
    PairedTurn(ms, block[0], block[1..]);
    PairedTurn(conversation, block[0], block[1..]);
    Regroup(ms, block);
    Regroup(conversation, block);
    ShowsGrows(conversation, ms, block);
  }

  lemma Regroup(ms: seq<Message>, block: seq<Message>)
    requires block != []
    ensures ms + [block[0]] + block[1..] == ms + block
  {
  }

  lemma SeedSound(ms: seq<Message>)
    requires |ms| == 2 && ms[0].role == System && ms[1].role == User && ms[0].calls == ms[1].calls == []
    ensures Replayable(ms, ms)
  {
    PairedNote([], ms[0]);
    PairedNote([ms[0]], ms[1]);
    assert [] + [ms[0]] == [ms[0]] && [ms[0]] + [ms[1]] == ms;
    assert Prune.SameShape(ms, ms);
  }
}
