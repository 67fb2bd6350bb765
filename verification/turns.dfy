/** What a run is made of: its setting, what is judged of a reply, what is said after a batch, and what a run's
    accepted replies make of it. */
module Turns {
  import opened Text
  import opened Transcript
  import opened Compaction
  import opened Views
  import Prune
  import Compactor
  import Preserve
  import Guards
  import Schedules
  import Batch
  import Carried

  const MAX_CONTINUE_NUDGES := 3
  const MAX_STALL_RETRIES := 1

  /** A collected stream. `shown` tells that answer text was forwarded; `error` is "" for none. */
  datatype Reply = Reply(
    text: string, reasoning: bool, calls: seq<ToolCall>, dropped: nat, error: string, inputTokens: int, shown: bool)

  datatype Sent = Unreachable(error: string) | Streamed(reply: Reply)

  datatype RunError =
    | ImageRejected(error: string)
    | NotCompacted
    | Provider(error: string)
    | Cancelled(error: string)
    | ToolAbort(error: string)

  /** How a run ends. */
  datatype Ending =
    | Finished(answer: string)
    | Incomplete(answer: string, reason: string)
    | Broken(error: RunError)
    | NoOutput
    | StoppedByTool(answer: string, reason: string)
    | Looping(tool: string, count: nat)
    | OutOfTurns(answer: string)

  /** The notes a run may add of its own accord; their wording is not part of this model. */
  datatype Notice =
    | DroppedCall
    | EmptyResponse
    | ContinueAfterCue
    | ContinueWithPlan
    | AcceptanceCheck
    | FinalAnswerPrompt
    | FailureHint(result: Schedules.ToolResult)
    | Remind(reminder: Guards.Reminder)

  /** What surrounds one turn. Texts are "" where there is nothing to say. */
  datatype TurnSetting<!W> = TurnSetting(
    overBudget: bool, diagnostics: string, toolTokens: nat, summarize: Summarizer,
    lost: Option<string>, backoff: Option<string>,
    tools: Schedules.Tools<W>, feedback: seq<string> -> string, switchNote: string -> string, lateDiagnostics: string)

  /** `provider` answers the n-th request of the run. */
  datatype Setting<!W> = Setting(
    maxTurns: nat, system: string, prompt: string, images: nat, contextWindow: int, preserveLast: int,
    provider: (nat, seq<Message>) -> Sent, turn: nat -> TurnSetting<W>,
    imageRejection: string -> bool, contextLimit: string -> bool, timeout: string -> bool,
    validJson: string -> bool, recoverable: string -> Option<string>,
    codec: Preserve.Codec, pending: Guards.PlanReader, wording: Notice -> string,
    requireCompletion: bool, selfCorrect: bool, admission: string -> string, cue: string -> bool,
    ended: Option<string>, lastDiagnostics: string)

  ghost predicate ToolsKeepIDs<W(!new)>(setting: Setting<W>) {
    forall t: nat :: Schedules.KeepsIDs(setting.turn(t).tools)
  }

  /** A call of the compactor that was given this turn's summarizer and tools. */
  ghost predicate MadeIn<W>(setting: Setting<W>, turn: TurnSetting<W>, c: Carried.Compacting) {
    c.summarize == turn.summarize && c.toolTokens == turn.toolTokens && c.tuner.preserveLast == setting.preserveLast
  }

  /** The log grew by at most so many calls of the compactor, all made in this turn. */
  ghost predicate Logs<W>(setting: Setting<W>, turn: TurnSetting<W>, before: seq<Carried.Compacting>,
                          after: seq<Carried.Compacting>, calls: nat)
  {
    && before <= after && |after| <= |before| + calls
    && forall k | |before| <= k < |after| :: MadeIn(setting, turn, after[k])
  }

  lemma LogsTwice<W>(setting: Setting<W>, turn: TurnSetting<W>, a: seq<Carried.Compacting>, b: seq<Carried.Compacting>,
                     c: seq<Carried.Compacting>, m: nat, n: nat)
    requires Logs(setting, turn, a, b, m) && Logs(setting, turn, b, c, n)
    ensures Logs(setting, turn, a, c, m + n)
  {
    hide MadeIn;
  }

  lemma LogsNothing<W>(setting: Setting<W>, turn: TurnSetting<W>, a: seq<Carried.Compacting>, calls: nat)
    ensures Logs(setting, turn, a, a, calls)
  {
  }

  lemma LogsPrefix<W>(setting: Setting<W>, turn: TurnSetting<W>, a: seq<Carried.Compacting>, b: seq<Carried.Compacting>, m: nat)
    requires Logs(setting, turn, a, b, m)
    ensures a <= b
  {
  }

  lemma LogsLess<W>(setting: Setting<W>, turn: TurnSetting<W>, a: seq<Carried.Compacting>, b: seq<Carried.Compacting>, m: nat, n: nat)
    requires Logs(setting, turn, a, b, m) && m <= n
    ensures Logs(setting, turn, a, b, n)
  {
  }

  /** Every call of the compactor was made in one of the turns so far. */
  ghost predicate MadeInTurns<W>(setting: Setting<W>, turns: nat, log: seq<Carried.Compacting>) {
    forall k | 0 <= k < |log| :: exists t: nat :: t < turns && MadeIn(setting, setting.turn(t), log[k])
  }

  lemma LogGrows<W>(setting: Setting<W>, turns: nat, before: seq<Carried.Compacting>, after: seq<Carried.Compacting>, calls: nat)
    requires MadeInTurns(setting, turns, before) && Logs(setting, setting.turn(turns), before, after, calls)
    ensures MadeInTurns(setting, turns + 1, after)
  {
    hide MadeIn;
    forall k | 0 <= k < |after| ensures exists t: nat :: t < turns + 1 && MadeIn(setting, setting.turn(t), after[k]) {
      if k < |before| {
        var t: nat :| t < turns && MadeIn(setting, setting.turn(t), before[k]);
        assert MadeIn(setting, setting.turn(t), after[k]);
      } else {
        assert MadeIn(setting, setting.turn(turns), after[k]);
      }
    }
  }

  datatype Asked = Answered(reply: Reply) | Lost(error: RunError)

  datatype Flow = Next | OverBudget | Return(ending: Ending)

  /** A request, with the conversation it was meant to show. */
  datatype Request = Request(messages: seq<Message>, conversation: seq<Message>)

  /** What any request or result transcript of a run satisfies. */
  ghost predicate Replayable(ms: seq<Message>, conversation: seq<Message>) {
    Paired(ms) && Seeded(conversation) && Shows(conversation, ms)
  }

  /** The request showed the conversation as it then was, possibly with the final prompt added. */
  ghost predicate Backed(r: Request, history: seq<Message>) {
    && Replayable(r.messages, r.conversation)
    && r.conversation[..|r.conversation| - 1] <= history
  }

  lemma BackedNow(ms: seq<Message>, history: seq<Message>)
    requires Replayable(ms, history)
    ensures Backed(Request(ms, history), history)
  {
    hide Shows, Paired;
  }

  lemma BackedLater(r: Request, history: seq<Message>, more: seq<Message>)
    requires Backed(r, history)
    ensures Backed(r, history + more)
  {
  }

  /** Where a turn's request stands: the compactor's state, the transcript, and how many requests were sent. */
  datatype Standing = Standing(tuner: Compactor.Tuner, messages: seq<Message>, sent: nat)

  /** The one reactive compaction after this error, and the request reissued if it helped; what is to be had without a
      retry is `otherwise`. */
  ghost predicate RetriedAs<W>(setting: Setting<W>, turn: TurnSetting<W>, a: Standing, error: string, otherwise: Asked, asked: Asked, b: Standing) {
    var r := Compactor.RecoverSpec(a.tuner, SummaryWriter(setting.codec), a.messages, turn.toolTokens, setting.contextLimit(error), turn.summarize);
    && b.messages == r.messages && b.tuner == r.tuner
    && (if !r.retried then asked == otherwise && b.sent == a.sent
        else if r.failed then asked == Lost(NotCompacted) && b.sent == a.sent
        else b.sent == a.sent + 1 && asked == AnswerOf(setting, a.sent, r.messages))
  }

  function AnswerOf<W>(setting: Setting<W>, n: nat, ms: seq<Message>): Asked {
    match setting.provider(n, ms)
    case Unreachable(e) => Lost(Provider(e))
    case Streamed(r) => Answered(r)
  }

  /** The request as it stands: whatever streams is taken, and an error before that may be worth the one retry. */
  ghost predicate ConnectedAs<W>(setting: Setting<W>, turn: TurnSetting<W>, a: Standing, asked: Asked, b: Standing) {
    match setting.provider(a.sent, a.messages)
    case Streamed(r) => asked == Answered(r) && b == a.(sent := a.sent + 1)
    case Unreachable(e) =>
      if setting.imageRejection(e) then asked == Lost(ImageRejected(e)) && b == a.(sent := a.sent + 1)
      else RetriedAs(setting, turn, a.(sent := a.sent + 1), e, Lost(Provider(e)), asked, b)
  }

  /** An error in the stream: the same, but without a retry the reply stands with its error. */
  ghost predicate RecoveredAs<W>(setting: Setting<W>, turn: TurnSetting<W>, a: Standing, failed: Reply, asked: Asked, b: Standing) {
    if setting.imageRejection(failed.error) then asked == Lost(ImageRejected(failed.error)) && b == a
    else RetriedAs(setting, turn, a, failed.error, Answered(failed), asked, b)
  }

  /** The stream timed out before any answer text was shown or collected. */
  predicate Stalled<W>(setting: Setting<W>, reply: Reply, shown: bool) { setting.timeout(reply.error) && !shown && reply.text == "" }

  /** A stalled turn is reissued once, unless the wait before is cancelled. */
  ghost predicate ReissuedAs<W>(setting: Setting<W>, turn: TurnSetting<W>, ms: seq<Message>, n: nat, reply: Reply, shown: bool,
                                asked: Asked, sent: nat)
  {
    if !Stalled(setting, reply, shown) then asked == Answered(reply) && sent == n
    else if turn.backoff.Some? then asked == Lost(Cancelled(turn.backoff.value)) && sent == n
    else asked == AnswerOf(setting, n, ms) && sent == n + 1
  }

  /** A stream collected so far, unless the run was cancelled: reissued if it stalled; if it then has an error, recovered from
      if that is possible, and lost with it if not; and its token count goes into the calibration. */
  ghost predicate SettledAs<W>(setting: Setting<W>, turn: TurnSetting<W>, a: Standing, reply: Reply, shown: bool, asked: Asked, b: Standing) {
    if turn.lost.Some? then asked == Lost(Cancelled(turn.lost.value)) && b == a
    else exists mid, m: nat, c ::
      && ReissuedAs(setting, turn, a.messages, a.sent, reply, shown, mid, m)
      && MendedAs(setting, turn, a.(sent := m), mid, asked, c)
      && b.messages == c.messages && b.sent == c.sent
      && b.tuner == (if asked.Answered? then Compactor.CalibrateSpec(c.tuner, Prune.EstimateTokens(c.messages) + turn.toolTokens, asked.reply.inputTokens)
                     else c.tuner)
  }

  ghost predicate MendedAs<W>(setting: Setting<W>, turn: TurnSetting<W>, a: Standing, mid: Asked, asked: Asked, b: Standing) {
    if mid.Lost? || mid.reply.error == "" then asked == mid && b == a
    else exists rec ::
      && RecoveredAs(setting, turn, a, mid.reply, rec, b)
      && asked == if rec.Answered? && rec.reply.error != "" then Lost(Provider(rec.reply.error)) else rec
  }

  lemma NothingToMend<W>(setting: Setting<W>, turn: TurnSetting<W>, a: Standing, mid: Asked)
    requires mid.Lost? || mid.reply.error == ""
    ensures MendedAs(setting, turn, a, mid, mid, a)
  {
  }

  lemma LostSettles<W>(setting: Setting<W>, turn: TurnSetting<W>, a: Standing, reply: Reply, shown: bool)
    requires turn.lost.Some?
    ensures SettledAs(setting, turn, a, reply, shown, Lost(Cancelled(turn.lost.value)), a)
  {
  }

  lemma Mends<W>(setting: Setting<W>, turn: TurnSetting<W>, a: Standing, mid: Asked, rec: Asked, b: Standing)
    requires mid.Answered? && mid.reply.error != "" && RecoveredAs(setting, turn, a, mid.reply, rec, b)
    ensures MendedAs(setting, turn, a, mid, if rec.Answered? && rec.reply.error != "" then Lost(Provider(rec.reply.error)) else rec, b)
  {
    hide RecoveredAs;
  }

  lemma Settles<W>(setting: Setting<W>, turn: TurnSetting<W>, a: Standing, reply: Reply, shown: bool, mid: Asked, m: nat, asked: Asked,
                   c: Standing, b: Standing)
    requires turn.lost.None? && ReissuedAs(setting, turn, a.messages, a.sent, reply, shown, mid, m)
    requires MendedAs(setting, turn, a.(sent := m), mid, asked, c) && b.messages == c.messages && b.sent == c.sent
    requires b.tuner == if asked.Answered? then Compactor.CalibrateSpec(c.tuner, Prune.EstimateTokens(c.messages) + turn.toolTokens, asked.reply.inputTokens)
                        else c.tuner
    ensures SettledAs(setting, turn, a, reply, shown, asked, b)
  {
    hide ReissuedAs, MendedAs, Compactor.CalibrateSpec;
  }

  lemma Reads<W>(setting: Setting<W>, turn: TurnSetting<W>, a: Standing, first: Reply, rec: Asked, c: Standing, asked: Asked, b: Standing)
    requires first.error != "" && RecoveredAs(setting, turn, a, first, rec, c)
    requires if rec.Lost? then asked == rec && b == c else SettledAs(setting, turn, c, rec.reply, first.shown, asked, b)
    ensures ReadAs(setting, turn, a, first, asked, b)
  {
    hide RecoveredAs, SettledAs;
  }

  lemma Asks<W>(setting: Setting<W>, turn: TurnSetting<W>, a: Standing, first: Asked, c: Standing, asked: Asked, b: Standing)
    requires ConnectedAs(setting, turn, a, first, c)
    requires if first.Lost? then asked == first && b == c else ReadAs(setting, turn, c, first.reply, asked, b)
    ensures AskedAs(setting, turn, a, asked, b)
  {
    hide ConnectedAs, ReadAs;
  }

  /** A stream with an error is recovered from before anything else. */
  ghost predicate ReadAs<W>(setting: Setting<W>, turn: TurnSetting<W>, a: Standing, first: Reply, asked: Asked, b: Standing) {
    if first.error == "" then SettledAs(setting, turn, a, first, first.shown, asked, b)
    else exists rec, c ::
      && RecoveredAs(setting, turn, a, first, rec, c)
      && if rec.Lost? then asked == rec && b == c else SettledAs(setting, turn, c, rec.reply, first.shown, asked, b)
  }

  /** All of a turn's request, from the transcript as compacted. */
  ghost predicate AskedAs<W>(setting: Setting<W>, turn: TurnSetting<W>, a: Standing, asked: Asked, b: Standing) {
    exists first, c ::
      && ConnectedAs(setting, turn, a, first, c)
      && if first.Lost? then asked == first && b == c else ReadAs(setting, turn, c, first.reply, asked, b)
  }

  /** What the final request brings: the text, unless the provider failed, the run was ended or there is none. */
  ghost predicate FinalSays<W>(setting: Setting<W>, n: nat, ms: seq<Message>, answer: string) {
    match setting.provider(n, ms)
    case Unreachable(_) => answer == ""
    case Streamed(r) =>
      if setting.ended.Some? || r.error != "" || TrimSpace(r.text) == "" then answer == "" else answer == r.text
  }

  function Flag(b: bool): nat { if b then 1 else 0 }

  function Speech(text: string, calls: seq<ToolCall>): Message { Message(Assistant, text, calls, "", 0) }

  /** Whether a reply counts as the end of the work, under the headless completion gate. */
  ghost predicate PassesGate<W>(setting: Setting<W>, answer: string, acceptanceRequested: bool) {
    && TrimSpace(answer) != ""
    && (setting.requireCompletion ==>
          setting.admission(answer) == "" && !setting.cue(answer) && (setting.selfCorrect ==> acceptanceRequested))
  }

  /** The last three turns that were counted had nothing in them. */
  ghost predicate ThreeEmpty(turns: seq<Guards.Turn>) {
    |turns| >= 3 && forall i | |turns| - 3 <= i < |turns| :: Guards.IsEmptyTurn(turns[i])
  }

  datatype Verdict = GoOn(note: string) | End(ending: Ending)

  /** What becomes of text without a tool call. `stop` is the no-output guard's word. */
  function Judged<W>(setting: Setting<W>, reply: Reply, late: string, nudges: nat, acceptanceRequested: bool,
                     planPending: bool, stop: bool): Verdict
  {
    if reply.dropped > 0 then GoOn(setting.wording(DroppedCall))
    else if stop then End(NoOutput)
    else if TrimSpace(reply.text) == "" then GoOn(setting.wording(EmptyResponse))
    else JudgedText(setting, reply.text, late, nudges, acceptanceRequested, planPending)
  }

  /** One of the run's few continue nudges is spent on this reply. */
  predicate NudgesOn<W>(setting: Setting<W>, text: string, nudges: nat, planPending: bool) {
    && setting.requireCompletion && setting.admission(text) == ""
    && (setting.cue(text) || planPending) && nudges < MAX_CONTINUE_NUDGES
  }

  /** The run's one acceptance check is spent on this reply. */
  predicate ChecksAcceptance<W>(setting: Setting<W>, text: string, nudges: nat, acceptanceRequested: bool, planPending: bool) {
    && setting.requireCompletion && setting.admission(text) == "" && !setting.cue(text)
    && !NudgesOn(setting, text, nudges, planPending) && setting.selfCorrect && !acceptanceRequested
  }

  function JudgedText<W>(setting: Setting<W>, text: string, late: string, nudges: nat, acceptanceRequested: bool,
                         planPending: bool): Verdict
  {
    var gated, cue := setting.requireCompletion, setting.cue(text);
    if gated && setting.admission(text) != "" then End(Incomplete(text, setting.admission(text)))
    else if NudgesOn(setting, text, nudges, planPending) then
      GoOn(setting.wording(if cue then ContinueAfterCue else ContinueWithPlan))
    else if gated && cue then End(Incomplete(text, "mid-step"))
    else if ChecksAcceptance(setting, text, nudges, acceptanceRequested, planPending) then GoOn(setting.wording(AcceptanceCheck))
    else if late != "" then GoOn(late)
    else End(Finished(text))
  }

  /** A run finishes on exactly those replies that pass the gate with nothing left to say: no dropped
      call, no late diagnostics, and no pending plan while there are nudges to spend on it. */
  lemma FinishesIff<W>(setting: Setting<W>, reply: Reply, late: string, nudges: nat, acceptanceRequested: bool,
                       planPending: bool, stop: bool)
    ensures Judged(setting, reply, late, nudges, acceptanceRequested, planPending, stop).End?
            && Judged(setting, reply, late, nudges, acceptanceRequested, planPending, stop).ending.Finished?
            <==>
            reply.dropped == 0 && !stop && late == "" && PassesGate(setting, reply.text, acceptanceRequested)
            && (setting.requireCompletion && planPending ==> nudges >= MAX_CONTINUE_NUDGES)
  {
    hide TrimSpace;
  }

  /** An answer is reported incomplete only under the gate, for what it admits, or for stopping mid-step
      once all nudges are spent. */
  lemma IncompleteMeans<W>(setting: Setting<W>, reply: Reply, late: string, nudges: nat, acceptanceRequested: bool,
                           planPending: bool, stop: bool)
    ensures var v := Judged(setting, reply, late, nudges, acceptanceRequested, planPending, stop);
            v.End? && v.ending.Incomplete? ==>
              && setting.requireCompletion && v.ending.answer == reply.text
              && (if setting.admission(reply.text) != "" then v.ending.reason == setting.admission(reply.text)
                  else setting.cue(reply.text) && nudges >= MAX_CONTINUE_NUDGES)
  {
    hide TrimSpace;
  }

  /** Every case of the decision. Dropped calls are asked for again, the third empty turn ends the run, and empty text is
      asked for again. Under the gate an admission ends the run; a cue or a pending plan gets one of three nudges; a cue
      without one ends the run; then one acceptance check. Late diagnostics come before the end. */
  lemma JudgedCases<W>(setting: Setting<W>, reply: Reply, late: string, nudges: nat, acceptanceRequested: bool,
                       planPending: bool, stop: bool)
    ensures var v, text := Judged(setting, reply, late, nudges, acceptanceRequested, planPending, stop), reply.text;
            var cue, gated := setting.cue(text), setting.requireCompletion;
            if reply.dropped > 0 then v == GoOn(setting.wording(DroppedCall))
            else if stop then v == End(NoOutput)
            else if TrimSpace(text) == "" then v == GoOn(setting.wording(EmptyResponse))
            else if gated && setting.admission(text) != "" then v == End(Incomplete(text, setting.admission(text)))
            else if gated && nudges < 3 && cue then v == GoOn(setting.wording(ContinueAfterCue))
            else if gated && nudges < 3 && planPending then v == GoOn(setting.wording(ContinueWithPlan))
            else if gated && cue then v == End(Incomplete(text, "mid-step"))
            else if gated && setting.selfCorrect && !acceptanceRequested then v == GoOn(setting.wording(AcceptanceCheck))
            else if late != "" then v == GoOn(late)
            else v == End(Finished(text))
  {
    hide TrimSpace;
  }

  lemma EndingKinds<W>(setting: Setting<W>, reply: Reply, late: string, nudges: nat, acceptanceRequested: bool,
                       planPending: bool, stop: bool)
    ensures var v := Judged(setting, reply, late, nudges, acceptanceRequested, planPending, stop);
            v.End? ==>
              match v.ending
              case Finished(answer) => answer == reply.text
              case Incomplete(_, _) => true
              case _ => v.ending == NoOutput && stop
  {
    hide TrimSpace;
  }

  /** Arguments as they are replayed: an object, whatever the model sent. */
  function ReplayArguments<W>(setting: Setting<W>, arguments: string): string {
    var args := TrimSpace(arguments);
    if args == "" then "{}"
    else if setting.validJson(args) then arguments
    else setting.recoverable(args).GetOr("{}")
  }

  function ReplayCalls<W>(setting: Setting<W>, calls: seq<ToolCall>): (safe: seq<ToolCall>)
    ensures |safe| == |calls|
    ensures forall i | 0 <= i < |calls| :: safe[i].id == calls[i].id && safe[i].name == calls[i].name
  {
    seq(|calls|, i requires 0 <= i < |calls| => calls[i].(arguments := ReplayArguments(setting, calls[i].arguments)))
  }

  /** What is replayed is what the model sent wherever that is one JSON value, and is one JSON value everywhere, if `{}` is
      one and so is whatever can be recovered. */
  lemma ReplaysJson<W>(setting: Setting<W>, calls: seq<ToolCall>, i: nat)
    requires i < |calls|
    ensures var sent, args := ReplayCalls(setting, calls)[i], TrimSpace(calls[i].arguments);
            && sent.id == calls[i].id && sent.name == calls[i].name
            && (args != "" && setting.validJson(args) ==> sent == calls[i])
            && (args == "" ==> sent.arguments == "{}")
            && (args != "" && !setting.validJson(args) ==>
                  if setting.recoverable(args).Some? then sent.arguments == setting.recoverable(args).value else sent.arguments == "{}")
  {
    hide TrimSpace;
  }

  /** The reminder due after a batch, and the guards once it is given. */
  function DueReminder(g: Guards.State, turns: nat): (Guards.State, Guards.Reminder) {
    var (g1, progress) := Guards.ProgressReminderSpec(g);
    if progress.NoReminder? then Guards.PlanReminderSpec(g1, turns) else (g1, progress)
  }

  function Texts(text: string): seq<Message> { if text != "" then [Note(text)] else [] }

  function HintOrReminder<W>(setting: Setting<W>, hint: Option<Schedules.ToolResult>, g: Guards.State, turns: nat): seq<Message> {
    if hint.Some? then [Note(setting.wording(FailureHint(hint.value)))]
    else if DueReminder(g, turns).1.NoReminder? then []
    else [Note(setting.wording(Remind(DueReminder(g, turns).1)))]
  }

  function BatchFeedback<W>(setting: Setting<W>, turn: TurnSetting<W>, dropped: nat, done: Batch.Progress): seq<Message> {
    (if setting.selfCorrect && done.changed != [] then Texts(turn.feedback(Preserve.FirstSeen(done.changed))) else [])
    + (if done.model != "" then Texts(turn.switchNote(done.model)) else [])
    + (if dropped > 0 then [Note(setting.wording(DroppedCall))] else [])
  }

  lemma FeedbackIs<W>(setting: Setting<W>, turn: TurnSetting<W>, dropped: nat, done: Batch.Progress, feedback: string, note: string)
    requires feedback == if setting.selfCorrect && done.changed != [] then turn.feedback(Preserve.FirstSeen(done.changed)) else ""
    requires note == if done.model != "" then turn.switchNote(done.model) else ""
    ensures BatchFeedback(setting, turn, dropped, done)
            == Texts(feedback) + Texts(note) + if dropped > 0 then [Note(setting.wording(DroppedCall))] else []
  {
    hide Preserve.FirstSeen;
  }

  lemma Joined(ms: seq<Message>, a: seq<Message>, b: seq<Message>, c: seq<Message>)
    ensures ms + (a + b + c) == ms + a + b + c
  {
  }

  /** Everything said after a batch, in order. */
  function BatchNotes<W>(setting: Setting<W>, turn: TurnSetting<W>, dropped: nat, done: Batch.Progress, turns: nat)
    : seq<Message>
  {
    BatchFeedback(setting, turn, dropped, done) + HintOrReminder(setting, done.hint, done.guards, turns)
  }

  /** Which notes follow a batch: feedback first, if there is any on files it changed; the switch note; the note on dropped
      calls; and last the hint, or failing that the progress reminder, or failing that the plan reminder. */
  lemma NotesGiven<W>(setting: Setting<W>, turn: TurnSetting<W>, dropped: nat, done: Batch.Progress, turns: nat)
    ensures var notes := BatchNotes(setting, turn, dropped, done, turns);
            var feedback := if setting.selfCorrect && done.changed != [] then turn.feedback(Preserve.FirstSeen(done.changed)) else "";
            var switched := if done.model != "" then turn.switchNote(done.model) else "";
            var progress := Guards.ProgressReminderSpec(done.guards).1;
            var plan := Guards.PlanReminderSpec(done.guards, turns).1;
            var last := if done.hint.Some? then Some(FailureHint(done.hint.value))
                        else if progress != Guards.NoReminder then Some(Remind(progress))
                        else if plan != Guards.NoReminder then Some(Remind(plan)) else None;
            var a := Flag(feedback != "");
            var b := a + Flag(switched != "");
            var c := b + Flag(dropped > 0);
            && |notes| == c + Flag(last.Some?)
            && (feedback != "" ==> notes[0] == Note(feedback))
            && (switched != "" ==> notes[a] == Note(switched))
            && (dropped > 0 ==> notes[b] == Note(setting.wording(DroppedCall)))
            && (last.Some? ==> notes[c] == Note(setting.wording(last.value)))
  {
    hide Preserve.FirstSeen, Guards.PlanReminderSpec, Guards.ProgressReminderSpec;
    NothingProgressed(done.guards);
  }

  lemma NothingProgressed(g: Guards.State)
    ensures Guards.ProgressReminderSpec(g).1 == Guards.NoReminder ==> Guards.ProgressReminderSpec(g).0 == g
  {
  }

  /** A run goes on after a batch exactly if nothing stopped it, and otherwise ends for what did. */
  lemma FlowIsExit(exit: Batch.Exit)
    ensures FlowOf(exit) == Next <==> exit == Batch.Running
    ensures exit.Aborted? ==> FlowOf(exit) == Return(Broken(ToolAbort(exit.error)))
    ensures exit.Stopped? ==> FlowOf(exit) == Return(StoppedByTool(exit.answer, exit.reason))
    ensures exit.Looping? ==> FlowOf(exit) == Return(Ending.Looping(exit.tool, exit.count))
  {
  }

  function FlowOf(exit: Batch.Exit): Flow {
    match exit
    case Running => Next
    case Aborted(error) => Return(Broken(ToolAbort(error)))
    case Stopped(answer, reason) => Return(StoppedByTool(answer, reason))
    case Looping(tool, count) => Return(Ending.Looping(tool, count))
  }

  /** How a batch ran: the order of its calls, their outcomes by call, and how many were taken. */
  datatype Ran = Ran(order: seq<nat>, known: seq<Schedules.Outcome>, taken: nat)

  function Started(ms: seq<Message>, g: Guards.State, loaded: set<string>): Batch.Progress {
    Batch.Progress(ms, g, loaded, "", None, [], Batch.Running)
  }

  /** A batch starts with nothing taken, over the tools loaded so far. */
  lemma StartsAfresh(ms: seq<Message>, g: Guards.State, loaded: set<string>)
    ensures var p := Started(ms, g, loaded);
            && p.messages == ms && p.guards == g && p.loaded == loaded && p.exit == Batch.Running
            && p.model == "" && p.hint.None? && p.changed == []
  {
  }

  /** The calls ran in some order that only parallel-safe stretches may change, their results were taken
      in the original one, and if parallel-safe calls are independent nothing tells this from running
      them one by one. */
  ghost predicate RanAs<W(!new)>(env: Schedules.Tools<W>, world0: W, start: Batch.Progress, calls: seq<ToolCall>, ran: Ran,
                                 out: Batch.Progress, world: W)
  {
    && Schedules.IsSchedule(env, calls, ran.order) && Schedules.InRange(calls, ran.order)
    && Schedules.Yields(env, world0, calls, ran.order, ran.known, world)
    && |ran.known| == |ran.order| && Batch.Takes(env, start, calls, ran.known, ran.taken, out)
    && Schedules.AllSafe(env, calls, ran.taken, |ran.order|)
    && (Schedules.Independent(env) ==>
          out == Batch.Sequential(env, world0, start, calls, |calls|).0
          && world == Schedules.WorldAfter(env, world0, calls[..|ran.order|]))
  }

  // ---------------------------------------------------------------------------------------------
  // What the accepted replies make of a run
  // ---------------------------------------------------------------------------------------------

  /** A reply the run went by: the request it answers, where it stands in the conversation, and for one with calls how its
      batch began, ran and came out; `seen` is how many results the failure guard had been shown. */
  datatype Heard = Heard(
    at: nat, spoken: nat, reply: Reply, start: Batch.Progress, known: seq<Schedules.Outcome>, taken: nat, done: Batch.Progress, seen: nat)

  const NO_BATCH := Batch.Progress([], Guards.FRESH, {}, "", None, [], Batch.Running)

  function RepliesOf(heard: seq<Heard>): (r: seq<Reply>)
    ensures |r| == |heard| && forall k | 0 <= k < |heard| :: r[k] == heard[k].reply
  {
    seq(|heard|, k requires 0 <= k < |heard| => heard[k].reply)
  }

  function TurnOf(r: Reply): Guards.Turn { Guards.Turn(r.calls, r.text, r.reasoning) }

  /** The turns the no-output guard counts: not those that only dropped calls. */
  function CountedTurns(replies: seq<Reply>): seq<Guards.Turn> {
    if replies == [] then []
    else
      var r := replies[|replies| - 1];
      CountedTurns(replies[..|replies| - 1]) + if r.calls == [] && r.dropped > 0 then [] else [TurnOf(r)]
  }

  /** The last plan the model wrote has items open. */
  predicate PlanPending<W>(setting: Setting<W>, replies: seq<Reply>) {
    Guards.ItemsInLastPlan(setting.pending, Guards.AllCalls(CountedTurns(replies))) > 0
  }

  /** The text of the last reply is what the run's ending is judged by. */
  ghost predicate TextJudged(replies: seq<Reply>)
    requires replies != []
  {
    var r := replies[|replies| - 1];
    r.calls == [] && r.dropped == 0 && !ThreeEmpty(CountedTurns(replies)) && TrimSpace(r.text) != ""
  }

  /** Nudges spent so far, and whether the one acceptance request was. */
  ghost function NudgesSpent<W>(setting: Setting<W>, replies: seq<Reply>): nat {
    if replies == [] then 0
    else
      var before := replies[..|replies| - 1];
      var nudges := NudgesSpent(setting, before);
      nudges + Flag(TextJudged(replies) && NudgesOn(setting, replies[|replies| - 1].text, nudges, PlanPending(setting, before)))
  }

  ghost predicate CheckSpent<W>(setting: Setting<W>, replies: seq<Reply>) {
    replies != [] &&
    var before := replies[..|replies| - 1];
    CheckSpent(setting, before)
    || (TextJudged(replies) && ChecksAcceptance(setting, replies[|replies| - 1].text, NudgesSpent(setting, before),
                                                CheckSpent(setting, before), PlanPending(setting, before)))
  }

  /** What becomes of the last reply, one without calls, given all before it. */
  ghost function VerdictOn<W>(setting: Setting<W>, replies: seq<Reply>): Verdict
    requires replies != []
  {
    var n := |replies| - 1;
    Judged(setting, replies[n], setting.turn(n).lateDiagnostics, NudgesSpent(setting, replies[..n]), CheckSpent(setting, replies[..n]),
           PlanPending(setting, replies[..n]), ThreeEmpty(CountedTurns(replies)))
  }

  /** What the run keeps count of is what its replies amount to. */
  ghost predicate StandsAt<W>(setting: Setting<W>, replies: seq<Reply>, counted: seq<Guards.Turn>, nudges: nat, checked: bool, pendingItems: nat) {
    && counted == CountedTurns(replies)
    && nudges == NudgesSpent(setting, replies) && checked == CheckSpent(setting, replies)
    && pendingItems == Guards.ItemsInLastPlan(setting.pending, Guards.AllCalls(counted))
  }

  /** The reply is what the provider said to a request that showed the conversation just before it; it is in the
      conversation, its calls as they are replayed. */
  ghost predicate Replied<W>(setting: Setting<W>, h: Heard, sent: seq<Request>, history: seq<Message>) {
    && h.at < |sent| && h.spoken < |history|
    && setting.provider(h.at, sent[h.at].messages) == Streamed(h.reply) && h.reply.error == ""
    && sent[h.at].conversation == history[..h.spoken]
    && history[h.spoken] == Speech(h.reply.text, ReplayCalls(setting, h.reply.calls))
  }

  /** Its calls were run and answered, one result each; the batch stopped where it must; and the notes follow. */
  ghost predicate CallsAnswered<W>(setting: Setting<W>, h: Heard, turn: nat, history: seq<Message>, trace: seq<Guards.ToolOutcome>) {
    var calls, tools, first := h.reply.calls, setting.turn(turn).tools, h.spoken + 1;
    && h.seen <= |trace| && h.taken <= |h.known| <= |calls| && first + |calls| <= |history|
    && Batch.StopsAtFirst(tools, trace[..h.seen], calls, h.known, h.taken, h.done.exit)
    && h.start.hint.None? && h.start.model == "" && h.start.changed == []
    && Batch.TakesAlong(tools, trace[..h.seen], h.start, calls, h.known, h.taken, h.done)
    && Answers(calls, history[first..first + |calls|])
    && history[first..first + |calls|] == Batch.ResultMessages(h.known[..h.taken]) + Batch.Placeholders(calls[h.taken..])
    && (h.done.exit == Batch.Running ==> BatchNotes(setting, setting.turn(turn), h.reply.dropped, h.done, turn + 1) <= history[first + |calls|..])
  }

  /** A reply without calls that goes on is followed by the note that says why. */
  ghost predicate TextAnswered<W>(setting: Setting<W>, heard: seq<Heard>, k: nat, history: seq<Message>)
    requires k < |heard|
  {
    var v := VerdictOn(setting, RepliesOf(heard)[..k + 1]);
    v.GoOn? ==> heard[k].spoken + 1 < |history| && history[heard[k].spoken + 1] == Note(v.note)
  }

  ghost predicate HeardAt<W>(setting: Setting<W>, heard: seq<Heard>, k: nat, sent: seq<Request>, history: seq<Message>, trace: seq<Guards.ToolOutcome>)
    requires k < |heard|
  {
    && Replied(setting, heard[k], sent, history)
    && (k > 0 ==> heard[k - 1].at < heard[k].at && heard[k - 1].spoken < heard[k].spoken)
    && (if heard[k].reply.calls == [] then TextAnswered(setting, heard, k, history)
        else CallsAnswered(setting, heard[k], k, history, trace))
  }

  /** Reply `k` was accepted in turn `k`, and the run did with it what it must. */
  ghost predicate Follows<W>(setting: Setting<W>, heard: seq<Heard>, sent: seq<Request>, history: seq<Message>, trace: seq<Guards.ToolOutcome>) {
    forall k | 0 <= k < |heard| :: HeardAt(setting, heard, k, sent, history, trace)
  }

  /** The run goes on after reply `k`. */
  ghost predicate GoesOn<W>(setting: Setting<W>, heard: seq<Heard>, k: nat)
    requires k < |heard|
  {
    if heard[k].reply.calls == [] then VerdictOn(setting, RepliesOf(heard)[..k + 1]).GoOn? else heard[k].done.exit == Batch.Running
  }

  /** What reply `k`, which does not go on, ends the run with. */
  ghost predicate EndsWith<W>(setting: Setting<W>, heard: seq<Heard>, k: nat, ending: Ending)
    requires k < |heard|
  {
    if heard[k].reply.calls == [] then VerdictOn(setting, RepliesOf(heard)[..k + 1]) == End(ending)
    else FlowOf(heard[k].done.exit) == Return(ending)
  }

  /** All replies but the last go on. If the last does not, it ends the run, and no request was sent after the one it
      answers; otherwise the run was cut off or ran out of turns. */
  ghost predicate Concludes<W>(setting: Setting<W>, heard: seq<Heard>, requests: nat, turns: nat, ending: Ending) {
    && |heard| <= turns
    && (forall k | 0 <= k < |heard| - 1 :: GoesOn(setting, heard, k))
    && (if heard != [] && !GoesOn(setting, heard, |heard| - 1) then
          turns == |heard| && requests == heard[|heard| - 1].at + 1 && EndsWith(setting, heard, |heard| - 1, ending)
        else CutOff(ending) && turns <= |heard| + 1)
  }

  predicate CutOff(ending: Ending) { ending.OutOfTurns? || (ending.Broken? && !ending.error.ToolAbort?) }

  /** Where a run stands after so many turns: every reply but perhaps the last goes on, and if the last does not the run is
      about to end for it. */
  ghost predicate SoFar<W>(setting: Setting<W>, heard: seq<Heard>, requests: nat, turns: nat, flow: Flow) {
    && (forall k | 0 <= k < |heard| - 1 :: GoesOn(setting, heard, k))
    && (if heard != [] && !GoesOn(setting, heard, |heard| - 1) then
          turns == |heard| && flow.Return? && requests == heard[|heard| - 1].at + 1 && EndsWith(setting, heard, |heard| - 1, flow.ending)
        else if flow == Next then turns == |heard|
        else turns == |heard| + 1 && (flow.Return? ==> CutOff(flow.ending)))
  }

  lemma NothingSoFar<W>(setting: Setting<W>, heard: seq<Heard>, requests: nat)
    requires heard == []
    ensures SoFar(setting, heard, requests, 0, Next)
  {
  }

  lemma NextSoFar<W>(setting: Setting<W>, heard: seq<Heard>, requests: nat, turns: nat)
    requires SoFar(setting, heard, requests, turns, Next)
    ensures |heard| == turns && (heard != [] ==> GoesOn(setting, heard, |heard| - 1))
  {
    hide GoesOn;
  }

  lemma NoReplySoFar<W>(setting: Setting<W>, heard: seq<Heard>, requests0: nat, requests: nat, turns: nat, flow: Flow)
    requires SoFar(setting, heard, requests0, turns, Next) && (flow == OverBudget || (flow.Return? && CutOff(flow.ending)))
    ensures SoFar(setting, heard, requests, turns + 1, flow)
  {
    hide GoesOn, EndsWith;
  }

  lemma OneReplySoFar<W>(setting: Setting<W>, heard: seq<Heard>, h: Heard, requests0: nat, requests: nat, turns: nat, flow: Flow)
    requires SoFar(setting, heard, requests0, turns, Next) && flow != OverBudget && requests == h.at + 1
    requires (flow == Next <==> GoesOn(setting, heard + [h], |heard|))
    requires flow.Return? ==> EndsWith(setting, heard + [h], |heard|, flow.ending)
    ensures SoFar(setting, heard + [h], requests, turns + 1, flow)
  {
    hide GoesOn, EndsWith;
    forall k | 0 <= k < |heard| ensures GoesOn(setting, heard + [h], k) {
      GoesOnStill(setting, heard, h, k);
      assert k < |heard| - 1 || k == |heard| - 1;
    }
  }

  lemma SoFarConcludes<W>(setting: Setting<W>, heard: seq<Heard>, requests: nat, turns: nat, flow: Flow, ending: Ending)
    requires SoFar(setting, heard, requests, turns, flow) && flow == Return(ending)
    ensures Concludes(setting, heard, requests, turns, ending)
  {
    hide GoesOn, EndsWith;
  }

  lemma SoFarCutOff<W>(setting: Setting<W>, heard: seq<Heard>, requests0: nat, requests: nat, turns: nat, flow: Flow, ending: Ending)
    requires SoFar(setting, heard, requests0, turns, flow) && !flow.Return? && CutOff(ending)
    ensures Concludes(setting, heard, requests, turns, ending)
  {
    hide GoesOn, EndsWith;
  }

  // ---- the log grows with the run ----

  lemma ReplyStays<W>(setting: Setting<W>, h: Heard, sent: seq<Request>, history: seq<Message>, moreSent: seq<Request>, moreHistory: seq<Message>)
    requires Replied(setting, h, sent, history) && sent <= moreSent && history <= moreHistory
    ensures Replied(setting, h, moreSent, moreHistory)
  {
    assert moreHistory[..h.spoken] == history[..h.spoken];
  }

  lemma CallsStay<W>(setting: Setting<W>, h: Heard, turn: nat, history: seq<Message>, trace: seq<Guards.ToolOutcome>,
                     moreHistory: seq<Message>, moreTrace: seq<Guards.ToolOutcome>)
    requires CallsAnswered(setting, h, turn, history, trace) && history <= moreHistory && trace <= moreTrace
    ensures CallsAnswered(setting, h, turn, moreHistory, moreTrace)
  {
    hide Batch.StopsAtFirst, Batch.TakesAlong, BatchNotes, Answers;
    var first, n := h.spoken + 1, |h.reply.calls|;
    assert moreTrace[..h.seen] == trace[..h.seen];
    assert moreHistory[first..first + n] == history[first..first + n];
    assert history[first + n..] <= moreHistory[first + n..];
  }

  lemma FollowsOn<W>(setting: Setting<W>, heard: seq<Heard>, sent: seq<Request>, history: seq<Message>, trace: seq<Guards.ToolOutcome>,
                     moreSent: seq<Request>, moreHistory: seq<Message>, moreTrace: seq<Guards.ToolOutcome>)
    requires Follows(setting, heard, sent, history, trace) && sent <= moreSent && history <= moreHistory && trace <= moreTrace
    ensures Follows(setting, heard, moreSent, moreHistory, moreTrace)
  {
    hide Replied, CallsAnswered, VerdictOn;
    forall k | 0 <= k < |heard| ensures HeardAt(setting, heard, k, moreSent, moreHistory, moreTrace) {
      assert HeardAt(setting, heard, k, sent, history, trace);
      ReplyStays(setting, heard[k], sent, history, moreSent, moreHistory);
      if heard[k].reply.calls != [] {
        CallsStay(setting, heard[k], k, history, trace, moreHistory, moreTrace);
      }
    }
  }

  lemma HeardMore<W>(setting: Setting<W>, heard: seq<Heard>, h: Heard, sent: seq<Request>, history: seq<Message>, trace: seq<Guards.ToolOutcome>)
    requires Follows(setting, heard, sent, history, trace) && HeardAt(setting, heard + [h], |heard|, sent, history, trace)
    ensures Follows(setting, heard + [h], sent, history, trace)
  {
    hide Replied, CallsAnswered, VerdictOn;
    var all := heard + [h];
    forall k | 0 <= k < |all| ensures HeardAt(setting, all, k, sent, history, trace) {
      if k < |heard| {
        assert HeardAt(setting, heard, k, sent, history, trace);
        SameReplies(heard, h, k);
      }
    }
  }

  lemma SameReplies(heard: seq<Heard>, h: Heard, k: nat)
    requires k < |heard|
    ensures RepliesOf(heard + [h])[..k + 1] == RepliesOf(heard)[..k + 1]
  {
  }

  lemma GoesOnStill<W>(setting: Setting<W>, heard: seq<Heard>, h: Heard, k: nat)
    requires k < |heard|
    ensures GoesOn(setting, heard + [h], k) <==> GoesOn(setting, heard, k)
  {
    SameReplies(heard, h, k);
  }

  lemma RepliesSnoc(heard: seq<Heard>, h: Heard)
    ensures RepliesOf(heard + [h]) == RepliesOf(heard) + [h.reply]
    ensures RepliesOf(heard + [h])[..|heard|] == RepliesOf(heard) && RepliesOf(heard + [h])[..|heard| + 1] == RepliesOf(heard + [h])
  {
  }

  /** The last request of the turn showed the conversation as it was, and this is its answer. */
  ghost predicate JustSaid<W>(setting: Setting<W>, heard: seq<Heard>, h: Heard, sent: seq<Request>, before: seq<Message>) {
    && sent != [] && h.at == |sent| - 1 && h.spoken == |before| && sent[h.at].conversation == before
    && setting.provider(h.at, sent[h.at].messages) == Streamed(h.reply) && h.reply.error == ""
    && (heard != [] ==> heard[|heard| - 1].at < h.at)
  }

  lemma SameSaid<W>(setting: Setting<W>, heard: seq<Heard>, g: Heard, h: Heard, sent: seq<Request>, before: seq<Message>)
    requires JustSaid(setting, heard, g, sent, before) && h.at == g.at && h.spoken == g.spoken && h.reply == g.reply
    ensures JustSaid(setting, heard, h, sent, before)
  {
  }

  lemma JustSaidReplied<W>(setting: Setting<W>, heard: seq<Heard>, h: Heard, sent: seq<Request>, before: seq<Message>,
                           history: seq<Message>, trace: seq<Guards.ToolOutcome>)
    requires JustSaid(setting, heard, h, sent, before) && Follows(setting, heard, sent, before, trace)
    requires before + [Speech(h.reply.text, ReplayCalls(setting, h.reply.calls))] <= history
    ensures Replied(setting, h, sent, history)
    ensures heard != [] ==> heard[|heard| - 1].spoken < h.spoken
  {
    hide ReplayCalls;
    assert history[..|before|] == before;
    if heard != [] {
      assert HeardAt(setting, heard, |heard| - 1, sent, before, trace);
    }
  }

  /** One more reply without calls. */
  lemma TextHeard<W>(setting: Setting<W>, heard: seq<Heard>, h: Heard, sent: seq<Request>, before: seq<Message>,
                     history: seq<Message>, trace: seq<Guards.ToolOutcome>, counted0: seq<Guards.Turn>, nudges0: nat, checked0: bool,
                     items: nat, counted: seq<Guards.Turn>, nudges: nat, checked: bool)
    requires JustSaid(setting, heard, h, sent, before) && Follows(setting, heard, sent, before, trace) && h.reply.calls == []
    requires StandsAt(setting, RepliesOf(heard), counted0, nudges0, checked0, items)
    requires counted == if h.reply.dropped > 0 then counted0 else counted0 + [TurnOf(h.reply)]
    requires var judged := h.reply.dropped == 0 && !ThreeEmpty(counted) && TrimSpace(h.reply.text) != "";
             && nudges == nudges0 + Flag(judged && NudgesOn(setting, h.reply.text, nudges0, items > 0))
             && (checked <==> (checked0 || (judged && ChecksAcceptance(setting, h.reply.text, nudges0, checked0, items > 0))))
    requires var v := Judged(setting, h.reply, setting.turn(|heard|).lateDiagnostics, nudges0, checked0, items > 0, ThreeEmpty(counted));
             history == before + [Speech(h.reply.text, [])] + if v.GoOn? then [Note(v.note)] else []
    ensures Follows(setting, heard + [h], sent, history, trace)
    ensures StandsAt(setting, RepliesOf(heard + [h]), counted, nudges, checked, items)
    ensures VerdictOn(setting, RepliesOf(heard + [h])[..|heard| + 1])
            == Judged(setting, h.reply, setting.turn(|heard|).lateDiagnostics, nudges0, checked0, items > 0, ThreeEmpty(counted))
  {
    hide Judged, ThreeEmpty, NudgesOn, ChecksAcceptance, TrimSpace, Replied, JustSaid, Follows, HeardAt, StandsAt, VerdictOn, CountedTurns;
    RepliesSnoc(heard, h);
    TextStands(setting, RepliesOf(heard), h.reply, counted0, nudges0, checked0, items, counted, nudges, checked);
    NoCallsReplayed(setting, h.reply);
    JustSaidReplied(setting, heard, h, sent, before, history, trace);
    FollowsOn(setting, heard, sent, before, trace, sent, history, trace);
    TextIsAnswered(setting, heard, h, sent, before, history, trace,
                   Judged(setting, h.reply, setting.turn(|heard|).lateDiagnostics, nudges0, checked0, items > 0, ThreeEmpty(counted)));
    HeardMore(setting, heard, h, sent, history, trace);
  }

  lemma TextIsAnswered<W>(setting: Setting<W>, heard: seq<Heard>, h: Heard, sent: seq<Request>, before: seq<Message>,
                          history: seq<Message>, trace: seq<Guards.ToolOutcome>, v: Verdict)
    requires JustSaid(setting, heard, h, sent, before) && h.reply.calls == [] && Replied(setting, h, sent, history)
    requires heard != [] ==> heard[|heard| - 1].spoken < h.spoken
    requires VerdictOn(setting, RepliesOf(heard + [h])[..|heard| + 1]) == v
    requires history == before + [Speech(h.reply.text, [])] + if v.GoOn? then [Note(v.note)] else []
    ensures HeardAt(setting, heard + [h], |heard|, sent, history, trace)
  {
    hide VerdictOn, Replied, CallsAnswered;
  }

  lemma NoCallsReplayed<W>(setting: Setting<W>, r: Reply)
    requires r.calls == []
    ensures ReplayCalls(setting, r.calls) == []
  {
  }

  lemma TextStands<W>(setting: Setting<W>, replies: seq<Reply>, r: Reply, counted0: seq<Guards.Turn>, nudges0: nat, checked0: bool,
                      items: nat, counted: seq<Guards.Turn>, nudges: nat, checked: bool)
    requires r.calls == [] && StandsAt(setting, replies, counted0, nudges0, checked0, items)
    requires counted == if r.dropped > 0 then counted0 else counted0 + [TurnOf(r)]
    requires var judged := r.dropped == 0 && !ThreeEmpty(counted) && TrimSpace(r.text) != "";
             && nudges == nudges0 + Flag(judged && NudgesOn(setting, r.text, nudges0, items > 0))
             && (checked <==> (checked0 || (judged && ChecksAcceptance(setting, r.text, nudges0, checked0, items > 0))))
    ensures StandsAt(setting, replies + [r], counted, nudges, checked, items)
    ensures VerdictOn(setting, replies + [r])
            == Judged(setting, r, setting.turn(|replies|).lateDiagnostics, nudges0, checked0, items > 0, ThreeEmpty(counted))
  {
    hide Judged, ThreeEmpty, NudgesOn, ChecksAcceptance, TrimSpace, Guards.ItemsInLastPlan, Guards.AllCalls, NudgesSpent, CheckSpent, CountedTurns;
    SpentSnoc(setting, replies, r);
    NoNewCalls(counted0, TurnOf(r));
  }

  lemma SpentSnoc<W>(setting: Setting<W>, replies: seq<Reply>, r: Reply)
    ensures var all := replies + [r];
            && all[..|replies|] == replies && all[|replies|] == r
            && CountedTurns(all) == CountedTurns(replies) + (if r.calls == [] && r.dropped > 0 then [] else [TurnOf(r)])
            && NudgesSpent(setting, all)
               == NudgesSpent(setting, replies)
                  + Flag(TextJudged(all) && NudgesOn(setting, r.text, NudgesSpent(setting, replies), PlanPending(setting, replies)))
            && (CheckSpent(setting, all) <==>
                  (CheckSpent(setting, replies)
                   || (TextJudged(all) && ChecksAcceptance(setting, r.text, NudgesSpent(setting, replies), CheckSpent(setting, replies),
                                                           PlanPending(setting, replies)))))
  {
    hide TextJudged, NudgesOn, ChecksAcceptance, PlanPending;
    assert (replies + [r])[..|replies|] == replies;
  }

  lemma NoNewCalls(turns: seq<Guards.Turn>, t: Guards.Turn)
    requires t.calls == []
    ensures Guards.AllCalls(turns + [t]) == Guards.AllCalls(turns)
  {
    assert (turns + [t])[..|turns|] == turns;
    assert Guards.AllCalls(turns) + [] == Guards.AllCalls(turns);
  }

  /** One more reply with calls. */
  lemma CallsHeard<W>(setting: Setting<W>, heard: seq<Heard>, h: Heard, sent: seq<Request>, before: seq<Message>,
                      history: seq<Message>, trace0: seq<Guards.ToolOutcome>, trace: seq<Guards.ToolOutcome>, counted0: seq<Guards.Turn>,
                      nudges: nat, checked: bool, items0: nat, items: nat)
    requires JustSaid(setting, heard, h, sent, before) && Follows(setting, heard, sent, before, trace0) && h.reply.calls != []
    requires StandsAt(setting, RepliesOf(heard), counted0, nudges, checked, items0)
    requires items == Guards.ItemsInLastPlan(setting.pending, Guards.AllCalls(counted0 + [TurnOf(h.reply)]))
    requires trace0 <= trace && before + [Speech(h.reply.text, ReplayCalls(setting, h.reply.calls))] <= history
    requires CallsAnswered(setting, h, |heard|, history, trace)
    ensures Follows(setting, heard + [h], sent, history, trace)
    ensures StandsAt(setting, RepliesOf(heard + [h]), counted0 + [TurnOf(h.reply)], nudges, checked, items)
  {
    hide ThreeEmpty, Replied, JustSaid, Follows, HeardAt, StandsAt, CallsAnswered, ReplayCalls;
    RepliesSnoc(heard, h);
    CallsStand(setting, RepliesOf(heard), h.reply, counted0, nudges, checked, items0, items);
    JustSaidReplied(setting, heard, h, sent, before, history, trace0);
    FollowsOn(setting, heard, sent, before, trace0, sent, history, trace);
    CallsAreHeard(setting, heard, h, sent, before, history, trace);
    HeardMore(setting, heard, h, sent, history, trace);
  }

  lemma CallsAreHeard<W>(setting: Setting<W>, heard: seq<Heard>, h: Heard, sent: seq<Request>, before: seq<Message>,
                         history: seq<Message>, trace: seq<Guards.ToolOutcome>)
    requires JustSaid(setting, heard, h, sent, before) && h.reply.calls != [] && Replied(setting, h, sent, history)
    requires heard != [] ==> heard[|heard| - 1].spoken < h.spoken
    requires CallsAnswered(setting, h, |heard|, history, trace)
    ensures HeardAt(setting, heard + [h], |heard|, sent, history, trace)
  {
    hide Replied, CallsAnswered;
  }

  lemma CallsStand<W>(setting: Setting<W>, replies: seq<Reply>, r: Reply, counted0: seq<Guards.Turn>, nudges: nat, checked: bool,
                      items0: nat, items: nat)
    requires r.calls != [] && StandsAt(setting, replies, counted0, nudges, checked, items0)
    requires items == Guards.ItemsInLastPlan(setting.pending, Guards.AllCalls(counted0 + [TurnOf(r)]))
    ensures StandsAt(setting, replies + [r], counted0 + [TurnOf(r)], nudges, checked, items)
  {
    hide ThreeEmpty, NudgesOn, ChecksAcceptance, TrimSpace, Guards.ItemsInLastPlan, NudgesSpent, CheckSpent, CountedTurns;
    SpentSnoc(setting, replies, r);
  }

  /** The batch's part of what is logged of a reply with calls. */
  lemma CallsAre<W>(setting: Setting<W>, h: Heard, turn: nat, before: seq<Message>, results: seq<Message>, notes: seq<Message>,
                    trace0: seq<Guards.ToolOutcome>, trace: seq<Guards.ToolOutcome>)
    requires h.spoken == |before| && trace0 <= trace && h.seen == |trace0| && h.taken <= |h.known| <= |h.reply.calls|
    requires Batch.StopsAtFirst(setting.turn(turn).tools, trace0, h.reply.calls, h.known, h.taken, h.done.exit)
    requires h.start.hint.None? && h.start.model == "" && h.start.changed == []
    requires Batch.TakesAlong(setting.turn(turn).tools, trace0, h.start, h.reply.calls, h.known, h.taken, h.done)
    requires Answers(h.reply.calls, results)
    requires results == Batch.ResultMessages(h.known[..h.taken]) + Batch.Placeholders(h.reply.calls[h.taken..])
    requires h.done.exit == Batch.Running ==> notes == BatchNotes(setting, setting.turn(turn), h.reply.dropped, h.done, turn + 1)
    ensures CallsAnswered(setting, h, turn, before + ([Speech(h.reply.text, ReplayCalls(setting, h.reply.calls))] + results) + notes, trace)
  {
    hide Batch.StopsAtFirst, Batch.TakesAlong, BatchNotes, ReplayCalls, Batch.ResultMessages, Batch.Placeholders;
    var m := Speech(h.reply.text, ReplayCalls(setting, h.reply.calls));
    var history, first, n := before + ([m] + results) + notes, h.spoken + 1, |h.reply.calls|;
    assert trace[..h.seen] == trace0;
    assert history[first..first + n] == results;
    assert history[first + n..] == notes;
  }

  lemma CallsGoOn<W>(setting: Setting<W>, heard: seq<Heard>, h: Heard)
    requires h.reply.calls != []
    ensures GoesOn(setting, heard + [h], |heard|) <==> h.done.exit == Batch.Running
    ensures forall ending :: EndsWith(setting, heard + [h], |heard|, ending) <==> FlowOf(h.done.exit) == Return(ending)
  {
    hide VerdictOn, FlowOf;
  }

  // ---- what ends a run ----

  /** The right side of `FinishesIff`, for the last of these replies: no dropped call, not the third empty turn, no late
      diagnostics, the gate passed, and no pending plan while there are nudges to spend on it. */
  ghost predicate Finishing<W>(setting: Setting<W>, replies: seq<Reply>)
    requires replies != []
  {
    var n := |replies| - 1;
    var r := replies[n];
    && r.calls == [] && r.dropped == 0 && !ThreeEmpty(CountedTurns(replies)) && setting.turn(n).lateDiagnostics == ""
    && PassesGate(setting, r.text, CheckSpent(setting, replies[..n]))
    && (setting.requireCompletion && PlanPending(setting, replies[..n]) ==> NudgesSpent(setting, replies[..n]) >= MAX_CONTINUE_NUDGES)
  }

  /** Reply `k` finishes the work. */
  ghost predicate FinishesAt<W>(setting: Setting<W>, heard: seq<Heard>, k: nat)
    requires k < |heard|
  {
    Finishing(setting, RepliesOf(heard)[..k + 1])
  }

  /** Once a reply finishes the work it is the run's last: nothing is sent after it, and its text is the answer. And no
      run finishes on any other. */
  lemma FinishingReplyIsLast<W>(setting: Setting<W>, heard: seq<Heard>, requests: nat, turns: nat, ending: Ending)
    requires Concludes(setting, heard, requests, turns, ending)
    ensures forall k | 0 <= k < |heard| && FinishesAt(setting, heard, k) ::
              k == |heard| - 1 && turns == |heard| && requests == heard[k].at + 1 && ending == Finished(heard[k].reply.text)
    ensures ending.Finished? ==> heard != [] && FinishesAt(setting, heard, |heard| - 1) && ending.answer == heard[|heard| - 1].reply.text
  {
    hide FinishesAt, VerdictOn, FlowOf;
    forall k | 0 <= k < |heard| && FinishesAt(setting, heard, k)
      ensures k == |heard| - 1 && turns == |heard| && requests == heard[k].at + 1 && ending == Finished(heard[k].reply.text)
    {
      FinishingIff(setting, heard, k);
      assert !GoesOn(setting, heard, k);
    }
    if ending.Finished? {
      var n := |heard| - 1;
      FinishingIff(setting, heard, n);
      FlowIsExit(heard[n].done.exit);
      assert EndsWith(setting, heard, n, ending);
    }
  }

  lemma FinishingIff<W>(setting: Setting<W>, heard: seq<Heard>, k: nat)
    requires k < |heard|
    ensures FinishesAt(setting, heard, k) <==>
              heard[k].reply.calls == [] && VerdictOn(setting, RepliesOf(heard)[..k + 1]).End?
              && VerdictOn(setting, RepliesOf(heard)[..k + 1]).ending.Finished?
    ensures FinishesAt(setting, heard, k) ==>
              VerdictOn(setting, RepliesOf(heard)[..k + 1]) == End(Finished(heard[k].reply.text))
  {
    hide Judged, PassesGate, ThreeEmpty, PlanPending, CheckSpent, NudgesSpent, CountedTurns;
    var replies := RepliesOf(heard)[..k + 1];
    var r := replies[k];
    var (late, nudges, checked) := (setting.turn(k).lateDiagnostics, NudgesSpent(setting, replies[..k]), CheckSpent(setting, replies[..k]));
    FinishesIff(setting, r, late, nudges, checked, PlanPending(setting, replies[..k]), ThreeEmpty(CountedTurns(replies)));
    EndingKinds(setting, r, late, nudges, checked, PlanPending(setting, replies[..k]), ThreeEmpty(CountedTurns(replies)));
  }
}
