# Verification models of the coding agent's state machines

These Dafny modules model the parts of the agent whose comments promise something about every run, every
interleaving or every input, and prove those promises. `dafny verify dfyconfig.toml` checks all of them.

| module | models |
|---|---|
| `Transcript` | messages, and the pairing of tool calls with tool results |
| `Preserve`, `Extraction`, `Carry`, `PreservedBlock`, `Rounds`, `Intact`, `Carried` | the structured state carried from compaction to compaction, also through pruning |
| `Json`, `Losses` | a codec with the limits of the code; short runs that lose carried state |
| `Prune`, `Compaction`, `Compactor`, `Summarize` | token estimates, pruning, compaction, calibration and the retry state, the summarizer's fallback |
| `Guards` | the run guards' counters and reminders; quoted spans |
| `Schedules`, `Batch`, `Views`, `Turns`, `Run` | tool calls in whatever order they run; a turn's batch with parallel read-ahead; what a transcript shows of the conversation; what is made of each reply; the turn loop |
| `Diagnostics`, `JsonRpc`, `Manager`, `Cron` | four concurrent protocols as step machines: background diagnostics, the ACP peer, killing background tasks, claiming cron slots |
| `CommandPrefix` | proposing, granting and matching command prefixes |
| `Score`, `Guidelines`, `History` | eval scoring, guideline truncation and budget, session history |
| `Text`, `Utf8` | strings, trimming, sorting; UTF-8 |

How the models are built:

- Where the code mutates state, a class has the code's fields and its methods are proved against functions on
  the state as a value; what is promised is then proved of those functions.
- A concurrent protocol is a datatype `State`, a datatype `Step` with one constructor for each locked section
  or channel operation, and `After(steps)`. A step that is not enabled does not happen, so a statement about
  every sequence of steps is one about every interleaving. Times, versions and logs of what happened are part
  of `State`.
- What the environment does is a parameter: `Setting` and `Tools` (provider, tools, clock, cancellation),
  `Codec` (JSON and the text scanners), `Schedule` (the cron parser), `Shell` (the shell parser and the
  known-safe tests).

Assumptions made, each stated where it is used: a tool result carries its call's id (`KeepsIDs`), which is all
a run needs; parallel-safe calls have no effect on one another (`Independent`), which is needed only to compare
a batch with one-by-one execution; encoded preserved state is one line without space at its ends, decodes to
the state it was made from exactly if that is valid text, and no proper suffix of it does (`JsonLike`, for
which `Json` has an instance); `Schedule` is minute-aligned and later than asked (`Cron.Proper`); only summaries begin like a summary, and
neither the state nor a summary quotes the label. For the carried state to be that of one extraction, no id of
an edit, skill or tool-search call may be used again in another elided stretch (`NoReuse`, `EditsFiled`, asked
of each compaction that elides something). The Gemini provider numbers its synthesized ids afresh in every
reply (internal/providers/gemini/provider.go:294-297), so two of its tool turns violate it (`ReusedIDIsLost`).

Where the code does less than its comments say:

- `parsePreservedStateBlock` looks for the last occurrence of a label that JSON does not escape, and JSON
  replaces bytes that are no text, so a state whose JSON contains the label, or that holds such bytes, does not
  survive (`BlockRoundTrip` is an equivalence; `LabelledPlanIsLost`, `BrokenByteSkillIsLost`).
- Compaction extracts its state after pruning, so a skill or note is carried as its placeholder exactly when
  the result pruned was the last of its skill or of a kept path (`PrunedStateIff`, `PrunedSkillIsLost`).
  "Everything elided so far" holds of the transcript as it was elided; it holds of the conversation itself when
  no decisive result was pruned (`CompactingKeepsState`, `RunCarriesState`).
- Results are joined to calls by id alone, so a reused id files a note under the later call
  (`SeparateIff`, `ReusedIDsLoseNote`, `ReusedIDIsLost`).
- Parallel-safe calls are meant to be free of side effects, but `update_plan` counts as one: two plan updates
  in one turn leave whichever plan came last (`PlanUpdatesDoNotCommute`, `IndependentIffSchedulesAgree`).
  `read_file` records what it read, which commutes, so reads are covered; on an early exit the records of the
  whole open stretch stay.
- The post-run write of a cron job uses values computed at claim time. It is harmless exactly when no other
  claim advanced the job during the run (`WriteBackHarmlessIff`), and slots are won once exactly when no such
  write reaches an active job (`SlotsAreWonOnceIff`, `OverlapWinsTwice`). A write that had to do without its
  re-read can un-pause a job (`PausedStaysPausedIff`).
- Once the context is cancelled the worker leaves with files still queued, and a later drain can deliver a
  stale block (`DrainedBlocks`, `StaleOnceCancelled`).
- A grant holds trimmed tokens while a match compares tokens as they are (`OfferHonouredIff`,
  `EscapedSpaceIsNotHonoured`), and a saved grant is not consulted for a command that could not be a prefix
  itself (`RequestHonouredWhenSavedIff`, `BackquoteIsNotHonoured`).
- The last branch of `handleLine` never replies: a frame with an id and no method is already a response.

## Model

| member | source | states |
|---|---|---|
| Transcript.PairedIffByPosition | internal/agent/loop.go:3022-3034 | The two readings of pairing agree on every transcript: consuming it block by block, and the statement that each assistant message is followed at once by exactly the results of its calls, in order, and no other tool message exists |
| Transcript.PairedSplit | internal/agent/compaction.go:240-257 | A paired transcript may be cut in front of anything but a tool result; this is why a cut moves back to an assistant message |
| Transcript.PairedTurn | internal/agent/loop.go:417-424 | Appending an assistant message with one result per call keeps a transcript paired |
| Schedules.ExecuteParallelReadBatch | internal/agent/parallel_tools.go:62-97 | Each member runs once, in whatever order; slot k holds what member k gave in the workspace it met, and the workspace left is that of running the members in that order |
| Schedules.AnySchedule | internal/agent/parallel_tools.go:9-16 | If parallel-safe calls neither affect one another's results nor fail to commute, then every order that only parallel-safe stretches may change gives the same results and the same workspace as the original order |
| Schedules.IndependentIffSchedulesAgree | internal/agent/parallel_tools.go:9-16 | That condition is exact: it holds if and only if no schedule of any batch can be told from the original order |
| Schedules.PlanUpdatesDoNotCommute | internal/agent/parallel_tools.go:35-51 | Two plan updates, which count as parallel-safe, may run in either order and leave different plans: an input on which the condition fails |
| Batch.RunBatch | internal/agent/loop.go:560-660 | For any tools: the calls run in some order that only parallel-safe stretches may change, each at most once, all of them if the batch runs to its end; results are taken in the original order; calls run but not taken are the rest of one open stretch. If parallel-safe calls are independent, messages, guards, loads, hint and exit are those of one-by-one execution, the workspace too if the batch runs to its end, and on an early exit it is that of running the open stretch as well |
| Batch.ReadAhead | internal/agent/loop.go:564-577 | A window is opened only once the last one is used up, over parallel-safe calls only and to the end of their stretch |
| Batch.Obtain | internal/agent/loop.go:578-588 | The window index is in range, and the outcome taken is that of this very call |
| Batch.Consume | internal/agent/loop.go:589-659 | One result taken into the run, as BatchStops and BatchTakesAlong speak of it: recorded first, then abort or cancellation, stop reason, failure guard, hint and changed files; every early exit closes out the remaining calls |
| Batch.LooksSequential | internal/agent/loop.go:560-660 | What a batch took, in whatever order it ran, is what one-by-one execution takes, if parallel-safe calls are independent |
| Batch.BatchShape | internal/agent/loop.go:560-660 | Whatever ends it, a batch adds the results of the calls it took and placeholders for exactly the rest |
| Batch.BatchAnswers | internal/agent/loop.go:560-660 | On abort, stop, failure guard and normal end alike, and in whatever order the calls ran, the messages added are one result per advertised call with the same ids in the same order |
| Batch.BatchTraced | internal/agent/loop.go:607-648 | A batch adds to the run's trace what the failure guard was shown, moves nothing else of the guards, and its exit is the abort, stop reason or failure run that is there to see |
| Batch.BatchStops | internal/agent/loop.go:605-648 | Every batch stops exactly where it must: it takes its outcomes up to the first that carries an abort, a cancellation, a stop reason or the sixth failure of its tool in a row over the whole run, and its exit is the first of these that outcome carries; it goes on only if there is none, and then it took them all |
| Batch.BatchTakesAlong | internal/agent/loop.go:592-659 | Besides its messages a batch takes along the tools loaded by every result taken, the first model named, the files changed by successful results, in order, and as hint the first result that is the second failure of its tool in a row |
| Batch.AppendAbortedToolResults | internal/agent/loop.go:3025-3034 | One placeholder result for each remaining call |
| Views.RewriteKeepsView | internal/agent/loop.go:212-216 | Pruning and compacting, however often and in whatever order, leave a transcript a view of the whole conversation: all of it, or the system message, one note, and everything from some assistant message on; only bodies of tool results differ. Injected summaries never accumulate |
| Views.ShowsCompacted | internal/agent/compaction.go:182-238 | Compacting a view that already holds a summary swallows that summary |
| Views.ShowsGrows | internal/agent/loop.go:417-424 | Conversation and view grow alike |
| Run.AgentRun.constructor | internal/agent/loop.go:149-181 | A run starts with a system and a user message, a sound state, and no request sent |
| Run.AgentRun.Ask | internal/agent/loop.go:216-410 | Each turn's request is preceded by one proactive compaction and shows what that gives; then it goes as AskedAs says, from the first stream through recovery, cancellation, stall and a second recovery to the calibration. A reply that is accepted has no error and is what the provider said to exactly the transcript it is about to be appended to |
| Run.AgentRun.Settle | internal/agent/loop.go:333-410 | A cancelled run is lost with its error; a stalled stream is reissued once; one that then has an error is recovered from if that is possible and lost with it if not; and the token count of what is accepted goes into the calibration |
| Run.AgentRun.Retry | internal/agent/loop.go:241-268 | The request is sent once more exactly if the reactive compaction reports a retry and did not fail |
| Run.AgentRun.RecoverStreamError | internal/agent/loop.go:300-332 | A stream error is answered by the reactive compaction if it is due, and by one reissue exactly if that reports a retry; otherwise the error stands |
| Run.AgentRun.RetryStalls | internal/agent/loop.go:343-388 | A stall with no committed answer text is reissued, once, unless the wait is cancelled; nothing else is |
| Run.AgentRun.Connect | internal/agent/loop.go:234-268 | The first request of a turn shows the transcript as it is; what streams is taken, and an error before that is retried exactly if the reactive compaction reports a retry |
| Run.AgentRun.Recover | internal/agent/loop.go:241-246 | What the reactive compaction gives, reports and logs; a retry is reported only if none was before, and afterwards none can be; without one the transcript is unchanged |
| Run.AgentRun.JudgeAnswer | internal/agent/loop.go:426-536 | A reply without calls adds exactly one note and goes on, or ends the run with the transcript as it is, as Judged decides; the no-output guard's word is that the last three counted turns were empty |
| Run.AgentRun.JudgeText | internal/agent/loop.go:456-536 | The completion gate's part of that decision; a continue nudge or the one acceptance check is spent exactly when it says so |
| Turns.FinishesIff | internal/agent/loop.go:426-536 | A run finishes on exactly those replies that pass the gate with nothing left to say: no dropped call, no admission, no cue, acceptance checked, no late diagnostics, and no pending plan while nudges remain |
| Turns.JudgedCases | internal/agent/loop.go:426-536 | Every case of the decision on a reply without calls: dropped calls, the third empty turn, empty text, an admission, a cue or pending plan with and without nudges left, the acceptance request, late diagnostics, the end; and the note or ending each gives |
| Turns.FinishingReplyIsLast | internal/agent/loop.go:426-536 | Over a whole run: the first reply that finishes the work is the last one, no request is sent after the one it answers, and its text is the answer; and a run finishes on no other |
| Turns.ReplaysJson | internal/agent/loop.go:808-833 | Arguments that are one JSON value are replayed as they are; others as what can be recovered, or an empty object |
| Turns.NotesGiven | internal/agent/loop.go:662-730 | Which notes follow a batch and in which order: feedback on files it changed, the switch note, the note on dropped calls, and the hint, or failing that the progress reminder, or failing that the plan reminder; each exactly if it is due |
| Turns.FlowIsExit | internal/agent/loop.go:613-648 | A run goes on after a batch exactly if nothing stopped it, and otherwise ends for what did |
| Run.AgentRun.AfterBatch | internal/agent/loop.go:662-730 | Feedback, switch note, dropped-call note, and one hint or reminder follow the results, in that order, never between them |
| Run.AgentRun.GiveReminder | internal/agent/loop.go:720-730 | A plan reminder is considered only if no progress reminder is due |
| Run.HistorySafeToolCalls | internal/agent/loop.go:808-833 | Replayed calls keep ids, names and order; only arguments that are not one JSON value change |
| Run.DedupeStrings | internal/agent/loop.go:3038-3049 | Each changed file once, in first-seen order |
| Run.AgentRun.FinalAnswer | internal/agent/loop.go:773-806 | One more request with the final prompt; the answer is what it brings, unless the provider fails, the run was ended or there is no text; the prompt joins the conversation only together with an answer |
| Run.AgentRun.WindUp | internal/agent/loop.go:733-770 | Unless the run was ended: late diagnostics, then exactly one more request, for the final answer |
| Run.AgentRun.Execute | internal/agent/loop.go:149-770 | Over every run, whatever the tools do as long as results carry their calls' ids: the transcript returned and every request sent is paired and shows the conversation as it then was with at most one summary; at most maxTurns turns and two requests a turn plus one reactive retry and one final request; at most three continue nudges; every ending means what it says (EndsWell); every accepted reply is in the log with the request it answers, what the conversation showed then, its place in it and what followed (Follows); all but the last go on, a reply that is to end the run is the last, no request follows it, and the ending is its own (Concludes); the transcript is what the logged calls of the compactor made of the conversation, at most four a turn and each given its turn's summarizer; and if none of them loses anything (LosesNothing), the summary carries the state of exactly what was elided (CarriesState) |
| Run.AgentRun.Turn | internal/agent/loop.go:183-731 | One turn: unless the budget is spent it says its diagnostics, compacts, and sends what that gives; it accepts at most one reply, the answer to its last request; a reply without calls goes on or ends the run as JudgedCases says, over what all replies so far amount to; the calls of any other are run and answered, and the batch goes on or ends the run as BatchStops says. It keeps everything Execute states and costs at most two requests beyond the run's one reactive retry; an ending within it names what is behind it |
| Run.AgentRun.TakeText | internal/agent/loop.go:426-536 | A reply without calls joins the conversation, followed by the note that says why the run goes on, or ends it; nudges, acceptance check and empty turns stand at what all replies amount to |
| Run.AgentRun.TakeCalls | internal/agent/loop.go:538-731 | A reply with calls joins the conversation as it is replayed, with one result for each call and, if the batch ran to its end, the notes due |
| Run.AgentRun.RunTurns | internal/agent/loop.go:183-731 | Turn follows turn exactly until one ends the run or the turns or the budget are used up |
| Run.AgentRun.CompactBeforeSend | internal/agent/loop.go:212-216 | Proactive compaction keeps the run sound, leaves the reactive retry alone, turns the transcript into the compactor's result on it, and is logged with the conversation, transcript and tuner it met |
| Run.AgentRun.CallTools | internal/agent/loop.go:538-660 | The batch as it ran: order, outcomes by call, and how many were taken; the run's trace of failures and outcomes grows by exactly those |
| Run.AgentRun.RunTools | internal/agent/loop.go:417-424 | The assistant message and one result per call join the conversation |
| Run.AgentRun.ToolTurn | internal/agent/loop.go:538-731 | A turn with calls: its batch, its exit turned into the run's, and only after a batch that ran to its end the notes, in order; nothing tells the batch from one-by-one execution if parallel-safe calls are independent |
| Turns.IncompleteMeans | internal/agent/loop.go:460-502 | An answer is reported incomplete only under the gate: for what it admits, or for stopping mid-step with all nudges spent |
| Compaction.CompactMessages | internal/agent/compaction.go:182-238 | The boundaries, splice and counts are those CompactionShape speaks of, for every transcript, limit and summarizer; without a summarizer it fails |
| Compaction.SafeSuffixBoundary | internal/agent/compaction.go:246-257 | The nearest assistant message at or before the naive boundary, or the end of the system head |
| Compaction.CompactionShape | internal/agent/compaction.go:182-238 | Unchanged system head, one message, unchanged suffix that is led by an assistant message, no shorter than asked and no longer than it must be; removed + preserved = original length |
| Compaction.CompactsIff | internal/agent/compaction.go:182-257 | There is something to summarise exactly when an assistant message lies behind the first message after the system head and outside the messages to keep |
| Compaction.CompactionKeepsPairing | internal/agent/compaction.go:182-257 | Both the compacted transcript and the elided middle of a paired transcript are paired |
| Compaction.SummaryIsSwallowed | internal/agent/compaction.go:182-238 | Whatever a compacted transcript grows by, the next compaction elides that summary first |
| Compaction.SummaryFor | internal/agent/compaction.go:218-230 | The injected content SummaryIsInjected speaks of |
| Compaction.SummaryIsInjected | internal/agent/compaction.go:205-237 | The summarizer is asked for exactly the middle; compaction fails exactly if that fails, and otherwise its one new message is the label line and the trimmed summary, with nothing or the block behind it, and reads back as what the summarizer said, which is also the summary text reported |
| Rounds.SummaryIsThere | internal/agent/compaction.go:218-230 | For every text and middle the content is the label, a newline and the trimmed text, followed by nothing or by a blank line and the labelled block |
| Rounds.SummaryReadsBack | internal/agent/compaction.go:218-230 | Stripping the label line and the block gives the trimmed summary back, if neither it nor the state quotes the block's label |
| Compaction.ContentIsSummary | internal/agent/compaction_preserve.go:647-655 | The next compaction recognises the injected message as a summary |
| Compactor.CompactionState.Calibrate | internal/agent/compaction.go:341-356 | One usage sample folded into the ratio, as CalibrationMoves says |
| Compactor.CompactionState.MaybeCompact | internal/agent/compaction.go:380-435 | The transcript, the state and the low-water mark that ProactiveOutcome speaks of |
| Compactor.ProactiveOutcome | internal/agent/compaction.go:380-435 | What is small enough or no larger than after the last attempt is left alone. Anything else is pruned, which is enough if it gets under the threshold. If not, and there is a middle, the summarizer is called once, and if it answers, the smaller of the pruned and the compacted transcript is returned. The size returned is the new low-water mark, unless the summarizer failed |
| Compactor.ReactiveOutcome | internal/agent/compaction.go:442-486 | Once a run, for a context limit: compacts if that makes the transcript smaller, and reports a retry; a summarizer that fails uses up the attempt; otherwise nothing changes |
| Compactor.CalibrationMoves | internal/agent/compaction.go:341-356 | One sample takes the ratio three tenths of the way to the provider's count by the estimate, or to the end of the band if that is beyond it |
| Compactor.CalibrationConverges | internal/agent/compaction.go:341-356 | As long as counts and estimates stand in one proportion, the ratio converges to it: after n samples seven tenths to the n-th of the way remain |
| Compactor.ThresholdIsSevenTenths | internal/agent/compaction.go:147-152 | The threshold is seven tenths of the window, rounded down |
| Compactor.CalibratedScales | internal/agent/compaction.go:358-365 | The ratio scales the estimate, rounded down; unset it leaves it alone |
| Compactor.CompactionState.Recover | internal/agent/compaction.go:442-486 | The one-shot reactive compaction: the transcript, state and report that ReactiveOutcome speaks of |
| Compactor.ProactiveNeverGrows | internal/agent/compaction.go:380-435 | The calibrated size returned is never larger than the one given |
| Compactor.ProactiveStandsStill | internal/agent/compaction.go:380-435 | Unless the summarizer failed, a second pass at once returns its input, changes nothing and calls nobody |
| Compactor.ProactiveRewrites | internal/agent/compaction.go:380-435 | Proactive compaction only prunes, or prunes and compacts once, and keeps pairing |
| Compactor.ReactiveRewrites | internal/agent/compaction.go:442-486 | Reactive compaction only compacts, once, and keeps pairing |
| Compactor.RunGuarantees | internal/agent/compaction.go:341-486 | Over any sequence of samples, proactive and reactive compactions: at most one retry reported, the ratio unset or within [0.5, 2], the threshold unchanged |
| Prune.EstimateMessages | internal/agent/compaction.go:94-123 | The loops compute the token estimate |
| Prune.ToolNameForResult | internal/agent/prune.go:106-119 | The latest earlier call with the result's id names the tool |
| Prune.NamedLatest | internal/agent/prune.go:106-119 | A result is named after the first call with its id in the latest earlier message that makes one, and after nothing if none does |
| Prune.PrunableMeans | internal/agent/prune.go:20-102 | In numbers what is stale, and when pruning is done |
| Prune.PlaceholderTells | internal/agent/prune.go:29-38 | A placeholder names the tool, and no two of one tool for different token counts are alike |
| Prune.MessageWeighs | internal/agent/compaction.go:94-123 | A token for four characters that are no space, four for a message and for each call, a thousand for an image |
| Prune.Candidates | internal/agent/prune.go:46-82 | The backward scan finds exactly the stale tool results: outside the last messages to keep, behind at least 40,000 tokens of later tool output, at least 200 tokens, not pruned already |
| Prune.PruneStaleToolOutput | internal/agent/prune.go:46-102 | The loops compute Pruned: every stale result replaced if that frees 20,000 tokens, and nothing otherwise |
| Prune.PruneConserves | internal/agent/prune.go:46-102 | Estimate of the output plus reclaimed tokens is the estimate of the input |
| Prune.PruneIdempotent | internal/agent/prune.go:46-102 | A second pass returns its input with nothing reclaimed |
| Prune.PruneProtects | internal/agent/prune.go:46-102 | Nothing but tool results changes, and none in the last messages to keep or in the protected window |
| Prune.PruneKeepsPairing | internal/agent/prune.go:46-102 | Length, roles, ids, calls and all bodies but tool results' are unchanged, and so pairing is kept |
| Summarize.CallsBounded | internal/agent/compaction.go:505-545 | n messages cost at most 3n - 2 provider calls, whatever the provider answers |
| Summarize.BoundAttained | internal/agent/compaction.go:505-545 | The bound is attained at every size |
| Summarize.SlicesPartition | internal/agent/compaction.go:505-545 | A successful summary rests on nonempty slices that make up the input, in order |
| Summarize.ErrorsSurface | internal/agent/compaction.go:505-545 | An error returned is what the provider said to the last call made |
| Summarize.SlicesPrefix | internal/agent/compaction.go:505-545 | When the summary fails, what was summarised so far makes up a first part of the input, in order |
| Summarize.SplittingKeepsWords | internal/agent/compaction.go:505-545 | If each provider call keeps every word in order, so does the summary, however often the input was split |
| Summarize.AskedAtOnce | internal/agent/compaction.go:505-516 | What the provider takes in one call is asked in one; what it can neither take nor split fails with its error |
| Preserve.LastSeenConcat | internal/agent/compaction_preserve.go:175-187 | Last-seen order of a concatenation: the older paths without the newer ones, then the newer ones |
| Preserve.FirstSeenConcat | internal/agent/compaction_preserve.go:660-683 | First-seen order of a concatenation |
| Preserve.CapCommutesWithMerge | internal/agent/compaction_preserve.go:508-543 | Capping the older list before merging loses nothing that capping afterwards would keep |
| Preserve.MergeLatest | internal/agent/compaction_preserve.go:660-683 | Merging two extractions of names with their latest nonempty bodies is the extraction of the concatenation |
| Extraction.LastSeenOrder | internal/agent/compaction_preserve.go:175-187 | The loops compute last-seen order |
| Extraction.RecentEdits | internal/agent/compaction_preserve.go:128-170 | The loops compute the last twenty edited paths in last-edited order with their newest notes |
| Extraction.LoadedEntries | internal/agent/compaction_preserve.go:233-341 | The loops for loaded skills and tool schemas compute first-seen names with their latest nonempty bodies |
| Extraction.ProjectInstructionEntries | internal/agent/compaction_preserve.go:343-365 | The same for project instructions |
| Extraction.ExtractLatestPlan | internal/agent/compaction_preserve.go:60-73 | The last readable plan, searching backwards |
| Extraction.CallReadFor | internal/agent/compaction_preserve.go:128-341 | A result is read for the last call of its kind made under its id, and for none without |
| Extraction.EventsAreSaid | internal/agent/compaction_preserve.go:128-341 | Exactly what some result of such a call says is read |
| Extraction.InstructionsAreSaid | internal/agent/compaction_preserve.go:343-365 | Exactly the blocks that user messages begin with are read as instructions |
| Extraction.EditsRead | internal/agent/compaction_preserve.go:128-170 | Calls that write or edit a file are filed under their path, and a note is read from their results |
| Extraction.SkillsRead | internal/agent/compaction_preserve.go:233-275 | Skill calls are filed under the skill's name, and their trimmed results are read, capped, unless blank |
| Extraction.SearchesRead | internal/agent/compaction_preserve.go:277-341 | Tool searches are filed, and the schemas in their results are read |
| Extraction.MergeRecentEdits | internal/agent/compaction_preserve.go:508-534 | The loops compute the merge of two edit lists |
| Extraction.MergeSkillEntries | internal/agent/compaction_preserve.go:660-683 | The loops compute the merge of two named lists |
| Carry.RecentEditsCarry | internal/agent/compaction_preserve.go:467-543 | Carrying the edits of one stretch into the next gives the recent edits of both together |
| Carry.CombineExtracts | internal/agent/compaction_preserve.go:467-500 | The same for the whole state: plan, edits, tool schemas, skills and instructions |
| Carry.SeparateIff | internal/agent/compaction_preserve.go:128-341 | In paired stretches no result is read into the state of a call of the other if and only if no id of an edit, skill or tool-search call is used in both |
| Carry.EditsAnsweredIff | internal/agent/compaction_preserve.go:128-170 | In a paired stretch every edited path has a note if and only if every edited path has a call whose id no later edit takes over for another path |
| Carry.DistinctIDsSuffice | internal/agent/compaction_preserve.go:128-341 | Call ids that are distinct altogether are enough for both |
| Carry.ReusedIDsLoseNote | internal/agent/compaction_preserve.go:128-170 | Conversely: whenever a kept, noted path of the earlier stretch is not edited again and loses all its ids to later edits, carrying the state keeps its note and one extraction over both drops it |
| Rounds.LatestSummaryContent | internal/agent/compaction_preserve.go:647-655 | The latest summary message, searching backwards |
| Rounds.LatestIsLast | internal/agent/compaction_preserve.go:647-655 | It is the last message that is a summary, and nothing if none is |
| Rounds.AppendPreservedState | internal/agent/compaction_preserve.go:467-500 | The steps compute the summary with the carried state behind it |
| Rounds.CarriedStateIsExact | internal/agent/compaction_preserve.go:467-610 | After any number of compactions, each swallowing the summary before it, the summary carries exactly what one extraction over everything elided so far, as it was elided, would give; no id of an edit, skill or tool-search call may be reused across stretches |
| PreservedBlock.BlockRoundTrip | internal/agent/compaction_preserve.go:558-610 | A written state reads back exactly if and only if its strings are valid text and its JSON does not contain the label |
| Json.CodecIsJsonLike | internal/agent/compaction_preserve.go:558-580 | There is a line format with what is assumed of the JSON form |
| Intact.PrunedStateIff | internal/agent/prune.go:46-102 | For every transcript and stretch of it whose placeholders can be told from what they replace: pruning leaves the stretch's skills and edits extracted as they were if and only if it does nothing, or no prunable result of the stretch is the last nonblank result of its skill or the last note of a kept edited path |
| Intact.SkillsUnchangedIff | internal/agent/compaction_preserve.go:233-290 | However bodies of results were replaced, skills are extracted as they were if, and where replacements are told only if, no last nonblank result of a skill was replaced |
| Intact.EditsUnchangedIff | internal/agent/compaction_preserve.go:128-170 | The same for edits and the last notes of kept paths |
| Intact.ExtractKept | internal/agent/compaction_preserve.go:128-341 | The whole extraction is as it was where, besides, no result of a tool search was replaced |
| Carried.StateGrows | internal/agent/loop.go:417-424 | The state stays carried while conversation and transcript grow alike |
| Carried.CompactingKeepsState | internal/agent/compaction.go:380-486 | Proactive or reactive, first or later: a compaction leaves a transcript whose note, if it has one, carries exactly the extraction of everything it stands for, over the conversation's own results; asked only of one that elides something, and checked before the call: no decisive result of the elided stretch was pruned before or is prunable now, no id of an edit, skill or tool search is reused across the cut, and the state can be written |
| Carried.ElidedIsAligned | internal/agent/compaction.go:182-238 | Where a transcript that carries its state is compacted, its positions line up with the conversation's, so the condition above is always one about real positions |
| Carried.RunCarriesState | internal/agent/loop.go:183-424 | The same for any number of prunings and compactions with the conversation growing between them, from the log of the calls made |
| Losses.ReusedIDIsLost | internal/providers/gemini/provider.go:290-300 | Two edits under one synthesized id: both keep their notes when elided one after the other, and the first has none when elided together |
| Losses.PrunedSkillIsLost | internal/agent/compaction.go:406-416 | A skill within the output ceiling and three readings within their budget: the skill is pruned, and the elided stretch is then extracted with the placeholder in its place |
| Losses.LabelledPlanIsLost | internal/agent/compaction_preserve.go:586-610 | The plan extracted from an update whose item is the label is not read back |
| Losses.BrokenByteSkillIsLost | internal/agent/compaction_preserve.go:558-610 | A skill whose body holds a byte that is no text is extracted and not read back, though no label occurs |
| Guards.GuardState.ObserveToolResult | internal/agent/guardrails.go:473-499 | The record, hint and stop after one result are those FailureGuardIsExact speaks of |
| Guards.GuardState.ObserveTurn | internal/agent/guardrails.go:506-544 | The counters after one turn are those CountersMeanHistory speaks of; stops exactly at three empty turns |
| Guards.GuardState.ProgressReminderDue | internal/agent/guardrails.go:573-579 | Gives the reminder, and remembers it, as CountersMeanHistory counts it |
| Guards.GuardState.PlanReminderDue | internal/agent/guardrails.go:584-608 | Gives a reminder, and remembers it, as CountersMeanHistory counts it |
| Guards.FailureGuardIsExact | internal/agent/guardrails.go:473-499 | After any results, a failure's count is the length of its tool's current run of same-signature failures; the hint comes exactly with the second of a run, the stop exactly from the sixth |
| Guards.RecordsFollowTrace | internal/agent/guardrails.go:473-499 | A record exists exactly for tools whose latest result failed, with that run's signature, count and hint |
| Guards.NoOutputStopIsExact | internal/agent/guardrails.go:506-544 | The empty-turn stop holds exactly when the last three observed turns were empty |
| Guards.StripQuoted | internal/agent/guardrails.go:212-234 | Text outside balanced quoted spans, and an unclosed span, in order: the result StripIdempotent speaks of |
| Guards.StripIdempotent | internal/agent/guardrails.go:212-234 | Stripping quoted spans twice is stripping once |
| Guards.StripUnquoted | internal/agent/guardrails.go:212-234 | Text without quote openers is unchanged |
| Guards.QuotedSpanGoes | internal/agent/guardrails.go:212-234 | The first quoted span goes, quotes and all, and nothing in front of it; what is behind is stripped in turn |
| Guards.UnclosedSpanStays | internal/agent/guardrails.go:212-234 | A span that is never closed stays as it is |
| Guards.CountersMeanHistory | internal/agent/guardrails.go:506-608 | After any turns and reminder queries every counter and flag of turns, calls, plan and reminders means what it says of the whole history; the tool-only reminder is given at most once per stretch, the stale-plan reminder at most once between plan updates, the not-called reminder at most once |
| Guards.ProgressReminderIsExact | internal/agent/guardrails.go:573-579 | On asking, the progress reminder is given exactly when the last six turns or more were tool-only and none was given in this stretch; it names the stretch's length |
| Guards.PlanReminderIsExact | internal/agent/guardrails.go:584-608 | On asking, the stale-plan reminder is given exactly when the plan is stale and none was given since its last update; failing that the not-called reminder exactly when tools but never a plan were called by the third turn and none was given before |
| Guards.FailureGuardInRun | internal/agent/guardrails.go:473-499 | The failure guard's verdict in a run is that of the run's whole trace of results |
| Diagnostics.AsyncDiagnostics.Enqueue | internal/agent/async_diagnostics.go:80-101 | The loop is the Enqueue step of the interleaving theorems: a queued file is left alone, any other is queued and loses its old result, and a worker starts if there is none |
| Diagnostics.AsyncDiagnostics.TakeNext | internal/agent/async_diagnostics.go:103-118 | The worker's locked section is the Leave or the Take step, whichever the queue and the context allow |
| Diagnostics.AsyncDiagnostics.StoreResult | internal/agent/async_diagnostics.go:119-128 | The store of a check's outcome is the Finish step |
| Diagnostics.AsyncDiagnostics.BeginDrain | internal/agent/async_diagnostics.go:144-151 | The caller waits for exactly the worker it saw |
| Diagnostics.AsyncDiagnostics.Collect | internal/agent/async_diagnostics.go:161-178 | Delivers every kept block once, by path in sorted order, whatever order the map is read in |
| Diagnostics.QueueIsServed | internal/agent/async_diagnostics.go:80-129 | In every interleaving the queue has no duplicates, queued is its set, and under a live context a nonempty queue has a worker |
| Diagnostics.NeverStale | internal/agent/async_diagnostics.go:80-178 | In every interleaving under a live context, a delivered block is the last check's, and that check started after the file's last enqueue |
| Diagnostics.DrainedBlocks | internal/agent/async_diagnostics.go:80-178 | Cancelled or not: a delivered block is fresh if and only if its file is not waiting to be checked again |
| Diagnostics.StaleOnceCancelled | internal/agent/async_diagnostics.go:103-129 | A run in which a cancelled context makes a drain deliver a stale block |
| Diagnostics.IdleLeavesNothing | internal/agent/async_diagnostics.go:103-178 | An idle worker under a live context has checked every enqueued file in its final state, and each error found there is kept for delivery or was delivered |
| Diagnostics.EditIsNoted | internal/agent/async_diagnostics.go:80-101 | Every edited file is down as edited later than anything before and waits for its check, with a worker at work; no other file is touched |
| Diagnostics.CheckIsKept | internal/agent/async_diagnostics.go:103-129 | The worker takes the oldest file, and what its check finds, and only that, is kept for the reader |
| Diagnostics.DrainTakesAll | internal/agent/async_diagnostics.go:161-178 | A drain takes everything that is kept |
| Diagnostics.EditIsDelivered | internal/agent/async_diagnostics.go:80-178 | From any idle state under a live context an edit is checked, and its finding is there for the next drain |
| JsonRpc.Conn.Begin | internal/acp/jsonrpc.go:209-223 | A call registers a new id, and is refused exactly on a closed connection |
| JsonRpc.Conn.End | internal/acp/jsonrpc.go:225-229 | The deferred removal every way out of a call runs |
| JsonRpc.Conn.Take | internal/acp/jsonrpc.go:260-268 | A response to a pending call takes it out of pending and is what the reader delivers next; one for an unknown or abandoned id goes nowhere |
| JsonRpc.Conn.PutResponse | internal/acp/jsonrpc.go:269-279 | The send into a call's channel, which does not block |
| JsonRpc.Conn.Close | internal/acp/jsonrpc.go:281-286 | Closing and emptying pending is one step, and hands over exactly the calls that were pending |
| JsonRpc.Conn.FailEach | internal/acp/jsonrpc.go:287-293 | Ends, and afterwards every call that was pending has been sent a message |
| JsonRpc.OnePlace | internal/acp/jsonrpc.go:207-293 | In every interleaving a registered id is in exactly one place: pending, in transit, sent its message, or its call is over |
| JsonRpc.SlotsAreFree | internal/acp/jsonrpc.go:260-293 | No send finds its slot taken, so none blocks and none is dropped |
| JsonRpc.OwnAnswer | internal/acp/jsonrpc.go:239-248 | An answered call got the one message put into its channel: its own response or the connection's failure |
| JsonRpc.NextIdUnused | internal/acp/jsonrpc.go:219-222 | Ids never repeat |
| JsonRpc.NobodyWaitsForever | internal/acp/jsonrpc.go:207-293 | An unfinished call has its message ready, or is pending or in transit while the reader is still at work; once the reader has stopped the message is ready |
| JsonRpc.ClosedForGood | internal/acp/jsonrpc.go:281-286 | From the closing on nothing is pending and nothing is registered, whatever follows |
| JsonRpc.ResponseArrives | internal/acp/jsonrpc.go:260-279 | In every interleaving a response read while its call is pending is in transit from then on or was put, alone, into that call's channel |
| JsonRpc.FailureArrives | internal/acp/jsonrpc.go:281-293 | And so is the connection's failure, for every call pending when it closes |
| JsonRpc.ReadyIsReceived | internal/acp/jsonrpc.go:239-248 | A waiting call whose message was put can take it, and leaves with that message |
| JsonRpc.CallGoesThrough | internal/acp/jsonrpc.go:209-279 | From any open state with an idle reader: a call is registered under the next id, the first response under it is what it returns, and everybody else's calls are as they were |
| JsonRpc.CallGivesUp | internal/acp/jsonrpc.go:225-242 | A call that is cancelled or cannot be written leaves at once, and its id with it |
| JsonRpc.OutcomeStays | internal/acp/jsonrpc.go:207-248 | How a call came out never changes again |
| JsonRpc.HandleLine | internal/acp/jsonrpc.go:151-186 | A request gets exactly one reply, under its own id, with its handler's result or code; notifications reach their notifier, responses the pending calls, and neither is answered; unreadable input gets a parse error with a null id (JSON-RPC 2.0, sections 4 and 5) |
| JsonRpc.DispatchRequest | internal/acp/jsonrpc.go:188-205 | The reply's result or error code in every case |
| Manager.Tasks.Register | internal/background/manager.go:124-178 | Memory and disk afterwards, also when the save fails and the registration is rolled back |
| Manager.Tasks.SetPID | internal/background/manager.go:180-198 | Memory and disk afterwards; unknown tasks and invalid pids change nothing |
| Manager.Tasks.MarkExited | internal/background/manager.go:226-251 | Memory and disk afterwards; only a running task is changed |
| Manager.Tasks.KillTarget | internal/background/manager.go:309-323 | The pid to kill, or none unless the task is running with a pid |
| Manager.Tasks.IsRunningPID | internal/background/manager.go:325-330 | Whether the task still runs under that pid |
| Manager.Tasks.MarkKilledIfStillRunning | internal/background/manager.go:336-359 | Memory and disk afterwards; marked exactly if the task still ran under that pid and the save succeeded |
| Manager.Tasks.RestoreRunningAfterFailedKill | internal/background/manager.go:367-382 | Memory and disk afterwards; only a task still marked killed under that pid is restored |
| Manager.RecordsAgree | internal/background/manager.go:124-382 | At all times, saves failing or not, each task in memory equals its stored record, and its completion time is unset exactly while it runs |
| Manager.OnlyTheMarkerSignals | internal/background/manager.go:260-294 | In every interleaving at most one call of Kill is between its mark and its outcome on a task, and the task reads killed meanwhile |
| Manager.MarkedItself | internal/background/manager.go:260-294 | A call gets to signal only by its own successful mark of that very process |
| Manager.SignalsAreMarkedAndApart | internal/background/manager.go:260-294 | Over every interleaving: each signal went to the process the same call had marked, no call signals twice, and of two signals for one task the earlier call had failed and was over |
| Manager.TerminatedStaysKilled | internal/background/manager.go:260-382 | A task whose termination succeeded reads killed from then on, whatever happens |
| Manager.OverUntilRevivedIff | internal/background/manager.go:180-382 | Whatever follows, late exits and further kills included, a task that is not running keeps its status, exit code and completion time if and only if no call whose termination failed undoes its mark |
| Manager.RegistrationTakes | internal/background/manager.go:124-178 | A registration in order that can be saved adds exactly that task, running; any other changes nothing |
| Manager.ExitIsRecorded | internal/background/manager.go:226-251 | The exit of a running task is recorded as reported, once; any other report changes nothing |
| Manager.PidIsRecorded | internal/background/manager.go:180-198 | A new pid is recorded for a known task, and nothing else about it changes |
| Manager.KillWorks | internal/background/manager.go:260-382 | From any state: left alone, a kill of a running task signals exactly its process, and if that ends it the task reads killed, with its end and exit code |
| Manager.FailedKillIsUndone | internal/background/manager.go:260-382 | If the process cannot be ended, the task is running again as it was |
| Cron.Store.ClaimFire | internal/cli/cron_run.go:245-279 | The record and the verdict after a claim, in every case of the store's failures |
| Cron.Store.PersistRun | internal/cli/cron_run.go:183-219 | The record after the post-run write, in every case of the store's failures |
| Cron.AdvancePassesFire | internal/cli/cron_run.go:256-270 | An advancing claim moves the job to a minute-aligned slot past the fire time, which is not before the slot won |
| Cron.WonOnce | internal/cli/cron_run.go:245-279 | A record claimed at some time cannot be claimed again at or before that time |
| Cron.OverlapWinsTwice | internal/cli/cron_run.go:202-222 | Two overlapping runs whose write-back lets one slot be won twice |
| Cron.WriteBackHarmlessIff | internal/cli/cron_run.go:202-222 | After an advancing claim, the post-run write leaves the slot as it is if and only if no other claim advanced the job meanwhile; otherwise it sets the job back |
| Cron.SlotsAreWonOnce | internal/cli/cron_run.go:135-279 | Over any interleaving of listings, claims, pauses, removals, skipped backlogs and post-run writes that do not disturb: slots won strictly increase past every fire, and a schedule that cannot advance is won at most once, last, leaving the job paused |
| Cron.SlotsAreWonOnceIff | internal/cli/cron_run.go:135-279 | For whole histories that condition is exact: at every point, and whoever claims next, slots are won once if and only if no run whose claim is no longer the latest has written its slot into a job then active |
| Cron.DisturbanceWinsTwice | internal/cli/cron_run.go:202-222 | After the first such write, on any schedule, one listing and one claim win a slot that is not later than one already won |
| Cron.ReconcileOverdue | internal/cli/cron_run.go:105-130 | Exactly the selected active jobs that are strictly overdue, can go on and can be saved are moved, past now; a job due in the current minute is left to fire; each as the step of the interleaving |
| Cron.PausedStaysPausedIff | internal/cli/cron_run.go:202-219 | Whatever follows, a paused or removed job stays so if and only if no later post-run write had to do without its re-read while its stale copy was active and its schedule goes on |
| Cron.ClaimIsWonIff | internal/cli/cron_run.go:245-279 | A claim is won if and only if the store works and the job is active and due at or before the fire time; the slot won is the one it was due at, and the job moves to the slot after that minute or pauses |
| Cron.RunCounts | internal/cli/cron_run.go:135-279 | A run nobody interferes with wins one slot, counts one fire, and leaves the job waiting for the next slot, or paused if there is none |
| Cron.OthersDo | internal/cli/cron_run.go:105-130 | Pausing and removing take effect at once; skipping a backlog moves exactly an active job due before the current minute, to its first slot after now |
| CommandPrefix.FlattensTrees | internal/agent/command_prefix.go:241-285 | Every tree of and, or and pipe over literal commands flattens to its leaves in order |
| CommandPrefix.FlattensOnlyTrees | internal/agent/command_prefix.go:241-285 | Whatever flattens is such a tree, and flattens to its leaves |
| CommandPrefix.CollectCommand | internal/agent/command_prefix.go:248-267 | The recursion over the shared slice computes Flatten |
| CommandPrefix.LiteralCallTokens | internal/agent/command_prefix.go:269-285 | Tokens exactly for calls of literal words without globs or assignments |
| CommandPrefix.SafeShellCommandSegments | internal/agent/command_prefix.go:220-239 | The loop computes Segments |
| CommandPrefix.SafeRequestedPrefix | internal/agent/command_prefix.go:196-218 | Offered exactly if valid, every segment begins with it or is known safe, and at least one begins with it |
| CommandPrefix.OfferSegment | internal/agent/command_prefix.go:34-49 | Offers a prefix that Proposed allows, and none only if it allows none |
| CommandPrefix.ProposedCommandPrefix | internal/agent/command_prefix.go:13-50 | The same for the whole call, with or without a requested prefix |
| CommandPrefix.RequestsAreTrimmed | internal/agent/command_prefix.go:161-194 | A requested prefix never has space around its tokens |
| CommandPrefix.RuleReads | internal/agent/command_prefix.go:161-194 | A rule of words is read trimmed, whichever kind of list holds it, and as empty if a word is blank; anything else counts as empty, and only a missing rule as none |
| CommandPrefix.FirstTextCounts | internal/agent/command_prefix.go:17-20 | The command is the first of the names that holds text, trimmed |
| CommandPrefix.ProposedThenAccepted | internal/agent/command_prefix.go:13-109 | Whatever is proposed with trimmed tokens, once granted for the session, makes the same command match; saved, too, if a whole segment was offered |
| CommandPrefix.OfferHonouredIff | internal/agent/command_prefix.go:13-109 | With no other grants the offer of an unsafe segment is honoured if and only if its tokens have no space around them |
| CommandPrefix.RequestHonouredWhenSavedIff | internal/agent/command_prefix.go:13-109 | A requested prefix, saved and alone, is honoured if and only if the segments that need it, and one it covers, could be prefixes themselves |
| CommandPrefix.MatchSegments | internal/agent/command_prefix.go:82-108 | Accepts exactly if every segment is granted or known safe and at least one is granted; returns the first grant of the first segment that has one, and says whether some segment is covered for the session only |
| CommandPrefix.MatchCommandPrefix | internal/agent/command_prefix.go:66-109 | The same for the whole call; never when further permissions are wanted |
| CommandPrefix.LookupStored | internal/sandbox/grants.go:201-222 | The first saved grant that covers the command, and only for a command that could be a prefix itself |
| CommandPrefix.FirstCovers | internal/sandbox/grants.go:201-222 | The grant found is the first that covers the command |
| CommandPrefix.FirstSegmentCounts | internal/agent/command_prefix.go:82-108 | The grant reported is that of the first segment with one, a saved one before one of the session |
| CommandPrefix.EscapedSpaceIsNotHonoured | internal/agent/command_prefix.go:13-109 | The command run foo\ ; with a semicolon behind an escaped space: its one segment is proposed, and once granted, saved or for the session, the same command does not match |
| CommandPrefix.BackquoteIsNotHonoured | internal/agent/command_prefix.go:13-109 | A request for cargo over an escaped backquote, which could not be a prefix itself: proposed, saved, and the same command does not match |
| CommandPrefix.NotHonoured | internal/agent/command_prefix.go:13-109 | Both commands taken through proposal, grant and match: each is offered and neither matches |
| Score.ScoreRun | internal/agenteval/score.go:86-133 | The report passes if and only if the verdict holds; the four counts sum to Total; Total is the check count plus the distinct unknown ids; without a task the report is one error |
| Score.CollectResults | internal/agenteval/score.go:110-130 | All results pass if and only if the verdict holds; the commands come first, each scored by its last result, and the unknown ones last |
| Score.ScoreCommand | internal/agenteval/score.go:135-167 | Blocked, passing and failing each exactly when they should be |
| Score.ScoreChangedFiles | internal/agenteval/score.go:169-190 | Passes exactly if the normalized changed files equal the expected list |
| Score.ScoreForbiddenChangedFiles | internal/agenteval/score.go:192-212 | Passes exactly if no forbidden file changed |
| Score.ScoreTraceEvents | internal/agenteval/score.go:246-267 | Passes exactly if every required event occurred |
| Score.FinishSummary | internal/agenteval/score.go:307-333 | Exact counts that add up, OK exactly if everything passed, status by precedence |
| Score.CommandResultsByID | internal/agenteval/score.go:335-343 | The last result under an id wins; empty ids are dropped |
| Score.LastCounts | internal/agenteval/score.go:335-343 | A result reported again under an id counts the last time, and the empty id never |
| Score.TallyCounts | internal/agenteval/score.go:307-333 | Each count is the number of results with that status |
| Score.TaskIsFirst | internal/agenteval/score.go:345-358 | The task scored is the only one when none is named, and otherwise the first of that name |
| Score.IntersectFiles | internal/agenteval/score.go:384-399 | Sorted intersection without duplicates |
| Score.Normalize | internal/agenteval/suite.go:149-162 | The normal forms of the valid nonempty entries, each once, sorted |
| Score.NormalizeTask | internal/agenteval/score.go:360-367 | Every list of the task in normal form |
| Score.NormalFormUnique | internal/agenteval/suite.go:149-239 | A list's normal form depends only on which entries it has |
| Score.ScoreContextChecks | internal/agenteval/score.go:214-244 | Passes exactly if the checks ran without error and found nothing; an error exactly if they did not run |
| Score.UnknownCommandResults | internal/agenteval/score.go:269-305 | One result for each distinct unknown id, in sorted order, with the status its last result has; none passes |
| Score.DiffFiles | internal/agenteval/score.go:369-382 | Sorted set difference |
| Guidelines.TruncateGuidelineContent | internal/agent/system_prompt.go:437-461 | The backward walks stop at the last character start that leaves room, as TruncationIsSound needs |
| Guidelines.TruncationIsSound | internal/agent/system_prompt.go:437-461 | For valid UTF-8 (RFC 3629, sections 3 and 4) and any limit: valid UTF-8 within the limit, a prefix of the input with the marker exactly if that fits, at most three bytes short of the limit |
| Guidelines.BodiesAreValid | internal/agent/system_prompt.go:354-390 | Bodies of valid files are valid UTF-8 |
| Guidelines.FilesGetTheirRoom | internal/agent/system_prompt.go:354-390 | Each file used has up to 8 KiB of what the earlier bodies left of 32 KiB: it is injected whole if it fits, and otherwise shortened to at most three bytes less |
| Utf8.CutIsValid | internal/agent/system_prompt.go:448-460 | Cutting valid UTF-8 at the start of a character leaves valid UTF-8 |
| Utf8.StartIsNear | internal/agent/system_prompt.go:448-460 | A character start is at most three bytes back |
| Guidelines.ProjectGuidelines | internal/agent/system_prompt.go:354-390 | At most 32 KiB in all and 8 KiB each; every body is its file shortened to what the budget left; a file before the last one used is skipped only if unreadable or empty, and one after it only once the budget is used up |
| History.Session.PersistTurn | internal/acp/agent.go:403-422 | What is appended to history and to the store |
| History.Session.LoadHistory | internal/acp/agent.go:424-467 | The records the round trip speaks of: a prompt without an answer is a turn, and so is an answer without a prompt |
| History.RoundTrip | internal/acp/agent.go:403-467 | Whatever turns were recorded, empty prompts and answers included, and whatever else is in the log between their events, a load gives back exactly those turns |
| History.LogGrows | internal/acp/agent.go:403-422 | Each appended turn, and each other event, keeps the log a record of the turns so far |

## Left out

- Provider streaming, LSP servers, processes and signals, sockets, git and file access: their outcomes are parameters.
- Errors of saving: writing a record succeeds or changes nothing, in one step.
- JSON text and the scanners of tool output: `Codec` functions; the preserved state's JSON is assumed only to be `JsonLike`.
- Reasoning blocks of messages: they play no part in pairing, pruning, compaction or the token estimate.
- Tool-definition tokens: a number given with each request.
- Unicode white space: trimming knows the six ASCII space characters only.
- Floating point: the calibration ratio is a real number, truncated to an integer where the code truncates.
- Schedules.ExecuteParallelReadBatch: a concurrent call is one step, in any order; overlapping inside a call and the bound of eight are not modelled.
- The permission and approval branches of a tool call: it returns a result with its call's id, possibly with an abort.
- Run.AgentRun.Execute: hooks, callbacks, usage budgets, tool exposure and model switching appear only through what they add to the transcript or whether they end the run; transient reconnects inside one send are part of that send.
- Notice wording, phrase lists and the tests for cues and admissions: functions of `Setting`.
- Compaction.CompactMessages: the content of the injected message is a parameter, so that the statements about shape hold for any; `SummaryWriter` is the one in use, and the one `Run` uses.
- Summarize: the slices are tracked as values beside the calls, and the prompt's wording is not modelled.
- Guards.GuardState.ObserveToolResult: takes the output's error signature, not the output.
- Guards.StripQuoted: text is a sequence of runes, as valid UTF-8 decodes to; for bytes that are no text the code writes a replacement rune.
- Diagnostics.AsyncDiagnostics.Enqueue: takes resolved paths; how a relative path is resolved is not modelled. One caller issues enqueues and drains, as the run loop does.
- Diagnostics: the drain's timer is a step that may happen at any time; the wording around the blocks is left out.
- JsonRpc.HandleLine: handlers are functions of the parameters; that they run on goroutines of their own changes the order of replies only. A frame whose id is no number is ignored by `deliver` and has no step.
- Manager: `UpdateStatus` is not part of the race machine because it sets any status without a guard, with which none of the statements about kills would hold. An exit reported while a task is marked killed is dropped, so it is not claimed that exits are never lost. Loading is not modelled: that memory and disk agree and records are consistent when a manager opens is an assumption (`RecordsConsistent`), which loading does not ensure, as a failed repair is kept in memory only and a completed record without a completion time is not repaired.
- Manager.Tasks.Register: the descriptive fields, and how the output path is chosen.
- Cron.SlotsAreWonOnce: resuming a job by hand, which rewrites the slot without a claim, is no step; pausing and skipping a backlog are single steps, without the gap between reading the record and writing it.
- Cron.ReconcileOverdue: each job is written back from the listing; another scheduler changing it in between is not modelled.
- Intact.PrunedStateIff: tool schemas are not part of the equivalence; ExtractKept is one-way for them, as dropping an early result can reorder the names first seen.
- CommandPrefix: the shell grammar, the known-safe lists and the banned prefixes are functions of `Shell`; grant storage on disk is a list.
- Score: names, messages, output and commands are not part of the results; the check of required files and the reading of trace lines are inputs.
- Score.Normalize: the path library's lexical cleaning is a parameter.
- Guidelines.ProjectGuidelines: finding and reading files, headings and labels; contents come trimmed.
- History.Session.PersistTurn: a payload comes back as it was written; locking of the session is left out, as is session registration.
- Budget accounting, command-line parsing, the terminal interface, authentication, the daemon and the exec event writer.
