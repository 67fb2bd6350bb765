/** Compaction: summarise the oldest middle of a conversation, keep the system head and the recent turns. */
module Compaction {
  import opened Text
  import opened Transcript
  import opened Preserve
  import opened Rounds
  import PreservedBlock

  const DEFAULT_PRESERVE_LAST := 6

  /** What the injected summarizer answers. */
  datatype Outcome = Summary(text: string) | Failed(error: string)

  type Summarizer = seq<Message> -> Outcome

  /** How summary text and the elided middle become the content of the injected message. */
  type Writer = (string, seq<Message>) -> string

  /** The writer in use: the labelled text with the preserved state behind it. */
  function SummaryWriter(codec: Codec): Writer {
    (text, middle) => WithPreservedState(codec, SummaryText(text), middle)
  }

  datatype CompactionResult = CompactionResult(
    messages: seq<Message>, removed: nat, preserved: nat, summaryText: string, compacted: bool)

  datatype CompactionOutcome = Done(result: CompactionResult) | CompactionFailed(error: string)

  function SystemEnd(ms: seq<Message>): (n: nat)
    ensures n <= |ms|
    ensures forall i | 0 <= i < n :: ms[i].role == System
    ensures n < |ms| ==> ms[n].role != System
  {
    if ms == [] || ms[0].role != System then 0 else 1 + SystemEnd(ms[1..])
  }

  /** The last assistant message above `systemEnd` at or before `boundary`, or `systemEnd`. */
  function SafeBoundary(ms: seq<Message>, systemEnd: nat, boundary: nat): (b: nat)
    requires systemEnd <= boundary && (systemEnd < boundary ==> boundary < |ms|)
    ensures systemEnd <= b <= boundary
    ensures systemEnd < b ==> ms[b].role == Assistant
    ensures forall i | b < i <= boundary :: ms[i].role != Assistant
    decreases boundary
  {
    if boundary == systemEnd || ms[boundary].role == Assistant then boundary
    else SafeBoundary(ms, systemEnd, boundary - 1)
  }

  function Keep(preserveLast: int): int {
    if preserveLast <= 0 then DEFAULT_PRESERVE_LAST else preserveLast
  }

  lemma SixByDefault(preserveLast: int)
    ensures Keep(preserveLast) == if preserveLast <= 0 then 6 else preserveLast
  {
  }

  function NaiveBoundary(ms: seq<Message>, preserveLast: int): (b: nat)
    ensures SystemEnd(ms) <= b && (SystemEnd(ms) < b ==> b < |ms|)
  {
    if |ms| - Keep(preserveLast) < SystemEnd(ms) then SystemEnd(ms) else |ms| - Keep(preserveLast)
  }

  function CutAt(ms: seq<Message>, preserveLast: int): (b: nat)
    ensures SystemEnd(ms) <= b <= |ms|
  {
    SafeBoundary(ms, SystemEnd(ms), NaiveBoundary(ms, preserveLast))
  }

  /** The stretch that would be summarised away. */
  function Middle(ms: seq<Message>, preserveLast: int): seq<Message> {
    ms[SystemEnd(ms)..CutAt(ms, preserveLast)]
  }

  /** System head, one message in place of the middle, preserved suffix. */
  function Spliced(ms: seq<Message>, preserveLast: int, note: Message): seq<Message> {
    ms[..SystemEnd(ms)] + [note] + ms[CutAt(ms, preserveLast)..]
  }

  function CompactSpec(write: Writer, ms: seq<Message>, preserveLast: int, summarize: Summarizer): CompactionOutcome {
    var middle := Middle(ms, preserveLast);
    if middle == [] then Done(CompactionResult(ms, 0, |ms|, "", false))
    else
      match summarize(middle)
      case Failed(e) => CompactionFailed(e)
      case Summary(text) =>
        Done(CompactionResult(Spliced(ms, preserveLast, Note(write(text, middle))),
                              |middle|, |ms| - |middle|, TrimSpace(text), true))
  }

  // ---------------------------------------------------------------------------------------------
  // The code
  // ---------------------------------------------------------------------------------------------

  method SafeSuffixBoundary(ms: seq<Message>, systemEnd: nat, boundary0: nat) returns (boundary: nat)
    requires systemEnd <= boundary0 && (systemEnd < boundary0 ==> boundary0 < |ms|)
    ensures boundary == SafeBoundary(ms, systemEnd, boundary0)
  {
    boundary := boundary0;
    while boundary > systemEnd && ms[boundary].role != Assistant
      invariant systemEnd <= boundary <= boundary0
      invariant SafeBoundary(ms, systemEnd, boundary0) == SafeBoundary(ms, systemEnd, boundary)
    {
      boundary := boundary - 1;
    }
  }

  method LeadingSystem(ms: seq<Message>) returns (systemEnd: nat)
    ensures systemEnd == SystemEnd(ms)
  {
    systemEnd := 0;
    while systemEnd < |ms| && ms[systemEnd].role == System
      invariant 0 <= systemEnd <= |ms|
      invariant forall i | 0 <= i < systemEnd :: ms[i].role == System
    {
      systemEnd := systemEnd + 1;
    }
  }

  /** The loops behind the writer in use. */
  method SummaryFor(codec: Codec, text: string, middle: seq<Message>) returns (content: string)
    ensures content == SummaryWriter(codec)(text, middle)
  {
    hide TrimSpace, CarriedState, PreservedBlock.FormatPreservedState;
    content := AppendPreservedState(codec, SUMMARY_LABEL + "\n" + TrimSpace(text), middle);
  }

  method Boundaries(ms: seq<Message>, preserveLast: int) returns (systemEnd: nat, boundary: nat)
    ensures systemEnd == SystemEnd(ms) && boundary == CutAt(ms, preserveLast)
  {
    var keep := if preserveLast <= 0 then DEFAULT_PRESERVE_LAST else preserveLast;
    systemEnd := LeadingSystem(ms);
    var naive := |ms| - keep;
    if naive < systemEnd {
      naive := systemEnd;
    }
    boundary := SafeSuffixBoundary(ms, systemEnd, naive);
  }

  method CompactMessages(write: Writer, ms: seq<Message>, preserveLast: int, summarize: Option<Summarizer>)
    returns (outcome: CompactionOutcome)
    ensures summarize.None? ==> outcome.CompactionFailed?
    ensures summarize.Some? ==> outcome == CompactSpec(write, ms, preserveLast, summarize.value)
  {
    if summarize.None? {
      return CompactionFailed("no summarizer");
    }
    var systemEnd, boundary := Boundaries(ms, preserveLast);
    var middle := ms[systemEnd..boundary];
    if |middle| == 0 {
      return Done(CompactionResult(ms, 0, |ms|, "", false));
    }
    var summary := summarize.value(middle);
    if summary.Failed? {
      return CompactionFailed(summary.error);
    }
    var compacted := ms[..systemEnd] + [Note(write(summary.text, middle))] + ms[boundary..];
    outcome := Done(CompactionResult(compacted, |middle|, |ms| - |middle|, TrimSpace(summary.text), true));
  }

  // ---------------------------------------------------------------------------------------------
  // What compaction yields
  // ---------------------------------------------------------------------------------------------

  /** There is something to summarise exactly when some assistant message lies behind the system
      head's successor and outside the messages to keep. */
  lemma CompactsIff(ms: seq<Message>, preserveLast: int)
    ensures Middle(ms, preserveLast) != []
            <==> exists i :: SystemEnd(ms) < i <= |ms| - Keep(preserveLast) && i < |ms| && ms[i].role == Assistant
  {
    var b := CutAt(ms, preserveLast);
    if Middle(ms, preserveLast) != [] {
      assert SystemEnd(ms) < b && ms[b].role == Assistant;
    }
  }

  /** The unchanged system head, one message, and an unchanged suffix that starts with an assistant
      message, is no shorter than asked, and starts no earlier than it must. */
  ghost predicate CompactShape(ms: seq<Message>, keep: int, removed: nat, out: seq<Message>) {
    var s := SystemEnd(ms);
    && 0 < keep && 0 < removed && s + removed < |ms| && |out| == |ms| - removed + 1 && s < |out|
    && out[..s] == ms[..s]
    && out[s + 1..] == ms[s + removed..]
    && ms[s + removed].role == Assistant
    && |ms| - (s + removed) >= keep
    && forall i | s + removed < i <= |ms| - keep :: ms[i].role != Assistant
  }

  lemma SplicedShape(ms: seq<Message>, preserveLast: int, note: Message)
    requires Middle(ms, preserveLast) != []
    ensures CompactShape(ms, Keep(preserveLast), |Middle(ms, preserveLast)|, Spliced(ms, preserveLast, note))
    ensures Spliced(ms, preserveLast, note)[SystemEnd(ms)] == note
  {
    var s, b := SystemEnd(ms), CutAt(ms, preserveLast);
    CompactedParts(ms[..s], note, ms[b..]);
  }

  lemma CompactedParts(head: seq<Message>, m: Message, tail: seq<Message>)
    ensures var r := head + [m] + tail;
            r[..|head|] == head && r[|head|] == m && r[|head| + 1..] == tail && |r| == |head| + 1 + |tail|
  {
  }

  /** A successful compaction either changes nothing or has that shape, and every original message is
      either removed or preserved. */
  lemma CompactionShape(write: Writer, ms: seq<Message>, preserveLast: int, summarize: Summarizer)
    ensures var o := CompactSpec(write, ms, preserveLast, summarize);
            o.Done? ==>
              var r := o.result;
              && r.removed + r.preserved == |ms|
              && (if r.compacted then CompactShape(ms, Keep(preserveLast), r.removed, r.messages)
                  else r.messages == ms && r.removed == 0)
  {
    var middle := Middle(ms, preserveLast);
    if middle != [] && summarize(middle).Summary? {
      SplicedShape(ms, preserveLast, Note(write(summarize(middle).text, middle)));
    }
  }

  /** What stands in place of the middle is recognised as a summary by the next compaction. */
  lemma ContentIsSummary(codec: Codec, text: string, middle: seq<Message>)
    ensures IsSummary(Note(SummaryWriter(codec)(text, middle)))
  {
    StartsWithLabel(text, PreservedBlock.FormatPreservedState(codec, CarriedState(codec, middle)));
    SummaryIsInert(codec, WithPreservedState(codec, SummaryText(text), middle));
  }

  /** Compaction asks for a summary of exactly the middle, fails exactly if that fails, and otherwise puts one message
      in its place that holds what the summarizer said. */
  lemma SummaryIsInjected(codec: Codec, ms: seq<Message>, preserveLast: int, summarize: Summarizer)
    ensures var middle, o := Middle(ms, preserveLast), CompactSpec(SummaryWriter(codec), ms, preserveLast, summarize);
            if middle == [] then o.Done? && o.result.messages == ms && !o.result.compacted
            else
              match summarize(middle)
              case Failed(e) => o == CompactionFailed(e)
              case Summary(text) =>
                && o.Done? && o.result.compacted && o.result.removed == |middle|
                && o.result.summaryText == TrimSpace(text)
                && |o.result.messages| == |ms| - |middle| + 1 && SystemEnd(ms) < |o.result.messages|
                && var m := o.result.messages[SystemEnd(ms)];
                   && m.role == User && SUMMARY_LABEL + "\n" + TrimSpace(text) <= m.content
                   && (CarriedState(codec, middle) == EMPTY_STATE ==> m.content == SUMMARY_LABEL + "\n" + TrimSpace(text))
                   && (!PreservedBlock.Occurs(PRESERVED_LABEL, SummaryText(text))
                       && !PreservedBlock.Occurs(PRESERVED_LABEL, codec.encode(CarriedState(codec, middle)))
                       ==> SummaryIn(m.content) == o.result.summaryText)
  {
    hide TrimSpace, CarriedState, SummaryText, SummaryWriter, SummaryIn, WithPreservedState, PreservedBlock.Occurs;
    var middle := Middle(ms, preserveLast);
    if middle != [] && summarize(middle).Summary? {
      var text := summarize(middle).text;
      WriterIs(codec, text, middle);
      SummaryIsThere(codec, text, middle);
      SplicedShape(ms, preserveLast, Note(SummaryWriter(codec)(text, middle)));
      if !PreservedBlock.Occurs(PRESERVED_LABEL, SummaryText(text))
         && !PreservedBlock.Occurs(PRESERVED_LABEL, codec.encode(CarriedState(codec, middle))) {
        SummaryReadsBack(codec, text, middle);
      }
    }
  }

  lemma WriterIs(codec: Codec, text: string, middle: seq<Message>)
    ensures SummaryWriter(codec)(text, middle) == WithPreservedState(codec, SummaryText(text), middle)
  {
  }

  lemma HeadNotTool(ms: seq<Message>)
    requires Paired(ms) && SystemEnd(ms) < |ms|
    ensures ms[SystemEnd(ms)].role != Tool
  {
    var s := SystemEnd(ms);
    PairedImpliesByPosition(ms);
    assert ms[s].role == Tool ==> ResultOwned(ms, s);
  }

  /** Compaction keeps every tool result with its call. */
  lemma CompactionKeepsPairing(ms: seq<Message>, preserveLast: int, note: Message)
    requires Paired(ms) && Middle(ms, preserveLast) != []
    requires note.role == User && note.calls == []
    ensures Paired(Spliced(ms, preserveLast, note))
    ensures Paired(Middle(ms, preserveLast))
  {
    var s, b := SystemEnd(ms), CutAt(ms, preserveLast);
    HeadNotTool(ms);
    PairedSplit(ms, b);
    PairedSplit(ms[..b], s);
    assert ms[..b][..s] == ms[..s] && ms[..b][s..] == ms[s..b];
    PairedNote(ms[..s], note);
    PairedConcat(ms[..s] + [note], ms[b..]);
  }

  /** Whatever a conversation grows by after a compaction, the next compaction removes that summary
      first, so summaries never pile up. */
  lemma SummaryIsSwallowed(ms: seq<Message>, preserveLast: int, note: Message, later: seq<Message>, keep: int)
    requires Middle(ms, preserveLast) != [] && note.role == User
    requires Middle(Spliced(ms, preserveLast, note) + later, keep) != []
    ensures SystemEnd(Spliced(ms, preserveLast, note) + later) == SystemEnd(ms)
    ensures Middle(Spliced(ms, preserveLast, note) + later, keep)[0] == note
  {
    var s := SystemEnd(ms);
    var c := Spliced(ms, preserveLast, note) + later;
    SplicedShape(ms, preserveLast, note);
    assert forall i | 0 <= i < s :: c[i] == ms[..s][i];
    SystemEndIs(c, s);
  }

  lemma SystemEndIs(ms: seq<Message>, n: nat)
    requires n < |ms| && ms[n].role != System && forall i | 0 <= i < n :: ms[i].role == System
    ensures SystemEnd(ms) == n
  {
  }
}
