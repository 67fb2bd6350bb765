/** Summaries, one after another: each compaction swallows the previous summary together with the
    next stretch of transcript. */
module Rounds {
  import opened Text
  import opened Transcript
  import opened Preserve
  import opened Extraction
  import opened Carry
  import opened PreservedBlock

  predicate IsSummary(m: Message) {
    m.role == User && SUMMARY_LABEL <= TrimSpace(m.content)
  }

  function LatestSummary(ms: seq<Message>): string {
    if ms == [] then ""
    else if IsSummary(ms[|ms| - 1]) then ms[|ms| - 1].content
    else LatestSummary(ms[..|ms| - 1])
  }

  /** The latest message that is a summary, if there is one. */
  lemma {:induction false} LatestIsLast(ms: seq<Message>) returns (k: nat)
    ensures if forall i | 0 <= i < |ms| :: !IsSummary(ms[i]) then LatestSummary(ms) == ""
            else k < |ms| && IsSummary(ms[k]) && LatestSummary(ms) == ms[k].content && forall i | k < i < |ms| :: !IsSummary(ms[i])
  {
    hide IsSummary;
    k := 0;
    if ms != [] {
      var n := |ms| - 1;
      k := n;
      if !IsSummary(ms[n]) {
        k := LatestIsLast(ms[..n]);
        assert forall i | 0 <= i < n :: ms[..n][i] == ms[i];
      }
    }
  }

  method LatestSummaryContent(ms: seq<Message>) returns (content: string)
    ensures content == LatestSummary(ms)
  {
    var i := |ms|;
    TakeAll(ms);
    while i > 0
      invariant 0 <= i <= |ms|
      invariant LatestSummary(ms) == LatestSummary(ms[..i])
    {
      assert ms[..i][..i - 1] == ms[..i - 1];
      i := i - 1;
      if IsSummary(ms[i]) {
        return ms[i].content;
      }
    }
    content := "";
  }

  /** Entries whose name was lost in transit are dropped when read back. */
  function Named(es: seq<Entry>): seq<Entry> {
    if es == [] then [] else (if es[0].name == "" then [] else [es[0]]) + Named(es[1..])
  }

  ghost predicate AllNamed(es: seq<Entry>) {
    forall i | 0 <= i < |es| :: es[i].name != ""
  }

  lemma {:induction false} NamedKeepsAll(es: seq<Entry>)
    requires AllNamed(es)
    ensures Named(es) == es
  {
    if es != [] {
      NamedKeepsAll(es[1..]);
    }
  }

  /** Exactly the entries without a name are dropped, ... */
  lemma {:induction false} NamedMembers(es: seq<Entry>, e: Entry)
    ensures e in Named(es) <==> e in es && e.name != ""
  {
    if es != [] {
      NamedMembers(es[1..], e);
      assert es == [es[0]] + es[1..];
    }
  }

  /** ... and the order is kept. */
  lemma {:induction false} NamedConcat(a: seq<Entry>, b: seq<Entry>)
    ensures Named(a + b) == Named(a) + Named(b)
  {
    if a == [] {
      assert a + b == b;
    } else {
      var head := if a[0].name == "" then [] else [a[0]];
      assert (a + b)[1..] == a[1..] + b;
      NamedConcat(a[1..], b);
      assert head + (Named(a[1..]) + Named(b)) == (head + Named(a[1..])) + Named(b);
    }
  }

  function ReadBack(state: PreservedState): PreservedState {
    PreservedState(state.plan, Named(state.edits), Named(state.tools), Named(state.skills), Named(state.instructions))
  }

  /** The state a summary of `middle` carries: what `middle`'s own latest summary carried, with the
      fresh calls and results of `middle` laid over it. */
  function CarriedState(codec: Codec, middle: seq<Message>): PreservedState {
    Combine(ReadBack(ParsePreservedStateBlock(codec, LatestSummary(middle))), Extract(codec, middle))
  }

  function WithPreservedState(codec: Codec, summary: string, middle: seq<Message>): string {
    var block := FormatPreservedState(codec, CarriedState(codec, middle));
    if block != "" then summary + ("\n\n" + block) else summary
  }

  method AppendPreservedState(codec: Codec, summary: string, middle: seq<Message>) returns (content: string)
    ensures content == WithPreservedState(codec, summary, middle)
  {
    var latest := LatestSummaryContent(middle);
    var prior := ParsePreservedStateBlock(codec, latest);
    var plan := ExtractLatestPlan(codec, middle);
    if plan == "" {
      plan := prior.plan;
    }
    var recent := RecentEdits(codec, middle);
    var edits := MergeRecentEdits(Named(prior.edits), recent);
    edits := CapRecentEdits(edits);
    var loadedTools := LoadedEntries(ToolSource(codec), middle);
    var tools := MergeSkillEntries(Named(prior.tools), loadedTools);
    var loadedSkills := LoadedEntries(SkillSource(codec), middle);
    var skills := MergeSkillEntries(Named(prior.skills), loadedSkills);
    var found := ProjectInstructionEntries(codec, middle);
    var instructions := MergeSkillEntries(Named(prior.instructions), found);
    var block := FormatPreservedState(codec, PreservedState(plan, edits, tools, skills, instructions));
    content := summary;
    if block != "" {
      content := content + ("\n\n" + block);
    }
  }

  // ---- every extracted entry has a name ----

  /** Tool schemas and instruction blocks are only read out under a nonempty heading. */
  ghost predicate NamesThings(codec: Codec) {
    && (forall s :: AllNamed(codec.toolEntries(s)))
    && (forall s :: codec.instructionBlock(s).body != "" ==> codec.instructionBlock(s).name != "")
  }

  lemma {:induction false} EventsNamed(src: Source, ms: seq<Message>, byID: map<string, string>)
    requires forall m: Message :: AllNamed(ResultEvents(src, m, byID))
    ensures AllNamed(EventsWith(src, ms, byID))
  {
    if ms != [] {
      EventsNamed(src, ms[..|ms| - 1], byID);
    }
  }

  lemma {:induction false} InstructionsNamed(codec: Codec, ms: seq<Message>)
    requires NamesThings(codec)
    ensures AllNamed(InstructionEvents(codec, ms))
  {
    if ms != [] {
      InstructionsNamed(codec, ms[..|ms| - 1]);
    }
  }

  lemma LatestNamed(es: seq<Entry>)
    requires AllNamed(es)
    ensures AllNamed(Latest(es))
  {
    FirstSeenMembers(NamesOf(es));
    forall i | 0 <= i < |Latest(es)| ensures Latest(es)[i].name != "" {
      assert Latest(es)[i].name in NamesOf(es);
    }
  }

  lemma {:induction false} EditPathsNamed(codec: Codec, calls: seq<ToolCall>)
    ensures forall i | 0 <= i < |EditPaths(codec, calls)| :: EditPaths(codec, calls)[i] != ""
  {
    if calls != [] {
      EditPathsNamed(codec, calls[..|calls| - 1]);
    }
  }

  lemma RecentEditsNamed(codec: Codec, ms: seq<Message>)
    ensures AllNamed(RecentEditsSpec(codec, ms))
  {
    var paths := EditPaths(codec, CallsOf(ms));
    EditPathsNamed(codec, CallsOf(ms));
    LastSeenMembers(paths);
    var order := CapRecentEdits(LastSeen(paths));
    forall i | 0 <= i < |order| ensures order[i] != "" {
      assert order[i] in LastSeen(paths);
    }
  }

  lemma ExtractNamed(codec: Codec, ms: seq<Message>)
    requires NamesThings(codec)
    ensures ReadBack(Extract(codec, ms)) == Extract(codec, ms)
  {
    var calls := CallsOf(ms);
    RecentEditsNamed(codec, ms);
    EventsNamed(ToolSource(codec), ms, ByID(ToolSource(codec), calls));
    EventsNamed(SkillSource(codec), ms, ByID(SkillSource(codec), calls));
    InstructionsNamed(codec, ms);
    LatestNamed(EventsOf(ToolSource(codec), ms));
    LatestNamed(EventsOf(SkillSource(codec), ms));
    LatestNamed(InstructionEvents(codec, ms));
    var s := Extract(codec, ms);
    NamedKeepsAll(s.edits);
    NamedKeepsAll(s.tools);
    NamedKeepsAll(s.skills);
    NamedKeepsAll(s.instructions);
  }

  // ---- one round ----

  function SummaryText(text: string): string {
    SUMMARY_LABEL + "\n" + TrimSpace(text)
  }

  lemma SummaryLabelEnds()
    ensures SUMMARY_LABEL != "" && SUMMARY_LABEL[0] == '[' && SUMMARY_LABEL[|SUMMARY_LABEL| - 1] == ']'
  {
  }

  /** A summary message is recognised as one, calls nothing and instructs nothing. */
  lemma SummaryIsInert(codec: Codec, c: string)
    requires SUMMARY_LABEL <= c
    ensures IsSummary(Note(c)) && InstructionOf(codec, Note(c)) == []
  {
    SummaryLabelEnds();
    assert c[0] == SUMMARY_LABEL[0];
    TrimKeepsPrefix(SUMMARY_LABEL, c);
    TrimKeepsFirst(c);
    assert TrimSpace(c)[0] == '[';
  }

  /** The label line, the trimmed summary, and nothing or the block behind a blank line. */
  lemma SummaryIsThere(codec: Codec, text: string, middle: seq<Message>)
    ensures var content, state := WithPreservedState(codec, SummaryText(text), middle), CarriedState(codec, middle);
            content == SUMMARY_LABEL + "\n" + TrimSpace(text)
                       + if state == EMPTY_STATE then "" else "\n\n" + PRESERVED_LABEL + "\n" + codec.encode(state)
  {
    hide TrimSpace, CarriedState;
    var state := CarriedState(codec, middle);
    if state != EMPTY_STATE {
      BlockGrouped(SummaryText(text), PRESERVED_LABEL, codec.encode(state));
    }
  }

  lemma BlockGrouped(a: string, tag: string, body: string)
    ensures a + ("\n\n" + (tag + "\n" + body)) == a + ("\n\n" + tag + "\n" + body)
    ensures a + ("\n\n" + (tag + "\n" + body)) == Labelled(a + "\n\n", tag, body)
    ensures a + "" == a
  {
  }

  /** The summary a message holds: what is behind the label line and in front of the block. */
  function SummaryIn(content: string): string {
    var at := LastIndex(content, PRESERVED_LABEL);
    var end := if at < 0 then |content| else at - 2;
    if |SUMMARY_LABEL| + 1 <= end then content[|SUMMARY_LABEL| + 1..end] else ""
  }

  /** Stripping the label line and the block gives the summary back, if neither it nor the state quotes the label. */
  lemma SummaryReadsBack(codec: Codec, text: string, middle: seq<Message>)
    requires !Occurs(PRESERVED_LABEL, SummaryText(text))
    requires !Occurs(PRESERVED_LABEL, codec.encode(CarriedState(codec, middle)))
    ensures SummaryIn(WithPreservedState(codec, SummaryText(text), middle)) == TrimSpace(text)
  {
    hide TrimSpace, CarriedState, LastIndex, Occurs;
    var state := CarriedState(codec, middle);
    if state == EMPTY_STATE {
      NoLabelFound(SummaryText(text));
    } else {
      LabelShape();
      BlockGrouped(SummaryText(text), PRESERVED_LABEL, codec.encode(state));
      LastLabel(SummaryText(text) + "\n\n", PRESERVED_LABEL, codec.encode(state));
      InFrontOfBlock(SUMMARY_LABEL, TrimSpace(text), PRESERVED_LABEL, codec.encode(state));
    }
  }

  lemma NoLabelFound(s: string)
    requires !Occurs(PRESERVED_LABEL, s)
    ensures LastIndex(s, PRESERVED_LABEL) < 0
  {
  }

  lemma InFrontOfBlock(heading: string, text: string, tag: string, body: string)
    ensures var content := Labelled(heading + "\n" + text + "\n\n", tag, body);
            content[|heading| + 1..|heading| + 1 + |text|] == text && |heading + "\n" + text + "\n\n"| - 2 == |heading| + 1 + |text| <= |content|
  {
  }

  lemma {:induction false} LatestSummaryOf(front: seq<Message>, b: seq<Message>)
    requires forall i | 0 <= i < |b| :: !IsSummary(b[i])
    ensures LatestSummary(front + b) == LatestSummary(front)
  {
    if b == [] {
      assert front + b == front;
    } else {
      assert (front + b)[..|front + b| - 1] == front + b[..|b| - 1];
      LatestSummaryOf(front, b[..|b| - 1]);
    }
  }

  lemma ExtractBehindSummary(codec: Codec, c: string, b: seq<Message>)
    requires SUMMARY_LABEL <= c
    ensures Extract(codec, [Note(c)] + b) == Extract(codec, b)
  {
    var s := [Note(c)];
    SummaryIsInert(codec, c);
    assert s[..0] == [];
    assert CallsOf(s) == CallsOf([]) + [] == [];
    CallsOfConcat(s, b);
    assert [] + CallsOf(b) == CallsOf(b);
    EventsBehindNote(EditSource(codec), c, b);
    EventsBehindNote(ToolSource(codec), c, b);
    EventsBehindNote(SkillSource(codec), c, b);
    InstructionsConcat(codec, s, b);
    assert InstructionEvents(codec, s) == InstructionEvents(codec, []) + [] == [];
    assert [] + InstructionEvents(codec, b) == InstructionEvents(codec, b);
  }

  lemma EventsBehindNote(src: Source, c: string, b: seq<Message>)
    requires CallsOf([Note(c)] + b) == CallsOf(b)
    ensures EventsOf(src, [Note(c)] + b) == EventsOf(src, b)
  {
    var byID, s := ByID(src, CallsOf(b)), [Note(c)];
    EventsWithConcat(src, s, b, byID);
    assert s[..0] == [];
    assert EventsWith(src, s, byID) == EventsWith(src, [], byID) + [] == [];
    assert [] + EventsWith(src, b, byID) == EventsWith(src, b, byID);
  }

  /** What a run needs of one round for its state to survive into the next summary. */
  ghost predicate Survives(codec: Codec, state: PreservedState, text: string) {
    if state == EMPTY_STATE then !Occurs(PRESERVED_LABEL, SummaryText(text))
    else ValidState(state) && !Occurs(PRESERVED_LABEL, codec.encode(state))
  }

  lemma WrittenStateReadsBack(codec: Codec, text: string, middle: seq<Message>)
    requires JsonLike(codec) && Survives(codec, CarriedState(codec, middle), text)
    ensures ParsePreservedStateBlock(codec, WithPreservedState(codec, SummaryText(text), middle)) == CarriedState(codec, middle)
    ensures SUMMARY_LABEL <= WithPreservedState(codec, SummaryText(text), middle)
  {
    var state := CarriedState(codec, middle);
    if state == EMPTY_STATE {
      assert LastIndex(SummaryText(text), PRESERVED_LABEL) < 0;
    } else {
      BlockRoundTrip(codec, SummaryText(text) + "\n\n", state);
      BehindBlankLine(SummaryText(text), FormatPreservedState(codec, state));
    }
    StartsWithLabel(text, FormatPreservedState(codec, state));
  }

  lemma BehindBlankLine(summary: string, block: string)
    ensures summary + ("\n\n" + block) == (summary + "\n\n") + block
  {
  }

  lemma StartsWithLabel(text: string, block: string)
    ensures SUMMARY_LABEL <= SummaryText(text) <= SummaryText(text) + ("\n\n" + block)
  {
  }

  ghost predicate NoSummaries(ms: seq<Message>) {
    forall i | 0 <= i < |ms| :: !IsSummary(ms[i])
  }

  lemma FirstRoundState(codec: Codec, b: seq<Message>)
    requires NoSummaries(b)
    ensures CarriedState(codec, b) == Combine(EMPTY_STATE, Extract(codec, b))
  {
    assert [] + b == b;
    LatestSummaryOf([], b);
    assert LastIndex("", PRESERVED_LABEL) < 0 by {
      assert !(PRESERVED_LABEL <= ""[0..]);
    }
  }

  lemma LaterRoundState(codec: Codec, c: string, b: seq<Message>)
    requires NoSummaries(b) && SUMMARY_LABEL <= c
    ensures CarriedState(codec, [Note(c)] + b)
            == Combine(ReadBack(ParsePreservedStateBlock(codec, c)), Extract(codec, b))
  {
    SummaryIsInert(codec, c);
    LatestSummaryOf([Note(c)], b);
    assert [Note(c)][..0] == [];
    ExtractBehindSummary(codec, c, b);
  }

  lemma ExtractNothing(codec: Codec)
    ensures Extract(codec, []) == EMPTY_STATE
  {
  }

  // ---- any number of rounds ----

  function Flatten(segments: seq<seq<Message>>): seq<Message> {
    if segments == [] then [] else Flatten(segments[..|segments| - 1]) + segments[|segments| - 1]
  }

  /** The summary content after compacting one stretch after another, each compaction swallowing the
      previous summary together with the next stretch. */
  function SummaryAfter(codec: Codec, segments: seq<seq<Message>>, texts: seq<string>): string
    requires |texts| == |segments|
  {
    if segments == [] then ""
    else
      var n := |segments| - 1;
      var middle := (if n == 0 then [] else [Note(SummaryAfter(codec, segments[..n], texts[..n]))]) + segments[n];
      WithPreservedState(codec, SummaryText(texts[n]), middle)
  }

  /** Stretches as a run produces them: paired, no id of an edit, skill or tool search reused, and no other
      message that starts like a summary; and each state on the way can be written. */
  ghost predicate GoodRounds(codec: Codec, segments: seq<seq<Message>>, texts: seq<string>)
    requires |texts| == |segments|
  {
    segments == [] ||
    var n := |segments| - 1;
    && GoodRounds(codec, segments[..n], texts[..n])
    && GoodRound(codec, Flatten(segments[..n]), segments[n], texts[n])
  }

  ghost predicate GoodRound(codec: Codec, before: seq<Message>, b: seq<Message>, text: string) {
    && Paired(b) && NoSummaries(b)
    && NoReuse(codec, CallsOf(before), CallsOf(b)) && EditsFiled(codec, CallsOf(b))
    && Survives(codec, Extract(codec, before + b), text)
  }

  lemma {:induction false} FlattenPaired(codec: Codec, segments: seq<seq<Message>>, texts: seq<string>)
    requires |texts| == |segments| && GoodRounds(codec, segments, texts)
    ensures Paired(Flatten(segments))
    decreases |segments|
  {
    if segments != [] {
      var n := |segments| - 1;
      FlattenPaired(codec, segments[..n], texts[..n]);
      PairedConcat(Flatten(segments[..n]), segments[n]);
    }
  }

  /** Paired stretches that reuse no id of the state's calls combine exactly. */
  lemma RoundFits(codec: Codec, before: seq<Message>, b: seq<Message>)
    requires Paired(before) && Paired(b) && NoReuse(codec, CallsOf(before), CallsOf(b)) && EditsFiled(codec, CallsOf(b))
    ensures Combine(Extract(codec, before), Extract(codec, b)) == Extract(codec, before + b)
  {
    SeparateIff(codec, before, b);
    EditsAnsweredIff(codec, b);
    CombineExtracts(codec, before, b);
  }

  lemma FirstRound(codec: Codec, b: seq<Message>, text: string)
    requires JsonLike(codec) && GoodRound(codec, [], b, text)
    ensures var c := WithPreservedState(codec, SummaryText(text), b);
            ParsePreservedStateBlock(codec, c) == Extract(codec, b) && SUMMARY_LABEL <= c
  {
    assert [] + b == b;
    RoundFits(codec, [], b);
    FirstRoundState(codec, b);
    ExtractNothing(codec);
    WrittenStateReadsBack(codec, text, b);
  }

  lemma LaterRound(codec: Codec, before: seq<Message>, c: string, b: seq<Message>, text: string)
    requires JsonLike(codec) && NamesThings(codec) && Paired(before) && GoodRound(codec, before, b, text)
    requires ParsePreservedStateBlock(codec, c) == Extract(codec, before) && SUMMARY_LABEL <= c
    ensures var c' := WithPreservedState(codec, SummaryText(text), [Note(c)] + b);
            ParsePreservedStateBlock(codec, c') == Extract(codec, before + b) && SUMMARY_LABEL <= c'
  {
    RoundFits(codec, before, b);
    ExtractNamed(codec, before);
    LaterRoundState(codec, c, b);
    WrittenStateReadsBack(codec, text, [Note(c)] + b);
  }

  /** After any number of compactions the summary carries exactly the state that one extraction over
      everything elided so far would give. */
  lemma {:induction false} CarriedStateIsExact(codec: Codec, segments: seq<seq<Message>>, texts: seq<string>)
    requires |texts| == |segments| > 0
    requires JsonLike(codec) && NamesThings(codec) && GoodRounds(codec, segments, texts)
    ensures ParsePreservedStateBlock(codec, SummaryAfter(codec, segments, texts)) == Extract(codec, Flatten(segments))
    ensures SUMMARY_LABEL <= SummaryAfter(codec, segments, texts)
    decreases |segments|
  {
    var n := |segments| - 1;
    var before, b := Flatten(segments[..n]), segments[n];
    if n == 0 {
      assert [] + b == b;
      FirstRound(codec, b, texts[0]);
    } else {
      FlattenPaired(codec, segments[..n], texts[..n]);
      CarriedStateIsExact(codec, segments[..n], texts[..n]);
      LaterRound(codec, before, SummaryAfter(codec, segments[..n], texts[..n]), b, texts[n]);
    }
  }
}
