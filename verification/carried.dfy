/** The note that stands in for the elided conversation carries exactly what one extraction over all of it
    would give: through any number of prunings and compactions, as long as none of them replaced a decisive
    result, reused the id of one, or met a state that cannot be written. */
module Carried {
  import opened Text
  import opened Transcript
  import opened Preserve
  import opened Extraction
  import opened Carry
  import opened PreservedBlock
  import opened Rounds
  import opened Prune
  import opened Compaction
  import opened Compactor
  import opened Views
  import opened Intact

  /** The transcript shows the conversation from `cut` on, and its note carries the extraction of all
      that was said before. */
  ghost predicate CarriesFrom(codec: Codec, history: seq<Message>, cut: nat, ms: seq<Message>) {
    && ShowsFrom(history, cut, ms)
    && Replaced(history[cut..], ms[2..])
    && ms[1] == Note(ms[1].content) && SUMMARY_LABEL <= ms[1].content
    && ParsePreservedStateBlock(codec, ms[1].content) == Extract(codec, history[1..cut])
  }

  ghost predicate CarriesState(codec: Codec, history: seq<Message>, ms: seq<Message>) {
    Replaced(history, ms) || exists cut: nat :: CarriesFrom(codec, history, cut, ms)
  }

  // ---------------------------------------------------------------------------------------------
  // Growing and pruning
  // ---------------------------------------------------------------------------------------------

  lemma ReplacedAppend(a: seq<Message>, b: seq<Message>, more: seq<Message>)
    requires Replaced(a, b)
    ensures Replaced(a + more, b + more)
  {
    hide Blank;
    ShapeAppend(a, b, more);
  }

  lemma ReplacedTwice(a: seq<Message>, b: seq<Message>, c: seq<Message>)
    requires Replaced(a, b) && Replaced(b, c)
    ensures Replaced(a, c)
  {
    hide Blank;
    ShapeTransitive(a, b, c);
    forall i | 0 <= i < |a| && a[i] != c[i] ensures !Blank(a[i]) && !Blank(c[i]) {
      assert a[i] != b[i] || b[i] != c[i];
    }
  }

  lemma StartsWhole(codec: Codec, ms: seq<Message>)
    ensures CarriesState(codec, ms, ms)
  {
    ShapeReflexive(ms);
  }

  /** Conversation and transcript grow alike. */
  lemma StateGrows(codec: Codec, history: seq<Message>, ms: seq<Message>, more: seq<Message>)
    requires CarriesState(codec, history, ms)
    ensures CarriesState(codec, history + more, ms + more)
  {
    hide Extract, Replaced;
    if Replaced(history, ms) {
      ReplacedAppend(history, ms, more);
    } else {
      var cut: nat :| CarriesFrom(codec, history, cut, ms);
      ReplacedAppend(history[cut..], ms[2..], more);
      ReplacedLength(history[cut..] + more, ms[2..] + more);
      assert (history + more)[cut..] == history[cut..] + more && (ms + more)[2..] == ms[2..] + more;
      assert (history + more)[1..cut] == history[1..cut];
      assert CarriesFrom(codec, history + more, cut, ms + more);
    }
  }

  lemma CarriesFromReplaced(codec: Codec, history: seq<Message>, at: nat, ms: seq<Message>, out: seq<Message>)
    requires Seeded(history) && CarriesFrom(codec, history, at, ms) && Replaced(ms, out)
    ensures CarriesFrom(codec, history, at, out)
  {
    hide Extract, Replaced, ParsePreservedStateBlock;
    ReplacedLength(ms, out);
    ReplacedPart(ms, out, 2, |ms|);
    assert ms[2..|ms|] == ms[2..] && out[2..|ms|] == out[2..];
    ReplacedTwice(history[at..], ms[2..], out[2..]);
    ReplacedLength(history[at..], out[2..]);
    assert SameButBody(ms[0], out[0]) && SameButBody(ms[1], out[1]);
  }

  /** Replacing bodies leaves the note alone. */
  lemma StatePruned(codec: Codec, history: seq<Message>, ms: seq<Message>, out: seq<Message>)
    requires Seeded(history) && CarriesState(codec, history, ms) && Replaced(ms, out)
    ensures CarriesState(codec, history, out)
  {
    hide Extract, Replaced;
    if Replaced(history, ms) {
      ReplacedTwice(history, ms, out);
    } else {
      var cut: nat :| CarriesFrom(codec, history, cut, ms);
      CarriesFromReplaced(codec, history, cut, ms, out);
    }
  }

  // ---------------------------------------------------------------------------------------------
  // Compacting
  // ---------------------------------------------------------------------------------------------

  ghost predicate WritableState(codec: Codec, state: PreservedState) {
    state != EMPTY_STATE ==> ValidState(state) && !Occurs(PRESERVED_LABEL, codec.encode(state))
  }

  /** What the conversation's stretch asks of a compaction that elides it: the ids of its edits, skills and
      tool searches are its own, its edits keep theirs, and the state of everything so far can be written. */
  ghost predicate StretchFits(codec: Codec, history: seq<Message>, from: nat, to: nat)
    requires 1 <= from <= to <= |history|
  {
    && NoReuse(codec, CallsOf(history[1..from]), CallsOf(history[from..to]))
    && EditsFiled(codec, CallsOf(history[from..to]))
    && WritableState(codec, Extract(codec, history[1..to]))
  }

  /** The stretch about to be elided, as a round of the conversation. */
  lemma StretchIsGoodRound(codec: Codec, history: seq<Message>, from: nat, to: nat, b: seq<Message>, text: string)
    requires 1 <= from <= to <= |history| && NoSummaries(history) && StretchFits(codec, history, from, to)
    requires Replaced(history[from..to], b) && |b| == to - from && KeepsDecisive(codec, history[from..to], b)
    requires Paired(history[1..from]) && Paired(b) && !Occurs(PRESERVED_LABEL, SummaryText(text))
    ensures GoodRound(codec, history[1..from], b, text)
    ensures Extract(codec, history[1..from] + b) == Extract(codec, history[1..to])
  {
    hide Extract, ValidState, Paired, Replaced, CallsOf, NoReuse, EditsFiled, KeepsDecisive, Occurs, NoSummaries;
    var seg, before := history[from..to], history[1..from];
    ReplacedLength(seg, b);
    SameCallsAndInstructions(codec, seg, b);
    ShapeSymmetric(seg, b);
    PairedSameShape(b, seg);
    ExtractKept(codec, seg, b);
    StillNoSummaries(history, from, to, b);
    Halves(history, from, to);
    RoundFits(codec, before, b);
    RoundFits(codec, before, seg);
    assert WritableState(codec, Extract(codec, history[1..to]));
  }

  lemma ShapeSymmetric(a: seq<Message>, b: seq<Message>)
    requires SameShape(a, b)
    ensures SameShape(b, a)
  {
    forall i | 0 <= i < |a| ensures SameButBody(b[i], a[i]) {
      assert SameButBody(a[i], b[i]);
    }
  }

  lemma StillNoSummaries(history: seq<Message>, from: nat, to: nat, b: seq<Message>)
    requires NoSummaries(history) && 1 <= from <= to <= |history| && SameShape(history[from..to], b)
    ensures NoSummaries(b)
  {
    forall i | 0 <= i < |b| ensures !IsSummary(b[i]) {
      assert SameButBody(history[from..to][i], b[i]) && history[from..to][i] == history[from + i];
    }
  }

  lemma Halves(history: seq<Message>, from: nat, to: nat)
    requires 1 <= from <= to <= |history|
    ensures history[1..from] + history[from..to] == history[1..to]
  {
  }

  lemma PairedBehindSystem(history: seq<Message>, cut: nat)
    requires Seeded(history) && 2 <= cut <= |history| && (cut < |history| ==> history[cut].role == Assistant)
    ensures Paired(history[1..cut])
  {
    PairedSplit(history, cut);
    PairedSplit(history[..cut], 1);
    assert history[..cut][1..] == history[1..cut];
  }

  lemma CarriesFromParts(codec: Codec, history: seq<Message>, cut: nat, out: seq<Message>, c: string)
    requires 2 <= cut < |history| && |out| == 2 + |history| - cut && history[cut].role == Assistant
    requires out[0] == history[0] && out[1] == Note(c) && SUMMARY_LABEL <= c
    requires Replaced(history[cut..], out[2..])
    requires ParsePreservedStateBlock(codec, c) == Extract(codec, history[1..cut])
    ensures CarriesState(codec, history, out)
  {
    hide Replaced, Extract, ParsePreservedStateBlock;
    ReplacedLength(history[cut..], out[2..]);
    assert CarriesFrom(codec, history, cut, out);
  }

  lemma SplicedParts(ms: seq<Message>, keep: int, m: Message)
    requires Middle(ms, keep) != [] && SystemEnd(ms) == 1
    ensures var out, cut := Spliced(ms, keep, m), CutAt(ms, keep);
            |out| == 2 + |ms| - cut && out[0] == ms[0] && out[1] == m && out[2..] == ms[cut..]
  {
    hide CutAt;
    CompactedParts(ms[..1], m, ms[CutAt(ms, keep)..]);
  }

  lemma CutsAtAssistant(ms: seq<Message>, keep: int)
    requires Middle(ms, keep) != [] && SystemEnd(ms) == 1
    ensures 1 < CutAt(ms, keep) < |ms| && ms[CutAt(ms, keep)].role == Assistant && Middle(ms, keep) == ms[1..CutAt(ms, keep)]
  {
  }

  // ---- the first compaction ----

  lemma FirstNote(codec: Codec, history: seq<Message>, ms: seq<Message>, cut: nat, text: string)
    requires JsonLike(codec) && NoSummaries(history) && Replaced(history, ms)
    requires 1 <= cut <= |history| == |ms| && Paired(ms[1..cut]) && !Occurs(PRESERVED_LABEL, SummaryText(text))
    requires StretchFits(codec, history, 1, cut) && KeepsDecisive(codec, history[1..cut], ms[1..cut])
    ensures var c := WithPreservedState(codec, SummaryText(text), ms[1..cut]);
            SUMMARY_LABEL <= c && ParsePreservedStateBlock(codec, c) == Extract(codec, history[1..cut])
  {
    hide Extract, Replaced, Paired, GoodRound, ParsePreservedStateBlock, Occurs, JsonLike, NoSummaries, StretchFits;
    hide SummaryText, WithPreservedState, KeepsDecisive;
    var middle := ms[1..cut];
    ReplacedPart(history, ms, 1, cut);
    assert history[1..1] == [] && [] + middle == middle;
    PairedNothing();
    StretchIsGoodRound(codec, history, 1, cut, middle, text);
    FirstRound(codec, middle, text);
  }

  lemma FirstStateCompacted(codec: Codec, history: seq<Message>, ms: seq<Message>, keep: int, text: string)
    requires JsonLike(codec) && NoSummaries(history) && Seeded(history) && Replaced(history, ms)
    requires Paired(ms) && Middle(ms, keep) != [] && !Occurs(PRESERVED_LABEL, SummaryText(text))
    requires var cut := CutAt(ms, keep);
             1 <= cut <= |history| && |ms| == |history| && StretchFits(codec, history, 1, cut)
             && KeepsDecisive(codec, history[1..cut], ms[1..cut])
    ensures CarriesState(codec, history, Spliced(ms, keep, Note(WithPreservedState(codec, SummaryText(text), Middle(ms, keep)))))
  {
    hide Extract, Replaced, Paired, ParsePreservedStateBlock, Occurs, CarriesState, JsonLike, NoSummaries, StretchFits;
    hide Spliced, CutAt, Middle, WithPreservedState, SummaryText, Shows, Seeded, SystemEnd, KeepsDecisive;
    var cut := CutAt(ms, keep);
    var c := WithPreservedState(codec, SummaryText(text), Middle(ms, keep));
    WholeIsShown(history, ms);
    CutsAtAssistant(ms, keep);
    SharedRoles(history, ms, cut);
    CompactionKeepsPairing(ms, keep, Note(c));
    FirstNote(codec, history, ms, cut, text);
    ReplacedPart(history, ms, cut, |ms|);
    assert history[cut..|ms|] == history[cut..] && ms[cut..|ms|] == ms[cut..];
    SplicedParts(ms, keep, Note(c));
    CarriesFromParts(codec, history, cut, Spliced(ms, keep, Note(c)), c);
  }

  lemma PairedNothing()
    ensures Paired([])
  {
  }

  lemma WholeIsShown(history: seq<Message>, ms: seq<Message>)
    requires Seeded(history) && Replaced(history, ms)
    ensures |ms| == |history| >= 2 && Shows(history, ms) && SystemEnd(ms) == 1 && ms[1] == history[1]
  {
    OneSystem(history, ms);
    assert SameButBody(history[1], ms[1]);
  }

  lemma SharedRoles(history: seq<Message>, ms: seq<Message>, i: nat)
    requires Seeded(history) && Replaced(history, ms) && i < |ms|
    ensures |ms| == |history| && history[i].role == ms[i].role && history[0] == ms[0]
  {
    hide Paired;
    assert SameButBody(history[i], ms[i]) && SameButBody(history[0], ms[0]);
  }

  // ---- every later one ----

  /** What the next note carries. */
  lemma LaterNote(codec: Codec, history: seq<Message>, at: nat, ms: seq<Message>, cut: nat, text: string)
    requires JsonLike(codec) && NamesThings(codec) && NoSummaries(history) && Seeded(history) && CarriesFrom(codec, history, at, ms)
    requires 2 <= cut <= |ms| && Paired(ms[1..cut]) && !Occurs(PRESERVED_LABEL, SummaryText(text))
    requires at + cut - 2 <= |history| && StretchFits(codec, history, at, at + cut - 2)
    requires KeepsDecisive(codec, history[at..at + cut - 2], ms[2..cut])
    ensures var c := WithPreservedState(codec, SummaryText(text), ms[1..cut]);
            SUMMARY_LABEL <= c && ParsePreservedStateBlock(codec, c) == Extract(codec, history[1..at + cut - 2])
  {
    hide Extract, Replaced, Paired, GoodRound, WithPreservedState, ParsePreservedStateBlock, IsSummary, JsonLike, NamesThings;
    hide NoSummaries, StretchFits, KeepsDecisive, Occurs, SummaryText;
    var tail, b, later := ms[2..], ms[2..cut], at + cut - 2;
    ReplacedLength(history[at..], tail);
    assert ms[1..cut] == [ms[1]] + b;
    if b != [] {
      assert SameButBody(history[at..][0], tail[0]);
    }
    BehindNote(ms[1], b);
    ReplacedPart(history[at..], tail, 0, cut - 2);
    Shifted(history, at, 0, cut - 2);
    Shifted(ms, 2, 0, cut - 2);
    PairedBehindSystem(history, at);
    StretchIsGoodRound(codec, history, at, later, b, text);
    LaterRound(codec, history[1..at], ms[1].content, b, text);
  }

  lemma Shifted(ms: seq<Message>, at: nat, i: nat, j: nat)
    requires at <= |ms| && i <= j <= |ms| - at
    ensures ms[at..][i..j] == ms[at + i..at + j]
  {
  }

  lemma BehindNote(note: Message, b: seq<Message>)
    requires Paired([note] + b) && note.role == User && (b != [] ==> b[0].role != Tool)
    ensures Paired(b)
  {
    assert ([note] + b)[1..] == b;
  }

  /** What is shown behind the next note. */
  lemma LaterTail(codec: Codec, history: seq<Message>, at: nat, ms: seq<Message>, cut: nat)
    requires CarriesFrom(codec, history, at, ms) && 2 <= cut < |ms| && ms[cut].role == Assistant
    ensures at + cut - 2 < |history| && history[at + cut - 2].role == Assistant && history[0] == ms[0]
    ensures Replaced(history[at + cut - 2..], ms[cut..])
    ensures |ms| - cut == |history| - (at + cut - 2)
  {
    hide Replaced, Extract, ParsePreservedStateBlock;
    var tail := ms[2..];
    ReplacedLength(history[at..], tail);
    ReplacedPart(history[at..], tail, cut - 2, |tail|);
    Suffixes(history, at, cut - 2);
    Suffixes(ms, 2, cut - 2);
    assert SameButBody(history[at..][cut - 2], tail[cut - 2]);
  }

  lemma Suffixes(ms: seq<Message>, at: nat, i: nat)
    requires at + i <= |ms|
    ensures ms[at..][i..|ms[at..]|] == ms[at + i..]
    ensures at + i < |ms| ==> ms[at..][i] == ms[at + i]
  {
  }

  lemma LaterStateCompacted(codec: Codec, history: seq<Message>, at: nat, ms: seq<Message>, keep: int, text: string)
    requires JsonLike(codec) && NamesThings(codec) && NoSummaries(history) && Seeded(history) && CarriesFrom(codec, history, at, ms)
    requires Paired(ms) && Middle(ms, keep) != [] && !Occurs(PRESERVED_LABEL, SummaryText(text))
    requires var cut := CutAt(ms, keep);
             2 <= cut <= |ms| && at + cut - 2 <= |history| && StretchFits(codec, history, at, at + cut - 2)
             && KeepsDecisive(codec, history[at..at + cut - 2], ms[2..cut])
    ensures CarriesState(codec, history, Spliced(ms, keep, Note(WithPreservedState(codec, SummaryText(text), Middle(ms, keep)))))
  {
    hide Extract, Replaced, Paired, ParsePreservedStateBlock, Occurs, CarriesFrom, CarriesState, JsonLike, NamesThings, NoSummaries;
    hide StretchFits, KeepsDecisive, Spliced, CutAt, Middle, WithPreservedState, SummaryText, Shows, Seeded, SystemEnd;
    var cut := CutAt(ms, keep);
    var c := WithPreservedState(codec, SummaryText(text), Middle(ms, keep));
    ShownFrom(codec, history, at, ms);
    OneSystem(history, ms);
    CutsAtAssistant(ms, keep);
    CompactionKeepsPairing(ms, keep, Note(c));
    LaterNote(codec, history, at, ms, cut, text);
    LaterTail(codec, history, at, ms, cut);
    SplicedParts(ms, keep, Note(c));
    CarriesFromParts(codec, history, at + cut - 2, Spliced(ms, keep, Note(c)), c);
  }

  lemma ShownFrom(codec: Codec, history: seq<Message>, at: nat, ms: seq<Message>)
    requires CarriesFrom(codec, history, at, ms)
    ensures Shows(history, ms) && 2 <= at < |history| && |ms| == 2 + |history| - at && IsSummary(ms[1])
  {
    hide Replaced, Extract, ParsePreservedStateBlock;
    SummaryIsInert(codec, ms[1].content);
  }

  // ---------------------------------------------------------------------------------------------
  // The rewritings of a run
  // ---------------------------------------------------------------------------------------------

  /** One call of the compactor: the conversation behind it, the transcript as it was shown until then, and
      whether it came before sending or after the provider refused the request. */
  datatype Compacting = Compacting(
    conversation: seq<Message>, shown: seq<Message>, tuner: Tuner, toolTokens: nat, summarize: Summarizer,
    reactive: bool, limit: bool)

  function Result(codec: Codec, c: Compacting): seq<Message> {
    if c.reactive then RecoverSpec(c.tuner, SummaryWriter(codec), c.shown, c.toolTokens, c.limit, c.summarize).messages
    else MaybeCompactSpec(c.tuner, SummaryWriter(codec), c.shown, c.toolTokens, c.summarize).1
  }

  /** What the summarizer's stage is given: only the proactive path prunes. */
  function Given(c: Compacting): seq<Message> { if c.reactive then c.shown else AfterPruning(c.tuner, c.shown) }

  predicate Prunes(c: Compacting) { !c.reactive && Pruned(c.shown, c.tuner.preserveLast).1 > 0 }

  ghost predicate Elides(codec: Codec, c: Compacting) {
    Result(codec, c) != c.shown && Result(codec, c) != Given(c)
  }

  /** The elided stretch in the transcript: behind the system message and an earlier note. */
  function Head(c: Compacting): nat { if |c.shown| >= 2 && IsSummary(c.shown[1]) then 2 else 1 }

  function Cut(c: Compacting): nat { CutAt(c.shown, c.tuner.preserveLast) }

  /** How far the transcript's positions lag behind the conversation's. */
  function Lag(c: Compacting): int { |c.conversation| - |c.shown| }

  ghost predicate Aligned(c: Compacting) {
    0 <= Lag(c) && Head(c) <= Cut(c) <= |c.shown|
  }

  /** The result has lost its body by the time it is elided: to an earlier pruning or to this one. */
  ghost predicate Touched(c: Compacting, i: nat)
    requires Aligned(c) && i < |c.shown|
  {
    c.shown[i] != c.conversation[Lag(c) + i] || (Prunes(c) && Prunable(c.shown, c.tuner.preserveLast, i))
  }

  /** What is asked of a call for it to lose nothing. Before it: of the stretch no decisive result has lost its
      body or is about to, and the stretch fits the conversation before it. Of its summary: not to quote the label. */
  ghost predicate LosesNothing(codec: Codec, c: Compacting) {
    && Aligned(c)
    && var from, to := Lag(c) + Head(c), Lag(c) + Cut(c);
    && (forall i | Head(c) <= i < Cut(c) && Touched(c, i) :: !Decides(codec, c.conversation[from..to], i - Head(c)))
    && StretchFits(codec, c.conversation, from, to)
    && Quiet(c.summarize, Middle(Given(c), c.tuner.preserveLast))
  }

  /** The summary of this stretch does not quote the label. */
  ghost predicate Quiet(summarize: Summarizer, middle: seq<Message>) {
    summarize(middle).Summary? ==> !Occurs(PRESERVED_LABEL, SummaryText(summarize(middle).text))
  }

  lemma {:induction false} SystemEndSameShape(a: seq<Message>, b: seq<Message>)
    requires SameShape(a, b)
    ensures SystemEnd(a) == SystemEnd(b)
  {
    if a != [] {
      assert SameButBody(a[0], b[0]);
      ShapeFrom(a, b, 1);
      SystemEndSameShape(a[1..], b[1..]);
    }
  }

  lemma {:induction false} BoundarySameShape(a: seq<Message>, b: seq<Message>, s: nat, boundary: nat)
    requires SameShape(a, b) && s <= boundary && (s < boundary ==> boundary < |a|)
    ensures SafeBoundary(a, s, boundary) == SafeBoundary(b, s, boundary)
    decreases boundary
  {
    if boundary > s {
      assert SameButBody(a[boundary], b[boundary]);
      BoundarySameShape(a, b, s, boundary - 1);
    }
  }

  lemma CutSameShape(a: seq<Message>, b: seq<Message>, keep: int)
    requires SameShape(a, b)
    ensures CutAt(a, keep) == CutAt(b, keep)
  {
    hide SafeBoundary;
    SystemEndSameShape(a, b);
    BoundarySameShape(a, b, SystemEnd(a), NaiveBoundary(a, keep));
  }

  lemma GivenIsReplaced(c: Compacting)
    ensures Replaced(c.shown, Given(c))
    ensures Paired(c.shown) ==> Paired(Given(c))
    ensures CutAt(Given(c), c.tuner.preserveLast) == Cut(c)
  {
    hide Pruned, Blank;
    ShapeReflexive(c.shown);
    PruningReplaced(c.shown, c.tuner.preserveLast);
    PruneKeepsPairing(c.shown, c.tuner.preserveLast);
    CutSameShape(c.shown, Given(c), c.tuner.preserveLast);
  }

  /** Bodies differ from the conversation's only where the result was touched. */
  lemma UntouchedIsGiven(c: Compacting, i: nat)
    requires Aligned(c) && i < |c.shown| && !Touched(c, i)
    ensures |Given(c)| == |c.shown| && Given(c)[i] == c.conversation[Lag(c) + i]
  {
    hide Prunable, Reclaimable, PrunedBody, Reclaimed;
  }

  lemma DecisiveIsKept(codec: Codec, c: Compacting)
    requires LosesNothing(codec, c) && |Given(c)| == |c.shown|
    ensures KeepsDecisive(codec, c.conversation[Lag(c) + Head(c)..Lag(c) + Cut(c)], Given(c)[Head(c)..Cut(c)])
  {
    hide Given, Touched, Decides, StretchFits, Quiet, Head, Cut;
    var from, to := Lag(c) + Head(c), Lag(c) + Cut(c);
    var a, b := c.conversation[from..to], Given(c)[Head(c)..Cut(c)];
    forall i | 0 <= i < |a| && a[i] != b[i] ensures !Decides(codec, a, i) {
      var k: nat := Head(c) + i;
      assert a[i] == c.conversation[Lag(c) + k] && b[i] == Given(c)[k];
      if !Touched(c, k) {
        UntouchedIsGiven(c, k);
      }
      assert k - Head(c) == i;
    }
  }

  /** Where nothing was summarized the result is what it was given. */
  lemma ResultCompacts(codec: Codec, c: Compacting)
    requires Elides(codec, c)
    ensures var keep, g := c.tuner.preserveLast, Given(c);
            && Middle(g, keep) != [] && c.summarize(Middle(g, keep)).Summary?
            && Result(codec, c) == Spliced(g, keep, Note(WithPreservedState(codec, SummaryText(c.summarize(Middle(g, keep)).text), Middle(g, keep))))
  {
    hide SummaryWriter, Size, EstimateTokens, Pruned, Spliced, Middle, SummaryText, WithPreservedState, Settled;
    var keep, g := c.tuner.preserveLast, Given(c);
    WriterIs(codec, c.summarize(Middle(g, keep)).text, Middle(g, keep));
  }

  /** A compaction that loses nothing keeps the state carried. */
  lemma CompactingKeepsState(codec: Codec, c: Compacting)
    requires JsonLike(codec) && NamesThings(codec) && NoSummaries(c.conversation) && Seeded(c.conversation)
    requires CarriesState(codec, c.conversation, c.shown) && Paired(c.shown)
    requires Elides(codec, c) ==> LosesNothing(codec, c)
    ensures CarriesState(codec, c.conversation, Result(codec, c))
  {
    hide JsonLike, NamesThings, NoSummaries, Seeded, CarriesState, Paired, LosesNothing, Result, Given, Replaced;
    GivenIsReplaced(c);
    StatePruned(codec, c.conversation, c.shown, Given(c));
    if Elides(codec, c) {
      ResultCompacts(codec, c);
      SplicedKeepsState(codec, c);
    }
  }

  lemma SplicedKeepsState(codec: Codec, c: Compacting)
    requires JsonLike(codec) && NamesThings(codec) && NoSummaries(c.conversation) && Seeded(c.conversation)
    requires CarriesState(codec, c.conversation, c.shown) && Paired(c.shown) && LosesNothing(codec, c)
    requires Middle(Given(c), c.tuner.preserveLast) != [] && c.summarize(Middle(Given(c), c.tuner.preserveLast)).Summary?
    ensures var keep, g := c.tuner.preserveLast, Given(c);
            CarriesState(codec, c.conversation,
                         Spliced(g, keep, Note(WithPreservedState(codec, SummaryText(c.summarize(Middle(g, keep)).text), Middle(g, keep)))))
  {
    hide JsonLike, NamesThings, Seeded, Paired, Given, Middle, Spliced, StretchFits, Touched, Occurs, SummaryText, Head, Cut, Replaced;
    hide CarriesFrom, WithPreservedState, Decides, KeepsDecisive;
    var keep, g, history := c.tuner.preserveLast, Given(c), c.conversation;
    var text := c.summarize(Middle(g, keep)).text;
    GivenIsReplaced(c);
    ReplacedLength(c.shown, g);
    DecisiveIsKept(codec, c);
    if Replaced(history, c.shown) {
      HeadOfWhole(c);
      ReplacedTwice(history, c.shown, g);
      FirstStateCompacted(codec, history, g, keep, text);
    } else {
      var at: nat :| CarriesFrom(codec, history, at, c.shown);
      HeadOfRest(codec, c, at);
      CarriesFromReplaced(codec, history, at, c.shown, g);
      LaterStateCompacted(codec, history, at, g, keep, text);
    }
  }

  lemma HeadOfWhole(c: Compacting)
    requires Seeded(c.conversation) && NoSummaries(c.conversation) && Replaced(c.conversation, c.shown)
    ensures Head(c) == 1 && Lag(c) == 0
  {
    hide IsSummary;
    WholeIsShown(c.conversation, c.shown);
  }

  lemma HeadOfRest(codec: Codec, c: Compacting, at: nat)
    requires CarriesFrom(codec, c.conversation, at, c.shown)
    ensures Head(c) == 2 && Lag(c) == at - 2
  {
    hide CarriesFrom, IsSummary;
    ShownFrom(codec, c.conversation, at, c.shown);
  }

  /** Positions of a transcript that carries its state line up with the conversation's wherever it is compacted. */
  lemma ElidedIsAligned(codec: Codec, c: Compacting)
    requires Seeded(c.conversation) && NoSummaries(c.conversation) && CarriesState(codec, c.conversation, c.shown) && Elides(codec, c)
    ensures Aligned(c)
  {
    hide Seeded, NoSummaries, Replaced, CarriesFrom, Elides, Given, Cut, Head, SystemEnd, Shows, Result, WithPreservedState, SummaryText;
    var keep, g := c.tuner.preserveLast, Given(c);
    ResultCompacts(codec, c);
    GivenIsReplaced(c);
    StatePruned(codec, c.conversation, c.shown, g);
    ReplacedLength(c.shown, g);
    if Replaced(c.conversation, c.shown) {
      HeadOfWhole(c);
      ReplacedTwice(c.conversation, c.shown, g);
      WholeIsShown(c.conversation, g);
    } else {
      var at: nat :| CarriesFrom(codec, c.conversation, at, c.shown);
      HeadOfRest(codec, c, at);
      ShownFrom(codec, c.conversation, at, c.shown);
      CarriesFromReplaced(codec, c.conversation, at, c.shown, g);
      ShownFrom(codec, c.conversation, at, g);
      OneSystem(c.conversation, g);
    }
    CutsAtAssistant(g, keep);
  }

  // ---- a whole run of them ----

  /** The transcript is what these calls of the compactor made of the conversation: between them both grew
      by the same messages. */
  ghost predicate Replays(codec: Codec, log: seq<Compacting>, history: seq<Message>, ms: seq<Message>)
    decreases |log|
  {
    if log == [] then ms == history
    else
      var c := log[|log| - 1];
      && Seeded(c.conversation) && Paired(c.shown) && c.conversation <= history
      && ms == Result(codec, c) + history[|c.conversation|..]
      && Replays(codec, log[..|log| - 1], c.conversation, c.shown)
  }

  ghost predicate AllLoseNothing(codec: Codec, log: seq<Compacting>) {
    forall k | 0 <= k < |log| && Elides(codec, log[k]) :: LosesNothing(codec, log[k])
  }

  lemma ReplaysGrow(codec: Codec, log: seq<Compacting>, history: seq<Message>, ms: seq<Message>, more: seq<Message>)
    requires Replays(codec, log, history, ms)
    ensures Replays(codec, log, history + more, ms + more)
  {
    hide Result;
    if log != [] {
      var c := log[|log| - 1];
      var n := |c.conversation|;
      assert (history + more)[n..] == history[n..] + more;
      Grouped(Result(codec, c), history[n..], more);
    }
  }

  lemma Grouped(a: seq<Message>, b: seq<Message>, c: seq<Message>)
    ensures (a + b) + c == a + (b + c)
  {
  }

  lemma ReplaysOneMore(codec: Codec, log: seq<Compacting>, c: Compacting)
    requires Replays(codec, log, c.conversation, c.shown) && Seeded(c.conversation) && Paired(c.shown)
    ensures Replays(codec, log + [c], c.conversation, Result(codec, c))
  {
    hide Result;
    assert (log + [c])[..|log|] == log;
    assert Result(codec, c) + c.conversation[|c.conversation|..] == Result(codec, c);
  }

  lemma NoSummariesBefore(history: seq<Message>, front: seq<Message>)
    requires NoSummaries(history) && front <= history
    ensures NoSummaries(front)
  {
    hide IsSummary;
    forall i | 0 <= i < |front| ensures !IsSummary(front[i]) {
      assert front[i] == history[i];
    }
  }

  /** However often a run prunes and compacts, its note carries the state of all it left out. */
  lemma {:induction false} RunCarriesState(codec: Codec, log: seq<Compacting>, history: seq<Message>, ms: seq<Message>)
    requires JsonLike(codec) && NamesThings(codec) && NoSummaries(history)
    requires Replays(codec, log, history, ms) && AllLoseNothing(codec, log)
    ensures CarriesState(codec, history, ms)
    decreases |log|
  {
    hide JsonLike, NamesThings, NoSummaries, CarriesState, Result, Elides, LosesNothing, Seeded, Paired;
    if log == [] {
      StartsWhole(codec, ms);
    } else {
      var n := |log| - 1;
      var c := log[n];
      NoSummariesBefore(history, c.conversation);
      RunCarriesState(codec, log[..n], c.conversation, c.shown);
      CompactingKeepsState(codec, c);
      StateGrows(codec, c.conversation, Result(codec, c), history[|c.conversation|..]);
      assert c.conversation + history[|c.conversation|..] == history;
    }
  }
}
