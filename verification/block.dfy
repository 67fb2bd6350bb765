/** The preserved-state block: written behind a label at the end of a summary, found again by the
    last occurrence of the label. */
module PreservedBlock {
  import opened Text
  import opened Preserve
  import opened Utf8

  ghost predicate Occurs(pattern: string, s: string) {
    exists i :: 0 <= i <= |s| && pattern <= s[i..]
  }

  ghost predicate ValidEntries(es: seq<Entry>) {
    forall i | 0 <= i < |es| :: IsText(es[i].name) && IsText(es[i].body)
  }

  /** Every string of the state is valid text. */
  ghost predicate ValidState(state: PreservedState) {
    && IsText(state.plan)
    && ValidEntries(state.edits) && ValidEntries(state.tools)
    && ValidEntries(state.skills) && ValidEntries(state.instructions)
  }

  /** What is needed of the JSON form: one trimmed line; decoding undoes encoding for states of valid
      text, and for no others, since bytes that are no text are replaced; and no proper tail of an
      encoded state is again an encoding of it (the tail would start inside a string). */
  ghost predicate JsonLike(codec: Codec) {
    forall s ::
      && codec.encode(s) != "" && '\n' !in codec.encode(s)
      && TrimSpace(codec.encode(s)) == codec.encode(s)
      && (codec.decode(codec.encode(s)) == Some(s) <==> ValidState(s))
      && forall i | 0 < i <= |codec.encode(s)| ::
           codec.decode(TrimSpace(codec.encode(s)[i..])) != Some(s)
  }

  function FormatPreservedState(codec: Codec, state: PreservedState): (block: string) {
    if state == EMPTY_STATE then "" else PRESERVED_LABEL + "\n" + codec.encode(state)
  }

  function ParsePreservedStateBlock(codec: Codec, content: string): (state: PreservedState) {
    ParseBehind(codec, PRESERVED_LABEL, content)
  }

  function ParseBehind(codec: Codec, tag: string, content: string): (state: PreservedState) {
    var at := LastIndex(content, tag);
    if at < 0 then EMPTY_STATE else ReadBlock(codec, content[at + |tag|..])
  }

  /** The first line behind the tag, trimmed and decoded; anything unreadable is the empty state. */
  function ReadBlock(codec: Codec, tail: string): PreservedState {
    var rest := TrimSpace(FirstLine(if tail != "" && tail[0] == '\n' then tail[1..] else tail));
    if rest == "" then EMPTY_STATE else codec.decode(rest).GetOr(EMPTY_STATE)
  }

  /** Two hashes, then none: such a tag cannot overlap an occurrence of itself. */
  ghost predicate HashesOnlyInFront(tag: string) {
    && |tag| >= 3 && tag[0] == '#' && tag[1] == '#'
    && forall d | 2 <= d < |tag| :: tag[d] != '#'
  }

  ghost predicate HashFree(s: string) {
    forall i | 0 <= i < |s| :: s[i] != '#'
  }

  lemma HashFreeConcat(a: string, b: string)
    requires HashFree(a) && HashFree(b)
    ensures HashFree(a + b)
  {
  }

  lemma TwoHashes(text: string)
    requires text != "" && HashFree(text)
    ensures HashesOnlyInFront("##" + text)
  {
    assert forall d | 2 <= d < |"##" + text| :: ("##" + text)[d] == text[d - 2];
  }

  lemma LabelShape()
    ensures HashesOnlyInFront(PRESERVED_LABEL)
  {
    HashFreeConcat("carried across ", "compaction)");
    HashFreeConcat("loaded skills; ", "carried across " + "compaction)");
    HashFreeConcat("(active plan + ", "loaded skills; " + ("carried across " + "compaction)"));
    HashFreeConcat(" Preserved state ", "(active plan + " + ("loaded skills; " + ("carried across " + "compaction)")));
    TwoHashes(LABEL_TEXT);
  }

  function Labelled(prefix: string, tag: string, body: string): string {
    prefix + tag + "\n" + body
  }

  lemma NoOverlap(prefix: string, tag: string, body: string, j: nat)
    requires HashesOnlyInFront(tag)
    requires |prefix| < j <= |prefix| + |tag|
    ensures !(tag <= Labelled(prefix, tag, body)[j..])
  {
    var content, d := Labelled(prefix, tag, body), j - |prefix|;
    if d < |tag| {
      assert content[j] == tag[d];
      assert d + 1 < |tag| ==> content[j + 1] == tag[d + 1];
    } else {
      assert content[j] == '\n';
    }
    assert j + 1 < |content| ==> content[j..][0] == content[j] && content[j..][1] == content[j + 1];
  }

  lemma LabelledSuffix(prefix: string, tag: string, body: string, j: nat)
    requires |prefix| + |tag| < j <= |prefix| + |tag| + 1 + |body|
    ensures Labelled(prefix, tag, body)[j..] == body[j - |prefix| - |tag| - 1..]
  {
  }

  /** In prefix + tag + newline + body the last tag found is the written one, or one inside the body. */
  lemma LastLabel(prefix: string, tag: string, body: string)
    requires HashesOnlyInFront(tag)
    ensures var at := LastIndex(Labelled(prefix, tag, body), tag);
            if Occurs(tag, body) then |prefix| + |tag| + 1 <= at && at + |tag| <= |prefix| + |tag| + 1 + |body|
            else at == |prefix|
  {
    var content := Labelled(prefix, tag, body);
    var at := LastIndex(content, tag);
    assert tag <= content[|prefix|..];
    assert at >= |prefix|;
    if |prefix| < at <= |prefix| + |tag| {
      NoOverlap(prefix, tag, body, at);
    }
    if at > |prefix| + |tag| {
      LabelledSuffix(prefix, tag, body, at);
    }
    if Occurs(tag, body) {
      var i :| 0 <= i <= |body| && tag <= body[i..];
      LabelledSuffix(prefix, tag, body, |prefix| + |tag| + 1 + i);
    }
  }

  /** The block written for a nonempty state reads back as that state exactly when its strings are valid
      text and the encoded JSON does not itself contain the label. */
  lemma BlockRoundTrip(codec: Codec, prefix: string, state: PreservedState)
    requires JsonLike(codec) && state != EMPTY_STATE
    ensures ParsePreservedStateBlock(codec, prefix + FormatPreservedState(codec, state)) == state
            <==> ValidState(state) && !Occurs(PRESERVED_LABEL, codec.encode(state))
  {
    LabelShape();
    RoundTripBehind(codec, prefix, PRESERVED_LABEL, state);
    PrefixAssoc(prefix, PRESERVED_LABEL, codec.encode(state));
  }

  lemma PrefixAssoc(prefix: string, tag: string, body: string)
    ensures prefix + (tag + "\n" + body) == Labelled(prefix, tag, body)
  {
  }

  lemma RoundTripBehind(codec: Codec, prefix: string, tag: string, state: PreservedState)
    requires JsonLike(codec) && state != EMPTY_STATE && HashesOnlyInFront(tag)
    ensures ParseBehind(codec, tag, Labelled(prefix, tag, codec.encode(state))) == state
            <==> ValidState(state) && !Occurs(tag, codec.encode(state))
  {
    hide JsonLike, ValidState, ReadBlock, Labelled, Occurs;
    var body := codec.encode(state);
    var content := Labelled(prefix, tag, body);
    LastLabel(prefix, tag, body);
    var at := LastIndex(content, tag);
    if Occurs(tag, body) {
      RoundTripFails(codec, prefix, tag, state, at);
    } else {
      RoundTripAtLabel(codec, prefix, tag, state);
    }
  }

  lemma RoundTripAtLabel(codec: Codec, prefix: string, tag: string, state: PreservedState)
    requires JsonLike(codec) && state != EMPTY_STATE
    ensures ReadBlock(codec, Labelled(prefix, tag, codec.encode(state))[|prefix| + |tag|..]) == state <==> ValidState(state)
  {
    ParseAtLabel(codec, prefix, tag, codec.encode(state));
  }

  lemma RoundTripFails(codec: Codec, prefix: string, tag: string, state: PreservedState, at: nat)
    requires JsonLike(codec) && state != EMPTY_STATE && tag != ""
    requires var body := codec.encode(state);
             |prefix| + |tag| + 1 <= at && at + |tag| <= |prefix| + |tag| + 1 + |body|
    ensures ReadBlock(codec, Labelled(prefix, tag, codec.encode(state))[at + |tag|..]) != state
  {
    var body, i := codec.encode(state), at - |prefix| - 1;
    ParseInsideBody(codec, prefix, tag, body, at);
    assert codec.decode(TrimSpace(body[i..])) != Some(state);
  }

  lemma ParseAtLabel(codec: Codec, prefix: string, tag: string, body: string)
    requires body != "" && '\n' !in body && TrimSpace(body) == body
    ensures ReadBlock(codec, Labelled(prefix, tag, body)[|prefix| + |tag|..]) == codec.decode(body).GetOr(EMPTY_STATE)
  {
    assert Labelled(prefix, tag, body)[|prefix| + |tag|..] == "\n" + body;
    assert ("\n" + body)[1..] == body;
  }

  lemma ParseInsideBody(codec: Codec, prefix: string, tag: string, body: string, at: nat)
    requires '\n' !in body
    requires |prefix| + |tag| + 1 <= at && at + |tag| <= |prefix| + |tag| + 1 + |body|
    ensures var i := at - |prefix| - 1;
            ReadBlock(codec, Labelled(prefix, tag, body)[at + |tag|..])
            == if TrimSpace(body[i..]) == "" then EMPTY_STATE else codec.decode(TrimSpace(body[i..])).GetOr(EMPTY_STATE)
  {
    var i := at - |prefix| - 1;
    LabelledSuffix(prefix, tag, body, at + |tag|);
    assert forall c | c in body[i..] :: c in body;
  }
}
