/** Pruning comes before compaction, so the carried state is extracted from bodies that pruning may have
    replaced. Which replaced results matter is decided by what the conversation itself says last; where none
    of those was touched, the note that stands in for the elided conversation carries exactly what one
    extraction over all of it would give. */
module Intact {
  import opened Text
  import opened Transcript
  import opened Preserve
  import opened Extraction
  import opened Carry
  import opened PreservedBlock
  import opened Rounds
  import opened Prune
  import opened Compaction
  import opened Compactor
  import opened Views

  // ---------------------------------------------------------------------------------------------
  // Extraction from replaced bodies
  // ---------------------------------------------------------------------------------------------

  predicate Blank(m: Message) { TrimSpace(m.content) == "" }

  /** Bodies of results were replaced, none by or instead of a blank one: what pruning does, once or often. */
  ghost predicate Replaced(a: seq<Message>, b: seq<Message>) {
    SameShape(a, b) && forall i | 0 <= i < |a| && a[i] != b[i] :: !Blank(a[i]) && !Blank(b[i])
  }

  /** What message `i` says about the source's calls in the stretch. */
  function SaysOf(src: Source, ms: seq<Message>, i: nat): seq<Entry>
    requires i < |ms|
  {
    ResultEvents(src, ms[i], ByID(src, CallsOf(ms)))
  }

  /** Message `i` is the last to say anything under the name it speaks of. */
  ghost predicate LastWord(src: Source, ms: seq<Message>, i: nat)
    requires i < |ms|
  {
    SaysOf(src, ms, i) != [] &&
    forall j | i < j < |ms| && SaysOf(src, ms, j) != [] :: SaysOf(src, ms, j)[0].name != SaysOf(src, ms, i)[0].name
  }

  /** The last nonblank result of a skill. */
  ghost predicate DecidesSkill(codec: Codec, ms: seq<Message>, i: nat)
    requires i < |ms|
  {
    LastWord(SkillSource(codec), ms, i)
  }

  /** The last note of an edited path that is kept. */
  ghost predicate DecidesNote(codec: Codec, ms: seq<Message>, i: nat)
    requires i < |ms|
  {
    LastWord(EditSource(codec), ms, i) && SaysOf(EditSource(codec), ms, i)[0].name in KeptPaths(codec, CallsOf(ms))
  }

  ghost predicate AnswersSearch(codec: Codec, ms: seq<Message>, i: nat)
    requires i < |ms|
  {
    ms[i].role == Tool && ms[i].callID != "" && ms[i].callID in ByID(ToolSource(codec), CallsOf(ms))
  }

  lemma {:induction false} SameCallsAndInstructions(codec: Codec, a: seq<Message>, b: seq<Message>)
    requires SameShape(a, b)
    ensures CallsOf(a) == CallsOf(b) && InstructionEvents(codec, a) == InstructionEvents(codec, b)
  {
    if a != [] {
      var n := |a| - 1;
      assert SameButBody(a[n], b[n]);
      SameCallsAndInstructions(codec, a[..n], b[..n]);
    }
  }

  // ---- the last word decides ----

  /** At most one entry a message: true of edits and skills. */
  ghost predicate Single(src: Source) {
    forall key, content :: |src.events(key, content)| <= 1
  }

  lemma EditsAndSkillsAreSingle(codec: Codec)
    ensures Single(EditSource(codec)) && Single(SkillSource(codec))
  {
  }

  /** The last message before `n` that speaks of the name. */
  ghost predicate LastBefore(src: Source, ms: seq<Message>, byID: map<string, string>, n: nat, i: nat, name: string)
    requires n <= |ms|
  {
    && i < n && ResultEvents(src, ms[i], byID) != [] && ResultEvents(src, ms[i], byID)[0].name == name
    && forall j | i < j < n && ResultEvents(src, ms[j], byID) != [] :: ResultEvents(src, ms[j], byID)[0].name != name
  }

  lemma EventsUpTo(src: Source, ms: seq<Message>, byID: map<string, string>, n: nat)
    requires n < |ms|
    ensures EventsWith(src, ms[..n + 1], byID) == EventsWith(src, ms[..n], byID) + ResultEvents(src, ms[n], byID)
  {
    assert ms[..n + 1][..n] == ms[..n];
  }

  lemma {:induction false} LastDecides(src: Source, ms: seq<Message>, byID: map<string, string>, n: nat, i: nat, name: string)
    requires Single(src) && n <= |ms| && LastBefore(src, ms, byID, n, i, name)
    ensures var bodies := Bodies(EventsWith(src, ms[..n], byID));
            name in bodies && bodies[name] == ResultEvents(src, ms[i], byID)[0].body
  {
    hide EventsWith, ResultEvents, Bodies;
    OneMore(src, ms, byID, n - 1);
    if i < n - 1 {
      LastDecides(src, ms, byID, n - 1, i, name);
    }
  }

  /** What one more message does to the bodies on file. */
  lemma OneMore(src: Source, ms: seq<Message>, byID: map<string, string>, n: nat)
    requires Single(src) && n < |ms|
    ensures var last := ResultEvents(src, ms[n], byID);
            Bodies(EventsWith(src, ms[..n + 1], byID))
            == if last == [] then Bodies(EventsWith(src, ms[..n], byID))
               else Bodies(EventsWith(src, ms[..n], byID))[last[0].name := last[0].body]
  {
    hide EventsWith, Bodies;
    EventsUpTo(src, ms, byID, n);
    AtMostOne(src, ms[n], byID);
    var front, last := EventsWith(src, ms[..n], byID), ResultEvents(src, ms[n], byID);
    if last != [] {
      assert last == [last[0]];
      BodiesStep(front, last[0]);
    } else {
      assert front + last == front;
    }
  }

  lemma AtMostOne(src: Source, m: Message, byID: map<string, string>)
    requires Single(src)
    ensures |ResultEvents(src, m, byID)| <= 1
  {
  }

  lemma {:induction false} SomebodySpoke(src: Source, ms: seq<Message>, byID: map<string, string>, n: nat, name: string) returns (i: nat)
    requires Single(src) && n <= |ms| && name in Bodies(EventsWith(src, ms[..n], byID))
    ensures LastBefore(src, ms, byID, n, i, name)
  {
    hide ResultEvents, Bodies;
    assert n > 0 by {
      NobodySpoke(src, ms, byID);
    }
    OneMore(src, ms, byID, n - 1);
    var last := ResultEvents(src, ms[n - 1], byID);
    if last != [] && last[0].name == name {
      i := n - 1;
    } else {
      i := SomebodySpoke(src, ms, byID, n - 1, name);
    }
  }

  lemma NobodySpoke(src: Source, ms: seq<Message>, byID: map<string, string>)
    ensures Bodies(EventsWith(src, ms[..0], byID)) == map[]
  {
  }

  /** The same names, message by message. */
  ghost predicate SpeakAlike(src: Source, a: seq<Message>, b: seq<Message>, byID: map<string, string>) {
    |a| == |b| && forall i | 0 <= i < |a| :: NamesOf(ResultEvents(src, a[i], byID)) == NamesOf(ResultEvents(src, b[i], byID))
  }

  lemma {:induction false} SameNamesInOrder(src: Source, a: seq<Message>, b: seq<Message>, byID: map<string, string>)
    requires SpeakAlike(src, a, b, byID)
    ensures NamesOf(EventsWith(src, a, byID)) == NamesOf(EventsWith(src, b, byID))
  {
    if a != [] {
      var n := |a| - 1;
      SameNamesInOrder(src, a[..n], b[..n], byID);
      NamesJoin(EventsWith(src, a[..n], byID), ResultEvents(src, a[n], byID));
      NamesJoin(EventsWith(src, b[..n], byID), ResultEvents(src, b[n], byID));
    }
  }

  lemma NamesJoin(e: seq<Entry>, f: seq<Entry>)
    ensures NamesOf(e + f) == NamesOf(e) + NamesOf(f)
  {
  }

  lemma SameLast(src: Source, a: seq<Message>, b: seq<Message>, byID: map<string, string>, i: nat, name: string)
    requires SpeakAlike(src, a, b, byID) && LastBefore(src, a, byID, |a|, i, name)
    ensures LastBefore(src, b, byID, |b|, i, name)
  {
    forall j | 0 <= j < |a|
      ensures (ResultEvents(src, a[j], byID) == [] <==> ResultEvents(src, b[j], byID) == [])
      ensures ResultEvents(src, a[j], byID) != [] ==> ResultEvents(src, a[j], byID)[0].name == ResultEvents(src, b[j], byID)[0].name
    {
      var e, f := ResultEvents(src, a[j], byID), ResultEvents(src, b[j], byID);
      assert |NamesOf(e)| == |NamesOf(f)|;
      assert e != [] ==> NamesOf(e)[0] == NamesOf(f)[0];
    }
  }

  /** For each name the bodies agree exactly if the last messages to speak of it do. */
  lemma BodiesAgreeIff(src: Source, a: seq<Message>, b: seq<Message>, byID: map<string, string>, i: nat, name: string)
    requires Single(src) && SpeakAlike(src, a, b, byID) && LastBefore(src, a, byID, |a|, i, name)
    ensures BodyOf(Bodies(EventsWith(src, a, byID)), name) == BodyOf(Bodies(EventsWith(src, b, byID)), name)
            <==> ResultEvents(src, a[i], byID)[0].body == ResultEvents(src, b[i], byID)[0].body
    ensures ResultEvents(src, b[i], byID) != []
  {
    SameLast(src, a, b, byID, i, name);
    LastDecides(src, a, byID, |a|, i, name);
    LastDecides(src, b, byID, |b|, i, name);
    assert a[..|a|] == a && b[..|b|] == b;
  }

  // ---- edits and skills, exactly ----

  /** If it is read for a note or a skill body, result `i` is told from what replaces it. */
  ghost predicate Tells(codec: Codec, ms: seq<Message>, i: nat, content: string)
    requires i < |ms|
  {
    && (SaysOf(EditSource(codec), ms, i) != [] ==> codec.editNote(ms[i].content) != codec.editNote(content))
    && (SaysOf(SkillSource(codec), ms, i) != [] ==> codec.capBody(TrimSpace(ms[i].content)) != codec.capBody(TrimSpace(content)))
  }

  lemma ReplacedSpeakAlike(codec: Codec, a: seq<Message>, b: seq<Message>)
    requires Replaced(a, b)
    ensures SpeakAlike(EditSource(codec), a, b, ByID(EditSource(codec), CallsOf(a)))
    ensures SpeakAlike(SkillSource(codec), a, b, ByID(SkillSource(codec), CallsOf(a)))
  {
    hide TrimSpace;
    var s, t := ByID(EditSource(codec), CallsOf(a)), ByID(SkillSource(codec), CallsOf(a));
    forall i | 0 <= i < |a|
      ensures NamesOf(ResultEvents(EditSource(codec), a[i], s)) == NamesOf(ResultEvents(EditSource(codec), b[i], s))
      ensures NamesOf(ResultEvents(SkillSource(codec), a[i], t)) == NamesOf(ResultEvents(SkillSource(codec), b[i], t))
    {
      assert SameButBody(a[i], b[i]);
    }
  }

  /** A result that says something says something else exactly if its body was replaced. */
  ghost predicate SaysElse(src: Source, byID: map<string, string>, m: Message, n: Message) {
    var e, f := ResultEvents(src, m, byID), ResultEvents(src, n, byID);
    e != [] ==> f != [] && (e[0].body == f[0].body <==> m == n)
  }

  lemma SaysElseIff(codec: Codec, a: seq<Message>, b: seq<Message>, i: nat)
    requires Replaced(a, b) && i < |a| == |b| && (a[i] != b[i] ==> Tells(codec, a, i, b[i].content))
    ensures SaysElse(EditSource(codec), ByID(EditSource(codec), CallsOf(a)), a[i], b[i])
    ensures SaysElse(SkillSource(codec), ByID(SkillSource(codec), CallsOf(a)), a[i], b[i])
  {
    hide TrimSpace, ByID, CallsOf;
    assert SameButBody(a[i], b[i]);
  }

  function AllNames(es: seq<Entry>): iset<string> { iset name | name in NamesOf(es) }

  /** For all names of interest the last bodies agree. */
  ghost predicate SameBodies(e: seq<Entry>, f: seq<Entry>, names: iset<string>) {
    forall name | name in names && name in Bodies(e) :: BodyOf(Bodies(e), name) == BodyOf(Bodies(f), name)
  }

  /** For all names of interest the last messages to speak of them say the same. */
  ghost predicate SameLastWords(src: Source, a: seq<Message>, b: seq<Message>, byID: map<string, string>, names: iset<string>)
    requires |a| == |b|
  {
    forall i | 0 <= i < |a| && ResultEvents(src, a[i], byID) != [] && ResultEvents(src, b[i], byID) != [] ::
      var name := ResultEvents(src, a[i], byID)[0].name;
      name in names && LastBefore(src, a, byID, |a|, i, name) ==>
        ResultEvents(src, a[i], byID)[0].body == ResultEvents(src, b[i], byID)[0].body
  }

  lemma SameBodiesIff(src: Source, a: seq<Message>, b: seq<Message>, byID: map<string, string>, names: iset<string>)
    requires Single(src) && SpeakAlike(src, a, b, byID)
    ensures SameBodies(EventsWith(src, a, byID), EventsWith(src, b, byID), names) <==> SameLastWords(src, a, b, byID, names)
  {
    hide EventsWith, ResultEvents, Bodies;
    assert a[..|a|] == a;
    var ea, eb := EventsWith(src, a, byID), EventsWith(src, b, byID);
    if SameLastWords(src, a, b, byID, names) {
      forall name | name in names && name in Bodies(ea) ensures BodyOf(Bodies(ea), name) == BodyOf(Bodies(eb), name) {
        var i := SomebodySpoke(src, a, byID, |a|, name);
        BodiesAgreeIff(src, a, b, byID, i, name);
      }
    }
    if SameBodies(ea, eb, names) {
      forall i | 0 <= i < |a| && ResultEvents(src, a[i], byID) != [] && ResultEvents(src, b[i], byID) != []
        ensures var name := ResultEvents(src, a[i], byID)[0].name;
                name in names && LastBefore(src, a, byID, |a|, i, name) ==>
                  ResultEvents(src, a[i], byID)[0].body == ResultEvents(src, b[i], byID)[0].body
      {
        var name := ResultEvents(src, a[i], byID)[0].name;
        if name in names && LastBefore(src, a, byID, |a|, i, name) {
          LastDecides(src, a, byID, |a|, i, name);
          BodiesAgreeIff(src, a, b, byID, i, name);
        }
      }
    }
  }

  /** No last word on a name of interest was replaced. */
  ghost predicate LastWordsKept(src: Source, a: seq<Message>, b: seq<Message>, names: iset<string>)
    requires |a| == |b|
  {
    forall i | 0 <= i < |a| && a[i] != b[i] :: !(LastWord(src, a, i) && SaysOf(src, a, i)[0].name in names)
  }

  /** The source tells each replaced result from what replaced it. */
  ghost predicate TellsApart(src: Source, a: seq<Message>, b: seq<Message>, byID: map<string, string>)
    requires |a| == |b|
  {
    forall i | 0 <= i < |a| :: SaysElse(src, byID, a[i], b[i])
  }

  lemma LastWordIff(src: Source, ms: seq<Message>, i: nat)
    requires i < |ms|
    ensures SaysOf(src, ms, i) == ResultEvents(src, ms[i], ByID(src, CallsOf(ms)))
    ensures SaysOf(src, ms, i) != [] ==>
              (LastWord(src, ms, i) <==> LastBefore(src, ms, ByID(src, CallsOf(ms)), |ms|, i, SaysOf(src, ms, i)[0].name))
  {
    hide ResultEvents, ByID, CallsOf;
    forall j | 0 <= j < |ms| ensures SaysOf(src, ms, j) == ResultEvents(src, ms[j], ByID(src, CallsOf(ms))) {
    }
  }

  lemma LastWordsKeptIff(src: Source, a: seq<Message>, b: seq<Message>, names: iset<string>)
    requires |a| == |b|
    ensures var byID := ByID(src, CallsOf(a));
            && (LastWordsKept(src, a, b, names) ==> SameLastWords(src, a, b, byID, names))
            && (TellsApart(src, a, b, byID) ==> (SameLastWords(src, a, b, byID, names) <==> LastWordsKept(src, a, b, names)))
  {
    hide ResultEvents, ByID, CallsOf, SaysOf, LastWord, LastBefore;
    var byID := ByID(src, CallsOf(a));
    forall i | 0 <= i < |a|
      ensures SaysOf(src, a, i) == ResultEvents(src, a[i], byID)
      ensures LastWord(src, a, i) ==> SaysOf(src, a, i) != []
      ensures SaysOf(src, a, i) != [] ==> (LastWord(src, a, i) <==> LastBefore(src, a, byID, |a|, i, SaysOf(src, a, i)[0].name))
    {
      LastWordIff(src, a, i);
      LastWordSpeaks(src, a, i);
    }
  }

  lemma LastWordSpeaks(src: Source, ms: seq<Message>, i: nat)
    requires i < |ms|
    ensures LastWord(src, ms, i) ==> SaysOf(src, ms, i) != []
  {
  }

  /** Every replaced result is told from what replaced it. */
  ghost predicate AllTold(codec: Codec, a: seq<Message>, b: seq<Message>)
    requires |a| == |b|
  {
    forall i | 0 <= i < |a| && a[i] != b[i] :: Tells(codec, a, i, b[i].content)
  }

  lemma ReplacedTellsApart(codec: Codec, a: seq<Message>, b: seq<Message>)
    requires Replaced(a, b) && |a| == |b| && AllTold(codec, a, b)
    ensures TellsApart(EditSource(codec), a, b, ByID(EditSource(codec), CallsOf(a)))
    ensures TellsApart(SkillSource(codec), a, b, ByID(SkillSource(codec), CallsOf(a)))
  {
    hide Tells, Replaced, SaysElse, ByID, CallsOf;
    var s, t := ByID(EditSource(codec), CallsOf(a)), ByID(SkillSource(codec), CallsOf(a));
    forall i | 0 <= i < |a| ensures SaysElse(EditSource(codec), s, a[i], b[i]) && SaysElse(SkillSource(codec), t, a[i], b[i]) {
      SaysElseIff(codec, a, b, i);
    }
  }

  lemma ReplacedLength(a: seq<Message>, b: seq<Message>)
    requires Replaced(a, b)
    ensures |a| == |b| && SameShape(a, b)
  {
  }

  /** No last word on a skill was replaced. */
  ghost predicate KeepsSkills(codec: Codec, a: seq<Message>, b: seq<Message>)
    requires |a| == |b|
  {
    forall i | 0 <= i < |a| && a[i] != b[i] :: !DecidesSkill(codec, a, i)
  }

  /** No last note of a kept path was replaced. */
  ghost predicate KeepsNotes(codec: Codec, a: seq<Message>, b: seq<Message>)
    requires |a| == |b|
  {
    forall i | 0 <= i < |a| && a[i] != b[i] :: !DecidesNote(codec, a, i)
  }

  /** Skills are extracted unchanged if, and where replacements are told only if, no last word on one was replaced. */
  lemma SkillsUnchangedIff(codec: Codec, a: seq<Message>, b: seq<Message>)
    requires Replaced(a, b)
    ensures KeepsSkills(codec, a, b) ==> Extract(codec, a).skills == Extract(codec, b).skills
    ensures AllTold(codec, a, b) ==> (Extract(codec, a).skills == Extract(codec, b).skills <==> KeepsSkills(codec, a, b))
  {
    hide AllTold, Replaced, LastWord, SameLastWords, TellsApart, SpeakAlike, EventsWith, ByID, CallsOf, Latest, SaysOf, Single;
    var src := SkillSource(codec);
    var byID := ByID(src, CallsOf(a));
    var all := AllNames(EventsWith(src, a, byID));
    ReplacedLength(a, b);
    SameCallsAndInstructions(codec, a, b);
    EditsAndSkillsAreSingle(codec);
    ReplacedSpeakAlike(codec, a, b);
    if AllTold(codec, a, b) {
      ReplacedTellsApart(codec, a, b);
    }
    SameNamesInOrder(src, a, b, byID);
    SameLatestIff(EventsWith(src, a, byID), EventsWith(src, b, byID));
    SameBodiesIff(src, a, b, byID, all);
    LastWordsKeptIff(src, a, b, all);
    forall i | 0 <= i < |a| && LastWord(src, a, i) ensures SaysOf(src, a, i) != [] && SaysOf(src, a, i)[0].name in all {
      LastWordIsNamed(src, a, i);
    }
  }

  lemma LastWordIsNamed(src: Source, ms: seq<Message>, i: nat)
    requires Single(src) && i < |ms| && LastWord(src, ms, i)
    ensures SaysOf(src, ms, i) != [] && SaysOf(src, ms, i)[0].name in NamesOf(EventsOf(src, ms))
  {
    hide ResultEvents, ByID, CallsOf, EventsWith;
    LastWordIff(src, ms, i);
    LastDecides(src, ms, ByID(src, CallsOf(ms)), |ms|, i, SaysOf(src, ms, i)[0].name);
    assert ms[..|ms|] == ms;
  }

  /** Likewise edits, and the last notes of kept paths. */
  lemma EditsUnchangedIff(codec: Codec, a: seq<Message>, b: seq<Message>)
    requires Replaced(a, b)
    ensures KeepsNotes(codec, a, b) ==> Extract(codec, a).edits == Extract(codec, b).edits
    ensures AllTold(codec, a, b) ==> (Extract(codec, a).edits == Extract(codec, b).edits <==> KeepsNotes(codec, a, b))
  {
    hide AllTold, Replaced, LastWord, SameLastWords, TellsApart, SpeakAlike, EventsWith, ByID, CallsOf, SaysOf, Single, EditPaths;
    var src, kept := EditSource(codec), KeptPaths(codec, CallsOf(a));
    var byID, names := ByID(src, CallsOf(a)), iset name | name in kept;
    ReplacedLength(a, b);
    SameCallsAndInstructions(codec, a, b);
    EditsAndSkillsAreSingle(codec);
    ReplacedSpeakAlike(codec, a, b);
    if AllTold(codec, a, b) {
      ReplacedTellsApart(codec, a, b);
    }
    SameNamesInOrder(src, a, b, byID);
    SameNotesIff(kept, EventsWith(src, a, byID), EventsWith(src, b, byID));
    SameBodiesIff(src, a, b, byID, names);
    LastWordsKeptIff(src, a, b, names);
  }

  lemma SameNotesIff(kept: seq<string>, e: seq<Entry>, f: seq<Entry>)
    requires NamesOf(e) == NamesOf(f)
    ensures EntriesFor(kept, Bodies(e)) == EntriesFor(kept, Bodies(f)) <==> SameBodies(e, f, iset name | name in kept)
  {
    var r, q := EntriesFor(kept, Bodies(e)), EntriesFor(kept, Bodies(f));
    if r == q {
      forall name | name in kept && name in Bodies(e) ensures BodyOf(Bodies(e), name) == BodyOf(Bodies(f), name) {
        var k :| 0 <= k < |kept| && kept[k] == name;
        assert r[k] == q[k];
      }
    }
  }

  lemma SameLatestIff(e: seq<Entry>, f: seq<Entry>)
    requires NamesOf(e) == NamesOf(f)
    ensures SameBodies(e, f, AllNames(e)) <==> Latest(e) == Latest(f)
  {
    var order, l, m := FirstSeen(NamesOf(e)), Latest(e), Latest(f);
    FirstSeenMembers(NamesOf(e));
    if SameBodies(e, f, AllNames(e)) {
      forall i | 0 <= i < |l| ensures l[i] == m[i] {
        assert order[i] in NamesOf(e);
      }
    }
    if l == m {
      forall name | name in Bodies(e) ensures BodyOf(Bodies(e), name) == BodyOf(Bodies(f), name) {
        assert name in order;
        var i :| 0 <= i < |order| && order[i] == name;
        assert l[i] == m[i];
      }
    }
  }

  // ---- all of the state ----

  /** What one extraction reads last, or reads in order, stands at this result. */
  ghost predicate Decides(codec: Codec, ms: seq<Message>, i: nat)
    requires i < |ms|
  {
    DecidesSkill(codec, ms, i) || DecidesNote(codec, ms, i) || AnswersSearch(codec, ms, i)
  }

  ghost predicate KeepsDecisive(codec: Codec, a: seq<Message>, b: seq<Message>)
    requires |a| == |b|
  {
    forall i | 0 <= i < |a| && a[i] != b[i] :: !Decides(codec, a, i)
  }

  lemma {:induction false} EventsUnchanged(src: Source, a: seq<Message>, b: seq<Message>, byID: map<string, string>)
    requires |a| == |b| && forall i | 0 <= i < |a| :: ResultEvents(src, a[i], byID) == ResultEvents(src, b[i], byID)
    ensures EventsWith(src, a, byID) == EventsWith(src, b, byID)
  {
    if a != [] {
      EventsUnchanged(src, a[..|a| - 1], b[..|b| - 1], byID);
    }
  }

  lemma SearchesUnchanged(codec: Codec, a: seq<Message>, b: seq<Message>)
    requires SameShape(a, b) && CallsOf(a) == CallsOf(b) && forall i | 0 <= i < |a| && a[i] != b[i] :: !AnswersSearch(codec, a, i)
    ensures EventsOf(ToolSource(codec), a) == EventsOf(ToolSource(codec), b)
  {
    hide CallsOf, ByID;
    var src := ToolSource(codec);
    var byID := ByID(src, CallsOf(a));
    forall i | 0 <= i < |a| ensures ResultEvents(src, a[i], byID) == ResultEvents(src, b[i], byID) {
      assert SameButBody(a[i], b[i]);
    }
    EventsUnchanged(src, a, b, byID);
  }

  /** Where no decisive result was replaced the whole extraction is as it was. */
  lemma ExtractKept(codec: Codec, a: seq<Message>, b: seq<Message>)
    requires Replaced(a, b) && KeepsDecisive(codec, a, b)
    ensures Extract(codec, a) == Extract(codec, b)
  {
    hide Replaced, DecidesSkill, DecidesNote, AnswersSearch, EventsWith, ByID, CallsOf, RecentEditsSpec, Latest, SameShape;
    ReplacedLength(a, b);
    SameCallsAndInstructions(codec, a, b);
    SkillsUnchangedIff(codec, a, b);
    EditsUnchangedIff(codec, a, b);
    SearchesUnchanged(codec, a, b);
  }

  // ---------------------------------------------------------------------------------------------
  // What pruning replaces
  // ---------------------------------------------------------------------------------------------

  lemma {:induction false} BlankWeighsNothing(s: string)
    requires TrimSpace(s) == ""
    ensures NonSpace(s) == 0
    decreases |s|
  {
    if s != [] {
      if IsSpace(s[0]) {
        BlankWeighsNothing(s[1..]);
        NonSpaceFront(s);
      } else {
        TrimKeepsFirst(s);
        assert false;
      }
    }
  }

  lemma {:induction false} NonSpaceFront(s: string)
    requires s != []
    ensures NonSpace(s) == (if IsSpace(s[0]) then 0 else 1) + NonSpace(s[1..])
  {
    if |s| > 1 {
      NonSpaceFront(s[..|s| - 1]);
      assert s[1..][..|s| - 2] == s[..|s| - 1][1..];
    } else {
      assert s[..0] == [] && s[1..] == [];
    }
  }

  lemma PlaceholderNotBlank(name: string, tokens: nat)
    ensures TrimSpace(Placeholder(name, tokens)) != ""
  {
    hide TrimSpace, Decimal;
    PlaceholderIsPlaceholder(name, tokens);
  }

  /** Exactly the prunable results are replaced. */
  lemma PrunedReplaces(ms: seq<Message>, keep: int)
    requires Reclaimable(ms, keep, 0) >= MIN_RECLAIM_TOKENS
    ensures var out := Pruned(ms, keep).0;
            |out| == |ms| && forall i | 0 <= i < |ms| :: out[i] != ms[i] <==> Prunable(ms, keep, i)
  {
    hide Placeholder, Reclaimable;
    var out := Pruned(ms, keep).0;
    forall i | 0 <= i < |ms| && Prunable(ms, keep, i) ensures out[i] != ms[i] {
      PlaceholderIsPlaceholder(ToolName(ms, i), Tokens(ms[i].content));
    }
  }

  lemma PruningReplaced(ms: seq<Message>, keep: int)
    ensures Replaced(ms, Pruned(ms, keep).0)
  {
    hide Placeholder, Reclaimable, IsPlaceholder, ToolTokensFrom, Tokens, NonSpace, TrimSpace;
    var out := Pruned(ms, keep).0;
    PruneKeepsPairing(ms, keep);
    forall i | 0 <= i < |ms| && ms[i] != out[i] ensures !Blank(ms[i]) && !Blank(out[i]) {
      PrunableNotBlank(ms, keep, i);
      PlaceholderNotBlank(ToolName(ms, i), Tokens(ms[i].content));
    }
  }

  lemma PrunableNotBlank(ms: seq<Message>, keep: int, i: nat)
    requires i < |ms| && Prunable(ms, keep, i)
    ensures !Blank(ms[i])
  {
    if Blank(ms[i]) {
      BlankWeighsNothing(ms[i].content);
    }
  }

  lemma ReplacedPart(a: seq<Message>, b: seq<Message>, i: nat, j: nat)
    requires Replaced(a, b) && i <= j <= |a|
    ensures |b| == |a| && Replaced(a[i..j], b[i..j])
  {
    hide Blank;
    forall k | 0 <= k < j - i ensures SameButBody(a[i..j][k], b[i..j][k]) {
      assert SameButBody(a[i + k], b[i + k]);
    }
    forall k | 0 <= k < j - i && a[i..j][k] != b[i..j][k] ensures !Blank(a[i..j][k]) && !Blank(b[i..j][k]) {
      assert a[i + k] != b[i + k];
    }
  }

  /** The prunable results of the stretch that hold the last of a skill or of a kept path's notes. */
  ghost predicate PrunesDecisive(codec: Codec, ms: seq<Message>, keep: int, from: nat, to: nat)
    requires from <= to <= |ms|
  {
    exists i: nat :: from <= i < to && Prunable(ms, keep, i)
                     && (DecidesSkill(codec, ms[from..to], i - from) || DecidesNote(codec, ms[from..to], i - from))
  }

  /** Where a prunable result is read for a note or a skill body, its placeholder reads differently. */
  ghost predicate TellsPlaceholders(codec: Codec, ms: seq<Message>, keep: int, from: nat, to: nat)
    requires from <= to <= |ms|
  {
    forall i | from <= i < to && Prunable(ms, keep, i) :: Tells(codec, ms[from..to], i - from, PrunedBody(ms, i))
  }

  /** Skills and edits of a stretch are extracted the same before and after pruning if and only if pruning
      does nothing at all, or no prunable result of the stretch is the last nonblank one of its skill or
      the last note of a kept path. */
  lemma PrunedStateIff(codec: Codec, ms: seq<Message>, keep: int, from: nat, to: nat)
    requires from <= to <= |ms|
    requires TellsPlaceholders(codec, ms, keep, from, to)
    ensures var (a, b) := (ms[from..to], Pruned(ms, keep).0[from..to]);
            Extract(codec, a).skills == Extract(codec, b).skills && Extract(codec, a).edits == Extract(codec, b).edits
            <==> Reclaimable(ms, keep, 0) < MIN_RECLAIM_TOKENS || !PrunesDecisive(codec, ms, keep, from, to)
  {
    hide Replaced, Tells, Extract, DecidesSkill, DecidesNote, PrunedBody, Prunable, Reclaimable;
    if Reclaimable(ms, keep, 0) >= MIN_RECLAIM_TOKENS {
      var out := Pruned(ms, keep).0;
      var a, b := ms[from..to], out[from..to];
      PruningReplaced(ms, keep);
      PrunedReplaces(ms, keep);
      ReplacedPart(ms, out, from, to);
      forall i | 0 <= i < |a| ensures a[i] != b[i] <==> Prunable(ms, keep, from + i) {
        assert a[i] == ms[from + i] && b[i] == out[from + i];
      }
      PrunedTold(codec, ms, keep, from, to);
      SkillsUnchangedIff(codec, a, b);
      EditsUnchangedIff(codec, a, b);
      PrunesDecisiveIff(codec, ms, keep, from, to, b);
    }
  }

  lemma PrunedTold(codec: Codec, ms: seq<Message>, keep: int, from: nat, to: nat)
    requires from <= to <= |ms|
    requires TellsPlaceholders(codec, ms, keep, from, to)
    ensures |Pruned(ms, keep).0| == |ms| && AllTold(codec, ms[from..to], Pruned(ms, keep).0[from..to])
  {
    hide Tells, PrunedBody, Prunable, Reclaimable;
    var a, b := ms[from..to], Pruned(ms, keep).0[from..to];
    forall i | 0 <= i < |a| && a[i] != b[i] ensures Tells(codec, a, i, b[i].content) {
      assert a[i] == ms[from + i] && b[i] == Pruned(ms, keep).0[from + i];
      var k: nat := from + i;
      assert k - from == i && Prunable(ms, keep, k);
    }
  }

  lemma PrunesDecisiveIff(codec: Codec, ms: seq<Message>, keep: int, from: nat, to: nat, b: seq<Message>)
    requires from <= to <= |ms| && |b| == to - from
    requires forall i | 0 <= i < |b| :: ms[from..to][i] != b[i] <==> Prunable(ms, keep, from + i)
    ensures KeepsSkills(codec, ms[from..to], b) && KeepsNotes(codec, ms[from..to], b) <==> !PrunesDecisive(codec, ms, keep, from, to)
  {
    hide DecidesSkill, DecidesNote, Prunable;
    var a := ms[from..to];
    if !PrunesDecisive(codec, ms, keep, from, to) {
      forall i | 0 <= i < |a| && a[i] != b[i] ensures !DecidesSkill(codec, a, i) && !DecidesNote(codec, a, i) {
        assert Prunable(ms, keep, from + i);
        var k: nat := from + i;
        assert k - from == i;
      }
    } else {
      var i: nat :| from <= i < to && Prunable(ms, keep, i)
                    && (DecidesSkill(codec, a, i - from) || DecidesNote(codec, a, i - from));
      assert a[i - from] != b[i - from];
    }
  }
}
