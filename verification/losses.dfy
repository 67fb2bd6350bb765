/** Conversations whose carried state is not what one extraction over them gives. Each is a short run with
    the tools' own limits on what a result may hold. */
module Losses {
  import opened Text
  import opened Utf8
  import opened Transcript
  import opened Preserve
  import opened Extraction
  import opened Carry
  import opened PreservedBlock
  import opened Json
  import opened Prune
  import opened Compaction
  import opened Intact

  const OUTPUT_CEILING_TOKENS := 16000
  const READ_BUDGET_BYTES := 128 * 1024

  function Calling(id: string, name: string, arguments: string): Message {
    Message(Assistant, "", [ToolCall(id, name, arguments)], "", 0)
  }

  /** An assistant message with one call, and its result. */
  function CallTurn(id: string, name: string, arguments: string, output: string): seq<Message> {
    [Calling(id, name, arguments), ResultMessage(id, output)]
  }

  lemma CallsOfTurn(id: string, name: string, arguments: string, output: string)
    ensures CallsOf(CallTurn(id, name, arguments, output)) == [ToolCall(id, name, arguments)]
  {
    var ms := CallTurn(id, name, arguments, output);
    assert ms[..1] == [ms[0]] && ms[..1][..0] == [];
    assert CallsOf(ms[..1]) == CallsOf([]) + ms[0].calls;
    assert CallsOf(ms) == CallsOf(ms[..1]) + ms[1].calls;
  }

  lemma TableOfTurn(src: Source, c: ToolCall)
    ensures ByID(src, [c]) == FileCall(src, map[], c)
  {
    assert [c][..0] == [];
  }

  lemma EventsOfTurn(src: Source, id: string, name: string, arguments: string, output: string, byID: map<string, string>)
    ensures EventsWith(src, CallTurn(id, name, arguments, output), byID) == ResultEvents(src, ResultMessage(id, output), byID)
  {
    var ms := CallTurn(id, name, arguments, output);
    assert ms[..1] == [ms[0]] && ms[..1][..0] == [];
    assert EventsWith(src, ms[..1], byID) == EventsWith(src, [], byID) + ResultEvents(src, ms[0], byID);
    assert EventsWith(src, ms, byID) == EventsWith(src, ms[..1], byID) + ResultEvents(src, ms[1], byID);
  }

  lemma OneEntry(e: Entry)
    ensures Bodies([e]) == map[e.name := e.body] && FirstSeen(NamesOf([e])) == [e.name] && Latest([e]) == [e]
  {
    hide Bodies, FirstSeen;
    BodiesStep([], e);
    NothingSeen();
    assert [] + [e] == [e] && NamesOf([e]) == [e.name] && [] + [e.name] == [e.name];
    FirstSeenStep([e.name], [], e.name);
    assert [e.name] + [] == [e.name];
  }

  lemma NothingSeen()
    ensures Bodies([]) == map[] && FirstSeen([]) == []
  {
  }

  lemma NoEntry()
    ensures Latest([]) == [] && LastSeen([]) == []
  {
  }

  // ---------------------------------------------------------------------------------------------
  // A reused call id
  // ---------------------------------------------------------------------------------------------

  /** Two tool turns of a provider that numbers its calls afresh in every reply. */
  const FIRST_EDIT := CallTurn("gemini_tool_1", "write_file", "{\"path\":\"p\"}", "Wrote p")
  const SECOND_EDIT := CallTurn("gemini_tool_1", "write_file", "{\"path\":\"q\"}", "Wrote q")

  lemma EditsAreRead()
    ensures Field("path", "{\"path\":\"p\"}") == "p" && Field("path", "{\"path\":\"q\"}") == "q"
  {
    assert "{\"" + "path" + "\":\"" == "{\"path\":\"";
    assert "{\"path\":\"p\"}"[9..10] == "p" && "{\"path\":\"p\"}"[10..] == "\"}";
    assert "{\"path\":\"q\"}"[9..10] == "q" && "{\"path\":\"q\"}"[10..] == "\"}";
    OneLetter('p');
    OneLetter('q');
  }

  lemma OneLetter(c: char)
    requires !IsSpace(c)
    ensures TrimSpace([c]) == [c]
  {
    assert TrimLeft([c]) == [c];
  }

  lemma NotesAreRead()
    ensures EditNote("Wrote p") == "Wrote p" && EditNote("Wrote q") == "Wrote q"
  {
    hide FirstLine;
    assert FirstLine("Wrote p") == "Wrote p" && FirstLine("Wrote q") == "Wrote q";
    assert TrimLeft("Wrote p") == "Wrote p" && TrimLeft("Wrote q") == "Wrote q";
  }

  lemma OneEdit(path: string, arguments: string, note: string, output: string)
    requires Field("path", arguments) == path != "" && EditNote(output) == note
    ensures var ms := CallTurn("gemini_tool_1", "write_file", arguments, output);
            && EditPaths(JsonCodec(), CallsOf(ms)) == [path]
            && ByID(EditSource(JsonCodec()), CallsOf(ms)) == map["gemini_tool_1" := path]
            && EventsOf(EditSource(JsonCodec()), ms) == [Entry(path, note)]
            && RecentEditsSpec(JsonCodec(), ms) == [Entry(path, note)]
  {
    hide Field, EditNote, Encode, Decode, EventsWith, CallsOf, ByID, Bodies, EditPaths, LastSeen;
    var codec := JsonCodec();
    var src, c := EditSource(codec), ToolCall("gemini_tool_1", "write_file", arguments);
    CallsOfTurn(c.id, c.name, c.arguments, output);
    TableOfTurn(src, c);
    EventsOfTurn(src, c.id, c.name, c.arguments, output, map["gemini_tool_1" := path]);
    OneEntry(Entry(path, note));
    EditPathsStep(codec, [], c);
    NoPaths(codec);
    assert [] + [c] == [c];
    PathIsKey(c.id, arguments);
    assert EditPaths(codec, [] + [c]) == [] + [path];
    LastSeenStep(path, []);
    NoEntry();
    assert [path] + [] == [path];
  }

  lemma PathIsKey(id: string, arguments: string)
    requires Field("path", arguments) != ""
    ensures EditSource(JsonCodec()).key(ToolCall(id, "write_file", arguments)) == Some(Field("path", arguments))
    ensures JsonCodec().editPath(arguments) == Field("path", arguments)
  {
    hide Field, EditNote, Encode, Decode, PlanText, CapBody;
    var codec := JsonCodec();
    assert codec.editPath(arguments) == Field("path", arguments);
    assert IsEditCall(ToolCall(id, "write_file", arguments));
  }

  lemma NoPaths(codec: Codec)
    ensures EditPaths(codec, []) == []
  {
  }

  /** Elided in two compactions, both edits keep their notes; elided in one, both results are filed under the
      later call, and the earlier edit has no note. */
  lemma ReusedIDIsLost()
    ensures var codec, a, b := JsonCodec(), FIRST_EDIT, SECOND_EDIT;
            && EditsFiled(codec, CallsOf(b)) && !NoReuse(codec, CallsOf(a), CallsOf(b))
            && Combine(Extract(codec, a), Extract(codec, b)).edits == [Entry("p", "Wrote p"), Entry("q", "Wrote q")]
            && Extract(codec, a + b).edits == [Entry("p", ""), Entry("q", "Wrote q")]
  {
    hide Field, EditNote, Encode, Decode, EventsWith, ByID, Bodies, EditPaths, LastSeen, RecentEditsSpec, MergeEditsSpec;
    hide PlanIn, Latest, InstructionEvents;
    var codec := JsonCodec();
    EditsAreRead();
    NotesAreRead();
    OneEdit("p", "{\"path\":\"p\"}", "Wrote p", "Wrote p");
    OneEdit("q", "{\"path\":\"q\"}", "Wrote q", "Wrote q");
    TwoEditsMerge();
    TwoEditsExtract();
    CallsOfTurn("gemini_tool_1", "write_file", "{\"path\":\"p\"}", "Wrote p");
    CallsOfTurn("gemini_tool_1", "write_file", "{\"path\":\"q\"}", "Wrote q");
    EditsAreFiled(CallsOf(FIRST_EDIT), CallsOf(SECOND_EDIT));
  }

  lemma EditsAreFiled(x: seq<ToolCall>, y: seq<ToolCall>)
    requires x == [ToolCall("gemini_tool_1", "write_file", "{\"path\":\"p\"}")]
    requires y == [ToolCall("gemini_tool_1", "write_file", "{\"path\":\"q\"}")]
    requires EditPaths(JsonCodec(), y) == ["q"] && ByID(EditSource(JsonCodec()), y) == map["gemini_tool_1" := "q"]
    ensures EditsFiled(JsonCodec(), y) && !NoReuse(JsonCodec(), x, y)
  {
    hide Field, EditNote, Encode, Decode;
    EditsAreRead();
    assert ByID(EditSource(JsonCodec()), y)["gemini_tool_1"] == "q";
    assert IsStateCall(JsonCodec(), x[0]);
  }

  lemma TwoEditsMerge()
    ensures CapRecentEdits(MergeEditsSpec([Entry("p", "Wrote p")], [Entry("q", "Wrote q")]))
            == [Entry("p", "Wrote p"), Entry("q", "Wrote q")]
  {
    var p, q := Entry("p", "Wrote p"), Entry("q", "Wrote q");
    OneEntry(q);
    assert NamesOf([q]) == ["q"];
    assert Without([p], ["q"]) == [p] by {
      assert [p][1..] == [] && Without([], ["q"]) == [];
    }
  }

  lemma TwoEditsFiled()
    ensures var src, ms := EditSource(JsonCodec()), FIRST_EDIT + SECOND_EDIT;
            && ByID(src, CallsOf(ms)) == map["gemini_tool_1" := "q"]
            && EditPaths(JsonCodec(), CallsOf(ms)) == ["p"] + ["q"]
  {
    hide Field, EditNote, Encode, Decode, EventsWith, CallsOf, ByID, EditPaths, RecentEditsSpec;
    var codec := JsonCodec();
    EditsAreRead();
    NotesAreRead();
    OneEdit("p", "{\"path\":\"p\"}", "Wrote p", "Wrote p");
    OneEdit("q", "{\"path\":\"q\"}", "Wrote q", "Wrote q");
    CallsOfConcat(FIRST_EDIT, SECOND_EDIT);
    ByIDConcat(EditSource(codec), CallsOf(FIRST_EDIT), CallsOf(SECOND_EDIT));
    EditPathsConcat(codec, CallsOf(FIRST_EDIT), CallsOf(SECOND_EDIT));
  }

  lemma TwoEditsNoted()
    ensures EventsOf(EditSource(JsonCodec()), FIRST_EDIT + SECOND_EDIT) == [Entry("q", "Wrote p")] + [Entry("q", "Wrote q")]
  {
    hide Field, EditNote, Encode, Decode, EventsWith, CallsOf, ByID, EditPaths;
    var src, table := EditSource(JsonCodec()), map["gemini_tool_1" := "q"];
    NotesAreRead();
    TwoEditsFiled();
    EventsWithConcat(src, FIRST_EDIT, SECOND_EDIT, table);
    EventsOfTurn(src, "gemini_tool_1", "write_file", "{\"path\":\"p\"}", "Wrote p", table);
    EventsOfTurn(src, "gemini_tool_1", "write_file", "{\"path\":\"q\"}", "Wrote q", table);
  }

  lemma TwoEditsExtract()
    ensures RecentEditsSpec(JsonCodec(), FIRST_EDIT + SECOND_EDIT) == [Entry("p", ""), Entry("q", "Wrote q")]
  {
    hide EventsOf, CallsOf, Bodies, EditPaths, LastSeen;
    var first, last := Entry("q", "Wrote p"), Entry("q", "Wrote q");
    TwoEditsFiled();
    TwoEditsNoted();
    BodiesStep([first], last);
    OneEntry(first);
    TwoPaths();
  }

  lemma TwoPaths()
    ensures LastSeen(["p"] + ["q"]) == ["p", "q"]
  {
    LastSeenStep("p", ["q"]);
    LastSeenStep("q", []);
    assert ["q"] + [] == ["q"];
  }

  // ---------------------------------------------------------------------------------------------
  // A pruned skill
  // ---------------------------------------------------------------------------------------------

  function Long(n: nat): string { seq(n, _ => 'a') }

  lemma {:induction false} LongTokens(n: nat)
    ensures NonSpace(Long(n)) == n
  {
    if n > 0 {
      assert Long(n)[..n - 1] == Long(n - 1);
      LongTokens(n - 1);
    }
  }

  /** What the reading tool gives for a file of one long line. */
  const FILE_HEADER := "File: a (1 lines)\n\n1 | "

  function FileOf(n: nat): string { FILE_HEADER + Long(n) }

  function Reading(id: string): Message { Calling(id, "read_file", "{\"path\":\"a\"}") }

  /** A skill is loaded and a long file read three times. */
  function SkillThenReads(body: string, file: string): seq<Message> {
    [Message(System, "s", [], "", 0), Note("u"), Calling("s", "skill", "{\"name\":\"k\"}"), ResultMessage("s", body),
     Reading("r1"), ResultMessage("r1", file), Reading("r2"), ResultMessage("r2", file), Reading("r3"), ResultMessage("r3", file)]
  }

  lemma SkillIsNamed()
    ensures Field("name", "{\"name\":\"k\"}") == "k"
  {
    assert "{\"" + "name" + "\":\"" == "{\"name\":\"";
    assert "{\"name\":\"k\"}"[9..10] == "k" && "{\"name\":\"k\"}"[10..] == "\"}";
    OneLetter('k');
  }

  lemma {:induction false} NonSpaceConcat(a: string, b: string)
    ensures NonSpace(a + b) == NonSpace(a) + NonSpace(b)
  {
    if b == [] {
      assert a + b == a;
    } else {
      assert (a + b)[..|a + b| - 1] == a + b[..|b| - 1];
      NonSpaceConcat(a, b[..|b| - 1]);
    }
  }

  lemma FileTokens(n: nat)
    ensures n / 4 <= Tokens(FileOf(n))
  {
    hide NonSpace;
    NonSpaceConcat(FILE_HEADER, Long(n));
    LongTokens(n);
  }

  lemma FirstIsKept(s: string)
    requires s != "" && !IsSpace(s[0]) && s[0] != '['
    ensures !IsPlaceholder(s) && TrimSpace(s) != "" && TrimSpace(s)[0] == s[0]
  {
    TrimKeepsFirst(s);
  }

  lemma {:induction false} ReclaimableFrom(ms: seq<Message>, keep: int, i: nat, j: nat)
    requires i <= j <= |ms|
    ensures Reclaimable(ms, keep, j) <= Reclaimable(ms, keep, i)
    decreases j - i
  {
    if i < j {
      ReclaimableFrom(ms, keep, i + 1, j);
    }
  }

  /** Skill and first reading lie behind the protected window, and are worth pruning together. */
  lemma SkillIsPrunable(ms: seq<Message>, body: string, file: string)
    requires ms == SkillThenReads(body, file) && Tokens(file) >= 25000 && Tokens(body) >= MIN_BODY_TOKENS
    requires !IsPlaceholder(body) && !IsPlaceholder(file)
    ensures Prunable(ms, 0, 3) && !Prunable(ms, 0, 1) && !Prunable(ms, 0, 2) && Reclaimable(ms, 0, 0) >= MIN_RECLAIM_TOKENS
  {
    hide IsPlaceholder, Tokens, Reclaimable;
    assert ToolTokensFrom(ms, 10) == 0;
    assert ToolTokensFrom(ms, 9) == Tokens(file);
    assert ToolTokensFrom(ms, 8) == Tokens(file);
    assert ToolTokensFrom(ms, 7) == 2 * Tokens(file);
    assert ToolTokensFrom(ms, 6) == 2 * Tokens(file);
    assert ToolTokensFrom(ms, 5) == 3 * Tokens(file);
    assert ToolTokensFrom(ms, 4) == 3 * Tokens(file);
    ReclaimableHere(ms, 0, 5);
    ReclaimableFrom(ms, 0, 0, 5);
  }

  lemma ReclaimableHere(ms: seq<Message>, keep: int, i: nat)
    requires i < |ms| && Prunable(ms, keep, i)
    ensures Reclaimable(ms, keep, i) >= Tokens(ms[i].content)
  {
  }

  lemma SkillCalls(body: string, file: string)
    ensures CallsOf(SkillThenReads(body, file)[1..4]) == [ToolCall("s", "skill", "{\"name\":\"k\"}")]
  {
    var ms, turn := SkillThenReads(body, file)[1..4], CallTurn("s", "skill", "{\"name\":\"k\"}", body);
    assert ms == [Note("u")] + turn;
    CallsOfConcat([Note("u")], turn);
    CallsOfTurn("s", "skill", "{\"name\":\"k\"}", body);
    assert [Note("u")][..0] == [];
    assert CallsOf([Note("u")]) == CallsOf([]) + [] == [];
  }

  lemma SkillTables(body: string, file: string)
    ensures ByID(SkillSource(JsonCodec()), CallsOf(SkillThenReads(body, file)[1..4])) == map["s" := "k"]
    ensures ByID(EditSource(JsonCodec()), CallsOf(SkillThenReads(body, file)[1..4])) == map[]
  {
    hide Field, EditNote, Encode, Decode, PlanText, CapBody, CallsOf;
    var c := ToolCall("s", "skill", "{\"name\":\"k\"}");
    SkillIsNamed();
    SkillCalls(body, file);
    assert JsonCodec().skillName(c.arguments) == "k" && !IsEditCall(c);
    TableOfTurn(SkillSource(JsonCodec()), c);
    TableOfTurn(EditSource(JsonCodec()), c);
  }

  lemma SkillDecides(body: string, file: string)
    requires TrimSpace(body) != ""
    ensures var seg := SkillThenReads(body, file)[1..4];
            && DecidesSkill(JsonCodec(), seg, 2) && SaysOf(EditSource(JsonCodec()), seg, 2) == []
  {
    hide TrimSpace, ByID, CallsOf, Field, EditNote, Encode, Decode, PlanText, CapBody;
    SkillTables(body, file);
  }

  /** The cap keeps the beginning, so it tells a placeholder from anything else. */
  lemma CapTells(a: string, b: string)
    requires a != "" && a[0] == 'a' && b != "" && b[0] == '['
    requires |a| > MAX_SKILL_BYTES && a[MAX_SKILL_BYTES - |TRUNCATION_NOTE|] == 'a'
    ensures CapBody(a) != CapBody(b)
  {
    assert CapBody(a)[0] == 'a';
    if |b| > MAX_SKILL_BYTES && CutBack(b, MAX_SKILL_BYTES - |TRUNCATION_NOTE|) == 0 {
      assert CapBody(b) == [] + TRUNCATION_NOTE;
    } else {
      assert CapBody(b)[0] == b[0];
    }
  }

  lemma PlaceholderStarts(name: string, tokens: nat)
    ensures TrimSpace(Placeholder(name, tokens)) != "" && TrimSpace(Placeholder(name, tokens))[0] == '['
  {
    hide TrimSpace, Decimal;
    PlaceholderIsPlaceholder(name, tokens);
  }

  lemma LongIsTrimmed(n: nat)
    requires n > 0
    ensures TrimSpace(Long(n)) == Long(n)
  {
    assert Long(n)[0] == 'a' && Long(n)[n - 1] == 'a';
  }

  lemma SkillIsTold(ms: seq<Message>, file: string)
    requires ms == SkillThenReads(Long(48000), file) && !Prunable(ms, 0, 1) && !Prunable(ms, 0, 2)
    ensures TellsPlaceholders(JsonCodec(), ms, 0, 1, 4)
  {
    hide Prunable, Placeholder, SaysOf, CapBody, Encode, Decode, EditNote, Field, PlanText, TrimSpace;
    LongIsTrimmed(48000);
    SkillDecides(Long(48000), file);
    PlaceholderStarts(ToolName(ms, 3), Tokens(ms[3].content));
    var placed := TrimSpace(PrunedBody(ms, 3));
    CapTells(Long(48000), placed);
    assert ms[1..4][2] == ms[3];
    assert JsonCodec().capBody(Long(48000)) != JsonCodec().capBody(placed);
  }

  lemma MiddleOfTen(ms: seq<Message>)
    requires |ms| == 10 && ms[0].role == System && ms[1].role != System && ms[4].role == Assistant
    ensures Middle(ms, 0) == ms[1..4]
  {
    SystemEndIs(ms, 1);
  }

  /** The skill is pruned before the compaction that elides it, and the state carries the placeholder. No
      result is larger than its tool lets it be. */
  lemma PrunedSkillIsLost()
    ensures var codec, ms := JsonCodec(), SkillThenReads(Long(48000), FileOf(100000));
            && |Long(48000)| <= OUTPUT_CEILING_TOKENS * 4 && |FileOf(100000)| <= READ_BUDGET_BYTES
            && Extract(codec, Middle(Pruned(ms, 0).0, 0)) != Extract(codec, Middle(ms, 0))
  {
    hide Prunable, Reclaimable, Placeholder, Extract, IsPlaceholder, Tokens, TrimSpace, Encode, Decode, EditNote, Field, PlanText, CapBody;
    hide DecidesSkill, TellsPlaceholders, Middle, PrunedBody;
    var codec, ms := JsonCodec(), SkillThenReads(Long(48000), FileOf(100000));
    BodiesAreLarge();
    SkillIsPrunable(ms, Long(48000), FileOf(100000));
    SkillIsTold(ms, FileOf(100000));
    SkillDecides(Long(48000), FileOf(100000));
    PruneKeepsPairing(ms, 0);
    var out := Pruned(ms, 0).0;
    assert SameButBody(ms[0], out[0]) && SameButBody(ms[1], out[1]) && SameButBody(ms[4], out[4]);
    MiddleOfTen(ms);
    MiddleOfTen(out);
    PrunedStateIff(codec, ms, 0, 1, 4);
  }

  lemma BodiesAreLarge()
    ensures Tokens(FileOf(100000)) >= 25000 && Tokens(Long(48000)) == 12000
    ensures !IsPlaceholder(FileOf(100000)) && !IsPlaceholder(Long(48000)) && TrimSpace(Long(48000)) != ""
  {
    hide NonSpace, IsPlaceholder, TrimSpace;
    LongTokens(48000);
    FileTokens(100000);
    FirstIsKept(Long(48000));
    FirstIsKept(FileOf(100000));
  }

  // ---------------------------------------------------------------------------------------------
  // States that do not come back
  // ---------------------------------------------------------------------------------------------

  /** Text that is written as it stands. */
  ghost predicate Plain(s: string) {
    forall i | 0 <= i < |s| :: s[i] < '\U{7F}' && s[i] != '\n' && s[i] != '\\' && s[i] != '"'
  }

  lemma PlainConcat(a: string, b: string)
    requires Plain(a) && Plain(b)
    ensures Plain(a + b)
  {
  }

  lemma FrontIsPlain()
    ensures Plain("(active plan + ") && Plain(" Preserved state ") && Plain("##") && Plain("- [pending] ")
  {
  }

  lemma BackIsPlain()
    ensures Plain("carried across ") && Plain("compaction)") && Plain("loaded skills; ")
  {
  }

  lemma LabelIsPlain()
    ensures Plain(PRESERVED_LABEL) && |PRESERVED_LABEL| > 20
    ensures PRESERVED_LABEL[0] == '#' && PRESERVED_LABEL[|PRESERVED_LABEL| - 1] == ')'
  {
    hide Plain;
    FrontIsPlain();
    BackIsPlain();
    PlainConcat("carried across ", "compaction)");
    PlainConcat("loaded skills; ", "carried across " + "compaction)");
    PlainConcat("(active plan + ", "loaded skills; " + ("carried across " + "compaction)"));
    PlainConcat(" Preserved state ", "(active plan + " + ("loaded skills; " + ("carried across " + "compaction)")));
    PlainConcat("##", LABEL_TEXT);
  }

  lemma {:induction false} PlainQuoted(s: string)
    requires Plain(s)
    ensures Quoted(s) == s + "\""
  {
    if s != [] {
      PlainQuoted(s[1..]);
      assert s == [s[0]] + s[1..];
    }
  }

  // ---- a plan that quotes the label ----

  function PlanOnly(plan: string): PreservedState { PreservedState(plan, [], [], [], []) }

  function PlanArguments(content: string): string { "{\"plan\":[{\"content\":\"" + content + "\"}]}" }

  lemma PlanIsRead(content: string)
    requires content != "" && !IsSpace(content[0]) && !IsSpace(content[|content| - 1])
    ensures PlanText(PlanArguments(content)) == "- [pending] " + content
  {
    var open, close := "{\"plan\":[{\"content\":\"", "\"}]}";
    var all := PlanArguments(content);
    assert all[|open|..|all| - |close|] == content && all[|all| - |close|..] == close;
    assert TrimLeft(content) == content;
  }

  lemma PlanTurn(content: string)
    requires PlanText(PlanArguments(content)) != ""
    ensures Extract(JsonCodec(), CallTurn("c", "update_plan", PlanArguments(content), "")) == PlanOnly(PlanText(PlanArguments(content)))
  {
    hide PlanText, PlanArguments, Field, EditNote, CapBody, Encode, Decode, EventsWith, CallsOf, ByID, EditPaths, PlanIn, InstructionEvents;
    var codec, ms := JsonCodec(), CallTurn("c", "update_plan", PlanArguments(content), "");
    var c := ToolCall("c", "update_plan", PlanArguments(content));
    CallsOfTurn(c.id, c.name, c.arguments, "");
    PlanStep(codec, [], c);
    assert [] + [c] == [c];
    assert codec.planText(c.arguments) == PlanText(PlanArguments(content));
    PlanIsNoOther(codec, c, "");
    NoInstructions(codec, c.id, c.name, c.arguments, "");
  }

  lemma NoInstructions(codec: Codec, id: string, name: string, arguments: string, output: string)
    ensures InstructionEvents(codec, CallTurn(id, name, arguments, output)) == []
  {
    var ms := CallTurn(id, name, arguments, output);
    assert ms[..1][..0] == [];
    assert InstructionEvents(codec, ms[..1]) == InstructionEvents(codec, []) + InstructionOf(codec, ms[0]);
  }

  /** A plan update is read for nothing but its plan. */
  lemma PlanIsNoOther(codec: Codec, c: ToolCall, output: string)
    requires c.name == "update_plan"
    ensures var ms := CallTurn(c.id, c.name, c.arguments, output);
            && RecentEditsSpec(codec, ms) == [] && Latest(EventsOf(ToolSource(codec), ms)) == []
            && Latest(EventsOf(SkillSource(codec), ms)) == []
  {
    hide EventsWith, CallsOf, ByID, EditPaths, Latest, LastSeen, Bodies;
    CallsOfTurn(c.id, c.name, c.arguments, output);
    NothingFiled(codec, EditSource(codec), c, output);
    NothingFiled(codec, SkillSource(codec), c, output);
    NothingFiled(codec, ToolSource(codec), c, output);
    EditPathsStep(codec, [], c);
    NoPaths(codec);
    assert [] + [c] == [c];
    NoEntry();
  }

  lemma NothingFiled(codec: Codec, src: Source, c: ToolCall, output: string)
    requires src.key(c).None?
    ensures EventsOf(src, CallTurn(c.id, c.name, c.arguments, output)) == []
  {
    hide EventsWith, CallsOf, ByID;
    CallsOfTurn(c.id, c.name, c.arguments, output);
    TableOfTurn(src, c);
    EventsOfTurn(src, c.id, c.name, c.arguments, output, map[]);
  }

  lemma EncodePlan(plan: string)
    requires Plain(plan)
    ensures |Encode(PlanOnly(plan))| > 0 && plan <= Encode(PlanOnly(plan))[1..]
  {
    PlainQuoted(plan);
    var rest := Listed([]) + (Listed([]) + (Listed([]) + (Listed([]) + "}")));
    assert Encode(PlanOnly(plan))[1..] == plan + ("\"" + rest);
  }

  lemma LabelOccurs(front: string)
    requires Plain(front)
    ensures Occurs(PRESERVED_LABEL, Encode(PlanOnly(front + PRESERVED_LABEL)))
  {
    hide Encode, Plain;
    var plan := front + PRESERVED_LABEL;
    LabelIsPlain();
    PlainConcat(front, PRESERVED_LABEL);
    EncodePlan(plan);
    OccursBehind(front, PRESERVED_LABEL, Encode(PlanOnly(plan)));
  }

  lemma OccursBehind(front: string, pattern: string, line: string)
    requires |line| > 0 && front + pattern <= line[1..]
    ensures Occurs(pattern, line)
  {
    var i := 1 + |front|;
    assert line[i..] == line[1..][|front|..];
    assert line[1..][..|front| + |pattern|] == front + pattern;
    assert pattern <= line[i..];
  }

  lemma {:induction false} PlainIsText(s: string)
    requires Plain(s)
    ensures IsText(s)
  {
    AsciiIsText(s);
  }

  /** A plan item that is the label: valid text, and lost. */
  lemma LabelledPlanIsLost(prefix: string)
    ensures var codec, state := JsonCodec(), Extract(JsonCodec(), CallTurn("c", "update_plan", PlanArguments(PRESERVED_LABEL), ""));
            && JsonLike(codec) && ValidState(state) && state == PlanOnly("- [pending] " + PRESERVED_LABEL)
            && ParsePreservedStateBlock(codec, prefix + FormatPreservedState(codec, state)) != state
  {
    hide Encode, Decode, Extract, PlanText, PlanArguments, Plain, Occurs, IsText, ParsePreservedStateBlock, FormatPreservedState, JsonLike;
    var codec, plan := JsonCodec(), "- [pending] " + PRESERVED_LABEL;
    CodecIsJsonLike();
    LabelIsPlain();
    FrontIsPlain();
    PlainConcat("- [pending] ", PRESERVED_LABEL);
    PlainIsText(plan);
    NothingIsText();
    PlanIsRead(PRESERVED_LABEL);
    PlanTurn(PRESERVED_LABEL);
    LabelOccurs("- [pending] ");
    BlockRoundTrip(codec, prefix, PlanOnly(plan));
  }

  lemma NothingIsText()
    ensures IsText("")
  {
    AsciiIsText("");
  }

  // ---- a skill with a byte that is no text ----

  function SkillOnly(body: string): PreservedState { PreservedState("", [], [], [Entry("k", body)], []) }

  lemma SkillTurn(body: string)
    requires TrimSpace(body) == body != "" && |body| <= MAX_SKILL_BYTES
    ensures Extract(JsonCodec(), CallTurn("s", "skill", "{\"name\":\"k\"}", body)) == SkillOnly(body)
  {
    hide PlanText, Field, EditNote, Encode, Decode, EventsWith, CallsOf, ByID, EditPaths, PlanIn, InstructionEvents, Latest, TrimSpace;
    hide LastSeen, Bodies;
    var codec, c := JsonCodec(), ToolCall("s", "skill", "{\"name\":\"k\"}");
    SkillIsNamed();
    CallsOfTurn(c.id, c.name, c.arguments, body);
    PlanStep(codec, [], c);
    EditPathsStep(codec, [], c);
    NoPaths(codec);
    NoPlan(codec);
    assert [] + [c] == [c];
    NoEntry();
    NothingFiled(codec, EditSource(codec), c, body);
    NothingFiled(codec, ToolSource(codec), c, body);
    SkillFiled(c, body);
    OneEntry(Entry("k", body));
    NoInstructions(codec, c.id, c.name, c.arguments, body);
  }

  lemma NoPlan(codec: Codec)
    ensures PlanIn(codec, []) == ""
  {
  }

  lemma SkillFiled(c: ToolCall, body: string)
    requires c == ToolCall("s", "skill", "{\"name\":\"k\"}") && TrimSpace(body) == body != "" && |body| <= MAX_SKILL_BYTES
    ensures EventsOf(SkillSource(JsonCodec()), CallTurn(c.id, c.name, c.arguments, body)) == [Entry("k", body)]
  {
    hide PlanText, Field, EditNote, Encode, Decode, EventsWith, CallsOf, ByID, TrimSpace;
    var src := SkillSource(JsonCodec());
    SkillIsNamed();
    assert JsonCodec().skillName(c.arguments) == "k" && JsonCodec().capBody(body) == body;
    CallsOfTurn(c.id, c.name, c.arguments, body);
    TableOfTurn(src, c);
    EventsOfTurn(src, c.id, c.name, c.arguments, body, map["s" := "k"]);
  }

  lemma ShortEncoding()
    ensures |Encode(SkillOnly("\U{FF}"))| <= 20
  {
    var e := Entry("k", "\U{FF}");
    assert Quoted("k") == "k" + Quoted("k"[1..]) && Quoted("\U{FF}") == "\U{FF}" + Quoted("\U{FF}"[1..]);
    assert "k"[1..] == "" && "\U{FF}"[1..] == "" && [e][1..] == [];
    assert Listed([e]) == "," + (Quoted("k") + (Quoted("\U{FF}") + Listed([])));
  }

  /** A skill whose body holds a byte that is no text: no label anywhere, and lost all the same. */
  lemma BrokenByteSkillIsLost(prefix: string)
    ensures var codec, state := JsonCodec(), Extract(JsonCodec(), CallTurn("s", "skill", "{\"name\":\"k\"}", "\U{FF}"));
            && JsonLike(codec) && !Occurs(PRESERVED_LABEL, codec.encode(state)) && state == SkillOnly("\U{FF}")
            && ParsePreservedStateBlock(codec, prefix + FormatPreservedState(codec, state)) != state
  {
    hide Decode, Encode, Extract, ParsePreservedStateBlock, FormatPreservedState, JsonLike;
    var codec, state := JsonCodec(), SkillOnly("\U{FF}");
    CodecIsJsonLike();
    LabelIsPlain();
    ShortEncoding();
    OneLetter('\U{FF}');
    SkillTurn("\U{FF}");
    assert !IsText("\U{FF}") by {
      assert AsBytes("\U{FF}")[0] == 0xFF;
    }
    assert !ValidEntries(state.skills) by {
      assert state.skills[0].body == "\U{FF}";
    }
    BlockRoundTrip(codec, prefix, state);
  }
}
