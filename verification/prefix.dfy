/** Command-prefix approval: what prefix to propose for a shell command, and which later commands the
    granted prefixes cover. Both walk the same flattened shell tree. */
module CommandPrefix {
  import opened Text

  datatype Op = AndThen | OrElse | Pipe | OtherOp

  /** A word of a call: one literal part, or anything that needs expansion. */
  datatype Word = Literal(value: string) | Expansion

  /** `plain` is false for negated, background, coprocess, disowned or redirected statements. */
  datatype Stmt = Stmt(plain: bool, cmd: Cmd)

  datatype Cmd = Call(assigns: nat, words: seq<Word>) | Binary(op: Op, x: Stmt, y: Stmt) | Compound

  type Tokens = seq<string>

  datatype Grant = Grant(tool: string, prefix: Tokens)

  /** What a tool call's argument may hold. */
  datatype Value = String(text: string) | Strings(texts: seq<string>) | Mixed(items: seq<Option<string>>) | OtherValue

  type Args = map<string, Value>

  /** The parser and the two token tests, as the shell library and the sandbox provide them. */
  datatype Shell = Shell(parse: string -> Option<seq<Stmt>>, knownSafe: Tokens -> bool, unsafe: Tokens -> bool)

  // ---------------------------------------------------------------------------------------------
  // Flattening
  // ---------------------------------------------------------------------------------------------

  predicate HasGlob(s: string) {
    exists i :: 0 <= i < |s| && s[i] in "*?[]{}"
  }

  predicate LiteralCall(words: seq<Word>) {
    words != [] && forall i | 0 <= i < |words| :: words[i].Literal? && !HasGlob(words[i].value)
  }

  function WordTexts(words: seq<Word>): Tokens
    requires forall i | 0 <= i < |words| :: words[i].Literal?
  {
    seq(|words|, i requires 0 <= i < |words| => words[i].value)
  }

  /** The commands a statement would run, in order, if it is one the approval understands. */
  function Flatten(stmt: Stmt): Option<seq<Tokens>> {
    if !stmt.plain then None else FlattenCmd(stmt.cmd)
  }

  function FlattenCmd(cmd: Cmd): Option<seq<Tokens>> {
    match cmd
    case Call(assigns, words) => if assigns == 0 && LiteralCall(words) then Some([WordTexts(words)]) else None
    case Binary(op, x, y) =>
      if op.OtherOp? || Flatten(x).None? || Flatten(y).None? then None else Some(Flatten(x).value + Flatten(y).value)
    case Compound => None
  }

  function FlattenAll(stmts: seq<Stmt>): Option<seq<Tokens>> {
    if stmts == [] then Some([])
    else
      var before, last := FlattenAll(stmts[..|stmts| - 1]), Flatten(stmts[|stmts| - 1]);
      if before.None? || last.None? then None else Some(before.value + last.value)
  }

  /** The trees that count as understood: literal commands joined by and, or and pipe. */
  datatype Tree = Leaf(tokens: Tokens) | Join(op: Op, left: Tree, right: Tree)

  ghost predicate Proper(t: Tree) {
    match t
    case Leaf(tokens) => tokens != [] && forall i | 0 <= i < |tokens| :: !HasGlob(tokens[i])
    case Join(op, l, r) => !op.OtherOp? && Proper(l) && Proper(r)
  }

  function Fringe(t: Tree): seq<Tokens> {
    match t
    case Leaf(tokens) => [tokens]
    case Join(_, l, r) => Fringe(l) + Fringe(r)
  }

  /** The statement a tree is written as. */
  function AsStmt(t: Tree): Stmt {
    match t
    case Leaf(tokens) => Stmt(true, Call(0, seq(|tokens|, i requires 0 <= i < |tokens| => Literal(tokens[i]))))
    case Join(op, l, r) => Stmt(true, Binary(op, AsStmt(l), AsStmt(r)))
  }

  /** Every proper tree is flattened to its leaves, in order ... */
  lemma {:induction false} FlattensTrees(t: Tree)
    requires Proper(t)
    ensures Flatten(AsStmt(t)) == Some(Fringe(t))
  {
    match t
    case Leaf(tokens) => assert WordTexts(AsStmt(t).cmd.words) == tokens;
    case Join(op, l, r) =>
      FlattensTrees(l);
      FlattensTrees(r);
  }

  /** ... and nothing else is flattened at all. */
  lemma {:induction false} FlattensOnlyTrees(stmt: Stmt) returns (t: Tree)
    requires Flatten(stmt).Some?
    ensures Proper(t) && AsStmt(t) == stmt && Flatten(stmt).value == Fringe(t)
    decreases stmt
  {
    match stmt.cmd
    case Call(assigns, words) =>
      t := Leaf(WordTexts(words));
      assert AsStmt(t).cmd.words == words;
    case Binary(op, x, y) =>
      var l := FlattensOnlyTrees(x);
      var r := FlattensOnlyTrees(y);
      t := Join(op, l, r);
  }

  method LiteralCallTokens(assigns: nat, words: seq<Word>) returns (tokens: Option<Tokens>)
    ensures tokens.Some? <==> assigns == 0 && LiteralCall(words)
    ensures tokens.Some? ==> tokens.value == WordTexts(words)
  {
    if assigns > 0 || |words| == 0 {
      return None;
    }
    var out: Tokens := [];
    for i := 0 to |words|
      invariant |out| == i && forall k | 0 <= k < i :: words[k].Literal? && !HasGlob(words[k].value) && out[k] == words[k].value
    {
      if !words[i].Literal? || HasGlob(words[i].value) {
        return None;
      }
      out := out + [words[i].value];
    }
    tokens := Some(out);
  }

  method CollectStatement(stmt: Stmt, segments0: seq<Tokens>) returns (ok: bool, segments: seq<Tokens>)
    ensures ok <==> Flatten(stmt).Some?
    ensures ok ==> segments == segments0 + Flatten(stmt).value
    decreases stmt, 1
  {
    if !stmt.plain {
      return false, segments0;
    }
    ok, segments := CollectCommand(stmt.cmd, segments0);
  }

  method CollectCommand(cmd: Cmd, segments0: seq<Tokens>) returns (ok: bool, segments: seq<Tokens>)
    ensures ok <==> FlattenCmd(cmd).Some?
    ensures ok ==> segments == segments0 + FlattenCmd(cmd).value
    decreases cmd, 0
  {
    match cmd {
      case Call(assigns, words) =>
        var tokens := LiteralCallTokens(assigns, words);
        if tokens.None? {
          return false, segments0;
        }
        return true, segments0 + [tokens.value];
      case Binary(op, x, y) =>
        if op.OtherOp? {
          return false, segments0;
        }
        ok, segments := CollectStatement(x, segments0);
        if ok {
          ok, segments := CollectStatement(y, segments);
        }
        return;
      case Compound => return false, segments0;
    }
  }

  function Segments(shell: Shell, command: string): Option<seq<Tokens>> {
    if TrimSpace(command) == "" || shell.parse(TrimSpace(command)).None? then None
    else
      var all := FlattenAll(shell.parse(TrimSpace(command)).value);
      if all.Some? && all.value == [] then None else all
  }

  method SafeShellCommandSegments(shell: Shell, command: string) returns (segments: Option<seq<Tokens>>)
    ensures segments == Segments(shell, command)
  {
    hide TrimSpace;
    var trimmed := TrimSpace(command);
    if trimmed == "" {
      return None;
    }
    var file := shell.parse(trimmed);
    if file.None? || |file.value| == 0 {
      return None;
    }
    var stmts, found := file.value, [];
    for i := 0 to |stmts|
      invariant FlattenAll(stmts[..i]) == Some(found)
    {
      assert stmts[..i + 1][..i] == stmts[..i];
      var ok;
      ok, found := CollectStatement(stmts[i], found);
      if !ok {
        FlattenStops(stmts, i + 1);
        return None;
      }
    }
    assert stmts[..|stmts|] == stmts;
    segments := if |found| == 0 then None else Some(found);
  }

  lemma {:induction false} FlattenStops(stmts: seq<Stmt>, k: nat)
    requires k <= |stmts| && FlattenAll(stmts[..k]).None?
    ensures FlattenAll(stmts).None?
  {
    if k < |stmts| {
      assert stmts[..|stmts| - 1][..k] == stmts[..k];
      FlattenStops(stmts[..|stmts| - 1], k);
    } else {
      assert stmts[..k] == stmts;
    }
  }

  // ---------------------------------------------------------------------------------------------
  // Prefixes and grants
  // ---------------------------------------------------------------------------------------------

  function Clean(prefix: Tokens): Tokens {
    seq(|prefix|, i requires 0 <= i < |prefix| => TrimSpace(prefix[i]))
  }

  /** The prefix as a grant would hold it; None when it may not be granted. */
  function Normalize(shell: Shell, prefix: Tokens): Option<Tokens> {
    if "" in Clean(prefix) || prefix == [] || shell.unsafe(Clean(prefix)) then None else Some(Clean(prefix))
  }

  predicate Begins(prefix: Tokens, command: Tokens) { prefix != [] && prefix <= command }

  ghost predicate CoveredBy(tool: string, grants: seq<Grant>, command: Tokens) {
    exists i :: 0 <= i < |grants| && Covers(tool, grants[i], command)
  }

  predicate Covers(tool: string, g: Grant, command: Tokens) { g.tool == tool && Begins(g.prefix, command) }

  /** The first grant that covers the command, in the order they were given. */
  function FirstGrant(tool: string, grants: seq<Grant>, command: Tokens): (g: Option<Grant>)
    ensures g.Some? <==> CoveredBy(tool, grants, command)
    ensures g.Some? ==> g.value in grants && Covers(tool, g.value, command)
  {
    if grants == [] then None
    else if Covers(tool, grants[0], command) then Some(grants[0])
    else
      assert forall i | 0 < i < |grants| :: grants[i] == grants[1..][i - 1];
      FirstGrant(tool, grants[1..], command)
  }

  method FindGrant(tool: string, grants: seq<Grant>, command: Tokens) returns (grant: Option<Grant>)
    ensures grant == FirstGrant(tool, grants, command)
  {
    for i := 0 to |grants|
      invariant FirstGrant(tool, grants, command) == FirstGrant(tool, grants[i..], command)
    {
      assert grants[i..][1..] == grants[i + 1..];
      if Covers(tool, grants[i], command) {
        return Some(grants[i]);
      }
    }
    grant := None;
  }

  /** Saved grants are consulted only for commands that could be prefixes themselves. */
  function SavedGrant(shell: Shell, tool: string, stored: seq<Grant>, command: Tokens): Option<Grant> {
    if Normalize(shell, command).None? then None else FirstGrant(tool, stored, command)
  }

  method LookupStored(shell: Shell, tool: string, stored: seq<Grant>, command: Tokens) returns (grant: Option<Grant>)
    ensures grant == SavedGrant(shell, tool, stored, command)
    ensures grant.Some? <==> Normalize(shell, command).Some? && CoveredBy(tool, stored, command)
  {
    hide Normalize;
    if Normalize(shell, command).None? {
      return None;
    }
    grant := FindGrant(tool, stored, command);
  }

  /** The grants of one kind after approving a prefix. */
  function WithGrant(shell: Shell, tool: string, grants: seq<Grant>, prefix: Tokens): seq<Grant> {
    match Normalize(shell, prefix)
    case None => grants
    case Some(clean) => if Grant(tool, clean) in grants then grants else grants + [Grant(tool, clean)]
  }

  // ---------------------------------------------------------------------------------------------
  // Proposing
  // ---------------------------------------------------------------------------------------------

  ghost predicate OthersSafe(shell: Shell, segments: seq<Tokens>, skip: nat) {
    forall j | 0 <= j < |segments| && j != skip :: shell.knownSafe(segments[j])
  }

  /** A prefix asked for by the caller may be offered. */
  ghost predicate SafeRequest(shell: Shell, prefix: Tokens, segments: seq<Tokens>) {
    && Normalize(shell, prefix).Some?
    && (forall j | 0 <= j < |segments| :: Begins(prefix, segments[j]) || shell.knownSafe(segments[j]))
    && exists j :: 0 <= j < |segments| && Begins(prefix, segments[j])
  }

  /** Segment `i` may be offered: it is the first that is not known safe, or the first of a safe lot. */
  ghost predicate SafeOffer(shell: Shell, segments: seq<Tokens>, i: nat) {
    && i < |segments| && Normalize(shell, segments[i]).Some? && OthersSafe(shell, segments, i)
    && (shell.knownSafe(segments[i]) ==> i == 0)
  }

  /** `requested` is None without a prefix rule, Some([]) for one that is no list of words. */
  ghost predicate Proposed(shell: Shell, segments: seq<Tokens>, requested: Option<Tokens>, prefix: Tokens) {
    if requested.Some? then prefix == requested.value && SafeRequest(shell, prefix, segments)
    else exists i: nat :: SafeOffer(shell, segments, i) && prefix == segments[i]
  }

  method SafeRequestedPrefix(shell: Shell, prefix: Tokens, segments: seq<Tokens>) returns (ok: bool)
    ensures ok <==> SafeRequest(shell, prefix, segments)
  {
    hide Normalize;
    if |prefix| == 0 || Normalize(shell, prefix).None? {
      return false;
    }
    var matched := false;
    for j := 0 to |segments|
      invariant forall k | 0 <= k < j :: Begins(prefix, segments[k]) || shell.knownSafe(segments[k])
      invariant matched <==> exists k :: 0 <= k < j && Begins(prefix, segments[k])
    {
      if Begins(prefix, segments[j]) {
        matched := true;
      } else if !shell.knownSafe(segments[j]) {
        return false;
      }
    }
    ok := matched;
  }

  method OtherSegmentsKnownSafe(shell: Shell, segments: seq<Tokens>, skip: nat) returns (ok: bool)
    ensures ok <==> OthersSafe(shell, segments, skip)
  {
    for j := 0 to |segments|
      invariant forall k | 0 <= k < j && k != skip :: shell.knownSafe(segments[k])
    {
      if j != skip && !shell.knownSafe(segments[j]) {
        return false;
      }
    }
    ok := true;
  }

  method OfferSegment(shell: Shell, segments: seq<Tokens>) returns (prefix: Option<Tokens>)
    ensures prefix.Some? ==> Proposed(shell, segments, None, prefix.value)
    ensures prefix.None? ==> forall p :: !Proposed(shell, segments, None, p)
  {
    hide Normalize;
    for i := 0 to |segments|
      invariant forall k | 0 <= k < i :: shell.knownSafe(segments[k])
    {
      if shell.knownSafe(segments[i]) { continue; }
      var others := OtherSegmentsKnownSafe(shell, segments, i);
      if Normalize(shell, segments[i]).None? || !others {
        assert forall j: nat | SafeOffer(shell, segments, j) :: j == i;
        return None;
      }
      assert SafeOffer(shell, segments, i);
      return Some(segments[i]);
    }
    if |segments| == 0 || Normalize(shell, segments[0]).None? {
      assert forall j: nat | SafeOffer(shell, segments, j) :: j == 0;
      return None;
    }
    assert SafeOffer(shell, segments, 0);
    prefix := Some(segments[0]);
  }

  function FirstString(args: Args, names: seq<string>): Option<string> {
    if names == [] then None
    else if names[0] in args && args[names[0]].String? && TrimSpace(args[names[0]].text) != "" then Some(TrimSpace(args[names[0]].text))
    else FirstString(args, names[1..])
  }

  const COMMAND_NAMES := ["command", "cmd", "script", "shell"]

  predicate IsShellTool(tool: string) { tool == "bash" || tool == "exec_command" }

  function CleanRule(prefix: seq<string>): Tokens { if "" in Clean(prefix) then [] else Clean(prefix) }

  /** The caller's own prefix rule, cleaned. */
  function RequestedRule(args: Args): Option<Tokens> {
    if "prefix_rule" !in args then None
    else
      match args["prefix_rule"]
      case Strings(texts) => Some(CleanRule(texts))
      case Mixed(items) =>
        if None in items then Some([])
        else Some(CleanRule(seq(|items|, i requires 0 <= i < |items| => items[i].GetOr(""))))
      case _ => Some([])
  }

  /** The command's segments, if the tool and its arguments give any. */
  function CommandSegments(shell: Shell, tool: string, args: Args): Option<seq<Tokens>> {
    if !IsShellTool(tool) || FirstString(args, COMMAND_NAMES).None? then None
    else Segments(shell, FirstString(args, COMMAND_NAMES).value)
  }

  method ProposedCommandPrefix(shell: Shell, tool: string, args: Args) returns (prefix: Option<Tokens>)
    ensures var segments := CommandSegments(shell, tool, args);
            if prefix.Some? then segments.Some? && Proposed(shell, segments.value, RequestedRule(args), prefix.value)
            else segments.Some? ==> forall p :: !Proposed(shell, segments.value, RequestedRule(args), p)
  {
    hide TrimSpace, Segments, Normalize;
    if !IsShellTool(tool) || FirstString(args, COMMAND_NAMES).None? {
      return None;
    }
    var segments := SafeShellCommandSegments(shell, FirstString(args, COMMAND_NAMES).value);
    if segments.None? {
      return None;
    }
    var requested := RequestedRule(args);
    if requested.Some? {
      var ok := SafeRequestedPrefix(shell, requested.value, segments.value);
      return if ok then requested else None;
    }
    prefix := OfferSegment(shell, segments.value);
  }

  // ---------------------------------------------------------------------------------------------
  // Matching
  // ---------------------------------------------------------------------------------------------

  ghost predicate Granted(shell: Shell, tool: string, stored: seq<Grant>, session: seq<Grant>, command: Tokens) {
    (Normalize(shell, command).Some? && CoveredBy(tool, stored, command)) || CoveredBy(tool, session, command)
  }

  /** Every segment is granted or known safe, and at least one is granted. */
  ghost predicate Accepts(shell: Shell, tool: string, stored: seq<Grant>, session: seq<Grant>, segments: seq<Tokens>) {
    && (forall j | 0 <= j < |segments| :: Granted(shell, tool, stored, session, segments[j]) || shell.knownSafe(segments[j]))
    && exists j :: 0 <= j < |segments| && Granted(shell, tool, stored, session, segments[j])
  }

  /** Saved grants come before those of the session. */
  function GrantFor(shell: Shell, tool: string, stored: seq<Grant>, session: seq<Grant>, command: Tokens): (g: Option<Grant>)
    ensures g.Some? <==> Granted(shell, tool, stored, session, command)
  {
    if SavedGrant(shell, tool, stored, command).Some? then SavedGrant(shell, tool, stored, command)
    else FirstGrant(tool, session, command)
  }

  /** The grant of the first segment that has one. */
  function FirstGranted(shell: Shell, tool: string, stored: seq<Grant>, session: seq<Grant>, segments: seq<Tokens>): Option<Grant> {
    if segments == [] then None
    else
      var before := FirstGranted(shell, tool, stored, session, segments[..|segments| - 1]);
      if before.Some? then before else GrantFor(shell, tool, stored, session, segments[|segments| - 1])
  }

  /** Some segment is covered for this session only. */
  ghost predicate NeedsSession(shell: Shell, tool: string, stored: seq<Grant>, session: seq<Grant>, segments: seq<Tokens>) {
    exists j :: 0 <= j < |segments| && SavedGrant(shell, tool, stored, segments[j]).None? && CoveredBy(tool, session, segments[j])
  }

  method MatchSegments(shell: Shell, tool: string, stored: seq<Grant>, session: seq<Grant>, segments: seq<Tokens>)
    returns (matched: Option<Grant>, forSession: bool)
    ensures matched.Some? <==> Accepts(shell, tool, stored, session, segments)
    ensures matched.Some? ==> matched == FirstGranted(shell, tool, stored, session, segments)
    ensures forSession <==> matched.Some? && NeedsSession(shell, tool, stored, session, segments)
  {
    hide Normalize, CoveredBy, Granted;
    matched, forSession := None, false;
    for j := 0 to |segments|
      invariant forall k | 0 <= k < j :: Granted(shell, tool, stored, session, segments[k]) || shell.knownSafe(segments[k])
      invariant matched.Some? <==> exists k :: 0 <= k < j && Granted(shell, tool, stored, session, segments[k])
      invariant matched == FirstGranted(shell, tool, stored, session, segments[..j])
      invariant forSession <==> exists k :: 0 <= k < j && SavedGrant(shell, tool, stored, segments[k]).None?
                                            && CoveredBy(tool, session, segments[k])
      invariant forSession ==> matched.Some?
    {
      assert segments[..j + 1][..j] == segments[..j];
      var grant := LookupStored(shell, tool, stored, segments[j]);
      if grant.None? {
        grant := FindGrant(tool, session, segments[j]);
        if grant.Some? {
          forSession := true;
        }
      }
      assert grant == GrantFor(shell, tool, stored, session, segments[j]);
      if grant.Some? {
        if matched.None? {
          matched := grant;
        }
      } else if !shell.knownSafe(segments[j]) {
        return None, false;
      }
    }
    assert segments[..|segments|] == segments;
  }

  /** A command runs on its grants exactly when it asks for no further permissions and every part of it
      is covered; it is told the first grant used, and whether any of them is the session's only. */
  method MatchCommandPrefix(shell: Shell, tool: string, args: Args, moreWanted: bool, stored: seq<Grant>, session: seq<Grant>)
    returns (matched: Option<Grant>, forSession: bool)
    ensures var segments := CommandSegments(shell, tool, args);
            && (matched.Some? <==> !moreWanted && segments.Some? && Accepts(shell, tool, stored, session, segments.value))
            && (matched.Some? ==> matched == FirstGranted(shell, tool, stored, session, segments.value))
            && (forSession <==> matched.Some? && NeedsSession(shell, tool, stored, session, segments.value))
  {
    hide TrimSpace, Segments, Normalize, Accepts, FirstGranted, NeedsSession;
    if !IsShellTool(tool) || moreWanted || FirstString(args, COMMAND_NAMES).None? {
      return None, false;
    }
    var segments := SafeShellCommandSegments(shell, FirstString(args, COMMAND_NAMES).value);
    if segments.None? {
      return None, false;
    }
    matched, forSession := MatchSegments(shell, tool, stored, session, segments.value);
  }

  /** The grant found is the first that covers the command. */
  lemma {:induction false} FirstCovers(tool: string, grants: seq<Grant>, command: Tokens) returns (k: nat)
    ensures match FirstGrant(tool, grants, command)
            case Some(g) => k < |grants| && g == grants[k] && Covers(tool, g, command) && forall i | 0 <= i < k :: !Covers(tool, grants[i], command)
            case None => forall i | 0 <= i < |grants| :: !Covers(tool, grants[i], command)
  {
    hide Covers;
    k := 0;
    if grants != [] && !Covers(tool, grants[0], command) {
      k := FirstCovers(tool, grants[1..], command);
      assert forall i | 1 <= i < |grants| :: grants[i] == grants[1..][i - 1];
      k := k + 1;
    }
  }

  /** The grant reported is that of the first segment with one; a saved grant comes before one of the session. */
  lemma {:induction false} FirstSegmentCounts(shell: Shell, tool: string, stored: seq<Grant>, session: seq<Grant>, segments: seq<Tokens>)
    returns (k: nat)
    ensures match FirstGranted(shell, tool, stored, session, segments)
            case None => forall i | 0 <= i < |segments| :: !Granted(shell, tool, stored, session, segments[i])
            case Some(g) =>
              && k < |segments| && Granted(shell, tool, stored, session, segments[k])
              && (forall i | 0 <= i < k :: !Granted(shell, tool, stored, session, segments[i]))
              && Some(g) == if Normalize(shell, segments[k]).Some? && CoveredBy(tool, stored, segments[k])
                            then FirstGrant(tool, stored, segments[k]) else FirstGrant(tool, session, segments[k])
  {
    hide Normalize, CoveredBy, Granted;
    k := 0;
    if segments != [] {
      var n := |segments| - 1;
      k := FirstSegmentCounts(shell, tool, stored, session, segments[..n]);
      assert forall i | 0 <= i < n :: segments[..n][i] == segments[i];
      if FirstGranted(shell, tool, stored, session, segments[..n]).None? {
        k := n;
      }
    }
  }

  // ---------------------------------------------------------------------------------------------
  // Propose, grant, match agree
  // ---------------------------------------------------------------------------------------------

  /** No token has space around it. */
  predicate Trimmed(prefix: Tokens) { Clean(prefix) == prefix }

  lemma {:induction false} TrimRightTwice(s: string)
    ensures TrimRight(TrimRight(s)) == TrimRight(s)
  {
    if s != [] && IsSpace(s[|s| - 1]) {
      TrimRightTwice(s[..|s| - 1]);
    }
  }

  lemma {:induction false} TrimRightKeepsFirst(s: string)
    requires s != [] && !IsSpace(s[0])
    ensures TrimRight(s) != [] && TrimRight(s)[0] == s[0]
    decreases |s|
  {
    if IsSpace(s[|s| - 1]) {
      TrimRightKeepsFirst(s[..|s| - 1]);
    }
  }

  lemma {:induction false} TrimLeftSettles(s: string)
    ensures TrimLeft(s) == [] || !IsSpace(TrimLeft(s)[0])
  {
    if s != [] && IsSpace(s[0]) {
      TrimLeftSettles(s[1..]);
    }
  }

  lemma TrimTwice(s: string)
    ensures TrimSpace(TrimSpace(s)) == TrimSpace(s)
  {
    var l := TrimLeft(s);
    TrimLeftSettles(s);
    TrimRightTwice(l);
    if l != [] {
      TrimRightKeepsFirst(l);
      assert TrimLeft(TrimRight(l)) == TrimRight(l);
    }
  }

  lemma CleanIsTrimmed(prefix: Tokens)
    ensures Trimmed(Clean(prefix))
  {
    hide TrimSpace;
    forall i | 0 <= i < |prefix| ensures TrimSpace(Clean(prefix)[i]) == Clean(prefix)[i] {
      TrimTwice(prefix[i]);
    }
  }

  /** A caller's own rule is cleaned before it is offered. */
  lemma RequestsAreTrimmed(args: Args)
    requires RequestedRule(args).Some?
    ensures Trimmed(RequestedRule(args).value)
  {
    hide TrimSpace;
    match args["prefix_rule"]
    case Strings(texts) => CleanIsTrimmed(texts);
    case Mixed(items) =>
      if None !in items {
        CleanIsTrimmed(seq(|items|, i requires 0 <= i < |items| => items[i].GetOr("")));
      }
    case _ =>
  }

  /** How a prefix rule is read. One that holds words only counts trimmed, whichever kind of list it comes in, and as empty if
      a word is blank; one that holds anything else, or is no list, counts as empty; only a missing one is none. */
  lemma RuleReads(args: Args, texts: seq<string>, items: seq<Option<string>>, other: Value)
    requires other.String? || other.OtherValue?
    requires |items| == |texts| && forall i | 0 <= i < |texts| :: items[i] == Some(texts[i])
    ensures var name, trimmed := "prefix_rule", seq(|texts|, i requires 0 <= i < |texts| => TrimSpace(texts[i]));
            && RequestedRule(args[name := Strings(texts)]) == Some(if "" in trimmed then [] else trimmed)
            && RequestedRule(args[name := Mixed(items)]) == Some(if "" in trimmed then [] else trimmed)
            && RequestedRule(args[name := Mixed(items + [None])]) == Some([])
            && RequestedRule(args[name := other]) == Some([]) && RequestedRule(args - {name}) == None
  {
    hide TrimSpace;
    assert None !in items;
    assert seq(|items|, i requires 0 <= i < |items| => items[i].GetOr("")) == texts;
    assert (items + [None])[|items|] == None;
  }

  /** The argument used is the first of the names that holds text, trimmed. */
  lemma {:induction false} FirstTextCounts(args: Args, names: seq<string>) returns (k: nat)
    ensures match FirstString(args, names)
            case Some(text) =>
              && k < |names| && HoldsText(args, names[k]) && text == TrimSpace(args[names[k]].text)
              && forall i | 0 <= i < k :: !HoldsText(args, names[i])
            case None => forall i | 0 <= i < |names| :: !HoldsText(args, names[i])
  {
    hide TrimSpace;
    k := 0;
    if names != [] && !HoldsText(args, names[0]) {
      k := FirstTextCounts(args, names[1..]);
      assert forall i | 1 <= i < |names| :: names[i] == names[1..][i - 1];
      k := k + 1;
    }
  }

  ghost predicate HoldsText(args: Args, name: string) {
    name in args && args[name].String? && TrimSpace(args[name].text) != ""
  }

  lemma GrantCovers(shell: Shell, tool: string, grants: seq<Grant>, prefix: Tokens, command: Tokens)
    requires Normalize(shell, prefix).Some? && Begins(Clean(prefix), command)
    ensures CoveredBy(tool, WithGrant(shell, tool, grants, prefix), command)
  {
    hide TrimSpace;
    var all := WithGrant(shell, tool, grants, prefix);
    assert Grant(tool, Clean(prefix)) in all;
    var i :| 0 <= i < |all| && all[i] == Grant(tool, Clean(prefix));
    assert Covers(tool, all[i], command);
  }

  lemma BeginsItself(shell: Shell, p: Tokens)
    requires Normalize(shell, p).Some?
    ensures Begins(p, p)
  {
  }

  /** The segment that made a proposal what it is, and all others are known safe or begin alike. */
  lemma ProposalFits(shell: Shell, segments: seq<Tokens>, requested: Option<Tokens>, p: Tokens) returns (i: nat)
    requires Proposed(shell, segments, requested, p)
    ensures Normalize(shell, p).Some? && i < |segments| && Begins(p, segments[i])
    ensures forall j | 0 <= j < |segments| :: Begins(p, segments[j]) || shell.knownSafe(segments[j])
    ensures requested.None? ==> segments[i] == p
  {
    hide Normalize, Begins;
    if requested.Some? {
      i :| 0 <= i < |segments| && Begins(p, segments[i]);
    } else {
      var k: nat :| SafeOffer(shell, segments, k) && p == segments[k];
      i := k;
      BeginsItself(shell, p);
    }
  }

  /** Whatever is proposed, once granted for the session, makes the same command match; saved, it does
      so too when the whole segment was offered. (Requests always meet the condition.) */
  lemma ProposedThenAccepted(shell: Shell, tool: string, segments: seq<Tokens>, requested: Option<Tokens>, p: Tokens,
                             stored: seq<Grant>, session: seq<Grant>)
    requires Proposed(shell, segments, requested, p) && Trimmed(p)
    ensures Accepts(shell, tool, stored, WithGrant(shell, tool, session, p), segments)
    ensures requested.None? ==> Accepts(shell, tool, WithGrant(shell, tool, stored, p), session, segments)
  {
    hide Normalize, TrimSpace, WithGrant;
    var i := ProposalFits(shell, segments, requested, p);
    forall j | 0 <= j < |segments| && Begins(p, segments[j])
      ensures Granted(shell, tool, stored, WithGrant(shell, tool, session, p), segments[j])
    {
      GrantCovers(shell, tool, session, p, segments[j]);
    }
    if requested.None? {
      AcceptedWhenSaved(shell, tool, segments, p, i, stored, session);
    }
  }

  lemma AcceptedWhenSaved(shell: Shell, tool: string, segments: seq<Tokens>, p: Tokens, i: nat,
                          stored: seq<Grant>, session: seq<Grant>)
    requires Proposed(shell, segments, None, p) && Trimmed(p) && i < |segments| && segments[i] == p
    ensures Accepts(shell, tool, WithGrant(shell, tool, stored, p), session, segments)
  {
    hide Normalize, TrimSpace, WithGrant;
    var k: nat :| SafeOffer(shell, segments, k) && p == segments[k];
    BeginsItself(shell, p);
    GrantCovers(shell, tool, stored, p, p);
    assert Granted(shell, tool, WithGrant(shell, tool, stored, p), session, segments[k]);
  }

  /** With no other grants, the offer of an unsafe segment is honoured exactly when its tokens carry no
      space around them: a grant holds trimmed tokens, a match compares them as they are. */
  lemma OfferHonouredIff(shell: Shell, tool: string, segments: seq<Tokens>, p: Tokens)
    requires Proposed(shell, segments, None, p) && !shell.knownSafe(p)
    ensures Accepts(shell, tool, [], WithGrant(shell, tool, [], p), segments) <==> Trimmed(p)
  {
    hide TrimSpace;
    if Trimmed(p) {
      ProposedThenAccepted(shell, tool, segments, None, p, [], []);
    } else {
      var i: nat :| SafeOffer(shell, segments, i) && p == segments[i];
      assert Begins(Clean(p), p) ==> Clean(p) == p;
      assert !CoveredBy(tool, WithGrant(shell, tool, [], p), p);
      assert !Granted(shell, tool, [], WithGrant(shell, tool, [], p), segments[i]);
    }
  }

  /** A requested prefix, saved and alone, is honoured exactly when the segments it is needed for could
      be prefixes themselves, and one it covers could. */
  lemma RequestHonouredWhenSavedIff(shell: Shell, tool: string, segments: seq<Tokens>, p: Tokens)
    requires SafeRequest(shell, p, segments) && Trimmed(p)
    ensures Accepts(shell, tool, WithGrant(shell, tool, [], p), [], segments) <==>
              (forall j | 0 <= j < |segments| && !shell.knownSafe(segments[j]) :: Normalize(shell, segments[j]).Some?)
              && exists j :: 0 <= j < |segments| && Begins(p, segments[j]) && Normalize(shell, segments[j]).Some?
  {
    hide TrimSpace;
    var saved := WithGrant(shell, tool, [], p);
    assert saved == [Grant(tool, p)];
    forall j | 0 <= j < |segments|
      ensures Granted(shell, tool, saved, [], segments[j]) <==> Begins(p, segments[j]) && Normalize(shell, segments[j]).Some?
    {
      if Begins(p, segments[j]) {
        GrantCovers(shell, tool, [], p, segments[j]);
      }
    }
  }

  // ---------------------------------------------------------------------------------------------
  // A proposal and a request that are not honoured
  // ---------------------------------------------------------------------------------------------

  function EscapedSpace(): string { "run foo\\ ;" }

  function Backquote(): string { "cargo \\`" }

  /** What two commands parse to. Nothing is known safe, and some characters make a token unfit for a prefix. */
  function SampleShell(): Shell {
    Shell((command: string) =>
            if command == EscapedSpace() then Some([AsStmt(Leaf(["run", "foo\\ "]))])
            else if command == Backquote() then Some([AsStmt(Leaf(["cargo", "\\`"]))])
            else None,
          (tokens: Tokens) => false,
          (tokens: Tokens) => exists i :: 0 <= i < |tokens| && UnsafePart(tokens[i]))
  }

  predicate UnsafePart(part: string) {
    exists i :: 0 <= i < |part| && part[i] in "\0\r\n*?[]{}`"
  }

  lemma SampleParses()
    ensures SampleShell().parse(EscapedSpace()) == Some([AsStmt(Leaf(["run", "foo\\ "]))])
    ensures SampleShell().parse(Backquote()) == Some([AsStmt(Leaf(["cargo", "\\`"]))])
  {
    hide AsStmt, UnsafePart;
    assert EscapedSpace()[0] != Backquote()[0];
  }

  lemma SampleTests(tokens: Tokens)
    ensures !SampleShell().knownSafe(tokens)
    ensures SampleShell().unsafe(tokens) <==> exists i :: 0 <= i < |tokens| && UnsafePart(tokens[i])
  {
    hide AsStmt, UnsafePart, EscapedSpace, Backquote;
  }

  lemma WordsHaveNoGlob()
    ensures !HasGlob("run") && !HasGlob("foo\\ ") && !HasGlob("cargo") && !HasGlob("\\`")
  {
  }

  lemma PartsAreTested()
    ensures !UnsafePart("run") && !UnsafePart("foo\\") && !UnsafePart("cargo") && UnsafePart("\\`")
  {
    assert "\\`"[1] == '`';
  }

  function Command(text: string): Args { map["command" := String(text)] }

  function WithRule(text: string, rule: Tokens): Args { map["command" := String(text), "prefix_rule" := Strings(rule)] }

  lemma CommandIsRead(args: Args, text: string)
    requires "command" in args && args["command"] == String(text) && TrimSpace(text) == text != ""
    ensures FirstString(args, COMMAND_NAMES) == Some(text)
  {
    hide TrimSpace;
  }

  lemma OneCall(shell: Shell, args: Args, text: string, tokens: Tokens)
    requires FirstString(args, COMMAND_NAMES) == Some(text) && TrimSpace(text) == text != ""
    requires shell.parse(text) == Some([AsStmt(Leaf(tokens))]) && Proper(Leaf(tokens))
    ensures CommandSegments(shell, "bash", args) == Some([tokens])
  {
    hide TrimSpace, Proper, AsStmt, Flatten, FirstString;
    var stmts := [AsStmt(Leaf(tokens))];
    FlattensTrees(Leaf(tokens));
    LeafFringe(tokens);
    assert stmts[..0] == [];
    assert FlattenAll([]) == Some([]);
    assert FlattenAll(stmts) == Some([] + [tokens]);
    assert [] + [tokens] == [tokens];
  }

  lemma LeafFringe(tokens: Tokens)
    ensures Fringe(Leaf(tokens)) == [tokens]
  {
  }

  lemma TrimsTo(word: string, space: string)
    requires word != [] && !IsSpace(word[0]) && !IsSpace(word[|word| - 1]) && (space == "" || space == " ")
    ensures TrimSpace(word + space) == word
  {
    var s := word + space;
    assert s[0] == word[0] && TrimLeft(s) == s && TrimRight(word) == word;
    if space == " " {
      assert s[|s| - 1] == ' ' && s[..|s| - 1] == word;
    } else {
      assert s == word;
    }
  }

  lemma IsTrimmed(word: string)
    requires word != [] && !IsSpace(word[0]) && !IsSpace(word[|word| - 1])
    ensures TrimSpace(word) == word
  {
    TrimsTo(word, "");
    assert word + "" == word;
  }

  lemma EscapedSpaceParts()
    ensures CommandSegments(SampleShell(), "bash", Command(EscapedSpace())) == Some([["run", "foo\\ "]])
  {
    hide TrimSpace, SampleShell, FirstString, HasGlob, CommandSegments, AsStmt;
    IsTrimmed(EscapedSpace());
    CommandIsRead(Command(EscapedSpace()), EscapedSpace());
    SampleParses();
    WordsHaveNoGlob();
    OneCall(SampleShell(), Command(EscapedSpace()), EscapedSpace(), ["run", "foo\\ "]);
  }

  lemma EscapedSpaceCleaned()
    ensures Normalize(SampleShell(), ["run", "foo\\ "]) == Some(["run", "foo\\"])
  {
    hide TrimSpace, SampleShell, UnsafePart;
    IsTrimmed("run");
    TrimsTo("foo\\", " ");
    assert "foo\\" + " " == "foo\\ ";
    assert Clean(["run", "foo\\ "]) == ["run", "foo\\"];
    PartsAreTested();
    SampleTests(["run", "foo\\"]);
  }

  /** `run foo\ ;`: the token ends in an escaped space, which is trimmed off the grant, and the same command
      then does not match. */
  lemma EscapedSpaceIsNotHonoured()
    ensures var shell, args, p: Tokens := SampleShell(), Command(EscapedSpace()), ["run", "foo\\ "];
            && CommandSegments(shell, "bash", args) == Some([p]) && RequestedRule(args) == None
            && Proposed(shell, [p], None, p) && !Accepts(shell, "bash", [], WithGrant(shell, "bash", [], p), [p])
            && !Accepts(shell, "bash", WithGrant(shell, "bash", [], p), [], [p])
  {
    hide SampleShell, CommandSegments, Normalize, EscapedSpace;
    var shell, p: Tokens := SampleShell(), ["run", "foo\\ "];
    EscapedSpaceParts();
    EscapedSpaceCleaned();
    SampleTests(p);
    OfferTrimmedIsLost(shell, p, ["run", "foo\\"]);
  }

  /** Whatever is trimmed off the only segment is missing from its grant. */
  lemma OfferTrimmedIsLost(shell: Shell, p: Tokens, clean: Tokens)
    requires Normalize(shell, p) == Some(clean) && |clean| == |p| && clean != p && !shell.knownSafe(p)
    ensures Proposed(shell, [p], None, p)
    ensures !Accepts(shell, "bash", [], WithGrant(shell, "bash", [], p), [p])
    ensures !Accepts(shell, "bash", WithGrant(shell, "bash", [], p), [], [p])
  {
    hide Normalize;
    var g := Grant("bash", clean);
    assert SafeOffer(shell, [p], 0) && [p][0] == p;
    assert WithGrant(shell, "bash", [], p) == [g];
    assert !Covers("bash", g, p);
    assert !CoveredBy("bash", [g], p) && !CoveredBy("bash", [], p);
    assert !Granted(shell, "bash", [], [g], [p][0]) && !Granted(shell, "bash", [g], [], [p][0]);
  }

  lemma BackquoteParts()
    ensures CommandSegments(SampleShell(), "bash", WithRule(Backquote(), ["cargo"])) == Some([["cargo", "\\`"]])
  {
    hide TrimSpace, SampleShell, FirstString, HasGlob, CommandSegments, AsStmt;
    var args := WithRule(Backquote(), ["cargo"]);
    IsTrimmed(Backquote());
    CommandIsRead(args, Backquote());
    SampleParses();
    WordsHaveNoGlob();
    OneCall(SampleShell(), args, Backquote(), ["cargo", "\\`"]);
  }

  lemma BackquoteCleaned()
    ensures Clean(["cargo"]) == ["cargo"] && Normalize(SampleShell(), ["cargo"]) == Some(["cargo"])
    ensures Normalize(SampleShell(), ["cargo", "\\`"]) == None
  {
    hide TrimSpace, SampleShell, UnsafePart;
    IsTrimmed("cargo");
    IsTrimmed("\\`");
    assert Clean(["cargo"]) == ["cargo"] && Clean(["cargo", "\\`"]) == ["cargo", "\\`"];
    PartsAreTested();
    SampleTests(["cargo"]);
    SampleTests(["cargo", "\\`"]);
    assert UnsafePart(["cargo", "\\`"][1]);
  }

  lemma RuleIsRead(rule: Tokens, text: string)
    requires Clean(rule) == rule && "" !in rule
    ensures RequestedRule(WithRule(text, rule)) == Some(rule)
  {
    hide Clean;
  }

  /** A request for `cargo` over an escaped backquote: offered, but once saved it is not looked up for a
      command that could not be a prefix itself. */
  lemma BackquoteIsNotHonoured()
    ensures var shell, args, p: Tokens, segment: Tokens := SampleShell(), WithRule(Backquote(), ["cargo"]), ["cargo"], ["cargo", "\\`"];
            && CommandSegments(shell, "bash", args) == Some([segment]) && RequestedRule(args) == Some(p)
            && Proposed(shell, [segment], Some(p), p) && !Accepts(shell, "bash", WithGrant(shell, "bash", [], p), [], [segment])
  {
    hide SampleShell, CommandSegments, Normalize, Clean, Backquote, RequestedRule, WithGrant, Accepts;
    var shell, p: Tokens, segment: Tokens := SampleShell(), ["cargo"], ["cargo", "\\`"];
    BackquoteParts();
    BackquoteCleaned();
    SampleTests(segment);
    RuleIsRead(p, Backquote());
    assert Begins(p, [segment][0]);
    RequestHonouredWhenSavedIff(shell, "bash", [segment], p);
  }

  /** Both commands, from the proposal through the grant to the match. */
  method NotHonoured() returns (offered: seq<Option<Tokens>>, matches: seq<Option<Grant>>)
    ensures offered == [Some(["run", "foo\\ "]), Some(["cargo"])] && matches == [None, None]
  {
    hide Proposed, Accepts, CommandSegments, RequestedRule, SampleShell, FirstGranted, NeedsSession, WithGrant;
    var shell, run, cargo := SampleShell(), Command(EscapedSpace()), WithRule(Backquote(), ["cargo"]);
    EscapedSpaceIsNotHonoured();
    BackquoteIsNotHonoured();
    var p := ProposedCommandPrefix(shell, "bash", run);
    var q := ProposedCommandPrefix(shell, "bash", cargo);
    OnlyWholeSegment(shell, ["run", "foo\\ "], p.value);
    OnlyRequest(shell, [["cargo", "\\`"]], ["cargo"], q.value);
    var m, _ := MatchCommandPrefix(shell, "bash", run, false, [], WithGrant(shell, "bash", [], p.value));
    var n, _ := MatchCommandPrefix(shell, "bash", cargo, false, WithGrant(shell, "bash", [], q.value), []);
    offered, matches := [p, q], [m, n];
  }

  lemma OnlyWholeSegment(shell: Shell, segment: Tokens, p: Tokens)
    requires Proposed(shell, [segment], None, p)
    ensures p == segment
  {
  }

  lemma OnlyRequest(shell: Shell, segments: seq<Tokens>, requested: Tokens, p: Tokens)
    requires Proposed(shell, segments, Some(requested), p)
    ensures p == requested
  {
  }
}
