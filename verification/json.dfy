/** A codec that reads one-line arguments and writes the state as one line: strings are escaped where they
    must be, and the label of the preserved-state block is not something that must. */
module Json {
  import opened Text
  import opened Utf8
  import opened Preserve
  import opened PreservedBlock

  function Escaped(c: char): string {
    if c == '\n' then "\\n" else if c == '\\' then "\\\\" else if c == '"' then "\\\"" else [c]
  }

  /** A string up to and including its closing quote. */
  function Quoted(s: string): string {
    if s == [] then "\"" else Escaped(s[0]) + Quoted(s[1..])
  }

  function Listed(es: seq<Entry>): string {
    if es == [] then "]" else "," + (Quoted(es[0].name) + (Quoted(es[0].body) + Listed(es[1..])))
  }

  function Encode(s: PreservedState): string {
    "{" + (Quoted(s.plan) + (Listed(s.edits) + (Listed(s.tools) + (Listed(s.skills) + (Listed(s.instructions) + "}")))))
  }

  /** The valid state a line encodes, if it encodes one. */
  ghost function Decode(line: string): Option<PreservedState> {
    if exists s :: ValidState(s) && Encode(s) == line then
      var s :| ValidState(s) && Encode(s) == line; Some(s)
    else None
  }

  // ---- reading arguments and results ----

  /** The string in `{"key":"..."}`; no escapes are read. */
  function Field(key: string, arguments: string): string {
    var open, close := "{\"" + key + "\":\"", "\"}";
    if |open| + |close| <= |arguments| && open <= arguments && close <= arguments[|arguments| - |close|..]
    then TrimSpace(arguments[|open|..|arguments| - |close|]) else ""
  }

  /** A plan of one item with no status of its own. */
  function PlanText(arguments: string): string {
    var open, close := "{\"plan\":[{\"content\":\"", "\"}]}";
    if |open| + |close| <= |arguments| && open <= arguments && close <= arguments[|arguments| - |close|..]
    then
      var content := TrimSpace(arguments[|open|..|arguments| - |close|]);
      if content == "" then "" else "- [pending] " + content
    else ""
  }

  const MAX_SKILL_BYTES := 2048
  const MAX_NOTE_BYTES := 160
  const TRUNCATION_NOTE := "\n\U{E2}\U{80}\U{A6} (truncated; re-load the skill for the full body)"

  /** The last place at or before `limit` where a character starts. */
  function CutBack(s: string, limit: nat): (n: nat)
    requires limit < |s|
    ensures n <= limit
  {
    if limit > 0 && '\U{80}' <= s[limit] <= '\U{BF}' then CutBack(s, limit - 1) else limit
  }

  function CapBody(body: string): string {
    if |body| <= MAX_SKILL_BYTES then body
    else body[..CutBack(body, MAX_SKILL_BYTES - |TRUNCATION_NOTE|)] + TRUNCATION_NOTE
  }

  /** The first line that is not blank, capped. */
  function EditNote(content: string): string
    decreases |content|
  {
    var first := TrimSpace(FirstLine(content));
    if first != "" then
      (if |first| > MAX_NOTE_BYTES then first[..CutBack(first, MAX_NOTE_BYTES)] + "\U{E2}\U{80}\U{A6}" else first)
    else if |FirstLine(content)| < |content| then EditNote(content[|FirstLine(content)| + 1..])
    else ""
  }

  ghost function JsonCodec(): Codec {
    Codec(arguments => Field("path", arguments), content => EditNote(content), arguments => Field("name", arguments),
          body => CapBody(body), _ => [], _ => Entry("", ""), arguments => PlanText(arguments),
          s => Encode(s), line => Decode(line))
  }

  // ---------------------------------------------------------------------------------------------
  // Different states are written differently
  // ---------------------------------------------------------------------------------------------

  lemma {:induction false} QuotedUnique(a: string, b: string, x: string, y: string)
    requires Quoted(a) + x == Quoted(b) + y
    ensures a == b && x == y
    decreases |a|
  {
    if a == [] || b == [] {
      var all := Quoted(a) + x;
      assert all[0] == Quoted(a)[0] == Quoted(b)[0];
      assert Quoted(a) == Quoted(b);
      assert all[1..] == x && all[1..] == y;
    } else {
      HeadUnique(a, b, x, y);
      QuotedUnique(a[1..], b[1..], x, y);
      assert a == [a[0]] + a[1..] && b == [b[0]] + b[1..];
    }
  }

  lemma HeadUnique(a: string, b: string, x: string, y: string)
    requires a != [] && b != [] && Quoted(a) + x == Quoted(b) + y
    ensures a[0] == b[0] && Quoted(a[1..]) + x == Quoted(b[1..]) + y
  {
    QuotedHead(a, x);
    QuotedHead(b, y);
    EscapedUnique(a[0], b[0], Quoted(a[1..]) + x, Quoted(b[1..]) + y);
  }

  lemma QuotedHead(a: string, x: string)
    requires a != []
    ensures Quoted(a) + x == Escaped(a[0]) + (Quoted(a[1..]) + x)
  {
    hide Escaped;
  }

  /** No escape is the beginning of another. */
  lemma EscapedUnique(c: char, d: char, x: string, y: string)
    requires Escaped(c) + x == Escaped(d) + y
    ensures c == d && x == y
  {
    var all := Escaped(c) + x;
    assert all[0] == Escaped(c)[0] == Escaped(d)[0];
    if |Escaped(c)| == 2 {
      assert all[1] == Escaped(c)[1] == Escaped(d)[1];
    }
    assert all[|Escaped(c)|..] == x && all[|Escaped(d)|..] == y;
  }

  lemma {:induction false} ListedUnique(a: seq<Entry>, b: seq<Entry>, x: string, y: string)
    requires Listed(a) + x == Listed(b) + y
    ensures a == b && x == y
    decreases |a|
  {
    var all := Listed(a) + x;
    assert all[0] == Listed(a)[0] == Listed(b)[0];
    if a == [] || b == [] {
      assert a == b == [];
      assert all[1..] == x && all[1..] == y;
    } else {
      var restA, restB := Listed(a[1..]) + x, Listed(b[1..]) + y;
      ListedHead(a, x);
      ListedHead(b, y);
      QuotedUnique(a[0].name, b[0].name, Quoted(a[0].body) + restA, Quoted(b[0].body) + restB);
      QuotedUnique(a[0].body, b[0].body, restA, restB);
      ListedUnique(a[1..], b[1..], x, y);
      assert a == [a[0]] + a[1..] && b == [b[0]] + b[1..];
    }
  }

  lemma ListedHead(a: seq<Entry>, x: string)
    requires a != []
    ensures (Listed(a) + x)[1..] == Quoted(a[0].name) + (Quoted(a[0].body) + (Listed(a[1..]) + x))
  {
  }

  lemma EncodeUnique(s: PreservedState, t: PreservedState)
    requires Encode(s) == Encode(t)
    ensures s == t
  {
    hide Quoted, Listed;
    var s4, t4 := Listed(s.instructions) + "}", Listed(t.instructions) + "}";
    var s3, t3 := Listed(s.skills) + s4, Listed(t.skills) + t4;
    var s2, t2 := Listed(s.tools) + s3, Listed(t.tools) + t3;
    var s1, t1 := Listed(s.edits) + s2, Listed(t.edits) + t2;
    assert Encode(s)[1..] == Quoted(s.plan) + s1 && Encode(t)[1..] == Quoted(t.plan) + t1;
    QuotedUnique(s.plan, t.plan, s1, t1);
    ListedUnique(s.edits, t.edits, s2, t2);
    ListedUnique(s.tools, t.tools, s3, t3);
    ListedUnique(s.skills, t.skills, s4, t4);
    ListedUnique(s.instructions, t.instructions, "}", "}");
  }

  // ---------------------------------------------------------------------------------------------
  // The format is JSON-like
  // ---------------------------------------------------------------------------------------------

  lemma {:induction false} QuotedOneLine(s: string)
    ensures '\n' !in Quoted(s)
  {
    if s != [] {
      QuotedOneLine(s[1..]);
    }
  }

  lemma {:induction false} ListedOneLine(es: seq<Entry>)
    ensures '\n' !in Listed(es)
  {
    if es != [] {
      QuotedOneLine(es[0].name);
      QuotedOneLine(es[0].body);
      ListedOneLine(es[1..]);
    }
  }

  lemma EncodeShape(s: PreservedState)
    ensures Encode(s) != "" && '\n' !in Encode(s) && TrimSpace(Encode(s)) == Encode(s)
  {
    hide Quoted, Listed;
    QuotedOneLine(s.plan);
    ListedOneLine(s.edits);
    ListedOneLine(s.tools);
    ListedOneLine(s.skills);
    ListedOneLine(s.instructions);
    assert Encode(s)[|Encode(s)| - 1] == '}';
  }

  lemma DecodeIff(s: PreservedState)
    ensures Decode(Encode(s)) == Some(s) <==> ValidState(s)
  {
    hide ValidState, Encode;
    var line := Encode(s);
    if exists t :: ValidState(t) && Encode(t) == line {
      var t :| ValidState(t) && Encode(t) == line && Decode(line) == Some(t);
      EncodeUnique(s, t);
    }
  }

  lemma {:induction false} TrimLeftShortens(s: string)
    ensures |TrimLeft(s)| <= |s|
  {
    if s != [] && IsSpace(s[0]) {
      TrimLeftShortens(s[1..]);
    }
  }

  lemma {:induction false} TrimRightShortens(s: string)
    ensures |TrimRight(s)| <= |s|
  {
    if s != [] && IsSpace(s[|s| - 1]) {
      TrimRightShortens(s[..|s| - 1]);
    }
  }

  lemma TailIsNoEncoding(s: PreservedState, i: nat)
    requires 0 < i <= |Encode(s)|
    ensures Decode(TrimSpace(Encode(s)[i..])) != Some(s)
  {
    hide Encode, ValidState;
    var tail := Encode(s)[i..];
    TrimLeftShortens(tail);
    TrimRightShortens(TrimLeft(tail));
  }

  lemma CodecIsJsonLike()
    ensures JsonLike(JsonCodec())
  {
    hide Encode, Decode, TrimSpace, ValidState;
    var codec := JsonCodec();
    forall s
      ensures codec.encode(s) != "" && '\n' !in codec.encode(s) && TrimSpace(codec.encode(s)) == codec.encode(s)
      ensures codec.decode(codec.encode(s)) == Some(s) <==> ValidState(s)
      ensures forall i | 0 < i <= |codec.encode(s)| :: codec.decode(TrimSpace(codec.encode(s)[i..])) != Some(s)
    {
      EncodeShape(s);
      DecodeIff(s);
      forall i | 0 < i <= |codec.encode(s)| ensures codec.decode(TrimSpace(codec.encode(s)[i..])) != Some(s) {
        TailIsNoEncoding(s, i);
      }
    }
  }
}
