/** Summarisation with a split-in-half fallback for slices the summarizer itself cannot hold. */
module Summarize {
  import opened Text
  import opened Transcript

  datatype Reply = Answer(text: string) | ContextLimit(error: string) | OtherError(error: string)

  /** The reply to the n-th summarizer call of the run, given what it was asked to summarise. */
  type Provider = (nat, seq<Message>) -> Reply

  /** `calls` counts provider calls so far; `leaves` are the slices that were summarised directly. */
  datatype Result = Result(reply: Reply, calls: nat, leaves: seq<seq<Message>>)

  /** A split whose two halves answered, and whose re-summary met the context limit again, falls back
      to the joined text; any other error surfaces unchanged. */
  function Summarise(provider: Provider, calls: nat, ms: seq<Message>): (r: Result)
    ensures r.calls > calls
    decreases |ms|
  {
    var first := provider(calls, ms);
    if first.Answer? then Result(first, calls + 1, [ms])
    else if |ms| < 2 || !first.ContextLimit? then Result(first, calls + 1, [])
    else
      var mid := |ms| / 2;
      var left := Summarise(provider, calls + 1, ms[..mid]);
      if !left.reply.Answer? then left
      else
        var right := Summarise(provider, left.calls, ms[mid..]);
        if !right.reply.Answer? then right.(leaves := left.leaves + right.leaves)
        else
          var combined := TrimSpace(left.reply.text + "\n\n" + right.reply.text);
          var reduced := provider(right.calls, [Note(combined)]);
          Result(if reduced.ContextLimit? then Answer(combined) else reduced,
                 right.calls + 1, left.leaves + right.leaves)
  }

  function Joined(slices: seq<seq<Message>>): seq<Message> {
    if slices == [] then [] else slices[0] + Joined(slices[1..])
  }

  lemma {:induction false} JoinedConcat(a: seq<seq<Message>>, b: seq<seq<Message>>)
    ensures Joined(a + b) == Joined(a) + Joined(b)
  {
    if a == [] {
      assert a + b == b;
    } else {
      assert (a + b)[1..] == a[1..] + b;
      JoinedConcat(a[1..], b);
      assert a[0] + (Joined(a[1..]) + Joined(b)) == (a[0] + Joined(a[1..])) + Joined(b);
    }
  }

  /** Whatever the provider answers, n messages cost at most 3n - 2 calls. */
  lemma {:induction false} CallsBounded(provider: Provider, calls: nat, ms: seq<Message>)
    requires |ms| >= 1
    ensures Summarise(provider, calls, ms).calls <= calls + 3 * |ms| - 2
    decreases |ms|
  {
    var first := provider(calls, ms);
    if first.ContextLimit? && |ms| >= 2 {
      var mid := |ms| / 2;
      CallsBounded(provider, calls + 1, ms[..mid]);
      var left := Summarise(provider, calls + 1, ms[..mid]);
      if left.reply.Answer? {
        CallsBounded(provider, left.calls, ms[mid..]);
      }
    }
  }

  /** A successful summary covers the input: the slices summarised directly are nonempty, in order,
      and make up the whole of it. */
  lemma {:induction false} SlicesPartition(provider: Provider, calls: nat, ms: seq<Message>)
    requires Summarise(provider, calls, ms).reply.Answer?
    ensures Joined(Summarise(provider, calls, ms).leaves) == ms
    ensures ms != [] ==> forall k | 0 <= k < |Summarise(provider, calls, ms).leaves| ::
              Summarise(provider, calls, ms).leaves[k] != []
    decreases |ms|
  {
    var first := provider(calls, ms);
    if first.Answer? {
      assert [ms][1..] == [] && ms + [] == ms;
    } else {
      var mid := |ms| / 2;
      SlicesPartition(provider, calls + 1, ms[..mid]);
      var left := Summarise(provider, calls + 1, ms[..mid]);
      SlicesPartition(provider, left.calls, ms[mid..]);
      var right := Summarise(provider, left.calls, ms[mid..]);
      JoinedConcat(left.leaves, right.leaves);
      assert ms[..mid] + ms[mid..] == ms;
    }
  }

  /** When the summary fails, what was summarised so far is a first part of the input, in order. */
  lemma {:induction false} SlicesPrefix(provider: Provider, calls: nat, ms: seq<Message>)
    ensures Joined(Summarise(provider, calls, ms).leaves) <= ms
    decreases |ms|
  {
    if Summarise(provider, calls, ms).reply.Answer? {
      SlicesPartition(provider, calls, ms);
    } else if |ms| >= 2 && provider(calls, ms).ContextLimit? {
      var mid := |ms| / 2;
      var left := Summarise(provider, calls + 1, ms[..mid]);
      if !left.reply.Answer? {
        SlicesPrefix(provider, calls + 1, ms[..mid]);
      } else {
        var right := Summarise(provider, left.calls, ms[mid..]);
        SlicesPartition(provider, calls + 1, ms[..mid]);
        SlicesPrefix(provider, left.calls, ms[mid..]);
        JoinedConcat(left.leaves, right.leaves);
        BehindPrefix(ms, mid, Joined(right.leaves));
      }
    }
  }

  lemma BehindPrefix(ms: seq<Message>, mid: nat, rest: seq<Message>)
    requires mid <= |ms| && rest <= ms[mid..]
    ensures ms[..mid] + rest <= ms
  {
  }

  /** The reply is what the provider said to the last call made. */
  ghost predicate LastReply(provider: Provider, r: Result, asked: seq<Message>) {
    r.calls > 0 && provider(r.calls - 1, asked) == r.reply
  }

  /** Errors other than the context limit are never masked: the reply is an error exactly as the
      provider gave it at the last call made. */
  lemma {:induction false} ErrorsSurface(provider: Provider, calls: nat, ms: seq<Message>)
    requires !Summarise(provider, calls, ms).reply.Answer?
    ensures var r := Summarise(provider, calls, ms); exists asked :: LastReply(provider, r, asked)
    decreases |ms|
  {
    var first := provider(calls, ms);
    if |ms| < 2 || !first.ContextLimit? {
      assert LastReply(provider, Summarise(provider, calls, ms), ms);
    } else {
      var mid := |ms| / 2;
      var left := Summarise(provider, calls + 1, ms[..mid]);
      if !left.reply.Answer? {
        ErrorsSurface(provider, calls + 1, ms[..mid]);
      } else {
        var right := Summarise(provider, left.calls, ms[mid..]);
        if !right.reply.Answer? {
          ErrorsSurface(provider, left.calls, ms[mid..]);
          var asked :| LastReply(provider, right, asked);
          assert LastReply(provider, Summarise(provider, calls, ms), asked);
        } else {
          var combined := TrimSpace(left.reply.text + "\n\n" + right.reply.text);
          assert LastReply(provider, Summarise(provider, calls, ms), [Note(combined)]);
        }
      }
    }
  }

  // ---------------------------------------------------------------------------------------------
  // Nothing said is lost or moved
  // ---------------------------------------------------------------------------------------------

  /** The text without its white space. */
  function Words(s: string): string {
    if s == [] then [] else (if IsSpace(s[0]) then [] else [s[0]]) + Words(s[1..])
  }

  function AllWords(ms: seq<Message>): string {
    if ms == [] then [] else Words(ms[0].content) + AllWords(ms[1..])
  }

  lemma {:induction false} WordsConcat(a: string, b: string)
    ensures Words(a + b) == Words(a) + Words(b)
  {
    if a == [] {
      assert a + b == b;
    } else {
      assert (a + b)[1..] == a[1..] + b;
      WordsConcat(a[1..], b);
    }
  }

  lemma {:induction false} AllWordsConcat(a: seq<Message>, b: seq<Message>)
    ensures AllWords(a + b) == AllWords(a) + AllWords(b)
  {
    if a == [] {
      assert a + b == b;
    } else {
      assert (a + b)[1..] == a[1..] + b;
      AllWordsConcat(a[1..], b);
      assert Words(a[0].content) + (AllWords(a[1..]) + AllWords(b)) == (Words(a[0].content) + AllWords(a[1..])) + AllWords(b);
    }
  }

  lemma {:induction false} WordsLeft(s: string)
    ensures Words(TrimLeft(s)) == Words(s)
  {
    if s != [] && IsSpace(s[0]) {
      WordsLeft(s[1..]);
    }
  }

  lemma {:induction false} WordsRight(s: string)
    ensures Words(TrimRight(s)) == Words(s)
    decreases |s|
  {
    if s != [] && IsSpace(s[|s| - 1]) {
      var front, last := s[..|s| - 1], [s[|s| - 1]];
      WordsRight(front);
      WordsConcat(front, last);
      assert s == front + last && last[1..] == [];
    }
  }

  lemma WordsJoined(a: string, b: string)
    ensures Words(TrimSpace(a + "\n\n" + b)) == Words(a) + Words(b)
  {
    WordsRight(TrimLeft(a + "\n\n" + b));
    WordsLeft(a + "\n\n" + b);
    WordsConcat(a + "\n\n", b);
    WordsConcat(a, "\n\n");
    assert "\n\n"[1..] == "\n" && "\n"[1..] == "";
    assert Words("\n\n") == "";
    assert Words(a) + "" == Words(a);
  }

  /** A provider that gives back every word it is asked to summarise, in order, or fails. */
  ghost predicate Verbatim(provider: Provider) {
    forall n, ms :: provider(n, ms).Answer? ==> Words(provider(n, ms).text) == AllWords(ms)
  }

  /** If each call keeps every word in order, so does the summary, however often the input was split: both halves are
      joined, the earlier first, and the joined text is what is summarised again or falls back. */
  lemma {:induction false} SplittingKeepsWords(provider: Provider, calls: nat, ms: seq<Message>)
    requires Verbatim(provider) && Summarise(provider, calls, ms).reply.Answer?
    ensures Words(Summarise(provider, calls, ms).reply.text) == AllWords(ms)
    decreases |ms|
  {
    hide Words;
    var first := provider(calls, ms);
    if !first.Answer? {
      var mid := |ms| / 2;
      var left := Summarise(provider, calls + 1, ms[..mid]);
      SplittingKeepsWords(provider, calls + 1, ms[..mid]);
      var right := Summarise(provider, left.calls, ms[mid..]);
      SplittingKeepsWords(provider, left.calls, ms[mid..]);
      AllWordsConcat(ms[..mid], ms[mid..]);
      assert ms[..mid] + ms[mid..] == ms;
      WordsJoined(left.reply.text, right.reply.text);
      NoteWords(TrimSpace(left.reply.text + "\n\n" + right.reply.text));
    }
  }

  lemma NoteWords(text: string)
    ensures AllWords([Note(text)]) == Words(text)
  {
    assert [Note(text)][1..] == [];
    assert AllWords([Note(text)]) == Words(text) + [];
  }

  /** What the provider can take in one call is asked in one call, and its answer is the summary; and what it can neither
      take nor split fails with its error. */
  lemma AskedAtOnce(provider: Provider, calls: nat, ms: seq<Message>)
    ensures var r := Summarise(provider, calls, ms);
            && (provider(calls, ms).Answer? || provider(calls, ms).OtherError? || |ms| < 2 ==>
                  r.reply == provider(calls, ms) && r.calls == calls + 1)
            && (provider(calls, ms).ContextLimit? && |ms| >= 2 ==> r.calls > calls + 1)
  {
  }

  /** A provider that can only ever hold a single message. */
  function OneAtATime(): Provider {
    (n, ms) => if |ms| >= 2 then ContextLimit("prompt is too long") else Answer("ok")
  }

  /** The bound is attained at every size. */
  lemma {:induction false} BoundAttained(calls: nat, ms: seq<Message>)
    requires |ms| >= 1
    ensures Summarise(OneAtATime(), calls, ms).reply.Answer?
    ensures Summarise(OneAtATime(), calls, ms).calls == calls + 3 * |ms| - 2
    decreases |ms|
  {
    if |ms| >= 2 {
      var mid := |ms| / 2;
      BoundAttained(calls + 1, ms[..mid]);
      var left := Summarise(OneAtATime(), calls + 1, ms[..mid]);
      BoundAttained(left.calls, ms[mid..]);
    }
  }
}
