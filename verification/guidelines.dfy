/** Project guidelines in the system prompt: byte limits that never split a character, and a budget over
    all files. */
module Guidelines {
  import opened Text
  import opened Utf8

  const MAX_FILE_BYTES := 8 * 1024
  const MAX_TOTAL_BYTES := 32 * 1024

  /** A newline, an ellipsis (three bytes), and " (truncated)". */
  const MARKER: Bytes := [10, 0xE2, 0x80, 0xA6, 32, 40, 116, 114, 117, 110, 99, 97, 116, 101, 100, 41]

  // ---------------------------------------------------------------------------------------------
  // Truncation
  // ---------------------------------------------------------------------------------------------

  lemma MarkerIsValid()
    ensures Valid(MARKER) && |MARKER| == 16
  {
    hide Valid, CharLength;
    var dots: Bytes, words: Bytes := [0xE2, 0x80, 0xA6], [32, 40, 116, 114, 117, 110, 99, 97, 116, 101, 100, 41];
    AsciiIsValid([10]);
    AsciiIsValid(words);
    EllipsisIsValid();
    JoinIsValid(dots, words);
    JoinIsValid([10], dots + words);
    assert MARKER == [10] + (dots + words);
  }

  lemma EllipsisIsValid()
    ensures Valid([0xE2, 0x80, 0xA6])
  {
    var dots: Bytes := [0xE2, 0x80, 0xA6];
    assert CharLength(dots) == 3 && dots[3..] == [];
  }

  function Truncated(content: Bytes, limit: int): Bytes {
    if |content| <= limit then content
    else if limit <= 0 then []
    else if limit >= |MARKER| then content[..LastStart(content, limit - |MARKER|)] + MARKER
    else content[..LastStart(content, limit)]
  }

  method TruncateGuidelineContent(content: Bytes, limit: int) returns (out: Bytes)
    ensures out == Truncated(content, limit)
  {
    if |content| <= limit {
      return content;
    }
    if limit <= 0 {
      return [];
    }
    MarkerIsValid();
    var cut := limit - |MARKER|;
    if cut < 0 {
      cut := 0;
    }
    ghost var start := cut;
    while cut > 0 && !RuneStart(content[cut])
      invariant 0 <= cut <= start && LastStart(content, start) == LastStart(content, cut)
    {
      cut := cut - 1;
    }
    var truncated := content[..cut] + MARKER;
    if |truncated| <= limit {
      return truncated;
    }
    var end := limit;
    while end > 0 && !RuneStart(content[end])
      invariant 0 <= end <= limit && LastStart(content, limit) == LastStart(content, end)
    {
      end := end - 1;
    }
    out := content[..end];
  }

  /** What a shortened text is: a prefix of the input, with the marker if it fits. */
  ghost predicate Shortens(content: Bytes, limit: nat, out: Bytes) {
    && |out| <= limit
    && (|content| <= limit ==> out == content)
    && (|content| > limit ==>
          if limit >= |MARKER| then
            |out| >= |MARKER| && out[|out| - |MARKER|..] == MARKER
            && out[..|out| - |MARKER|] <= content && limit <= |out| + 3
          else out <= content && limit <= |out| + 3)
  }

  /** For valid text and any limit: valid text within the limit, a prefix of the input with or without
      the marker, and no more than three bytes short of the limit. */
  lemma TruncationIsSound(content: Bytes, limit: nat)
    requires Valid(content)
    ensures Valid(Truncated(content, limit)) && Shortens(content, limit, Truncated(content, limit))
  {
    hide Valid, CharLength;
    MarkerIsValid();
    if 0 < limit < |content| {
      if limit >= |MARKER| {
        var j := LastStart(content, limit - |MARKER|);
        StartIsNear(content, limit - |MARKER|);
        CutIsValid(content, j);
        JoinIsValid(content[..j], MARKER);
        var out := content[..j] + MARKER;
        assert out[|out| - |MARKER|..] == MARKER && out[..|out| - |MARKER|] == content[..j];
      } else {
        StartIsNear(content, limit);
        CutIsValid(content, LastStart(content, limit));
      }
    } else if limit == 0 && content != [] {
      AsciiIsValid([]);
    }
  }

  // ---------------------------------------------------------------------------------------------
  // The budget over all files
  // ---------------------------------------------------------------------------------------------

  function Total(bodies: seq<Bytes>): nat {
    if bodies == [] then 0 else Total(bodies[..|bodies| - 1]) + |bodies[|bodies| - 1]|
  }

  function FileLimit(used: int): int {
    if MAX_TOTAL_BYTES - used < MAX_FILE_BYTES then MAX_TOTAL_BYTES - used else MAX_FILE_BYTES
  }

  /** The k-th body is file `from[k]`, shortened to what the earlier bodies left of the budget. */
  ghost predicate BodyOf(files: seq<Option<Bytes>>, from: seq<nat>, bodies: seq<Bytes>, k: nat)
    requires k < |from| == |bodies|
  {
    && from[k] < |files| && files[from[k]].Some? && files[from[k]].value != []
    && bodies[k] == Truncated(files[from[k]].value, FileLimit(Total(bodies[..k])))
  }

  /** `files` holds the trimmed contents found on the way from the repository root, None where a
      directory has no readable file. */
  method ProjectGuidelines(files: seq<Option<Bytes>>) returns (bodies: seq<Bytes>, from: seq<nat>)
    ensures |bodies| == |from| && Total(bodies) <= MAX_TOTAL_BYTES
    ensures forall k | 0 <= k < |from| :: BodyOf(files, from, bodies, k)
    ensures forall k, l | 0 <= k < l < |from| :: from[k] < from[l]
    ensures forall i, k | 0 <= k < |from| && 0 <= i < from[k] && i < |files| && files[i].Some? && files[i].value != [] :: i in from
    ensures Total(bodies) < MAX_TOTAL_BYTES ==>
              forall i | 0 <= i < |files| && files[i].Some? && files[i].value != [] :: i in from
    ensures forall k | 0 <= k < |bodies| :: |bodies[k]| <= MAX_FILE_BYTES
  {
    bodies, from := [], [];
    var totalUsed := 0;
    for i := 0 to |files|
      invariant |bodies| == |from| && totalUsed == Total(bodies) <= MAX_TOTAL_BYTES
      invariant forall k | 0 <= k < |from| :: from[k] < i && BodyOf(files, from, bodies, k)
      invariant forall k, l | 0 <= k < l < |from| :: from[k] < from[l]
      invariant forall k | 0 <= k < i && files[k].Some? && files[k].value != [] :: k in from
      invariant forall k | 0 <= k < |bodies| :: |bodies[k]| <= MAX_FILE_BYTES
    {
      if totalUsed >= MAX_TOTAL_BYTES {
        return;
      }
      if files[i].None? || files[i].value == [] { continue; }
      var limit := FileLimit(totalUsed);
      var content := TruncateGuidelineContent(files[i].value, limit);
      WithinLimit(files[i].value, limit);
      BodyAdded(files, from, bodies, i, content);
      bodies, from := bodies + [content], from + [i];
      totalUsed := totalUsed + |content|;
    }
  }

  lemma WithinLimit(content: Bytes, limit: int)
    requires limit >= 0
    ensures |Truncated(content, limit)| <= limit
  {
  }

  lemma BodyAdded(files: seq<Option<Bytes>>, from: seq<nat>, bodies: seq<Bytes>, i: nat, content: Bytes)
    requires |from| == |bodies| && i < |files| && files[i].Some? && files[i].value != []
    requires forall k | 0 <= k < |from| :: from[k] < i && BodyOf(files, from, bodies, k)
    requires content == Truncated(files[i].value, FileLimit(Total(bodies)))
    ensures forall k | 0 <= k < |from| + 1 :: BodyOf(files, from + [i], bodies + [content], k)
    ensures Total(bodies + [content]) == Total(bodies) + |content|
  {
    hide Truncated;
    var more := bodies + [content];
    assert more[..|bodies|] == bodies;
    forall k | 0 <= k < |from| + 1 ensures BodyOf(files, from + [i], more, k) {
      if k < |from| {
        assert BodyOf(files, from, bodies, k);
        assert more[..k] == bodies[..k];
      }
    }
  }

  /** Every body injected is valid text if the files are. */
  lemma BodiesAreValid(files: seq<Option<Bytes>>, from: seq<nat>, bodies: seq<Bytes>, k: nat)
    requires k < |from| == |bodies| && BodyOf(files, from, bodies, k)
    requires forall i | 0 <= i < |files| && files[i].Some? :: Valid(files[i].value)
    ensures Valid(bodies[k])
  {
    var limit := FileLimit(Total(bodies[..k]));
    if limit >= 0 {
      TruncationIsSound(files[from[k]].value, limit);
    } else {
      assert Truncated(files[from[k]].value, limit) == [];
    }
  }

  /** Each file used has all the room there is: up to eight kilobytes of what the earlier bodies left of thirty-two. It is
      injected whole if it fits, and otherwise shortened to no more than three bytes less. */
  lemma FilesGetTheirRoom(files: seq<Option<Bytes>>, from: seq<nat>, bodies: seq<Bytes>, k: nat)
    requires k < |from| == |bodies| && BodyOf(files, from, bodies, k) && Valid(files[from[k]].value)
    ensures var left := 32 * 1024 - Total(bodies[..k]);
            var room := if left < 8 * 1024 then left else 8 * 1024;
            room >= 0 ==> Shortens(files[from[k]].value, room, bodies[k])
  {
    var limit := FileLimit(Total(bodies[..k]));
    if limit >= 0 {
      TruncationIsSound(files[from[k]].value, limit);
    }
  }
}
