/** The conversation transcript and the pairing of tool calls with tool results that strict
    providers demand when a transcript is replayed. */
module Transcript {

  datatype Role = System | User | Assistant | Tool

  datatype ToolCall = ToolCall(id: string, name: string, arguments: string)

  /** `images` is the number of image attachments; reasoning blocks play no part here. */
  datatype Message = Message(role: Role, content: string, calls: seq<ToolCall>, callID: string, images: nat)

  function Note(content: string): Message { Message(User, content, [], "", 0) }

  function ResultMessage(callID: string, output: string): Message { Message(Tool, output, [], callID, 0) }

  /** `results` answers `calls`: one tool message per call, same ids, same order. */
  ghost predicate Answers(calls: seq<ToolCall>, results: seq<Message>) {
    && |results| == |calls|
    && forall j | 0 <= j < |calls| ::
         results[j].role == Tool && results[j].callID == calls[j].id && results[j].calls == []
  }

  /** Pairing, by consuming the transcript one block at a time. */
  ghost predicate Paired(ms: seq<Message>) {
    if ms == [] then true
    else
      match ms[0].role
      case Tool => false
      case Assistant =>
        var k := |ms[0].calls|;
        k < |ms| && Answers(ms[0].calls, ms[1..1 + k]) && Paired(ms[1 + k..])
      case _ => ms[0].calls == [] && Paired(ms[1..])
  }

  /** Pairing, position by position: every assistant message is followed at once by the results of
      its calls, and every tool message is one of those results. */
  ghost predicate PairedByPosition(ms: seq<Message>) {
    && (forall i | 0 <= i < |ms| && ms[i].role == Assistant ::
          AnsweredAt(ms, i))
    && (forall p | 0 <= p < |ms| && ms[p].role == Tool :: ResultOwned(ms, p))
    && (forall i | 0 <= i < |ms| && ms[i].role != Assistant :: ms[i].calls == [])
  }

  ghost predicate AnsweredAt(ms: seq<Message>, i: nat)
    requires i < |ms|
  {
    i + |ms[i].calls| < |ms| && Answers(ms[i].calls, ms[i + 1..i + 1 + |ms[i].calls|])
  }

  ghost predicate OwnsResult(ms: seq<Message>, i: nat, p: nat)
    requires i < |ms|
  {
    ms[i].role == Assistant && i < p <= i + |ms[i].calls|
  }

  ghost predicate ResultOwned(ms: seq<Message>, p: nat)
    requires p < |ms|
  {
    exists i :: 0 <= i < p && OwnsResult(ms, i, p)
  }

  /** Length of the block `ms` starts with: a message and the results it owns. */
  ghost function BlockLength(ms: seq<Message>): nat
    requires ms != []
  {
    if ms[0].role == Assistant then 1 + |ms[0].calls| else 1
  }

  lemma PositionsShift(ms: seq<Message>, k: nat, i: nat)
    requires k <= |ms| && i < |ms| - k
    ensures ms[k..][i] == ms[k + i]
    ensures AnsweredAt(ms[k..], i) <==> AnsweredAt(ms, k + i)
  {
    var n := |ms[k + i].calls|;
    if k + i + n < |ms| {
      assert ms[k..][i + 1..i + 1 + n] == ms[k + i + 1..k + i + 1 + n];
    }
  }

  lemma {:induction false} PairedImpliesByPosition(ms: seq<Message>)
    requires Paired(ms)
    ensures PairedByPosition(ms)
    decreases |ms|
  {
    if ms != [] {
      var k := BlockLength(ms);
      PairedImpliesByPosition(ms[k..]);
      BlockContents(ms);
      forall i | 0 <= i < |ms| && ms[i].role == Assistant ensures AnsweredAt(ms, i) {
        AnsweredAcross(ms, k, i);
      }
      forall p | 0 <= p < |ms| && ms[p].role == Tool ensures ResultOwned(ms, p) {
        OwnedAcross(ms, k, p);
      }
    }
  }

  lemma AnsweredAcross(ms: seq<Message>, k: nat, i: nat)
    requires k <= |ms| && i < |ms| && ms[i].role == Assistant
    requires k <= i ==> AnsweredAt(ms[k..], i - k)
    requires i < k ==> AnsweredAt(ms, i)
    ensures AnsweredAt(ms, i)
  {
    if k <= i {
      PositionsShift(ms, k, i - k);
    }
  }

  lemma OwnedAcross(ms: seq<Message>, k: nat, p: nat)
    requires 0 < k <= |ms| && p < |ms| && k == BlockLength(ms) && ms[0].role != Tool
    requires PairedByPosition(ms[k..]) && ms[p].role == Tool
    ensures ResultOwned(ms, p)
  {
    if k <= p {
      assert ms[k..][p - k] == ms[p];
      var i :| 0 <= i < p - k && OwnsResult(ms[k..], i, p - k);
      assert OwnsResult(ms, k + i, p);
    } else {
      assert OwnsResult(ms, 0, p);
    }
  }

  /** Inside the first block only tool results follow the head. */
  lemma BlockContents(ms: seq<Message>)
    requires ms != [] && (ms[0].role == Assistant ==> AnsweredAt(ms, 0)) && ms[0].role != Tool
    requires ms[0].role != Assistant ==> ms[0].calls == []
    ensures BlockLength(ms) <= |ms|
    ensures forall i | 0 < i < BlockLength(ms) :: ms[i].role == Tool && ms[i].calls == []
  {
    forall i | 0 < i < BlockLength(ms) ensures ms[i].role == Tool && ms[i].calls == [] {
      assert ms[1..1 + |ms[0].calls|][i - 1] == ms[i];
    }
  }

  lemma RestByPosition(ms: seq<Message>)
    requires PairedByPosition(ms) && ms != [] && ms[0].role != Tool
    ensures BlockLength(ms) <= |ms| && PairedByPosition(ms[BlockLength(ms)..])
  {
    BlockContents(ms);
    var k := BlockLength(ms);
    var rest := ms[k..];
    forall i | 0 <= i < |rest| && rest[i].role == Assistant ensures AnsweredAt(rest, i) {
      PositionsShift(ms, k, i);
    }
    forall p | 0 <= p < |rest| && rest[p].role == Tool ensures ResultOwned(rest, p) {
      assert ResultOwned(ms, k + p);
      var i :| 0 <= i < k + p && OwnsResult(ms, i, k + p);
      assert i == 0 || i >= k;
      assert OwnsResult(rest, i - k, p);
    }
  }

  lemma {:induction false} ByPositionImpliesPaired(ms: seq<Message>)
    requires PairedByPosition(ms)
    ensures Paired(ms)
    decreases |ms|
  {
    if ms != [] {
      if ms[0].role == Tool {
        assert false;
      } else {
        RestByPosition(ms);
        ByPositionImpliesPaired(ms[BlockLength(ms)..]);
      }
    }
  }

  /** The two readings of pairing agree on every transcript. */
  lemma PairedIffByPosition(ms: seq<Message>)
    ensures Paired(ms) <==> PairedByPosition(ms)
  {
    if Paired(ms) {
      PairedImpliesByPosition(ms);
    }
    if PairedByPosition(ms) {
      ByPositionImpliesPaired(ms);
    }
  }

  lemma PairedFirstBlock(ms: seq<Message>)
    requires Paired(ms) && ms != []
    ensures BlockLength(ms) <= |ms|
    ensures Paired(ms[..BlockLength(ms)]) && Paired(ms[BlockLength(ms)..])
  {
    var k := BlockLength(ms);
    var block := ms[..k];
    assert block[k..] == [];
    assert block[1..k] == ms[1..k];
  }

  lemma PairedPrepend(block: seq<Message>, rest: seq<Message>)
    requires block != [] && Paired(block) && |block| == BlockLength(block)
    requires Paired(rest)
    ensures Paired(block + rest)
  {
    var all := block + rest;
    assert all[|block|..] == rest;
    assert all[1..|block|] == block[1..|block|];
  }

  lemma SplitAssoc(a: seq<Message>, k: nat, b: seq<Message>)
    requires k <= |a|
    ensures a + b == a[..k] + (a[k..] + b)
  {
  }

  lemma {:induction false} PairedConcat(a: seq<Message>, b: seq<Message>)
    requires Paired(a) && Paired(b)
    ensures Paired(a + b)
    decreases |a|
  {
    if a == [] {
      assert a + b == b;
    } else {
      var k := BlockLength(a);
      PairedFirstBlock(a);
      PairedConcat(a[k..], b);
      PairedPrepend(a[..k], a[k..] + b);
      SplitAssoc(a, k, b);
    }
  }

  lemma CutBeyondBlock(ms: seq<Message>, i: nat)
    requires Paired(ms) && 0 < i < |ms| && ms[i].role != Tool
    ensures BlockLength(ms) <= i
  {
    if i < BlockLength(ms) {
      BlockContents(ms);
    }
  }

  /** A paired transcript may be cut in front of any message that is not a tool result. */
  lemma {:induction false} PairedSplit(ms: seq<Message>, i: nat)
    requires Paired(ms) && i <= |ms|
    requires i < |ms| ==> ms[i].role != Tool
    ensures Paired(ms[..i]) && Paired(ms[i..])
    decreases |ms|, 1
  {
    if i == 0 {
      assert ms[..0] == [] && ms[0..] == ms;
    } else if i == |ms| {
      assert ms[..i] == ms && ms[i..] == [];
    } else {
      CutBeyondBlock(ms, i);
      PairedSplitLater(ms, BlockLength(ms), i);
    }
  }

  lemma SplitParts(ms: seq<Message>, k: nat, i: nat)
    requires k <= i <= |ms|
    ensures ms[..i] == ms[..k] + ms[k..][..i - k]
    ensures ms[i..] == ms[k..][i - k..]
  {
  }

  lemma {:induction false} PairedSplitLater(ms: seq<Message>, k: nat, i: nat)
    requires Paired(ms) && 0 < k <= i < |ms| && k == BlockLength(ms) && ms[i].role != Tool
    ensures Paired(ms[..i]) && Paired(ms[i..])
    decreases |ms|, 0
  {
    PairedFirstBlock(ms);
    PairedSplit(ms[k..], i - k);
    PairedConcat(ms[..k], ms[k..][..i - k]);
    SplitParts(ms, k, i);
  }

  lemma PairedNote(ms: seq<Message>, m: Message)
    requires Paired(ms)
    requires (m.role == User || m.role == System) && m.calls == []
    ensures Paired(ms + [m])
  {
    assert [m][1..] == [];
    PairedConcat(ms, [m]);
  }

  /** Appending an assistant turn together with the answers to its calls. */
  lemma PairedTurn(ms: seq<Message>, turn: Message, results: seq<Message>)
    requires Paired(ms) && turn.role == Assistant
    requires Answers(turn.calls, results)
    ensures Paired(ms + [turn] + results)
  {
    var block := [turn] + results;
    assert block[1..1 + |turn.calls|] == results;
    assert block[1 + |turn.calls|..] == [];
    assert Paired(block);
    PairedConcat(ms, block);
    assert ms + block == ms + [turn] + results;
  }
}
