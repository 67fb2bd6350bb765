/** What a transcript may be of the whole conversation behind it: all of it, or its system head, one
    summary, and everything from some assistant turn on. */
module Views {
  import opened Transcript
  import opened Prune
  import opened Compaction
  import opened Compactor

  /** A conversation that starts the way runs start it. */
  ghost predicate Seeded(history: seq<Message>) {
    && 2 <= |history| && Paired(history)
    && history[0].role == System && history[1].role == User
  }

  /** `ms` shows `history` with everything from position 1 up to `cut` replaced by one note. */
  ghost predicate ShowsFrom(history: seq<Message>, cut: nat, ms: seq<Message>) {
    && 2 <= cut < |history| && |ms| == 2 + |history| - cut
    && history[cut].role == Assistant
    && ms[0] == history[0] && ms[1].role == User && ms[1].calls == []
    && SameShape(history[cut..], ms[2..])
  }

  /** Only tool bodies differ, and at most one summary stands in for what was left out. */
  ghost predicate Shows(history: seq<Message>, ms: seq<Message>) {
    SameShape(history, ms) || exists cut: nat :: ShowsFrom(history, cut, ms)
  }

  lemma ShapeTransitive(a: seq<Message>, b: seq<Message>, c: seq<Message>)
    requires SameShape(a, b) && SameShape(b, c)
    ensures SameShape(a, c)
  {
    forall i | 0 <= i < |a| ensures SameButBody(a[i], c[i]) {
      assert SameButBody(a[i], b[i]) && SameButBody(b[i], c[i]);
    }
  }

  lemma ShapeFrom(a: seq<Message>, b: seq<Message>, k: nat)
    requires SameShape(a, b) && k <= |a|
    ensures SameShape(a[k..], b[k..])
  {
    forall i | 0 <= i < |a[k..]| ensures SameButBody(a[k..][i], b[k..][i]) {
      assert SameButBody(a[k + i], b[k + i]);
    }
  }

  lemma ShapeAppend(a: seq<Message>, b: seq<Message>, more: seq<Message>)
    requires SameShape(a, b)
    ensures SameShape(a + more, b + more)
  {
  }

  /** A conversation and what is shown of it grow alike. */
  lemma ShowsGrows(history: seq<Message>, ms: seq<Message>, more: seq<Message>)
    requires Shows(history, ms)
    ensures Shows(history + more, ms + more)
  {
    if SameShape(history, ms) {
      ShapeAppend(history, ms, more);
    } else {
      var cut: nat :| ShowsFrom(history, cut, ms);
      ShapeAppend(history[cut..], ms[2..], more);
      assert (history + more)[cut..] == history[cut..] + more;
      assert (ms + more)[2..] == ms[2..] + more;
      assert ShowsFrom(history + more, cut, ms + more);
    }
  }

  lemma ShowsPruned(history: seq<Message>, ms: seq<Message>, out: seq<Message>)
    requires Shows(history, ms) && SameShape(ms, out) && Seeded(history)
    ensures Shows(history, out)
  {
    if SameShape(history, ms) {
      ShapeTransitive(history, ms, out);
    } else {
      var cut: nat :| ShowsFrom(history, cut, ms);
      ShapeFrom(ms, out, 2);
      ShapeTransitive(history[cut..], ms[2..], out[2..]);
      assert SameButBody(ms[0], out[0]) && SameButBody(ms[1], out[1]);
      assert ShowsFrom(history, cut, out);
    }
  }

  lemma OneSystem(history: seq<Message>, ms: seq<Message>)
    requires Seeded(history) && Shows(history, ms)
    ensures 2 <= |ms| && SystemEnd(ms) == 1 && ms[0] == history[0]
  {
    if SameShape(history, ms) {
      assert SameButBody(history[0], ms[0]) && SameButBody(history[1], ms[1]);
    }
    assert ms[1].role == User;
    SystemEndIs(ms, 1);
  }

  lemma ShowsCompacted(history: seq<Message>, ms: seq<Message>, keep: int, removed: nat, note: Message, out: seq<Message>)
    requires Seeded(history) && Shows(history, ms)
    requires note.role == User && note.calls == [] && SplicesTo(ms, keep, removed, note, out)
    ensures Shows(history, out)
  {
    OneSystem(history, ms);
    assert out[0] == out[..1][0] == ms[..1][0];
    if SameShape(history, ms) {
      var cut := 1 + removed;
      ShapeFrom(history, ms, cut);
      assert SameButBody(history[cut], ms[cut]);
      assert ShowsFrom(history, cut, out);
    } else {
      var cut: nat :| ShowsFrom(history, cut, ms);
      var later := cut + removed - 1;
      ShapeFrom(history[cut..], ms[2..], removed - 1);
      assert history[cut..][removed - 1..] == history[later..];
      assert ms[2..][removed - 1..] == ms[1 + removed..];
      assert SameButBody(history[later..][0], ms[1 + removed..][0]);
      assert ShowsFrom(history, later, out);
    }
  }

  /** Pruning and compacting a transcript, however often, leave it a view of the same conversation:
      injected summaries never accumulate. */
  lemma RewriteKeepsView(history: seq<Message>, ms: seq<Message>, out: seq<Message>)
    requires Seeded(history) && Shows(history, ms) && Rewrites(ms, out)
    ensures Shows(history, out)
  {
    if SameShape(ms, out) {
      ShowsPruned(history, ms, out);
    } else {
      var pruned, keep, removed: nat, note: Message :|
        SameShape(ms, pruned) && note.role == User && note.calls == [] && SplicesTo(pruned, keep, removed, note, out);
      ShowsPruned(history, ms, pruned);
      ShowsCompacted(history, pruned, keep, removed, note, out);
    }
  }
}
