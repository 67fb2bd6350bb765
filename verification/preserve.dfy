/** Structured state carried across compactions: recent edits, loaded skills, tool schemas, project
    instructions and the plan. The point proved here is that carrying the state from one injected
    summary to the next loses nothing: after any number of compactions the carried state is the
    state one extraction over everything elided so far would give. */
module Preserve {
  import opened Text
  import opened Transcript

  const MAX_RECENT_EDITS := 20
  const LABEL_TEXT := " Preserved state " + ("(active plan + " + ("loaded skills; " + ("carried across " + "compaction)")))
  const PRESERVED_LABEL := "##" + LABEL_TEXT
  const SUMMARY_LABEL := "[Summary of earlier conversation]"

  /** A named preserved body: an edited path with its note, a skill, a tool schema, an instruction. */
  datatype Entry = Entry(name: string, body: string)

  datatype PreservedState = PreservedState(
    plan: string, edits: seq<Entry>, tools: seq<Entry>, skills: seq<Entry>, instructions: seq<Entry>)

  const EMPTY_STATE := PreservedState("", [], [], [], [])

  /** What the JSON decoders and text scanners read out of arguments and outputs, and the JSON form
      of the preserved state. Any functions will do; `JsonLike` says what is needed of the last two. */
  datatype Codec = Codec(
    editPath: string -> string,
    editNote: string -> string,
    skillName: string -> string,
    capBody: string -> string,
    toolEntries: string -> seq<Entry>,
    instructionBlock: string -> Entry,
    planText: string -> string,
    encode: PreservedState -> string,
    decode: string -> Option<PreservedState>)

  // ---------------------------------------------------------------------------------------------
  // Orders of first and last occurrence
  // ---------------------------------------------------------------------------------------------

  /** `xs` deduplicated, each element kept at its last occurrence. */
  function LastSeen(xs: seq<string>): (r: seq<string>) {
    if xs == [] then []
    else if xs[0] in xs[1..] then LastSeen(xs[1..])
    else [xs[0]] + LastSeen(xs[1..])
  }

  /** `xs` deduplicated, each element kept at its first occurrence. */
  function FirstSeen(xs: seq<string>): (r: seq<string>) {
    if xs == [] then []
    else
      var front := FirstSeen(xs[..|xs| - 1]);
      if xs[|xs| - 1] in front then front else front + [xs[|xs| - 1]]
  }

  /** `xs` without the elements of `gone`, order kept. */
  function Minus(xs: seq<string>, gone: seq<string>): (r: seq<string>) {
    if xs == [] then []
    else (if xs[0] in gone then [] else [xs[0]]) + Minus(xs[1..], gone)
  }

  ghost predicate Distinct(xs: seq<string>) {
    forall i, j | 0 <= i < j < |xs| :: xs[i] != xs[j]
  }

  lemma DistinctEnds(xs: seq<string>)
    requires Distinct(xs) && xs != []
    ensures Distinct(xs[1..]) && xs[0] !in xs[1..]
    ensures Distinct(xs[..|xs| - 1]) && xs[|xs| - 1] !in xs[..|xs| - 1]
  {
    assert forall k | 0 <= k < |xs| - 1 :: xs[1..][k] == xs[k + 1];
    assert forall k | 0 <= k < |xs| - 1 :: xs[..|xs| - 1][k] == xs[k];
  }

  lemma {:induction false} LastSeenMembers(xs: seq<string>)
    ensures Distinct(LastSeen(xs))
    ensures forall x :: x in LastSeen(xs) <==> x in xs
  {
    if xs != [] {
      LastSeenMembers(xs[1..]);
      assert xs == [xs[0]] + xs[1..];
    }
  }

  lemma {:induction false} FirstSeenMembers(xs: seq<string>)
    ensures Distinct(FirstSeen(xs))
    ensures forall x :: x in FirstSeen(xs) <==> x in xs
  {
    if xs != [] {
      FirstSeenMembers(xs[..|xs| - 1]);
      assert xs == xs[..|xs| - 1] + [xs[|xs| - 1]];
    }
  }

  lemma {:induction false} MinusMembers(xs: seq<string>, gone: seq<string>)
    ensures forall x :: x in Minus(xs, gone) <==> x in xs && x !in gone
    ensures Distinct(xs) ==> Distinct(Minus(xs, gone))
    ensures |Minus(xs, gone)| <= |xs|
  {
    if xs != [] {
      MinusMembers(xs[1..], gone);
      assert xs == [xs[0]] + xs[1..];
      if Distinct(xs) {
        DistinctEnds(xs);
      }
    }
  }

  lemma {:induction false} MinusConcat(xs: seq<string>, ys: seq<string>, gone: seq<string>)
    ensures Minus(xs + ys, gone) == Minus(xs, gone) + Minus(ys, gone)
  {
    if xs == [] {
      assert xs + ys == ys;
    } else {
      assert (xs + ys)[1..] == xs[1..] + ys;
      MinusConcat(xs[1..], ys, gone);
    }
  }

  lemma MinusOne(x: string, gone: seq<string>)
    ensures Minus([x], gone) == if x in gone then [] else [x]
  {
    assert [x][1..] == [];
  }

  lemma LastSeenStep(x: string, rest: seq<string>)
    ensures LastSeen([x] + rest) == (if x in rest then [] else [x]) + LastSeen(rest)
  {
    assert ([x] + rest)[1..] == rest;
  }

  /** Last-seen order of a concatenation: the later part stands whole, behind what is left of the earlier. */
  lemma {:induction false} LastSeenConcat(xs: seq<string>, ys: seq<string>)
    ensures LastSeen(xs + ys) == Minus(LastSeen(xs), ys) + LastSeen(ys)
  {
    if xs == [] {
      assert xs + ys == ys;
    } else {
      LastSeenConcat(xs[1..], ys);
      LastSeenConcatStep(xs[0], xs[1..], ys);
      assert xs == [xs[0]] + xs[1..];
    }
  }

  lemma LastSeenConcatStep(x: string, rest: seq<string>, ys: seq<string>)
    requires LastSeen(rest + ys) == Minus(LastSeen(rest), ys) + LastSeen(ys)
    ensures LastSeen(([x] + rest) + ys) == Minus(LastSeen([x] + rest), ys) + LastSeen(ys)
  {
    LastSeenStep(x, rest);
    LastSeenStep(x, rest + ys);
    Assoc([x], rest, ys);
    if x !in rest {
      MinusConcat([x], LastSeen(rest), ys);
      MinusOne(x, ys);
      Assoc([x], Minus(LastSeen(rest), ys), LastSeen(ys));
    }
  }

  lemma Assoc<T>(a: seq<T>, b: seq<T>, c: seq<T>)
    ensures (a + b) + c == a + (b + c)
    ensures [] + b == b
  {
  }

  lemma {:induction false} FirstSeenStep(all: seq<string>, xs: seq<string>, y: string)
    requires all == xs + [y]
    ensures FirstSeen(all) == FirstSeen(xs) + if y in xs then [] else [y]
  {
    assert all[..|all| - 1] == xs;
    FirstSeenMembers(xs);
  }

  lemma {:induction false} FirstSeenConcat(xs: seq<string>, ys: seq<string>)
    ensures FirstSeen(xs + ys) == FirstSeen(xs) + Minus(FirstSeen(ys), xs)
  {
    if ys == [] {
      assert xs + ys == xs;
    } else {
      hide FirstSeen, Minus;
      var n := |ys| - 1;
      var front, y := ys[..n], ys[n];
      assert ys == front + [y];
      assert xs + ys == (xs + front) + [y];
      FirstSeenConcat(xs, front);
      FirstSeenStep(xs + ys, xs + front, y);
      FirstSeenStep(ys, front, y);
      MinusConcat(FirstSeen(front), if y in front then [] else [y], xs);
      MinusOne(y, xs);
      MinusNone(xs);
      var kept, last := Minus(FirstSeen(front), xs), if y in front || y in xs then [] else [y];
      assert Minus(FirstSeen(ys), xs) == kept + last;
      assert (FirstSeen(xs) + kept) + last == FirstSeen(xs) + (kept + last);
    }
  }

  lemma MinusNone(gone: seq<string>)
    ensures Minus([], gone) == []
  {
  }

  lemma {:induction false} MinusSameMembers(xs: seq<string>, a: seq<string>, b: seq<string>)
    requires forall x :: x in a <==> x in b
    ensures Minus(xs, a) == Minus(xs, b)
  {
    if xs != [] {
      MinusSameMembers(xs[1..], a, b);
    }
  }

  lemma {:induction false} FirstSeenDistinct(xs: seq<string>)
    requires Distinct(xs)
    ensures FirstSeen(xs) == xs
  {
    if xs != [] {
      var n := |xs| - 1;
      DistinctEnds(xs);
      FirstSeenDistinct(xs[..n]);
      assert xs == xs[..n] + [xs[n]];
    }
  }

  // ---------------------------------------------------------------------------------------------
  // The capped tail
  // ---------------------------------------------------------------------------------------------

  function CapRecentEdits<T>(xs: seq<T>): (r: seq<T>) {
    if |xs| > MAX_RECENT_EDITS then xs[|xs| - MAX_RECENT_EDITS..] else xs
  }

  /** The last twenty are kept. */
  lemma CapKeepsLast<T>(xs: seq<T>)
    ensures var kept := CapRecentEdits(xs);
            |kept| == (if |xs| < 20 then |xs| else 20) && kept == xs[|xs| - |kept|..]
  {
  }

  /** Removing `gone` from a duplicate-free list removes at most |gone| elements. */
  lemma {:induction false} MinusKeepsEnough(xs: seq<string>, gone: seq<string>)
    requires Distinct(xs)
    ensures |Minus(xs, gone)| >= |xs| - |gone|
  {
    if xs != [] {
      var x, rest := xs[0], xs[1..];
      DistinctEnds(xs);
      if x in gone {
        var k :| 0 <= k < |gone| && gone[k] == x;
        var gone' := gone[..k] + gone[k + 1..];
        MinusIgnores(rest, gone, gone', x);
        MinusKeepsEnough(rest, gone');
      } else {
        MinusKeepsEnough(rest, gone);
      }
    }
  }

  lemma {:induction false} MinusIgnores(xs: seq<string>, gone: seq<string>, gone': seq<string>, x: string)
    requires x !in xs
    requires forall y :: y in gone ==> y == x || y in gone'
    requires forall y :: y in gone' ==> y in gone
    ensures Minus(xs, gone) == Minus(xs, gone')
  {
    if xs != [] {
      MinusIgnores(xs[1..], gone, gone', x);
    }
  }

  lemma CapOfLongSuffix<T>(front: seq<T>, back: seq<T>)
    requires |back| >= MAX_RECENT_EDITS
    ensures CapRecentEdits(front + back) == CapRecentEdits(back)
  {
  }

  /** Capping the older list before merging loses nothing that capping after merging would have kept. */
  lemma CapCommutesWithMerge(older: seq<string>, newer: seq<string>)
    requires Distinct(older)
    ensures CapRecentEdits(Minus(CapRecentEdits(older), newer) + newer)
            == CapRecentEdits(Minus(older, newer) + newer)
  {
    if |newer| >= MAX_RECENT_EDITS {
      CapOfLongSuffix(Minus(CapRecentEdits(older), newer), newer);
      CapOfLongSuffix(Minus(older, newer), newer);
    } else if |older| > MAX_RECENT_EDITS {
      var cut := |older| - MAX_RECENT_EDITS;
      var front, tail := older[..cut], older[cut..];
      assert older == front + tail;
      MinusConcat(front, tail, newer);
      assert Distinct(tail) by {
        assert forall i | 0 <= i < |tail| :: tail[i] == older[cut + i];
      }
      MinusKeepsEnough(tail, newer);
      var kept := Minus(tail, newer) + newer;
      assert Minus(older, newer) + newer == Minus(front, newer) + kept;
      CapOfLongSuffix(Minus(front, newer), kept);
    }
  }

  // ---------------------------------------------------------------------------------------------
  // Entries from an order and a table of bodies
  // ---------------------------------------------------------------------------------------------

  function BodyOf(bodies: map<string, string>, name: string): string {
    if name in bodies then bodies[name] else ""
  }

  function EntriesFor(order: seq<string>, bodies: map<string, string>): (r: seq<Entry>)
    ensures |r| == |order|
    ensures forall i | 0 <= i < |r| :: r[i] == Entry(order[i], BodyOf(bodies, order[i]))
  {
    seq(|order|, i requires 0 <= i < |order| => Entry(order[i], BodyOf(bodies, order[i])))
  }

  function NamesOf(es: seq<Entry>): (r: seq<string>)
    ensures |r| == |es|
    ensures forall i | 0 <= i < |r| :: r[i] == es[i].name
  {
    seq(|es|, i requires 0 <= i < |es| => es[i].name)
  }

  /** The latest body of each name. */
  function Bodies(es: seq<Entry>): (r: map<string, string>)
    ensures forall name :: name in r <==> name in NamesOf(es)
  {
    if es == [] then map[]
    else
      var n := |es| - 1;
      var front := Bodies(es[..n]);
      assert NamesOf(es) == NamesOf(es[..n]) + [es[n].name];
      front[es[n].name := es[n].body]
  }

  /** One entry a name, first-seen order, latest body. */
  function Latest(es: seq<Entry>): (r: seq<Entry>) {
    EntriesFor(FirstSeen(NamesOf(es)), Bodies(es))
  }

  lemma BodiesSnoc(es: seq<Entry>, e: Entry)
    ensures Bodies(es + [e]) == Bodies(es)[e.name := e.body]
  {
    assert (es + [e])[..|es|] == es;
  }

  lemma UpdatedLast(a: map<string, string>, b: map<string, string>, name: string, body: string)
    ensures (a + b)[name := body] == a + b[name := body]
  {
  }

  lemma NoBodies(bodies: map<string, string>)
    ensures Bodies([]) == map[] && bodies + map[] == bodies
  {
  }

  lemma {:induction false} BodiesConcat(xs: seq<Entry>, ys: seq<Entry>)
    ensures Bodies(xs + ys) == Bodies(xs) + Bodies(ys)
  {
    hide Bodies, NamesOf;
    if ys == [] {
      assert xs + ys == xs;
      NoBodies(Bodies(xs));
    } else {
      var front, e := ys[..|ys| - 1], ys[|ys| - 1];
      assert ys == front + [e];
      Appended(xs, front, e);
      BodiesConcat(xs, front);
      BodiesSnoc(xs + front, e);
      BodiesSnoc(front, e);
      UpdatedLast(Bodies(xs), Bodies(front), e.name, e.body);
    }
  }

  lemma Appended(xs: seq<Entry>, front: seq<Entry>, e: Entry)
    ensures xs + (front + [e]) == (xs + front) + [e]
  {
  }

  lemma {:induction false} BodiesOfEntries(order: seq<string>, bodies: map<string, string>)
    ensures forall x | x in order :: x in Bodies(EntriesFor(order, bodies))
              && Bodies(EntriesFor(order, bodies))[x] == BodyOf(bodies, x)
  {
    if order != [] {
      var n := |order| - 1;
      BodiesOfEntries(order[..n], bodies);
      assert EntriesFor(order, bodies)[..n] == EntriesFor(order[..n], bodies);
      forall x | x in order ensures x in Bodies(EntriesFor(order, bodies))
              && Bodies(EntriesFor(order, bodies))[x] == BodyOf(bodies, x)
      {
        if x != order[n] {
          assert x in order[..n];
        }
      }
    }
  }

  lemma LatestOfEntries(order: seq<string>, bodies: map<string, string>)
    requires Distinct(order)
    ensures Latest(EntriesFor(order, bodies)) == EntriesFor(order, bodies)
  {
    var es := EntriesFor(order, bodies);
    assert NamesOf(es) == order;
    FirstSeenDistinct(order);
    BodiesOfEntries(order, bodies);
  }

  // ---------------------------------------------------------------------------------------------
  // The two merges
  // ---------------------------------------------------------------------------------------------

  /** Older entries not named again, then the newer ones. */
  function MergeEditsSpec(older: seq<Entry>, newer: seq<Entry>): (r: seq<Entry>) {
    Without(older, NamesOf(newer)) + Latest(newer)
  }

  function Without(es: seq<Entry>, names: seq<string>): (r: seq<Entry>) {
    if es == [] then []
    else (if es[0].name in names then [] else [es[0]]) + Without(es[1..], names)
  }

  /** Older entries in place, with the newer body where there is one; then the new names. */
  function MergeSkillsSpec(older: seq<Entry>, newer: seq<Entry>): (r: seq<Entry>) {
    Refreshed(older, Bodies(newer)) + Without(newer, NamesOf(older))
  }

  function Refreshed(es: seq<Entry>, bodies: map<string, string>): (r: seq<Entry>)
    ensures |r| == |es|
    ensures forall i | 0 <= i < |r| ::
              r[i] == Entry(es[i].name, if es[i].name in bodies then bodies[es[i].name] else es[i].body)
  {
    seq(|es|, i requires 0 <= i < |es| =>
      Entry(es[i].name, if es[i].name in bodies then bodies[es[i].name] else es[i].body))
  }

  lemma {:induction false} WithoutConcat(xs: seq<Entry>, ys: seq<Entry>, names: seq<string>)
    ensures Without(xs + ys, names) == Without(xs, names) + Without(ys, names)
  {
    if xs == [] {
      assert xs + ys == ys;
    } else {
      assert (xs + ys)[1..] == xs[1..] + ys;
      WithoutConcat(xs[1..], ys, names);
    }
  }

  lemma {:induction false} WithoutEntries(order: seq<string>, bodies: map<string, string>, names: seq<string>)
    ensures Without(EntriesFor(order, bodies), names) == EntriesFor(Minus(order, names), bodies)
  {
    if order != [] {
      assert EntriesFor(order, bodies)[1..] == EntriesFor(order[1..], bodies);
      WithoutEntries(order[1..], bodies, names);
    }
  }

  /** Entries may read a larger table as long as it agrees on their names. */
  lemma EntriesAgree(order: seq<string>, b1: map<string, string>, b2: map<string, string>)
    requires forall x | x in order :: BodyOf(b1, x) == BodyOf(b2, x)
    ensures EntriesFor(order, b1) == EntriesFor(order, b2)
  {
    assert forall i | 0 <= i < |order| :: order[i] in order;
  }

  lemma MergeEditsEntries(o1: seq<string>, b1: map<string, string>, o2: seq<string>, b2: map<string, string>)
    requires Distinct(o2)
    ensures MergeEditsSpec(EntriesFor(o1, b1), EntriesFor(o2, b2))
            == EntriesFor(Minus(o1, o2), b1) + EntriesFor(o2, b2)
  {
    assert NamesOf(EntriesFor(o2, b2)) == o2;
    WithoutEntries(o1, b1, o2);
    LatestOfEntries(o2, b2);
  }

  /** Merging two extractions of named bodies is one extraction over both. */
  lemma MergeLatest(xs: seq<Entry>, ys: seq<Entry>)
    ensures MergeSkillsSpec(Latest(xs), Latest(ys)) == Latest(xs + ys)
  {
    var o1, o2 := FirstSeen(NamesOf(xs)), FirstSeen(NamesOf(ys));
    var b1, b2 := Bodies(xs), Bodies(ys);
    FirstSeenMembers(NamesOf(xs));
    FirstSeenMembers(NamesOf(ys));
    RefreshedEntries(o1, b1, o2, b2);
    NewEntries(o1, b1, o2, b2);
    LatestOfBoth(xs, ys);
    assert NamesOf(Latest(xs)) == o1;
  }

  lemma NewEntries(o1: seq<string>, b1: map<string, string>, o2: seq<string>, b2: map<string, string>)
    requires forall x :: x in b2 <==> x in o2
    ensures Without(EntriesFor(o2, b2), o1) == EntriesFor(Minus(o2, o1), b1 + b2)
  {
    WithoutEntries(o2, b2, o1);
    MinusMembers(o2, o1);
    EntriesAgree(Minus(o2, o1), b2, b1 + b2);
  }

  lemma LatestOfBoth(xs: seq<Entry>, ys: seq<Entry>)
    ensures var o1, o2 := FirstSeen(NamesOf(xs)), FirstSeen(NamesOf(ys));
            var bodies := Bodies(xs) + Bodies(ys);
            Latest(xs + ys) == EntriesFor(o1, bodies) + EntriesFor(Minus(o2, o1), bodies)
  {
    var o1, o2 := FirstSeen(NamesOf(xs)), FirstSeen(NamesOf(ys));
    BodiesConcat(xs, ys);
    NamesOfBoth(xs, ys);
    EntriesConcat(o1, Minus(o2, o1), Bodies(xs) + Bodies(ys));
  }

  lemma NamesOfBoth(xs: seq<Entry>, ys: seq<Entry>)
    ensures var o1, o2 := FirstSeen(NamesOf(xs)), FirstSeen(NamesOf(ys));
            FirstSeen(NamesOf(xs + ys)) == o1 + Minus(o2, o1)
  {
    assert NamesOf(xs + ys) == NamesOf(xs) + NamesOf(ys);
    FirstSeenConcat(NamesOf(xs), NamesOf(ys));
    FirstSeenMembers(NamesOf(xs));
    MinusSameMembers(FirstSeen(NamesOf(ys)), FirstSeen(NamesOf(xs)), NamesOf(xs));
  }

  lemma EntriesConcat(o1: seq<string>, o2: seq<string>, bodies: map<string, string>)
    ensures EntriesFor(o1 + o2, bodies) == EntriesFor(o1, bodies) + EntriesFor(o2, bodies)
  {
  }

  lemma RefreshedEntries(o1: seq<string>, b1: map<string, string>, o2: seq<string>, b2: map<string, string>)
    requires forall x :: x in b2 <==> x in o2
    requires forall x | x in o1 :: x in b1
    ensures Refreshed(EntriesFor(o1, b1), Bodies(EntriesFor(o2, b2))) == EntriesFor(o1, b1 + b2)
  {
    BodiesOfEntries(o2, b2);
    assert NamesOf(EntriesFor(o2, b2)) == o2;
    assert forall i | 0 <= i < |o1| :: o1[i] in o1;
  }
}
