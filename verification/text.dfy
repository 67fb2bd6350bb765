/** Byte strings and the few string-library operations the modelled code relies on.
    A Go string is a sequence of bytes; here it is a `string` holding one char per byte. */
module Text {

  datatype Option<+T> = None | Some(value: T) {
    function GetOr(default: T): T {
      if None? then default else value
    }
  }

  predicate IsSpace(c: char) {
    c == ' ' || c == '\t' || c == '\n' || c == '\r' || c == '\U{0B}' || c == '\U{0C}'
  }

  function TrimLeft(s: string): string {
    if s != [] && IsSpace(s[0]) then TrimLeft(s[1..]) else s
  }

  function TrimRight(s: string): string {
    if s != [] && IsSpace(s[|s| - 1]) then TrimRight(s[..|s| - 1]) else s
  }

  function TrimSpace(s: string): string {
    TrimRight(TrimLeft(s))
  }

  /** The largest index at which `pattern` occurs in `s`, or -1. */
  function LastIndex(s: string, pattern: string): (at: int)
    ensures -1 <= at <= |s|
    ensures at >= 0 ==> pattern <= s[at..]
    ensures forall j | at < j <= |s| :: !(pattern <= s[j..])
  {
    LastIndexUpTo(s, pattern, |s|)
  }

  function LastIndexUpTo(s: string, pattern: string, i: nat): (at: int)
    requires i <= |s|
    ensures -1 <= at <= i
    ensures at >= 0 ==> pattern <= s[at..]
    ensures forall j | at < j <= i :: !(pattern <= s[j..])
  {
    if pattern <= s[i..] then i
    else if i == 0 then -1
    else LastIndexUpTo(s, pattern, i - 1)
  }

  /** The first line of `s`. */
  function FirstLine(s: string): (line: string)
    ensures '\n' !in s ==> line == s
  {
    if s == [] || s[0] == '\n' then [] else [s[0]] + FirstLine(s[1..])
  }

  lemma {:induction false} TrimKeepsFirst(s: string)
    requires s != [] && !IsSpace(s[0])
    ensures TrimSpace(s) != [] && TrimSpace(s)[0] == s[0]
    decreases |s|
  {
    assert TrimLeft(s) == s;
    if |s| > 1 && IsSpace(s[|s| - 1]) {
      TrimKeepsFirst(s[..|s| - 1]);
    }
  }

  lemma {:induction false} TrimKeepsPrefix(p: string, s: string)
    requires p != [] && !IsSpace(p[0]) && !IsSpace(p[|p| - 1])
    requires p <= s
    ensures p <= TrimSpace(s)
  {
    assert s[0] == p[0];
    TrimRightKeepsPrefix(p, s);
  }

  lemma {:induction false} TrimRightKeepsPrefix(p: string, s: string)
    requires p != [] && !IsSpace(p[|p| - 1])
    requires p <= s
    ensures p <= TrimRight(s)
    decreases |s|
  {
    if IsSpace(s[|s| - 1]) {
      if |s| == |p| {
        assert false;
      } else {
        TrimRightKeepsPrefix(p, s[..|s| - 1]);
      }
    }
  }

  /** Byte-wise order of strings, as the sort package uses it. */
  predicate Before(a: string, b: string) {
    b != [] && (a == [] || a[0] < b[0] || (a[0] == b[0] && Before(a[1..], b[1..])))
  }

  lemma {:induction false} BeforeTrichotomy(a: string, b: string)
    ensures a == b || Before(a, b) || Before(b, a)
    ensures !(Before(a, b) && Before(b, a))
    ensures Before(a, b) ==> a != b
  {
    if a != [] && b != [] {
      BeforeTrichotomy(a[1..], b[1..]);
      if a[0] == b[0] && a[1..] == b[1..] {
        assert a == [a[0]] + a[1..] == b;
      }
    }
  }

  lemma {:induction false} BeforeTransitive(a: string, b: string, c: string)
    requires Before(a, b) && Before(b, c)
    ensures Before(a, c)
  {
    if a != [] && a[0] == b[0] == c[0] {
      BeforeTransitive(a[1..], b[1..], c[1..]);
    }
  }

  /** Strictly increasing: sorted and without duplicates. */
  ghost predicate Increasing(xs: seq<string>) {
    forall i, j | 0 <= i < j < |xs| :: Before(xs[i], xs[j])
  }

  lemma FirstIsMember(ys: seq<string>)
    requires ys != []
    ensures exists y :: y in ys
  {
    assert ys[0] in ys;
  }

  /** A sequence of distinct strings has one increasing arrangement. */
  lemma {:induction false} IncreasingUnique(xs: seq<string>, ys: seq<string>)
    requires Increasing(xs) && Increasing(ys)
    requires forall x :: x in xs <==> x in ys
    ensures xs == ys
  {
    if xs == [] {
      if ys != [] {
        FirstIsMember(ys);
      }
    } else {
      assert xs[0] in ys && (ys != [] ==> ys[0] in xs);
      if xs[0] != ys[0] {
        var i :| 0 <= i < |ys| && ys[i] == xs[0];
        var j :| 0 <= j < |xs| && xs[j] == ys[0];
        assert Before(ys[0], ys[i]) && Before(xs[0], xs[j]);
        BeforeTrichotomy(xs[0], ys[0]);
        assert false;
      }
      forall x ensures x in xs[1..] <==> x in ys[1..] {
        TailMembers(xs, x);
        TailMembers(ys, x);
      }
      IncreasingUnique(xs[1..], ys[1..]);
      assert xs == [xs[0]] + xs[1..] && ys == [ys[0]] + ys[1..];
    }
  }

  lemma TailMembers(xs: seq<string>, x: string)
    requires Increasing(xs) && xs != []
    ensures x in xs[1..] <==> x in xs && x != xs[0]
  {
    if x in xs[1..] {
      var k :| 0 <= k < |xs[1..]| && xs[1..][k] == x;
      assert Before(xs[0], xs[k + 1]);
      BeforeTrichotomy(xs[0], x);
    }
    if x in xs && x != xs[0] {
      var k :| 0 <= k < |xs| && xs[k] == x;
      assert xs[1..][k - 1] == x;
    }
  }

  /** What `sort.Strings` leaves of a collection of distinct strings. */
  function InsertSorted(x: string, xs: seq<string>): (r: seq<string>)
    ensures forall y :: y in r <==> y == x || y in xs
  {
    if xs == [] then [x]
    else if x == xs[0] then xs
    else if Before(x, xs[0]) then [x] + xs
    else
      var rest := InsertSorted(x, xs[1..]);
      assert forall y :: y in xs <==> y == xs[0] || y in xs[1..];
      [xs[0]] + rest
  }

  lemma {:induction false} InsertKeepsIncreasing(x: string, xs: seq<string>)
    requires Increasing(xs)
    ensures Increasing(InsertSorted(x, xs))
  {
    if xs != [] && x != xs[0] {
      if Before(x, xs[0]) {
        forall i | 0 <= i < |xs| ensures Before(x, xs[i]) {
          if i > 0 {
            BeforeTransitive(x, xs[0], xs[i]);
          }
        }
      } else {
        InsertKeepsIncreasing(x, xs[1..]);
        BeforeTrichotomy(x, xs[0]);
        var rest := InsertSorted(x, xs[1..]);
        forall i | 0 <= i < |rest| ensures Before(xs[0], rest[i]) {
          assert rest[i] in rest;
        }
      }
    }
  }

  /** Not decreasing: sorted, duplicates allowed. */
  ghost predicate Sorted(xs: seq<string>) {
    forall i, j | 0 <= i < j < |xs| :: xs[i] == xs[j] || Before(xs[i], xs[j])
  }

  /** `xs` with duplicates kept, as `sort.Strings` leaves it. */
  function Sort(xs: seq<string>): (r: seq<string>)
    ensures |r| == |xs| && forall y :: y in r <==> y in xs
  {
    if xs == [] then []
    else
      var rest := Sort(xs[1..]);
      assert forall y :: y in xs <==> y == xs[0] || y in xs[1..];
      Insert(xs[0], rest)
  }

  function Insert(x: string, xs: seq<string>): (r: seq<string>)
    ensures |r| == |xs| + 1 && forall y :: y in r <==> y == x || y in xs
  {
    if xs == [] then [x]
    else if x == xs[0] || Before(x, xs[0]) then [x] + xs
    else
      assert forall y :: y in xs <==> y == xs[0] || y in xs[1..];
      [xs[0]] + Insert(x, xs[1..])
  }

  lemma {:induction false} InsertKeepsSorted(x: string, xs: seq<string>)
    requires Sorted(xs)
    ensures Sorted(Insert(x, xs))
  {
    if xs != [] {
      if x == xs[0] || Before(x, xs[0]) {
        forall i | 0 <= i < |xs| ensures x == xs[i] || Before(x, xs[i]) {
          if i > 0 && x != xs[0] && xs[0] != xs[i] {
            BeforeTransitive(x, xs[0], xs[i]);
          }
        }
      } else {
        InsertKeepsSorted(x, xs[1..]);
        BeforeTrichotomy(x, xs[0]);
        var rest := Insert(x, xs[1..]);
        forall i | 0 <= i < |rest| ensures xs[0] == rest[i] || Before(xs[0], rest[i]) {
          assert rest[i] in rest;
        }
      }
    }
  }

  lemma {:induction false} SortSorts(xs: seq<string>)
    ensures Sorted(Sort(xs))
  {
    if xs != [] {
      SortSorts(xs[1..]);
      InsertKeepsSorted(xs[0], Sort(xs[1..]));
    }
  }

  /** The distinct strings of `xs`, sorted. */
  function SortedSet(xs: seq<string>): (r: seq<string>)
    ensures forall y :: y in r <==> y in xs
  {
    if xs == [] then []
    else
      var r := InsertSorted(xs[0], SortedSet(xs[1..]));
      assert forall y :: y in xs <==> y == xs[0] || y in xs[1..];
      r
  }

  lemma {:induction false} SortedSetIncreasing(xs: seq<string>)
    ensures Increasing(SortedSet(xs))
  {
    if xs != [] {
      SortedSetIncreasing(xs[1..]);
      InsertKeepsIncreasing(xs[0], SortedSet(xs[1..]));
    }
  }
}
