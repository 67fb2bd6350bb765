/** UTF-8, as sections 3 and 4 of RFC 3629 define it. */
module Utf8 {

  newtype byte = b: int | 0 <= b < 256

  type Bytes = seq<byte>

  predicate Tail(b: byte) { 0x80 <= b <= 0xBF }

  /** Length of the character `s` begins with, or 0 when it begins with none. */
  function CharLength(s: Bytes): (n: nat)
    ensures n <= |s| && n <= 4
  {
    if s == [] then 0
    else if s[0] <= 0x7F then 1
    else if |s| < 2 then 0
    else if 0xC2 <= s[0] <= 0xDF then (if Tail(s[1]) then 2 else 0)
    else if |s| < 3 then 0
    else if 0xE0 <= s[0] <= 0xEF then
      if (if s[0] == 0xE0 then 0xA0 <= s[1] <= 0xBF else if s[0] == 0xED then 0x80 <= s[1] <= 0x9F else Tail(s[1])) && Tail(s[2])
      then 3 else 0
    else if |s| < 4 then 0
    else if 0xF0 <= s[0] <= 0xF4 then
      if (if s[0] == 0xF0 then 0x90 <= s[1] <= 0xBF else if s[0] == 0xF4 then 0x80 <= s[1] <= 0x8F else Tail(s[1]))
         && Tail(s[2]) && Tail(s[3])
      then 4 else 0
    else 0
  }

  predicate Valid(s: Bytes)
    decreases |s|
  {
    s == [] || (CharLength(s) > 0 && Valid(s[CharLength(s)..]))
  }

  /** utf8.RuneStart. */
  predicate RuneStart(b: byte) { !Tail(b) }

  predicate Boundary(s: Bytes, i: nat) { i == 0 || (i < |s| && RuneStart(s[i])) }

  lemma FirstCharOf(s: Bytes, i: nat)
    requires 0 < CharLength(s) <= i <= |s|
    ensures CharLength(s[..i]) == CharLength(s)
    ensures s[..i][CharLength(s)..] == s[CharLength(s)..][..i - CharLength(s)]
  {
  }

  lemma InsideFirstChar(s: Bytes, i: nat)
    requires 0 < i < CharLength(s)
    ensures Tail(s[i])
  {
  }

  /** Cutting valid text where a character starts leaves valid text. */
  lemma {:induction false} CutIsValid(s: Bytes, i: nat)
    requires Valid(s) && i <= |s| && (Boundary(s, i) || i == |s|)
    ensures Valid(s[..i])
    decreases |s|
  {
    if i == 0 {
      assert s[..i] == [];
    } else {
      var n := CharLength(s);
      if i < n {
        InsideFirstChar(s, i);
      }
      FirstCharOf(s, i);
      CutIsValid(s[n..], i - n);
    }
  }

  lemma CharOfJoined(a: Bytes, b: Bytes)
    requires CharLength(a) > 0
    ensures CharLength(a + b) == CharLength(a)
    ensures (a + b)[CharLength(a)..] == a[CharLength(a)..] + b
  {
  }

  lemma {:induction false} JoinIsValid(a: Bytes, b: Bytes)
    requires Valid(a) && Valid(b)
    ensures Valid(a + b)
    decreases |a|
  {
    if a == [] {
      assert a + b == b;
    } else {
      CharOfJoined(a, b);
      JoinIsValid(a[CharLength(a)..], b);
    }
  }

  lemma {:induction false} AsciiIsValid(s: Bytes)
    requires forall i | 0 <= i < |s| :: s[i] <= 0x7F
    ensures Valid(s)
    decreases |s|
  {
    if s != [] {
      AsciiIsValid(s[1..]);
    }
  }

  /** The last character start at or before `i`. */
  function LastStart(s: Bytes, i: nat): (j: nat)
    requires i < |s|
    ensures j <= i && Boundary(s, j)
    ensures forall k | j < k <= i :: !Boundary(s, k)
  {
    if Boundary(s, i) then i else LastStart(s, i - 1)
  }

  /** Backing up to a character start gives up at most three bytes. */
  lemma {:induction false} StartIsNear(s: Bytes, i: nat)
    requires Valid(s) && i < |s|
    ensures LastStart(s, i) + 3 >= i
    decreases |s|
  {
    var n := CharLength(s);
    if n <= i {
      StartIsNear(s[n..], i - n);
      var j := LastStart(s[n..], i - n);
      assert j > 0 ==> s[n..][j] == s[n + j];
      if j == 0 {
        StartsAfter(s, n);
        assert Boundary(s, n);
      } else {
        assert Boundary(s, n + j);
      }
    }
  }

  lemma StartsAfter(s: Bytes, n: nat)
    requires Valid(s) && n == CharLength(s) && 0 < n < |s|
    ensures RuneStart(s[n])
  {
    assert s[n..][0] == s[n];
    assert CharLength(s[n..]) > 0;
  }

  function AsBytes(s: string): Bytes
    requires forall i | 0 <= i < |s| :: s[i] as int < 256
  {
    seq(|s|, i requires 0 <= i < |s| => s[i] as int as byte)
  }

  /** A string, one char per byte, that is valid text. */
  ghost predicate IsText(s: string) {
    (forall i | 0 <= i < |s| :: s[i] as int < 256) && Valid(AsBytes(s))
  }

  lemma AsciiIsText(s: string)
    requires forall i | 0 <= i < |s| :: s[i] as int < 128
    ensures IsText(s)
  {
    AsciiIsValid(AsBytes(s));
  }
}
