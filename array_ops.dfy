/**
 * The two JavaScript array built-ins the bus relies on to drop an entity from
 * an active list: `indexOf`, which answers -1 for a missing element, and
 * `splice(start, 1)`, which reads a negative start as counting from the end.
 * Together they give `Removed`, the list `removeEnemy`/`removeBullets` leave
 * behind.
 */
module ArrayOps {

  /** `indexOf`: the first position of `x` in `s`, or -1 when it is absent. */
  function IndexOf<T(==)>(s: seq<T>, x: T): (i: int)
    ensures -1 <= i < |s|
    ensures i == -1 <==> x !in s
    ensures 0 <= i ==> s[i] == x && x !in s[..i]
  {
    if |s| == 0 then -1
    else if s[0] == x then 0
    else
      var j := IndexOf(s[1..], x);
      if j == -1 then -1 else j + 1
  }

  /** Where `splice` starts: a negative start counts back from the end, clamped to the ends. */
  function SpliceStart(length: nat, start: int): (k: nat)
    ensures k <= length
    ensures 0 <= start <= length ==> k == start
    ensures -(length as int) <= start < 0 ==> k == length + start
  {
    if start < 0 then (if length + start < 0 then 0 else length + start)
    else if start < length then start else length
  }

  /** The array left by `splice(start, 1)`: the element at the start position, if any, is gone. */
  function SpliceOne<T>(s: seq<T>, start: int): seq<T>
  {
    var k := SpliceStart(|s|, start);
    if k < |s| then s[..k] + s[k + 1..] else s
  }

  /**
   * `splice(start, 1)` takes out exactly one element, the one at the
   * normalised start, when that start is inside the list, and otherwise
   * leaves the list as it was.
   */
  lemma SpliceOneDropsOne<T>(s: seq<T>, start: int)
    ensures var k := SpliceStart(|s|, start);
      if k < |s| then
        |SpliceOne(s, start)| == |s| - 1 && multiset(SpliceOne(s, start)) + multiset{s[k]} == multiset(s)
      else SpliceOne(s, start) == s
  {
    var k := SpliceStart(|s|, start);
    if k < |s| {
      assert s == s[..k] + [s[k]] + s[k + 1..];
    }
  }

  /** The list `list.splice(list.indexOf(x), 1)` leaves behind. */
  function Removed<T(==)>(s: seq<T>, x: T): seq<T>
  {
    SpliceOne(s, IndexOf(s, x))
  }

  /**
   * Removing a listed element drops its first occurrence and nothing else: the
   * others keep their order, and one copy of `x` leaves the multiset.
   */
  lemma RemovedPresent<T>(s: seq<T>, x: T)
    requires x in s
    ensures var i := IndexOf(s, x);
      0 <= i < |s| && s[i] == x && x !in s[..i] && Removed(s, x) == s[..i] + s[i + 1..]
    ensures |Removed(s, x)| == |s| - 1
    ensures multiset(Removed(s, x)) == multiset(s) - multiset{x}
  {
    var i := IndexOf(s, x);
    assert s == s[..i] + [x] + s[i + 1..];
  }

  /**
   * Removing an element that is not listed is not a no-op: `splice(-1, 1)`
   * drops the LAST element of a non-empty list.
   */
  lemma RemovedAbsent<T>(s: seq<T>, x: T)
    requires x !in s
    ensures |s| > 0 ==> Removed(s, x) == s[..|s| - 1]
    ensures |s| == 0 ==> Removed(s, x) == []
  {
  }

  /**
   * So removing the same element twice is not idempotent: the second call takes
   * away a different element, the one then at the end.
   */
  lemma RemovedTwice<T>(s: seq<T>, x: T)
    requires x in s && multiset(s)[x] == 1 && |s| >= 2
    ensures Removed(Removed(s, x), x) == Removed(s, x)[..|s| - 2]
    ensures |Removed(Removed(s, x), x)| == |s| - 2
  {
    RemovedPresent(s, x);
    var r := Removed(s, x);
    assert x !in multiset(r);
    RemovedAbsent(r, x);
  }
}
