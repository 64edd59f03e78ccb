/** Small facts about sequences shared by the graph, planner and economy models. */
module Seqs {

  /** No element occurs twice. */
  ghost predicate NoDuplicates<T>(s: seq<T>) {
    forall i, j :: 0 <= i < j < |s| ==> s[i] != s[j]
  }

  /** Number of occurrences of `x` in `s`. */
  function Count<T(==)>(s: seq<T>, x: T): nat {
    if s == [] then 0 else (if s[0] == x then 1 else 0) + Count(s[1..], x)
  }

  /** `n` copies of `x`. */
  function Repeat<T>(x: T, n: nat): (r: seq<T>)
    ensures |r| == n
    ensures forall i :: 0 <= i < n ==> r[i] == x
  {
    if n == 0 then [] else [x] + Repeat(x, n - 1)
  }

  /** Index of the first occurrence of `x` in `s`. */
  function FirstIndex<T(==)>(s: seq<T>, x: T): (i: nat)
    requires x in s
    ensures i < |s| && s[i] == x
    ensures x !in s[..i]
  {
    if s[0] == x then 0
    else
      var j := FirstIndex(s[1..], x);
      assert s[..j + 1] == [s[0]] + s[1..][..j];
      j + 1
  }

  /** `s` without the first occurrence of `x` (Python's `list.remove`). */
  function RemoveFirst<T(==)>(s: seq<T>, x: T): (r: seq<T>)
    requires x in s
    ensures r == s[..FirstIndex(s, x)] + s[FirstIndex(s, x) + 1..]
    ensures |r| == |s| - 1
  {
    if s[0] == x then s[1..]
    else
      var rest := RemoveFirst(s[1..], x);
      assert FirstIndex(s, x) == FirstIndex(s[1..], x) + 1;
      DropAfterHead(s, FirstIndex(s, x));
      [s[0]] + rest
  }

  lemma {:induction false} CountConcat<T>(a: seq<T>, b: seq<T>, x: T)
    ensures Count(a + b, x) == Count(a, x) + Count(b, x)
  {
    if a != [] {
      assert (a + b)[1..] == a[1..] + b;
      CountConcat(a[1..], b, x);
    } else {
      assert a + b == b;
    }
  }

  lemma {:induction false} CountRepeat<T>(y: T, n: nat, x: T)
    ensures Count(Repeat(y, n), x) == if x == y then n else 0
  {
    if n > 0 {
      assert Repeat(y, n)[1..] == Repeat(y, n - 1);
      CountRepeat(y, n - 1, x);
    }
  }

  lemma {:induction false} CountAbsent<T>(s: seq<T>, x: T)
    requires x !in s
    ensures Count(s, x) == 0
  {
    if s != [] {
      CountAbsent(s[1..], x);
    }
  }

  lemma NoDuplicatesConcat<T>(a: seq<T>, b: seq<T>)
    requires NoDuplicates(a) && NoDuplicates(b)
    requires forall x :: x in a ==> x !in b
    ensures NoDuplicates(a + b)
  {
    forall i, j | 0 <= i < j < |a + b|
      ensures (a + b)[i] != (a + b)[j]
    {
      if j >= |a| && i < |a| {
        assert (a + b)[i] in a;
        assert (a + b)[j] == b[j - |a|];
      }
    }
  }

  /** Dropping element `k > 0` of `s` keeps the head and drops element
      `k - 1` of the tail. */
  lemma DropAfterHead<T>(s: seq<T>, k: nat)
    requires 0 < k < |s|
    ensures s[..k] + s[k + 1..] == [s[0]] + (s[1..][..k - 1] + s[1..][k..])
  {
    assert s[..k] == [s[0]] + s[1..][..k - 1];
    assert s[k + 1..] == s[1..][k..];
  }

  /** Some occurrence of `a` comes before some occurrence of `b`. */
  ghost predicate Before<T>(s: seq<T>, a: T, b: T) {
    exists i, j :: 0 <= i < j < |s| && s[i] == a && s[j] == b
  }

  lemma BeforeInMiddle<T>(a: seq<T>, b: seq<T>, c: seq<T>, x: T, y: T)
    requires Before(b, x, y)
    ensures Before(a + b + c, x, y)
  {
    var i, j :| 0 <= i < j < |b| && b[i] == x && b[j] == y;
    assert (a + b + c)[|a| + i] == x && (a + b + c)[|a| + j] == y;
  }

  lemma BeforeLast<T>(a: seq<T>, b: seq<T>, x: T, y: T)
    requires x in b
    ensures Before(a + b + [y], x, y)
  {
    var i :| 0 <= i < |b| && b[i] == x;
    assert (a + b + [y])[|a| + i] == x && (a + b + [y])[|a| + |b|] == y;
  }

  /** An order that does not start at the head survives dropping the head. */
  lemma BeforeTail<T>(s: seq<T>, x: T, y: T)
    requires Before(s, x, y) && s != [] && s[0] != x
    ensures Before(s[1..], x, y)
  {
    var i, j :| 0 <= i < j < |s| && s[i] == x && s[j] == y;
    assert s[1..][i - 1] == x && s[1..][j - 1] == y;
  }

  lemma ConsAssoc<T>(a: seq<T>, x: T, b: seq<T>)
    ensures a + ([x] + b) == a + [x] + b
  {
  }

  lemma CountSnoc<T>(s: seq<T>, v: T, x: T)
    ensures Count(s + [v], x) == Count(s, x) + if x == v then 1 else 0
  {
    CountConcat(s, [v], x);
    assert [v][1..] == [];
  }

  /** When `done + rest` starts with `head` and the first element of `rest`
      is not in `head`, then `done` is at least as long as `head`. */
  lemma PrefixPastHead<T>(head: seq<T>, tail: seq<T>, done: seq<T>, rest: seq<T>)
    requires head + tail == done + rest && rest != []
    requires forall m :: 0 <= m < |head| ==> head[m] != rest[0]
    ensures |head| <= |done|
  {
    assert (done + rest)[|done|] == rest[0];
  }

  /** Splitting `done + rest == head + tail` after `head`. */
  lemma SplitAfterHead<T>(head: seq<T>, tail: seq<T>, done: seq<T>, rest: seq<T>)
    requires head + tail == done + rest && |head| <= |done|
    ensures done == head + done[|head|..]
    ensures done[|head|..] + rest == tail
  {
    assert forall m :: 0 <= m < |head| ==> done[m] == (done + rest)[m] == (head + tail)[m] == head[m];
    assert done[..|head|] == head;
    assert done == done[..|head|] + done[|head|..];
    assert tail == (head + tail)[|head|..] == (done + rest)[|head|..];
  }
}
