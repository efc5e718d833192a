/** The directional scan used by the dispatcher: the order in which queued
    floors are served, and the queue operations the dispatcher relies on. */
module Scan {

  /** The car's direction of travel; `Stopped` is the idle value 'stopped'. */
  datatype Direction = Up | Down | Stopped

  /** Floor a may be served no later than floor b when scanning in direction d:
      ascending for Up and Stopped, descending for Down (main.js:112-118). */
  predicate Precedes(d: Direction, a: int, b: int) {
    if d == Down then a >= b else a <= b
  }

  /** s is sorted in the scan order of direction d. */
  predicate Ordered(s: seq<int>, d: Direction) {
    forall i, j :: 0 <= i < j < |s| ==> Precedes(d, s[i], s[j])
  }

  predicate NoDuplicates(s: seq<int>) {
    forall i, j :: 0 <= i < j < |s| ==> s[i] != s[j]
  }

  /** Inserts x into a sequence already in scan order. */
  function Insert(x: int, s: seq<int>, d: Direction): (r: seq<int>)
    requires Ordered(s, d)
    ensures Ordered(r, d)
    ensures multiset(r) == multiset(s) + multiset{x}
    ensures NoDuplicates(s) && x !in s ==> NoDuplicates(r)
  {
    if s == [] || Precedes(d, x, s[0]) then
      PrependOrdered(x, s, d);
      PrependNoDuplicates(x, s);
      [x] + s
    else
      assert s == [s[0]] + s[1..];
      TailOrdered(s, d);
      TailNoDuplicates(s);
      var rest := Insert(x, s[1..], d);
      assert forall k :: 0 <= k < |rest| ==> Precedes(d, s[0], rest[k]) by {
        forall k | 0 <= k < |rest| ensures Precedes(d, s[0], rest[k]) {
          assert rest[k] in multiset(rest);
        }
      }
      assert NoDuplicates(s) && x !in s ==> s[0] !in multiset(rest);
      PrependOrdered(s[0], rest, d);
      PrependNoDuplicates(s[0], rest);
      [s[0]] + rest
  }

  lemma PrependOrdered(h: int, s: seq<int>, d: Direction)
    requires Ordered(s, d)
    requires s == [] || Precedes(d, h, s[0])
    ensures Ordered([h] + s, d)
  {
    var r := [h] + s;
    forall i, j | 0 <= i < j < |r| ensures Precedes(d, r[i], r[j]) {
      assert r[j] == s[j - 1];
      if i > 0 {
        assert r[i] == s[i - 1];
      } else if j > 1 {
        assert Precedes(d, s[0], s[j - 1]);
      }
    }
  }

  lemma PrependNoDuplicates(h: int, s: seq<int>)
    ensures NoDuplicates(s) && h !in s ==> NoDuplicates([h] + s)
  {
    var r := [h] + s;
    if NoDuplicates(s) && h !in s {
      forall i, j | 0 <= i < j < |r| ensures r[i] != r[j] {
        assert r[j] == s[j - 1];
        if i > 0 {
          assert r[i] == s[i - 1];
        }
      }
    }
  }

  lemma TailOrdered(s: seq<int>, d: Direction)
    requires s != [] && Ordered(s, d)
    ensures Ordered(s[1..], d)
    ensures forall y :: y in s[1..] ==> Precedes(d, s[0], y)
  {
    forall i, j | 0 <= i < j < |s[1..]| ensures Precedes(d, s[1..][i], s[1..][j]) {
      assert s[1..][i] == s[i + 1] && s[1..][j] == s[j + 1];
    }
    forall y | y in s[1..] ensures Precedes(d, s[0], y) {
      var j :| 0 <= j < |s[1..]| && s[1..][j] == y;
      assert s[j + 1] == y;
    }
  }

  lemma TailNoDuplicates(s: seq<int>)
    requires s != []
    ensures NoDuplicates(s) ==> NoDuplicates(s[1..]) && s[0] !in s[1..]
  {
    if NoDuplicates(s) {
      forall i, j | 0 <= i < j < |s[1..]| ensures s[1..][i] != s[1..][j] {
        assert s[1..][i] == s[i + 1] && s[1..][j] == s[j + 1];
      }
      forall j | 0 <= j < |s[1..]| ensures s[1..][j] != s[0] {
        assert s[1..][j] == s[j + 1];
      }
    }
  }

  /** The queue as JavaScript's Array.prototype.sort leaves it under the
      comparator of main.js:112-118: a sorted permutation of the input. */
  function ScanOrder(s: seq<int>, d: Direction): (r: seq<int>)
    ensures Ordered(r, d)
    ensures multiset(r) == multiset(s)
    ensures |r| == |s|
    ensures forall y :: y in r <==> y in s
    ensures NoDuplicates(s) ==> NoDuplicates(r)
  {
    if s == [] then
      []
    else
      assert s == [s[0]] + s[1..];
      var sorted := ScanOrder(s[1..], d);
      TailNoDuplicates(s);
      var r := Insert(s[0], sorted, d);
      assert |r| == |multiset(r)|;
      assert forall y :: y in r <==> y in multiset(r);
      r
  }

  /** The floor the dispatcher picks: the head of the scan order, which is the
      lowest queued floor when going up or stopped and the highest going down. */
  function NextStop(s: seq<int>, d: Direction): (f: int)
    requires s != []
    ensures f in s
    ensures forall x :: x in s ==> Precedes(d, f, x)
  {
    var r := ScanOrder(s, d);
    assert r[0] in multiset(r);
    assert forall x :: x in s ==> x in multiset(r);
    r[0]
  }

  /** Any two sorted permutations of the same queue are equal, so the model's
      ScanOrder is what every correct sort produces under the comparator. */
  lemma {:induction false} SortedPermutationUnique(a: seq<int>, b: seq<int>, d: Direction)
    requires Ordered(a, d) && Ordered(b, d)
    requires multiset(a) == multiset(b)
    ensures a == b
  {
    if a == [] {
      assert |b| == |multiset(b)| == 0;
    } else {
      assert |b| == |multiset(b)| == |multiset(a)| == |a|;
      assert a[0] in multiset(b);
      assert b[0] in multiset(a);
      assert Precedes(d, b[0], a[0]);
      assert Precedes(d, a[0], b[0]);
      assert a == [a[0]] + a[1..];
      assert b == [b[0]] + b[1..];
      assert a[0] == b[0];
      assert multiset(a[1..]) == multiset(a) - multiset{a[0]};
      assert multiset(b[1..]) == multiset(b) - multiset{b[0]};
      TailOrdered(a, d);
      TailOrdered(b, d);
      SortedPermutationUnique(a[1..], b[1..], d);
    }
  }

  /** queue.filter(floor => floor !== x): every occurrence of x removed, every
      other floor kept as often as it occurs. */
  function Without(s: seq<int>, x: int): (r: seq<int>)
    ensures forall y :: y in r <==> y in s && y != x
    ensures multiset(r) == multiset(s)[x := 0]
    ensures |r| <= |s|
    ensures NoDuplicates(s) ==> NoDuplicates(r)
    ensures x !in s ==> r == s
  {
    if s == [] then
      []
    else
      assert s == [s[0]] + s[1..];
      TailNoDuplicates(s);
      var rest := Without(s[1..], x);
      if s[0] == x then rest else [s[0]] + rest
  }
}
