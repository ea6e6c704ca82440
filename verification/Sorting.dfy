/** Stable sorting by a total preorder, as Python's `sorted` does it.  `reverse=True` keeps the
    order of equal elements too, so it is the same sort by the converse preorder. */
module Sorting {

  ghost predicate TotalPreorder<T(!new)>(leq: (T, T) -> bool) {
    && (forall x, y :: leq(x, y) || leq(y, x))
    && (forall x, y, z :: leq(x, y) && leq(y, z) ==> leq(x, z))
  }

  ghost predicate Sorted<T>(s: seq<T>, leq: (T, T) -> bool) {
    forall i, j :: 0 <= i < j < |s| ==> leq(s[i], s[j])
  }

  ghost predicate NoDuplicates<T>(s: seq<T>) {
    forall i, j :: 0 <= i < j < |s| ==> s[i] != s[j]
  }

  /** Put x in front of the first element it is not above. */
  function Insert<T>(x: T, s: seq<T>, leq: (T, T) -> bool): seq<T> {
    if s == [] || leq(x, s[0]) then [x] + s else [s[0]] + Insert(x, s[1..], leq)
  }

  function Sort<T>(s: seq<T>, leq: (T, T) -> bool): seq<T> {
    if s == [] then [] else Insert(s[0], Sort(s[1..], leq), leq)
  }

  /** Where Insert puts x. */
  function Slot<T>(x: T, s: seq<T>, leq: (T, T) -> bool): (k: nat)
    ensures k <= |s|
    ensures Insert(x, s, leq) == s[..k] + [x] + s[k..]
    ensures forall i :: 0 <= i < k ==> !leq(x, s[i])
    ensures k < |s| ==> leq(x, s[k])
  {
    if s == [] || leq(x, s[0]) then 0
    else
      var k := Slot(x, s[1..], leq);
      SlotMoves(x, s, k);
      k + 1
  }

  lemma SlotMoves<T>(x: T, s: seq<T>, k: nat)
    requires k < |s|
    ensures [s[0]] + (s[1..][..k] + [x] + s[1..][k..]) == s[..k + 1] + [x] + s[k + 1..]
  {
  }

  lemma {:induction false} SortPermutes<T>(s: seq<T>, leq: (T, T) -> bool)
    ensures multiset(Sort(s, leq)) == multiset(s) && |Sort(s, leq)| == |s|
  {
    if s != [] {
      var rest := Sort(s[1..], leq);
      SortPermutes(s[1..], leq);
      var k := Slot(s[0], rest, leq);
      assert Sort(s, leq) == rest[..k] + [s[0]] + rest[k..];
      hide Sort, Insert;
      assert s == [s[0]] + s[1..];
      assert rest == rest[..k] + rest[k..];
    }
  }

  lemma SortHas<T>(s: seq<T>, leq: (T, T) -> bool, x: T)
    ensures x in Sort(s, leq) <==> x in s
  {
    SortPermutes(s, leq);
    assert x in Sort(s, leq) <==> x in multiset(Sort(s, leq));
  }

  lemma {:induction false} SortSorts<T(!new)>(s: seq<T>, leq: (T, T) -> bool)
    requires TotalPreorder(leq)
    ensures Sorted(Sort(s, leq), leq)
  {
    if s != [] {
      var rest := Sort(s[1..], leq);
      SortSorts(s[1..], leq);
      var k := Slot(s[0], rest, leq);
      var out := Sort(s, leq);
      forall i, j | 0 <= i < j < |out| ensures leq(out[i], out[j]) {
        if i == k && k < |rest| {
          assert leq(s[0], rest[k]);
          assert j - 1 == k || leq(rest[k], rest[j - 1]);
        } else if i < k && j > k {
          assert leq(rest[i], rest[j - 1]);
        }
      }
    }
  }

  lemma InsertedAt<T>(x: T, s: seq<T>, leq: (T, T) -> bool, i: nat)
    requires i <= |s|
    ensures |Insert(x, s, leq)| == |s| + 1
    ensures var k := Slot(x, s, leq);
      Insert(x, s, leq)[i] == if i < k then s[i] else if i == k then x else s[i - 1]
  {
    var k := Slot(x, s, leq);
  }

  /** x stands before y somewhere in s. */
  ghost predicate Before<T>(s: seq<T>, x: T, y: T) {
    exists i, j :: 0 <= i < j < |s| && s[i] == x && s[j] == y
  }

  lemma BeforeInTail<T>(s: seq<T>, x: T, y: T)
    requires s != []
    ensures x == s[0] && y in s[1..] ==> Before(s, x, y)
    ensures Before(s[1..], x, y) ==> Before(s, x, y)
  {
    if x == s[0] && y in s[1..] {
      var j :| 0 <= j < |s[1..]| && s[1..][j] == y;
      assert s[0] == x && s[j + 1] == y;
    }
    if Before(s[1..], x, y) {
      var i, j :| 0 <= i < j < |s[1..]| && s[1..][i] == x && s[1..][j] == y;
      assert s[i + 1] == x && s[j + 1] == y;
    }
  }

  /** Elements of equal rank come out in the order they went in. */
  lemma {:induction false} SortKeepsTies<T>(s: seq<T>, leq: (T, T) -> bool, p: nat, q: nat)
    requires |Sort(s, leq)| == |s| && p < q < |s|
    requires leq(Sort(s, leq)[q], Sort(s, leq)[p])
    ensures Before(s, Sort(s, leq)[p], Sort(s, leq)[q])
  {
    var rest := Sort(s[1..], leq);
    var k := Slot(s[0], rest, leq);
    SortPermutes(s[1..], leq);
    InsertedAt(s[0], rest, leq, p);
    InsertedAt(s[0], rest, leq, q);
    SortHas(s[1..], leq, Sort(s, leq)[q]);
    BeforeInTail(s, Sort(s, leq)[p], Sort(s, leq)[q]);
    if p == k {
      assert rest[q - 1] in rest;
    } else if p != k && q != k {
      SortKeepsTies(s[1..], leq, if p < k then p else p - 1, if q < k then q else q - 1);
    }
  }

  lemma LeastFirst<T>(a: seq<T>, b: seq<T>, leq: (T, T) -> bool)
    requires a != [] && Sorted(a, leq) && Sorted(b, leq) && multiset(a) == multiset(b)
    requires forall x, y :: x in a && y in a && leq(x, y) && leq(y, x) ==> x == y
    ensures b != [] && a[0] == b[0]
  {
    assert a[0] in multiset(b);
    assert b[0] in multiset(a);
    var j :| 0 <= j < |b| && b[j] == a[0];
    var i :| 0 <= i < |a| && a[i] == b[0];
    assert i == 0 || leq(a[0], a[i]);
    assert j == 0 || leq(b[0], b[j]);
  }

  /** Where no two different elements of s have equal rank, there is one sorted order only. */
  lemma {:induction false} SortedIsUnique<T>(a: seq<T>, b: seq<T>, leq: (T, T) -> bool)
    requires Sorted(a, leq) && Sorted(b, leq) && multiset(a) == multiset(b)
    requires forall x, y :: x in a && y in a && leq(x, y) && leq(y, x) ==> x == y
    ensures a == b
  {
    if a == [] {
      assert |multiset(b)| == 0;
    } else {
      LeastFirst(a, b, leq);
      RestPermutes(a, b);
      assert a == [a[0]] + a[1..] && b == [b[0]] + b[1..];
      SortedIsUnique(a[1..], b[1..], leq);
    }
  }

  lemma RestPermutes<T>(a: seq<T>, b: seq<T>)
    requires multiset(a) == multiset(b) && a != [] && b != [] && a[0] == b[0]
    ensures multiset(a[1..]) == multiset(b[1..])
  {
    RestOf(a);
    RestOf(b);
  }

  lemma RestOf<T>(s: seq<T>)
    requires s != []
    ensures multiset(s[1..]) == multiset(s) - multiset{s[0]}
  {
    assert s == [s[0]] + s[1..];
  }

  lemma TwoOut<T>(s: seq<T>, i: nat, j: nat)
    requires i < j < |s|
    ensures var rest := s[..i] + s[i + 1..j] + s[j + 1..];
      multiset([s[i], s[j]] + rest) == multiset([s[j], s[i]] + rest) == multiset(s)
  {
    assert s == s[..i] + [s[i]] + s[i + 1..j] + [s[j]] + s[j + 1..];
  }

  lemma PermutationKeepsDistinct<T>(a: seq<T>, b: seq<T>)
    requires multiset(a) == multiset(b) && NoDuplicates(a)
    ensures NoDuplicates(b)
  {
    forall i, j | 0 <= i < j < |b| ensures b[i] != b[j] {
      if b[i] == b[j] {
        TwiceIsTwo(b, i, j);
        DistinctIsOne(a, b[i]);
      }
    }
  }

  lemma TwiceIsTwo<T>(s: seq<T>, i: nat, j: nat)
    requires i < j < |s| && s[i] == s[j]
    ensures multiset(s)[s[i]] >= 2
  {
    assert s == s[..i] + [s[i]] + s[i + 1..j] + [s[j]] + s[j + 1..];
  }

  lemma {:induction false} DistinctIsOne<T>(s: seq<T>, x: T)
    requires NoDuplicates(s)
    ensures multiset(s)[x] <= 1
  {
    if s != [] {
      assert s == [s[0]] + s[1..];
      DistinctIsOne(s[1..], x);
      if s[0] == x {
        assert x !in s[1..];
      }
    }
  }

  // ---- mapping a list ----

  function Mapped<T, U>(s: seq<T>, f: T -> U): seq<U> {
    seq(|s|, i requires 0 <= i < |s| => f(s[i]))
  }

  lemma MappedRemove<T, U>(s: seq<T>, j: nat, f: T -> U)
    requires j < |s|
    ensures multiset(s[..j] + s[j + 1..]) == multiset(s) - multiset{s[j]}
    ensures multiset(Mapped(s, f)) == multiset(Mapped(s[..j] + s[j + 1..], f)) + multiset{f(s[j])}
  {
    assert s == s[..j] + [s[j]] + s[j + 1..];
    assert Mapped(s, f) == Mapped(s[..j], f) + [f(s[j])] + Mapped(s[j + 1..], f);
    assert Mapped(s[..j] + s[j + 1..], f) == Mapped(s[..j], f) + Mapped(s[j + 1..], f);
  }

  lemma {:induction false} MappedPermute<T, U>(a: seq<T>, b: seq<T>, f: T -> U)
    requires multiset(a) == multiset(b)
    ensures multiset(Mapped(a, f)) == multiset(Mapped(b, f))
    decreases |a|
  {
    hide Mapped;
    if a == [] {
      assert |multiset(b)| == 0;
    } else {
      var j := HolderIn(b, a[0]);
      MappedRemove(a, 0, f);
      MappedRemove(b, j, f);
      MappedPermute(a[..0] + a[0 + 1..], b[..j] + b[j + 1..], f);
    }
  }

  lemma HolderIn<T>(b: seq<T>, x: T) returns (j: nat)
    requires x in multiset(b)
    ensures j < |b| && b[j] == x
  {
    j :| 0 <= j < |b| && b[j] == x;
  }

  /** Sorting by a key sorts the keys. */
  lemma {:induction false} SortMapped<T(!new), U>(s: seq<T>, leq: (T, T) -> bool, f: T -> U, below: (U, U) -> bool)
    requires forall x, y :: leq(x, y) == below(f(x), f(y))
    ensures Mapped(Sort(s, leq), f) == Sort(Mapped(s, f), below)
  {
    if s != [] {
      SortMapped(s[1..], leq, f, below);
      InsertMapped(s[0], Sort(s[1..], leq), leq, f, below);
      assert Mapped(s, f)[1..] == Mapped(s[1..], f);
    }
  }

  lemma {:induction false} InsertMapped<T(!new), U>(x: T, s: seq<T>, leq: (T, T) -> bool, f: T -> U, below: (U, U) -> bool)
    requires forall x, y :: leq(x, y) == below(f(x), f(y))
    ensures Mapped(Insert(x, s, leq), f) == Insert(f(x), Mapped(s, f), below)
  {
    if s != [] && !leq(x, s[0]) {
      InsertMapped(x, s[1..], leq, f, below);
      assert Mapped(s, f)[1..] == Mapped(s[1..], f);
      assert Mapped([s[0]] + Insert(x, s[1..], leq), f) == [f(s[0])] + Mapped(Insert(x, s[1..], leq), f);
    } else {
      assert Mapped([x] + s, f) == [f(x)] + Mapped(s, f);
    }
  }
}
