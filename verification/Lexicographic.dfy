/** Lexicographic order on sequences, the way Python compares strings and tuples. */
module Lexicographic {

  function Lex<T(==)>(a: seq<T>, b: seq<T>, leq: (T, T) -> bool): bool {
    if a == [] then true
    else if b == [] then false
    else if a[0] == b[0] then Lex(a[1..], b[1..], leq)
    else leq(a[0], b[0])
  }

  ghost predicate FirstDiffer<T>(a: seq<T>, b: seq<T>, d: nat) {
    d < |a| && d < |b| && a[..d] == b[..d] && a[d] != b[d]
  }

  lemma HeadsDiffer<T>(a: seq<T>, b: seq<T>, d: nat)
    requires 0 < d <= |a| && d <= |b| && a[0] != b[0]
    ensures a[..d] != b[..d]
  {
    assert a[..d][0] == a[0] && b[..d][0] == b[0];
  }

  /** a comes before b if it is a prefix, or at the first position where they differ. */
  lemma {:induction false} LexIff<T>(a: seq<T>, b: seq<T>, leq: (T, T) -> bool)
    ensures Lex(a, b, leq) <==> a <= b || exists d: nat :: FirstDiffer(a, b, d) && leq(a[d], b[d])
  {
    if a != [] && b != [] {
      if a[0] == b[0] {
        LexIff(a[1..], b[1..], leq);
        if d: nat :| FirstDiffer(a[1..], b[1..], d) && leq(a[1..][d], b[1..][d]) {
          assert a[..d + 1] == [a[0]] + a[1..][..d] && b[..d + 1] == [b[0]] + b[1..][..d];
          assert FirstDiffer(a, b, d + 1);
        }
        if d: nat :| FirstDiffer(a, b, d) && leq(a[d], b[d]) {
          assert d > 0 && a[1..][..d - 1] == a[..d][1..] && b[1..][..d - 1] == b[..d][1..];
          assert FirstDiffer(a[1..], b[1..], d - 1);
        }
        if a[1..] <= b[1..] {
          assert a == [a[0]] + a[1..] && b == [b[0]] + b[1..];
        }
      } else {
        forall d: nat | 0 < d <= |a| && d <= |b| ensures a[..d] != b[..d] {
          HeadsDiffer(a, b, d);
        }
        assert leq(a[0], b[0]) ==> FirstDiffer(a, b, 0);
      }
    }
  }

  ghost predicate TotalOrder<T(!new)>(leq: (T, T) -> bool) {
    && (forall x, y :: leq(x, y) || leq(y, x))
    && (forall x, y :: leq(x, y) && leq(y, x) ==> x == y)
    && (forall x, y, z :: leq(x, y) && leq(y, z) ==> leq(x, z))
  }

  lemma {:induction false} LexTotal<T(!new)>(a: seq<T>, b: seq<T>, leq: (T, T) -> bool)
    requires TotalOrder(leq)
    ensures Lex(a, b, leq) || Lex(b, a, leq)
    ensures Lex(a, b, leq) && Lex(b, a, leq) ==> a == b
  {
    if a != [] && b != [] && a[0] == b[0] {
      LexTotal(a[1..], b[1..], leq);
      assert a == [a[0]] + a[1..] && b == [b[0]] + b[1..];
    }
  }

  lemma {:induction false} LexTransitive<T(!new)>(a: seq<T>, b: seq<T>, c: seq<T>, leq: (T, T) -> bool)
    requires TotalOrder(leq) && Lex(a, b, leq) && Lex(b, c, leq)
    ensures Lex(a, c, leq)
  {
    if a != [] && a[0] == b[0] == c[0] {
      LexTransitive(a[1..], b[1..], c[1..], leq);
    }
  }

  predicate StringLeq(a: string, b: string) { Lex(a, b, (x: char, y: char) => x <= y) }

  predicate TupleLeq(a: seq<string>, b: seq<string>) { Lex(a, b, StringLeq) }

  lemma StringOrder()
    ensures TotalOrder(StringLeq)
  {
    var leq := (x: char, y: char) => x <= y;
    forall a, b ensures StringLeq(a, b) || StringLeq(b, a)
                ensures StringLeq(a, b) && StringLeq(b, a) ==> a == b {
      LexTotal(a, b, leq);
    }
    forall a, b, c | StringLeq(a, b) && StringLeq(b, c) ensures StringLeq(a, c) {
      LexTransitive(a, b, c, leq);
    }
  }

  lemma TupleOrder()
    ensures TotalOrder(TupleLeq)
  {
    StringOrder();
    forall a, b ensures TupleLeq(a, b) || TupleLeq(b, a)
                ensures TupleLeq(a, b) && TupleLeq(b, a) ==> a == b {
      LexTotal(a, b, StringLeq);
    }
    forall a, b, c | TupleLeq(a, b) && TupleLeq(b, c) ensures TupleLeq(a, c) {
      LexTransitive(a, b, c, StringLeq);
    }
  }
}
