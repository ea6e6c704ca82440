/** The result hash of agent/nodes/voter.py: rounded rows, sorted by value, and printed.  Printing keeps
    different lists apart, so the hash is the sorted list itself; the empty list stands for "EMPTY". */
module VoteHash {
  import opened Basics
  import opened Cells
  import opened Lexicographic
  import opened Sorting

  type Row = seq<NormCell>

  // ---- comparing rows by value ----

  /** Numbers among themselves, texts among themselves; Python has no answer for a number and a text,
      and the order given to them here is used nowhere. */
  predicate ValueLeq(a: Value, b: Value) {
    match (a, b)
    case (Figure(x), Figure(y)) => x <= y
    case (Words(x), Words(y)) => StringLeq(x, y)
    case (Figure(_), Words(_)) => true
    case (Words(_), Figure(_)) => false
  }

  predicate RowLeq(x: Row, y: Row) { Lex(Values(x), Values(y), ValueLeq) }

  /** Comparing two tuples means comparing their first different elements, and that raises when one is
      a number and the other a text. */
  predicate Clash(a: seq<Value>, b: seq<Value>) {
    if a == [] || b == [] then false
    else if a[0] == b[0] then Clash(a[1..], b[1..])
    else a[0].Figure? != b[0].Figure?
  }

  predicate FirstDifferInKind(a: seq<Value>, b: seq<Value>, d: nat) {
    d < |a| && d < |b| && a[..d] == b[..d] && a[d].Figure? != b[d].Figure?
  }

  /** Two rows clash if and only if they first differ at a position that holds a number in one and text
      or NULL in the other. */
  lemma {:induction false} ClashIff(a: seq<Value>, b: seq<Value>)
    ensures Clash(a, b) <==> exists d: nat :: FirstDifferInKind(a, b, d)
    decreases |a|
  {
    if a != [] && b != [] {
      if a[0] == b[0] {
        ClashIff(a[1..], b[1..]);
        if d: nat :| FirstDifferInKind(a[1..], b[1..], d) {
          assert a[..d + 1] == [a[0]] + a[1..][..d] && b[..d + 1] == [b[0]] + b[1..][..d];
          assert FirstDifferInKind(a, b, d + 1);
        }
        if d: nat :| FirstDifferInKind(a, b, d) {
          assert d > 0 && a[1..][..d - 1] == a[..d][1..] && b[1..][..d - 1] == b[..d][1..];
          assert FirstDifferInKind(a[1..], b[1..], d - 1);
        }
      } else {
        forall d: nat | 0 < d <= |a| && d <= |b| ensures a[..d] != b[..d] {
          HeadsDiffer(a, b, d);
        }
        assert a[0].Figure? != b[0].Figure? ==> FirstDifferInKind(a, b, 0);
      }
    }
  }

  lemma {:induction false} ClashSymmetric(a: seq<Value>, b: seq<Value>)
    ensures Clash(a, b) == Clash(b, a)
    decreases |a|
  {
    if a != [] && b != [] && a[0] == b[0] {
      ClashSymmetric(a[1..], b[1..]);
    }
  }

  lemma {:induction false} ClashNeedsDifference(a: seq<Value>)
    ensures !Clash(a, a)
  {
    if a != [] {
      ClashNeedsDifference(a[1..]);
    }
  }

  lemma ValueOrder()
    ensures TotalOrder(ValueLeq)
  {
    StringOrder();
  }

  lemma RowOrder()
    ensures TotalPreorder(RowLeq)
    ensures forall x, y :: RowLeq(x, y) && RowLeq(y, x) ==> Values(x) == Values(y)
  {
    ValueOrder();
    forall x, y ensures RowLeq(x, y) || RowLeq(y, x)
                ensures RowLeq(x, y) && RowLeq(y, x) ==> Values(x) == Values(y) {
      LexTotal(Values(x), Values(y), ValueLeq);
    }
    forall x, y, z | RowLeq(x, y) && RowLeq(y, z) ensures RowLeq(x, z) {
      LexTransitive(Values(x), Values(y), Values(z), ValueLeq);
    }
  }

  // ---- when sorting by value raises ----

  /** Some two of the rows cannot be compared. */
  ghost predicate Unsortable(rows: seq<Row>) {
    exists i, j :: 0 <= i < j < |rows| && Clash(Values(rows[i]), Values(rows[j]))
  }

  /** What every sort that ends must have established: neighbours were compared and are in order. */
  ghost predicate Chain(out: seq<Row>) {
    forall k :: 0 <= k < |out| - 1 ==> !Clash(Values(out[k]), Values(out[k + 1])) && RowLeq(out[k], out[k + 1])
  }

  lemma {:induction false} ClashThrough(a: seq<Value>, b: seq<Value>, c: seq<Value>)
    requires Lex(a, b, ValueLeq) && Lex(b, c, ValueLeq) && !Clash(a, b) && !Clash(b, c)
    ensures !Clash(a, c)
    decreases |a|
  {
    ValueOrder();
    if a != [] && b != [] && c != [] && a[0] == b[0] == c[0] {
      ClashThrough(a[1..], b[1..], c[1..]);
    }
  }

  /** In a chain any two rows are comparable, not only neighbours. */
  lemma {:induction false} ChainIsSorted(out: seq<Row>, i: nat, j: nat)
    requires Chain(out) && i < j < |out|
    ensures !Clash(Values(out[i]), Values(out[j])) && RowLeq(out[i], out[j])
    decreases j
  {
    if i < j - 1 {
      ChainIsSorted(out, i, j - 1);
      assert !Clash(Values(out[j - 1]), Values(out[j - 1 + 1])) && RowLeq(out[j - 1], out[j - 1 + 1]);
      ClashThrough(Values(out[i]), Values(out[j - 1]), Values(out[j]));
      RowOrder();
    }
  }

  lemma ChainHasNoClash(rows: seq<Row>, out: seq<Row>)
    requires Chain(out) && multiset(out) == multiset(rows)
    ensures !Unsortable(rows)
  {
    forall i, j | 0 <= i < j < |rows| ensures !Clash(Values(rows[i]), Values(rows[j])) {
      assert rows[i] in multiset(out) && rows[j] in multiset(out);
      var p :| 0 <= p < |out| && out[p] == rows[i];
      var q :| 0 <= q < |out| && out[q] == rows[j];
      if p < q {
        ChainIsSorted(out, p, q);
      } else if q < p {
        ChainIsSorted(out, q, p);
        ClashSymmetric(Values(rows[i]), Values(rows[j]));
      } else {
        ClashNeedsDifference(Values(rows[i]));
      }
    }
  }

  /** Whatever the sorting algorithm, it can end with an order if and only if no two rows clash. */
  lemma SortableIff(rows: seq<Row>)
    ensures (exists out :: multiset(out) == multiset(rows) && Chain(out)) <==> !Unsortable(rows)
  {
    if out :| multiset(out) == multiset(rows) && Chain(out) {
      ChainHasNoClash(rows, out);
    }
    if !Unsortable(rows) {
      SortedIsChain(rows);
      SortPermutes(rows, RowLeq);
    }
  }

  lemma SortedIsChain(rows: seq<Row>)
    requires !Unsortable(rows)
    ensures Chain(Sort(rows, RowLeq))
  {
    RowOrder();
    SortSorts(rows, RowLeq);
    var out := Sort(rows, RowLeq);
    forall k | 0 <= k < |out| - 1 ensures !Clash(Values(out[k]), Values(out[k + 1])) {
      SortHas(rows, RowLeq, out[k]);
      SortHas(rows, RowLeq, out[k + 1]);
      var i :| 0 <= i < |rows| && rows[i] == out[k];
      var j :| 0 <= j < |rows| && rows[j] == out[k + 1];
      ClashSymmetric(Values(rows[i]), Values(rows[j]));
      ClashNeedsDifference(Values(rows[i]));
    }
  }

  // ---- a sort that raises ----

  function TryInsert(x: Row, s: seq<Row>): Option<seq<Row>> {
    if s == [] then Some([x])
    else if Clash(Values(x), Values(s[0])) then None
    else if RowLeq(x, s[0]) then Some([x] + s)
    else
      match TryInsert(x, s[1..])
      case None => None
      case Some(rest) => Some([s[0]] + rest)
  }

  function TrySort(rows: seq<Row>): Option<seq<Row>> {
    if rows == [] then Some([])
    else
      match TrySort(rows[1..])
      case None => None
      case Some(rest) => TryInsert(rows[0], rest)
  }

  lemma {:induction false} TryInsertIs(x: Row, s: seq<Row>)
    ensures TryInsert(x, s).None? ==> exists y :: y in s && Clash(Values(x), Values(y))
    ensures TryInsert(x, s).Some? ==> TryInsert(x, s).value == Insert(x, s, RowLeq)
  {
    if s != [] && !Clash(Values(x), Values(s[0])) && !RowLeq(x, s[0]) {
      TryInsertIs(x, s[1..]);
    }
  }

  lemma ChainTail(s: seq<Row>)
    requires Chain(s) && s != []
    ensures Chain(s[1..])
  {
    forall k | 0 <= k < |s[1..]| - 1
      ensures !Clash(Values(s[1..][k]), Values(s[1..][k + 1])) && RowLeq(s[1..][k], s[1..][k + 1])
    {
      assert s[1..][k] == s[k + 1] && s[1..][k + 1] == s[k + 1 + 1];
    }
  }

  /** Inserting compares along the way, so the chain stays one. */
  lemma {:induction false} TryInsertChains(x: Row, s: seq<Row>)
    requires Chain(s) && TryInsert(x, s).Some?
    ensures Chain(TryInsert(x, s).value)
    ensures TryInsert(x, s).value[0] == x || (s != [] && TryInsert(x, s).value[0] == s[0])
  {
    var out := TryInsert(x, s).value;
    if s != [] && !RowLeq(x, s[0]) {
      ChainTail(s);
      TryInsertChains(x, s[1..]);
      RowOrder();
      ClashSymmetric(Values(x), Values(s[0]));
      var rest := TryInsert(x, s[1..]).value;
      assert out == [s[0]] + rest;
      assert |s| > 1 ==> !Clash(Values(s[0]), Values(s[0 + 1])) && RowLeq(s[0], s[0 + 1]);
    } else if s != [] {
      assert out[1..] == s;
    }
  }

  lemma {:induction false} TrySortIs(rows: seq<Row>)
    ensures TrySort(rows).None? <==> Unsortable(rows)
    ensures TrySort(rows).Some? ==> TrySort(rows).value == Sort(rows, RowLeq) && Chain(TrySort(rows).value)
  {
    if rows != [] {
      var rest := TrySort(rows[1..]);
      TrySortIs(rows[1..]);
      UnsortableTail(rows);
      if rest.Some? {
        TryInsertIs(rows[0], rest.value);
        if TryInsert(rows[0], rest.value).Some? {
          TryInsertChains(rows[0], rest.value);
          SortPermutes(rows, RowLeq);
          ChainHasNoClash(rows, TrySort(rows).value);
        } else {
          var y :| y in rest.value && Clash(Values(rows[0]), Values(y));
          SortHas(rows[1..], RowLeq, y);
          var j :| 0 <= j < |rows[1..]| && rows[1..][j] == y;
          assert rows[j + 1] == y;
        }
      }
    }
  }

  lemma UnsortableTail(rows: seq<Row>)
    requires rows != []
    ensures Unsortable(rows[1..]) ==> Unsortable(rows)
  {
    if i, j :| 0 <= i < j < |rows[1..]| && Clash(Values(rows[1..][i]), Values(rows[1..][j])) {
      assert rows[i + 1] == rows[1..][i] && rows[j + 1] == rows[1..][j];
    }
  }

  /** `_normalize`: it raises if and only if two of the rounded rows clash. */
  method Normalize(rows: seq<seq<Cell>>, round: Float -> Float) returns (hash: Option<seq<Row>>)
    ensures hash.None? <==> Unsortable(NormalRows(rows, round))
    ensures hash.Some? ==> hash.value == HashOf(rows, round)
  {
    if rows == [] {
      assert NormalRows(rows, round) == [];
      return Some([]);
    }
    var normalized := RoundRows(rows, round);
    TrySortIs(normalized);
    hash := TrySort(normalized);
  }

  // ---- what equal hashes mean ----

  function HashOf(rows: seq<seq<Cell>>, round: Float -> Float): seq<Row> { Sort(NormalRows(rows, round), RowLeq) }

  /** Rows that are equal as values also print alike: no two differ in the sign of a zero only. */
  ghost predicate SignsAgree(rows: seq<Row>) {
    forall x, y :: x in rows && y in rows && Values(x) == Values(y) ==> x == y
  }

  /** Equal hashes mean equal multisets of rounded rows; and where no two rows differ in the sign of a
      zero only, they mean nothing more. */
  lemma HashesAgreeIff(a: seq<seq<Cell>>, b: seq<seq<Cell>>, round: Float -> Float)
    ensures HashOf(a, round) == HashOf(b, round) ==> multiset(NormalRows(a, round)) == multiset(NormalRows(b, round))
    ensures SignsAgree(NormalRows(a, round)) ==>
      (HashOf(a, round) == HashOf(b, round) <==> multiset(NormalRows(a, round)) == multiset(NormalRows(b, round)))
  {
    var na, nb := NormalRows(a, round), NormalRows(b, round);
    SortPermutes(na, RowLeq);
    SortPermutes(nb, RowLeq);
    if multiset(na) == multiset(nb) && SignsAgree(na) {
      RowOrder();
      SortSorts(na, RowLeq);
      SortSorts(nb, RowLeq);
      forall x, y | x in Sort(na, RowLeq) && y in Sort(na, RowLeq) && RowLeq(x, y) && RowLeq(y, x) ensures x == y {
        SortHas(na, RowLeq, x);
        SortHas(na, RowLeq, y);
      }
      SortedIsUnique(Sort(na, RowLeq), Sort(nb, RowLeq), RowLeq);
    }
  }

  /** The hash is the same for every order of the rows if and only if no two rows differ in the sign of a
      zero only. */
  lemma HashIgnoresOrderIff(rows: seq<seq<Cell>>, round: Float -> Float)
    ensures (forall other :: multiset(other) == multiset(rows) ==> HashOf(other, round) == HashOf(rows, round))
       <==> SignsAgree(NormalRows(rows, round))
  {
    if SignsAgree(NormalRows(rows, round)) {
      forall other | multiset(other) == multiset(rows) ensures HashOf(other, round) == HashOf(rows, round) {
        NormalRowsPermute(rows, other, round);
        HashesAgreeIff(rows, other, round);
      }
    } else {
      var one, two := TwoHashes(rows, round);
      assert HashOf(one, round) == HashOf(rows, round) == HashOf(two, round) ==> HashOf(one, round) == HashOf(two, round);
    }
  }

  lemma TwoHashes(rows: seq<seq<Cell>>, round: Float -> Float) returns (one: seq<seq<Cell>>, two: seq<seq<Cell>>)
    requires !SignsAgree(NormalRows(rows, round))
    ensures multiset(one) == multiset(two) == multiset(rows) && HashOf(one, round) != HashOf(two, round)
  {
    var n := NormalRows(rows, round);
    var i, j := SameValues(n);
    var rest := rows[..i] + rows[i + 1..j] + rows[j + 1..];
    one, two := [rows[i], rows[j]] + rest, [rows[j], rows[i]] + rest;
    TwoOut(rows, i, j);
    assert NormalRows(one, round) == [n[i]] + ([n[j]] + NormalRows(rest, round));
    assert NormalRows(two, round) == [n[j]] + ([n[i]] + NormalRows(rest, round));
    var k := FirstOfValues(n[i], [n[j]] + NormalRows(rest, round));
    var l := FirstOfValues(n[j], [n[i]] + NormalRows(rest, round));
  }

  lemma SameValues(n: seq<Row>) returns (i: nat, j: nat)
    requires !SignsAgree(n)
    ensures i < j < |n| && n[i] != n[j] && Values(n[i]) == Values(n[j])
  {
    var x, y :| x in n && y in n && Values(x) == Values(y) && x != y;
    i :| 0 <= i < |n| && n[i] == x;
    j :| 0 <= j < |n| && n[j] == y;
    if j < i {
      i, j := j, i;
    }
  }

  /** The first row of its values in `Sort([x] + rest)` is x itself. */
  lemma FirstOfValues(x: Row, rest: seq<Row>) returns (k: nat)
    ensures var out := Sort([x] + rest, RowLeq);
      k < |out| && out[k] == x && forall i :: 0 <= i < k ==> Values(out[i]) != Values(x)
  {
    assert ([x] + rest)[1..] == rest;
    k := Slot(x, Sort(rest, RowLeq), RowLeq);
    RowOrder();
  }

  /** A column holding 1 and NULL cannot be sorted, so it has no hash. */
  lemma NullAmongNumbersRaises(round: Float -> Float)
    ensures Unsortable(NormalRows([[Num(Finite(1.0))], [Null]], round))
  {
    var rows := NormalRows([[Num(Finite(1.0))], [Null]], round);
    assert rows[0] == [Rounded(round(Finite(1.0)))] && rows[1] == [Text(NULL_TEXT)];
    assert Clash(Values(rows[0]), Values(rows[1]));
  }
}
