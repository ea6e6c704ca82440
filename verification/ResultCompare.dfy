/** Result-set comparison of evaluation/metrics.py.  Rounding and float formatting are
    parameters. */
module ResultCompare {
  import opened Cells
  import opened Sorting
  import opened Lexicographic

  type Row = seq<NormCell>

  /** The sort key of a row: Python's `str` of every cell. */
  function Key(row: Row, floatStr: Float -> string): seq<string> {
    seq(|row|, i requires 0 <= i < |row| =>
      match row[i] case Rounded(f) => floatStr(f) case Text(t) => t)
  }

  function KeyOf(floatStr: Float -> string): Row -> seq<string> { (row: Row) => Key(row, floatStr) }

  function ByKey(floatStr: Float -> string): (Row, Row) -> bool {
    (a: Row, b: Row) => TupleLeq(Key(a, floatStr), Key(b, floatStr))
  }

  function Normalized(rows: seq<seq<Cell>>, round: Float -> Float, floatStr: Float -> string): seq<Row> {
    Sort(NormalRows(rows, round), ByKey(floatStr))
  }

  /** `normalize_rows`. */
  method NormalizeRows(rows: seq<seq<Cell>>, round: Float -> Float, floatStr: Float -> string)
    returns (sorted: seq<Row>)
    ensures sorted == Normalized(rows, round, floatStr)
  {
    if rows == [] {
      assert NormalRows(rows, round) == [];
      return [];
    }
    var normalized := RoundRows(rows, round);
    sorted := Sort(normalized, ByKey(floatStr));
  }

  /** `norm_a == norm_b`: equality of the cells' values, to which the two zeros are one. */
  predicate Match(a: seq<seq<Cell>>, b: seq<seq<Cell>>, round: Float -> Float, floatStr: Float -> string) {
    AllValues(Normalized(a, round, floatStr)) == AllValues(Normalized(b, round, floatStr))
  }

  ghost predicate SameRows(a: seq<seq<Cell>>, b: seq<seq<Cell>>, round: Float -> Float) {
    multiset(AllValues(NormalRows(a, round))) == multiset(AllValues(NormalRows(b, round)))
  }

  lemma ByKeyIsPreorder(floatStr: Float -> string)
    ensures TotalPreorder(ByKey(floatStr))
  {
    TupleOrder();
  }

  lemma ValuesPermute(a: seq<Row>, b: seq<Row>)
    requires multiset(a) == multiset(b)
    ensures multiset(AllValues(a)) == multiset(AllValues(b))
  {
    MappedPermute(a, b, Values);
    assert AllValues(a) == Mapped(a, Values) && AllValues(b) == Mapped(b, Values);
  }

  lemma SortedValues(rows: seq<Row>, floatStr: Float -> string)
    ensures multiset(AllValues(Sort(rows, ByKey(floatStr)))) == multiset(AllValues(rows))
  {
    SortPermutes(rows, ByKey(floatStr));
    ValuesPermute(Sort(rows, ByKey(floatStr)), rows);
  }

  /** Results that match hold the same rows equally often. */
  lemma MatchesAreSameRows(a: seq<seq<Cell>>, b: seq<seq<Cell>>, round: Float -> Float, floatStr: Float -> string)
    requires Match(a, b, round, floatStr)
    ensures SameRows(a, b, round)
  {
    SortedValues(NormalRows(a, round), floatStr);
    SortedValues(NormalRows(b, round), floatStr);
  }

  // ---- what the normal form is ----

  function Print(c: NormCell, floatStr: Float -> string): string {
    if c.Text? then c.text else floatStr(c.number)
  }

  /** x prints as a prefix of y, or at the first cell where they print differently it prints first. */
  ghost predicate PrintsFirst(x: Row, y: Row, floatStr: Float -> string) {
    || (|x| <= |y| && forall i :: 0 <= i < |x| ==> Print(x[i], floatStr) == Print(y[i], floatStr))
    || exists d: nat :: PrintsDifferentlyAt(x, y, d, floatStr) && StringLeq(Print(x[d], floatStr), Print(y[d], floatStr))
  }

  ghost predicate PrintsDifferentlyAt(x: Row, y: Row, d: nat, floatStr: Float -> string) {
    && d < |x| && d < |y| && Print(x[d], floatStr) != Print(y[d], floatStr)
    && forall i :: 0 <= i < d ==> Print(x[i], floatStr) == Print(y[i], floatStr)
  }

  lemma KeyOrderIs(x: Row, y: Row, floatStr: Float -> string)
    requires TupleLeq(Key(x, floatStr), Key(y, floatStr))
    ensures PrintsFirst(x, y, floatStr)
  {
    var a, b := Key(x, floatStr), Key(y, floatStr);
    LexIff(a, b, StringLeq);
    forall i | 0 <= i < |x| ensures a[i] == Print(x[i], floatStr) {}
    forall i | 0 <= i < |y| ensures b[i] == Print(y[i], floatStr) {}
    if a <= b {
      forall i | 0 <= i < |x| ensures Print(x[i], floatStr) == Print(y[i], floatStr) { assert a[i] == b[i]; }
    } else {
      var d: nat :| FirstDiffer(a, b, d) && StringLeq(a[d], b[d]);
      forall i | 0 <= i < d ensures Print(x[i], floatStr) == Print(y[i], floatStr) {
        assert a[..d][i] == b[..d][i];
      }
      assert PrintsDifferentlyAt(x, y, d, floatStr);
    }
  }

  /** The normal form holds the rounded rows, each as often as before, in the order of what their cells print,
      and rows that print alike in the order they had. */
  lemma NormalFormIs(rows: seq<seq<Cell>>, round: Float -> Float, floatStr: Float -> string)
    ensures var n, out := NormalRows(rows, round), Normalized(rows, round, floatStr);
      && multiset(out) == multiset(n)
      && (forall i, j :: 0 <= i < j < |out| ==> PrintsFirst(out[i], out[j], floatStr))
      && (forall i, j :: 0 <= i < j < |out| && Key(out[i], floatStr) == Key(out[j], floatStr) ==> Before(n, out[i], out[j]))
  {
    var n, leq := NormalRows(rows, round), ByKey(floatStr);
    var out := Sort(n, leq);
    SortPermutes(n, leq);
    ByKeyIsPreorder(floatStr);
    SortSorts(n, leq);
    forall i, j | 0 <= i < j < |out| ensures PrintsFirst(out[i], out[j], floatStr)
      ensures Key(out[i], floatStr) == Key(out[j], floatStr) ==> Before(n, out[i], out[j])
    {
      assert leq(out[i], out[j]);
      KeyOrderIs(out[i], out[j], floatStr);
      if Key(out[i], floatStr) == Key(out[j], floatStr) {
        SortKeepsTies(n, leq, i, j);
      }
    }
  }

  // ---- when a match means the same rows and nothing more ----

  /** Rows of values u and w can come out in this order: some signs for their zeros sort that way. */
  ghost predicate MayPrecede(u: seq<Value>, w: seq<Value>, floatStr: Float -> string) {
    exists x, y :: Values(x) == u && Values(y) == w && TupleLeq(Key(x, floatStr), Key(y, floatStr))
  }

  /** Whatever the signs of their zeros, any two different rows sort the same way round, and never as
      equals. */
  ghost predicate SignSafe(rows: seq<Row>, floatStr: Float -> string) {
    forall u, w ::
      u in AllValues(rows) && w in AllValues(rows) && MayPrecede(u, w, floatStr) && MayPrecede(w, u, floatStr)
      ==> u == w
  }

  /** For such a result, matching is equality of row multisets. */
  lemma MatchIffSameRows(a: seq<seq<Cell>>, b: seq<seq<Cell>>, round: Float -> Float, floatStr: Float -> string)
    requires SignSafe(NormalRows(a, round), floatStr)
    ensures Match(a, b, round, floatStr) <==> SameRows(a, b, round)
  {
    var na, nb := NormalRows(a, round), NormalRows(b, round);
    var va, vb := AllValues(Sort(na, ByKey(floatStr))), AllValues(Sort(nb, ByKey(floatStr)));
    SortedValues(na, floatStr);
    SortedValues(nb, floatStr);
    if SameRows(a, b, round) {
      ValuesSorted(na, floatStr);
      ValuesSorted(nb, floatStr);
      var leq := (u, w) => MayPrecede(u, w, floatStr);
      forall u, w | u in va && w in va && leq(u, w) && leq(w, u) ensures u == w {
        assert u in multiset(va) && w in multiset(va);
        assert u in AllValues(na) && w in AllValues(na);
      }
      SortedIsUnique(va, vb, leq);
    }
  }

  lemma ValuesSorted(rows: seq<Row>, floatStr: Float -> string)
    ensures Sorted(AllValues(Sort(rows, ByKey(floatStr))), (u, w) => MayPrecede(u, w, floatStr))
  {
    var out := Sort(rows, ByKey(floatStr));
    ByKeyIsPreorder(floatStr);
    SortSorts(rows, ByKey(floatStr));
    forall i, j | 0 <= i < j < |out| ensures MayPrecede(AllValues(out)[i], AllValues(out)[j], floatStr) {
      assert ByKey(floatStr)(out[i], out[j]);
    }
  }

  /** What is used of Python's `round`: rounding twice changes nothing, and either zero stays. */
  ghost predicate RoundsOnce(round: Float -> Float) {
    && (forall f :: round(round(f)) == round(f))
    && round(NegativeZero) == NegativeZero
    && round(Finite(0.0)) == Finite(0.0)
  }

  /** A result matches every result with the same rows if and only if it is safe in its signs. */
  lemma SameRowsMatchIff(a: seq<seq<Cell>>, round: Float -> Float, floatStr: Float -> string)
    requires RoundsOnce(round)
    ensures (forall b :: SameRows(a, b, round) ==> Match(a, b, round, floatStr))
       <==> SignSafe(NormalRows(a, round), floatStr)
  {
    if SignSafe(NormalRows(a, round), floatStr) {
      forall b | SameRows(a, b, round) ensures Match(a, b, round, floatStr) {
        MatchIffSameRows(a, b, round, floatStr);
      }
    } else {
      var n := NormalRows(a, round);
      var u, w :| u in AllValues(n) && w in AllValues(n) && u != w &&
                  MayPrecede(u, w, floatStr) && MayPrecede(w, u, floatStr);
      var b := ResultLedBy(a, u, w, round, floatStr);
      var b' := ResultLedBy(a, w, u, round, floatStr);
      OneLeads(AllValues(Normalized(b, round, floatStr)), u, w);
    }
  }

  /** u occurs, and before any w. */
  ghost predicate Leads(values: seq<seq<Value>>, u: seq<Value>, w: seq<Value>) {
    exists k :: 0 <= k < |values| && values[k] == u && forall i :: 0 <= i < k ==> values[i] != w
  }

  lemma OneLeads(values: seq<seq<Value>>, u: seq<Value>, w: seq<Value>)
    requires u != w && Leads(values, u, w)
    ensures !Leads(values, w, u)
  {
  }

  function Resigned(rows: seq<Row>, w: seq<Value>, y: Row): seq<Row> {
    seq(|rows|, i requires 0 <= i < |rows| => if Values(rows[i]) == w then y else rows[i])
  }

  /** The rows of a, with signs that put one of values u before all of values w. */
  lemma ResultLedBy(a: seq<seq<Cell>>, u: seq<Value>, w: seq<Value>, round: Float -> Float, floatStr: Float -> string)
    returns (b: seq<seq<Cell>>)
    requires RoundsOnce(round) && u != w && MayPrecede(u, w, floatStr)
    requires u in AllValues(NormalRows(a, round)) && w in AllValues(NormalRows(a, round))
    ensures SameRows(a, b, round) && Leads(AllValues(Normalized(b, round, floatStr)), u, w)
  {
    var n := NormalRows(a, round);
    var x, y :| Values(x) == u && Values(y) == w && TupleLeq(Key(x, floatStr), Key(y, floatStr));
    var i :| 0 <= i < |n| && AllValues(n)[i] == u;
    var tail := Resigned(n[..i] + n[i + 1..], w, y);
    FirstOfValue(x, y, tail, floatStr);
    MovedToFront(n, i, x, y);
    forall r | r in [x] + tail ensures Values(r) in AllValues(n) {
      ValuesOccur([x] + tail, r);
      assert Values(r) in multiset(AllValues(n));
    }
    b := Unrounded([x] + tail, a, round);
  }

  lemma MovedToFront(n: seq<Row>, i: nat, x: Row, y: Row)
    requires i < |n| && Values(x) == AllValues(n)[i]
    ensures multiset(AllValues([x] + Resigned(n[..i] + n[i + 1..], Values(y), y))) == multiset(AllValues(n))
  {
    var rest := n[..i] + n[i + 1..];
    assert AllValues(n) == AllValues(n[..i]) + [Values(x)] + AllValues(n[i + 1..]);
    assert AllValues([x] + Resigned(rest, Values(y), y)) == [Values(x)] + AllValues(rest);
    assert AllValues(rest) == AllValues(n[..i]) + AllValues(n[i + 1..]);
  }

  lemma FirstOfValue(x: Row, y: Row, tail: seq<Row>, floatStr: Float -> string)
    requires Values(x) != Values(y) && TupleLeq(Key(x, floatStr), Key(y, floatStr))
    requires forall r :: r in tail && Values(r) == Values(y) ==> r == y
    ensures Leads(AllValues(Sort([x] + tail, ByKey(floatStr))), Values(x), Values(y))
  {
    var leq := ByKey(floatStr);
    assert ([x] + tail)[1..] == tail;
    var sorted := Sort(tail, leq);
    var k := Slot(x, sorted, leq);
    forall i | 0 <= i < k ensures Values(sorted[i]) != Values(y) {
      SortHas(tail, leq, sorted[i]);
    }
    assert AllValues(Sort([x] + tail, leq))[k] == Values(x);
  }

  /** Rows with the values of rounded rows are themselves what rounding gives. */
  lemma Unrounded(rows: seq<Row>, a: seq<seq<Cell>>, round: Float -> Float) returns (b: seq<seq<Cell>>)
    requires RoundsOnce(round)
    requires forall r :: r in rows ==> Values(r) in AllValues(NormalRows(a, round))
    ensures NormalRows(b, round) == rows
  {
    b := seq(|rows|, i requires 0 <= i < |rows| => Raw(rows[i]));
    forall i | 0 <= i < |rows| ensures NormalRow(b[i], round) == rows[i] {
      var j :| 0 <= j < |a| && AllValues(NormalRows(a, round))[j] == Values(rows[i]);
      RawRounds(rows[i], a[j], round);
    }
  }

  function Raw(row: Row): seq<Cell> {
    seq(|row|, i requires 0 <= i < |row| => match row[i] case Rounded(f) => Num(f) case Text(t) => Other(t))
  }

  lemma RawRounds(row: Row, source: seq<Cell>, round: Float -> Float)
    requires RoundsOnce(round) && Values(row) == Values(NormalRow(source, round))
    ensures NormalRow(Raw(row), round) == row
  {
    assert |row| == |Values(row)| == |source|;
    forall i | 0 <= i < |row| ensures NormalRow(Raw(row), round)[i] == row[i] {
      assert ValueOf(row[i]) == Values(row)[i] == ValueOf(NormalCell(source[i], round));
    }
  }

  // ---- results without zeros ----

  /** Rows of different values have different sort keys. */
  ghost predicate KeysTellApart(rows: seq<Row>, floatStr: Float -> string) {
    forall x, y :: x in rows && y in rows && Key(x, floatStr) == Key(y, floatStr) ==> Values(x) == Values(y)
  }

  ghost predicate NoZeros(rows: seq<Row>) {
    forall u :: u in AllValues(rows) ==> Figure(0.0) !in u
  }

  /** Without zeros the condition is that different rows have different sort keys. */
  lemma SignSafeWithoutZeros(rows: seq<Row>, floatStr: Float -> string)
    requires NoZeros(rows)
    ensures SignSafe(rows, floatStr) <==> KeysTellApart(rows, floatStr)
  {
    TupleOrder();
    if KeysTellApart(rows, floatStr) {
      forall u, w | u in AllValues(rows) && w in AllValues(rows) &&
                    MayPrecede(u, w, floatStr) && MayPrecede(w, u, floatStr)
        ensures u == w
      {
        var x, y :| Values(x) == u && Values(y) == w && TupleLeq(Key(x, floatStr), Key(y, floatStr));
        var y', x' :| Values(y') == w && Values(x') == u && TupleLeq(Key(y', floatStr), Key(x', floatStr));
        OneRowPerValue(rows, x);
        OneRowPerValue(rows, x');
        OneRowPerValue(rows, y);
        OneRowPerValue(rows, y');
        ZeroFreeIsOne(x, x');
        ZeroFreeIsOne(y, y');
      }
    }
    if SignSafe(rows, floatStr) {
      forall x, y | x in rows && y in rows && Key(x, floatStr) == Key(y, floatStr) ensures Values(x) == Values(y) {
        ValuesOccur(rows, x);
        ValuesOccur(rows, y);
        assert MayPrecede(Values(x), Values(y), floatStr) && MayPrecede(Values(y), Values(x), floatStr);
      }
    }
  }

  lemma ValuesOccur(rows: seq<Row>, x: Row)
    requires x in rows
    ensures Values(x) in AllValues(rows)
  {
    var i :| 0 <= i < |rows| && rows[i] == x;
    assert AllValues(rows)[i] == Values(x);
  }

  lemma ZeroFreeIsOne(x: Row, y: Row)
    requires Values(x) == Values(y) && Figure(0.0) !in Values(x)
    ensures x == y
  {
    assert |x| == |Values(x)| == |y|;
    forall i | 0 <= i < |x| ensures x[i] == y[i] {
      assert Values(x)[i] == ValueOf(x[i]) == ValueOf(y[i]) && Values(x)[i] in Values(x);
    }
  }

  lemma OneRowPerValue(rows: seq<Row>, x: Row)
    requires NoZeros(rows) && Values(x) in AllValues(rows)
    ensures x in rows
  {
    var i :| 0 <= i < |rows| && AllValues(rows)[i] == Values(x);
    ZeroFreeIsOne(x, rows[i]);
  }

  /** Keys do tell rows apart when `str` is injective on the values present. */
  lemma InjectiveCellsTellApart(rows: seq<Row>, floatStr: Float -> string)
    requires forall x, y, i, j |
      x in rows && y in rows && 0 <= i < |x| && 0 <= j < |y| && Key(x, floatStr)[i] == Key(y, floatStr)[j] ::
      ValueOf(x[i]) == ValueOf(y[j])
    ensures KeysTellApart(rows, floatStr)
  {
    forall x, y | x in rows && y in rows && Key(x, floatStr) == Key(y, floatStr) ensures Values(x) == Values(y) {
      assert |x| == |Key(x, floatStr)| == |y|;
      forall i | 0 <= i < |x| ensures Values(x)[i] == Values(y)[i] {
        assert Key(x, floatStr)[i] == Key(y, floatStr)[i];
      }
    }
  }

  // ---- exactly when the order of the rows does not matter ----

  function Keys(rows: seq<Row>, floatStr: Float -> string): seq<seq<string>> { Mapped(rows, KeyOf(floatStr)) }

  lemma SortedKeys(rows: seq<Row>, floatStr: Float -> string)
    ensures Keys(Sort(rows, ByKey(floatStr)), floatStr) == Sort(Keys(rows, floatStr), TupleLeq)
  {
    SortMapped(rows, ByKey(floatStr), KeyOf(floatStr), TupleLeq);
  }

  /** The first row of its key in `Sort([x] + rest)` is x itself. */
  lemma HeadComesFirst(x: Row, rest: seq<Row>, floatStr: Float -> string) returns (k: nat)
    ensures var out := Sort([x] + rest, ByKey(floatStr));
      && k < |out| && out[k] == x
      && forall i :: 0 <= i < k ==> Key(out[i], floatStr) != Key(x, floatStr)
  {
    var leq := ByKey(floatStr);
    assert ([x] + rest)[1..] == rest;
    k := Slot(x, Sort(rest, leq), leq);
    TupleOrder();
  }

  lemma SwapShows(x: Row, y: Row, rest: seq<Row>, floatStr: Float -> string)
    requires Values(x) != Values(y) && Key(x, floatStr) == Key(y, floatStr)
    ensures AllValues(Sort([x, y] + rest, ByKey(floatStr))) != AllValues(Sort([y, x] + rest, ByKey(floatStr)))
  {
    var one, two := Sort([x, y] + rest, ByKey(floatStr)), Sort([y, x] + rest, ByKey(floatStr));
    assert [x, y] + rest == [x] + ([y] + rest) && [y, x] + rest == [y] + ([x] + rest);
    var i := HeadComesFirst(x, [y] + rest, floatStr);
    var j := HeadComesFirst(y, [x] + rest, floatStr);
    SortedKeys([x, y] + rest, floatStr);
    SortedKeys([y, x] + rest, floatStr);
    assert Keys([x, y] + rest, floatStr) == Keys([y, x] + rest, floatStr);
    assert Keys(one, floatStr) == Keys(two, floatStr);
    assert Keys(one, floatStr)[i] == Key(x, floatStr) == Keys(two, floatStr)[j];
    forall k | 0 <= k < |one| ensures k < |two| && Key(one[k], floatStr) == Key(two[k], floatStr) {
      assert Keys(one, floatStr)[k] == Keys(two, floatStr)[k];
    }
    assert AllValues(one)[i] == Values(x) && AllValues(two)[i] == Values(y);
  }

  lemma PermutationsShareKeys(a: seq<Row>, b: seq<Row>, floatStr: Float -> string)
    requires multiset(a) == multiset(b)
    ensures Keys(Sort(a, ByKey(floatStr)), floatStr) == Keys(Sort(b, ByKey(floatStr)), floatStr)
  {
    SortedKeys(a, floatStr);
    SortedKeys(b, floatStr);
    TupleOrder();
    SortSorts(Keys(a, floatStr), TupleLeq);
    SortSorts(Keys(b, floatStr), TupleLeq);
    SortPermutes(Keys(a, floatStr), TupleLeq);
    SortPermutes(Keys(b, floatStr), TupleLeq);
    MappedPermute(a, b, KeyOf(floatStr));
    SortedIsUnique(Sort(Keys(a, floatStr), TupleLeq), Sort(Keys(b, floatStr), TupleLeq), TupleLeq);
  }

  /** Where keys tell rows apart, sorting any permutation gives the same values. */
  lemma PermutationsMatch(a: seq<Row>, b: seq<Row>, floatStr: Float -> string)
    requires multiset(a) == multiset(b) && KeysTellApart(a, floatStr)
    ensures AllValues(Sort(a, ByKey(floatStr))) == AllValues(Sort(b, ByKey(floatStr)))
  {
    var one, two := Sort(a, ByKey(floatStr)), Sort(b, ByKey(floatStr));
    PermutationsShareKeys(a, b, floatStr);
    SortPermutes(a, ByKey(floatStr));
    SortPermutes(b, ByKey(floatStr));
    forall i | 0 <= i < |one| ensures |two| == |one| && Values(one[i]) == Values(two[i]) {
      assert Keys(one, floatStr)[i] == Keys(two, floatStr)[i];
      SortHas(a, ByKey(floatStr), one[i]);
      SortHas(b, ByKey(floatStr), two[i]);
      assert two[i] in multiset(b);
    }
  }

  /** A result matches each of its permutations if and only if rows of different values have different
      sort keys. */
  lemma OrderIrrelevantIff(rows: seq<seq<Cell>>, round: Float -> Float, floatStr: Float -> string)
    ensures (forall other :: multiset(other) == multiset(rows) ==> Match(rows, other, round, floatStr))
       <==> KeysTellApart(NormalRows(rows, round), floatStr)
  {
    if KeysTellApart(NormalRows(rows, round), floatStr) {
      forall other | multiset(other) == multiset(rows) ensures Match(rows, other, round, floatStr) {
        NormalRowsPermute(rows, other, round);
        PermutationsMatch(NormalRows(rows, round), NormalRows(other, round), floatStr);
      }
    } else {
      var one, two := TwoOrders(rows, round, floatStr);
      assert multiset(one) == multiset(two) == multiset(rows);
      assert Match(rows, one, round, floatStr) && Match(rows, two, round, floatStr) ==> Match(one, two, round, floatStr);
    }
  }

  lemma TwoOrders(rows: seq<seq<Cell>>, round: Float -> Float, floatStr: Float -> string)
    returns (one: seq<seq<Cell>>, two: seq<seq<Cell>>)
    requires !KeysTellApart(NormalRows(rows, round), floatStr)
    ensures multiset(one) == multiset(two) == multiset(rows)
    ensures !Match(one, two, round, floatStr)
  {
    var n := NormalRows(rows, round);
    var i, j := SharedKey(n, floatStr);
    var rest := rows[..i] + rows[i + 1..j] + rows[j + 1..];
    one, two := [rows[i], rows[j]] + rest, [rows[j], rows[i]] + rest;
    TwoOut(rows, i, j);
    assert NormalRows(one, round) == [n[i], n[j]] + NormalRows(rest, round);
    assert NormalRows(two, round) == [n[j], n[i]] + NormalRows(rest, round);
    SwapShows(n[i], n[j], NormalRows(rest, round), floatStr);
  }

  lemma SharedKey(n: seq<Row>, floatStr: Float -> string) returns (i: nat, j: nat)
    requires !KeysTellApart(n, floatStr)
    ensures i < j < |n| && Values(n[i]) != Values(n[j]) && Key(n[i], floatStr) == Key(n[j], floatStr)
  {
    var x, y :| x in n && y in n && Key(x, floatStr) == Key(y, floatStr) && Values(x) != Values(y);
    i :| 0 <= i < |n| && n[i] == x;
    j :| 0 <= j < |n| && n[j] == y;
    if j < i {
      i, j := j, i;
    }
  }

  // ---- two inputs that fail ----

  /** The float 1.0 and the text "1.0" print alike, so a match can depend on row order. */
  lemma OrderCanMatter(round: Float -> Float, floatStr: Float -> string)
    requires round(Finite(1.0)) == Finite(1.0) && floatStr(Finite(1.0)) == "1.0"
    ensures !Match([[Num(Finite(1.0))], [Other("1.0")]], [[Other("1.0")], [Num(Finite(1.0))]], round, floatStr)
  {
    var x, y := [Rounded(Finite(1.0))], [Text("1.0")];
    var cx, cy := [Num(Finite(1.0))], [Other("1.0")];
    assert Key(x, floatStr) == ["1.0"] == Key(y, floatStr);
    assert Values(x)[0] != Values(y)[0];
    SwapShows(x, y, [], floatStr);
    assert NormalRow(cx, round) == x && NormalRow(cy, round) == y;
    assert NormalRows([cx, cy], round) == [x, y] + [] && NormalRows([cy, cx], round) == [y, x] + [];
  }

  const TINY: Float := Finite(-0.000000001)
  const HALF: Float := Finite(-0.5)
  const ZERO: Float := Finite(0.0)

  /** A small negative number rounds to the negative zero, equal to zero and printed "-0.0", which sorts
      before "-0.5" where "0.0" sorts after it: the same rows do not match. */
  lemma NegativeZeroMismatch(round: Float -> Float, floatStr: Float -> string)
    requires round(TINY) == NegativeZero && round(HALF) == HALF && round(ZERO) == ZERO
    requires floatStr(NegativeZero) == "-0.0" && floatStr(HALF) == "-0.5" && floatStr(ZERO) == "0.0"
    ensures var a, b := [[Num(TINY)], [Num(HALF)]], [[Num(ZERO)], [Num(HALF)]];
      && SameRows(a, b, round)
      && KeysTellApart(NormalRows(a, round), floatStr) && KeysTellApart(NormalRows(b, round), floatStr)
      && !Match(a, b, round, floatStr)
  {
    var a, b := [[Num(TINY)], [Num(HALF)]], [[Num(ZERO)], [Num(HALF)]];
    var minus, half, zero := [Rounded(NegativeZero)], [Rounded(HALF)], [Rounded(ZERO)];
    assert NormalRows(a, round) == [minus, half] by {
      assert NormalRow(a[0], round) == minus && NormalRow(a[1], round) == half;
    }
    assert NormalRows(b, round) == [zero, half] by {
      assert NormalRow(b[0], round) == zero && NormalRow(b[1], round) == half;
    }
    ValuesOfTwo(minus, half);
    ValuesOfTwo(zero, half);
    ValuesOfTwo(half, zero);
    assert Values(minus) == [Figure(0.0)] == Values(zero);
    assert Values(half)[0] == Figure(-0.5);
    KeyOfOne(NegativeZero, floatStr);
    KeyOfOne(HALF, floatStr);
    KeyOfOne(ZERO, floatStr);
    PrintedOrder();
    SortTwo(minus, half, ByKey(floatStr));
    SortTwo(zero, half, ByKey(floatStr));
    assert "-0.0"[3] != "-0.5"[3] && "0.0"[0] != "-0.5"[0];
    TwoKeysTellApart(minus, half, floatStr);
    TwoKeysTellApart(zero, half, floatStr);
    hide Sort, Key, Values, AllValues, TupleLeq, NormalRows, KeysTellApart;
  }

  lemma ValuesOfTwo(x: Row, y: Row)
    ensures AllValues([x, y]) == [Values(x), Values(y)]
  {
  }

  lemma TwoKeysTellApart(x: Row, y: Row, floatStr: Float -> string)
    requires Key(x, floatStr) != Key(y, floatStr)
    ensures KeysTellApart([x, y], floatStr)
  {
  }

  lemma KeyOfOne(f: Float, floatStr: Float -> string)
    ensures Key([Rounded(f)], floatStr) == [floatStr(f)]
  {
  }

  lemma PrintedOrder()
    ensures TupleLeq(["-0.0"], ["-0.5"]) && !TupleLeq(["0.0"], ["-0.5"])
  {
    assert "-0.0"[1..] == "0.0" && "-0.5"[1..] == "0.5";
    assert "0.0"[1..] == ".0" && "0.5"[1..] == ".5";
    assert ".0"[1..] == "0" && ".5"[1..] == "5";
  }

  lemma SortTwo(x: Row, y: Row, leq: (Row, Row) -> bool)
    ensures Sort([x, y], leq) == if leq(x, y) then [x, y] else [y, x]
  {
    assert [x, y][1..] == [y] && [y][1..] == [];
    assert Sort([y], leq) == Insert(y, [], leq) == [y];
    assert Insert(x, [y], leq) == if leq(x, y) then [x, y] else [y] + Insert(x, [], leq);
  }
}
