/** Column pruning and compact DDL of retrieval/column_prune.py.  The keyword-overlap score of
    a column is a parameter, as is lower-casing. */
module ColumnPrune {
  import opened Basics
  import opened Sorting
  import opened Lexicographic

  datatype Column = Column(name: string, sqlType: string, nullable: bool)
  datatype ForeignKey = ForeignKey(source: seq<string>, target: string, targetColumns: seq<string>)
  datatype Table = Table(columns: seq<Column>, pk: set<string>, fks: seq<ForeignKey>)

  function Names(columns: seq<Column>): seq<string> {
    seq(|columns|, i requires 0 <= i < |columns| => columns[i].name)
  }

  function FkColumns(fks: seq<ForeignKey>): set<string> {
    set fk, c | fk in fks && c in fk.source :: c
  }

  function Mandatory(t: Table): set<string> { t.pk + FkColumns(t.fks) }

  /** What reflection of a real table yields. */
  ghost predicate Reflected(t: Table) {
    && NoDuplicates(Names(t.columns))
    && forall c :: c in Mandatory(t) ==> c in Names(t.columns)
  }

  function Filter<T>(s: seq<T>, p: T -> bool): seq<T> {
    if s == [] then [] else (if p(s[0]) then [s[0]] else []) + Filter(s[1..], p)
  }

  function Optional(t: Table): seq<string> { Filter(Names(t.columns), c => c !in Mandatory(t)) }

  /** `sorted(mandatory)`. */
  function SortedMandatory(t: Table): seq<string> {
    Sort(Filter(Names(t.columns), c => c in Mandatory(t)), StringLeq)
  }

  function ByScore(score: string -> int): (string, string) -> bool {
    (a: string, b: string) => score(a) >= score(b)
  }

  function Budget(t: Table, maxColumns: int): nat { Max(0, maxColumns - |Mandatory(t)|) }

  /** The selected columns of one table. */
  function Kept(t: Table, score: string -> int, maxColumns: int, threshold: int): seq<string> {
    if |t.columns| <= threshold then Names(t.columns)
    else
      var ranked := Sort(Optional(t), ByScore(score));
      SortedMandatory(t) + ranked[..Min(Budget(t, maxColumns), |ranked|)]
  }

  // ---- facts about Filter ----

  lemma {:induction false} FilterHas<T>(s: seq<T>, p: T -> bool, x: T)
    ensures x in Filter(s, p) <==> x in s && p(x)
  {
    if s != [] {
      FilterHas(s[1..], p, x);
      assert x in s <==> x == s[0] || x in s[1..];
    }
  }

  lemma {:induction false} FilterAppend<T>(s: seq<T>, x: T, p: T -> bool)
    ensures Filter(s + [x], p) == Filter(s, p) + if p(x) then [x] else []
  {
    if s != [] {
      assert (s + [x])[1..] == s[1..] + [x];
      FilterAppend(s[1..], x, p);
    }
  }

  lemma {:induction false} FilterDistinct<T>(s: seq<T>, p: T -> bool)
    requires NoDuplicates(s)
    ensures NoDuplicates(Filter(s, p))
  {
    if s != [] {
      FilterDistinct(s[1..], p);
      FilterHas(s[1..], p, s[0]);
      assert s[0] !in s[1..];
    }
  }

  lemma {:induction false} FilterSplits<T>(s: seq<T>, p: T -> bool, q: T -> bool)
    requires forall x :: x in s ==> q(x) == !p(x)
    ensures |Filter(s, p)| + |Filter(s, q)| == |s|
  {
    if s != [] {
      FilterSplits(s[1..], p, q);
    }
  }

  lemma {:induction false} FilterKeepsOrder<T>(s: seq<T>, p: T -> bool, x: T, y: T)
    requires Before(Filter(s, p), x, y)
    ensures Before(s, x, y)
  {
    BeforeInTail(s, x, y);
    var rest := Filter(s[1..], p);
    if p(s[0]) {
      var i, j :| 0 <= i < j < |Filter(s, p)| && Filter(s, p)[i] == x && Filter(s, p)[j] == y;
      assert rest[j - 1] == y;
      if i == 0 {
        FilterHas(s[1..], p, y);
      } else {
        assert rest[i - 1] == x;
        FilterKeepsOrder(s[1..], p, x, y);
      }
    } else {
      assert Filter(s, p) == rest;
      FilterKeepsOrder(s[1..], p, x, y);
    }
  }

  /** A list without duplicates of the elements of a set is as long as the set is large. */
  lemma {:induction false} DistinctCount<T>(s: seq<T>, m: set<T>)
    requires NoDuplicates(s) && forall x :: x in s <==> x in m
    ensures |s| == |m|
  {
    if s == [] {
      assert m == {};
    } else {
      assert s[0] !in s[1..];
      forall x ensures x in s[1..] <==> x in m - {s[0]} {
        assert x in s <==> x == s[0] || x in s[1..];
      }
      DistinctCount(s[1..], m - {s[0]});
    }
  }

  // ---- what pruning keeps ----

  lemma MandatoryPart(t: Table)
    requires Reflected(t)
    ensures forall c: string :: c in SortedMandatory(t) <==> c in Mandatory(t)
    ensures NoDuplicates(SortedMandatory(t)) && |SortedMandatory(t)| == |Mandatory(t)|
    ensures Sorted(SortedMandatory(t), StringLeq)
    ensures |Optional(t)| == |t.columns| - |Mandatory(t)|
  {
    var names, p := Names(t.columns), (c: string) => c in Mandatory(t);
    var listed := Filter(names, p);
    forall c: string ensures c in listed <==> c in Mandatory(t)
                     ensures c in SortedMandatory(t) <==> c in Mandatory(t) {
      FilterHas(names, p, c);
      SortHas(listed, StringLeq, c);
    }
    FilterDistinct(names, p);
    DistinctCount(listed, Mandatory(t));
    SortPermutes(listed, StringLeq);
    PermutationKeepsDistinct(listed, SortedMandatory(t));
    StringOrder();
    SortSorts(listed, StringLeq);
    FilterSplits(names, p, c => c !in Mandatory(t));
  }

  lemma OptionalPart(t: Table, score: string -> int)
    requires Reflected(t)
    ensures var ranked := Sort(Optional(t), ByScore(score));
      && |ranked| == |Optional(t)| && NoDuplicates(ranked) && Sorted(ranked, ByScore(score))
      && forall c: string :: c in ranked <==> c in Names(t.columns) && c !in Mandatory(t)
  {
    var names, p := Names(t.columns), (c: string) => c !in Mandatory(t);
    var ranked := Sort(Optional(t), ByScore(score));
    forall c: string ensures c in ranked <==> c in names && c !in Mandatory(t) {
      FilterHas(names, p, c);
      SortHas(Optional(t), ByScore(score), c);
    }
    FilterDistinct(names, p);
    SortPermutes(Optional(t), ByScore(score));
    PermutationKeepsDistinct(Optional(t), ranked);
    SortSorts(Optional(t), ByScore(score));
  }

  /** The kept list of a large table: no duplicates, all primary and foreign key columns, as many
      columns as allowed but never fewer than the mandatory ones. */
  lemma KeptShape(t: Table, score: string -> int, maxColumns: int, threshold: int)
    requires Reflected(t) && |t.columns| > threshold
    ensures var kept := Kept(t, score, maxColumns, threshold);
      && NoDuplicates(kept)
      && (forall c :: c in t.pk ==> c in kept)
      && (forall fk, c :: fk in t.fks && c in fk.source ==> c in kept)
      && (forall c :: c in Mandatory(t) ==> c in kept)
      && (forall c :: c in kept ==> c in Names(t.columns))
      && |kept| == Max(|Mandatory(t)|, Min(maxColumns, |t.columns|))
  {
    MandatoryPart(t);
    OptionalPart(t, score);
    var ranked := Sort(Optional(t), ByScore(score));
    var top := ranked[..Min(Budget(t, maxColumns), |ranked|)];
    forall i, j | 0 <= i < |SortedMandatory(t)| && 0 <= j < |top|
      ensures SortedMandatory(t)[i] != top[j]
    {
      assert SortedMandatory(t)[i] in SortedMandatory(t) && top[j] in ranked;
    }
  }

  /** No dropped column outscores a kept optional one; at equal scores the kept one stands
      earlier in the table. */
  lemma KeptAreBest(t: Table, score: string -> int, maxColumns: int, threshold: int, kept: string, dropped: string)
    requires Reflected(t) && |t.columns| > threshold
    requires kept in Kept(t, score, maxColumns, threshold) && kept !in Mandatory(t)
    requires dropped in Names(t.columns) && dropped !in Kept(t, score, maxColumns, threshold)
    ensures score(kept) >= score(dropped)
    ensures score(kept) == score(dropped) ==> Before(Names(t.columns), kept, dropped)
  {
    MandatoryPart(t);
    OptionalPart(t, score);
    var leq, ranked := ByScore(score), Sort(Optional(t), ByScore(score));
    var cut := Min(Budget(t, maxColumns), |ranked|);
    assert kept in ranked[..cut];
    var p :| 0 <= p < cut && ranked[p] == kept;
    var q :| 0 <= q < |ranked| && ranked[q] == dropped;
    assert ranked[q] !in ranked[..cut];
    assert q >= cut;
    assert leq(ranked[p], ranked[q]);
    if score(kept) == score(dropped) {
      SortKeepsTies(Optional(t), leq, p, q);
      FilterKeepsOrder(Names(t.columns), c => c !in Mandatory(t), kept, dropped);
    }
  }

  /** A small table keeps all its columns, in order. */
  lemma SmallKeepsAll(t: Table, score: string -> int, maxColumns: int, threshold: int)
    requires |t.columns| <= threshold
    ensures var kept := Kept(t, score, maxColumns, threshold);
      |kept| == |t.columns| && forall i :: 0 <= i < |kept| ==> kept[i] == t.columns[i].name
  {
  }

  /** The order of the kept list: first primary and foreign key columns by name, then the others by score,
      equal scores in table order. */
  lemma KeptOrder(t: Table, score: string -> int, maxColumns: int, threshold: int, i: nat, j: nat)
    requires Reflected(t) && |t.columns| > threshold && i < j < |Kept(t, score, maxColumns, threshold)|
    ensures var kept := Kept(t, score, maxColumns, threshold); var a, b := kept[i], kept[j];
      if b in Mandatory(t) then a in Mandatory(t) && StringLeq(a, b)
      else a in Mandatory(t) || score(a) > score(b) || (score(a) == score(b) && Before(Names(t.columns), a, b))
  {
    hide *;
    KeptParts(t, score, maxColumns, threshold);
    var first := SortedMandatory(t);
    if j < |first| {
      KeyOrder(t, i, j);
    } else if i >= |first| {
      RankedOrder(t, score, i - |first|, j - |first|);
    }
  }

  /** A kept list is the key columns, then the best of the others. */
  lemma KeptParts(t: Table, score: string -> int, maxColumns: int, threshold: int)
    requires Reflected(t) && |t.columns| > threshold
    ensures var kept, first, ranked := Kept(t, score, maxColumns, threshold), SortedMandatory(t), Sort(Optional(t), ByScore(score));
      && |first| <= |kept| <= |first| + |ranked|
      && forall k :: 0 <= k < |kept| ==>
           && kept[k] == (if k < |first| then first[k] else ranked[k - |first|])
           && (kept[k] in Mandatory(t) <==> k < |first|)
  {
    MandatoryPart(t);
    OptionalPart(t, score);
    var first, ranked := SortedMandatory(t), Sort(Optional(t), ByScore(score));
    var kept := Kept(t, score, maxColumns, threshold);
    var n := Min(Budget(t, maxColumns), |ranked|);
    assert kept == first + ranked[..n];
    hide *;
    Joined(first, ranked, n, Mandatory(t));
  }

  lemma Joined(first: seq<string>, ranked: seq<string>, n: nat, mandatory: set<string>)
    requires n <= |ranked| && (forall c: string :: c in first ==> c in mandatory) && forall c: string :: c in ranked ==> c !in mandatory
    ensures var kept := first + ranked[..n];
      forall k :: 0 <= k < |kept| ==>
        && kept[k] == (if k < |first| then first[k] else ranked[k - |first|])
        && (kept[k] in mandatory <==> k < |first|)
  {
  }

  lemma KeyOrder(t: Table, i: nat, j: nat)
    requires Reflected(t) && i < j < |SortedMandatory(t)|
    ensures StringLeq(SortedMandatory(t)[i], SortedMandatory(t)[j])
  {
    MandatoryPart(t);
    hide SortedMandatory, Reflected;
  }

  lemma RankedOrder(t: Table, score: string -> int, p: nat, q: nat)
    requires p < q < |Sort(Optional(t), ByScore(score))|
    ensures var ranked := Sort(Optional(t), ByScore(score)); var a, b := ranked[p], ranked[q];
      score(a) > score(b) || (score(a) == score(b) && Before(Names(t.columns), a, b))
  {
    var leq, ranked := ByScore(score), Sort(Optional(t), ByScore(score));
    SortPermutes(Optional(t), leq);
    SortSorts(Optional(t), leq);
    assert leq(ranked[p], ranked[q]);
    if score(ranked[p]) == score(ranked[q]) {
      SortKeepsTies(Optional(t), leq, p, q);
      FilterKeepsOrder(Names(t.columns), c => c !in Mandatory(t), ranked[p], ranked[q]);
    }
  }

  /** A foreign key is declared if and only if all its source columns are kept. */
  lemma FksKeptIff(fks: seq<ForeignKey>, kept: seq<string>, fk: ForeignKey)
    ensures fk in FksKept(fks, kept) <==> fk in fks && forall c :: c in fk.source ==> c in kept
  {
    FilterHas(fks, (fk: ForeignKey) => forall c :: c in fk.source ==> c in kept, fk);
  }

  /** The loop body of `prune_columns` for one known table. */
  method PruneTable(t: Table, score: string -> int, maxColumns: int, threshold: int) returns (kept: seq<string>)
    ensures kept == Kept(t, score, maxColumns, threshold)
  {
    if |t.columns| <= threshold {
      return Names(t.columns);
    }
    var mandatory := t.pk + FkColumns(t.fks);
    var scored: seq<string> := [];
    var names := Names(t.columns);
    for i := 0 to |t.columns|
      invariant scored == Filter(names[..i], c => c !in Mandatory(t))
    {
      var name := t.columns[i].name;
      assert names[..i + 1] == names[..i] + [name];
      FilterAppend(names[..i], name, c => c !in Mandatory(t));
      if name !in mandatory {
        scored := scored + [name];
      }
    }
    assert names[..|t.columns|] == names;
    scored := Sort(scored, ByScore(score));
    var budget := Max(0, maxColumns - |mandatory|);
    kept := SortedMandatory(t) + scored[..Min(budget, |scored|)];
  }

  // ---- the whole request ----

  type Schema = map<string, Table>

  /** `prune_columns`: unknown tables keep nothing. */
  method PruneColumns(tables: seq<string>, schema: Schema, lower: string -> string,
                      score: (string, string) -> int, maxColumns: int, threshold: int)
    returns (result: map<string, seq<string>>)
    ensures forall t :: t in result <==> t in tables
    ensures forall t :: t in tables ==>
      result[t] == if lower(t) in schema
                   then Kept(schema[lower(t)], c => score(c, t), maxColumns, threshold) else []
  {
    result := map[];
    for i := 0 to |tables|
      invariant forall t :: t in result <==> t in tables[..i]
      invariant forall t :: t in result ==>
        result[t] == if lower(t) in schema
                     then Kept(schema[lower(t)], c => score(c, t), maxColumns, threshold) else []
    {
      var t := tables[i];
      if lower(t) !in schema {
        result := result[t := []];
      } else {
        var kept := PruneTable(schema[lower(t)], c => score(c, t), maxColumns, threshold);
        result := result[t := kept];
      }
    }
  }

  datatype Member =
    | ColumnLine(column: Column, primary: bool)
    | FkLine(fk: ForeignKey)

  datatype Create = Create(table: string, members: seq<Member>)

  function FksKept(fks: seq<ForeignKey>, kept: seq<string>): seq<ForeignKey> {
    Filter(fks, (fk: ForeignKey) => forall c :: c in fk.source ==> c in kept)
  }

  ghost predicate Describes(members: seq<Member>, t: Table, kept: seq<string>) {
    && |members| == |kept| + |FksKept(t.fks, kept)|
    && (forall i :: 0 <= i < |kept| ==>
          && members[i].ColumnLine? && members[i].column in t.columns
          && members[i].column.name == kept[i] && (members[i].primary <==> kept[i] in t.pk))
    && (forall i :: 0 <= i < |FksKept(t.fks, kept)| ==> members[|kept| + i] == FkLine(FksKept(t.fks, kept)[i]))
  }

  function Find(columns: seq<Column>, name: string): (c: Column)
    requires name in Names(columns)
    ensures c in columns && c.name == name
  {
    if columns[|columns| - 1].name == name then columns[|columns| - 1]
    else
      assert Names(columns) == Names(columns[..|columns| - 1]) + [columns[|columns| - 1].name];
      Find(columns[..|columns| - 1], name)
  }

  /** The CREATE TABLE members of one table; looking a kept name up that the table does not have
      is an error in the source. */
  method CompactTable(t: Table, kept: seq<string>) returns (members: seq<Member>)
    requires forall c :: c in kept ==> c in Names(t.columns)
    ensures Describes(members, t, kept)
    ensures forall fk :: fk in t.fks ==> (FkLine(fk) in members <==> forall c :: c in fk.source ==> c in kept)
  {
    members := [];
    for i := 0 to |kept|
      invariant |members| == i
      invariant forall j :: 0 <= j < i ==>
        && members[j].ColumnLine? && members[j].column in t.columns
        && members[j].column.name == kept[j] && (members[j].primary <==> kept[j] in t.pk)
    {
      members := members + [ColumnLine(Find(t.columns, kept[i]), kept[i] in t.pk)];
    }
    var fks := FksKept(t.fks, kept);
    for i := 0 to |fks|
      invariant |members| == |kept| + i
      invariant forall j :: 0 <= j < |kept| ==>
        && members[j].ColumnLine? && members[j].column in t.columns
        && members[j].column.name == kept[j] && (members[j].primary <==> kept[j] in t.pk)
      invariant forall j :: 0 <= j < i ==> members[|kept| + j] == FkLine(fks[j])
    {
      members := members + [FkLine(fks[i])];
    }
    forall fk | fk in t.fks ensures FkLine(fk) in members <==> forall c :: c in fk.source ==> c in kept {
      FksKeptIff(t.fks, kept, fk);
      if fk in fks {
        var i :| 0 <= i < |fks| && fks[i] == fk;
        assert members[|kept| + i] == FkLine(fk);
      }
      if FkLine(fk) in members {
        var i :| 0 <= i < |members| && members[i] == FkLine(fk);
        assert i >= |kept| && fks[i - |kept|] == fk;
      }
    }
  }

  lemma {:induction false} FilterAll<T>(s: seq<T>, p: T -> bool)
    requires forall x :: x in s ==> p(x)
    ensures Filter(s, p) == s
  {
    if s != [] {
      FilterAll(s[1..], p);
    }
  }

  /** Pruning then compacting declares every foreign key of the table, in order, whatever the
      scores and limits. */
  lemma PrunedDdlKeepsForeignKeys(t: Table, score: string -> int, maxColumns: int, threshold: int)
    requires Reflected(t)
    ensures FksKept(t.fks, Kept(t, score, maxColumns, threshold)) == t.fks
    ensures forall c :: c in Kept(t, score, maxColumns, threshold) ==> c in Names(t.columns)
  {
    var kept := Kept(t, score, maxColumns, threshold);
    if |t.columns| > threshold {
      KeptShape(t, score, maxColumns, threshold);
    }
    forall fk, c | fk in t.fks && c in fk.source ensures c in kept {
      assert c in Mandatory(t);
    }
    FilterAll(t.fks, (fk: ForeignKey) => forall c :: c in fk.source ==> c in kept);
  }

  function Known(tables: seq<string>, schema: Schema, lower: string -> string): seq<string> {
    Filter(tables, t => lower(t) in schema)
  }

  /** A table's declaration: its kept columns, then every foreign key the table has. */
  ghost predicate Complete(d: Create, t: Table, kept: seq<string>) {
    && Describes(d.members, t, kept)
    && |d.members| == |kept| + |t.fks|
    && forall i :: 0 <= i < |t.fks| ==> d.members[|kept| + i] == FkLine(t.fks[i])
  }

  /** `prune_columns` feeding `build_compact_ddl` for the tables of a request. */
  method CompactDdl(tables: seq<string>, schema: Schema, lower: string -> string,
                    score: (string, string) -> int, maxColumns: int, threshold: int)
    returns (ddl: seq<Create>)
    requires forall t :: t in schema ==> Reflected(schema[t])
    ensures |ddl| == |Known(tables, schema, lower)|
    ensures forall i :: 0 <= i < |ddl| ==>
      var name := Known(tables, schema, lower)[i];
      && ddl[i].table == name && lower(name) in schema
      && Complete(ddl[i], schema[lower(name)], Kept(schema[lower(name)], c => score(c, name), maxColumns, threshold))
  {
    var pruned := PruneColumns(tables, schema, lower, score, maxColumns, threshold);
    ddl := [];
    for i := 0 to |tables|
      invariant |ddl| == |Known(tables[..i], schema, lower)|
      invariant forall j :: 0 <= j < |ddl| ==>
        var name := Known(tables[..i], schema, lower)[j];
        && ddl[j].table == name && lower(name) in schema
        && Complete(ddl[j], schema[lower(name)], Kept(schema[lower(name)], c => score(c, name), maxColumns, threshold))
    {
      var name := tables[i];
      assert tables[..i + 1] == tables[..i] + [name];
      FilterAppend(tables[..i], name, t => lower(t) in schema);
      if lower(name) in schema {
        var create := CompactOne(name, schema[lower(name)], pruned[name], c => score(c, name), maxColumns, threshold);
        ddl := ddl + [create];
      }
    }
    assert tables[..|tables|] == tables;
  }

  method CompactOne(name: string, t: Table, kept: seq<string>, ghost score: string -> int,
                    ghost maxColumns: int, ghost threshold: int)
    returns (create: Create)
    requires Reflected(t) && kept == Kept(t, score, maxColumns, threshold)
    ensures create.table == name && Complete(create, t, kept)
  {
    PrunedDdlKeepsForeignKeys(t, score, maxColumns, threshold);
    var members := CompactTable(t, kept);
    create := Create(name, members);
  }
}
