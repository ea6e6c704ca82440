/** Hybrid retrieval of retrieval/hybrid_search.py: keyword-search dedup and reciprocal rank
    fusion.  Scores are reals. */
module RankFusion {
  import opened Basics
  import opened Sorting
  import opened FirstSeen
  import Separators

  const RRF_K: nat := 60

  datatype ChunkKey = ChunkKey(db: string, table: string, kind: string)
  datatype Item = Item(db: string, table: string, kind: string, content: string)

  /** The key `_rrf_merge` uses. */
  function Key(item: Item): string { item.db + "::" + item.table + "::" + item.kind }

  /** The key `_bm25_search` uses. */
  function Triple(item: Item): ChunkKey { ChunkKey(item.db, item.table, item.kind) }

  function Weight(rank: nat): real { 1.0 / (RRF_K + rank + 1) as real }

  ghost predicate DistinctKeys<T, K>(s: seq<T>, key: T -> K) {
    forall i, j :: 0 <= i < j < |s| ==> key(s[i]) != key(s[j])
  }

  // ---- keyword search: dedup and cut ----

  /** The first occurrence of each of these keys. */
  ghost predicate FirstsOf<T, K>(results: seq<T>, s: seq<T>, key: T -> K, keys: seq<K>) {
    && |results| == |keys|
    && forall i :: 0 <= i < |keys| ==>
         FirstAt(s, key, keys[i]) < |s| && results[i] == s[FirstAt(s, key, keys[i])]
  }

  lemma FirstsOfStep<T, K>(results: seq<T>, s: seq<T>, key: T -> K, i: nat)
    requires i < |s| && FirstsOf(results, s, key, KeysOf(s, key, i))
    ensures var k, seen, next := key(s[i]), KeysOf(s, key, i), KeysOf(s, key, i + 1);
      && (k in seen ==> next == seen && FirstsOf(results, s, key, next))
      && (k !in seen ==> next == seen + [k] && FirstsOf(results + [s[i]], s, key, next))
  {
    hide FirstsOf;
    NextKey(s, key, i);
    MoreFirsts(results, s, key, KeysOf(s, key, i), i);
  }

  /** The next element adds its key if that is new. */
  lemma NextKey<T, K>(s: seq<T>, key: T -> K, i: nat)
    requires i < |s|
    ensures var k, seen, next := key(s[i]), KeysOf(s, key, i), KeysOf(s, key, i + 1);
      if k in seen then next == seen else next == seen + [k] && FirstAt(s, key, k) == i
  {
    KeysOfHas(s, key, i, key(s[i]));
    AtOwn(s, key, i);
    hide FirstAt;
  }

  lemma MoreFirsts<T, K>(results: seq<T>, s: seq<T>, key: T -> K, keys: seq<K>, i: nat)
    requires i < |s| && FirstsOf(results, s, key, keys)
    ensures FirstAt(s, key, key(s[i])) == i ==> FirstsOf(results + [s[i]], s, key, keys + [key(s[i])])
  {
    hide FirstAt;
  }

  lemma AtOwn<T, K>(s: seq<T>, key: T -> K, i: nat)
    requires i < |s|
    ensures FirstAt(s, key, key(s[i])) <= i
  {
  }

  /** The cut is tested after an append, so k = 0 still yields one. */
  function Cut(k: nat): nat { if k == 0 then 1 else k }

  lemma FirstsOfCut<T, K>(results: seq<T>, s: seq<T>, key: T -> K, n: nat, k: nat)
    requires n <= |s| && FirstsOf(results, s, key, KeysOf(s, key, n))
    requires |results| == Cut(k) || (n == |s| && |results| <= Cut(k))
    ensures FirstsOf(results, s, key, KeysOf(s, key, |s|)[..Min(|KeysOf(s, key, |s|)|, Cut(k))])
  {
    KeysOfGrows(s, key, n, |s|);
    assert KeysOf(s, key, n) == KeysOf(s, key, |s|)[..Min(|KeysOf(s, key, |s|)|, Cut(k))];
  }

  /** The state of the dedup loop after n chunks. */
  ghost predicate Deduped(results: seq<Item>, seen: seq<ChunkKey>, scored: seq<Item>, n: nat) {
    n <= |scored| && seen == KeysOf(scored, Triple, n) && FirstsOf(results, scored, Triple, seen)
  }

  lemma DedupStep(results: seq<Item>, seen: seq<ChunkKey>, scored: seq<Item>, i: nat)
    requires i < |scored| && Deduped(results, seen, scored, i)
    ensures var k := Triple(scored[i]);
      && (k in seen ==> Deduped(results, seen, scored, i + 1))
      && (k !in seen ==> Deduped(results + [scored[i]], seen + [k], scored, i + 1))
  {
    FirstsOfStep(results, scored, Triple, i);
  }

  /** The first occurrences of the first k different keys, and so without duplicates. */
  ghost predicate FirstDifferent(results: seq<Item>, scored: seq<Item>, k: nat) {
    var keys := KeysOf(scored, Triple, |scored|);
    FirstsOf(results, scored, Triple, keys[..Min(|keys|, Cut(k))]) && DistinctKeys(results, Triple)
  }

  lemma DedupDone(results: seq<Item>, seen: seq<ChunkKey>, scored: seq<Item>, n: nat, k: nat)
    requires Deduped(results, seen, scored, n)
    requires |results| == Cut(k) || (n == |scored| && |results| <= Cut(k))
    ensures FirstDifferent(results, scored, k)
  {
    FirstsDistinct(results, scored, Triple, n);
    FirstsOfCut(results, scored, Triple, n, k);
  }

  /** The loop of `_bm25_search` over the scored chunks: the first occurrence of each of the
      first k different keys. */
  method DedupTop(scored: seq<Item>, k: nat) returns (results: seq<Item>)
    ensures FirstDifferent(results, scored, k)
  {
    results := [];
    var seen: seq<ChunkKey> := [];
    assert Deduped(results, seen, scored, 0);
    hide Deduped, FirstsOf, FirstDifferent, FirstAt;
    var i := 0;
    while i < |scored|
      invariant 0 <= i <= |scored| && Deduped(results, seen, scored, i)
      invariant results == [] || |results| < k
    {
      var key := Triple(scored[i]);
      DedupStep(results, seen, scored, i);
      i := i + 1;
      if key in seen {
        continue;
      }
      seen := seen + [key];
      results := results + [scored[i - 1]];
      if |results| >= k {
        break;
      }
    }
    DedupDone(results, seen, scored, i, k);
  }

  lemma FirstsDistinct<T, K>(results: seq<T>, s: seq<T>, key: T -> K, n: nat)
    requires n <= |s| && FirstsOf(results, s, key, KeysOf(s, key, n))
    ensures DistinctKeys(results, key)
  {
    KeysOfInOrder(s, key, n);
    var keys := KeysOf(s, key, n);
    forall i, j | 0 <= i < j < |results| ensures key(results[i]) != key(results[j]) {
      assert key(results[i]) == keys[i] && key(results[j]) == keys[j];
    }
  }

  // ---- reciprocal rank fusion ----

  datatype Hit = Hit(item: Item, weight: real)

  function HitKey(h: Hit): string { Key(h.item) }

  function Hits(list: seq<Item>): seq<Hit> {
    seq(|list|, r requires 0 <= r < |list| => Hit(list[r], Weight(r)))
  }

  /** Every list entry with the weight of its rank, list after list. */
  function AllHits(lists: seq<seq<Item>>): seq<Hit> {
    if lists == [] then [] else AllHits(lists[..|lists| - 1]) + Hits(lists[|lists| - 1])
  }

  function ScoreOf(hits: seq<Hit>, key: string): real {
    if hits == [] then 0.0
    else ScoreOf(hits[..|hits| - 1], key)
         + if HitKey(hits[|hits| - 1]) == key then hits[|hits| - 1].weight else 0.0
  }

  function ByScore(hits: seq<Hit>): (string, string) -> bool {
    (a: string, b: string) => ScoreOf(hits, a) >= ScoreOf(hits, b)
  }

  /** The keys of the merge, best first. */
  function Merged(hits: seq<Hit>): seq<string> { Sort(KeysOf(hits, HitKey, |hits|), ByScore(hits)) }

  lemma MergedHas(hits: seq<Hit>, k: string)
    ensures k in Merged(hits) <==> exists h :: h in hits && HitKey(h) == k
  {
    KeysOfHas(hits, HitKey, |hits|, k);
    SortHas(KeysOf(hits, HitKey, |hits|), ByScore(hits), k);
    var at := FirstAt(hits, HitKey, k);
    assert at < |hits| ==> hits[at] in hits;
  }

  lemma MergedDistinct(hits: seq<Hit>)
    ensures NoDuplicates(Merged(hits))
  {
    var keys := KeysOf(hits, HitKey, |hits|);
    KeysOfInOrder(hits, HitKey, |hits|);
    SortPermutes(keys, ByScore(hits));
    forall i, j | 0 <= i < j < |keys| ensures keys[i] != keys[j] {
      assert FirstAt(hits, HitKey, keys[i]) < FirstAt(hits, HitKey, keys[j]);
    }
    PermutationKeepsDistinct(keys, Merged(hits));
  }

  /** a is rightly listed before b. */
  ghost predicate Outranks(hits: seq<Hit>, a: string, b: string) {
    || ScoreOf(hits, a) > ScoreOf(hits, b)
    || (ScoreOf(hits, a) == ScoreOf(hits, b) && FirstAt(hits, HitKey, a) < FirstAt(hits, HitKey, b))
  }

  /** The merge lists every key of the union exactly once, in non-increasing score order, equal
      scores in order of first appearance.  This holds of any lists. */
  lemma MergeRanks(hits: seq<Hit>)
    ensures forall k :: k in Merged(hits) <==> exists h :: h in hits && HitKey(h) == k
    ensures NoDuplicates(Merged(hits))
    ensures forall i, j :: 0 <= i < j < |Merged(hits)| ==> Outranks(hits, Merged(hits)[i], Merged(hits)[j])
  {
    forall k ensures k in Merged(hits) <==> exists h :: h in hits && HitKey(h) == k {
      MergedHas(hits, k);
    }
    MergedDistinct(hits);
    SortSorts(KeysOf(hits, HitKey, |hits|), ByScore(hits));
    forall i, j | 0 <= i < j < |Merged(hits)| ensures Outranks(hits, Merged(hits)[i], Merged(hits)[j]) {
      assert ByScore(hits)(Merged(hits)[i], Merged(hits)[j]);
      if ByScore(hits)(Merged(hits)[j], Merged(hits)[i]) {
        TiesInOrder(hits, i, j);
      }
    }
  }

  lemma TiesInOrder(hits: seq<Hit>, i: nat, j: nat)
    requires i < j < |Merged(hits)| && ByScore(hits)(Merged(hits)[j], Merged(hits)[i])
    ensures FirstAt(hits, HitKey, Merged(hits)[i]) < FirstAt(hits, HitKey, Merged(hits)[j])
  {
    var keys := KeysOf(hits, HitKey, |hits|);
    KeysOfInOrder(hits, HitKey, |hits|);
    SortPermutes(keys, ByScore(hits));
    SortKeepsTies(keys, ByScore(hits), i, j);
  }

  /** The dictionaries of the merge: keys in insertion order, scores, first items. */
  datatype Books = Books(order: seq<string>, scores: map<string, real>, items: map<string, Item>)

  function Credit(b: Books, hit: Hit): Books {
    var k := HitKey(hit);
    Books(if k in b.items then b.order else b.order + [k],
          b.scores[k := (if k in b.scores then b.scores[k] else 0.0) + hit.weight],
          if k in b.items then b.items else b.items[k := hit.item])
  }

  function BooksAfter(hits: seq<Hit>, n: nat): Books
    requires n <= |hits|
  {
    if n == 0 then Books([], map[], map[]) else Credit(BooksAfter(hits, n - 1), hits[n - 1])
  }

  /** The books list the different keys, give each its score, and remember its first item. */
  lemma {:induction false} BooksAre(hits: seq<Hit>, n: nat, k: string)
    requires n <= |hits|
    ensures var b := BooksAfter(hits, n);
      && (k in b.scores <==> FirstAt(hits, HitKey, k) < n)
      && (k in b.items <==> FirstAt(hits, HitKey, k) < n)
      && (k in b.scores ==> b.scores[k] == ScoreOf(hits[..n], k))
      && (k !in b.scores ==> ScoreOf(hits[..n], k) == 0.0)
      && (k in b.items ==> b.items[k] == hits[FirstAt(hits, HitKey, k)].item)
  {
    hide FirstAt;
    if n != 0 {
      BooksAre(hits, n - 1, k);
      assert hits[..n][..n - 1] == hits[..n - 1] && hits[..n][n - 1] == hits[n - 1];
      assert FirstAt(hits, HitKey, k) == n - 1 ==> k == HitKey(hits[n - 1]);
    }
  }

  lemma {:induction false} BooksOrder(hits: seq<Hit>, n: nat)
    requires n <= |hits|
    ensures BooksAfter(hits, n).order == KeysOf(hits, HitKey, n)
  {
    if n != 0 {
      BooksOrder(hits, n - 1);
      BooksAre(hits, n - 1, HitKey(hits[n - 1]));
    }
  }

  lemma {:induction false} AllHitsPrefix(lists: seq<seq<Item>>, l: nat)
    requires l < |lists|
    ensures AllHits(lists[..l + 1]) == AllHits(lists[..l]) + Hits(lists[l])
    ensures AllHits(lists[..l + 1]) <= AllHits(lists)
  {
    assert lists[..l + 1][..l] == lists[..l];
    if l + 1 == |lists| {
      assert lists[..l + 1] == lists;
    } else {
      AllHitsPrefix(lists[..|lists| - 1], l);
      assert lists[..|lists| - 1][..l + 1] == lists[..l + 1];
      assert lists[..|lists| - 1][..l] == lists[..l];
    }
  }

  lemma HitsOfList(lists: seq<seq<Item>>, l: nat)
    requires l < |lists|
    ensures var start := |AllHits(lists[..l])|;
      && start + |lists[l]| == |AllHits(lists[..l + 1])| <= |AllHits(lists)|
      && forall r :: 0 <= r < |lists[l]| ==> AllHits(lists)[start + r] == Hit(lists[l][r], Weight(r))
  {
    AllHitsPrefix(lists, l);
    forall r | 0 <= r < |lists[l]|
      ensures AllHits(lists)[|AllHits(lists[..l])| + r] == Hit(lists[l][r], Weight(r))
    {
      assert AllHits(lists[..l + 1])[|AllHits(lists[..l])| + r] == Hits(lists[l])[r];
    }
  }

  /** One list's pass: its items, rank by rank. */
  method CreditList(ghost hits: seq<Hit>, ghost start: nat, list: seq<Item>, before: Books) returns (books: Books)
    requires start + |list| <= |hits| && before == BooksAfter(hits, start)
    requires forall r :: 0 <= r < |list| ==> hits[start + r] == Hit(list[r], Weight(r))
    ensures books == BooksAfter(hits, start + |list|)
  {
    books := before;
    for rank := 0 to |list|
      invariant books == BooksAfter(hits, start + rank)
    {
      books := Credit(books, Hit(list[rank], Weight(rank)));
    }
  }

  /** `_rrf_merge`: the first items of the merged keys, in order. */
  method RrfMerge(lists: seq<seq<Item>>) returns (merged: seq<Item>)
    ensures FirstsOf(merged, Items(AllHits(lists)), Key, Merged(AllHits(lists)))
  {
    var books := Books([], map[], map[]);
    ghost var hits := AllHits(lists);
    assert books == BooksAfter(hits, |AllHits(lists[..0])|);
    hide BooksAfter, FirstsOf, FirstAt, Merged;
    for l := 0 to |lists|
      invariant |AllHits(lists[..l])| <= |hits| && books == BooksAfter(hits, |AllHits(lists[..l])|)
    {
      ghost var start := |AllHits(lists[..l])|;
      HitsOfList(lists, l);
      books := CreditList(hits, start, lists[l], books);
    }
    assert lists[..|lists|] == lists;
    merged := SortByScore(hits, books);
    FirstsOfItems(hits, Merged(hits), merged);
  }

  method SortByScore(ghost hits: seq<Hit>, books: Books) returns (merged: seq<Item>)
    requires books == BooksAfter(hits, |hits|)
    ensures |merged| == |Merged(hits)|
    ensures forall i :: 0 <= i < |merged| ==>
      var at := FirstAt(hits, HitKey, Merged(hits)[i]);
      at < |hits| && merged[i] == hits[at].item
  {
    var scores, items := books.scores, books.items;
    var leq := (a: string, b: string) => a in scores && b in scores && scores[a] >= scores[b];
    assert hits[..|hits|] == hits;
    BooksOrder(hits, |hits|);
    forall k | k in books.order ensures k in scores && scores[k] == ScoreOf(hits, k) {
      BooksAre(hits, |hits|, k);
      KeysOfHas(hits, HitKey, |hits|, k);
    }
    SortAgrees(books.order, leq, ByScore(hits));
    var sorted := Sort(books.order, leq);
    forall i | 0 <= i < |sorted|
      ensures sorted[i] in items
      ensures FirstAt(hits, HitKey, sorted[i]) < |hits|
      ensures items[sorted[i]] == hits[FirstAt(hits, HitKey, sorted[i])].item
    {
      SortHas(books.order, leq, sorted[i]);
      BooksAre(hits, |hits|, sorted[i]);
    }
    merged := seq(|sorted|, i requires 0 <= i < |sorted| && sorted[i] in items => items[sorted[i]]);
  }

  function Items(hits: seq<Hit>): seq<Item> { seq(|hits|, i requires 0 <= i < |hits| => hits[i].item) }

  lemma FirstsOfItems(hits: seq<Hit>, keys: seq<string>, merged: seq<Item>)
    requires |merged| == |keys|
    requires forall i :: 0 <= i < |keys| ==>
      var at := FirstAt(hits, HitKey, keys[i]);
      at < |hits| && merged[i] == hits[at].item
    ensures FirstsOf(merged, Items(hits), Key, keys)
  {
    hide FirstAt;
    forall i | 0 <= i < |keys|
      ensures FirstAt(Items(hits), Key, keys[i]) == FirstAt(hits, HitKey, keys[i])
    {
      FirstAtItems(hits, keys[i]);
    }
  }

  lemma FirstAtItems(hits: seq<Hit>, key: string)
    ensures FirstAt(Items(hits), Key, key) == FirstAt(hits, HitKey, key)
  {
    var p, q := FirstAt(Items(hits), Key, key), FirstAt(hits, HitKey, key);
    assert forall j :: 0 <= j < |hits| ==> Key(Items(hits)[j]) == HitKey(hits[j]);
    assert p >= q && q >= p;
  }

  /** Sorting looks at the elements of the list only. */
  lemma {:induction false} SortAgrees<T>(s: seq<T>, p: (T, T) -> bool, q: (T, T) -> bool)
    requires forall x, y :: x in s && y in s ==> p(x, y) == q(x, y)
    ensures Sort(s, p) == Sort(s, q)
  {
    if s != [] {
      SortAgrees(s[1..], p, q);
      forall y | y in Sort(s[1..], p) ensures p(s[0], y) == q(s[0], y) {
        SortHas(s[1..], p, y);
      }
      InsertAgrees(s[0], Sort(s[1..], p), p, q);
    }
  }

  lemma {:induction false} InsertAgrees<T>(x: T, s: seq<T>, p: (T, T) -> bool, q: (T, T) -> bool)
    requires forall y :: y in s ==> p(x, y) == q(x, y)
    ensures Insert(x, s, p) == Insert(x, s, q)
  {
    if s != [] {
      InsertAgrees(x, s[1..], p, q);
    }
  }

  // ---- dominance ----

  ghost predicate RankedAt(list: seq<Item>, key: string, rank: nat) {
    rank < |list| && Key(list[rank]) == key
  }

  /** In this list, wherever b appears, a is ranked strictly ahead of it. */
  ghost predicate Ahead(list: seq<Item>, a: string, b: string) {
    forall q: nat :: RankedAt(list, b, q) ==> exists p: nat :: p < q && RankedAt(list, a, p)
  }

  lemma {:induction false} ScoreSplits(x: seq<Hit>, y: seq<Hit>, key: string)
    ensures ScoreOf(x + y, key) == ScoreOf(x, key) + ScoreOf(y, key)
  {
    if y == [] {
      assert x + y == x;
    } else {
      assert (x + y)[..|x + y| - 1] == x + y[..|y| - 1];
      ScoreSplits(x, y[..|y| - 1], key);
    }
  }

  /** A key that does not occur scores nothing; no key ever scores less. */
  lemma {:induction false} AbsentScore(list: seq<Item>, n: nat, key: string)
    requires n <= |list|
    ensures ScoreOf(Hits(list)[..n], key) >= 0.0
    ensures (forall r: nat :: r < n ==> Key(list[r]) != key) ==> ScoreOf(Hits(list)[..n], key) == 0.0
  {
    if n != 0 {
      AbsentScore(list, n - 1, key);
      assert Hits(list)[..n][..n - 1] == Hits(list)[..n - 1];
      WeightDecreases(n - 1, n);
    }
  }

  /** In a list of distinct keys, a key scores the weight of its rank. */
  lemma {:induction false} ListScore(list: seq<Item>, n: nat, rank: nat)
    requires rank < n <= |list| && DistinctKeys(list, Key)
    ensures ScoreOf(Hits(list)[..n], Key(list[rank])) == Weight(rank)
  {
    assert Hits(list)[..n][..n - 1] == Hits(list)[..n - 1];
    if rank == n - 1 {
      AbsentScore(list, n - 1, Key(list[rank]));
    } else {
      ListScore(list, n - 1, rank);
      assert Key(list[n - 1]) != Key(list[rank]);
    }
  }

  lemma WeightDecreases(p: nat, q: nat)
    requires p < q
    ensures Weight(p) > Weight(q) > 0.0
  {
    var x, y := (RRF_K + p + 1) as real, (RRF_K + q + 1) as real;
    assert 0.0 < x < y;
    assert 1.0 / x - 1.0 / y == (y - x) / (x * y);
    assert (y - x) / (x * y) > 0.0;
  }

  lemma ListDominates(list: seq<Item>, a: string, b: string)
    requires DistinctKeys(list, Key) && Ahead(list, a, b)
    ensures ScoreOf(Hits(list), a) >= ScoreOf(Hits(list), b)
    ensures (exists q: nat :: RankedAt(list, b, q)) ==> ScoreOf(Hits(list), a) > ScoreOf(Hits(list), b)
  {
    if q: nat :| RankedAt(list, b, q) {
      var p: nat :| p < q && RankedAt(list, a, p);
      StrictlyAhead(list, p, q);
    } else {
      assert Hits(list)[..|list|] == Hits(list);
      forall r: nat | r < |list| ensures Key(list[r]) != b {
        assert !RankedAt(list, b, r);
      }
      AbsentScore(list, |list|, a);
      AbsentScore(list, |list|, b);
    }
  }

  lemma StrictlyAhead(list: seq<Item>, p: nat, q: nat)
    requires DistinctKeys(list, Key) && p < q < |list|
    ensures ScoreOf(Hits(list), Key(list[p])) > ScoreOf(Hits(list), Key(list[q]))
  {
    assert Hits(list)[..|list|] == Hits(list);
    ListScore(list, |list|, p);
    ListScore(list, |list|, q);
    WeightDecreases(p, q);
  }

  lemma {:induction false} Dominates(lists: seq<seq<Item>>, a: string, b: string)
    requires forall l :: 0 <= l < |lists| ==> DistinctKeys(lists[l], Key) && Ahead(lists[l], a, b)
    ensures ScoreOf(AllHits(lists), a) >= ScoreOf(AllHits(lists), b)
    ensures forall l, q: nat :: 0 <= l < |lists| && RankedAt(lists[l], b, q) ==>
      ScoreOf(AllHits(lists), a) > ScoreOf(AllHits(lists), b)
  {
    if lists != [] {
      var n := |lists| - 1;
      Dominates(lists[..n], a, b);
      ListDominates(lists[n], a, b);
      ScoreSplits(AllHits(lists[..n]), Hits(lists[n]), a);
      ScoreSplits(AllHits(lists[..n]), Hits(lists[n]), b);
      forall l, q: nat | 0 <= l < |lists| && RankedAt(lists[l], b, q)
        ensures ScoreOf(AllHits(lists), a) > ScoreOf(AllHits(lists), b)
      {
        assert l < n ==> lists[..n][l] == lists[l];
      }
    }
  }

  /** An item ranked strictly ahead of another in every list where the other appears, and the
      other does appear, comes out ahead of it. */
  lemma {:induction false} AheadEverywhereComesFirst(lists: seq<seq<Item>>, i: nat, j: nat)
    requires i < |Merged(AllHits(lists))| && j < |Merged(AllHits(lists))|
    requires var a, b := Merged(AllHits(lists))[i], Merged(AllHits(lists))[j];
      && (forall l :: 0 <= l < |lists| ==> DistinctKeys(lists[l], Key) && Ahead(lists[l], a, b))
      && exists l, q: nat :: 0 <= l < |lists| && RankedAt(lists[l], b, q)
    ensures i < j
  {
    Dominates(lists, Merged(AllHits(lists))[i], Merged(AllHits(lists))[j]);
    MergeRanks(AllHits(lists));
  }

  /** Where database and table names hold no colon, the two keys tell the same items apart. */
  lemma KeysAgree(x: Item, y: Item)
    requires ':' !in x.db && ':' !in y.db && ':' !in x.table && ':' !in y.table
    ensures Key(x) == Key(y) <==> Triple(x) == Triple(y)
  {
    if Key(x) == Key(y) {
      var rx, ry := ":" + x.table + "::" + x.kind, ":" + y.table + "::" + y.kind;
      assert Key(x) == x.db + [':'] + rx && Key(y) == y.db + [':'] + ry;
      Separators.SplitAtFirst(x.db, rx, y.db, ry, ':');
      assert rx[1..] == x.table + [':'] + (":" + x.kind) && ry[1..] == y.table + [':'] + (":" + y.kind);
      Separators.SplitAtFirst(x.table, ":" + x.kind, y.table, ":" + y.kind, ':');
      assert (":" + x.kind)[1..] == x.kind && (":" + y.kind)[1..] == y.kind;
    }
  }

  /** `hybrid_retrieve` on the two ranked lists. */
  method HybridRetrieve(semantic: seq<Item>, keyword: seq<Item>, k: nat) returns (top: seq<Item>)
    ensures |top| <= k
    ensures keyword == [] ==> top == semantic[..Min(k, |semantic|)]
    ensures keyword != [] && semantic == [] ==> top == keyword[..Min(k, |keyword|)]
    ensures keyword != [] && semantic != [] ==>
      var hits := AllHits([semantic, keyword]);
      FirstsOf(top, Items(hits), Key, Merged(hits)[..Min(k, |Merged(hits)|)])
  {
    if keyword == [] {
      return semantic[..Min(k, |semantic|)];
    }
    if semantic == [] {
      return keyword[..Min(k, |keyword|)];
    }
    var merged := RrfMerge([semantic, keyword]);
    top := merged[..Min(k, |merged|)];
  }

  // ---- what the score of a key is ----

  /** What one list gives a key: the reciprocal of 61 plus its rank, nothing if it is not there. */
  function Reciprocal(list: seq<Item>, key: string): real {
    var rank := FirstAt(list, Key, key);
    if rank < |list| then 1.0 / (61 + rank) as real else 0.0
  }

  function SumOfReciprocals(lists: seq<seq<Item>>, key: string): real {
    if lists == [] then 0.0
    else SumOfReciprocals(lists[..|lists| - 1], key) + Reciprocal(lists[|lists| - 1], key)
  }

  /** Over lists of distinct keys the fused score is the sum of the reciprocal ranks. */
  lemma {:induction false} ScoreIsSum(lists: seq<seq<Item>>, key: string)
    requires forall l :: 0 <= l < |lists| ==> DistinctKeys(lists[l], Key)
    ensures ScoreOf(AllHits(lists), key) == SumOfReciprocals(lists, key)
  {
    hide ScoreOf, Reciprocal, Hits, FirstAt;
    if lists == [] {
      EmptyScores(key);
    } else {
      var n := |lists| - 1;
      ScoreIsSum(lists[..n], key);
      ScoreSplits(AllHits(lists[..n]), Hits(lists[n]), key);
      OneListScore(lists[n], key);
    }
  }

  lemma EmptyScores(key: string)
    ensures ScoreOf([], key) == 0.0
  {
  }

  lemma OneListScore(list: seq<Item>, key: string)
    requires DistinctKeys(list, Key)
    ensures ScoreOf(Hits(list), key) == Reciprocal(list, key)
  {
    var rank := FirstAt(list, Key, key);
    assert Hits(list)[..|list|] == Hits(list);
    if rank < |list| {
      ListScore(list, |list|, rank);
    } else {
      AbsentScore(list, |list|, key);
    }
  }
}
