/** Cosine similarity and the best-entry scan of storage/redis_cache.py, over the reals. */
module SemanticCache {
  import opened Basics

  /** Sum of products over the zipped prefix. */
  function Dot(a: seq<real>, b: seq<real>): real {
    if a == [] || b == [] then 0.0 else a[0] * b[0] + Dot(a[1..], b[1..])
  }

  /** What is used of `math.sqrt`. */
  ghost predicate IsSqrt(sqrt: real -> real) {
    forall x :: x >= 0.0 ==> sqrt(x) >= 0.0 && sqrt(x) * sqrt(x) == x
  }

  function Cosine(a: seq<real>, b: seq<real>, sqrt: real -> real): real {
    if a == [] || b == [] then 0.0
    else
      var na, nb := sqrt(Dot(a, a)), sqrt(Dot(b, b));
      if na == 0.0 || nb == 0.0 then 0.0 else Scaled(Dot(a, b), na, nb)
  }

  function Scaled(dot: real, na: real, nb: real): real
    requires na != 0.0 && nb != 0.0
  {
    dot / (na * nb)
  }

  lemma {:induction false} DotSelfNonNegative(a: seq<real>)
    ensures Dot(a, a) >= 0.0
  {
    if a != [] {
      DotSelfNonNegative(a[1..]);
      assert a[0] * a[0] >= 0.0;
    }
  }

  lemma {:induction false} DotSymmetric(a: seq<real>, b: seq<real>)
    ensures Dot(a, b) == Dot(b, a)
  {
    if a != [] && b != [] {
      DotSymmetric(a[1..], b[1..]);
      assert a[0] * b[0] == b[0] * a[0];
    }
  }

  lemma SquareStrict(x: real, y: real)
    requires x > y >= 0.0
    ensures x * x > y * y
  {
    assert x * x - y * y == (x - y) * (x + y);
    PositiveProduct(x - y, x + y, x * x - y * y);
  }

  lemma PositiveProduct(u: real, v: real, product: real)
    requires u > 0.0 && v > 0.0 && product == u * v
    ensures product > 0.0
  {
  }

  lemma NonzeroSquare(n: real, d: real)
    requires n != 0.0 && n * n == d
    ensures d > 0.0
  {
    if n > 0.0 {
      PositiveProduct(n, n, d);
    } else {
      PositiveProduct(-n, -n, d);
    }
  }

  lemma SquareMonotone(x: real, y: real)
    requires y >= 0.0 && x * x <= y * y
    ensures x <= y
  {
    if x > y {
      SquareStrict(x, y);
    }
  }

  lemma Am(u: real, v: real)
    ensures 4.0 * u * v <= (u + v) * (u + v)
  {
    assert (u + v) * (u + v) - 4.0 * u * v == (u - v) * (u - v);
    assert (u - v) * (u - v) >= 0.0;
  }

  lemma ProductMonotone(x: real, y: real, f: real)
    requires x <= y && f >= 0.0
    ensures x * f <= y * f
  {
  }

  /** The cross term of the next coordinate: from d*d <= p*q follows 2*d*x*y <= p*y*y + q*x*x. */
  lemma CrossTerm(p: real, q: real, d: real, x: real, y: real)
    requires p >= 0.0 && q >= 0.0 && d * d <= p * q
    ensures 2.0 * d * (x * y) <= p * (y * y) + q * (x * x)
  {
    var u, v, f := p * (y * y), q * (x * x), x * y;
    var t := 2.0 * d * f;
    assert x * x >= 0.0 && y * y >= 0.0 && f * f >= 0.0;
    assert u >= 0.0 && v >= 0.0;
    ProductMonotone(d * d, p * q, f * f);
    assert t * t == 4.0 * ((d * d) * (f * f));
    assert (p * q) * (f * f) == u * v by {
      assert f * f == (x * x) * (y * y);
      Regroup(p, q, x * x, y * y);
    }
    Am(u, v);
    assert 4.0 * (u * v) == 4.0 * u * v;
    SquareMonotone(t, u + v);
  }

  lemma Regroup(p: real, q: real, r: real, s: real)
    ensures (p * q) * (r * s) == (p * s) * (q * r)
  {
    assert (p * q) * (r * s) == p * (q * (r * s));
    assert q * (r * s) == s * (q * r);
  }

  /** Cauchy-Schwarz, for vectors of any two lengths. */
  lemma {:induction false} CauchySchwarz(a: seq<real>, b: seq<real>)
    ensures Dot(a, b) * Dot(a, b) <= Dot(a, a) * Dot(b, b)
  {
    DotSelfNonNegative(a);
    DotSelfNonNegative(b);
    if a != [] && b != [] {
      var x, y, p, q, d := a[0], b[0], Dot(a[1..], a[1..]), Dot(b[1..], b[1..]), Dot(a[1..], b[1..]);
      CauchySchwarz(a[1..], b[1..]);
      DotSelfNonNegative(a[1..]);
      DotSelfNonNegative(b[1..]);
      CrossTerm(p, q, d, x, y);
      Expand(p, q, d, x, y, Dot(a, a), Dot(b, b), Dot(a, b));
    }
  }

  lemma Expand(p: real, q: real, d: real, x: real, y: real, p': real, q': real, d': real)
    requires d * d <= p * q && 2.0 * d * (x * y) <= p * (y * y) + q * (x * x)
    requires p' == x * x + p && q' == y * y + q && d' == x * y + d
    ensures d' * d' <= p' * q'
  {
    var f := x * y;
    assert d' * d' == f * f + 2.0 * d * f + d * d;
    assert p' * q' == (x * x) * (y * y) + p * (y * y) + q * (x * x) + p * q;
    assert f * f == (x * x) * (y * y);
  }

  lemma Quotient(d: real, n: real)
    requires n > 0.0 && -n <= d <= n
    ensures -1.0 <= d / n <= 1.0
  {
    var f := 1.0 / n;
    assert f > 0.0 && n * f == 1.0 && d / n == d * f;
    ProductMonotone(d, n, f);
    ProductMonotone(-n, d, f);
  }

  /** |d| <= na*nb when the squares say so. */
  lemma WithinNorms(d: real, na: real, nb: real, p: real, q: real)
    requires na > 0.0 && nb > 0.0 && na * na == p && nb * nb == q && d * d <= p * q
    ensures -1.0 <= Scaled(d, na, nb) <= 1.0
  {
    var n := na * nb;
    PositiveProduct(na, nb, n);
    assert n * n == p * q by {
      Regroup(na, nb, nb, na);
      assert n * n == (na * nb) * (nb * na);
    }
    SquareMonotone(d, n);
    assert (-d) * (-d) == d * d;
    SquareMonotone(-d, n);
    Quotient(d, n);
  }

  lemma ScaledSymmetric(d: real, na: real, nb: real)
    requires na != 0.0 && nb != 0.0
    ensures Scaled(d, na, nb) == Scaled(d, nb, na)
  {
    assert na * nb == nb * na;
  }

  lemma ScaledSelf(d: real, n: real)
    requires n != 0.0 && d > 0.0 && n * n == d
    ensures Scaled(d, n, n) == 1.0
  {
    assert d / d == 1.0;
  }

  /** Similarity lies in [-1, 1] and is symmetric. */
  lemma CosineBounded(a: seq<real>, b: seq<real>, sqrt: real -> real)
    requires IsSqrt(sqrt)
    ensures -1.0 <= Cosine(a, b, sqrt) <= 1.0
    ensures Cosine(a, b, sqrt) == Cosine(b, a, sqrt)
  {
    DotSymmetric(a, b);
    DotSelfNonNegative(a);
    DotSelfNonNegative(b);
    CauchySchwarz(a, b);
    var na, nb := sqrt(Dot(a, a)), sqrt(Dot(b, b));
    if a != [] && b != [] && na != 0.0 && nb != 0.0 {
      WithinNorms(Dot(a, b), na, nb, Dot(a, a), Dot(b, b));
      ScaledSymmetric(Dot(a, b), na, nb);
    }
  }

  /** A vector is as similar to itself as can be, unless it is zero. */
  lemma CosineSelf(a: seq<real>, sqrt: real -> real)
    requires IsSqrt(sqrt)
    ensures Cosine(a, a, sqrt) == if a == [] || Dot(a, a) == 0.0 then 0.0 else 1.0
  {
    DotSelfNonNegative(a);
    var d, n := Dot(a, a), sqrt(Dot(a, a));
    if n != 0.0 {
      NonzeroSquare(n, d);
      ScaledSelf(d, n);
    }
  }

  /** The product sums over every coordinate the two vectors share, and over no other. */
  lemma {:induction false} DotIsSum(a: seq<real>, b: seq<real>, n: nat)
    requires n < |a| && n < |b|
    ensures Dot(a[..n + 1], b[..n + 1]) == Dot(a[..n], b[..n]) + a[n] * b[n]
  {
    if n > 0 {
      assert a[..n + 1][1..] == a[1..][..n] && b[..n + 1][1..] == b[1..][..n];
      assert a[..n][1..] == a[1..][..n - 1] && b[..n][1..] == b[1..][..n - 1];
      DotIsSum(a[1..], b[1..], n - 1);
    } else {
      assert a[..1][1..] == [] && b[..1][1..] == [];
    }
  }

  lemma {:induction false} DotSharesPrefix(a: seq<real>, b: seq<real>)
    ensures var n := Min(|a|, |b|); Dot(a, b) == Dot(a[..n], b[..n])
  {
    var n := Min(|a|, |b|);
    if n > 0 {
      assert a[..n][1..] == a[1..][..n - 1] && b[..n][1..] == b[1..][..n - 1];
      DotSharesPrefix(a[1..], b[1..]);
    }
  }

  /** Similarity times the two lengths is the product; it is nothing if a vector is empty or of length zero. */
  lemma CosineIs(a: seq<real>, b: seq<real>, sqrt: real -> real)
    ensures var na, nb := sqrt(Dot(a, a)), sqrt(Dot(b, b));
      if a == [] || b == [] || na == 0.0 || nb == 0.0 then Cosine(a, b, sqrt) == 0.0
      else Cosine(a, b, sqrt) * (na * nb) == Dot(a, b)
  {
    var na, nb := sqrt(Dot(a, a)), sqrt(Dot(b, b));
    if na != 0.0 && nb != 0.0 {
      NonzeroProduct(na, nb);
      Divided(Dot(a, b), na * nb);
    }
  }

  lemma NonzeroProduct(x: real, y: real)
    requires x != 0.0 && y != 0.0
    ensures x * y != 0.0
  {
  }

  lemma Divided(d: real, n: real)
    requires n != 0.0
    ensures d / n * n == d
  {
  }

  // ---- the scan of `cache_get_llm` ----

  datatype Entry = Entry(question: string, sql: string, embedding: seq<real>)
  /** One id of the key set: its entry has expired or does not parse, or is there. */
  datatype Slot = Stale(id: string) | Live(id: string, entry: Entry)
  datatype Hit = Hit(entry: Entry, similarity: real)

  /** What may be returned at all: above the threshold, and above the initial best of zero. */
  predicate Eligible(query: seq<real>, slot: Slot, threshold: real, sqrt: real -> real) {
    slot.Live? && Cosine(query, slot.entry.embedding, sqrt) > threshold && Cosine(query, slot.entry.embedding, sqrt) > 0.0
  }

  ghost predicate IsBest(query: seq<real>, slots: seq<Slot>, threshold: real, sqrt: real -> real, best: Option<Hit>) {
    match best
    case None => forall s :: s in slots ==> !Eligible(query, s, threshold, sqrt)
    case Some(h) =>
      && h.similarity == Cosine(query, h.entry.embedding, sqrt)
      && (exists s :: s in slots && s.Live? && s.entry == h.entry && Eligible(query, s, threshold, sqrt))
      && forall s :: s in slots && s.Live? ==> Cosine(query, s.entry.embedding, sqrt) <= h.similarity
  }

  /** `cache_get_llm` over the ids in whatever order the set yields them: an entry of maximal
      similarity if any is eligible, and the stale ids removed from the key set. */
  method FindBest(query: seq<real>, slots: seq<Slot>, threshold: real, sqrt: real -> real)
    returns (best: Option<Hit>, removed: set<string>)
    ensures IsBest(query, slots, threshold, sqrt, best)
    ensures removed == set s | s in slots && s.Stale? :: s.id
  {
    var bestSim := 0.0;
    best, removed := None, {};
    for i := 0 to |slots|
      invariant bestSim >= 0.0 && (best.None? ==> bestSim == 0.0) && (best.Some? ==> bestSim == best.value.similarity)
      invariant IsBest(query, slots[..i], threshold, sqrt, best)
      invariant removed == set s | s in slots[..i] && s.Stale? :: s.id
    {
      assert slots[..i + 1] == slots[..i] + [slots[i]];
      match slots[i]
      case Stale(id) =>
        removed := removed + {id};
      case Live(_, entry) =>
        var sim := Cosine(query, entry.embedding, sqrt);
        if sim > threshold && sim > bestSim {
          assert Eligible(query, slots[i], threshold, sqrt);
          bestSim := sim;
          best := Some(Hit(entry, sim));
        }
    }
    assert slots[..|slots|] == slots;
  }

  /** The scan answers none although some entry lies above the threshold. */
  ghost predicate Misses(query: seq<real>, slots: seq<Slot>, threshold: real, sqrt: real -> real, best: Option<Hit>) {
    && IsBest(query, slots, threshold, sqrt, best)
    && best.None?
    && exists s :: s in slots && s.Live? && Cosine(query, s.entry.embedding, sqrt) > threshold
  }

  /** With a threshold of at least zero there is a hit if and only if some entry exceeds it. */
  lemma NothingMissed(query: seq<real>, slots: seq<Slot>, threshold: real, sqrt: real -> real, best: Option<Hit>)
    requires threshold >= 0.0 && IsBest(query, slots, threshold, sqrt, best)
    ensures best.None? <==>
      forall s :: s in slots && s.Live? ==> Cosine(query, s.entry.embedding, sqrt) <= threshold
  {
    if best.None? {
      forall s | s in slots && s.Live? ensures Cosine(query, s.entry.embedding, sqrt) <= threshold {
        assert !Eligible(query, s, threshold, sqrt);
      }
    }
  }

  /** No scan ever misses an entry if and only if the threshold is not negative. */
  lemma MissesNothingIff(threshold: real, sqrt: real -> real)
    ensures (forall query, slots, best :: !Misses(query, slots, threshold, sqrt, best)) <==> threshold >= 0.0
  {
    if threshold >= 0.0 {
      forall query, slots, best ensures !Misses(query, slots, threshold, sqrt, best) {
        if Misses(query, slots, threshold, sqrt, best) {
          NothingMissed(query, slots, threshold, sqrt, best);
        }
      }
    } else {
      OrthogonalIsMissed(threshold, sqrt);
    }
  }

  /** Below zero an orthogonal entry lies above the threshold and is not found. */
  lemma OrthogonalIsMissed(threshold: real, sqrt: real -> real)
    requires threshold < 0.0
    ensures Misses([1.0, 0.0], [Live("k", Entry("q", "s", [0.0, 1.0]))], threshold, sqrt, None)
  {
    var a, b := [1.0, 0.0], [0.0, 1.0];
    var slot := Live("k", Entry("q", "s", b));
    assert a[1..] == [0.0] && b[1..] == [1.0] && a[1..][1..] == [] && b[1..][1..] == [];
    assert Dot(a[1..], b[1..]) == 0.0;
    assert Dot(a, b) == 0.0;
    assert Cosine(a, b, sqrt) == 0.0;
    assert slot in [slot] && !Eligible(a, slot, threshold, sqrt);
  }

  /** Whether there is a hit, and how similar it is, does not depend on the order of the ids. */
  lemma OrderIrrelevant(query: seq<real>, one: seq<Slot>, two: seq<Slot>, threshold: real, sqrt: real -> real,
                        best1: Option<Hit>, best2: Option<Hit>)
    requires forall s :: s in one <==> s in two
    requires IsBest(query, one, threshold, sqrt, best1) && IsBest(query, two, threshold, sqrt, best2)
    ensures best1.None? <==> best2.None?
    ensures best1.Some? ==> best1.value.similarity == best2.value.similarity
  {
  }
}
