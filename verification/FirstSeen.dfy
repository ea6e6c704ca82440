/** First occurrences of keys in a list: the insertion order of a Python dict or Counter. */
module FirstSeen {

  /** The position of a key's first occurrence, |s| if there is none. */
  function FirstAt<T, K(==)>(s: seq<T>, key: T -> K, k: K): (i: nat)
    ensures i <= |s|
    ensures i < |s| ==> key(s[i]) == k
    ensures forall j :: 0 <= j < i ==> key(s[j]) != k
  {
    if s == [] || key(s[0]) == k then 0
    else
      var r := FirstAt(s[1..], key, k);
      assert forall j :: 1 <= j < 1 + r ==> key(s[j]) == key(s[1..][j - 1]);
      1 + r
  }

  /** The different keys among the first n elements, in order of first appearance. */
  function KeysOf<T, K(==)>(s: seq<T>, key: T -> K, n: nat): seq<K>
    requires n <= |s|
  {
    if n == 0 then []
    else
      KeysOf(s, key, n - 1) + if FirstAt(s, key, key(s[n - 1])) == n - 1 then [key(s[n - 1])] else []
  }

  lemma {:induction false} KeysOfHas<T, K>(s: seq<T>, key: T -> K, n: nat, k: K)
    requires n <= |s|
    ensures k in KeysOf(s, key, n) <==> FirstAt(s, key, k) < n
  {
    if n != 0 {
      KeysOfHas(s, key, n - 1, k);
      assert FirstAt(s, key, k) == n - 1 ==> k == key(s[n - 1]);
    }
  }

  ghost predicate InOrder<T, K>(s: seq<T>, key: T -> K, keys: seq<K>) {
    forall i, j :: 0 <= i < j < |keys| ==> FirstAt(s, key, keys[i]) < FirstAt(s, key, keys[j])
  }

  lemma {:induction false} KeysOfInOrder<T, K>(s: seq<T>, key: T -> K, n: nat)
    requires n <= |s|
    ensures InOrder(s, key, KeysOf(s, key, n))
  {
    if n != 0 {
      KeysOfInOrder(s, key, n - 1);
      var init := KeysOf(s, key, n - 1);
      forall i | 0 <= i < |init| ensures FirstAt(s, key, init[i]) < n - 1 {
        KeysOfHas(s, key, n - 1, init[i]);
      }
    }
  }

  lemma {:induction false} KeysOfGrows<T, K>(s: seq<T>, key: T -> K, m: nat, n: nat)
    requires m <= n <= |s|
    ensures KeysOf(s, key, m) <= KeysOf(s, key, n)
  {
    if m < n {
      KeysOfGrows(s, key, m, n - 1);
    }
  }
}
