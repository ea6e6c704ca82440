/** Splitting a joined key at its separator: when one side cannot contain the separator, the
    joined form determines both sides. */
module Separators {

  lemma SplitAtFirst<T>(x: seq<T>, s: seq<T>, y: seq<T>, t: seq<T>, sep: T)
    requires sep !in x && sep !in y && x + [sep] + s == y + [sep] + t
    ensures x == y && s == t
  {
    var a, b := x + [sep] + s, y + [sep] + t;
    assert a[|x|] == sep && b[|y|] == sep;
    assert forall i :: 0 <= i < |x| ==> a[i] == x[i];
    assert forall i :: 0 <= i < |y| ==> b[i] == y[i];
    assert |x| == |y|;
    assert a[..|x|] == x && b[..|y|] == y && a[|x| + 1..] == s && b[|y| + 1..] == t;
  }

  lemma SplitAtLast<T>(x: seq<T>, s: seq<T>, y: seq<T>, t: seq<T>, sep: T)
    requires sep !in s && sep !in t && x + [sep] + s == y + [sep] + t
    ensures x == y && s == t
  {
    var a, b := x + [sep] + s, y + [sep] + t;
    assert a[|x|] == sep && b[|y|] == sep;
    forall i | |x| < i < |a| ensures a[i] != sep {
      assert a[i] == s[i - |x| - 1];
    }
    forall i | |y| < i < |b| ensures b[i] != sep {
      assert b[i] == t[i - |y| - 1];
    }
    assert |x| == |y|;
    assert a[..|x|] == x && b[..|y|] == y && a[|x| + 1..] == s && b[|y| + 1..] == t;
  }
}
