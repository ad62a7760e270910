/** Python's ordering of `str` values (code point by code point, a proper
    prefix first) and a sort by a string key, as `sorted` and `sort_values`
    use them; the sort here is stable, which pandas' default sort is not. */
module StringOrder {

  /** `a < b` on Python strings. */
  predicate Less(a: string, b: string)
    decreases |a|
  {
    if a == [] then b != []
    else if b == [] then false
    else if a[0] != b[0] then a[0] < b[0]
    else Less(a[1..], b[1..])
  }

  predicate LessEq(a: string, b: string) {
    a == b || Less(a, b)
  }

  lemma {:induction false} LessIrreflexive(a: string)
    ensures !Less(a, a)
    decreases |a|
  {
    if a != [] {
      LessIrreflexive(a[1..]);
    }
  }

  lemma {:induction false} LessAsymmetric(a: string, b: string)
    ensures !(Less(a, b) && Less(b, a))
    decreases |a|
  {
    if a != [] && b != [] && a[0] == b[0] {
      LessAsymmetric(a[1..], b[1..]);
    }
  }

  lemma {:induction false} LessTransitive(a: string, b: string, c: string)
    requires Less(a, b) && Less(b, c)
    ensures Less(a, c)
    decreases |a|
  {
    if a != [] && a[0] == b[0] && b[0] == c[0] {
      LessTransitive(a[1..], b[1..], c[1..]);
    }
  }

  /** Two different strings are always ordered one way or the other. */
  lemma {:induction false} LessTotal(a: string, b: string)
    requires a != b
    ensures Less(a, b) || Less(b, a)
    decreases |a|
  {
    if a != [] && b != [] && a[0] == b[0] {
      assert a == [a[0]] + a[1..] && b == [b[0]] + b[1..];
      LessTotal(a[1..], b[1..]);
    }
  }

  lemma LessEqTransitive(a: string, b: string, c: string)
    requires LessEq(a, b) && LessEq(b, c)
    ensures LessEq(a, c)
  {
    if a != b && b != c {
      LessTransitive(a, b, c);
    }
  }

  lemma LessEqAntisymmetric(a: string, b: string)
    requires LessEq(a, b) && LessEq(b, a)
    ensures a == b
  {
    if a != b {
      LessAsymmetric(a, b);
    }
  }

  /** Neighbouring elements are in non-decreasing key order. */
  predicate SortedBy<T>(s: seq<T>, key: T -> string) {
    forall i :: 0 < i < |s| ==> LessEq(key(s[i - 1]), key(s[i]))
  }

  predicate DistinctKeys<T>(s: seq<T>, key: T -> string) {
    forall i, j :: 0 <= i < j < |s| ==> key(s[i]) != key(s[j])
  }

  /** Inserts `x` in front of the first element whose key is not smaller. */
  function Insert<T>(x: T, s: seq<T>, key: T -> string): (r: seq<T>)
    requires SortedBy(s, key)
    ensures SortedBy(r, key)
    ensures multiset(r) == multiset(s) + multiset{x}
    ensures r != [] && (r[0] == x || (s != [] && r[0] == s[0]))
  {
    if s == [] then [x]
    else if LessEq(key(x), key(s[0])) then [x] + s
    else
      var rest := Insert(x, s[1..], key);
      assert s == [s[0]] + s[1..];
      LessTotal(key(x), key(s[0]));
      [s[0]] + rest
  }

  /** Insertion sort by key; elements with equal keys keep their order. */
  function SortBy<T>(xs: seq<T>, key: T -> string): (r: seq<T>)
    ensures SortedBy(r, key)
    ensures multiset(r) == multiset(xs)
    ensures |r| == |xs|
  {
    if xs == [] then []
    else
      assert xs == [xs[0]] + xs[1..];
      Insert(xs[0], SortBy(xs[1..], key), key)
  }

  lemma {:induction false} SortedPairwise<T>(s: seq<T>, key: T -> string, i: int, j: int)
    requires SortedBy(s, key) && 0 <= i <= j < |s|
    ensures LessEq(key(s[i]), key(s[j]))
    decreases j - i
  {
    if i < j {
      SortedPairwise(s, key, i, j - 1);
      LessEqTransitive(key(s[i]), key(s[j - 1]), key(s[j]));
    }
  }

  /** A sorted arrangement of elements with distinct keys is unique: two sorted
      sequences holding the same elements are equal. */
  lemma {:induction false} SortedUnique<T>(s: seq<T>, t: seq<T>, key: T -> string)
    requires SortedBy(s, key) && SortedBy(t, key)
    requires multiset(s) == multiset(t)
    requires DistinctKeys(s, key)
    ensures s == t
    decreases |s|
  {
    assert |s| == |multiset(s)| == |multiset(t)| == |t|;
    if s != [] {
      SortedHeadsAgree(s, t, key);
      TailsAgree(s, t);
      SortedUnique(s[1..], t[1..], key);
      assert s == [s[0]] + s[1..] && t == [t[0]] + t[1..];
    }
  }

  lemma SortedHeadsAgree<T>(s: seq<T>, t: seq<T>, key: T -> string)
    requires SortedBy(s, key) && SortedBy(t, key)
    requires multiset(s) == multiset(t) && s != [] && t != []
    requires DistinctKeys(s, key)
    ensures s[0] == t[0]
  {
    assert s[0] in multiset(t);
    var j :| 0 <= j < |t| && t[j] == s[0];
    assert t[0] in multiset(s);
    var i :| 0 <= i < |s| && s[i] == t[0];
    SortedPairwise(s, key, 0, i);
    SortedPairwise(t, key, 0, j);
    LessEqAntisymmetric(key(s[0]), key(s[i]));
  }

  lemma TailsAgree<T>(s: seq<T>, t: seq<T>)
    requires multiset(s) == multiset(t) && s != [] && t != [] && s[0] == t[0]
    ensures multiset(s[1..]) == multiset(t[1..])
  {
    assert s == [s[0]] + s[1..] && t == [t[0]] + t[1..];
    assert multiset(s) == multiset{s[0]} + multiset(s[1..]);
    assert multiset(t) == multiset{t[0]} + multiset(t[1..]);
    assert multiset(s[1..]) == multiset(s) - multiset{s[0]};
    assert multiset(t[1..]) == multiset(t) - multiset{t[0]};
  }

  /** Sorting elements with distinct keys does not depend on their input order. */
  lemma SortByIgnoresOrder<T>(xs: seq<T>, ys: seq<T>, key: T -> string)
    requires multiset(xs) == multiset(ys)
    requires DistinctKeys(xs, key)
    ensures SortBy(xs, key) == SortBy(ys, key)
  {
    var s, t := SortBy(xs, key), SortBy(ys, key);
    DistinctKeysKept(xs, s, key);
    SortedUnique(s, t, key);
  }

  /** Rearranging elements with distinct keys keeps their keys distinct. */
  lemma DistinctKeysKept<T>(xs: seq<T>, s: seq<T>, key: T -> string)
    requires multiset(xs) == multiset(s) && DistinctKeys(xs, key)
    ensures DistinctKeys(s, key)
  {
    forall i, j | 0 <= i < j < |s| ensures key(s[i]) != key(s[j]) {
      assert s[i] in multiset(xs) && s[j] in multiset(xs);
      var i' :| 0 <= i' < |xs| && xs[i'] == s[i];
      var j' :| 0 <= j' < |xs| && xs[j'] == s[j];
      if key(s[i]) == key(s[j]) {
        assert i' == j';
        TwiceCounted(s, i, j);
        OnceCounted(xs, key, i');
        assert false;
      }
    }
  }

  lemma TwiceCounted<T>(s: seq<T>, i: int, j: int)
    requires 0 <= i < j < |s| && s[i] == s[j]
    ensures multiset(s)[s[i]] >= 2
  {
    assert s == s[..j] + s[j..];
    assert s[..j][i] == s[i] && s[j..][0] == s[j];
    assert multiset(s) == multiset(s[..j]) + multiset(s[j..]);
  }

  lemma OnceCounted<T>(xs: seq<T>, key: T -> string, k: int)
    requires DistinctKeys(xs, key) && 0 <= k < |xs|
    ensures multiset(xs)[xs[k]] == 1
  {
    assert xs == xs[..k] + [xs[k]] + xs[k + 1..];
    assert forall m :: 0 <= m < |xs| && m != k ==> xs[m] != xs[k];
    assert xs[k] !in xs[..k] && xs[k] !in xs[k + 1..];
  }
}
