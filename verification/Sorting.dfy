/** Go's sort.Slice and sort.Strings, as far as callers may rely on them. */
module Sorting {

  /** What sort.Slice asks of its comparison: a strict weak order. */
  ghost predicate WeakOrder<T(!new)>(less: (T, T) -> bool) {
    && (forall a, b :: less(a, b) ==> !less(b, a))
    && (forall a, b, c :: !less(b, a) && !less(c, b) ==> !less(c, a))
  }

  /** Any two different elements of the sequence are told apart. */
  ghost predicate Separates<T(!new)>(less: (T, T) -> bool, s: seq<T>) {
    forall a, b :: a in s && b in s && a != b ==> less(a, b) || less(b, a)
  }

  ghost predicate SortedBy<T(!new)>(less: (T, T) -> bool, s: seq<T>) {
    forall i, j :: 0 <= i < j < |s| ==> !less(s[j], s[i])
  }

  function InsertBy<T>(less: (T, T) -> bool, x: T, s: seq<T>): seq<T> {
    if s == [] || !less(s[0], x) then [x] + s else [s[0]] + InsertBy(less, x, s[1..])
  }

  function SortBy<T>(less: (T, T) -> bool, s: seq<T>): seq<T> {
    if s == [] then [] else InsertBy(less, s[0], SortBy(less, s[1..]))
  }

  lemma {:induction false} InsertKeeps<T>(less: (T, T) -> bool, x: T, s: seq<T>)
    ensures multiset(InsertBy(less, x, s)) == multiset(s) + multiset{x}
    ensures forall i :: 0 <= i < |InsertBy(less, x, s)| ==> InsertBy(less, x, s)[i] == x || InsertBy(less, x, s)[i] in s
  {
    if s != [] && less(s[0], x) {
      InsertKeeps(less, x, s[1..]);
      assert s == [s[0]] + s[1..];
    }
  }

  lemma {:induction false} InsertSorts<T(!new)>(less: (T, T) -> bool, x: T, s: seq<T>)
    requires WeakOrder(less) && SortedBy(less, s)
    ensures SortedBy(less, InsertBy(less, x, s))
  {
    if s != [] && less(s[0], x) {
      InsertSorts(less, x, s[1..]);
      InsertKeeps(less, x, s[1..]);
    }
  }

  lemma {:induction false} SortKeeps<T>(less: (T, T) -> bool, s: seq<T>)
    ensures multiset(SortBy(less, s)) == multiset(s) && |SortBy(less, s)| == |s|
    ensures forall x :: x in SortBy(less, s) <==> x in s
  {
    if s != [] {
      SortKeeps(less, s[1..]);
      InsertKeeps(less, s[0], SortBy(less, s[1..]));
      assert s == [s[0]] + s[1..];
    }
    assert |multiset(SortBy(less, s))| == |multiset(s)|;
    assert forall x :: x in SortBy(less, s) <==> x in multiset(SortBy(less, s));
  }

  lemma {:induction false} SortSorts<T(!new)>(less: (T, T) -> bool, s: seq<T>)
    requires WeakOrder(less)
    ensures SortedBy(less, SortBy(less, s))
  {
    if s != [] {
      SortSorts(less, s[1..]);
      InsertSorts(less, s[0], SortBy(less, s[1..]));
    }
  }

  lemma SameHead<T(!new)>(less: (T, T) -> bool, a: seq<T>, b: seq<T>)
    requires Separates(less, a) && a != [] && b != []
    requires SortedBy(less, a) && SortedBy(less, b)
    requires forall x :: x in a <==> x in b
    ensures a[0] == b[0]
  {
    assert a[0] in a && b[0] in b;
    var i :| 0 <= i < |b| && b[i] == a[0];
    var j :| 0 <= j < |a| && a[j] == b[0];
    assert !less(b[i], b[0]) || i == 0;
    assert !less(a[j], a[0]) || j == 0;
  }

  lemma TailBag<T>(a: seq<T>)
    requires a != []
    ensures multiset(a[1..]) == multiset(a) - multiset{a[0]}
  {
    assert a == [a[0]] + a[1..];
  }

  lemma SameElements<T>(a: seq<T>, b: seq<T>)
    requires multiset(a) == multiset(b)
    ensures |a| == |b| && forall x :: x in a <==> x in b
  {
    assert |multiset(a)| == |multiset(b)|;
    forall x ensures x in a <==> x in b {
      assert x in a <==> x in multiset(a);
      assert x in b <==> x in multiset(b);
    }
  }

  lemma SameTails<T>(a: seq<T>, b: seq<T>)
    requires multiset(a) == multiset(b) && a != [] && b != [] && a[0] == b[0]
    ensures multiset(a[1..]) == multiset(b[1..])
  {
    TailBag(a);
    TailBag(b);
  }

  /** Where the comparison tells every element apart, sorting has one result, whatever the algorithm. */
  lemma {:induction false} SortedIsUnique<T(!new)>(less: (T, T) -> bool, a: seq<T>, b: seq<T>)
    requires WeakOrder(less) && Separates(less, a)
    requires SortedBy(less, a) && SortedBy(less, b) && multiset(a) == multiset(b)
    ensures a == b
  {
    SameElements(a, b);
    if a != [] {
      SameHead(less, a, b);
      SameTails(a, b);
      SortedIsUnique(less, a[1..], b[1..]);
      assert a == [a[0]] + a[1..] && b == [b[0]] + b[1..];
    }
  }

  lemma SortIgnoresInputOrder<T(!new)>(less: (T, T) -> bool, s: seq<T>, t: seq<T>)
    requires WeakOrder(less) && Separates(less, s) && multiset(s) == multiset(t)
    ensures SortBy(less, s) == SortBy(less, t)
  {
    SortKeeps(less, s);
    SortKeeps(less, t);
    SortSorts(less, s);
    SortSorts(less, t);
    SortedIsUnique(less, SortBy(less, s), SortBy(less, t));
  }

  // ---- Strings, compared byte by byte ---------------------------------------------------------

  predicate StringLess(a: string, b: string) {
    b != [] && (a == [] || a[0] < b[0] || (a[0] == b[0] && StringLess(a[1..], b[1..])))
  }

  lemma {:induction false} StringLessAsymmetric(a: string, b: string)
    ensures StringLess(a, b) ==> !StringLess(b, a)
  {
    if a != [] && b != [] { StringLessAsymmetric(a[1..], b[1..]); }
  }

  lemma {:induction false} StringLessConnected(a: string, b: string)
    ensures StringLess(a, b) || StringLess(b, a) || a == b
  {
    if a != [] && b != [] {
      StringLessConnected(a[1..], b[1..]);
      assert a == [a[0]] + a[1..] && b == [b[0]] + b[1..];
    }
  }

  lemma {:induction false} StringLessTransitive(a: string, b: string, c: string)
    requires StringLess(a, b) && StringLess(b, c)
    ensures StringLess(a, c)
  {
    if a != [] && a[0] == b[0] == c[0] {
      StringLessTransitive(a[1..], b[1..], c[1..]);
    }
  }

  lemma StringLessIsWeakOrder()
    ensures WeakOrder(StringLess)
  {
    forall a: string, b: string ensures StringLess(a, b) ==> !StringLess(b, a) {
      StringLessAsymmetric(a, b);
    }
    forall a: string, b: string, c: string | !StringLess(b, a) && !StringLess(c, b) ensures !StringLess(c, a) {
      StringLessConnected(a, b);
      StringLessConnected(b, c);
      if a != b && b != c {
        StringLessTransitive(a, b, c);
        StringLessAsymmetric(a, c);
      }
    }
  }

  // ---- The keys of a map, sorted ----------------------------------------------------------------

  /** The one increasing sequence of the elements of a set. */
  ghost predicate KeysInOrder(keys: seq<string>, s: set<string>) {
    && (forall k :: k in keys <==> k in s)
    && (forall i, j :: 0 <= i < j < |keys| ==> StringLess(keys[i], keys[j]))
  }

  lemma {:induction false} KeysInOrderCount(a: seq<string>, s: set<string>)
    requires KeysInOrder(a, s)
    ensures |a| == |s|
    decreases |a|
  {
    if a == [] {
      assert s == {} by { forall k ensures k !in s { assert k !in a; } }
    } else {
      RestKeysInOrder(a, s);
      KeysInOrderCount(a[1..], s - {a[0]});
      assert a[0] in a;
    }
  }

  lemma {:induction false} KeysInOrderAreUnique(a: seq<string>, b: seq<string>, s: set<string>)
    requires KeysInOrder(a, s) && KeysInOrder(b, s)
    ensures a == b
    decreases |a|
  {
    KeysInOrderCount(a, s);
    KeysInOrderCount(b, s);
    if a != [] {
      assert a[0] in a && b[0] in b && a[0] in s && b[0] in s;
      StringLessAsymmetric(a[0], b[0]);
      RestKeysInOrder(a, s);
      RestKeysInOrder(b, s);
      KeysInOrderAreUnique(a[1..], b[1..], s - {a[0]});
      assert a == [a[0]] + a[1..] && b == [b[0]] + b[1..];
    }
  }

  lemma RestKeysInOrder(a: seq<string>, s: set<string>)
    requires KeysInOrder(a, s) && a != []
    ensures KeysInOrder(a[1..], s - {a[0]})
  {
    assert a == [a[0]] + a[1..];
    forall k ensures k in a[1..] <==> k in s - {a[0]} {
      assert k in a <==> k == a[0] || k in a[1..];
      if a[0] in a[1..] {
        var i :| 0 <= i < |a[1..]| && a[1..][i] == a[0];
        assert a[i + 1] == a[0];
        StringLessAsymmetric(a[0], a[i + 1]);
      }
    }
  }

  /** Collects the keys in whatever order the map yields them, then sorts. */
  method SortedKeys(s: set<string>) returns (keys: seq<string>)
    ensures KeysInOrder(keys, s)
  {
    keys := [];
    var todo := s;
    while todo != {}
      invariant todo <= s
      invariant forall k :: k in keys <==> k in s && k !in todo
      invariant forall i, j :: 0 <= i < j < |keys| ==> keys[i] != keys[j]
      decreases |todo|
    {
      var k :| k in todo;
      keys := keys + [k];
      todo := todo - {k};
    }
    SortedDistinctly(keys);
    keys := SortBy(StringLess, keys);
  }

  lemma SortedDistinctly(keys: seq<string>)
    requires forall i, j :: 0 <= i < j < |keys| ==> keys[i] != keys[j]
    ensures var r := SortBy(StringLess, keys);
      && (forall k :: k in r <==> k in keys)
      && (forall i, j :: 0 <= i < j < |r| ==> StringLess(r[i], r[j]))
  {
    var r := SortBy(StringLess, keys);
    StringLessIsWeakOrder();
    SortKeeps(StringLess, keys);
    SortSorts(StringLess, keys);
    forall i, j | 0 <= i < j < |r| ensures StringLess(r[i], r[j]) {
      OnceInBag(keys, r[i]);
      OnceMeansDifferent(r, i, j);
      StringLessConnected(r[i], r[j]);
    }
  }

  lemma OnceMeansDifferent<T>(s: seq<T>, i: nat, j: nat)
    requires i < j < |s| && multiset(s)[s[i]] <= 1
    ensures s[i] != s[j]
  {
    assert s == s[..i] + [s[i]] + s[i + 1..j] + [s[j]] + s[j + 1..];
  }

  lemma {:induction false} OnceInBag<T>(s: seq<T>, x: T)
    requires forall i, j :: 0 <= i < j < |s| ==> s[i] != s[j]
    ensures multiset(s)[x] <= 1
  {
    if s != [] {
      OnceInBag(s[1..], x);
      assert s == [s[0]] + s[1..];
      assert s[0] !in s[1..] by {
        forall i | 0 <= i < |s[1..]| ensures s[1..][i] != s[0] {
          assert s[1..][i] == s[i + 1];
        }
      }
    }
  }
}
