/** Orders and a sort. The client sorts with String.prototype.localeCompare, which the model
    keeps abstract as any total preorder; MongoDB sorts strings by their binary (code point) order,
    which the model spells out as StrLe. */
module Sorting {
  import opened Common

  /** `le` is total and transitive: a comparator that sorting can rely on. */
  ghost predicate TotalPreorder<T(!new)>(le: (T, T) -> bool)
  {
    && (forall a, b :: le(a, b) || le(b, a))
    && (forall a, b, c :: le(a, b) && le(b, c) ==> le(a, c))
  }

  ghost predicate SortedBy<T>(s: seq<T>, le: (T, T) -> bool)
  {
    forall i, j :: 0 <= i < j < |s| ==> le(s[i], s[j])
  }

  /** Places x before the first element it does not follow. */
  function Insert<T(!new)>(x: T, s: seq<T>, le: (T, T) -> bool): (r: seq<T>)
    requires TotalPreorder(le)
    requires SortedBy(s, le)
    ensures SortedBy(r, le)
    ensures multiset(r) == multiset(s) + multiset{x}
    decreases |s|
  {
    if s == [] || le(x, s[0]) then
      [x] + s
    else
      var t := Insert(x, s[1..], le);
      assert s == [s[0]] + s[1..];
      assert forall z :: z in t ==> le(s[0], z) by {
        forall z | z in t ensures le(s[0], z) {
          assert z in multiset(t);
          if z != x {
            assert z in s[1..];
          }
        }
      }
      ConsSorted(s[0], t, le);
      [s[0]] + t
  }

  lemma ConsSorted<T>(y: T, t: seq<T>, le: (T, T) -> bool)
    requires SortedBy(t, le)
    requires forall z :: z in t ==> le(y, z)
    ensures SortedBy([y] + t, le)
  {
    var r := [y] + t;
    forall i, j | 0 <= i < j < |r| ensures le(r[i], r[j]) {
      assert r[j] == t[j - 1];
      if i > 0 {
        assert r[i] == t[i - 1];
      }
    }
  }

  /** Array.prototype.sort and MongoDB's `sort`, specified by their results: sorted, and a
      permutation of the input. */
  function SortBy<T(!new)>(s: seq<T>, le: (T, T) -> bool): (r: seq<T>)
    requires TotalPreorder(le)
    ensures SortedBy(r, le)
    ensures multiset(r) == multiset(s)
    ensures |r| == |s|
    decreases |s|
  {
    if s == [] then []
    else
      assert s == [s[0]] + s[1..];
      var r := Insert(s[0], SortBy(s[1..], le), le);
      assert |r| == |multiset(r)|;
      r
  }

  /** Compares two records by one of their fields. */
  function ByKey<T, K>(key: T -> K, le: (K, K) -> bool): (T, T) -> bool
  {
    (a: T, b: T) => le(key(a), key(b))
  }

  lemma ByKeyTotalPreorder<T(!new), K(!new)>(key: T -> K, le: (K, K) -> bool)
    requires TotalPreorder(le)
    ensures TotalPreorder(ByKey(key, le))
  {
    var o := ByKey(key, le);
    forall a, b, c | o(a, b) && o(b, c) ensures o(a, c) {
      assert le(key(a), key(b)) && le(key(b), key(c));
    }
    forall a, b ensures o(a, b) || o(b, a) {
      assert le(key(a), key(b)) || le(key(b), key(a));
    }
  }

  /** Binary string order, which is MongoDB's default collation: code point by code point,
      a proper prefix first. */
  predicate StrLe(a: string, b: string)
    decreases |a|
  {
    if a == [] then true
    else if b == [] then false
    else if a[0] != b[0] then a[0] < b[0]
    else StrLe(a[1..], b[1..])
  }

  lemma {:induction false} StrLeTotal(a: string, b: string)
    ensures StrLe(a, b) || StrLe(b, a)
    decreases |a|
  {
    if a != [] && b != [] && a[0] == b[0] {
      StrLeTotal(a[1..], b[1..]);
    }
  }

  lemma {:induction false} StrLeTransitive(a: string, b: string, c: string)
    requires StrLe(a, b) && StrLe(b, c)
    ensures StrLe(a, c)
    decreases |a|
  {
    if a != [] && b != [] && c != [] && a[0] == b[0] && b[0] == c[0] {
      StrLeTransitive(a[1..], b[1..], c[1..]);
    }
  }

  lemma StrLeTotalPreorder()
    ensures TotalPreorder(StrLe)
  {
    forall a, b ensures StrLe(a, b) || StrLe(b, a) {
      StrLeTotal(a, b);
    }
    forall a, b, c | StrLe(a, b) && StrLe(b, c) ensures StrLe(a, c) {
      StrLeTransitive(a, b, c);
    }
  }

  /** MongoDB's ascending order on a string field that may be missing: missing values first. */
  predicate OptStrLe(a: Option<string>, b: Option<string>)
  {
    match (a, b)
    case (None, _) => true
    case (Some(_), None) => false
    case (Some(x), Some(y)) => StrLe(x, y)
  }

  lemma OptStrLeTotalPreorder()
    ensures TotalPreorder(OptStrLe)
  {
    StrLeTotalPreorder();
    forall a, b ensures OptStrLe(a, b) || OptStrLe(b, a) {
      if a.Some? && b.Some? {
        assert StrLe(a.value, b.value) || StrLe(b.value, a.value);
      }
    }
    forall a, b, c | OptStrLe(a, b) && OptStrLe(b, c) ensures OptStrLe(a, c) {
      if a.Some? && b.Some? && c.Some? {
        assert StrLe(a.value, b.value) && StrLe(b.value, c.value);
      }
    }
  }
}
