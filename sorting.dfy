/**
 * Python's `sorted` in the two forms the source uses: `sorted(list(some_set))`, which turns a
 * set into its strictly increasing listing, and `sorted(items, key=...)`, a stable sort.
 */
module Sorting {
  import opened Strings

  predicate StrictlySorted(s: seq<string>, sf: bool) {
    forall i, j :: 0 <= i < j < |s| ==> Less(s[i], s[j], sf)
  }

  lemma LessAsymmetricAll(sf: bool)
    ensures forall a, b :: Less(a, b, sf) ==> !Less(b, a, sf)
  {
    forall a, b | Less(a, b, sf) ensures !Less(b, a, sf) {
      LessAsymmetric(a, b, sf);
    }
  }

  lemma {:induction false} LeastExists(s: set<string>, sf: bool)
    requires s != {}
    ensures exists m :: m in s && forall y :: y in s && y != m ==> Less(m, y, sf)
  {
    var x :| x in s;
    if s == {x} {
      assert forall y :: y in s && y != x ==> Less(x, y, sf);
    } else {
      LeastExists(s - {x}, sf);
      var m :| m in s - {x} && forall y :: y in s - {x} && y != m ==> Less(m, y, sf);
      LeastOfTwo(s, x, m, sf);
    }
  }

  /** The least element of `s - {x}`, or `x` if it is below that one, is the least of `s`. */
  lemma LeastOfTwo(s: set<string>, x: string, m: string, sf: bool)
    requires x in s && m in s - {x} && forall y :: y in s - {x} && y != m ==> Less(m, y, sf)
    ensures exists w :: w in s && forall y :: y in s && y != w ==> Less(w, y, sf)
  {
    if Less(x, m, sf) {
      forall y | y in s && y != x ensures Less(x, y, sf) {
        if y != m {
          LessTransitive(x, m, y, sf);
        }
      }
    } else {
      LessTotal(x, m, sf);
      forall y | y in s && y != m ensures Less(m, y, sf) {
        if y != x {
          assert y in s - {x};
        }
      }
    }
  }

  /** The smallest element of a non-empty set. */
  function Least(s: set<string>, sf: bool): (m: string)
    requires s != {}
    ensures m in s && forall y :: y in s && y != m ==> Less(m, y, sf)
  {
    LeastExists(s, sf);
    LessAsymmetricAll(sf);
    var m :| m in s && (forall y :: y in s && y != m ==> Less(m, y, sf));
    m
  }

  /** `sorted(list(s))`: the elements of `s`, each once, in increasing order. */
  function SortSet(s: set<string>, sf: bool): (r: seq<string>)
    ensures |r| == |s|
    ensures forall x :: x in r <==> x in s
    ensures StrictlySorted(r, sf)
    decreases |s|
  {
    if s == {} then []
    else
      var m := Least(s, sf);
      var rest := SortSet(s - {m}, sf);
      LeastFirst(m, rest, s, sf);
      [m] + rest
  }

  lemma LeastFirst(m: string, rest: seq<string>, s: set<string>, sf: bool)
    requires m in s && forall y :: y in s && y != m ==> Less(m, y, sf)
    requires StrictlySorted(rest, sf) && forall x :: x in rest <==> x in s - {m}
    ensures StrictlySorted([m] + rest, sf) && forall x :: x in [m] + rest <==> x in s
  {
    forall i, j | 0 <= i < j < |[m] + rest| ensures Less(([m] + rest)[i], ([m] + rest)[j], sf) {
      if i == 0 {
        assert rest[j - 1] in rest;
      }
    }
  }

  /** A strictly increasing listing of a set is unique, so it is the one `SortSet` gives. */
  lemma {:induction false} StrictlySortedUnique(a: seq<string>, b: seq<string>, sf: bool)
    requires StrictlySorted(a, sf) && StrictlySorted(b, sf)
    requires forall x :: x in a <==> x in b
    ensures a == b
    decreases |a|
  {
    if a != [] {
      assert a[0] in a;
    }
    if b != [] {
      assert b[0] in b;
    }
    if a != [] && b != [] {
      var j :| 0 <= j < |b| && b[j] == a[0];
      var k :| 0 <= k < |a| && a[k] == b[0];
      assert j != 0 ==> Less(b[0], a[0], sf);
      assert k != 0 ==> Less(a[0], b[0], sf);
      LessAsymmetricAll(sf);
      assert a[0] == b[0];
      forall x ensures x in a[1..] <==> x in b[1..] {
        if x in a[1..] {
          var i :| 0 <= i < |a[1..]| && a[1..][i] == x;
          assert Less(a[0], a[i + 1], sf);
          LessIrreflexive(a[0], sf);
          assert x in b;
          var m :| 0 <= m < |b| && b[m] == x;
          assert m != 0;
          assert b[1..][m - 1] == x;
        }
        if x in b[1..] {
          var i :| 0 <= i < |b[1..]| && b[1..][i] == x;
          assert Less(b[0], b[i + 1], sf);
          LessIrreflexive(b[0], sf);
          assert x in a;
          var m :| 0 <= m < |a| && a[m] == x;
          assert m != 0;
          assert a[1..][m - 1] == x;
        }
      }
      StrictlySortedUnique(a[1..], b[1..], sf);
    }
  }

  lemma SortSetOfSorted(a: seq<string>, sf: bool)
    requires StrictlySorted(a, sf)
    ensures SortSet((set x | x in a), sf) == a
  {
    StrictlySortedUnique(SortSet((set x | x in a), sf), a, sf);
  }

  /** No element's key is below the key of an element before it. */
  predicate SortedByKey(s: seq<string>, key: string -> string) {
    forall i, j :: 0 <= i < j < |s| ==> !Less(key(s[j]), key(s[i]), false)
  }

  lemma NotLessTransitive(a: string, b: string, c: string)
    requires !Less(b, a, false) && !Less(c, b, false)
    ensures !Less(c, a, false)
  {
    if Less(c, a, false) {
      if a == b {
      } else if b == c {
      } else {
        LessTotal(a, b, false);
        LessTotal(b, c, false);
        LessTransitive(c, a, b, false);
      }
    }
  }

  /** Inserts `x` before the first element whose key is not below its own, which keeps the sort stable. */
  function InsertByKey(x: string, s: seq<string>, key: string -> string): (r: seq<string>)
    ensures multiset(r) == multiset(s) + multiset{x}
  {
    if s == [] || !Less(key(s[0]), key(x), false) then
      [x] + s
    else
      assert s == [s[0]] + s[1..];
      [s[0]] + InsertByKey(x, s[1..], key)
  }

  lemma InsertByKeySorted(x: string, s: seq<string>, key: string -> string)
    requires SortedByKey(s, key)
    ensures SortedByKey(InsertByKey(x, s, key), key)
  {
    if s == [] || !Less(key(s[0]), key(x), false) {
      forall j | 0 <= j < |s| ensures !Less(key(s[j]), key(x), false) {
        if j > 0 {
          NotLessTransitive(key(x), key(s[0]), key(s[j]));
        }
      }
    } else {
      var rest := InsertByKey(x, s[1..], key);
      InsertByKeySorted(x, s[1..], key);
      assert s == [s[0]] + s[1..];
      forall j | 0 <= j < |rest| ensures !Less(key(rest[j]), key(s[0]), false) {
        assert rest[j] in multiset(rest);
        if rest[j] == x {
          LessAsymmetric(key(s[0]), key(x), false);
        } else {
          assert rest[j] in s[1..];
        }
      }
      assert InsertByKey(x, s, key) == [s[0]] + rest;
    }
  }

  /** `sorted(s, key=key)`: a stable sort, an ordering of the same elements by key. */
  function SortByKey(s: seq<string>, key: string -> string): (r: seq<string>)
    ensures multiset(r) == multiset(s)
  {
    if s == [] then []
    else
      assert s == [s[0]] + s[1..];
      InsertByKey(s[0], SortByKey(s[1..], key), key)
  }

  lemma {:induction false} SortByKeySorted(s: seq<string>, key: string -> string)
    ensures SortedByKey(SortByKey(s, key), key)
  {
    if s != [] {
      SortByKeySorted(s[1..], key);
      InsertByKeySorted(s[0], SortByKey(s[1..], key), key);
    }
  }

  /** `[x for x in s if f(x)]` */
  function Filter<T>(s: seq<T>, f: T -> bool): (r: seq<T>)
    ensures |r| <= |s|
    ensures forall k :: 0 <= k < |r| ==> r[k] in s && f(r[k])
    ensures forall k :: 0 <= k < |s| && f(s[k]) ==> s[k] in r
    decreases |s|
  {
    if s == [] then []
    else if f(s[0]) then [s[0]] + Filter(s[1..], f)
    else Filter(s[1..], f)
  }

  /** Keeping some elements of a strictly increasing list keeps it strictly increasing. */
  lemma {:induction false} FilterSorted(s: seq<string>, f: string -> bool, sf: bool)
    requires StrictlySorted(s, sf)
    ensures StrictlySorted(Filter(s, f), sf)
    decreases |s|
  {
    if s != [] {
      assert StrictlySorted(s[1..], sf);
      FilterSorted(s[1..], f, sf);
      if f(s[0]) {
        var r := Filter(s[1..], f);
        forall j | 0 < j < |[s[0]] + r| ensures Less(s[0], ([s[0]] + r)[j], sf) {
          assert r[j - 1] in s[1..];
        }
      }
    }
  }

  lemma {:induction false} FilterAppend<T>(s: seq<T>, x: T, f: T -> bool)
    ensures Filter(s + [x], f) == Filter(s, f) + (if f(x) then [x] else [])
    decreases |s|
  {
    if s == [] {
      assert [x][1..] == [];
    } else {
      assert (s + [x])[1..] == s[1..] + [x];
      FilterAppend(s[1..], x, f);
    }
  }

  lemma {:induction false} FilterConcat<T>(a: seq<T>, b: seq<T>, f: T -> bool)
    ensures Filter(a + b, f) == Filter(a, f) + Filter(b, f)
    decreases |a|
  {
    if a != [] {
      assert (a + b)[1..] == a[1..] + b;
      FilterConcat(a[1..], b, f);
    } else {
      assert a + b == b;
    }
  }
}
