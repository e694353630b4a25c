/** Python's `sorted` on strings and on rows with a key of strings. */
module Sorting {
  /** Lexicographic order by code point. */
  predicate AtMost(a: string, b: string)
  {
    a == "" || (b != "" && (a[0] < b[0] || (a[0] == b[0] && AtMost(a[1..], b[1..]))))
  }

  lemma {:induction false} AtMostTotal(a: string, b: string)
    ensures AtMost(a, b) || AtMost(b, a)
    ensures AtMost(a, b) && AtMost(b, a) ==> a == b
  {
    if a != "" && b != "" && a[0] == b[0] {
      AtMostTotal(a[1..], b[1..]);
      assert a == [a[0]] + a[1..] && b == [b[0]] + b[1..];
    }
  }

  lemma {:induction false} AtMostTransitive(a: string, b: string, c: string)
    requires AtMost(a, b) && AtMost(b, c)
    ensures AtMost(a, c)
  {
    if a != "" && a[0] == b[0] && b[0] == c[0] {
      AtMostTransitive(a[1..], b[1..], c[1..]);
    }
  }

  predicate IsSorted(s: seq<string>) {
    forall i, j :: 0 <= i < j < |s| ==> AtMost(s[i], s[j])
  }

  function Insert(x: string, s: seq<string>): (r: seq<string>)
    ensures multiset(r) == multiset(s) + multiset{x}
  {
    if s == [] then [x]
    else if AtMost(x, s[0]) then [x] + s
    else
      assert s == [s[0]] + s[1..];
      [s[0]] + Insert(x, s[1..])
  }

  function Sort(s: seq<string>): (r: seq<string>)
    ensures multiset(r) == multiset(s)
  {
    if s == [] then [] else
      assert s == [s[0]] + s[1..];
      Insert(s[0], Sort(s[1..]))
  }

  lemma {:induction false} InsertSorted(x: string, s: seq<string>)
    requires IsSorted(s)
    ensures IsSorted(Insert(x, s))
  {
    if s == [] {
    } else if AtMost(x, s[0]) {
      forall j | 0 <= j < |s| ensures AtMost(x, s[j]) {
        if j > 0 { AtMostTransitive(x, s[0], s[j]); }
      }
    } else {
      AtMostTotal(x, s[0]);
      InsertSorted(x, s[1..]);
      var r := Insert(x, s[1..]);
      forall j | 0 <= j < |r| ensures AtMost(s[0], r[j]) {
        assert r[j] in multiset(r);
        if r[j] != x {
          assert r[j] in multiset(s[1..]);
          var k :| 0 <= k < |s[1..]| && s[1..][k] == r[j];
        }
      }
    }
  }

  lemma {:induction false} SortSorted(s: seq<string>)
    ensures IsSorted(Sort(s))
  {
    if s != [] {
      SortSorted(s[1..]);
      InsertSorted(s[0], Sort(s[1..]));
    }
  }

  /** The first of a sorted list is least among its elements. */
  lemma {:induction false} HeadIsLeast(a: seq<string>, x: string)
    requires IsSorted(a) && x in multiset(a)
    ensures AtMost(a[0], x)
  {
    var j :| 0 <= j < |a| && a[j] == x;
    AtMostTotal(a[0], a[0]);
  }

  lemma {:induction false} TailElements(a: seq<string>)
    requires a != []
    ensures multiset(a[1..]) == multiset(a) - multiset{a[0]}
  {
    assert a == [a[0]] + a[1..];
  }

  /** A sorted arrangement of a multiset of strings is unique. */
  lemma {:induction false} SortedUnique(a: seq<string>, b: seq<string>)
    requires IsSorted(a) && IsSorted(b) && multiset(a) == multiset(b)
    ensures a == b
  {
    assert |multiset(a)| == |a| && |multiset(b)| == |b|;
    if a != [] {
      assert a[0] in multiset(a) && b[0] in multiset(b);
      HeadIsLeast(a, b[0]);
      HeadIsLeast(b, a[0]);
      AtMostTotal(a[0], b[0]);
      TailElements(a);
      TailElements(b);
      SortedUnique(a[1..], b[1..]);
      assert a == [a[0]] + a[1..] && b == [b[0]] + b[1..];
    }
  }

  /** Sorting depends only on the elements, not on their order. */
  lemma {:induction false} SortOfPermutation(a: seq<string>, b: seq<string>)
    requires multiset(a) == multiset(b)
    ensures Sort(a) == Sort(b)
  {
    SortSorted(a);
    SortSorted(b);
    SortedUnique(Sort(a), Sort(b));
  }

  lemma {:induction false} SortIdempotent(a: seq<string>)
    ensures Sort(Sort(a)) == Sort(a)
  {
    SortOfPermutation(Sort(a), a);
  }

  // ---------------------------------------------------------------- rows with a key

  /** Tuple comparison of keys of equal length. */
  predicate KeyAtMost(a: seq<string>, b: seq<string>) {
    a == [] || (b != [] && (if a[0] == b[0] then KeyAtMost(a[1..], b[1..]) else AtMost(a[0], b[0])))
  }

  function InsertRow<T>(x: T, s: seq<T>, key: T -> seq<string>): (r: seq<T>)
    ensures multiset(r) == multiset(s) + multiset{x}
  {
    if s == [] then [x]
    else if KeyAtMost(key(x), key(s[0])) then [x] + s
    else
      assert s == [s[0]] + s[1..];
      [s[0]] + InsertRow(x, s[1..], key)
  }

  /** Stable: rows with equal keys keep their order. */
  function SortRows<T>(s: seq<T>, key: T -> seq<string>): (r: seq<T>)
    ensures multiset(r) == multiset(s)
  {
    if s == [] then [] else
      assert s == [s[0]] + s[1..];
      InsertRow(s[0], SortRows(s[1..], key), key)
  }

  lemma {:induction false} KeyReflexive(a: seq<string>)
    ensures KeyAtMost(a, a)
  {
    if a != [] { KeyReflexive(a[1..]); }
  }

  lemma {:induction false} KeyTotal(a: seq<string>, b: seq<string>)
    ensures KeyAtMost(a, b) || KeyAtMost(b, a)
  {
    if a != [] && b != [] {
      if a[0] == b[0] { KeyTotal(a[1..], b[1..]); } else { AtMostTotal(a[0], b[0]); }
    }
  }

  lemma {:induction false} KeyTransitive(a: seq<string>, b: seq<string>, c: seq<string>)
    requires KeyAtMost(a, b) && KeyAtMost(b, c)
    ensures KeyAtMost(a, c)
  {
    if a != [] {
      if a[0] == b[0] && b[0] == c[0] {
        KeyTransitive(a[1..], b[1..], c[1..]);
      } else if a[0] != b[0] && b[0] != c[0] {
        AtMostTransitive(a[0], b[0], c[0]);
        AtMostTotal(a[0], b[0]);
      }
    }
  }

  ghost predicate RowsSorted<T>(s: seq<T>, key: T -> seq<string>) {
    forall i, j :: 0 <= i < j < |s| ==> KeyAtMost(key(s[i]), key(s[j]))
  }

  /** The rows with one key, in their order. */
  function WithKey<T>(s: seq<T>, key: T -> seq<string>, k: seq<string>): seq<T> {
    if s == [] then [] else (if key(s[0]) == k then [s[0]] else []) + WithKey(s[1..], key, k)
  }

  lemma {:induction false} InsertRowSorted<T>(x: T, s: seq<T>, key: T -> seq<string>)
    requires RowsSorted(s, key)
    ensures RowsSorted(InsertRow(x, s, key), key)
  {
    if s == [] {
    } else if KeyAtMost(key(x), key(s[0])) {
      forall j | 0 <= j < |s| ensures KeyAtMost(key(x), key(s[j])) {
        if j > 0 { KeyTransitive(key(x), key(s[0]), key(s[j])); }
      }
    } else {
      KeyTotal(key(x), key(s[0]));
      InsertRowSorted(x, s[1..], key);
      var r := InsertRow(x, s[1..], key);
      forall j | 0 <= j < |r| ensures KeyAtMost(key(s[0]), key(r[j])) {
        assert r[j] in multiset(r);
        if r[j] != x {
          assert r[j] in multiset(s[1..]);
          var k :| 0 <= k < |s[1..]| && s[1..][k] == r[j];
        }
      }
    }
  }

  lemma {:induction false} WithKeyCons<T>(x: T, s: seq<T>, key: T -> seq<string>, k: seq<string>)
    ensures WithKey([x] + s, key, k) == if key(x) == k then [x] + WithKey(s, key, k) else WithKey(s, key, k)
  {
    assert ([x] + s)[1..] == s;
  }

  lemma {:induction false} SkipStable<T>(x: T, y: T, rest: seq<T>, more: seq<T>, key: T -> seq<string>, k: seq<string>)
    requires key(x) != key(y) && WithKey(more, key, k) == WithKey([x] + rest, key, k)
    ensures WithKey([y] + more, key, k) == WithKey([x] + ([y] + rest), key, k)
  {
    WithKeyCons(y, more, key, k);
    WithKeyCons(x, rest, key, k);
    WithKeyCons(x, [y] + rest, key, k);
    WithKeyCons(y, rest, key, k);
  }

  lemma {:induction false} InsertRowStable<T>(x: T, s: seq<T>, key: T -> seq<string>, k: seq<string>)
    ensures WithKey(InsertRow(x, s, key), key, k) == WithKey([x] + s, key, k)
  {
    if s != [] && !KeyAtMost(key(x), key(s[0])) {
      KeyReflexive(key(x));
      var rest := s[1..];
      InsertRowStable(x, rest, key, k);
      assert s == [s[0]] + rest;
      SkipStable(x, s[0], rest, InsertRow(x, rest, key), key, k);
    }
  }

  /** Sorting by key gives the rows in the order of their keys and keeps the order of rows with equal keys. */
  lemma {:induction false} SortRowsStable<T>(s: seq<T>, key: T -> seq<string>, k: seq<string>)
    ensures RowsSorted(SortRows(s, key), key)
    ensures WithKey(SortRows(s, key), key, k) == WithKey(s, key, k)
  {
    if s != [] {
      SortRowsStable(s[1..], key, k);
      var rest := SortRows(s[1..], key);
      InsertRowSorted(s[0], rest, key);
      InsertRowStable(s[0], rest, key, k);
      WithKeyCons(s[0], rest, key, k);
      WithKeyCons(s[0], s[1..], key, k);
      assert s == [s[0]] + s[1..];
    }
  }
}
