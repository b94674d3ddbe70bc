// Stable sorting by a key comparison, used wherever the source calls
// `sort_by_key` / `sort_by` (registry snapshots, device choices,
// application rows, ordered port pairing).
module Sorting {

  /** `le` is a total preorder: what a key comparison provides. */
  ghost predicate TotalPreorder<T(!new)>(le: (T, T) -> bool)
  {
    (forall a, b :: le(a, b) || le(b, a))
    && (forall a, b, c :: le(a, b) && le(b, c) ==> le(a, c))
  }

  ghost predicate SortedBy<T>(s: seq<T>, le: (T, T) -> bool)
  {
    forall i, j :: 0 <= i < j < |s| ==> le(s[i], s[j])
  }

  /** Insert `x` in front of the first element it is not after; equal keys keep `x` first. */
  function Insert<T>(x: T, t: seq<T>, le: (T, T) -> bool): (r: seq<T>)
    ensures multiset(r) == multiset(t) + multiset{x}
    ensures |r| == |t| + 1
  {
    if t == [] || le(x, t[0]) then [x] + t
    else
      assert t == [t[0]] + t[1..];
      [t[0]] + Insert(x, t[1..], le)
  }

  /** Insertion sort; an element that comes first in `s` stays before later ones with an equal key. */
  function SortBy<T>(s: seq<T>, le: (T, T) -> bool): (r: seq<T>)
    ensures multiset(r) == multiset(s)
    ensures |r| == |s|
  {
    if s == [] then []
    else
      assert s == [s[0]] + s[1..];
      Insert(s[0], SortBy(s[1..], le), le)
  }

  lemma {:induction false} InsertSorted<T(!new)>(x: T, t: seq<T>, le: (T, T) -> bool)
    requires TotalPreorder(le)
    requires SortedBy(t, le)
    ensures SortedBy(Insert(x, t, le), le)
  {
    if t == [] || le(x, t[0]) {
      var r := [x] + t;
      forall i, j | 0 <= i < j < |r| ensures le(r[i], r[j]) {
        if i > 0 {
          assert r[i] == t[i - 1] && r[j] == t[j - 1];
        } else {
          assert r[j] == t[j - 1];
          if j > 1 { assert le(t[0], t[j - 1]); }
        }
      }
    } else {
      var rest := Insert(x, t[1..], le);
      assert SortedBy(t[1..], le) by {
        forall i, j | 0 <= i < j < |t[1..]| ensures le(t[1..][i], t[1..][j]) {
          assert t[1..][i] == t[i + 1] && t[1..][j] == t[j + 1];
        }
      }
      InsertSorted(x, t[1..], le);
      var r := [t[0]] + rest;
      assert le(t[0], x);
      forall k | 0 <= k < |rest| ensures le(t[0], rest[k]) {
        assert rest[k] in multiset(rest);
        assert rest[k] in multiset(t[1..]) + multiset{x};
        if rest[k] != x {
          assert rest[k] in t[1..];
          var m :| 0 <= m < |t[1..]| && t[1..][m] == rest[k];
          assert t[1..][m] == t[m + 1];
        }
      }
      forall i, j | 0 <= i < j < |r| ensures le(r[i], r[j]) {
        if i > 0 {
          assert r[i] == rest[i - 1] && r[j] == rest[j - 1];
        } else {
          assert r[j] == rest[j - 1];
        }
      }
    }
  }

  /** Sorting by a total preorder yields a sorted permutation of the input. */
  lemma {:induction false} SortBySorted<T(!new)>(s: seq<T>, le: (T, T) -> bool)
    requires TotalPreorder(le)
    ensures SortedBy(SortBy(s, le), le)
    ensures multiset(SortBy(s, le)) == multiset(s)
  {
    if s != [] {
      SortBySorted(s[1..], le);
      InsertSorted(s[0], SortBy(s[1..], le), le);
    }
  }

  /** The elements of `s` whose key equals `a`'s, in their order in `s`. */
  function KeyClass<T>(s: seq<T>, a: T, le: (T, T) -> bool): (r: seq<T>)
    ensures |r| <= |s|
    ensures forall k | 0 <= k < |r| :: le(r[k], a) && le(a, r[k])
  {
    if s == [] then []
    else (if le(s[0], a) && le(a, s[0]) then [s[0]] else []) + KeyClass(s[1..], a, le)
  }

  /** Inserting `x` puts it in front of every element with its key. */
  lemma {:induction false} InsertKeyClass<T(!new)>(x: T, t: seq<T>, le: (T, T) -> bool, a: T)
    requires TotalPreorder(le)
    ensures KeyClass(Insert(x, t, le), a, le) == (if le(x, a) && le(a, x) then [x] else []) + KeyClass(t, a, le)
  {
    if t == [] || le(x, t[0]) {
      assert ([x] + t)[1..] == t;
    } else {
      InsertKeyClass(x, t[1..], le, a);
      var r := [t[0]] + Insert(x, t[1..], le);
      assert r[1..] == Insert(x, t[1..], le);
      assert !(le(x, a) && le(a, t[0]));
    }
  }

  /** SortBy is stable: the elements of any one key keep their input order. */
  lemma {:induction false} SortByStable<T(!new)>(s: seq<T>, le: (T, T) -> bool, a: T)
    requires TotalPreorder(le)
    ensures KeyClass(SortBy(s, le), a, le) == KeyClass(s, a, le)
  {
    if s != [] {
      SortByStable(s[1..], le, a);
      InsertKeyClass(s[0], SortBy(s[1..], le), le, a);
    }
  }

  /** Lexicographic order on strings, as Rust's `Ord for str` (by code point). */
  predicate LexLe(a: string, b: string)
  {
    if a == [] then true
    else if b == [] then false
    else if a[0] < b[0] then true
    else if a[0] > b[0] then false
    else LexLe(a[1..], b[1..])
  }

  lemma {:induction false} LexLeTotal(a: string, b: string)
    ensures LexLe(a, b) || LexLe(b, a)
    decreases |a|
  {
    if a != [] && b != [] && a[0] == b[0] { LexLeTotal(a[1..], b[1..]); }
  }

  lemma {:induction false} LexLeTrans(a: string, b: string, c: string)
    requires LexLe(a, b) && LexLe(b, c)
    ensures LexLe(a, c)
    decreases |a|
  {
    if a != [] && b != [] && c != [] && a[0] == b[0] && b[0] == c[0] {
      LexLeTrans(a[1..], b[1..], c[1..]);
    }
  }

  lemma {:induction false} LexLeAntisym(a: string, b: string)
    requires LexLe(a, b) && LexLe(b, a)
    ensures a == b
    decreases |a|
  {
    if a != [] && b != [] {
      LexLeAntisym(a[1..], b[1..]);
      assert a == [a[0]] + a[1..] && b == [b[0]] + b[1..];
    }
  }
}
