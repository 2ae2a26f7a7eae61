/**
 * LINQ's `OrderBy` and `OrderByDescending`: a stable sort of a sequence by a
 * key, ascending or descending. Elements whose keys are equal keep their
 * input order.
 *
 * Keys are numbers (ratings, dates) or strings; strings compare ordinally,
 * character code by character code.
 */
module Sorting {
  import opened Common

  datatype Key = Num(n: real) | Text(t: string)

  /** Ordinal string order: the first differing character decides, and a proper prefix comes first. */
  predicate StrLt(a: string, b: string)
  {
    b != [] && (a == [] || a[0] < b[0] || (a[0] == b[0] && StrLt(a[1..], b[1..])))
  }

  lemma StrLtIrreflexive(a: string)
    ensures !StrLt(a, a)
  {
  }

  lemma {:induction false} StrLtTransitive(a: string, b: string, c: string)
    requires StrLt(a, b) && StrLt(b, c)
    ensures StrLt(a, c)
  {
    if a != [] && a[0] == b[0] && b[0] == c[0] {
      StrLtTransitive(a[1..], b[1..], c[1..]);
    }
  }

  lemma {:induction false} StrLtTotal(a: string, b: string)
    requires a != b
    ensures StrLt(a, b) || StrLt(b, a)
  {
    if a != [] && b != [] && a[0] == b[0] {
      assert a[1..] != b[1..] by {
        assert a == [a[0]] + a[1..] && b == [b[0]] + b[1..];
      }
      StrLtTotal(a[1..], b[1..]);
    }
  }

  /** Numbers before strings; numbers by value, strings ordinally. */
  predicate KeyLt(a: Key, b: Key)
  {
    match (a, b)
    case (Num(x), Num(y)) => x < y
    case (Num(_), Text(_)) => true
    case (Text(_), Num(_)) => false
    case (Text(x), Text(y)) => StrLt(x, y)
  }

  lemma KeyLtIrreflexive(a: Key)
    ensures !KeyLt(a, a)
  {
    if a.Text? {
      StrLtIrreflexive(a.t);
    }
  }

  lemma KeyLtTransitive(a: Key, b: Key, c: Key)
    requires KeyLt(a, b) && KeyLt(b, c)
    ensures KeyLt(a, c)
  {
    if a.Text? && b.Text? && c.Text? {
      StrLtTransitive(a.t, b.t, c.t);
    }
  }

  lemma KeyLtTotal(a: Key, b: Key)
    requires a != b
    ensures KeyLt(a, b) || KeyLt(b, a)
  {
    if a.Text? && b.Text? {
      StrLtTotal(a.t, b.t);
    }
  }

  /** In the requested direction, key `a` goes strictly before key `b`. */
  predicate Before(a: Key, b: Key, desc: bool)
  {
    if desc then KeyLt(b, a) else KeyLt(a, b)
  }

  lemma BeforeTransitive(a: Key, b: Key, c: Key, desc: bool)
    requires Before(a, b, desc) && Before(b, c, desc)
    ensures Before(a, c, desc)
  {
    if desc {
      KeyLtTransitive(c, b, a);
    } else {
      KeyLtTransitive(a, b, c);
    }
  }

  lemma BeforeIrreflexive(a: Key, desc: bool)
    ensures !Before(a, a, desc)
  {
    KeyLtIrreflexive(a);
  }

  /** No element goes strictly before an element that precedes it. */
  predicate Ordered<T>(s: seq<T>, key: T -> Key, desc: bool)
  {
    forall i, j :: 0 <= i < j < |s| ==> !Before(key(s[j]), key(s[i]), desc)
  }

  /** The elements of `s` whose key is `k`, in order. */
  function Matching<T>(s: seq<T>, key: T -> Key, k: Key): (r: seq<T>)
    ensures forall i :: 0 <= i < |r| ==> key(r[i]) == k
  {
    if s == [] then [] else (if key(s[0]) == k then [s[0]] else []) + Matching(s[1..], key, k)
  }

  lemma {:induction false} MatchingAppend<T>(a: seq<T>, b: seq<T>, key: T -> Key, k: Key)
    ensures Matching(a + b, key, k) == Matching(a, key, k) + Matching(b, key, k)
  {
    if a == [] {
      assert a + b == b;
    } else {
      assert (a + b)[1..] == a[1..] + b;
      MatchingAppend(a[1..], b, key, k);
    }
  }

  /** `x` placed into `t` just before the first element it goes strictly before. */
  function Insert<T>(x: T, t: seq<T>, key: T -> Key, desc: bool): (r: seq<T>)
    ensures |r| == |t| + 1
    ensures multiset(r) == multiset(t) + multiset{x}
  {
    if t == [] then [x]
    else if Before(key(x), key(t[0]), desc) then [x] + t
    else
      assert t == [t[0]] + t[1..];
      [t[0]] + Insert(x, t[1..], key, desc)
  }

  lemma ConcatAssoc<T>(a: seq<T>, b: seq<T>, c: seq<T>)
    ensures a + (b + c) == (a + b) + c
  {
  }

  /** Stable sort: insertion of each element, in input order, after all elements with an equal key. */
  function SortBy<T>(s: seq<T>, key: T -> Key, desc: bool): (r: seq<T>)
    ensures |r| == |s|
    ensures multiset(r) == multiset(s)
  {
    if s == [] then []
    else
      assert s == s[..|s| - 1] + [s[|s| - 1]];
      Insert(s[|s| - 1], SortBy(s[..|s| - 1], key, desc), key, desc)
  }

  lemma {:induction false} InsertOrdered<T>(x: T, t: seq<T>, key: T -> Key, desc: bool)
    requires Ordered(t, key, desc)
    ensures Ordered(Insert(x, t, key, desc), key, desc)
  {
    if t == [] {
    } else if Before(key(x), key(t[0]), desc) {
      var r := [x] + t;
      forall i, j | 0 <= i < j < |r| ensures !Before(key(r[j]), key(r[i]), desc) {
        if i == 0 && Before(key(r[j]), key(x), desc) {
          BeforeTransitive(key(r[j]), key(x), key(t[0]), desc);
          if j == 1 {
            BeforeIrreflexive(key(t[0]), desc);
          }
        }
      }
    } else {
      var rest := Insert(x, t[1..], key, desc);
      InsertOrdered(x, t[1..], key, desc);
      var r := [t[0]] + rest;
      forall j | 0 <= j < |rest| ensures !Before(key(rest[j]), key(t[0]), desc) {
        assert rest[j] in multiset(rest);
        if rest[j] != x {
          assert rest[j] in multiset(t[1..]);
          var m :| 0 <= m < |t[1..]| && t[1..][m] == rest[j];
          assert t[m + 1] == rest[j];
        }
      }
      forall i, j | 0 <= i < j < |r| ensures !Before(key(r[j]), key(r[i]), desc) {
        if i > 0 {
          assert r[i] == rest[i - 1] && r[j] == rest[j - 1];
        } else {
          assert r[j] == rest[j - 1];
        }
      }
    }
  }

  /** The sorted sequence is in key order. */
  lemma {:induction false} SortOrdered<T>(s: seq<T>, key: T -> Key, desc: bool)
    ensures Ordered(SortBy(s, key, desc), key, desc)
  {
    if s != [] {
      SortOrdered(s[..|s| - 1], key, desc);
      InsertOrdered(s[|s| - 1], SortBy(s[..|s| - 1], key, desc), key, desc);
    }
  }

  /** Inserting `x` adds it after every element that already has its key. */
  lemma {:induction false} InsertMatching<T>(x: T, t: seq<T>, key: T -> Key, desc: bool, k: Key)
    requires Ordered(t, key, desc)
    ensures Matching(Insert(x, t, key, desc), key, k)
      == Matching(t, key, k) + (if key(x) == k then [x] else [])
  {
    if t == [] {
      assert Insert(x, t, key, desc) == [x];
      assert [x][1..] == [];
    } else if Before(key(x), key(t[0]), desc) {
      InsertMatchingFront(x, t, key, desc, k);
    } else {
      var rest := Insert(x, t[1..], key, desc);
      var xs: seq<T> := if key(x) == k then [x] else [];
      var ts: seq<T> := if key(t[0]) == k then [t[0]] else [];
      InsertMatching(x, t[1..], key, desc, k);
      assert Insert(x, t, key, desc) == [t[0]] + rest;
      assert ([t[0]] + rest)[1..] == rest;
      assert Matching([t[0]] + rest, key, k) == ts + Matching(rest, key, k);
      assert Matching(t, key, k) == ts + Matching(t[1..], key, k);
      ConcatAssoc(ts, Matching(t[1..], key, k), xs);
    }
  }

  /** `x` going before the first element of an ordered `t` shares its key with no element of `t`. */
  lemma InsertMatchingFront<T>(x: T, t: seq<T>, key: T -> Key, desc: bool, k: Key)
    requires Ordered(t, key, desc) && t != [] && Before(key(x), key(t[0]), desc)
    ensures Matching(Insert(x, t, key, desc), key, k)
      == Matching(t, key, k) + (if key(x) == k then [x] else [])
  {
    var xs: seq<T> := if key(x) == k then [x] else [];
    assert Insert(x, t, key, desc) == [x] + t;
    assert ([x] + t)[1..] == t;
    assert Matching([x] + t, key, k) == xs + Matching(t, key, k);
    if key(x) == k {
      forall j | 0 <= j < |t| ensures key(t[j]) != k {
        if j == 0 {
          BeforeIrreflexive(key(t[0]), desc);
        }
      }
      NoneMatching(t, key, k);
    }
  }

  lemma {:induction false} NoneMatching<T>(t: seq<T>, key: T -> Key, k: Key)
    requires forall j :: 0 <= j < |t| ==> key(t[j]) != k
    ensures Matching(t, key, k) == []
  {
    if t != [] {
      NoneMatching(t[1..], key, k);
    }
  }

  /**
   * Stability: the elements sharing any one key appear in the sorted
   * sequence in the order they had in the input.
   */
  lemma {:induction false} SortStable<T>(s: seq<T>, key: T -> Key, desc: bool, k: Key)
    ensures Matching(SortBy(s, key, desc), key, k) == Matching(s, key, k)
  {
    if s != [] {
      var init, x := s[..|s| - 1], s[|s| - 1];
      var xs: seq<T> := if key(x) == k then [x] else [];
      assert s == init + [x];
      SortStable(init, key, desc, k);
      SortOrdered(init, key, desc);
      assert SortBy(s, key, desc) == Insert(x, SortBy(init, key, desc), key, desc);
      InsertMatching(x, SortBy(init, key, desc), key, desc, k);
      MatchingAppend(init, [x], key, k);
      assert [x][1..] == [];
      assert Matching([x], key, k) == xs + Matching([x][1..], key, k);
      assert Matching([x], key, k) == xs;
    }
  }
}
