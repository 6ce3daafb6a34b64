/**
 * Orderings for `ORDER BY ... DESC`: a descending sort of a set of rows by
 * a total preorder, SQLite's comparison of nullable integers (NULL is
 * smaller than every number) and of TEXT under the BINARY collation
 * (character by character, a proper prefix first).  Rows that compare equal
 * may come out in any order; nothing here fixes which.
 */
module Ordering {
  import opened Wrappers

  /** `ge` compares any two values and is transitive. */
  ghost predicate TotalPreorder<T(!new)>(ge: (T, T) -> bool) {
    && (forall a, b :: ge(a, b) || ge(b, a))
    && (forall a, b, c :: ge(a, b) && ge(b, c) ==> ge(a, c))
  }

  /** Non-increasing under `ge`. */
  ghost predicate SortedDesc<T(!new)>(s: seq<T>, ge: (T, T) -> bool) {
    forall i, j :: 0 <= i < j < |s| ==> ge(s[i], s[j])
  }

  lemma Total<T(!new)>(ge: (T, T) -> bool, a: T, b: T)
    requires TotalPreorder(ge)
    ensures ge(a, b) || ge(b, a)
  {
  }

  lemma Transitive<T(!new)>(ge: (T, T) -> bool, a: T, b: T, c: T)
    requires TotalPreorder(ge) && ge(a, b) && ge(b, c)
    ensures ge(a, c)
  {
  }

  /** A greatest element of a non-empty set under a total preorder. */
  lemma {:induction false} MaxOf<T(!new)>(s: set<T>, ge: (T, T) -> bool) returns (m: T)
    requires s != {} && TotalPreorder(ge)
    ensures m in s && forall y :: y in s ==> ge(m, y)
    decreases s
  {
    var x :| x in s;
    Total(ge, x, x);
    if s == {x} {
      m := x;
      assert forall y :: y in s ==> y == x;
    } else {
      var rest := s - {x};
      var mr := MaxOf(rest, ge);
      Total(ge, x, mr);
      if ge(x, mr) {
        m := x;
        forall y | y in s ensures ge(x, y) {
          if y != x {
            assert y in rest;
            Transitive(ge, x, mr, y);
          }
        }
      } else {
        m := mr;
        forall y | y in s ensures ge(mr, y) {
          if y != x {
            assert y in rest;
          }
        }
      }
    }
  }

  lemma MaxExists<T(!new)>(s: set<T>, ge: (T, T) -> bool)
    requires s != {} && TotalPreorder(ge)
    ensures exists m :: m in s && forall y :: y in s ==> ge(m, y)
  {
    var m := MaxOf(s, ge);
  }

  /** The rows of `s`, each once, in non-increasing order; ties in an unspecified order. */
  ghost function SortDesc<T(!new)>(s: set<T>, ge: (T, T) -> bool): (r: seq<T>)
    requires TotalPreorder(ge)
    ensures |r| == |s|
    ensures forall x :: x in r <==> x in s
    ensures forall i :: 0 <= i < |r| ==> r[i] in s
    ensures forall i, j :: 0 <= i < j < |r| ==> r[i] != r[j]
    ensures SortedDesc(r, ge)
    decreases s
  {
    if s == {} then []
    else
      MaxExists(s, ge);
      var m :| m in s && forall y :: y in s ==> ge(m, y);
      var rest := SortDesc(s - {m}, ge);
      ConsSortedDesc(m, rest, ge);
      [m] + rest
  }

  /** A head no smaller than anything after it, not among them, keeps a sorted, duplicate-free sequence so. */
  lemma ConsSortedDesc<T(!new)>(m: T, rest: seq<T>, ge: (T, T) -> bool)
    requires SortedDesc(rest, ge) && forall i, j :: 0 <= i < j < |rest| ==> rest[i] != rest[j]
    requires m !in rest && forall i :: 0 <= i < |rest| ==> ge(m, rest[i])
    ensures SortedDesc([m] + rest, ge)
    ensures forall i, j :: 0 <= i < j < |[m] + rest| ==> ([m] + rest)[i] != ([m] + rest)[j]
  {
    var r := [m] + rest;
    forall i, j | 0 <= i < j < |r| ensures ge(r[i], r[j]) && r[i] != r[j] {
      assert r[j] == rest[j - 1];
      if i > 0 {
        assert r[i] == rest[i - 1];
      }
    }
  }

  /** SQLite's `a >= b` on a nullable INTEGER column: NULL is the smallest value. */
  predicate NullableGe(a: Option<int>, b: Option<int>) {
    b.None? || (a.Some? && a.value >= b.value)
  }

  lemma NullableGeIsTotalPreorder()
    ensures forall a, b :: NullableGe(a, b) || NullableGe(b, a)
    ensures forall a, b, c :: NullableGe(a, b) && NullableGe(b, c) ==> NullableGe(a, c)
  {
  }

  /** TEXT under the BINARY collation: `a <= b` character by character, a proper prefix first. */
  predicate TextLe(a: string, b: string)
    decreases |a|
  {
    a == [] || (b != [] && (a[0] < b[0] || (a[0] == b[0] && TextLe(a[1..], b[1..]))))
  }

  lemma {:induction false} TextLeTotal(a: string, b: string)
    ensures TextLe(a, b) || TextLe(b, a)
    decreases |a|
  {
    if a != [] && b != [] && a[0] == b[0] {
      TextLeTotal(a[1..], b[1..]);
    }
  }

  lemma {:induction false} TextLeTransitive(a: string, b: string, c: string)
    requires TextLe(a, b) && TextLe(b, c)
    ensures TextLe(a, c)
    decreases |a|
  {
    if a != [] && b != [] && c != [] && a[0] == b[0] && b[0] == c[0] {
      TextLeTransitive(a[1..], b[1..], c[1..]);
    }
  }
}
