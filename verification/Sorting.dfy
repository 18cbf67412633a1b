/**
 The sorting calls of the gateway (`sort.Slice`, `sort.Ints`) as their callers may
 rely on them: the result is some ordered permutation. Callers see only the
 contract, so nothing proved about them depends on how ties are broken.
 */
module Sorting {

  ghost predicate StrictWeakOrder<T(!new)>(less: (T, T) -> bool) {
    && (forall x :: !less(x, x))
    && (forall x, y, z :: less(x, y) && less(y, z) ==> less(x, z))
    && (forall x, y, z :: !less(x, y) && !less(y, z) ==> !less(x, z))
  }

  ghost predicate SortedBy<T>(s: seq<T>, less: (T, T) -> bool) {
    forall i, j :: 0 <= i < j < |s| ==> !less(s[j], s[i])
  }

  method SortSlice<T(!new)>(s: seq<T>, less: (T, T) -> bool) returns (r: seq<T>)
    requires StrictWeakOrder(less)
    ensures multiset(r) == multiset(s)
    ensures SortedBy(r, less)
  {
    r := [];
    for i := 0 to |s|
      invariant multiset(r) == multiset(s[..i])
      invariant SortedBy(r, less)
    {
      assert s[..i + 1] == s[..i] + [s[i]];
      r := Insert(r, s[i], less);
    }
    assert s[..|s|] == s;
  }

  lemma {:induction false} InsertContents<T(!new)>(s: seq<T>, k: nat, x: T)
    requires k <= |s|
    ensures multiset(s[..k] + [x] + s[k..]) == multiset(s) + multiset{x}
  {
    assert s == s[..k] + s[k..];
  }

  method Insert<T(!new)>(s: seq<T>, x: T, less: (T, T) -> bool) returns (r: seq<T>)
    requires StrictWeakOrder(less)
    requires SortedBy(s, less)
    ensures multiset(r) == multiset(s) + multiset{x}
    ensures SortedBy(r, less)
  {
    var k := |s|;
    while k > 0 && less(x, s[k - 1])
      invariant 0 <= k <= |s|
      invariant k < |s| ==> less(x, s[k])
    {
      k := k - 1;
    }
    hide StrictWeakOrder, SortedBy;
    InsertKeepsOrder(s, k, x, less);
    InsertContents(s, k, x);
    r := s[..k] + [x] + s[k..];
  }

  lemma {:induction false} InsertKeepsOrder<T(!new)>(s: seq<T>, k: nat, x: T, less: (T, T) -> bool)
    requires StrictWeakOrder(less)
    requires SortedBy(s, less)
    requires k <= |s|
    requires k > 0 ==> !less(x, s[k - 1])
    requires k < |s| ==> less(x, s[k])
    ensures SortedBy(s[..k] + [x] + s[k..], less)
  {
    var r := s[..k] + [x] + s[k..];
    forall i, j | 0 <= i < j < |r|
      ensures !less(r[j], r[i])
    {
      if j < k || k < i {
      } else if i < k && j == k {
        assert i < k - 1 ==> !less(s[k - 1], s[i]);
      } else if i == k {
        assert r[j] == s[j - 1];
        assert k < j - 1 ==> !less(s[j - 1], s[k]);
        assert !less(s[k], x);
      } else {
        assert !less(s[j - 1], s[i]);
      }
    }
  }

  lemma {:induction false} MultisetRemove<T>(s: seq<T>, k: nat)
    requires k < |s|
    ensures multiset(s[..k] + s[k + 1..]) == multiset(s) - multiset{s[k]}
  {
    assert s == s[..k] + ([s[k]] + s[k + 1..]);
  }
}
