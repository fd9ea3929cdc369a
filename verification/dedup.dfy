/** The two ways the copies drop repeated track ids: `list(dict.fromkeys(ids))`
    (app.py, run.py), which keeps the first occurrence of each id in order,
    and `list(set(uris))` (main.py), which promises no order at all. */
module Dedup {
  import opened Seqs

  /** Position of the first occurrence of `x` in `s`. */
  function FirstIndex<T(==)>(s: seq<T>, x: T): (k: nat)
    requires x in s
    ensures k < |s| && s[k] == x && x !in s[..k]
    decreases |s|
  {
    if s[0] == x then 0
    else
      var k := 1 + FirstIndex(s[1..], x);
      assert s[..k] == [s[0]] + s[1..][..k - 1];
      k
  }

  /** `list(dict.fromkeys(s))`: each element once, where it first occurred. */
  function FromKeys<T(==)>(s: seq<T>): (r: seq<T>)
    ensures NoDuplicates(r)
    ensures forall i :: 0 <= i < |r| ==> r[i] in s
    ensures forall i :: 0 <= i < |s| ==> s[i] in r
    decreases |s|
  {
    if s == [] then []
    else
      var kept := FromKeys(s[..|s| - 1]);
      assert forall i :: 0 <= i < |s| - 1 ==> s[i] == s[..|s| - 1][i];
      if s[|s| - 1] in kept then kept else kept + [s[|s| - 1]]
  }

  lemma {:induction false} FirstIndexOfPrefix<T>(s: seq<T>, n: nat, x: T)
    requires n <= |s| && x in s[..n]
    ensures FirstIndex(s, x) == FirstIndex(s[..n], x)
  {
    var k, k' := FirstIndex(s, x), FirstIndex(s[..n], x);
    assert s[..n][..k'] == s[..k'];
    assert forall i :: 0 <= i < k ==> s[..k][i] == s[i];
    assert forall i :: 0 <= i < k' ==> s[..k'][i] == s[i];
  }

  /** `dict.fromkeys` keeps first-occurrence order: of two kept elements,
      the one that occurred first in the input comes first. */
  lemma {:induction false} FromKeysKeepsFirstOccurrenceOrder<T>(s: seq<T>)
    ensures forall i, j :: 0 <= i < j < |FromKeys(s)| ==>
              FirstIndex(s, FromKeys(s)[i]) < FirstIndex(s, FromKeys(s)[j])
    decreases |s|
  {
    if s != [] {
      var init, last := s[..|s| - 1], s[|s| - 1];
      var kept := FromKeys(init);
      FromKeysKeepsFirstOccurrenceOrder(init);
      assert s[..|s| - 1] == init;
      forall i | 0 <= i < |kept| ensures FirstIndex(s, kept[i]) == FirstIndex(init, kept[i]) {
        FirstIndexOfPrefix(s, |s| - 1, kept[i]);
      }
      if last !in kept {
        assert last !in init;
        assert FirstIndex(s, last) == |s| - 1 by {
          assert forall i :: 0 <= i < |s| - 1 ==> s[i] == init[i];
        }
      }
    }
  }

  /** Removing repeats from a list that has none changes nothing. */
  lemma {:induction false} FromKeysOfDistinct<T>(s: seq<T>)
    requires NoDuplicates(s)
    ensures FromKeys(s) == s
    decreases |s|
  {
    if s != [] {
      var init := s[..|s| - 1];
      FromKeysOfDistinct(init);
      assert s[|s| - 1] !in init;
      assert init + [s[|s| - 1]] == s;
    }
  }

  /** `list(set(s))`: each element once, in an order Python leaves open. The
      contract promises only that; this body happens to keep first occurrences. */
  method SetToList<T(==)>(s: seq<T>) returns (r: seq<T>)
    ensures NoDuplicates(r)
    ensures forall i :: 0 <= i < |r| ==> r[i] in s
    ensures forall i :: 0 <= i < |s| ==> s[i] in r
  {
    r := [];
    for i := 0 to |s|
      invariant NoDuplicates(r)
      invariant forall k :: 0 <= k < |r| ==> r[k] in s
      invariant forall k :: 0 <= k < i ==> s[k] in r
    {
      if s[i] !in r {
        r := r + [s[i]];
      }
    }
  }
}
