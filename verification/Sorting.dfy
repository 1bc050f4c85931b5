/** sort.Ints on a slice of distinct integers. */
module Sorting {

  /** sort.Ints */
  function Sorted(keys: seq<int>): seq<int> {
    if keys == [] then [] else Insert(Sorted(keys[..|keys| - 1]), keys[|keys| - 1])
  }

  function Insert(keys: seq<int>, k: int): seq<int> {
    if keys == [] || keys[|keys| - 1] <= k then keys + [k]
    else Insert(keys[..|keys| - 1], k) + [keys[|keys| - 1]]
  }

  predicate Ascending(keys: seq<int>) {
    forall i, j :: 0 <= i < j < |keys| ==> keys[i] < keys[j]
  }

  lemma {:induction false} InsertMembers(keys: seq<int>, k: int)
    ensures |Insert(keys, k)| == |keys| + 1
    ensures forall x :: x in Insert(keys, k) <==> x in keys || x == k
  {
    if keys != [] && keys[|keys| - 1] > k {
      var n := |keys| - 1;
      InsertMembers(keys[..n], k);
      assert keys == keys[..n] + [keys[n]];
    }
  }

  lemma {:induction false} InsertSorts(keys: seq<int>, k: int)
    requires Ascending(keys) && k !in keys
    ensures Ascending(Insert(keys, k))
  {
    if keys != [] && keys[|keys| - 1] > k {
      var n := |keys| - 1;
      InsertSorts(keys[..n], k);
      InsertMembers(keys[..n], k);
      var r := Insert(keys[..n], k);
      forall i | 0 <= i < |r| ensures r[i] < keys[n] {
        assert r[i] in r;
      }
    }
  }

  /** Sorting distinct indices puts them in strictly ascending order and loses none. */
  lemma {:induction false} SortedSorts(keys: seq<int>)
    requires forall i, j :: 0 <= i < j < |keys| ==> keys[i] != keys[j]
    ensures Ascending(Sorted(keys)) && |Sorted(keys)| == |keys|
    ensures forall x :: x in Sorted(keys) <==> x in keys
  {
    if keys != [] {
      var n := |keys| - 1;
      SortedSorts(keys[..n]);
      assert keys == keys[..n] + [keys[n]];
      InsertMembers(Sorted(keys[..n]), keys[n]);
      InsertSorts(Sorted(keys[..n]), keys[n]);
    }
  }
}
