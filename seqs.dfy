/** Sequence helpers shared by the list-mutating parts of the model. */
module Seqs {

  /** No element occurs twice. */
  predicate Distinct<T(==)>(s: seq<T>) {
    forall i, j :: 0 <= i < j < |s| ==> s[i] != s[j]
  }

  /** List<T>.Remove: drops the first element equal to x, if any. */
  function RemoveFirst<T(==)>(s: seq<T>, x: T): (r: seq<T>)
    ensures x in s ==> |r| == |s| - 1
    ensures x !in s ==> r == s
  {
    if s == [] then []
    else if s[0] == x then s[1..]
    else [s[0]] + RemoveFirst(s[1..], x)
  }

  /** Removing x from a duplicate-free list leaves a duplicate-free list
      without x, whose elements all come from the original. */
  lemma {:induction false} RemoveFirstDistinct<T>(s: seq<T>, x: T)
    requires Distinct(s)
    ensures Distinct(RemoveFirst(s, x))
    ensures x !in RemoveFirst(s, x)
    ensures forall y :: y in RemoveFirst(s, x) ==> y in s
  {
    if s == [] {
    } else if s[0] == x {
      assert s == [x] + s[1..];
    } else {
      var t := s[1..];
      assert Distinct(t);
      RemoveFirstDistinct(t, x);
      var r := RemoveFirst(t, x);
      assert RemoveFirst(s, x) == [s[0]] + r;
      assert s[0] !in t;
      forall i, j | 0 <= i < j < |[s[0]] + r|
        ensures ([s[0]] + r)[i] != ([s[0]] + r)[j]
      {
        if i == 0 {
          assert ([s[0]] + r)[j] == r[j - 1];
        }
      }
    }
  }

  /** The position of the first element equal to x. */
  function FirstIndex<T(==)>(s: seq<T>, x: T): (i: nat)
    requires x in s
    ensures i < |s| && s[i] == x && x !in s[..i]
  {
    if s[0] == x then 0
    else
      var i := 1 + FirstIndex(s[1..], x);
      assert s[..i] == [s[0]] + s[1..][..i - 1];
      i
  }

  /** List<T>.Remove drops exactly the first occurrence of x and keeps the
      rest in order. */
  lemma {:induction false} RemoveFirstAt<T>(s: seq<T>, x: T)
    requires x in s
    ensures RemoveFirst(s, x) == s[..FirstIndex(s, x)] + s[FirstIndex(s, x) + 1..]
  {
    if s[0] != x {
      RemoveFirstAt(s[1..], x);
      var i := FirstIndex(s[1..], x);
      assert s[..i + 1] == [s[0]] + s[1..][..i];
      assert s[i + 2..] == s[1..][i + 1..];
    }
  }

  lemma EmptyAppend<T>(s: seq<T>)
    ensures [] + s == s
  {
  }

  lemma TakeSnoc<T>(s: seq<T>, k: nat)
    requires k < |s|
    ensures s[..k] + [s[k]] == s[..k + 1]
  {
  }

  /** Moving the head of s onto the end of acc keeps the concatenation. */
  lemma AppendHead<T>(acc: seq<T>, s: seq<T>)
    requires s != []
    ensures acc + [s[0]] + s[1..] == acc + s
  {
    assert s == [s[0]] + s[1..];
  }

  /** Reverses a sequence (List<T>.Reverse). */
  function Reversed<T>(s: seq<T>): (r: seq<T>)
    ensures |r| == |s|
    ensures forall k :: 0 <= k < |s| ==> r[k] == s[|s| - 1 - k]
  {
    if s == [] then [] else Reversed(s[1..]) + [s[0]]
  }

  /** A duplicate-free listing of a map's keys has as many entries as the map. */
  lemma {:induction false} DistinctKeysCount<K, V>(m: map<K, V>, keys: seq<K>)
    requires Distinct(keys)
    requires forall k :: k in m <==> k in keys
    ensures |m| == |keys|
  {
    if keys == [] {
      assert m.Keys == {};
    } else {
      var k := keys[0];
      var rest := m - {k};
      assert Distinct(keys[1..]);
      forall x
        ensures x in rest <==> x in keys[1..]
      {
        if x in keys && x != k {
          var i :| 0 <= i < |keys| && keys[i] == x;
          assert keys[1..][i - 1] == x;
        }
      }
      DistinctKeysCount(rest, keys[1..]);
      assert m.Keys == rest.Keys + {k};
    }
  }
}
