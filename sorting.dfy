/**
 * The stable descending sort that Python's `list.sort(key=k, reverse=True)`
 * performs, as a pure function, with the facts the tree builder relies on.
 */
module Sorting {

  /** Inserts `x` before the first element whose key is not larger than x's. */
  function InsertDesc<T>(x: T, s: seq<T>, key: T -> real): seq<T>
  {
    if s == [] || key(s[0]) <= key(x) then [x] + s
    else [s[0]] + InsertDesc(x, s[1..], key)
  }

  /** Insertion sort into non-increasing key order; equal keys keep their order. */
  function SortDesc<T>(s: seq<T>, key: T -> real): seq<T>
  {
    if s == [] then [] else InsertDesc(s[0], SortDesc(s[1..], key), key)
  }

  ghost predicate NonIncreasing<T>(s: seq<T>, key: T -> real)
  {
    forall i, j | 0 <= i < j < |s| :: key(s[i]) >= key(s[j])
  }

  function MapSeq<A, B>(s: seq<A>, f: A -> B): (r: seq<B>)
    ensures |r| == |s|
    ensures forall i | 0 <= i < |s| :: r[i] == f(s[i])
  {
    if s == [] then [] else [f(s[0])] + MapSeq(s[1..], f)
  }

  lemma {:induction false} InsertDescPermutes<T>(x: T, s: seq<T>, key: T -> real)
    ensures multiset(InsertDesc(x, s, key)) == multiset(s) + multiset{x}
  {
    if s != [] && key(s[0]) > key(x) {
      InsertDescPermutes(x, s[1..], key);
      assert s == [s[0]] + s[1..];
    }
  }

  lemma {:induction false} InsertDescSorted<T>(x: T, s: seq<T>, key: T -> real)
    requires NonIncreasing(s, key)
    ensures NonIncreasing(InsertDesc(x, s, key), key)
  {
    if s != [] && key(s[0]) > key(x) {
      var t := s[1..];
      assert NonIncreasing(t, key) by {
        forall i, j | 0 <= i < j < |t| ensures key(t[i]) >= key(t[j]) {
          assert t[i] == s[i + 1] && t[j] == s[j + 1];
        }
      }
      InsertDescSorted(x, t, key);
      InsertDescPermutes(x, t, key);
      var r := InsertDesc(x, t, key);
      forall k | 0 <= k < |r| ensures key(s[0]) >= key(r[k]) {
        assert r[k] in multiset(r);
        if r[k] == x {
        } else {
          assert r[k] in multiset(t);
          var m :| 0 <= m < |t| && t[m] == r[k];
          assert t[m] == s[m + 1];
        }
      }
    }
  }

  /** The result is a permutation of the input. */
  lemma {:induction false} SortDescPermutes<T>(s: seq<T>, key: T -> real)
    ensures multiset(SortDesc(s, key)) == multiset(s)
  {
    if s != [] {
      SortDescPermutes(s[1..], key);
      InsertDescPermutes(s[0], SortDesc(s[1..], key), key);
      assert s == [s[0]] + s[1..];
    }
  }

  /** The result is in non-increasing key order. */
  lemma {:induction false} SortDescSorted<T>(s: seq<T>, key: T -> real)
    ensures NonIncreasing(SortDesc(s, key), key)
  {
    if s != [] {
      SortDescSorted(s[1..], key);
      InsertDescSorted(s[0], SortDesc(s[1..], key), key);
    }
  }

  lemma {:induction false} InsertDescMap<A, B>(x: A, s: seq<A>, f: A -> B, ka: A -> real, kb: B -> real)
    requires kb(f(x)) == ka(x)
    requires forall i | 0 <= i < |s| :: kb(f(s[i])) == ka(s[i])
    ensures InsertDesc(f(x), MapSeq(s, f), kb) == MapSeq(InsertDesc(x, s, ka), f)
  {
    if s != [] && ka(s[0]) > ka(x) {
      InsertDescMap(x, s[1..], f, ka, kb);
      assert MapSeq(s, f)[1..] == MapSeq(s[1..], f);
    }
  }

  /** Sorting commutes with a map that carries the key along. */
  lemma {:induction false} SortDescMap<A, B>(s: seq<A>, f: A -> B, ka: A -> real, kb: B -> real)
    requires forall i | 0 <= i < |s| :: kb(f(s[i])) == ka(s[i])
    ensures SortDesc(MapSeq(s, f), kb) == MapSeq(SortDesc(s, ka), f)
  {
    if s != [] {
      SortDescMap(s[1..], f, ka, kb);
      assert MapSeq(s, f)[1..] == MapSeq(s[1..], f);
      var t := SortDesc(s[1..], ka);
      SortDescPermutes(s[1..], ka);
      forall i | 0 <= i < |t| ensures kb(f(t[i])) == ka(t[i]) {
        assert t[i] in multiset(s[1..]);
      }
      InsertDescMap(s[0], t, f, ka, kb);
    }
  }
}
