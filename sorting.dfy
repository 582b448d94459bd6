/**
 * `Array.prototype.sort` with the numeric comparator `(a, b) => key(a) - key(b)`, for
 * arrays whose keys are pairwise distinct (the only arrays the order endpoints sort):
 * a recursive insertion sort with its contract.
 */
module Sorting {

  /** The set of keys of the elements of `s`. */
  function KeySet<T(==)>(s: seq<T>, key: T -> int): set<int> {
    set x | x in s :: key(x)
  }

  predicate StrictlyAscendingBy<T(==)>(s: seq<T>, key: T -> int) {
    forall i, j :: 0 <= i < j < |s| ==> key(s[i]) < key(s[j])
  }

  predicate DistinctKeys<T(==)>(s: seq<T>, key: T -> int) {
    forall i, j :: 0 <= i < j < |s| ==> key(s[i]) != key(s[j])
  }

  /** A sequence of numbers without repetitions: distinct under the identity key. */
  predicate Distinct(ks: seq<int>) {
    DistinctKeys(ks, n => n)
  }

  lemma KeySetCons<T>(y: T, t: seq<T>, key: T -> int)
    ensures KeySet([y] + t, key) == {key(y)} + KeySet(t, key)
  {
    forall n | n in KeySet([y] + t, key) ensures n in {key(y)} + KeySet(t, key) {
      var z :| z in [y] + t && key(z) == n;
      if z != y { assert z in t; }
    }
    forall n | n in KeySet(t, key) ensures n in KeySet([y] + t, key) {
      var z :| z in t && key(z) == n;
      assert z in [y] + t;
    }
  }

  /** In a strictly ascending sequence the head's key is below every later key. */
  lemma HeadIsLeast<T>(s: seq<T>, key: T -> int)
    requires StrictlyAscendingBy(s, key) && s != []
    ensures forall n :: n in KeySet(s[1..], key) ==> key(s[0]) < n
  {
    forall n | n in KeySet(s[1..], key) ensures key(s[0]) < n {
      var z :| z in s[1..] && key(z) == n;
      var j :| 0 <= j < |s[1..]| && s[1..][j] == z;
      assert s[j + 1] == z;
    }
  }

  /** Placing `y` in front of a sorted `t` whose keys all exceed its own keeps it sorted. */
  lemma ConsKeepsOrder<T>(y: T, t: seq<T>, key: T -> int)
    requires StrictlyAscendingBy(t, key)
    requires forall n :: n in KeySet(t, key) ==> key(y) < n
    ensures StrictlyAscendingBy([y] + t, key)
    ensures multiset([y] + t) == multiset(t) + multiset{y}
    ensures KeySet([y] + t, key) == KeySet(t, key) + {key(y)}
  {
    KeySetCons(y, t, key);
    forall i, j | 0 <= i < j < |[y] + t|
      ensures key(([y] + t)[i]) < key(([y] + t)[j])
    {
      assert t[j - 1] in t;
      assert key(t[j - 1]) in KeySet(t, key);
    }
  }

  /** The tail of a sorted sequence is sorted, and the head's key is below all of its keys. */
  lemma AscendingTail<T>(s: seq<T>, key: T -> int)
    requires StrictlyAscendingBy(s, key) && s != []
    ensures s == [s[0]] + s[1..]
    ensures StrictlyAscendingBy(s[1..], key)
    ensures KeySet(s, key) == {key(s[0])} + KeySet(s[1..], key)
    ensures forall n :: n in KeySet(s[1..], key) ==> key(s[0]) < n
  {
    assert s == [s[0]] + s[1..];
    KeySetCons(s[0], s[1..], key);
    HeadIsLeast(s, key);
  }

  /** An element whose key is below the head's goes in front. */
  lemma InsertInFront<T>(x: T, s: seq<T>, key: T -> int)
    requires StrictlyAscendingBy(s, key) && s != [] && key(x) < key(s[0])
    ensures StrictlyAscendingBy([x] + s, key)
    ensures multiset([x] + s) == multiset(s) + multiset{x}
    ensures KeySet([x] + s, key) == KeySet(s, key) + {key(x)}
  {
    AscendingTail(s, key);
    ConsKeepsOrder(x, s, key);
  }

  /** An element whose key is above the head's goes into the tail, behind the head. */
  lemma InsertBehindHead<T>(x: T, s: seq<T>, t: seq<T>, key: T -> int)
    requires StrictlyAscendingBy(s, key) && s != [] && key(s[0]) < key(x)
    requires StrictlyAscendingBy(t, key)
    requires multiset(t) == multiset(s[1..]) + multiset{x}
    requires KeySet(t, key) == KeySet(s[1..], key) + {key(x)}
    ensures StrictlyAscendingBy([s[0]] + t, key)
    ensures multiset([s[0]] + t) == multiset(s) + multiset{x}
    ensures KeySet([s[0]] + t, key) == KeySet(s, key) + {key(x)}
  {
    AscendingTail(s, key);
    ConsKeepsOrder(s[0], t, key);
  }

  /** Insert `x` at its place in the sorted `s`. */
  function InsertBy<T(==)>(x: T, s: seq<T>, key: T -> int): (r: seq<T>)
    requires StrictlyAscendingBy(s, key) && key(x) !in KeySet(s, key)
    ensures StrictlyAscendingBy(r, key)
    ensures multiset(r) == multiset(s) + multiset{x}
    ensures KeySet(r, key) == KeySet(s, key) + {key(x)}
  {
    if s == [] then
      ConsKeepsOrder(x, [], key);
      [x]
    else if key(x) < key(s[0]) then
      InsertInFront(x, s, key);
      [x] + s
    else
      AscendingTail(s, key);
      var t := InsertBy(x, s[1..], key);
      InsertBehindHead(x, s, t, key);
      [s[0]] + t
  }

  /** The head of a sequence with distinct keys has a key none of the tail has. */
  lemma DistinctTail<T>(s: seq<T>, key: T -> int)
    requires DistinctKeys(s, key) && s != []
    ensures s == [s[0]] + s[1..]
    ensures DistinctKeys(s[1..], key)
    ensures key(s[0]) !in KeySet(s[1..], key)
    ensures KeySet(s, key) == KeySet(s[1..], key) + {key(s[0])}
  {
    assert s == [s[0]] + s[1..];
    KeySetCons(s[0], s[1..], key);
    forall n | n in KeySet(s[1..], key) ensures n != key(s[0]) {
      var z :| z in s[1..] && key(z) == n;
      var j :| 0 <= j < |s[1..]| && s[1..][j] == z;
      assert s[j + 1] == z;
    }
  }

  /** The sorted copy: strictly ascending by key, and the same elements. */
  function SortBy<T(==)>(s: seq<T>, key: T -> int): (r: seq<T>)
    requires DistinctKeys(s, key)
    ensures StrictlyAscendingBy(r, key)
    ensures multiset(r) == multiset(s)
    ensures KeySet(r, key) == KeySet(s, key)
  {
    if s == [] then []
    else
      DistinctTail(s, key);
      InsertBy(s[0], SortBy(s[1..], key), key)
  }

  /** Every element of the sorted copy comes from the input, and there are as many. */
  lemma SortByElements<T>(s: seq<T>, key: T -> int)
    requires DistinctKeys(s, key)
    ensures |SortBy(s, key)| == |s|
    ensures forall x :: x in SortBy(s, key) ==> x in s
  {
    var r := SortBy(s, key);
    assert |multiset(r)| == |multiset(s)|;
    forall x | x in r ensures x in s {
      assert x in multiset(r);
    }
  }

  lemma KeySetEmpty<T>(s: seq<T>, key: T -> int)
    ensures KeySet(s, key) == {} <==> s == []
  {
    if s != [] {
      assert key(s[0]) in KeySet(s, key);
    }
  }

  /** A strictly ascending sequence is determined, key by key, by its set of keys. */
  lemma {:induction false} AscendingKeysDetermined<T>(s: seq<T>, t: seq<T>, key: T -> int)
    requires StrictlyAscendingBy(s, key) && StrictlyAscendingBy(t, key)
    requires KeySet(s, key) == KeySet(t, key)
    ensures |s| == |t|
    ensures forall i :: 0 <= i < |s| ==> key(s[i]) == key(t[i])
  {
    KeySetEmpty(s, key);
    KeySetEmpty(t, key);
    if s != [] {
      assert s == [s[0]] + s[1..];
      assert t == [t[0]] + t[1..];
      KeySetCons(s[0], s[1..], key);
      KeySetCons(t[0], t[1..], key);
      HeadIsLeast(s, key);
      HeadIsLeast(t, key);
      assert key(s[0]) == key(t[0]);
      assert KeySet(s[1..], key) == KeySet(t[1..], key) by {
        assert key(s[0]) !in KeySet(s[1..], key);
        assert key(t[0]) !in KeySet(t[1..], key);
        assert KeySet(s[1..], key) == KeySet(s, key) - {key(s[0])};
        assert KeySet(t[1..], key) == KeySet(t, key) - {key(t[0])};
      }
      AscendingKeysDetermined(s[1..], t[1..], key);
      forall i | 0 <= i < |s| ensures key(s[i]) == key(t[i]) {
        if i > 0 {
          assert s[1..][i - 1] == s[i];
          assert t[1..][i - 1] == t[i];
        }
      }
    }
  }
}
