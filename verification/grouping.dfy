/**
 * Insertion-ordered sets and grouping by key.
 *
 * A JavaScript `Set`, and the string keys of a plain object, remember the
 * order in which keys were first added. `Dedup` models that order, `Members`
 * the list of elements collected under one key, and `Gathered` the
 * concatenation of the lists of several keys. Functions over sequences are
 * defined on a prefix and its last element, the way a loop visits them.
 */
module Grouping {

  /** No element occurs twice. */
  predicate Distinct<K(==,!new)>(s: seq<K>) {
    forall i, j :: 0 <= i < j < |s| ==> s[i] != s[j]
  }

  /** `set.add(x)`: `x` is appended only when it is not already present. */
  function Insert<K(==,!new)>(d: seq<K>, x: K): (r: seq<K>)
    ensures Distinct(d) ==> Distinct(r)
    ensures d <= r && x in r
    ensures forall y :: y in r <==> y in d || y == x
  {
    if x in d then d else d + [x]
  }

  /** Adding every element of `xs`, in order, to the ordered set `d`. */
  function InsertAll<K(==,!new)>(d: seq<K>, xs: seq<K>): (r: seq<K>)
    ensures Distinct(d) ==> Distinct(r)
    ensures d <= r
    ensures forall y :: y in r <==> y in d || y in xs
    decreases |xs|
  {
    if xs == [] then d
    else
      assert xs == xs[..|xs| - 1] + [xs[|xs| - 1]];
      Insert(InsertAll(d, xs[..|xs| - 1]), xs[|xs| - 1])
  }

  /** The distinct elements of `xs` in order of first appearance. */
  function Dedup<K(==,!new)>(xs: seq<K>): (r: seq<K>)
    ensures Distinct(r)
    ensures forall y :: y in r <==> y in xs
    ensures |r| <= |xs|
  {
    DedupLength(xs);
    InsertAll([], xs)
  }

  lemma {:induction false} DedupLength<K(!new)>(xs: seq<K>)
    ensures |InsertAll([], xs)| <= |xs|
    decreases |xs|
  {
    if xs != [] {
      DedupLength(xs[..|xs| - 1]);
    }
  }

  /** Adding two sequences one after the other is adding their concatenation. */
  lemma {:induction false} InsertAllAppend<K(!new)>(d: seq<K>, xs: seq<K>, ys: seq<K>)
    ensures InsertAll(d, xs + ys) == InsertAll(InsertAll(d, xs), ys)
    decreases |ys|
  {
    if ys == [] {
      assert xs + ys == xs;
    } else {
      var n := |ys| - 1;
      assert (xs + ys)[..|xs + ys| - 1] == xs + ys[..n];
      InsertAllAppend(d, xs, ys[..n]);
    }
  }

  /** The index of the first occurrence of `x` in `s`. */
  function IndexOf<K(==,!new)>(s: seq<K>, x: K): (i: nat)
    requires x in s
    ensures i < |s| && s[i] == x && x !in s[..i]
  {
    if s[0] == x then 0
    else
      var i := 1 + IndexOf(s[1..], x);
      assert s[..i] == [s[0]] + s[1..][..i - 1];
      i
  }

  /** Any position holding the first occurrence of `x` is `IndexOf(s, x)`. */
  lemma FirstOccurrence<K(!new)>(s: seq<K>, x: K, i: nat)
    requires i < |s| && s[i] == x && x !in s[..i]
    ensures IndexOf(s, x) == i
  {
    var k := IndexOf(s, x);
    assert forall j :: 0 <= j < i ==> s[..i][j] == s[j];
    assert forall j :: 0 <= j < k ==> s[..k][j] == s[j];
  }

  /**
   * `Dedup` lists keys in the order of their first appearance: a key listed
   * earlier occurred earlier in `xs`.
   */
  lemma {:induction false} DedupFirstSeen<K(!new)>(xs: seq<K>)
    ensures forall i, j :: 0 <= i < j < |Dedup(xs)| ==>
      IndexOf(xs, Dedup(xs)[i]) < IndexOf(xs, Dedup(xs)[j])
    decreases |xs|
  {
    if xs != [] {
      var n := |xs| - 1;
      var p, x := xs[..n], xs[n];
      assert xs == p + [x];
      DedupFirstSeen(p);
      var d := Dedup(p);
      assert Dedup(xs) == Insert(d, x);
      forall y | y in p
        ensures IndexOf(xs, y) == IndexOf(p, y)
      {
        var k := IndexOf(p, y);
        assert xs[..k] == p[..k];
        FirstOccurrence(xs, y, k);
      }
      if x !in d {
        assert xs[..n] == p;
        FirstOccurrence(xs, x, n);
      }
    }
  }

  /** The key of every element, in order. */
  function Keys<T, K>(xs: seq<T>, key: T -> K): (ks: seq<K>)
    ensures |ks| == |xs|
    ensures forall i :: 0 <= i < |xs| ==> ks[i] == key(xs[i])
    decreases |xs|
  {
    if xs == [] then [] else Keys(xs[..|xs| - 1], key) + [key(xs[|xs| - 1])]
  }

  /** The elements of `xs` whose key is `k`, in their order in `xs`. */
  function Members<T(==,!new), K(==,!new)>(xs: seq<T>, key: T -> K, k: K): (ms: seq<T>)
    ensures |ms| <= |xs|
    ensures forall x :: x in ms <==> x in xs && key(x) == k
    decreases |xs|
  {
    if xs == [] then []
    else
      var n := |xs| - 1;
      assert xs == xs[..n] + [xs[n]];
      Members(xs[..n], key, k) + (if key(xs[n]) == k then [xs[n]] else [])
  }

  /** Two tests that agree on every element select the same members. */
  lemma {:induction false} SameMembers<T(!new), K(!new), L(!new)>(xs: seq<T>, key: T -> K, k: K, key2: T -> L, k2: L)
    requires forall x :: x in xs ==> (key(x) == k <==> key2(x) == k2)
    ensures Members(xs, key, k) == Members(xs, key2, k2)
    decreases |xs|
  {
    if xs != [] {
      var n := |xs| - 1;
      var p, x := xs[..n], xs[n];
      assert xs == p + [x];
      SameMembers(p, key, k, key2, k2);
      MembersSnoc(p, x, key, k);
      MembersSnoc(p, x, key2, k2);
    }
  }

  /** The members of each key of `ks`, one key after the other. */
  function Gathered<T(==,!new), K(==,!new)>(ks: seq<K>, xs: seq<T>, key: T -> K): seq<T>
    decreases |ks|
  {
    if ks == [] then []
    else Gathered(ks[..|ks| - 1], xs, key) + Members(xs, key, ks[|ks| - 1])
  }

  /** Extending the grouped list by one element adds it to its own key only. */
  lemma {:induction false} GatheredSnoc<T(!new), K(!new)>(ks: seq<K>, xs: seq<T>, x: T, key: T -> K)
    requires Distinct(ks)
    ensures multiset(Gathered(ks, xs + [x], key))
         == multiset(Gathered(ks, xs, key)) + (if key(x) in ks then multiset{x} else multiset{})
    decreases |ks|
  {
    var ys := xs + [x];
    assert ys[..|ys| - 1] == xs;
    if ks != [] {
      var n := |ks| - 1;
      assert ks == ks[..n] + [ks[n]];
      GatheredSnoc(ks[..n], xs, x, key);
    }
  }

  /** Appending an element extends the members of its own key only. */
  lemma MembersSnoc<T(!new), K(!new)>(xs: seq<T>, x: T, key: T -> K, k: K)
    ensures Members(xs + [x], key, k) == Members(xs, key, k) + (if key(x) == k then [x] else [])
  {
    var ys := xs + [x];
    assert ys[..|ys| - 1] == xs;
  }

  /** A non-empty sequence is its prefix and its last element; so is its concatenation after any `a`. */
  lemma SplitLast<T>(a: seq<T>, b: seq<T>)
    requires b != []
    ensures b == b[..|b| - 1] + [b[|b| - 1]]
    ensures a + b == (a + b[..|b| - 1]) + [b[|b| - 1]]
  {
  }

  lemma AppendAssoc3<T>(a: seq<T>, b: seq<T>, c: seq<T>)
    ensures a + b + c == a + (b + c)
  {
  }

  /** Replacing the last element of `a + [x]` by `y`. */
  lemma ReplaceLast<T>(a: seq<T>, x: T, y: T)
    ensures (a + [x])[|a| := y] == a + [y]
  {
  }

  /** Taking one more element of a sequence appends that element. */
  lemma TakeOneMore<T>(s: seq<T>, i: nat)
    requires i < |s|
    ensures s[..i + 1] == s[..i] + [s[i]]
  {
  }

  /** Dropping the last element of `s + [x]` gives back `s`. */
  lemma DropLast<T>(s: seq<T>, x: T)
    ensures (s + [x])[..|s|] == s
  {
  }

  /** Appending one element extends the keys and the insertion-ordered key set by its key. */
  lemma KeysSnoc<T, K(!new)>(xs: seq<T>, x: T, key: T -> K, d: seq<K>)
    ensures Keys(xs + [x], key) == Keys(xs, key) + [key(x)]
    ensures InsertAll(d, Keys(xs + [x], key)) == Insert(InsertAll(d, Keys(xs, key)), key(x))
  {
    var ys := xs + [x];
    assert ys[..|ys| - 1] == xs;
    var ks := Keys(xs, key) + [key(x)];
    assert ks[..|ks| - 1] == Keys(xs, key);
  }

  /** In a sequence without repetitions, an element is found at its own position. */
  lemma DistinctIndex<K(!new)>(s: seq<K>, i: nat)
    requires Distinct(s) && i < |s|
    ensures IndexOf(s, s[i]) == i
  {
    FirstOccurrence(s, s[i], i);
  }

  /** A key that no element has collects no members. */
  lemma MembersOfUnusedKey<T(!new), K(!new)>(xs: seq<T>, key: T -> K, k: K)
    requires k !in Keys(xs, key)
    ensures Members(xs, key, k) == []
  {
  }

  /**
   * Grouping loses and duplicates nothing: gathering the members of every
   * distinct key, in first-seen order, is a permutation of the input.
   */
  lemma {:induction false} Partition<T(!new), K(!new)>(xs: seq<T>, key: T -> K)
    ensures multiset(Gathered(Dedup(Keys(xs, key)), xs, key)) == multiset(xs)
    decreases |xs|
  {
    if xs != [] {
      var n := |xs| - 1;
      var p, x := xs[..n], xs[n];
      assert xs == p + [x];
      Partition(p, key);
      KeysSnoc(p, x, key, []);
      PartitionStep(Dedup(Keys(p, key)), p, x, key);
    }
  }

  /** One more element joins the group of its key, which is new when the key is. */
  lemma PartitionStep<T(!new), K(!new)>(d: seq<K>, p: seq<T>, x: T, key: T -> K)
    requires Distinct(d) && forall k :: k in d <==> k in Keys(p, key)
    requires multiset(Gathered(d, p, key)) == multiset(p)
    ensures multiset(Gathered(Insert(d, key(x)), p + [x], key)) == multiset(p + [x])
  {
    GatheredSnoc(d, p, x, key);
    assert multiset(p + [x]) == multiset(p) + multiset{x};
    if key(x) !in d {
      NewGroup(d, p, x, key);
    }
  }

  /** An element with an unseen key forms a group of its own after the others. */
  lemma NewGroup<T(!new), K(!new)>(d: seq<K>, p: seq<T>, x: T, key: T -> K)
    requires key(x) !in Keys(p, key)
    ensures Gathered(d + [key(x)], p + [x], key) == Gathered(d, p + [x], key) + [x]
  {
    var e := d + [key(x)];
    assert e[..|e| - 1] == d;
    MembersOfUnusedKey(p, key, key(x));
    MembersSnoc(p, x, key, key(x));
  }

  /** Grouping keeps the number of elements. */
  lemma PartitionLength<T(!new), K(!new)>(xs: seq<T>, key: T -> K)
    ensures |Gathered(Dedup(Keys(xs, key)), xs, key)| == |xs|
  {
    Partition(xs, key);
    assert |multiset(Gathered(Dedup(Keys(xs, key)), xs, key))| == |multiset(xs)|;
  }
}
