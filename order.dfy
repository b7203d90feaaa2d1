/**
 * The recency order of the cache: a sequence of addresses, least recently
 * used first. The cache keeps it in a double-ended queue and changes it with
 * `remove`, `append` and `popleft`; here it is a `seq<int>`.
 */
module Order {

  /** The addresses that occur in `s`. */
  function Elems(s: seq<int>): set<int> {
    set x | x in s
  }

  /** No address occurs twice in `s`. */
  predicate NoDup(s: seq<int>) {
    forall i, j :: 0 <= i < j < |s| ==> s[i] != s[j]
  }

  /** `x` keeps the elements of `y` it holds in the order `y` has them. */
  predicate Subsequence(x: seq<int>, y: seq<int>)
    decreases |y|
  {
    if x == [] then true
    else if y == [] then false
    else if x[0] == y[0] then Subsequence(x[1..], y[1..])
    else Subsequence(x, y[1..])
  }

  /** The position of the first occurrence of `a` in `s`. */
  function FirstIndex(s: seq<int>, a: int): (i: nat)
    requires a in s
    ensures i < |s| && s[i] == a && a !in s[..i]
  {
    if s[0] == a then 0
    else
      var j := FirstIndex(s[1..], a);
      assert s[..j + 1] == [s[0]] + s[1..][..j];
      1 + j
  }

  /**
   * `deque.remove(a)`: scan from the head and delete the first occurrence of
   * `a`. The deque raises an error when `a` is absent; callers rule that out.
   */
  function RemoveFirst(s: seq<int>, a: int): (r: seq<int>)
    requires a in s
    ensures |r| == |s| - 1
    ensures multiset(r) + multiset{a} == multiset(s)
  {
    assert s == [s[0]] + s[1..];
    if s[0] == a then s[1..] else [s[0]] + RemoveFirst(s[1..], a)
  }

  /** `deque.remove` cuts out exactly the first occurrence of `a`. */
  lemma {:induction false} RemoveFirstCutsFirst(s: seq<int>, a: int)
    requires a in s
    ensures RemoveFirst(s, a) == s[..FirstIndex(s, a)] + s[FirstIndex(s, a) + 1..]
  {
    if s[0] != a {
      var t := s[1..];
      RemoveFirstCutsFirst(t, a);
      var j := FirstIndex(t, a);
      assert FirstIndex(s, a) == j + 1;
      calc {
        RemoveFirst(s, a);
        [s[0]] + RemoveFirst(t, a);
        [s[0]] + (t[..j] + t[j + 1..]);
        { assert [s[0]] + t[..j] == s[..j + 1]; assert t[j + 1..] == s[j + 2..]; }
        s[..j + 1] + s[j + 2..];
      }
    }
  }

  /** Removing the last address of a sequence without repetitions leaves the front. */
  lemma RemoveLast(s: seq<int>, a: int)
    requires NoDup(s) && s != [] && s[|s| - 1] == a
    ensures a in s
    ensures RemoveFirst(s, a) == s[..|s| - 1]
    ensures RemoveFirst(s, a) + [a] == s
  {
    var n := |s| - 1;
    assert s[n] == a;
    var i := FirstIndex(s, a);
    assert forall k :: 0 <= k < n ==> s[k] != s[n];
    assert i == n;
    RemoveFirstCutsFirst(s, a);
    assert RemoveFirst(s, a) == s[..n];
  }

  /** A sequence without repetitions has as many distinct elements as positions. */
  lemma {:induction false} NoDupCardinality(s: seq<int>)
    requires NoDup(s)
    ensures |Elems(s)| == |s|
  {
    if s != [] {
      NoDupTail(s);
      NoDupCardinality(s[1..]);
      assert Elems(s) == Elems(s[1..]) + {s[0]};
    }
  }

  /** Dropping the head of a sequence without repetitions drops exactly that address. */
  lemma NoDupTail(s: seq<int>)
    requires NoDup(s) && s != []
    ensures NoDup(s[1..])
    ensures s[0] !in s[1..]
    ensures Elems(s[1..]) == Elems(s) - {s[0]}
  {
    assert forall i :: 0 <= i < |s| - 1 ==> s[1..][i] == s[i + 1];
    assert forall i :: 0 <= i < |s| - 1 ==> s[1..][i] != s[0];
  }

  /** Appending a new address keeps the sequence free of repetitions. */
  lemma AppendFresh(s: seq<int>, a: int)
    requires NoDup(s) && a !in s
    ensures NoDup(s + [a])
    ensures Elems(s + [a]) == Elems(s) + {a}
  {
    var t := s + [a];
    forall i, j | 0 <= i < j < |t| ensures t[i] != t[j] {
      if j == |s| {
        assert t[i] == s[i];
      } else {
        assert t[i] == s[i] && t[j] == s[j];
      }
    }
  }

  /** Cutting out position `i` shifts every later element one place to the front. */
  lemma CutAt(s: seq<int>, i: nat, r: seq<int>)
    requires i < |s| && r == s[..i] + s[i + 1..]
    ensures |r| == |s| - 1
    ensures forall k :: 0 <= k < i ==> r[k] == s[k]
    ensures forall k :: i <= k < |r| ==> r[k] == s[k + 1]
  {
  }

  /** Removing `a` from a sequence without repetitions removes every trace of it and nothing else. */
  lemma RemoveFirstNoDup(s: seq<int>, a: int)
    requires NoDup(s) && a in s
    ensures NoDup(RemoveFirst(s, a))
    ensures a !in RemoveFirst(s, a)
    ensures Elems(RemoveFirst(s, a)) == Elems(s) - {a}
    ensures |RemoveFirst(s, a)| == |s| - 1
  {
    RemoveFirstCutsFirst(s, a);
    var i := FirstIndex(s, a);
    var r := RemoveFirst(s, a);
    CutAt(s, i, r);
    assert NoDup(r) && a !in r by {
      forall p, q | 0 <= p < q < |r| ensures r[p] != r[q] {
        var p' := if p < i then p else p + 1;
        var q' := if q < i then q else q + 1;
        assert r[p] == s[p'] && r[q] == s[q'];
      }
      forall k | 0 <= k < |r| ensures r[k] != a {
        var k' := if k < i then k else k + 1;
        assert r[k] == s[k'] && k' != i;
      }
    }
    assert Elems(s) - {a} <= Elems(r) by {
      forall x | x in Elems(s) - {a} ensures x in Elems(r) {
        var k :| 0 <= k < |s| && s[k] == x;
        if k < i {
          assert r[k] == x;
        } else {
          assert r[k - 1] == x;
        }
      }
    }
  }

  /** A prefix of a sequence without repetitions has none either, and misses the elements after it. */
  lemma PrefixNoDup(s: seq<int>, n: nat)
    requires NoDup(s) && n < |s|
    ensures NoDup(s[..n])
    ensures s[n] !in s[..n]
  {
    assert forall i :: 0 <= i < n ==> s[..n][i] == s[i];
  }

  /**
   * The suffixes of a sequence read one element at a time: the suffix from
   * `k` of the prefix, extended by the last element, is the suffix from `k`;
   * without its head it is the suffix from `k + 1`; the last element is not
   * in it when nothing repeats.
   */
  lemma SnocSuffix(s: seq<int>, k: nat)
    requires NoDup(s) && k < |s|
    ensures var n := |s| - 1;
      && s[n] !in s[..n][k..]
      && s[..n][k..] + [s[n]] == s[k..]
      && (k < n ==> s[..n][k..][1..] + [s[n]] == s[k + 1..])
  {
    var n := |s| - 1;
    PrefixNoDup(s, n);
    assert s[..n][k..] + [s[n]] == s[k..];
    if k < n {
      assert s[..n][k..][1..] == s[..n][k + 1..];
      assert s[..n][k + 1..] + [s[n]] == s[k + 1..];
    }
  }

  /** Every sequence keeps its own order. */
  lemma {:induction false} SubsequenceRefl(s: seq<int>)
    ensures Subsequence(s, s)
  {
    if s != [] {
      SubsequenceRefl(s[1..]);
    }
  }

  /** If `x` keeps its order in `y`, so does the tail of `x`. */
  lemma {:induction false} SubsequenceDropHead(x: seq<int>, y: seq<int>)
    requires Subsequence(x, y) && x != []
    ensures Subsequence(x[1..], y)
    decreases |y|, 1
  {
    if x[0] == y[0] {
      SubsequenceExtend(x[1..], y);
    } else {
      SubsequenceDropHead(x, y[1..]);
      SubsequenceExtend(x[1..], y);
    }
  }

  /** What keeps its order in the tail of `y` keeps it in `y`. */
  lemma {:induction false} SubsequenceExtend(x: seq<int>, y: seq<int>)
    requires y != [] && Subsequence(x, y[1..])
    ensures Subsequence(x, y)
    decreases |y|, 0
  {
    if x != [] && x[0] == y[0] {
      SubsequenceDropHead(x, y[1..]);
    }
  }

  /** `deque.remove` keeps the other addresses in their relative order. */
  lemma {:induction false} RemoveFirstSubsequence(s: seq<int>, a: int)
    requires a in s
    ensures Subsequence(RemoveFirst(s, a), s)
  {
    if s[0] == a {
      SubsequenceRefl(s[1..]);
      SubsequenceExtend(s[1..], s);
    } else {
      RemoveFirstSubsequence(s[1..], a);
      var r := RemoveFirst(s, a);
      assert r[0] == s[0] && r[1..] == RemoveFirst(s[1..], a);
    }
  }
}
