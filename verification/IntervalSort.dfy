/**
 The in-place insertion sort of the interval list (smart_helmet_vitals.c: shPeakBpm).
 */
module IntervalSort {

  predicate AtMost(s: seq<int>, v: int) {
    forall i :: 0 <= i < |s| ==> s[i] <= v
  }

  predicate Sorted(s: seq<int>) {
    forall i, j :: 0 <= i < j < |s| ==> s[i] <= s[j]
  }

  lemma SortedExtend(s: seq<int>, v: int)
    requires Sorted(s) && AtMost(s, v)
    ensures Sorted(s + [v])
  {
  }

  lemma SortedShrink(s: seq<int>)
    requires Sorted(s) && s != []
    ensures Sorted(s[..|s| - 1]) && AtMost(s[..|s| - 1], s[|s| - 1]) && AtMost(s, s[|s| - 1])
  {
  }

  lemma SplitLast(s: seq<int>)
    requires s != []
    ensures multiset(s) == multiset(s[..|s| - 1]) + multiset{s[|s| - 1]}
  {
    assert s == s[..|s| - 1] + [s[|s| - 1]];
  }

  /** A key inserted behind the last entry that does not exceed it. */
  function Inserted(s: seq<int>, key: int): (r: seq<int>)
    ensures |r| == |s| + 1
  {
    if s == [] || s[|s| - 1] <= key then s + [key]
    else Inserted(s[..|s| - 1], key) + [s[|s| - 1]]
  }

  lemma {:induction false} InsertedAtMost(s: seq<int>, key: int, v: int)
    requires AtMost(s, v) && key <= v
    ensures AtMost(Inserted(s, key), v)
  {
    if s != [] && s[|s| - 1] > key {
      InsertedAtMost(s[..|s| - 1], key, v);
    }
  }

  lemma {:induction false} InsertedSorted(s: seq<int>, key: int)
    requires Sorted(s)
    ensures Sorted(Inserted(s, key))
  {
    if s != [] {
      var m := |s| - 1;
      SortedShrink(s);
      if s[m] <= key {
        assert AtMost(s, key);
        hide Sorted;
        SortedExtend(s, key);
      } else {
        hide Sorted;
        InsertedSorted(s[..m], key);
        InsertedAtMost(s[..m], key, s[m]);
        SortedExtend(Inserted(s[..m], key), s[m]);
      }
    }
  }

  lemma {:induction false} InsertedContents(s: seq<int>, key: int)
    ensures multiset(Inserted(s, key)) == multiset(s) + multiset{key}
  {
    if s != [] && s[|s| - 1] > key {
      InsertedContents(s[..|s| - 1], key);
      SplitLast(s);
    }
  }

  function SortedCopy(s: seq<int>): (r: seq<int>)
    ensures |r| == |s|
  {
    if |s| <= 1 then s else Inserted(SortedCopy(s[..|s| - 1]), s[|s| - 1])
  }

  lemma {:induction false} SortedCopyCorrect(s: seq<int>)
    ensures Sorted(SortedCopy(s)) && multiset(SortedCopy(s)) == multiset(s)
  {
    if |s| > 1 {
      var m := |s| - 1;
      SortedCopyCorrect(s[..m]);
      InsertedSorted(SortedCopy(s[..m]), s[m]);
      InsertedContents(SortedCopy(s[..m]), s[m]);
      SplitLast(s);
    }
  }

  /** A sorted permutation is unique, so the sort does not depend on the order of its input. */
  lemma {:induction false} SortedUnique(s: seq<int>, t: seq<int>)
    requires Sorted(s) && Sorted(t) && multiset(s) == multiset(t)
    ensures s == t
  {
    SameSize(s, t);
    if s != [] {
      var m := |s| - 1;
      SortedShrink(s);
      SortedShrink(t);
      hide Sorted;
      GreatestIn(s, t);
      GreatestIn(t, s);
      SameRest(s, t);
      SortedUnique(s[..m], t[..m]);
      assert s == s[..m] + [s[m]] && t == t[..m] + [t[m]];
    }
  }

  lemma SameRest(s: seq<int>, t: seq<int>)
    requires |s| == |t| > 0 && multiset(s) == multiset(t) && s[|s| - 1] == t[|t| - 1]
    ensures multiset(s[..|s| - 1]) == multiset(t[..|t| - 1])
  {
    SplitLast(s);
    SplitLast(t);
    var p, q, v := multiset(s[..|s| - 1]), multiset(t[..|t| - 1]), multiset{s[|s| - 1]};
    assert p == p + v - v && q == q + v - v;
  }

  lemma SameSize(s: seq<int>, t: seq<int>)
    requires multiset(s) == multiset(t)
    ensures |s| == |t|
  {
    assert |multiset(s)| == |s| && |multiset(t)| == |t|;
  }

  lemma GreatestIn(s: seq<int>, t: seq<int>)
    requires s != [] && t != [] && multiset(s) == multiset(t) && AtMost(t, t[|t| - 1])
    ensures s[|s| - 1] <= t[|t| - 1]
  {
    assert s[|s| - 1] in multiset(s);
    assert s[|s| - 1] in t;
  }

  method Sort(l: array<int>, n: nat)
    requires 1 <= n <= l.Length
    modifies l
    ensures l[..n] == SortedCopy(old(l[..n])) && l[n..] == old(l[n..])
  {
    ghost var s := l[..n];
    assert l[..1] == s[..1] == SortedCopy(s[..1]);
    for a := 1 to n
      invariant l[..a] == SortedCopy(s[..a])
      invariant forall k :: a <= k < l.Length ==> l[k] == old(l[k])
    {
      assert s[..a + 1][..a] == s[..a];
      InsertAt(l, a);
    }
    assert s[..n] == s;
  }

  /** One pass of the outer loop: entry a moves down past every larger one. */
  method InsertAt(l: array<int>, a: nat)
    requires a < l.Length
    modifies l
    ensures l[..a + 1] == Inserted(old(l[..a]), old(l[a]))
    ensures forall k :: a < k < l.Length ==> l[k] == old(l[k])
  {
    hide Inserted;
    ghost var s := l[..a];
    var key := l[a];
    var b := a;
    while b > 0 && l[b - 1] > key
      invariant 0 <= b <= a
      invariant forall k :: 0 <= k < b ==> l[k] == s[k]
      invariant forall k :: b <= k < a ==> l[k + 1] == s[k] && s[k] > key
      invariant forall k :: a < k < l.Length ==> l[k] == old(l[k])
    {
      l[b] := l[b - 1];
      b := b - 1;
    }
    l[b] := key;
    InsertedIs(s, key, b);
    assert l[..a + 1] == s[..b] + [key] + s[b..];
  }

  lemma {:induction false} InsertedIs(s: seq<int>, key: int, b: nat)
    requires b <= |s| && (b == 0 || s[b - 1] <= key) && forall k :: b <= k < |s| ==> s[k] > key
    ensures Inserted(s, key) == s[..b] + [key] + s[b..]
  {
    if b < |s| {
      var m := |s| - 1;
      InsertedIs(s[..m], key, b);
      assert s[..m][..b] == s[..b];
      assert s[..m][b..] + [s[m]] == s[b..];
    } else {
      assert s[..b] == s && s[b..] == [];
    }
  }
}
