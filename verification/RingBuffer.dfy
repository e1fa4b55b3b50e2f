/**
 The fixed-size sample rings of the vitals code and their ordered copies: 100 heart-band
 residuals and 64 respiration residuals (smart_helmet_vitals.c: SmartHelmet_VitalsPushSensInMvAt,
 shCopySensOrdered, shRespPush, shRespBpm).
 */
module RingBuffer {
  import opened CArithmetic

  /** The last `n` entries of a history, oldest first. */
  function Latest(h: seq<int>, n: nat): (r: seq<int>)
    requires n <= |h|
    ensures |r| == n
  {
    h[|h| - n..]
  }

  predicate IsCapacity(cap: int) { cap == 100 || cap == 64 }

  function Slot(cap: nat, a: nat): (s: nat)
    requires IsCapacity(cap)
    ensures s < cap
  {
    if cap == 100 then a % 100 else a % 64
  }

  /** The ring holds the last `count` entries of the history, each in its own slot. */
  ghost predicate Holds(cap: nat, b: seq<int>, h: seq<int>, count: nat)
    requires IsCapacity(cap)
  {
    && |b| == cap
    && count == Min(|h|, cap)
    && forall a :: |h| - count <= a < |h| ==> b[Slot(cap, a)] == h[a]
  }

  /** Writing the next slot forgets at most the entry that is one full turn old. */
  lemma PushHolds(cap: nat, b: seq<int>, h: seq<int>, count: nat, x: int)
    requires IsCapacity(cap) && Holds(cap, b, h, count)
    ensures Holds(cap, b[Slot(cap, |h|) := x], h + [x], if count < cap then count + 1 else count)
  {
    hide Slot;
    var b' := b[Slot(cap, |h|) := x];
    var h' := h + [x];
    forall a | Max(|h| + 1 - cap, 0) <= a < |h'|
      ensures b'[Slot(cap, a)] == h'[a]
    {
      if a < |h| {
        SlotsDiffer(cap, a, |h|);
        assert h'[a] == h[a];
      }
    }
  }

  /** Reading i slots after the oldest wanted one gives the i-th wanted entry. */
  lemma ReadBack(cap: nat, b: seq<int>, h: seq<int>, count: nat, n: nat, i: nat)
    requires IsCapacity(cap) && Holds(cap, b, h, count) && i < n <= count
    ensures b[Slot(cap, Slot(cap, Slot(cap, |h|) + cap - n) + i)] == Latest(h, n)[i]
  {
    SlotBack(cap, |h|, n, i);
    hide Slot;
    assert Latest(h, n)[i] == h[|h| - n + i];
  }

  lemma SlotsDiffer(cap: nat, a: nat, b: nat)
    requires IsCapacity(cap) && a < b < a + cap
    ensures Slot(cap, a) != Slot(cap, b)
  {
  }

  lemma SlotBack(cap: nat, a: nat, n: nat, i: nat)
    requires IsCapacity(cap) && i < n <= Min(a, cap)
    ensures Slot(cap, Slot(cap, Slot(cap, a) + cap - n) + i) == Slot(cap, a - n + i)
  {
    SlotAdds(cap, Slot(cap, a) + cap - n, i);
    SlotAdds(cap, a, cap - n + i);
    SlotTurn(cap, a - n + i);
    hide Slot;
  }

  lemma SlotAdds(cap: nat, a: nat, k: nat)
    requires IsCapacity(cap)
    ensures Slot(cap, Slot(cap, a) + k) == Slot(cap, a + k)
  {
    if cap == 100 {
      AddsHundred(a / 100, a % 100, k);
    } else {
      AddsSixtyFour(a / 64, a % 64, k);
    }
  }

  lemma AddsHundred(q: nat, r: nat, k: nat)
    ensures (100 * q + r + k) % 100 == (r + k) % 100
  {
  }

  lemma AddsSixtyFour(q: nat, r: nat, k: nat)
    ensures (64 * q + r + k) % 64 == (r + k) % 64
  {
  }

  lemma SlotTurn(cap: nat, a: nat)
    requires IsCapacity(cap)
    ensures Slot(cap, a + cap) == Slot(cap, a)
  {
    AddsHundred(1, a, 0);
    AddsSixtyFour(1, a, 0);
  }

  class Ring {
    const cap: nat
    const buf: array<int>
    var idx: nat
    var count: nat
    ghost var history: seq<int>

    ghost predicate Valid()
      reads this, buf
    {
      && IsCapacity(cap) && buf.Length == cap
      && idx == Slot(cap, |history|)
      && Holds(cap, buf[..], history, count)
    }

    constructor (capacity: nat)
      requires IsCapacity(capacity)
      ensures Valid() && history == [] && fresh(buf) && cap == capacity
    {
      cap := capacity;
      buf := new int[capacity];
      idx, count, history := 0, 0, [];
    }

    method Push(x: int)
      requires Valid()
      modifies this, buf
      ensures Valid() && history == old(history) + [x]
    {
      hide Holds, Slot;
      PushHolds(cap, buf[..], history, count, x);
      SlotAdds(cap, |history|, 1);
      buf[idx] := x;
      idx := Slot(cap, idx + 1);
      if count < cap {
        count := count + 1;
      }
      history := history + [x];
    }

    /** The ring is emptied and zeroed. */
    method Clear()
      requires IsCapacity(cap) && buf.Length == cap
      modifies this, buf
      ensures Valid() && history == []
    {
      for i := 0 to buf.Length {
        buf[i] := 0;
      }
      idx, count, history := 0, 0, [];
    }

    /** The unwrapping copy: the oldest of the last n entries comes first. */
    method CopyLatest(n: nat, into: array<int>)
      requires Valid() && n <= count && into != buf && into.Length == cap
      modifies into
      ensures Valid() && history == old(history)
      ensures n <= |history| && into[..n] == Latest(history, n)
    {
      hide Latest;
      assert count <= cap && count <= |history|;
      hide Holds, Slot;
      var start := Slot(cap, idx + cap - n);
      ghost var source := Latest(history, n);
      for i := 0 to n
        invariant into[..i] == source[..i]
      {
        ReadBack(cap, buf[..], history, count, n, i);
        into[i] := buf[Slot(cap, start + i)];
      }
    }
  }
}
