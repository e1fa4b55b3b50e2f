/**
 The thermistor lookup (peripherals/thermistor.c). The table falls in voltage as the temperature
 rises; the search starts at the previous answer and walks in the direction of the change.
 */
module Thermistor {
  import opened CArithmetic

  /** A table whose first entry belongs to `tMin` degrees; temperatures are int8. */
  datatype Table = Table(mv: seq<nat>, tMin: int) {
    ghost predicate Valid() { |mv| > 0 && -128 <= tMin && tMax() <= 127 }
    function tMax(): int { tMin + |mv| - 1 }
  }

  function Clamp(t: Table, celsius: int): (r: int)
    requires |t.mv| > 0
    ensures t.tMin <= r <= t.tMax() && (t.tMin <= celsius <= t.tMax() ==> r == celsius)
  {
    Max(Min(celsius, t.tMax()), t.tMin)
  }

  /** appThermistorDegreesCelsiusToMillivolts */
  function ToMillivolts(t: Table, celsius: int): nat
    requires |t.mv| > 0
  {
    t.mv[Clamp(t, celsius) - t.tMin]
  }

  /** The plain scan: the first entry at or after `i` not above `mv`, the last entry if there is none. */
  function ScanFrom(table: seq<nat>, mv: nat, i: nat): (r: nat)
    requires |table| > 0 && i <= |table|
    ensures r < |table|
    decreases |table| - i
  {
    if i == |table| then |table| - 1 else if mv >= table[i] then i else ScanFrom(table, mv, i + 1)
  }

  /** Walk back to the entry that brackets `mv` with its predecessor. */
  function ScanBack(table: seq<nat>, mv: nat, i: nat): (r: nat)
    requires i < |table|
    ensures r <= i
  {
    if i == 0 then 0 else if mv >= table[i] && mv < table[i - 1] then i else ScanBack(table, mv, i - 1)
  }

  /** What the search from a previous index finds, for any table. */
  function SearchFrom(table: seq<nat>, mv: nat, p: nat): (r: nat)
    requires p < |table|
    ensures r < |table|
  {
    if mv < table[p] then ScanFrom(table, mv, p + 1) else ScanBack(table, mv, p)
  }

  /** appThermistorMillivoltsToDegreesCelsius */
  method ToCelsius(t: Table, mv: nat, previous: int) returns (celsius: int)
    requires t.Valid()
    ensures celsius == t.tMin + SearchFrom(t.mv, mv, Clamp(t, previous) - t.tMin)
    ensures t.tMin <= celsius <= t.tMax()
  {
    var prevIndex := Clamp(t, previous) - t.tMin;
    var prevMv := t.mv[prevIndex];
    if mv < prevMv {
      var i := prevIndex + 1;
      while i < |t.mv|
        invariant prevIndex < i <= |t.mv|
        invariant ScanFrom(t.mv, mv, i) == ScanFrom(t.mv, mv, prevIndex + 1)
      {
        var thisMv := t.mv[i];
        if mv >= thisMv {
          return t.tMin + i;
        }
        i := i + 1;
      }
      return t.tMax();
    } else {
      var i := prevIndex;
      while i > 0
        invariant 0 <= i <= prevIndex && prevMv == t.mv[i]
        invariant ScanBack(t.mv, mv, i) == ScanBack(t.mv, mv, prevIndex)
      {
        var thisMv := prevMv;
        prevMv := t.mv[i - 1];
        if mv >= thisMv && mv < prevMv {
          return t.tMin + i;
        }
        i := i - 1;
      }
      return t.tMin;
    }
  }

  ghost predicate Falling(table: seq<nat>) {
    forall i, j :: 0 <= i < j < |table| ==> table[i] >= table[j]
  }

  ghost predicate StrictlyFalling(table: seq<nat>) {
    forall i, j :: 0 <= i < j < |table| ==> table[i] > table[j]
  }

  /** The least entry not above `mv` - the temperature is rounded up - or the last one. */
  ghost predicate IsFirst(table: seq<nat>, mv: nat, r: nat) {
    && r < |table|
    && (forall i :: 0 <= i < r ==> mv < table[i])
    && (mv >= table[r] || r == |table| - 1)
  }

  lemma {:induction false} ScanFromIsFirst(table: seq<nat>, mv: nat, i: nat)
    requires |table| > 0 && i <= |table| && forall k :: 0 <= k < i ==> mv < table[k]
    ensures IsFirst(table, mv, ScanFrom(table, mv, i))
    decreases |table| - i
  {
    if i < |table| && mv < table[i] {
      ScanFromIsFirst(table, mv, i + 1);
    }
  }

  lemma {:induction false} ScanBackIsFirst(table: seq<nat>, mv: nat, i: nat)
    requires Falling(table) && i < |table| && mv >= table[i]
    ensures IsFirst(table, mv, ScanBack(table, mv, i))
  {
    if i > 0 && mv >= table[i - 1] {
      ScanBackIsFirst(table, mv, i - 1);
    }
  }

  lemma FirstIsUnique(table: seq<nat>, mv: nat, r: nat, r': nat)
    requires IsFirst(table, mv, r) && IsFirst(table, mv, r')
    ensures r == r'
  {
  }

  /** On a falling table the search finds what a plain scan from the start finds. */
  lemma SearchIsScan(table: seq<nat>, mv: nat, p: nat)
    requires Falling(table) && p < |table|
    ensures IsFirst(table, mv, SearchFrom(table, mv, p))
    ensures SearchFrom(table, mv, p) == ScanFrom(table, mv, 0)
  {
    if mv < table[p] {
      ScanFromIsFirst(table, mv, p + 1);
    } else {
      ScanBackIsFirst(table, mv, p);
    }
    ScanFromIsFirst(table, mv, 0);
    FirstIsUnique(table, mv, SearchFrom(table, mv, p), ScanFrom(table, mv, 0));
  }

  /** The answer never depends on the previous temperature. */
  ghost predicate HistoryFree(table: seq<nat>) {
    forall mv: nat, p, q :: 0 <= p < |table| && 0 <= q < |table| ==>
      SearchFrom(table, mv, p) == SearchFrom(table, mv, q)
  }

  /** Starting from the previous answer is safe for exactly the falling tables. */
  lemma HistoryFreeIffFalling(table: seq<nat>)
    ensures HistoryFree(table) <==> Falling(table)
  {
    if Falling(table) {
      forall mv: nat, p, q | 0 <= p < |table| && 0 <= q < |table|
        ensures SearchFrom(table, mv, p) == SearchFrom(table, mv, q)
      {
        SearchIsScan(table, mv, p);
        SearchIsScan(table, mv, q);
      }
    } else {
      var i := RisingStep(table);
      ScanForward(table, table[i], i + 2);
      assert SearchFrom(table, table[i], i) <= i < SearchFrom(table, table[i], i + 1);
    }
  }

  /** A table that does not fall rises at some adjacent pair. */
  lemma RisingStep(table: seq<nat>) returns (i: nat)
    requires !Falling(table)
    ensures i + 1 < |table| && table[i] < table[i + 1]
  {
    var a, b :| 0 <= a < b < |table| && table[a] < table[b];
    i := a;
    while table[i] >= table[i + 1]
      invariant a <= i < b && table[i] <= table[a]
      decreases b - i
    {
      if i + 1 == b {
        assert false;
      }
      i := i + 1;
    }
  }

  lemma {:induction false} ScanForward(table: seq<nat>, mv: nat, i: nat)
    requires 2 <= i <= |table|
    ensures ScanFrom(table, mv, i) >= i - 1
    decreases |table| - i
  {
    if i < |table| {
      ScanForward(table, mv, i + 1);
    }
  }

  /** A higher voltage never reads as a higher temperature. */
  lemma Antitone(table: seq<nat>, mv: nat, mv': nat, p: nat, p': nat)
    requires Falling(table) && p < |table| && p' < |table| && mv <= mv'
    ensures SearchFrom(table, mv', p') <= SearchFrom(table, mv, p)
  {
    SearchIsScan(table, mv, p);
    SearchIsScan(table, mv', p');
  }

  /** The two conversions are inverse up to clamping, whatever the previous temperature was. */
  lemma RoundTrip(t: Table, celsius: int, previous: int)
    requires |t.mv| > 0 && StrictlyFalling(t.mv)
    ensures t.tMin + SearchFrom(t.mv, ToMillivolts(t, celsius), Clamp(t, previous) - t.tMin) == Clamp(t, celsius)
  {
    var i := Clamp(t, celsius) - t.tMin;
    SearchIsScan(t.mv, t.mv[i], Clamp(t, previous) - t.tMin);
    FirstIsUnique(t.mv, t.mv[i], i, SearchFrom(t.mv, t.mv[i], Clamp(t, previous) - t.tMin));
  }
}
