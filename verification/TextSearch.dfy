/**
 Case-insensitive substring search over received bytes (smart_helmet_uart.c, shContainsFold)
 and the loose IPv6 test built on it (shIpv6Like).
 */
module TextSearch {

  /** ASCII upper case folded to lower case, every other byte unchanged. */
  function Fold(c: char): char {
    if 'A' <= c <= 'Z' then c - 'A' + 'a' else c
  }

  predicate MatchesAt(data: string, needle: string, i: nat) {
    && i + |needle| <= |data|
    && forall j :: 0 <= j < |needle| ==> Fold(data[i + j]) == Fold(needle[j])
  }

  /** `needle` occurs somewhere in `data` up to case; the empty needle never does. */
  predicate ContainsFold(data: string, needle: string) {
    needle != "" && exists i :: 0 <= i <= |data| && MatchesAt(data, needle, i)
  }

  /** The firmware's two nested scans decide exactly that. */
  method FindFold(data: string, needle: string) returns (found: bool)
    ensures found <==> ContainsFold(data, needle)
  {
    var n := |needle|;
    if n == 0 || |data| < n {
      return false;
    }
    var i := 0;
    while i + n <= |data|
      invariant 0 <= i <= |data|
      invariant forall k :: 0 <= k < i ==> !MatchesAt(data, needle, k)
    {
      var match_ := true;
      var j := 0;
      while j < n
        invariant 0 <= j <= n
        invariant forall k :: 0 <= k < j ==> Fold(data[i + k]) == Fold(needle[k])
      {
        if Fold(data[i + j]) != Fold(needle[j]) {
          match_ := false;
          break;
        }
        j := j + 1;
      }
      if match_ {
        assert MatchesAt(data, needle, i);
        return true;
      }
      assert !MatchesAt(data, needle, i);
      i := i + 1;
    }
    return false;
  }

  /** Case of either text does not matter. */
  lemma FoldBlind(data: string, data': string, needle: string)
    requires |data| == |data'| && forall i :: 0 <= i < |data| ==> Fold(data[i]) == Fold(data'[i])
    ensures ContainsFold(data, needle) <==> ContainsFold(data', needle)
  {
    forall i: nat | i <= |data|
      ensures MatchesAt(data, needle, i) == MatchesAt(data', needle, i)
    {
    }
  }

  predicate IsHex(c: char) {
    '0' <= c <= '9' || 'a' <= c <= 'f' || 'A' <= c <= 'F'
  }

  function Count(data: string, p: char -> bool): nat {
    if data == "" then 0 else Count(data[..|data| - 1], p) + if p(data[|data| - 1]) then 1 else 0
  }

  /** shIpv6Like; both counters are 8 bits wide and wrap. */
  predicate Ipv6Like(data: string) {
    Count(data, c => c == ':') % 256 >= 2 && Count(data, IsHex) % 256 >= 4 && ContainsFold(data, "fe80")
  }
}
