/** Substring search, as Python's `str.find` performs it. */
module Strings {

  /** `sub` occurs in `s` starting at index `i`. */
  predicate OccursAt(s: string, sub: string, i: nat)
  {
    i + |sub| <= |s| && s[i..i + |sub|] == sub
  }

  /** `sub` occurs somewhere in `s`. */
  ghost predicate Contains(s: string, sub: string)
  {
    exists i: nat :: OccursAt(s, sub, i)
  }

  lemma ShiftOccurs(s: string, sub: string, j: nat)
    requires |s| > 0
    ensures OccursAt(s[1..], sub, j) <==> OccursAt(s, sub, j + 1)
  {
    if j + 1 + |sub| <= |s| {
      assert s[1..][j..j + |sub|] == s[j + 1..j + 1 + |sub|];
    }
  }

  /**
   * `s.find(sub)`: the lowest index at which `sub` occurs in `s`, or -1 when
   * it occurs nowhere.
   */
  function Find(s: string, sub: string): (r: int)
    ensures -1 <= r
    ensures r >= 0 ==> OccursAt(s, sub, r)
    ensures r >= 0 ==> forall j: nat :: j < r ==> !OccursAt(s, sub, j)
    ensures r < 0 ==> forall j: nat :: !OccursAt(s, sub, j)
    decreases |s|
  {
    if OccursAt(s, sub, 0) then 0
    else if |s| <= |sub| then
      assert forall j: nat :: j > 0 ==> !OccursAt(s, sub, j);
      -1
    else
      var k := Find(s[1..], sub);
      assert forall j: nat :: 0 < j ==> (OccursAt(s, sub, j) <==> OccursAt(s[1..], sub, j - 1)) by {
        forall j: nat | 0 < j ensures OccursAt(s, sub, j) <==> OccursAt(s[1..], sub, j - 1) {
          ShiftOccurs(s, sub, j - 1);
        }
      }
      if k < 0 then -1 else k + 1
  }

  /** `s.find(sub) >= 0` is exactly "`sub` is a substring of `s`". */
  lemma FindFindsExactly(s: string, sub: string)
    ensures Find(s, sub) >= 0 <==> Contains(s, sub)
  {
    if Find(s, sub) >= 0 {
      assert OccursAt(s, sub, Find(s, sub) as nat);
    }
  }
}
