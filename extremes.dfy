/** Largest and smallest value of a non-empty list, folded left to right. */
module Extremes {
  function Max(s: seq<real>): real
    requires s != []
  {
    if |s| == 1 then s[0]
    else
      var m := Max(s[..|s| - 1]);
      if s[|s| - 1] > m then s[|s| - 1] else m
  }

  function Min(s: seq<real>): real
    requires s != []
  {
    if |s| == 1 then s[0]
    else
      var m := Min(s[..|s| - 1]);
      if s[|s| - 1] < m then s[|s| - 1] else m
  }

  /** Appending a value keeps the maximum unless the value exceeds it. */
  lemma MaxStep(s: seq<real>, x: real)
    ensures Max(s + [x]) == if s == [] || x > Max(s) then x else Max(s)
  {
    assert (s + [x])[..|s|] == s;
  }

  /** Appending a value keeps the minimum unless the value undercuts it. */
  lemma MinStep(s: seq<real>, x: real)
    ensures Min(s + [x]) == if s == [] || x < Min(s) then x else Min(s)
  {
    assert (s + [x])[..|s|] == s;
  }

  /** Max is an element and bounds every element from above. */
  lemma {:induction false} MaxIsGreatest(s: seq<real>)
    requires s != []
    ensures Max(s) in s
    ensures forall i :: 0 <= i < |s| ==> s[i] <= Max(s)
  {
    if |s| > 1 {
      var init := s[..|s| - 1];
      MaxIsGreatest(init);
      assert forall i :: 0 <= i < |s| - 1 ==> s[i] == init[i];
    }
  }

  /** Min is an element and bounds every element from below. */
  lemma {:induction false} MinIsLeast(s: seq<real>)
    requires s != []
    ensures Min(s) in s
    ensures forall i :: 0 <= i < |s| ==> Min(s) <= s[i]
  {
    if |s| > 1 {
      var init := s[..|s| - 1];
      MinIsLeast(init);
      assert forall i :: 0 <= i < |s| - 1 ==> s[i] == init[i];
    }
  }
}
