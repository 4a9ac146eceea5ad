/** Lists of row numbers and the sets they name. */
module Sequences {

  function Elements(s: seq<nat>): set<nat> {
    set x | x in s
  }

  ghost predicate NoRepeats(s: seq<nat>) {
    forall j, k :: 0 <= j < k < |s| ==> s[j] != s[k]
  }

  lemma ElementsSnoc(s: seq<nat>, y: nat)
    ensures Elements(s + [y]) == Elements(s) + {y}
  {
  }

  lemma ElementAt(s: seq<nat>, x: nat) returns (k: nat)
    requires x in Elements(s)
    ensures k < |s| && s[k] == x
  {
    k :| k < |s| && s[k] == x;
  }

  lemma {:induction false} CountElements(s: seq<nat>)
    requires NoRepeats(s)
    ensures |Elements(s)| == |s|
  {
    if s != [] {
      var n := |s| - 1;
      CountElements(s[..n]);
      ElementsSnoc(s[..n], s[n]);
      assert s[..n] + [s[n]] == s;
      assert forall k :: 0 <= k < n ==> s[..n][k] == s[k];
    }
  }
}
