/** Small facts about finite sets. */
module Sets {

  lemma OnlyMember(s: set<nat>, x: nat)
    requires x in s && |s| <= 1
    ensures s == {x}
  {
    assert |s - {x}| == |s| - 1;
  }

  lemma TwoMembers(s: set<nat>) returns (x: nat, y: nat)
    requires |s| > 1
    ensures x in s && y in s && x != y
  {
    x :| x in s;
    assert |s - {x}| == |s| - 1;
    y :| y in s - {x};
  }
}
