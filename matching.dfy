/** Donor selection of the alert handler: the `donors` query filtered on
    `blood_group` and `is_active`. The query sets no order; the model returns
    rows in table order. */
module Matching {
  import opened Records

  /** The two equality filters of the donor query. */
  predicate Eligible(d: Donor, group: BloodGroup) {
    d.bloodGroup == group && d.isActive
  }

  /** The rows the donor query returns, in the model's table order. */
  function MatchDonors(donors: seq<Donor>, group: BloodGroup): (matched: seq<Donor>)
    ensures |matched| <= |donors|
    ensures forall d :: d in matched <==> d in donors && Eligible(d, group)
  {
    if donors == [] then []
    else if Eligible(donors[0], group) then [donors[0]] + MatchDonors(donors[1..], group)
    else MatchDonors(donors[1..], group)
  }

  /** Matching a concatenation matches each part in turn: in the model the
      query keeps table order. MatchMultiplicity states what holds whatever
      order the store chooses. */
  lemma {:induction false} MatchAppend(a: seq<Donor>, b: seq<Donor>, group: BloodGroup)
    ensures MatchDonors(a + b, group) == MatchDonors(a, group) + MatchDonors(b, group)
  {
    if a == [] {
      assert a + b == b;
    } else {
      assert (a + b)[0] == a[0];
      assert (a + b)[1..] == a[1..] + b;
      MatchAppend(a[1..], b, group);
    }
  }

  /** Each eligible row is returned as many times as it occurs in the table,
      and an ineligible one never. */
  lemma {:induction false} MatchMultiplicity(donors: seq<Donor>, group: BloodGroup, d: Donor)
    ensures multiset(MatchDonors(donors, group))[d] == if Eligible(d, group) then multiset(donors)[d] else 0
  {
    if donors != [] {
      assert donors == [donors[0]] + donors[1..];
      MatchMultiplicity(donors[1..], group, d);
    }
  }

  /** An active donor of another group and an inactive donor of the right
      group are both left out; only the active donor of the right group is
      selected. */
  lemma ScenarioOnlyActiveSameGroup()
    ensures
      var first := Donor("d1", "A", "+1", OPos, "c", true);
      var inactive := Donor("d2", "B", "+2", OPos, "c", false);
      var other := Donor("d3", "C", "+3", APos, "c", true);
      MatchDonors([first, inactive, other], OPos) == [first]
  {
    var first := Donor("d1", "A", "+1", OPos, "c", true);
    var inactive := Donor("d2", "B", "+2", OPos, "c", false);
    var other := Donor("d3", "C", "+3", APos, "c", true);
    MatchAppend([first], [inactive, other], OPos);
    MatchAppend([inactive], [other], OPos);
    assert [first] + [inactive, other] == [first, inactive, other];
    assert [inactive] + [other] == [inactive, other];
  }
}
