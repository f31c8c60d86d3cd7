/**
 * The technician roster: one record per row of the roster file, and the
 * preference order the agent uses to pick a technician for a problem type.
 */
module Roster {
  import opened Text
  import opened Wrappers

  /** A roster row. Every field is the raw text of its column. */
  datatype Technician = Technician(
    name: string,
    contact: string,
    skillset: string,
    problemType: string,
    availability: string)

  /** The technician's specialty, compared after stripping, is `ptype`. */
  predicate Specialises(t: Technician, ptype: string) {
    Strip(t.problemType) == ptype
  }

  /** The technician's availability, compared after stripping, is round the clock. */
  predicate AlwaysOn(t: Technician) {
    Strip(t.availability) == "24x7"
  }

  /** How well a technician suits `ptype`: 1 for a round-the-clock specialist,
      2 for any other specialist, 3 for a round-the-clock non-specialist, 4 for
      everyone else. */
  function Rank(t: Technician, ptype: string): (k: nat)
    ensures 1 <= k <= 4
    ensures k <= 2 <==> Specialises(t, ptype)
    ensures (k == 1 || k == 3) <==> AlwaysOn(t)
  {
    if Specialises(t, ptype) && AlwaysOn(t) then 1
    else if Specialises(t, ptype) then 2
    else if AlwaysOn(t) then 3
    else 4
  }

  /** `roster[i]` is the first technician of the best rank present. */
  ghost predicate BestAt(roster: seq<Technician>, ptype: string, i: nat) {
    i < |roster|
    && (forall j :: 0 <= j < |roster| ==> Rank(roster[i], ptype) <= Rank(roster[j], ptype))
    && (forall j :: 0 <= j < i ==> Rank(roster[i], ptype) < Rank(roster[j], ptype))
  }

  /** At most one position is the first of the best rank. */
  lemma BestAtUnique(roster: seq<Technician>, ptype: string, i: nat, j: nat)
    requires BestAt(roster, ptype, i) && BestAt(roster, ptype, j)
    ensures i == j
  {
    assert Rank(roster[i], ptype) <= Rank(roster[j], ptype) <= Rank(roster[i], ptype);
  }

  /** The ranks of the roster's technicians, in roster order. */
  function Ranks(roster: seq<Technician>, ptype: string): (ks: seq<nat>)
    ensures |ks| == |roster|
    ensures forall j :: 0 <= j < |roster| ==> ks[j] == Rank(roster[j], ptype)
  {
    seq(|roster|, j requires 0 <= j < |roster| => Rank(roster[j], ptype))
  }

  /** The first position of the least value among the first `n` of `ks`. */
  function FirstMin(ks: seq<nat>, n: nat): (i: nat)
    requires 0 < n <= |ks|
    ensures i < n
    ensures forall j :: 0 <= j < n ==> ks[i] <= ks[j]
    ensures forall j :: 0 <= j < i ==> ks[i] < ks[j]
  {
    if n == 1 then 0
    else
      var b := FirstMin(ks, n - 1);
      if ks[n - 1] < ks[b] then n - 1 else b
  }

  /** The technician the agent prefers for `ptype`: none for an empty roster,
      otherwise the first one of the best rank. */
  function Preferred(roster: seq<Technician>, ptype: string): (r: Option<Technician>)
    ensures r.None? <==> roster == []
    ensures r.Some? ==> exists i: nat :: BestAt(roster, ptype, i) && r.value == roster[i]
  {
    if roster == [] then None
    else
      var ks := Ranks(roster, ptype);
      var i := FirstMin(ks, |ks|);
      assert BestAt(roster, ptype, i);
      Some(roster[i])
  }

  /** A round-the-clock specialist, when there is one, is preferred; failing
      that a specialist; failing that a round-the-clock technician. */
  lemma PreferenceOrder(roster: seq<Technician>, ptype: string, k: nat)
    requires k < |roster|
    ensures Rank(Preferred(roster, ptype).value, ptype) <= Rank(roster[k], ptype)
    ensures Specialises(roster[k], ptype) ==> Specialises(Preferred(roster, ptype).value, ptype)
    ensures AlwaysOn(roster[k]) && Specialises(roster[k], ptype) ==>
      AlwaysOn(Preferred(roster, ptype).value) && Specialises(Preferred(roster, ptype).value, ptype)
  {
    var t := Preferred(roster, ptype).value;
    var i: nat :| BestAt(roster, ptype, i) && t == roster[i];
    var best, other := Rank(t, ptype), Rank(roster[k], ptype);
    assert best <= other;
  }

  /** The preferred technician is exactly the first one of the best rank. */
  lemma PreferredIsBest(roster: seq<Technician>, ptype: string, i: nat)
    requires BestAt(roster, ptype, i)
    ensures Preferred(roster, ptype) == Some(roster[i])
  {
    var j: nat :| BestAt(roster, ptype, j) && Preferred(roster, ptype).value == roster[j];
    BestAtUnique(roster, ptype, i, j);
  }
}
