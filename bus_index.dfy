/**
  Index bookkeeping of the Newton-Raphson solver: the bus type of every row,
  `np.where(tipo == t)[0]`, and the two lists of unknowns, angles of the PQ
  buses followed by the PV buses, and magnitudes of the PQ buses.
*/
module BusIndex {
  import opened Network

  /** The bus type column, one entry per bus. */
  function Tags(buses: seq<Bus>): (tags: seq<int>)
    ensures |tags| == |buses|
    ensures forall i :: 0 <= i < |buses| ==> tags[i] == buses[i].tag
  {
    seq(|buses|, i requires 0 <= i < |buses| => buses[i].tag)
  }

  predicate Increasing(s: seq<nat>) {
    forall a, b :: 0 <= a < b < |s| ==> s[a] < s[b]
  }

  /** `np.where(tags == t)[0]`: the positions holding `t`, in increasing order, and no others. */
  function Where(tags: seq<int>, t: int): (r: seq<nat>)
    ensures forall a :: 0 <= a < |r| ==> r[a] < |tags| && tags[r[a]] == t
    ensures forall i :: 0 <= i < |tags| && tags[i] == t ==> i in r
    ensures Increasing(r)
  {
    if |tags| == 0 then []
    else
      var last := |tags| - 1;
      var front := Where(tags[..last], t);
      if tags[last] == t then front + [last] else front
  }

  /** `var_theta`: the buses whose angle is an unknown, PQ buses first, then PV buses. */
  function VarTheta(tags: seq<int>): seq<nat> {
    Where(tags, PQ) + Where(tags, PV)
  }

  /** `var_V`: the buses whose magnitude is an unknown, the PQ buses. */
  function VarV(tags: seq<int>): seq<nat> {
    Where(tags, PQ)
  }

  predicate Distinct(s: seq<nat>) {
    forall a, b :: 0 <= a < |s| && 0 <= b < |s| && a != b ==> s[a] != s[b]
  }

  /** A list of bus positions that names every bus at most once and stays within the table. */
  predicate IndexList(s: seq<nat>, n: nat) {
    Distinct(s) && forall a :: 0 <= a < |s| ==> s[a] < n
  }

  /** A strictly increasing list names no position twice. */
  lemma {:induction false} IncreasingIsDistinct(s: seq<nat>)
    requires Increasing(s)
    ensures Distinct(s)
  {
    forall a, b | 0 <= a < |s| && 0 <= b < |s| && a != b
      ensures s[a] != s[b]
    {
      if a < b { assert s[a] < s[b]; } else { assert s[b] < s[a]; }
    }
  }

  /** Every angle unknown is a bus of the table, named once. */
  lemma {:induction false} VarThetaIsIndexList(tags: seq<int>)
    ensures IndexList(VarTheta(tags), |tags|)
  {
    var pq := Where(tags, PQ);
    var pv := Where(tags, PV);
    var vt := pq + pv;
    IncreasingIsDistinct(pq);
    IncreasingIsDistinct(pv);
    forall a, b | 0 <= a < |vt| && 0 <= b < |vt| && a != b
      ensures vt[a] != vt[b]
    {
      if a < |pq| && b < |pq| {
        assert pq[a] != pq[b];
      } else if a >= |pq| && b >= |pq| {
        assert pv[a - |pq|] != pv[b - |pq|];
      } else if a < |pq| {
        assert tags[vt[a]] == PQ && tags[vt[b]] == PV;
      } else {
        assert tags[vt[a]] == PV && tags[vt[b]] == PQ;
      }
    }
  }

  /** A bus is an angle unknown exactly when it is a PQ or a PV bus. */
  lemma {:induction false} VarThetaMembers(tags: seq<int>)
    ensures forall i :: 0 <= i < |tags| ==> (i in VarTheta(tags) <==> tags[i] == PQ || tags[i] == PV)
  {
    var pq := Where(tags, PQ);
    var pv := Where(tags, PV);
    var vt := pq + pv;
    forall i | 0 <= i < |tags| && (tags[i] == PQ || tags[i] == PV)
      ensures i in vt
    {
      if tags[i] == PQ { assert i in pq; } else { assert i in pv; }
    }
    forall i | 0 <= i < |tags| && i in vt
      ensures tags[i] == PQ || tags[i] == PV
    {
      var a :| 0 <= a < |vt| && vt[a] == i;
      if a < |pq| { assert tags[pq[a]] == PQ; } else { assert tags[pv[a - |pq|]] == PV; }
    }
  }

  /** A bus is a magnitude unknown exactly when it is a PQ bus. */
  lemma {:induction false} VarVMembers(tags: seq<int>)
    ensures forall i :: 0 <= i < |tags| ==> (i in VarV(tags) <==> tags[i] == PQ)
  {
    var pq := Where(tags, PQ);
    forall i | 0 <= i < |tags| && i in pq
      ensures tags[i] == PQ
    {
      var a :| 0 <= a < |pq| && pq[a] == i;
    }
  }

  /**
    The angle unknowns are exactly the PQ and PV buses and the magnitude
    unknowns exactly the PQ buses, each named once; the slack bus is in
    neither list. Within each type the buses keep table order, and every
    PQ angle comes before every PV angle.
  */
  lemma {:induction false} UnknownsArePqAndPv(tags: seq<int>)
    ensures IndexList(VarTheta(tags), |tags|) && IndexList(VarV(tags), |tags|)
    ensures forall i :: 0 <= i < |tags| ==> (i in VarTheta(tags) <==> tags[i] == PQ || tags[i] == PV)
    ensures forall i :: 0 <= i < |tags| ==> (i in VarV(tags) <==> tags[i] == PQ)
    ensures VarTheta(tags)[..|VarV(tags)|] == VarV(tags)
    ensures forall a :: 0 <= a < |VarTheta(tags)| ==>
      (a < |VarV(tags)| <==> tags[VarTheta(tags)[a]] == PQ)
  {
    VarThetaIsIndexList(tags);
    IncreasingIsDistinct(Where(tags, PQ));
    VarThetaMembers(tags);
    VarVMembers(tags);
    var pq := Where(tags, PQ);
    assert VarTheta(tags)[..|pq|] == pq;
  }
}
