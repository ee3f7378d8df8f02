/** `buildFairShares`: every member's total fair share over all expenses. */
module FairShares {
  import opened Sums
  import opened Ids
  import opened Shares
  import opened Allocations

  function Participants(members: seq<UserId>, a: Allocation): seq<UserId> {
    if a.users == [] then members else a.users
  }

  /** What each participant is charged for one expense. */
  function Charges(members: seq<UserId>, a: Allocation): (r: seq<int>)
    requires WellFormed(a)
    ensures |r| == |Participants(members, a)|
  {
    Split(a.amount, if a.users == [] then Ones(|members|) else a.weights)
  }

  predicate WellFormed(a: Allocation) {
    |a.users| == |a.weights|
  }

  predicate AllWellFormed(allocs: seq<Allocation>) {
    forall i :: 0 <= i < |allocs| ==> WellFormed(allocs[i])
  }

  /** The part of these charges that falls on u. */
  function ChargedTo(users: seq<UserId>, shares: seq<int>, u: UserId): int
    requires |users| == |shares|
  {
    if users == [] then 0
    else
      var n := |users| - 1;
      ChargedTo(users[..n], shares[..n], u) + if users[n] == u then shares[n] else 0
  }

  function OwedIn(members: seq<UserId>, a: Allocation, u: UserId): int
    requires WellFormed(a)
  {
    ChargedTo(Participants(members, a), Charges(members, a), u)
  }

  /** What u owes for each expense. */
  function OwedEach(members: seq<UserId>, allocs: seq<Allocation>, u: UserId): (r: seq<int>)
    requires AllWellFormed(allocs)
    ensures |r| == |allocs|
  {
    seq(|allocs|, i requires 0 <= i < |allocs| => OwedIn(members, allocs[i], u))
  }

  /** What u owes over all expenses. */
  function Owed(members: seq<UserId>, allocs: seq<Allocation>, u: UserId): int
    requires AllWellFormed(allocs)
  {
    Sum(OwedEach(members, allocs, u))
  }

  function Named(allocs: seq<Allocation>): set<UserId> {
    if allocs == [] then {}
    else
      var n := |allocs| - 1;
      Named(allocs[..n]) + set u | u in allocs[n].users
  }

  lemma ChargedSnoc(users: seq<UserId>, shares: seq<int>, i: nat, u: UserId)
    requires |users| == |shares| && i < |users|
    ensures ChargedTo(users[..i+1], shares[..i+1], u) ==
            ChargedTo(users[..i], shares[..i], u) + if users[i] == u then shares[i] else 0
  {
    assert users[..i+1][..i] == users[..i] && shares[..i+1][..i] == shares[..i];
  }

  function Balance(fair: map<UserId, int>, u: UserId): int {
    if u in fair then fair[u] else 0
  }

  /** The inner loop: the shares of one expense are added to the map. */
  method AddCharges(fair: map<UserId, int>, users: seq<UserId>, shares: seq<int>)
    returns (fair': map<UserId, int>)
    requires |users| == |shares|
    ensures fair'.Keys == fair.Keys + set u | u in users
    ensures forall u :: Balance(fair', u) == Balance(fair, u) + ChargedTo(users, shares, u)
  {
    fair' := fair;
    var i := 0;
    while i < |users|
      invariant 0 <= i <= |users|
      invariant fair'.Keys == fair.Keys + set u | u in users[..i]
      invariant forall u :: Balance(fair', u) == Balance(fair, u) + ChargedTo(users[..i], shares[..i], u)
    {
      var u := users[i];
      ghost var before := fair';
      fair' := fair'[u := Balance(fair', u) + shares[i]];
      forall v
        ensures Balance(fair', v) == Balance(fair, v) + ChargedTo(users[..i+1], shares[..i+1], v)
      {
        ChargedSnoc(users, shares, i, v);
        assert Balance(before, v) == Balance(fair, v) + ChargedTo(users[..i], shares[..i], v);
      }
      assert users[..i+1] == users[..i] + [u];
      i := i + 1;
    }
    assert users[..i] == users && shares[..i] == shares;
  }

  lemma OwedSnoc(members: seq<UserId>, allocs: seq<Allocation>, i: nat, u: UserId)
    requires i < |allocs| && AllWellFormed(allocs)
    ensures Owed(members, allocs[..i+1], u) == Owed(members, allocs[..i], u) + OwedIn(members, allocs[i], u)
  {
    assert OwedEach(members, allocs[..i+1], u)[..i] == OwedEach(members, allocs[..i], u);
  }

  lemma NamedSnoc(allocs: seq<Allocation>, i: nat)
    requires i < |allocs|
    ensures Named(allocs[..i+1]) == Named(allocs[..i]) + set v | v in allocs[i].users
  {
    assert allocs[..i+1][..i] == allocs[..i];
  }

  /** The loop body: one expense is split and charged. */
  method ChargeExpense(fair: map<UserId, int>, memberIDs: seq<UserId>, a: Allocation)
    returns (fair': map<UserId, int>)
    requires WellFormed(a)
    ensures fair'.Keys == fair.Keys + set u | u in Participants(memberIDs, a)
    ensures forall u :: Balance(fair', u) == Balance(fair, u) + OwedIn(memberIDs, a, u)
  {
    var users, weights := a.users, a.weights;
    if |users| == 0 {
      users, weights := memberIDs, seq(|memberIDs|, _ => 1);
      assert weights == Ones(|memberIDs|);
    }
    var shares := WeightedShares(a.amount, weights);
    assert shares == Charges(memberIDs, a) && users == Participants(memberIDs, a);
    fair' := AddCharges(fair, users, shares);
  }

  method BuildFairShares(memberIDs: seq<UserId>, allocs: seq<Allocation>)
    returns (fair: map<UserId, int>)
    requires AllWellFormed(allocs)
    ensures fair.Keys == (set m | m in memberIDs) + Named(allocs)
    ensures forall u :: Balance(fair, u) == Owed(memberIDs, allocs, u)
  {
    fair := map[];
    var k := 0;
    while k < |memberIDs|
      invariant 0 <= k <= |memberIDs|
      invariant fair == map m | m in memberIDs[..k] :: 0
    {
      fair := fair[memberIDs[k] := 0];
      k := k + 1;
    }
    assert memberIDs[..k] == memberIDs;
    var i := 0;
    while i < |allocs|
      invariant 0 <= i <= |allocs|
      invariant fair.Keys == (set m | m in memberIDs) + Named(allocs[..i])
      invariant forall u :: Balance(fair, u) == Owed(memberIDs, allocs[..i], u)
    {
      fair := ChargeExpense(fair, memberIDs, allocs[i]);
      forall u
        ensures Balance(fair, u) == Owed(memberIDs, allocs[..i+1], u)
      {
        OwedSnoc(memberIDs, allocs, i, u);
      }
      NamedSnoc(allocs, i);
      i := i + 1;
    }
    assert allocs[..i] == allocs;
  }

  // ---------------------------------------------------------------------------
  // Order and grouping of the expenses do not matter

  /** The shares of two expense lists taken together are the shares of the
      first plus the shares of the second. */
  lemma OwedIsAdditive(members: seq<UserId>, a: seq<Allocation>, b: seq<Allocation>, u: UserId)
    requires AllWellFormed(a) && AllWellFormed(b)
    ensures AllWellFormed(a + b)
    ensures Owed(members, a + b, u) == Owed(members, a, u) + Owed(members, b, u)
  {
    assert OwedEach(members, a + b, u) == OwedEach(members, a, u) + OwedEach(members, b, u);
    SumConcat(OwedEach(members, a, u), OwedEach(members, b, u));
  }

  lemma OwedWithout(members: seq<UserId>, b: seq<Allocation>, k: nat, u: UserId)
    requires AllWellFormed(b) && k < |b|
    ensures Owed(members, b, u) == Owed(members, b[..k] + b[k+1..], u) + OwedIn(members, b[k], u)
  {
    var front, back := b[..k], b[k+1..];
    assert b == b[..k+1] + back;
    OwedIsAdditive(members, b[..k+1], back, u);
    OwedSnoc(members, b, k, u);
    OwedIsAdditive(members, front, back, u);
  }

  lemma OwedWithoutLast(members: seq<UserId>, a: seq<Allocation>, u: UserId)
    requires AllWellFormed(a) && a != []
    ensures Owed(members, a, u) == Owed(members, a[..|a|-1], u) + OwedIn(members, a[|a|-1], u)
  {
    OwedSnoc(members, a, |a| - 1, u);
    assert a[..|a|] == a;
  }

  /** Two lists with the same expenses charge everybody the same. */
  lemma {:induction false} OwedIgnoresOrder(members: seq<UserId>, a: seq<Allocation>, b: seq<Allocation>, u: UserId)
    requires multiset(a) == multiset(b) && AllWellFormed(a) && AllWellFormed(b)
    ensures Owed(members, a, u) == Owed(members, b, u)
    decreases |a|
  {
    if a == [] {
      assert |b| == |multiset(b)| == 0;
    } else {
      var n := |a| - 1;
      assert a[n] in multiset(b);
      var k :| 0 <= k < |b| && b[k] == a[n];
      DroppedLast(a);
      Dropped(b, k);
      OwedIgnoresOrder(members, a[..n], b[..k] + b[k+1..], u);
      OwedWithoutLast(members, a, u);
      OwedWithout(members, b, k, u);
    }
  }

  // ---------------------------------------------------------------------------
  // Conservation

  /** The charges that fall on somebody who is not in the list. */
  function ChargedOutside(members: seq<UserId>, users: seq<UserId>, shares: seq<int>): int
    requires |users| == |shares|
  {
    if users == [] then 0
    else
      var n := |users| - 1;
      ChargedOutside(members, users[..n], shares[..n]) + if users[n] in members then 0 else shares[n]
  }

  function ChargedAcross(ms: seq<UserId>, users: seq<UserId>, shares: seq<int>): int
    requires |users| == |shares|
  {
    if ms == [] then 0
    else ChargedAcross(ms[..|ms|-1], users, shares) + ChargedTo(users, shares, ms[|ms|-1])
  }

  lemma {:induction false} ChargedAcrossSnoc(ms: seq<UserId>, users: seq<UserId>, shares: seq<int>)
    requires |users| == |shares| > 0 && Distinct(ms)
    ensures var n := |users| - 1;
            ChargedAcross(ms, users, shares) ==
            ChargedAcross(ms, users[..n], shares[..n]) + if users[n] in ms then shares[n] else 0
  {
    if ms != [] {
      var k := |ms| - 1;
      ChargedAcrossSnoc(ms[..k], users, shares);
      assert ms == ms[..k] + [ms[k]];
    }
  }

  lemma {:induction false} ChargedAcrossNobody(ms: seq<UserId>)
    ensures ChargedAcross(ms, [], []) == 0
  {
    if ms != [] {
      ChargedAcrossNobody(ms[..|ms|-1]);
    }
  }

  lemma {:induction false} ChargesFallSomewhere(ms: seq<UserId>, users: seq<UserId>, shares: seq<int>)
    requires |users| == |shares| && Distinct(ms)
    ensures ChargedAcross(ms, users, shares) + ChargedOutside(ms, users, shares) == Sum(shares)
  {
    if users == [] {
      ChargedAcrossNobody(ms);
    } else {
      ChargedAcrossSnoc(ms, users, shares);
      ChargesFallSomewhere(ms, users[..|users|-1], shares[..|users|-1]);
    }
  }

  /** What all the listed people owe together. */
  function OwedAcross(ms: seq<UserId>, members: seq<UserId>, allocs: seq<Allocation>): int
    requires AllWellFormed(allocs)
  {
    if ms == [] then 0
    else OwedAcross(ms[..|ms|-1], members, allocs) + Owed(members, allocs, ms[|ms|-1])
  }

  function OutsideIn(members: seq<UserId>, a: Allocation): int
    requires WellFormed(a)
  {
    ChargedOutside(members, Participants(members, a), Charges(members, a))
  }

  function OutsideEach(members: seq<UserId>, allocs: seq<Allocation>): (r: seq<int>)
    requires AllWellFormed(allocs)
    ensures |r| == |allocs|
  {
    seq(|allocs|, i requires 0 <= i < |allocs| => OutsideIn(members, allocs[i]))
  }

  /** What people outside the list owe together. */
  function OwedOutside(members: seq<UserId>, allocs: seq<Allocation>): int
    requires AllWellFormed(allocs)
  {
    Sum(OutsideEach(members, allocs))
  }

  function Amounts(allocs: seq<Allocation>): int {
    if allocs == [] then 0 else Amounts(allocs[..|allocs|-1]) + allocs[|allocs|-1].amount
  }

  /** The equally split amounts; with nobody in the list they reach no one. */
  function EqualAmounts(allocs: seq<Allocation>): int {
    if allocs == [] then 0
    else
      var a := allocs[|allocs|-1];
      EqualAmounts(allocs[..|allocs|-1]) + if a.users == [] then a.amount else 0
  }

  /** What the request validation and the schema guarantee of an expense. */
  predicate Chargeable(a: Allocation) {
    WellFormed(a) && a.amount >= 0 && (a.users != [] ==> Weighable(a.weights))
  }

  predicate AllChargeable(allocs: seq<Allocation>) {
    forall i :: 0 <= i < |allocs| ==> Chargeable(allocs[i])
  }

  lemma ChargesAddUp(members: seq<UserId>, a: Allocation)
    requires Chargeable(a)
    ensures Sum(Charges(members, a)) == if a.users == [] && members == [] then 0 else a.amount
  {
    if a.users != [] {
      SplitIsExact(a.amount, a.weights);
    } else if members != [] {
      SumOfEqual(Ones(|members|), 1);
      SplitIsExact(a.amount, Ones(|members|));
    }
  }

  lemma {:induction false} OwedAcrossSnoc(ms: seq<UserId>, members: seq<UserId>, allocs: seq<Allocation>)
    requires AllWellFormed(allocs) && allocs != []
    ensures var n := |allocs| - 1;
            OwedAcross(ms, members, allocs) == OwedAcross(ms, members, allocs[..n]) +
            ChargedAcross(ms, Participants(members, allocs[n]), Charges(members, allocs[n]))
  {
    if ms != [] {
      OwedAcrossSnoc(ms[..|ms|-1], members, allocs);
      OwedWithoutLast(members, allocs, ms[|ms|-1]);
    }
  }

  lemma {:induction false} NobodyOwesNothing(ms: seq<UserId>, members: seq<UserId>)
    ensures OwedAcross(ms, members, []) == 0
  {
    if ms != [] {
      NobodyOwesNothing(ms[..|ms|-1], members);
    }
  }

  lemma OutsideSnoc(members: seq<UserId>, allocs: seq<Allocation>)
    requires AllWellFormed(allocs) && allocs != []
    ensures var n := |allocs| - 1;
            OwedOutside(members, allocs) == OwedOutside(members, allocs[..n]) + OutsideIn(members, allocs[n])
  {
    assert OutsideEach(members, allocs)[..|allocs|-1] == OutsideEach(members, allocs[..|allocs|-1]);
  }

  lemma ExpenseConserves(members: seq<UserId>, a: Allocation)
    requires Distinct(members) && Chargeable(a)
    ensures ChargedAcross(members, Participants(members, a), Charges(members, a)) + OutsideIn(members, a) ==
            if a.users == [] && members == [] then 0 else a.amount
  {
    ChargesFallSomewhere(members, Participants(members, a), Charges(members, a));
    ChargesAddUp(members, a);
  }

  /** Every baisa of every expense is charged to a member or to a named
      outsider, except the equal splits of a group with no members. */
  lemma {:induction false} SharesConserve(members: seq<UserId>, allocs: seq<Allocation>)
    requires Distinct(members) && AllChargeable(allocs)
    ensures OwedAcross(members, members, allocs) + OwedOutside(members, allocs) ==
            Amounts(allocs) - (if members == [] then EqualAmounts(allocs) else 0)
  {
    if allocs == [] {
      NobodyOwesNothing(members, members);
    } else {
      var n := |allocs| - 1;
      SharesConserve(members, allocs[..n]);
      OwedAcrossSnoc(members, members, allocs);
      OutsideSnoc(members, allocs);
      ExpenseConserves(members, allocs[n]);
    }
  }

  lemma {:induction false} OutsideIsNonNegative(members: seq<UserId>, users: seq<UserId>, shares: seq<int>)
    requires |users| == |shares| && forall i :: 0 <= i < |shares| ==> shares[i] >= 0
    ensures ChargedOutside(members, users, shares) >= 0
    ensures (forall i :: 0 <= i < |users| ==> users[i] in members) ==> ChargedOutside(members, users, shares) == 0
    ensures ChargedOutside(members, users, shares) == 0 ==>
              forall i :: 0 <= i < |users| && users[i] !in members ==> shares[i] == 0
  {
    if users != [] {
      OutsideIsNonNegative(members, users[..|users|-1], shares[..|users|-1]);
    }
  }

  lemma ChargesNonNegative(members: seq<UserId>, a: Allocation)
    requires Chargeable(a)
    ensures forall i :: 0 <= i < |Charges(members, a)| ==> Charges(members, a)[i] >= 0
  {
    SplitIsNonNegative(a.amount, if a.users == [] then Ones(|members|) else a.weights);
  }

  /** No outsider has a positive share in this expense. */
  predicate SparesOutsiders(members: seq<UserId>, a: Allocation)
    requires WellFormed(a)
  {
    forall i :: 0 <= i < |a.users| && a.users[i] !in members ==> Charges(members, a)[i] == 0
  }

  /** Outsiders owe nothing exactly when every one of their shares is zero. */
  lemma OutsidersOwe(members: seq<UserId>, allocs: seq<Allocation>)
    requires AllChargeable(allocs)
    ensures OwedOutside(members, allocs) >= 0
    ensures OwedOutside(members, allocs) == 0 <==>
            forall k :: 0 <= k < |allocs| ==> SparesOutsiders(members, allocs[k])
  {
    var each := OutsideEach(members, allocs);
    forall k | 0 <= k < |allocs|
      ensures each[k] >= 0 && (each[k] == 0 <==> SparesOutsiders(members, allocs[k]))
    {
      OneExpenseOutside(members, allocs[k]);
    }
    SumZero(each);
  }

  lemma OneExpenseOutside(members: seq<UserId>, a: Allocation)
    requires Chargeable(a)
    ensures var outside := OutsideIn(members, a);
            outside >= 0 && (outside == 0 <==> SparesOutsiders(members, a))
  {
    var users, shares := Participants(members, a), Charges(members, a);
    ChargesNonNegative(members, a);
    OutsideIsNonNegative(members, users, shares);
    if SparesOutsiders(members, a) {
      ZeroOutside(members, users, shares);
    }
  }

  lemma {:induction false} ZeroOutside(members: seq<UserId>, users: seq<UserId>, shares: seq<int>)
    requires |users| == |shares|
    requires forall i :: 0 <= i < |users| && users[i] !in members ==> shares[i] == 0
    ensures ChargedOutside(members, users, shares) == 0
  {
    if users != [] {
      ZeroOutside(members, users[..|users|-1], shares[..|users|-1]);
    }
  }

  // ---------------------------------------------------------------------------
  // Bounds

  lemma {:induction false} ChargedBetween(users: seq<UserId>, shares: seq<int>, u: UserId)
    requires |users| == |shares| && forall i :: 0 <= i < |shares| ==> shares[i] >= 0
    ensures 0 <= ChargedTo(users, shares, u) <= Sum(shares)
  {
    if users != [] {
      ChargedBetween(users[..|users|-1], shares[..|shares|-1], u);
    }
  }

  lemma OwedInBetween(members: seq<UserId>, a: Allocation, u: UserId)
    requires Chargeable(a)
    ensures 0 <= OwedIn(members, a, u) <= a.amount
  {
    ChargesNonNegative(members, a);
    ChargesAddUp(members, a);
    ChargedBetween(Participants(members, a), Charges(members, a), u);
  }

  /** Nobody owes less than nothing, or more than everything together. */
  lemma {:induction false} OwedBetween(members: seq<UserId>, allocs: seq<Allocation>, u: UserId)
    requires AllChargeable(allocs)
    ensures AllWellFormed(allocs) && 0 <= Owed(members, allocs, u) <= Amounts(allocs)
  {
    if allocs != [] {
      var n := |allocs| - 1;
      OwedBetween(members, allocs[..n], u);
      OwedInBetween(members, allocs[n], u);
      OwedSnoc(members, allocs, n, u);
      assert allocs[..n+1] == allocs;
    }
  }

  // ---------------------------------------------------------------------------
  // Who owes what of one expense

  lemma {:induction false} ChargedAt(users: seq<UserId>, shares: seq<int>, i: nat)
    requires |users| == |shares| && Distinct(users) && i < |users|
    ensures ChargedTo(users, shares, users[i]) == shares[i]
  {
    var n := |users| - 1;
    if i == n {
      ChargedNone(users[..n], shares[..n], users[n]);
    } else {
      ChargedAt(users[..n], shares[..n], i);
    }
  }

  lemma {:induction false} ChargedNone(users: seq<UserId>, shares: seq<int>, u: UserId)
    requires |users| == |shares| && u !in users
    ensures ChargedTo(users, shares, u) == 0
  {
    if users != [] {
      ChargedNone(users[..|users|-1], shares[..|users|-1], u);
    }
  }

  /** An expense without named users is split equally among the members, the baisas
      of the remainder going to the first of the list. */
  lemma MemberOwes(members: seq<UserId>, a: Allocation, i: nat)
    requires WellFormed(a) && a.users == [] && Distinct(members) && i < |members|
    ensures OwedIn(members, a, members[i]) == EqualSplit(a.amount, |members|)[i]
    ensures a.amount >= 0 ==>
              OwedIn(members, a, members[i]) == a.amount / |members| + if i < a.amount % |members| then 1 else 0
  {
    ChargedAt(members, Charges(members, a), i);
    UnitWeightsSplitEqually(a.amount, |members|);
    if a.amount >= 0 {
      EqualSplitAt(a.amount, |members|, i);
    }
  }

  /** One with named users is split among them by their weights, in their order. */
  lemma NamedUserOwes(members: seq<UserId>, a: Allocation, i: nat)
    requires WellFormed(a) && Distinct(a.users) && i < |a.users|
    ensures OwedIn(members, a, a.users[i]) == Split(a.amount, a.weights)[i]
  {
    ChargedAt(a.users, Charges(members, a), i);
  }

  /** Nobody else owes anything of it. */
  lemma OthersOweNothing(members: seq<UserId>, a: Allocation, u: UserId)
    requires WellFormed(a) && u !in a.users && (a.users == [] ==> u !in members)
    ensures OwedIn(members, a, u) == 0
  {
    ChargedNone(Participants(members, a), Charges(members, a), u);
  }
}
