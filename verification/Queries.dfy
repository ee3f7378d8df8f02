/** The queries of a close, row by row, and the computation on their results. */
module Queries {
  import opened Ids
  import opened Allocations
  import opened FairShares
  import opened Planner
  import opened Tables
  import opened Snapshots
  import L = Lifecycle

  /** ORDER BY user_id. */
  method OrderedUsers(s: set<UserId>) returns (us: seq<UserId>)
    ensures us == InOrder(s)
  {
    us := [];
    var rest := s;
    while rest != {}
      invariant us + InOrder(rest) == InOrder(s)
      decreases |rest|
    {
      LeastExists(rest);
      LeastIsUnique(rest);
      var x :| x in rest && forall y :: y in rest ==> y == x || Less(x, y);
      assert IsLeast(x, rest) && x == Least(rest);
      assert us + ([x] + InOrder(rest - {x})) == us + [x] + InOrder(rest - {x});
      us := us + [x];
      rest := rest - {x};
    }
  }

  /** The approved members with their ids, in the order of their user ids. */
  ghost predicate ListsApproved(listed: seq<Listed>, members: map<UserId, Membership>) {
    && (forall i :: 0 <= i < |listed| ==>
          && listed[i].user in members && members[listed[i].user].standing == Approved
          && listed[i].id == members[listed[i].user].id)
    && (forall u :: u in members && members[u].standing == Approved ==>
          exists i :: 0 <= i < |listed| && listed[i].user == u)
    && (forall i, j :: 0 <= i < j < |listed| ==> Less(listed[i].user, listed[j].user))
  }

  lemma ListIsApproved(members: map<UserId, Membership>)
    ensures ListsApproved(L.ApprovedList(members), members)
  {
    var us := InOrder(L.ApprovedUsers(members));
    var listed := L.ApprovedList(members);
    InOrderIs(L.ApprovedUsers(members));
    forall i | 0 <= i < |listed|
      ensures us[i] in L.ApprovedUsers(members)
    {
      assert us[i] in us;
    }
    forall u | u in members && members[u].standing == Approved
      ensures exists i :: 0 <= i < |listed| && listed[i].user == u
    {
      assert u in us;
      var i :| 0 <= i < |us| && us[i] == u;
      assert listed[i].user == u;
    }
  }

  method ListApprovedMembers(members: map<UserId, Membership>) returns (listed: seq<Listed>)
    ensures listed == L.ApprovedList(members) && ListsApproved(listed, members)
  {
    var us := OrderedUsers(L.ApprovedUsers(members));
    InOrderIs(L.ApprovedUsers(members));
    listed := [];
    var i := 0;
    while i < |us|
      invariant 0 <= i <= |us|
      invariant listed == L.ApprovedList(members)[..i]
    {
      assert us[i] in us;
      listed := listed + [Listed(members[us[i]].id, us[i])];
      i := i + 1;
    }
    ListIsApproved(members);
  }

  lemma GroupedLast<K>(key: Expense -> K, es: seq<Expense>)
    requires es != []
    ensures var e, before := es[|es|-1], Grouped(key, es[..|es|-1]);
            Grouped(key, es) == if e.deleted then before
                                else before[key(e) := (if key(e) in before then before[key(e)] else 0) + e.amount]
  {
    var e, front := es[|es|-1], es[..|es|-1];
    var k := key(e);
    SumsForLast(key, LiveKeys(key, es), es);
    assert LiveKeys(key, es) == LiveKeys(key, front) + if e.deleted then {} else {k};
    if k !in LiveKeys(key, front) {
      NoLiveKey(key, k, front);
    }
  }

  /** SUM(amount_baisa) ... GROUP BY: SumPaidByMember and SumSpendByCategory. */
  method SumGroups<K(==)>(key: Expense -> K, es: seq<Expense>) returns (m: map<K, int>)
    ensures m == Grouped(key, es)
  {
    m := map[];
    var i := 0;
    while i < |es|
      invariant 0 <= i <= |es|
      invariant m == Grouped(key, es[..i])
    {
      GroupedLast(key, es[..i+1]);
      assert es[..i+1][..i] == es[..i];
      if !es[i].deleted {
        m := m[key(es[i]) := (if key(es[i]) in m then m[key(es[i])] else 0) + es[i].amount];
      }
      i := i + 1;
    }
    assert es[..i] == es;
  }

  /** The sum over the values of a map, in whatever order. */
  method TotalOf(paid: map<MembershipId, int>) returns (total: int)
    ensures total == SumMap(paid)
  {
    total := 0;
    var rest := paid;
    while rest != map[]
      invariant total + SumMap(rest) == SumMap(paid)
      decreases |rest|
    {
      var k :| k in rest;
      SumMapWithout(rest, k);
      total := total + rest[k];
      rest := rest - {k};
    }
  }

  method ShareRowsOf(id: nat, e: Expense) returns (entry: Entry)
    ensures entry == EntryOf(id, e)
  {
    var us := OrderedUsers(e.shares.Keys);
    InOrderIs(e.shares.Keys);
    var shares: seq<Share> := [];
    var i := 0;
    while i < |us|
      invariant 0 <= i <= |us|
      invariant shares == ShareList(e.shares)[..i]
    {
      assert us[i] in us;
      shares := shares + [Share(us[i], Some(e.shares[us[i]]))];
      i := i + 1;
    }
    entry := Entry(id, e.amount, shares);
  }

  lemma JoinLast(es: seq<Entry>, e: Entry)
    ensures Join(es + [e]) == Join(es) + Joined(e)
  {
    assert (es + [e])[..|es|] == es;
  }

  /** The LEFT JOIN of the live expenses with their shares, in creation order. */
  method ListExpenseAllocations(es: seq<Expense>) returns (rows: seq<Row>)
    ensures rows == AllocationRows(es)
  {
    rows := [];
    var i := 0;
    while i < |es|
      invariant 0 <= i <= |es|
      invariant rows == AllocationRows(es[..i])
    {
      assert es[..i+1][..i] == es[..i];
      if !es[i].deleted {
        var entry := ShareRowsOf(i, es[i]);
        JoinLast(EntriesOf(es[..i]), entry);
        rows := rows + Joined(entry);
      } else {
        assert EntriesOf(es[..i+1]) == EntriesOf(es[..i]);
      }
      i := i + 1;
    }
    assert es[..i] == es;
  }

  /** The members' balances, from the two maps filled before. */
  method BalanceMembers(listed: seq<Listed>, paid: map<MembershipId, int>, fair: map<UserId, int>,
                        ghost allocs: seq<Allocation>)
    returns (balances: seq<MemberBalance>)
    requires AllWellFormed(allocs)
    requires forall u :: Balance(fair, u) == Owed(UserIds(listed), allocs, u)
    ensures balances == Balances(listed, paid, allocs)
  {
    balances := [];
    var i := 0;
    while i < |listed|
      invariant 0 <= i <= |listed|
      invariant balances == Balances(listed, paid, allocs)[..i]
    {
      var m := listed[i];
      assert Balance(fair, m.user) == Owed(UserIds(listed), allocs, m.user);
      balances := balances + [BalanceFor(m, paid, Balance(fair, m.user))];
      i := i + 1;
    }
  }

  /** From the rows to the snapshot: everything a close computes before its plan. */
  method TakeSnapshot(members: map<UserId, Membership>, es: seq<Expense>)
    returns (listed: seq<Listed>, snapshot: Snapshot)
    ensures listed == L.ApprovedList(members) && snapshot == SnapshotOf(listed, es)
    ensures ListsApproved(listed, members)
  {
    listed := ListApprovedMembers(members);
    var paid := SumGroups(PayerOf(), es);
    var categories := SumGroups(CategoryOf(), es);
    var total := TotalOf(paid);
    var rows := ListExpenseAllocations(es);
    RegroupedIsWellFormed(rows);
    var allocs := AllocationsFromRows(rows);
    var fair := BuildFairShares(UserIds(listed), allocs);
    var balances := BalanceMembers(listed, paid, fair, allocs);
    snapshot := Snapshot(total, |listed|, categories, balances);
  }
}
