/** What `CloseGroup` computes from the rows it reads: balances, totals, plan. */
module Snapshots {
  import opened Sums
  import opened Ids
  import opened Shares
  import opened Allocations
  import opened FairShares
  import opened Planner
  import opened PlanBounds
  import opened Tables

  /** One row of ListApprovedMembers. */
  datatype Listed = Listed(id: MembershipId, user: UserId)

  // ---------------------------------------------------------------------------
  // ListExpenseAllocations, and what its rows regroup to

  ghost function ShareList(shares: map<UserId, int>): (r: seq<Share>) {
    InOrderIs(shares.Keys);
    var us := InOrder(shares.Keys);
    seq(|us|, i requires 0 <= i < |us| => assert us[i] in us; Share(us[i], Some(shares[us[i]])))
  }

  ghost function EntryOf(id: nat, e: Expense): Entry {
    Entry(id, e.amount, ShareList(e.shares))
  }

  /** The live expenses, with their ids. */
  ghost function EntriesOf(es: seq<Expense>): seq<Entry> {
    if es == [] then []
    else
      var n := |es| - 1;
      EntriesOf(es[..n]) + if es[n].deleted then [] else [EntryOf(n, es[n])]
  }

  ghost function AllocationRows(es: seq<Expense>): seq<Row> {
    Join(EntriesOf(es))
  }

  ghost function AllocationsOf(es: seq<Expense>): seq<Allocation> {
    Regrouped(AllocationRows(es))
  }

  lemma {:induction false} EntriesAreDistinct(es: seq<Expense>)
    ensures DistinctIds(EntriesOf(es))
    ensures forall i :: 0 <= i < |EntriesOf(es)| ==> EntriesOf(es)[i].id < |es|
  {
    if es != [] {
      EntriesAreDistinct(es[..|es|-1]);
    }
  }

  lemma ShareListIs(shares: map<UserId, int>)
    ensures |ShareList(shares)| == |shares|
    ensures forall i :: 0 <= i < |shares| ==>
              var s := ShareList(shares)[i]; s.user in shares && s.weight == Some(shares[s.user])
  {
    InOrderIs(shares.Keys);
    var us := InOrder(shares.Keys);
    forall i | 0 <= i < |us|
      ensures us[i] in shares
    {
      assert us[i] in us;
    }
  }

  function AmountsOf(es: seq<Entry>): int {
    if es == [] then 0 else AmountsOf(es[..|es|-1]) + es[|es|-1].amount
  }

  lemma {:induction false} MeantAmounts(es: seq<Entry>)
    ensures Amounts(AllMeant(es)) == AmountsOf(es)
  {
    if es != [] {
      MeantAmounts(es[..|es|-1]);
      assert AllMeant(es)[..|es|-1] == AllMeant(es[..|es|-1]);
    }
  }

  lemma {:induction false} EntryAmounts(es: seq<Expense>)
    ensures AmountsOf(EntriesOf(es)) == LiveTotal(es)
  {
    if es != [] {
      var n := |es| - 1;
      EntryAmounts(es[..n]);
      SumByLast(CountedAmount(), es);
      if es[n].deleted {
        assert EntriesOf(es) == EntriesOf(es[..n]);
      } else {
        assert EntriesOf(es)[..|EntriesOf(es)|-1] == EntriesOf(es[..n]);
      }
    }
  }

  /** The rows regroup to the live expenses themselves. */
  lemma AllocationsAre(es: seq<Expense>)
    ensures AllocationsOf(es) == AllMeant(EntriesOf(es))
    ensures Amounts(AllocationsOf(es)) == LiveTotal(es)
  {
    EntriesAreDistinct(es);
    RegroupedJoin(EntriesOf(es));
    MeantAmounts(EntriesOf(es));
    EntryAmounts(es);
  }

  /** Each entry is a live expense. */
  lemma {:induction false} EntriesAreLive(es: seq<Expense>, k: nat)
    requires k < |EntriesOf(es)|
    ensures var id := EntriesOf(es)[k].id;
            id < |es| && !es[id].deleted && EntriesOf(es)[k] == EntryOf(id, es[id])
  {
    var n := |es| - 1;
    if k < |EntriesOf(es[..n])| {
      EntriesAreLive(es[..n], k);
    }
  }

  lemma WeightsSum(ws: seq<int>)
    requires forall i :: 0 <= i < |ws| ==> ws[i] >= 1
    ensures ws != [] ==> Weighable(ws)
  {
    SumNonNegative(ws);
    if ws != [] {
      SumNonNegative(ws[..|ws|-1]);
    }
  }

  lemma MeantIsChargeable(id: nat, e: Expense)
    requires ValidExpense(e)
    ensures Chargeable(Meant(EntryOf(id, e)))
  {
    ShareListIs(e.shares);
    WeightsSum(Meant(EntryOf(id, e)).weights);
  }

  /** Valid expenses can be split exactly. */
  lemma AllocationsAreChargeable(es: seq<Expense>)
    requires ValidExpenses(es)
    ensures AllChargeable(AllocationsOf(es))
  {
    AllocationsAre(es);
    forall k | 0 <= k < |AllocationsOf(es)|
      ensures Chargeable(AllocationsOf(es)[k])
    {
      EntriesAreLive(es, k);
      var id := EntriesOf(es)[k].id;
      MeantIsChargeable(id, es[id]);
    }
  }

  // ---------------------------------------------------------------------------
  // The snapshot

  datatype Snapshot = Snapshot(totalSpent: int, memberCount: nat, spendPerCategory: map<Category, int>,
                               members: seq<MemberBalance>)

  function UserIds(listed: seq<Listed>): (r: seq<UserId>)
    ensures |r| == |listed|
  {
    seq(|listed|, i requires 0 <= i < |listed| => listed[i].user)
  }

  function BalanceFor(m: Listed, paid: map<MembershipId, int>, fair: int): MemberBalance {
    MemberBalance(m.user, PaidOf(paid, m.id), fair, PaidOf(paid, m.id) - fair)
  }

  /** Every listed member's paid, fair share and net, in the order of the list. */
  function Balances(listed: seq<Listed>, paid: map<MembershipId, int>, allocs: seq<Allocation>): (r: seq<MemberBalance>)
    requires AllWellFormed(allocs)
    ensures |r| == |listed|
  {
    seq(|listed|, i requires 0 <= i < |listed| =>
      BalanceFor(listed[i], paid, Owed(UserIds(listed), allocs, listed[i].user)))
  }

  lemma RegroupedIsWellFormed(rows: seq<Row>)
    ensures AllWellFormed(Regrouped(rows))
  {
    forall k | 0 <= k < |Regrouped(rows)|
      ensures WellFormed(Regrouped(rows)[k])
    {
      RegroupedAt(rows, k);
    }
  }

  /** What the rows read by a close come to. */
  ghost function SnapshotFrom(listed: seq<Listed>, paid: map<MembershipId, int>, categories: map<Category, int>,
                              rows: seq<Row>): Snapshot {
    RegroupedIsWellFormed(rows);
    Snapshot(SumMap(paid), |listed|, categories, Balances(listed, paid, Regrouped(rows)))
  }

  /** The snapshot of these expenses, were all rows read at once. */
  ghost function SnapshotOf(listed: seq<Listed>, es: seq<Expense>): Snapshot {
    SnapshotFrom(listed, Grouped(PayerOf(), es), Grouped(CategoryOf(), es), AllocationRows(es))
  }

  /** Memberships and users are listed once each. */
  predicate ListedOnce(listed: seq<Listed>) {
    && (forall i, j :: 0 <= i < j < |listed| ==> listed[i].id != listed[j].id)
    && (forall i, j :: 0 <= i < j < |listed| ==> listed[i].user != listed[j].user)
  }

  predicate ListsId(listed: seq<Listed>, id: MembershipId) {
    exists i :: 0 <= i < |listed| && listed[i].id == id
  }

  /** Whoever paid for something is on the list. */
  predicate ListsPayers(listed: seq<Listed>, es: seq<Expense>) {
    forall k :: 0 <= k < |es| ==> ListsId(listed, es[k].paidBy)
  }

  function PaidTogether(listed: seq<Listed>, es: seq<Expense>): int {
    if listed == [] then 0
    else PaidTogether(listed[..|listed|-1], es) + SumBy(AmountFor(PayerOf(), listed[|listed|-1].id), es)
  }

  lemma {:induction false} PaidTogetherLast(listed: seq<Listed>, es: seq<Expense>)
    requires ListedOnce(listed) && es != []
    ensures var e := es[|es|-1];
            PaidTogether(listed, es) == PaidTogether(listed, es[..|es|-1]) +
            if !e.deleted && ListsId(listed, e.paidBy) then e.amount else 0
  {
    if listed != [] {
      var n, e := |listed| - 1, es[|es|-1];
      PaidTogetherLast(listed[..n], es);
      SumByLast(AmountFor(PayerOf(), listed[n].id), es);
      ListsLast(listed, e.paidBy);
    }
  }

  lemma ListsLast(listed: seq<Listed>, id: MembershipId)
    requires ListedOnce(listed) && listed != []
    ensures var n := |listed| - 1;
            && (ListsId(listed, id) <==> ListsId(listed[..n], id) || listed[n].id == id)
            && !(ListsId(listed[..n], id) && listed[n].id == id)
  {
    var n := |listed| - 1;
    if ListsId(listed[..n], id) {
      var i :| 0 <= i < n && listed[..n][i].id == id;
      assert listed[i].id == id;
    }
    if ListsId(listed, id) && listed[n].id != id {
      var i :| 0 <= i < |listed| && listed[i].id == id;
      assert listed[..n][i].id == id;
    }
    if listed[n].id == id {
      assert ListsId(listed, id);
    }
  }

  lemma {:induction false} NobodyPaid(listed: seq<Listed>)
    ensures PaidTogether(listed, []) == 0
  {
    if listed != [] {
      NobodyPaid(listed[..|listed|-1]);
    }
  }

  /** Together the listed members paid for everything. */
  lemma {:induction false} PaidAddsUp(listed: seq<Listed>, es: seq<Expense>)
    requires ListedOnce(listed) && ListsPayers(listed, es)
    ensures PaidTogether(listed, es) == LiveTotal(es)
  {
    if es == [] {
      NobodyPaid(listed);
    } else {
      PaidAddsUp(listed, es[..|es|-1]);
      PaidTogetherLast(listed, es);
      SumByLast(CountedAmount(), es);
    }
  }

  // ---------------------------------------------------------------------------
  // The nets

  function PaidAmount(): MemberBalance -> int {
    (b: MemberBalance) => b.paid
  }

  function FairAmount(): MemberBalance -> int {
    (b: MemberBalance) => b.fairShare
  }

  lemma BalanceAt(listed: seq<Listed>, es: seq<Expense>, i: nat)
    requires AllWellFormed(AllocationsOf(es)) && i < |listed|
    ensures var b := Balances(listed, Grouped(PayerOf(), es), AllocationsOf(es))[i];
            && b.paid == SumBy(AmountFor(PayerOf(), listed[i].id), es)
            && b.fairShare == Owed(UserIds(listed), AllocationsOf(es), listed[i].user)
            && b.net == b.paid - b.fairShare
  {
    PaidIs(es, listed[i].id);
  }

  ghost function BalancesOf(listed: seq<Listed>, es: seq<Expense>): (r: seq<MemberBalance>)
    ensures |r| == |listed|
  {
    RegroupedIsWellFormed(AllocationRows(es));
    Balances(listed, Grouped(PayerOf(), es), AllocationsOf(es))
  }

  lemma BalancesOfAt(listed: seq<Listed>, es: seq<Expense>, i: nat)
    requires AllWellFormed(AllocationsOf(es)) && i < |listed|
    ensures var b := BalancesOf(listed, es)[i];
            && b.paid == SumBy(AmountFor(PayerOf(), listed[i].id), es)
            && b.fairShare == Owed(UserIds(listed), AllocationsOf(es), listed[i].user)
  {
    BalanceAt(listed, es, i);
  }

  lemma PaidTogetherTake(listed: seq<Listed>, es: seq<Expense>, k: nat)
    requires 0 < k <= |listed|
    ensures PaidTogether(listed[..k], es) ==
            PaidTogether(listed[..k-1], es) + SumBy(AmountFor(PayerOf(), listed[k-1].id), es)
  {
    assert listed[..k][..k-1] == listed[..k-1];
  }

  lemma {:induction false} PartialPaid(listed: seq<Listed>, es: seq<Expense>, k: nat)
    requires AllWellFormed(AllocationsOf(es)) && k <= |listed|
    ensures SumBy(PaidAmount(), BalancesOf(listed, es)[..k]) == PaidTogether(listed[..k], es)
  {
    if k > 0 {
      PartialPaid(listed, es, k - 1);
      BalancesOfAt(listed, es, k - 1);
      SumByTake(PaidAmount(), BalancesOf(listed, es), k - 1);
      PaidTogetherTake(listed, es, k);
    }
  }

  lemma OwedAcrossTake(us: seq<UserId>, allocs: seq<Allocation>, k: nat)
    requires AllWellFormed(allocs) && 0 < k <= |us|
    ensures OwedAcross(us[..k], us, allocs) == OwedAcross(us[..k-1], us, allocs) + Owed(us, allocs, us[k-1])
  {
    assert us[..k][..k-1] == us[..k-1];
  }

  lemma {:induction false} PartialFair(listed: seq<Listed>, es: seq<Expense>, k: nat)
    requires AllWellFormed(AllocationsOf(es)) && k <= |listed|
    ensures SumBy(FairAmount(), BalancesOf(listed, es)[..k]) ==
            OwedAcross(UserIds(listed)[..k], UserIds(listed), AllocationsOf(es))
  {
    if k > 0 {
      PartialFair(listed, es, k - 1);
      BalancesOfAt(listed, es, k - 1);
      SumByTake(FairAmount(), BalancesOf(listed, es), k - 1);
      OwedAcrossTake(UserIds(listed), AllocationsOf(es), k);
    }
  }

  lemma {:induction false} NetsAddUp(bs: seq<MemberBalance>)
    requires forall i :: 0 <= i < |bs| ==> bs[i].net == bs[i].paid - bs[i].fairShare
    ensures SumBy(BalanceNet(), bs) == SumBy(PaidAmount(), bs) - SumBy(FairAmount(), bs)
  {
    if bs != [] {
      NetsAddUp(bs[1..]);
    }
  }

  lemma FullSums(listed: seq<Listed>, es: seq<Expense>)
    requires AllWellFormed(AllocationsOf(es))
    ensures var bs := BalancesOf(listed, es);
            && SumBy(PaidAmount(), bs) == PaidTogether(listed, es)
            && SumBy(FairAmount(), bs) == OwedAcross(UserIds(listed), UserIds(listed), AllocationsOf(es))
            && SumBy(BalanceNet(), bs) == SumBy(PaidAmount(), bs) - SumBy(FairAmount(), bs)
  {
    var bs := BalancesOf(listed, es);
    PartialPaid(listed, es, |listed|);
    PartialFair(listed, es, |listed|);
    NetsAddUp(bs);
    assert bs[..|listed|] == bs && listed[..|listed|] == listed && UserIds(listed)[..|listed|] == UserIds(listed);
  }

  lemma PayersMeanMembers(listed: seq<Listed>, es: seq<Expense>)
    requires listed == [] && es != []
    ensures !ListsPayers(listed, es)
  {
    assert !ListsId(listed, es[0].paidBy);
  }

  lemma SharesCharged(listed: seq<Listed>, es: seq<Expense>)
    requires ListedOnce(listed) && ListsPayers(listed, es) && ValidExpenses(es)
    ensures AllWellFormed(AllocationsOf(es))
    ensures var us, allocs := UserIds(listed), AllocationsOf(es);
            OwedAcross(us, us, allocs) == LiveTotal(es) - OwedOutside(us, allocs) && OwedOutside(us, allocs) >= 0
  {
    var us, allocs := UserIds(listed), AllocationsOf(es);
    AllocationsAreChargeable(es);
    AllocationsAre(es);
    SharesConserve(us, allocs);
    OutsidersOwe(us, allocs);
    if listed == [] && es != [] {
      PayersMeanMembers(listed, es);
    }
  }

  /** The totals agree: spent, paid and per category; what the members' fair
      shares fall short of that is exactly what outsiders were charged. */
  lemma TotalsAgree(listed: seq<Listed>, es: seq<Expense>)
    requires ListedOnce(listed) && ListsPayers(listed, es) && ValidExpenses(es)
    ensures AllWellFormed(AllocationsOf(es))
    ensures var s, outside := SnapshotOf(listed, es), OwedOutside(UserIds(listed), AllocationsOf(es));
            && s.totalSpent == LiveTotal(es)
            && SumMap(s.spendPerCategory) == s.totalSpent
            && SumBy(PaidAmount(), s.members) == s.totalSpent
            && SumBy(FairAmount(), s.members) == s.totalSpent - outside
            && SumBy(BalanceNet(), s.members) == outside
            && outside >= 0
  {
    SharesCharged(listed, es);
    FullSums(listed, es);
    GroupsAddUp(PayerOf(), es);
    GroupsAddUp(CategoryOf(), es);
    PaidAddsUp(listed, es);
  }

  lemma BalancesAreDistinct(listed: seq<Listed>, paid: map<MembershipId, int>, allocs: seq<Allocation>)
    requires ListedOnce(listed) && AllWellFormed(allocs)
    ensures DistinctUsers(Balances(listed, paid, allocs))
  {
  }

  /** Everybody named in a live expense is on the list. */
  predicate ListsShares(listed: seq<Listed>, es: seq<Expense>) {
    forall k, u :: 0 <= k < |es| && !es[k].deleted && u in es[k].shares ==> u in UserIds(listed)
  }

  /** Somebody off the list is named in a live expense and charged for it. */
  ghost predicate ChargesOutsider(listed: seq<Listed>, es: seq<Expense>)
    requires AllWellFormed(AllocationsOf(es))
  {
    exists k :: 0 <= k < |AllocationsOf(es)| && !SparesOutsiders(UserIds(listed), AllocationsOf(es)[k])
  }

  /** The nets sum to zero exactly when nobody off the list is charged. */
  lemma ZeroSumIffNoOutsider(listed: seq<Listed>, es: seq<Expense>)
    requires ListedOnce(listed) && ListsPayers(listed, es) && ValidExpenses(es)
    ensures AllWellFormed(AllocationsOf(es))
    ensures ZeroSum(SnapshotOf(listed, es).members) <==> !ChargesOutsider(listed, es)
    ensures ListsShares(listed, es) ==> !ChargesOutsider(listed, es)
  {
    TotalsAgree(listed, es);
    AllocationsAreChargeable(es);
    OutsidersOwe(UserIds(listed), AllocationsOf(es));
    if ListsShares(listed, es) {
      NamedAreListed(listed, es);
    }
  }

  lemma NamedAreListed(listed: seq<Listed>, es: seq<Expense>)
    requires ListsShares(listed, es) && AllWellFormed(AllocationsOf(es))
    ensures !ChargesOutsider(listed, es)
  {
    AllocationsAre(es);
    forall k | 0 <= k < |AllocationsOf(es)|
      ensures SparesOutsiders(UserIds(listed), AllocationsOf(es)[k])
    {
      EntriesAreLive(es, k);
      var id := EntriesOf(es)[k].id;
      ShareListIs(es[id].shares);
      var a := AllocationsOf(es)[k];
      forall i | 0 <= i < |a.users|
        ensures a.users[i] in UserIds(listed)
      {
        assert a.users[i] == ShareList(es[id].shares)[i].user;
      }
    }
  }
}
