/** A close in Go's int64: the queries sum exactly and fail where a sum does not
    fit a bigint; every addition and subtraction after them wraps around. */
module MachineClose {
  import opened Sums
  import opened Ids
  import opened Shares
  import opened Machine
  import opened Allocations
  import opened FairShares
  import opened Planner
  import opened PlanBounds
  import opened Tables
  import opened Snapshots
  import Queries
  import L = Lifecycle

  // ---------------------------------------------------------------------------
  // Additions that wrap around

  lemma FullTurns(x: int, q: int)
    ensures (x - q * 0x1_0000_0000_0000_0000) % 0x1_0000_0000_0000_0000 == x % 0x1_0000_0000_0000_0000
  {
  }

  /** Wrapping on the way does not show in the end. */
  lemma WrapOnce(x: int, y: int)
    ensures Wrap(Wrap(x) + y) == Wrap(x + y)
  {
    var q := (x + 0x8000_0000_0000_0000) / 0x1_0000_0000_0000_0000;
    assert Wrap(x) == x - q * 0x1_0000_0000_0000_0000;
    FullTurns(x + y + 0x8000_0000_0000_0000, q);
  }

  /** One addition to a sum that has wrapped around so far. */
  method Add(sum: int, x: int, ghost exact: int) returns (r: int)
    requires sum == Wrap(exact)
    ensures r == Wrap(exact + x)
  {
    WrapOnce(exact, x);
    r := Wrap(sum + x);
  }

  predicate IsInt64(x: int) {
    -HALF <= x < HALF
  }

  /** The loop over the map of sums, in whatever order. */
  method TotalOf(paid: map<MembershipId, int>) returns (total: int)
    ensures total == Wrap(SumMap(paid))
  {
    total := 0;
    var rest := paid;
    ghost var exact := 0;
    while rest != map[]
      invariant total == Wrap(exact) && exact + SumMap(rest) == SumMap(paid)
      decreases |rest|
    {
      var k :| k in rest;
      SumMapWithout(rest, k);
      total := Add(total, rest[k], exact);
      exact := exact + rest[k];
      rest := rest - {k};
    }
  }

  /** What each participant is charged for one expense. */
  function Charges64(members: seq<UserId>, a: Allocation): (r: seq<int>)
    requires WellFormed(a)
    ensures |r| == |Participants(members, a)|
  {
    WrappedSplit(a.amount, if a.users == [] then Ones(|members|) else a.weights)
  }

  function OwedIn64(members: seq<UserId>, a: Allocation, u: UserId): int
    requires WellFormed(a)
  {
    ChargedTo(Participants(members, a), Charges64(members, a), u)
  }

  /** In int64 too: an expense without named users is split among the members by
      weights of one, in the order of the list; */
  lemma MemberOwes64(members: seq<UserId>, a: Allocation, ones: seq<int>, i: nat)
    requires WellFormed(a) && a.users == [] && Distinct(members) && i < |members|
    requires |ones| == |members| && forall k :: 0 <= k < |ones| ==> ones[k] == 1
    ensures OwedIn64(members, a, members[i]) == WrappedSplit(a.amount, ones)[i]
  {
    assert ones == Ones(|members|);
    ChargedAt(members, Charges64(members, a), i);
  }

  /** one with named users, among them by their weights; */
  lemma NamedUserOwes64(members: seq<UserId>, a: Allocation, i: nat)
    requires WellFormed(a) && Distinct(a.users) && i < |a.users|
    ensures OwedIn64(members, a, a.users[i]) == WrappedSplit(a.amount, a.weights)[i]
  {
    ChargedAt(a.users, Charges64(members, a), i);
  }

  /** and nobody else owes anything of it. */
  lemma OthersOweNothing64(members: seq<UserId>, a: Allocation, u: UserId)
    requires WellFormed(a) && u !in a.users && (a.users == [] ==> u !in members)
    ensures OwedIn64(members, a, u) == 0
  {
    ChargedNone(Participants(members, a), Charges64(members, a), u);
  }

  function OwedEach64(members: seq<UserId>, allocs: seq<Allocation>, u: UserId): (r: seq<int>)
    requires AllWellFormed(allocs)
    ensures |r| == |allocs|
  {
    seq(|allocs|, i requires 0 <= i < |allocs| => OwedIn64(members, allocs[i], u))
  }

  /** What the charges of u come to, before wrapping around. */
  function Owed64(members: seq<UserId>, allocs: seq<Allocation>, u: UserId): int
    requires AllWellFormed(allocs)
  {
    Sum(OwedEach64(members, allocs, u))
  }

  lemma Owed64Snoc(members: seq<UserId>, allocs: seq<Allocation>, i: nat, u: UserId)
    requires i < |allocs| && AllWellFormed(allocs)
    ensures Owed64(members, allocs[..i+1], u) == Owed64(members, allocs[..i], u) + OwedIn64(members, allocs[i], u)
  {
    assert OwedEach64(members, allocs[..i+1], u)[..i] == OwedEach64(members, allocs[..i], u);
  }

  lemma SameSum(x: int, y: int, r: int)
    requires x == y && r == Wrap(x)
    ensures r == Wrap(y)
  {
  }

  /** The inner loop: the shares of one expense are added to the map, whose
      entries were the sums `exact`, wrapped around, and become the sums `more`. */
  method AddCharges(fair: map<UserId, int>, users: seq<UserId>, shares: seq<int>, ghost exact: UserId -> int,
                    ghost more: UserId -> int)
    returns (fair': map<UserId, int>)
    requires |users| == |shares| && forall u :: Balance(fair, u) == Wrap(exact(u))
    requires forall u :: more(u) == exact(u) + ChargedTo(users, shares, u)
    ensures forall u :: Balance(fair', u) == Wrap(more(u))
  {
    fair' := fair;
    ghost var sums := exact;
    var i := 0;
    while i < |users|
      invariant 0 <= i <= |users|
      invariant forall u :: sums(u) == exact(u) + ChargedTo(users[..i], shares[..i], u)
      invariant forall u :: Balance(fair', u) == Wrap(sums(u))
    {
      var u := users[i];
      var sum := Add(Balance(fair', u), shares[i], sums(u));
      fair' := fair'[u := sum];
      sums := OneMoreShare(users, shares, i, exact, sums);
      i := i + 1;
    }
    assert users[..i] == users && shares[..i] == shares;
    forall u
      ensures Balance(fair', u) == Wrap(more(u))
    {
      SameSum(sums(u), more(u), Balance(fair', u));
    }
  }

  lemma OneMoreShare(users: seq<UserId>, shares: seq<int>, i: nat, exact: UserId -> int, sums: UserId -> int)
    returns (sums': UserId -> int)
    requires |users| == |shares| && i < |users|
    requires forall u :: sums(u) == exact(u) + ChargedTo(users[..i], shares[..i], u)
    ensures forall u :: sums'(u) == exact(u) + ChargedTo(users[..i+1], shares[..i+1], u)
    ensures forall u :: sums'(u) == if u == users[i] then sums(u) + shares[i] else sums(u)
  {
    sums' := u => if u == users[i] then sums(u) + shares[i] else sums(u);
    forall u
      ensures sums'(u) == exact(u) + ChargedTo(users[..i+1], shares[..i+1], u)
    {
      ChargedSnoc(users, shares, i, u);
    }
  }

  method SharesOf(memberIDs: seq<UserId>, a: Allocation, ghost exact: UserId -> int, ghost more: UserId -> int)
    returns (users: seq<UserId>, shares: seq<int>)
    requires WellFormed(a) && forall u :: more(u) == exact(u) + OwedIn64(memberIDs, a, u)
    ensures |users| == |shares| && forall u :: more(u) == exact(u) + ChargedTo(users, shares, u)
  {
    users, shares := Participants(memberIDs, a), Charges64(memberIDs, a);
  }

  /** The loop body: one expense is split and charged. */
  method ChargeExpense(fair: map<UserId, int>, memberIDs: seq<UserId>, a: Allocation, ghost exact: UserId -> int,
                       ghost more: UserId -> int)
    returns (fair': map<UserId, int>)
    requires WellFormed(a) && forall u :: more(u) == exact(u) + OwedIn64(memberIDs, a, u)
    requires forall u :: Balance(fair, u) == Wrap(exact(u))
    ensures forall u :: Balance(fair', u) == Wrap(more(u))
  {
    var users, shares := SharesOf(memberIDs, a, exact, more);
    fair' := AddCharges(fair, users, shares, exact, more);
  }

  lemma Added(members: seq<UserId>, allocs: seq<Allocation>, i: nat, exact: UserId -> int)
    returns (more: UserId -> int)
    requires i < |allocs| && AllWellFormed(allocs)
    requires forall u :: exact(u) == Owed64(members, allocs[..i], u)
    ensures forall u :: more(u) == exact(u) + OwedIn64(members, allocs[i], u)
    ensures forall u :: more(u) == Owed64(members, allocs[..i+1], u)
  {
    more := u => exact(u) + OwedIn64(members, allocs[i], u);
    forall u
      ensures more(u) == Owed64(members, allocs[..i+1], u)
    {
      Owed64Snoc(members, allocs, i, u);
    }
  }

  /** `buildFairShares` in int64: every user's entry is what the charges come to,
      wrapped around once. */
  method BuildFairShares(memberIDs: seq<UserId>, allocs: seq<Allocation>) returns (fair: map<UserId, int>)
    requires AllWellFormed(allocs)
    ensures forall u :: Balance(fair, u) == Wrap(Owed64(memberIDs, allocs, u))
  {
    fair := map m | m in memberIDs :: 0;
    ghost var exact: UserId -> int := u => 0;
    var i := 0;
    while i < |allocs|
      invariant 0 <= i <= |allocs|
      invariant forall u :: Balance(fair, u) == Wrap(exact(u)) && exact(u) == Owed64(memberIDs, allocs[..i], u)
    {
      ghost var more := Added(memberIDs, allocs, i, exact);
      fair := ChargeExpense(fair, memberIDs, allocs[i], exact, more);
      exact := more;
      i := i + 1;
    }
    assert allocs[..i] == allocs;
  }

  // ---------------------------------------------------------------------------
  // The snapshot

  /** The casts to bigint succeed. */
  predicate Fits<K>(m: map<K, int>) {
    forall k :: k in m ==> IsInt64(m[k])
  }

  function BalanceFor64(m: Listed, paid: int, fair: int): MemberBalance {
    MemberBalance(m.user, paid, fair, Wrap(paid - fair))
  }

  function Balances64(listed: seq<Listed>, paid: map<MembershipId, int>, allocs: seq<Allocation>)
    : (r: seq<MemberBalance>)
    requires AllWellFormed(allocs)
    ensures |r| == |listed|
  {
    seq(|listed|, i requires 0 <= i < |listed| =>
      BalanceFor64(listed[i], PaidOf(paid, listed[i].id), Wrap(Owed64(UserIds(listed), allocs, listed[i].user))))
  }

  /** The snapshot of these expenses as int64 computes it, or none where a query fails. */
  ghost function Snapshot64(listed: seq<Listed>, es: seq<Expense>): Option<Snapshot> {
    RegroupedIsWellFormed(AllocationRows(es));
    var paid, categories := Grouped(PayerOf(), es), Grouped(CategoryOf(), es);
    if Fits(paid) && Fits(categories)
    then Some(Snapshot(Wrap(SumMap(paid)), |listed|, categories, Balances64(listed, paid, AllocationsOf(es))))
    else None
  }

  lemma SnapshotParts(listed: seq<Listed>, es: seq<Expense>)
    ensures AllWellFormed(AllocationsOf(es))
    ensures var paid, categories := Grouped(PayerOf(), es), Grouped(CategoryOf(), es);
            && (Snapshot64(listed, es).Some? <==> Fits(paid) && Fits(categories))
            && (Snapshot64(listed, es).Some? ==>
                  var s := Snapshot64(listed, es).value;
                  && s.totalSpent == Wrap(SumMap(paid)) && s.memberCount == |listed|
                  && s.spendPerCategory == categories && s.members == Balances64(listed, paid, AllocationsOf(es)))
  {
    RegroupedIsWellFormed(AllocationRows(es));
  }

  lemma BalanceAt64(listed: seq<Listed>, es: seq<Expense>, i: nat)
    requires i < |listed| && AllWellFormed(AllocationsOf(es))
    ensures Balances64(listed, Grouped(PayerOf(), es), AllocationsOf(es))[i] ==
            BalanceFor64(listed[i], PaidOf(Grouped(PayerOf(), es), listed[i].id),
                         Wrap(Owed64(UserIds(listed), AllocationsOf(es), listed[i].user)))
  {
  }

  method BalanceMembers(listed: seq<Listed>, paid: map<MembershipId, int>, fair: map<UserId, int>)
    returns (balances: seq<MemberBalance>)
    ensures |balances| == |listed|
    ensures forall i :: 0 <= i < |listed| ==>
              balances[i] == BalanceFor64(listed[i], PaidOf(paid, listed[i].id), Balance(fair, listed[i].user))
  {
    balances := [];
    var i := 0;
    while i < |listed|
      invariant 0 <= i <= |listed| && |balances| == i
      invariant forall k :: 0 <= k < i ==>
                  balances[k] == BalanceFor64(listed[k], PaidOf(paid, listed[k].id), Balance(fair, listed[k].user))
    {
      var m := listed[i];
      balances := balances + [BalanceFor64(m, PaidOf(paid, m.id), Balance(fair, m.user))];
      i := i + 1;
    }
  }

  lemma BalancesAre(listed: seq<Listed>, paid: map<MembershipId, int>, fair: map<UserId, int>,
                    allocs: seq<Allocation>, balances: seq<MemberBalance>)
    requires AllWellFormed(allocs) && |balances| == |listed|
    requires forall u :: Balance(fair, u) == Wrap(Owed64(UserIds(listed), allocs, u))
    requires forall i :: 0 <= i < |listed| ==>
               balances[i] == BalanceFor64(listed[i], PaidOf(paid, listed[i].id), Balance(fair, listed[i].user))
    ensures balances == Balances64(listed, paid, allocs)
  {
    forall i | 0 <= i < |listed|
      ensures balances[i] == Balances64(listed, paid, allocs)[i]
    {
      assert Balance(fair, listed[i].user) == Wrap(Owed64(UserIds(listed), allocs, listed[i].user));
    }
  }

  /** Everything a close computes before its plan, in int64. */
  method TakeSnapshot(members: map<UserId, Membership>, es: seq<Expense>)
    returns (listed: seq<Listed>, snapshot: Option<Snapshot>)
    ensures listed == L.ApprovedList(members) && snapshot == Snapshot64(listed, es)
  {
    listed := Queries.ListApprovedMembers(members);
    var paid := Queries.SumGroups(PayerOf(), es);
    var categories := Queries.SumGroups(CategoryOf(), es);
    if !Fits(paid) || !Fits(categories) {
      return listed, None;
    }
    var total := TotalOf(paid);
    var rows := Queries.ListExpenseAllocations(es);
    RegroupedIsWellFormed(rows);
    var allocs := AllocationsFromRows(rows);
    var fair := BuildFairShares(UserIds(listed), allocs);
    var balances := BalanceMembers(listed, paid, fair);
    BalancesAre(listed, paid, fair, allocs, balances);
    snapshot := Some(Snapshot(total, |listed|, categories, balances));
  }

  // ---------------------------------------------------------------------------
  // The total

  lemma {:induction false} GroupWithin<K>(key: Expense -> K, k: K, es: seq<Expense>)
    requires ValidExpenses(es)
    ensures 0 <= SumBy(AmountFor(key, k), es) <= LiveTotal(es)
  {
    if es != [] {
      GroupWithin(key, k, es[1..]);
    }
  }

  lemma GroupsFit<K>(key: Expense -> K, es: seq<Expense>)
    requires ValidExpenses(es) && LiveTotal(es) < HALF
    ensures Fits(Grouped(key, es))
  {
    forall k | k in Grouped(key, es)
      ensures IsInt64(Grouped(key, es)[k])
    {
      GroupWithin(key, k, es);
    }
  }

  /** The total comes out right if and only if it is below 2^63; beyond that a
      query fails or the sum has wrapped around. */
  lemma TotalIsExactIff(listed: seq<Listed>, es: seq<Expense>)
    requires ValidExpenses(es)
    ensures Snapshot64(listed, es).Some? && Snapshot64(listed, es).value.totalSpent == LiveTotal(es) <==>
            LiveTotal(es) < HALF
  {
    GroupsAddUp(PayerOf(), es);
    GroupWithin(PayerOf(), 0, es);
    if LiveTotal(es) < HALF {
      GroupsFit(PayerOf(), es);
      GroupsFit(CategoryOf(), es);
    }
  }

  // ---------------------------------------------------------------------------
  // The plan

  predicate SmallNets(s: seq<Acct>) {
    forall i :: 0 <= i < |s| ==> -HALF < s[i].net < HALF
  }

  /** A turn of the matching in int64: with both nets in the open range it makes
      the transfer that unbounded integers make. */
  method Pay(debtors: array<Acct>, creditors: array<Acct>, i: nat, j: nat, ghost ds: seq<Acct>, ghost cs: seq<Acct>)
    returns (t: Transfer, i': nat, j': nat)
    requires debtors != creditors && i < debtors.Length && j < creditors.Length
    requires ds == debtors[i..] && cs == creditors[j..] && -HALF < ds[0].net < 0 < cs[0].net < HALF
    modifies debtors, creditors
    ensures t == Payment(ds[0], cs[0])
    ensures i <= i' <= debtors.Length && j <= j' <= creditors.Length
    ensures debtors[i'..] == Rest(ds, ds[0].net + t.amount)
    ensures creditors[j'..] == Rest(cs, cs[0].net - t.amount)
    ensures i' - i == (if ds[0].net + t.amount == 0 then 1 else 0)
    ensures j' - j == (if cs[0].net - t.amount == 0 then 1 else 0)
  {
    assert debtors[i] == ds[0] && creditors[j] == cs[0];
    var owe := Wrap(-debtors[i].net);
    var credit := creditors[j].net;
    var amt := owe;
    if credit < amt {
      amt := credit;
    }
    t := Transfer(debtors[i].user, creditors[j].user, amt);
    debtors[i] := debtors[i].(net := Wrap(debtors[i].net + amt));
    creditors[j] := creditors[j].(net := Wrap(creditors[j].net - amt));
    i', j' := i, j;
    if debtors[i].net == 0 {
      i' := i + 1;
    }
    if creditors[j].net == 0 {
      j' := j + 1;
    }
  }

  lemma SmallRest(s: seq<Acct>, net: int)
    requires s != [] && SmallNets(s) && -HALF < net < HALF
    ensures SmallNets(Rest(s, net))
  {
  }

  lemma StaysSmall(ds: seq<Acct>, cs: seq<Acct>, t: Transfer)
    requires AllOnSide(Debtors, ds) && AllOnSide(Creditors, cs) && SmallNets(ds) && SmallNets(cs)
    requires ds != [] && cs != [] && t == Payment(ds[0], cs[0])
    ensures var ds', cs' := Rest(ds, ds[0].net + t.amount), Rest(cs, cs[0].net - t.amount);
            AllOnSide(Debtors, ds') && AllOnSide(Creditors, cs') && SmallNets(ds') && SmallNets(cs')
  {
    RestStays(Debtors, ds, ds[0].net + t.amount);
    RestStays(Creditors, cs, cs[0].net - t.amount);
    SmallRest(ds, ds[0].net + t.amount);
    SmallRest(cs, cs[0].net - t.amount);
  }

  /** The two pointers, in int64. */
  method Match(debtors: array<Acct>, creditors: array<Acct>) returns (plan: seq<Transfer>)
    requires debtors != creditors
    requires AllOnSide(Debtors, debtors[..]) && SmallNets(debtors[..])
    requires AllOnSide(Creditors, creditors[..]) && SmallNets(creditors[..])
    modifies debtors, creditors
    ensures plan == Greedy(old(debtors[..]), old(creditors[..]))
  {
    plan := [];
    var i, j := 0, 0;
    ghost var ds, cs := debtors[..], creditors[..];
    ghost var whole := Greedy(ds, cs);
    while i < debtors.Length && j < creditors.Length
      invariant 0 <= i <= debtors.Length && 0 <= j <= creditors.Length
      invariant ds == debtors[i..] && cs == creditors[j..]
      invariant AllOnSide(Debtors, ds) && AllOnSide(Creditors, cs) && SmallNets(ds) && SmallNets(cs)
      invariant plan + Greedy(ds, cs) == whole
      decreases debtors.Length - i + creditors.Length - j
    {
      var t;
      assert OnSide(Debtors, ds[0].net) && OnSide(Creditors, cs[0].net);
      t, i, j := Pay(debtors, creditors, i, j, ds, cs);
      StaysSmall(ds, cs, t);
      GreedyStep(plan, ds, cs, whole, t);
      plan := plan + [t];
      ds, cs := Rest(ds, ds[0].net + t.amount), Rest(cs, cs[0].net - t.amount);
    }
  }

  lemma {:induction false} SmallAccts(side: Side, bs: seq<MemberBalance>)
    requires forall i :: 0 <= i < |bs| ==> -HALF < bs[i].net < HALF
    ensures SmallNets(AcctsOf(side, bs))
  {
    if bs != [] {
      SmallAccts(side, bs[..|bs|-1]);
    }
  }

  lemma SmallLine(side: Side, bs: seq<MemberBalance>)
    requires forall i :: 0 <= i < |bs| ==> -HALF < bs[i].net < HALF
    ensures SmallNets(Line(side, bs))
  {
    SmallAccts(side, bs);
    ArrangedIsSorted(side, AcctsOf(side, bs));
    forall i | 0 <= i < |Line(side, bs)|
      ensures -HALF < Line(side, bs)[i].net < HALF
    {
      assert Line(side, bs)[i] in multiset(AcctsOf(side, bs));
    }
  }

  /** `computePlan` in int64. */
  method ComputePlan(balances: seq<MemberBalance>) returns (plan: seq<Transfer>)
    requires forall i :: 0 <= i < |balances| ==> -HALF < balances[i].net < HALF
    ensures plan == Plan(balances)
  {
    var debtors := LineUp(Debtors, AcctsOf(Debtors, balances), balances);
    var creditors := LineUp(Creditors, AcctsOf(Creditors, balances), balances);
    LineOnSide(Debtors, balances);
    LineOnSide(Creditors, balances);
    SmallLine(Debtors, balances);
    SmallLine(Creditors, balances);
    plan := Match(debtors, creditors);
  }

  // ---------------------------------------------------------------------------
  // The whole close

  /** More people than there are: their weights stay far below 2^63. */
  const CROWD := 0x4_0000_0000_0000

  lemma {:induction false} SumAtMost(s: seq<int>, most: nat)
    requires forall i :: 0 <= i < |s| ==> 0 <= s[i] <= most
    ensures 0 <= Sum(s) <= most * |s|
  {
    if s != [] {
      SumAtMost(s[..|s|-1], most);
      Distribute(most, |s| - 1, 1);
    }
  }

  /** int64 splits this expense exactly. */
  predicate Splittable(members: seq<UserId>, a: Allocation) {
    && Chargeable(a) && a.amount < HALF && |members| <= CROWD && |a.weights| <= CROWD
    && forall i :: 0 <= i < |a.weights| ==> 0 <= a.weights[i] <= 1000 && a.amount * a.weights[i] < HALF
  }

  lemma EqualChargesAgree(members: seq<UserId>, a: Allocation)
    requires Splittable(members, a) && a.users == []
    ensures Charges64(members, a) == Charges(members, a)
  {
    if members != [] {
      SumOfEqual(Ones(|members|), 1);
      SplitsAgree(a.amount, Ones(|members|));
    }
  }

  lemma ChargesAgree(members: seq<UserId>, a: Allocation)
    requires Splittable(members, a)
    ensures Charges64(members, a) == Charges(members, a)
  {
    if a.users == [] {
      EqualChargesAgree(members, a);
    } else {
      SumAtMost(a.weights, 1000);
      forall i | 0 <= i < |a.weights|
        ensures Products(a.amount, a.weights)[i] >= 0
      {
        ProductSign(a.amount, a.weights[i]);
      }
      SplitsAgree(a.amount, a.weights);
    }
  }

  lemma {:induction false} OwedAgrees(members: seq<UserId>, allocs: seq<Allocation>, u: UserId)
    requires forall k :: 0 <= k < |allocs| ==> Splittable(members, allocs[k])
    ensures AllWellFormed(allocs) && Owed64(members, allocs, u) == Owed(members, allocs, u)
  {
    forall k | 0 <= k < |allocs|
      ensures OwedEach64(members, allocs, u)[k] == OwedEach(members, allocs, u)[k]
    {
      ChargesAgree(members, allocs[k]);
    }
    assert OwedEach64(members, allocs, u) == OwedEach(members, allocs, u);
  }

  /** No amount times a weight leaves int64, and the lists are of a possible size. */
  predicate ExpensesFit(listed: seq<Listed>, es: seq<Expense>) {
    && |listed| <= CROWD
    && forall k :: 0 <= k < |es| && !es[k].deleted ==>
         |es[k].shares| <= CROWD && forall u :: u in es[k].shares ==> es[k].amount * es[k].shares[u] < HALF
  }

  lemma {:induction false} AmountWithin(es: seq<Expense>, k: nat)
    requires ValidExpenses(es) && k < |es| && !es[k].deleted
    ensures es[k].amount <= LiveTotal(es)
  {
    GroupWithin(PayerOf(), 0, es[1..]);
    if k > 0 {
      AmountWithin(es[1..], k - 1);
    }
  }

  lemma MeantIsSplittable(members: seq<UserId>, id: nat, e: Expense)
    requires ValidExpense(e) && e.amount < HALF && |members| <= CROWD && |e.shares| <= CROWD
    requires forall u :: u in e.shares ==> e.amount * e.shares[u] < HALF
    ensures Splittable(members, Meant(EntryOf(id, e)))
  {
    MeantIsChargeable(id, e);
    ShareListIs(e.shares);
    var a := Meant(EntryOf(id, e));
    forall i | 0 <= i < |a.weights|
      ensures 0 <= a.weights[i] <= 1000 && a.amount * a.weights[i] < HALF
    {
      var s := ShareList(e.shares)[i];
      assert a.weights[i] == e.shares[s.user];
    }
  }

  lemma AllSplittable(listed: seq<Listed>, es: seq<Expense>)
    requires ValidExpenses(es) && LiveTotal(es) < HALF && ExpensesFit(listed, es)
    ensures forall k :: 0 <= k < |AllocationsOf(es)| ==> Splittable(UserIds(listed), AllocationsOf(es)[k])
  {
    AllocationsAre(es);
    forall k | 0 <= k < |AllocationsOf(es)|
      ensures Splittable(UserIds(listed), AllocationsOf(es)[k])
    {
      EntriesAreLive(es, k);
      var id := EntriesOf(es)[k].id;
      AmountWithin(es, id);
      MeantIsSplittable(UserIds(listed), id, es[id]);
    }
  }

  lemma OwedFits(listed: seq<Listed>, es: seq<Expense>, u: UserId)
    requires ValidExpenses(es) && LiveTotal(es) < HALF && ExpensesFit(listed, es)
    ensures AllWellFormed(AllocationsOf(es))
    ensures Owed64(UserIds(listed), AllocationsOf(es), u) == Owed(UserIds(listed), AllocationsOf(es), u)
    ensures 0 <= Owed(UserIds(listed), AllocationsOf(es), u) < HALF
  {
    AllSplittable(listed, es);
    OwedAgrees(UserIds(listed), AllocationsOf(es), u);
    AllocationsAre(es);
    AllocationsAreChargeable(es);
    OwedBetween(UserIds(listed), AllocationsOf(es), u);
  }

  lemma BalanceFits(m: Listed, paid: int, fair: int)
    requires 0 <= paid < HALF && 0 <= fair < HALF
    ensures BalanceFor64(m, paid, Wrap(fair)) == MemberBalance(m.user, paid, fair, paid - fair)
    ensures -HALF < paid - fair < HALF
  {
  }

  lemma BalancesAgree(listed: seq<Listed>, es: seq<Expense>, i: nat)
    requires ValidExpenses(es) && LiveTotal(es) < HALF && ExpensesFit(listed, es) && i < |listed|
    ensures AllWellFormed(AllocationsOf(es))
    ensures var b := BalancesOf(listed, es)[i];
            Balances64(listed, Grouped(PayerOf(), es), AllocationsOf(es))[i] == b && -HALF < b.net < HALF
  {
    var m := listed[i];
    OwedFits(listed, es, m.user);
    GroupWithin(PayerOf(), m.id, es);
    PaidIs(es, m.id);
    BalanceAt(listed, es, i);
    BalanceFits(m, PaidOf(Grouped(PayerOf(), es), m.id), Owed(UserIds(listed), AllocationsOf(es), m.user));
  }

  /** With a total below 2^63 and no product of an amount with a weight beyond it,
      int64 computes exactly the snapshot. */
  lemma CloseIsExact(listed: seq<Listed>, es: seq<Expense>)
    requires ValidExpenses(es) && LiveTotal(es) < HALF && ExpensesFit(listed, es)
    ensures Snapshot64(listed, es) == Some(SnapshotOf(listed, es))
    ensures var bs := SnapshotOf(listed, es).members; forall i :: 0 <= i < |bs| ==> -HALF < bs[i].net < HALF
  {
    var bs := BalancesOf(listed, es);
    TotalIsExactIff(listed, es);
    GroupsAddUp(PayerOf(), es);
    RegroupedIsWellFormed(AllocationRows(es));
    forall i | 0 <= i < |listed|
      ensures Balances64(listed, Grouped(PayerOf(), es), AllocationsOf(es))[i] == bs[i] && -HALF < bs[i].net < HALF
    {
      BalancesAgree(listed, es, i);
    }
    assert Balances64(listed, Grouped(PayerOf(), es), AllocationsOf(es)) == bs;
    assert SnapshotOf(listed, es).members == bs;
  }

  /** All that a close computes, in int64: the snapshot and the plan that unbounded
      integers give. */
  method Compute(members: map<UserId, Membership>, es: seq<Expense>)
    returns (listed: seq<Listed>, snapshot: Snapshot, plan: seq<Transfer>)
    requires ValidExpenses(es) && LiveTotal(es) < HALF && ExpensesFit(L.ApprovedList(members), es)
    ensures listed == L.ApprovedList(members)
    ensures snapshot == SnapshotOf(listed, es) && plan == Plan(snapshot.members)
  {
    var result;
    listed, result := TakeSnapshot(members, es);
    CloseIsExact(listed, es);
    snapshot := result.value;
    plan := ComputePlan(snapshot.members);
  }

  /** Two expenses that the validation accepts, each far from the limit. */
  function TwoLarge(payer: MembershipId): seq<Expense> {
    [Expense(0, 4_611_686_018_427_387_904, Food, map[], false),
     Expense(payer, 4_611_686_018_427_387_904, Fuel, map[], false)]
  }

  lemma TwoOf<T>(f: T -> int, x: T, y: T)
    ensures SumBy(f, [x, y]) == f(x) + f(y)
  {
    SumByConcat(f, [x], [y]);
    assert [x] + [y] == [x, y];
    assert [x][1..] == [] && [y][1..] == [];
  }

  lemma LargeSums(payer: MembershipId, id: MembershipId, c: Category)
    ensures LiveTotal(TwoLarge(payer)) == HALF
    ensures SumBy(AmountFor(PayerOf(), id), TwoLarge(payer)) ==
            (if id == 0 then HALF / 2 else 0) + (if id == payer then HALF / 2 else 0)
    ensures SumBy(AmountFor(CategoryOf(), c), TwoLarge(payer)) == if c == Food || c == Fuel then HALF / 2 else 0
  {
    var x, y := TwoLarge(payer)[0], TwoLarge(payer)[1];
    assert TwoLarge(payer) == [x, y];
    TwoOf(CountedAmount(), x, y);
    TwoOf(AmountFor(PayerOf(), id), x, y);
    TwoOf(AmountFor(CategoryOf(), c), x, y);
  }

  lemma LargeGroupsFit()
    ensures Fits(Grouped(PayerOf(), TwoLarge(1))) && Fits(Grouped(CategoryOf(), TwoLarge(1)))
  {
    var paid, categories := Grouped(PayerOf(), TwoLarge(1)), Grouped(CategoryOf(), TwoLarge(1));
    forall k | k in paid
      ensures IsInt64(paid[k])
    {
      LargeSums(1, k, Food);
    }
    forall c | c in categories
      ensures IsInt64(categories[c])
    {
      LargeSums(1, 0, c);
    }
  }

  lemma LargeGroupFails()
    ensures !Fits(Grouped(PayerOf(), TwoLarge(0)))
  {
    var es := TwoLarge(0);
    LargeSums(0, 0, Food);
    assert PayerOf()(es[0]) in LiveKeys(PayerOf(), es);
    assert Grouped(PayerOf(), es)[0] == HALF;
  }

  lemma TotalIsWrapped(listed: seq<Listed>, es: seq<Expense>)
    requires Fits(Grouped(PayerOf(), es)) && Fits(Grouped(CategoryOf(), es))
    ensures Snapshot64(listed, es).Some? && Snapshot64(listed, es).value.totalSpent == Wrap(LiveTotal(es))
  {
    GroupsAddUp(PayerOf(), es);
  }

  lemma NoSnapshot(listed: seq<Listed>, es: seq<Expense>)
    requires !Fits(Grouped(PayerOf(), es))
    ensures Snapshot64(listed, es).None?
  {
  }

  lemma WrapAtTheLimit()
    ensures Wrap(HALF) == -HALF
  {
  }

  lemma LargeIsValid(payer: MembershipId)
    ensures ValidExpenses(TwoLarge(payer))
  {
  }

  /** By different payers in different categories they close with a negative total. */
  lemma LargeTotalWraps(listed: seq<Listed>)
    ensures ValidExpenses(TwoLarge(1))
    ensures Snapshot64(listed, TwoLarge(1)).Some? && Snapshot64(listed, TwoLarge(1)).value.totalSpent == -HALF
  {
    LargeIsValid(1);
    LargeSums(1, 0, Food);
    LargeGroupsFit();
    TotalIsWrapped(listed, TwoLarge(1));
    WrapAtTheLimit();
  }

  /** By the same payer a query fails, and with it the close. */
  lemma LargeSumFailsTheClose(listed: seq<Listed>)
    ensures ValidExpenses(TwoLarge(0)) && Snapshot64(listed, TwoLarge(0)).None?
  {
    LargeIsValid(0);
    LargeGroupFails();
    NoSnapshot(listed, TwoLarge(0));
  }
}
