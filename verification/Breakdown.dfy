/** What stands in a snapshot, entry by entry, in terms of the expenses alone. */
module Breakdown {
  import opened Sums
  import opened Ids
  import opened Shares
  import opened Allocations
  import opened FairShares
  import opened Planner
  import opened Tables
  import opened Snapshots
  import Machine
  import M = MachineClose

  /** Some expense that has not been deleted is of this category. */
  predicate SpentOn(es: seq<Expense>, c: Category) {
    exists k :: 0 <= k < |es| && !es[k].deleted && es[k].category == c
  }

  /** A category is listed exactly when something was spent on it, with the sum of
      what was. */
  lemma SpendingIs(listed: seq<Listed>, es: seq<Expense>, c: Category)
    ensures c in SnapshotOf(listed, es).spendPerCategory <==> SpentOn(es, c)
    ensures SpentOn(es, c) ==>
              SnapshotOf(listed, es).spendPerCategory[c] ==
              SumBy((e: Expense) => if !e.deleted && e.category == c then e.amount else 0, es)
  {
    if k :| 0 <= k < |es| && !es[k].deleted && es[k].category == c {
      assert CategoryOf()(es[k]) in LiveKeys(CategoryOf(), es);
    }
    SumBySame(AmountFor(CategoryOf(), c), (e: Expense) => if !e.deleted && e.category == c then e.amount else 0, es);
  }

  /** The total is the sum of the expenses that have not been deleted, and everybody
      listed counts. */
  lemma TotalIs(listed: seq<Listed>, es: seq<Expense>)
    ensures SnapshotOf(listed, es).totalSpent == SumBy((e: Expense) => if e.deleted then 0 else e.amount, es)
    ensures SnapshotOf(listed, es).memberCount == |listed| == |SnapshotOf(listed, es).members|
  {
    GroupsAddUp(PayerOf(), es);
    SumBySame(CountedAmount(), (e: Expense) => if e.deleted then 0 else e.amount, es);
  }

  // ---------------------------------------------------------------------------
  // Each member's line

  /** What a user owes of one expense. */
  ghost function ShareOf(us: seq<UserId>, e: Expense, u: UserId): int {
    OwedIn(us, Meant(EntryOf(0, e)), u)
  }

  ghost function ChargeOf(us: seq<UserId>, u: UserId): Expense -> int {
    (e: Expense) => if e.deleted then 0 else ShareOf(us, e, u)
  }

  lemma {:induction false} OwedByExpense(us: seq<UserId>, es: seq<Expense>, u: UserId)
    ensures AllWellFormed(AllMeant(EntriesOf(es)))
    ensures Owed(us, AllMeant(EntriesOf(es)), u) == SumBy(ChargeOf(us, u), es)
  {
    if es != [] {
      var n := |es| - 1;
      OwedByExpense(us, es[..n], u);
      SumByLast(ChargeOf(us, u), es);
      if es[n].deleted {
        assert EntriesOf(es) == EntriesOf(es[..n]);
      } else {
        OneMoreOwed(us, EntriesOf(es[..n]), EntryOf(n, es[n]), u);
      }
    }
  }

  lemma OneMoreOwed(us: seq<UserId>, entries: seq<Entry>, entry: Entry, u: UserId)
    requires AllWellFormed(AllMeant(entries))
    ensures AllWellFormed(AllMeant(entries + [entry]))
    ensures Owed(us, AllMeant(entries + [entry]), u) == Owed(us, AllMeant(entries), u) + OwedIn(us, Meant(entry), u)
  {
    var all := AllMeant(entries + [entry]);
    assert all[..|entries|] == AllMeant(entries);
    assert all[..|entries|+1] == all;
    OwedSnoc(us, all, |entries|, u);
  }

  /** A member has paid the sum of the member's own expenses, owes the shares of all
      expenses, and is left with the difference. */
  lemma MemberIs(listed: seq<Listed>, es: seq<Expense>, i: nat)
    requires i < |listed|
    ensures var b, id := SnapshotOf(listed, es).members[i], listed[i].id;
            && b.user == listed[i].user
            && b.paid == SumBy((e: Expense) => if !e.deleted && e.paidBy == id then e.amount else 0, es)
            && b.fairShare == SumBy(ChargeOf(UserIds(listed), b.user), es)
            && b.net == b.paid - b.fairShare
  {
    var id := listed[i].id;
    RegroupedIsWellFormed(AllocationRows(es));
    BalanceAt(listed, es, i);
    SumBySame(AmountFor(PayerOf(), id), (e: Expense) => if !e.deleted && e.paidBy == id then e.amount else 0, es);
    AllocationsAre(es);
    OwedByExpense(UserIds(listed), es, listed[i].user);
  }

  // ---------------------------------------------------------------------------
  // The shares of one expense

  lemma NobodyNamed(e: Expense)
    requires e.shares == map[]
    ensures Meant(EntryOf(0, e)).users == []
  {
    ShareListIs(e.shares);
  }

  /** An expense that names nobody is split equally among the list, and of the
      remainder each of its first users has one baisa. */
  lemma EqualShareIs(us: seq<UserId>, e: Expense, i: nat)
    requires e.shares == map[] && e.amount >= 0 && Distinct(us) && i < |us|
    ensures ShareOf(us, e, us[i]) == e.amount / |us| + if i < e.amount % |us| then 1 else 0
  {
    NobodyNamed(e);
    MemberOwes(us, Meant(EntryOf(0, e)), i);
  }

  /** These are all users named, in the order of their ids. */
  ghost predicate ListsNamed(order: seq<UserId>, shares: map<UserId, int>) {
    && (forall u :: u in order <==> u in shares)
    && (forall i, j :: 0 <= i < j < |order| ==> Less(order[i], order[j]))
  }

  lemma {:induction false} OneOrder(order: seq<UserId>, s: set<UserId>)
    requires forall u :: u in order <==> u in s
    requires forall i, j :: 0 <= i < j < |order| ==> Less(order[i], order[j])
    ensures order == InOrder(s)
  {
    if order == [] {
      assert s == {};
    } else {
      var x := order[0];
      assert x in s;
      assert IsLeast(x, s) by {
        forall y | y in s
          ensures y == x || Less(x, y)
        {
          var k :| 0 <= k < |order| && order[k] == y;
        }
      }
      LeastIsUnique(s);
      assert x == Least(s);
      RestOfOrder(order, s);
      OneOrder(order[1..], s - {x});
    }
  }

  lemma RestOfOrder(order: seq<UserId>, s: set<UserId>)
    requires order != [] && forall u :: u in order <==> u in s
    requires forall i, j :: 0 <= i < j < |order| ==> Less(order[i], order[j])
    ensures forall u :: u in order[1..] <==> u in s - {order[0]}
  {
    forall u
      ensures u in order[1..] <==> u in s - {order[0]}
    {
      if u in order[1..] {
        var k :| 0 <= k < |order| - 1 && order[1..][k] == u;
        LessIsStrict(order[0], order[k+1]);
      }
      if u in s - {order[0]} {
        var k :| 0 <= k < |order| && order[k] == u;
        assert order[1..][k-1] == u;
      }
    }
  }

  lemma NamedAre(e: Expense, order: seq<UserId>)
    requires ListsNamed(order, e.shares)
    ensures var a := Meant(EntryOf(0, e));
            && a.amount == e.amount && a.users == order && |a.weights| == |order|
            && forall k :: 0 <= k < |order| ==> order[k] in e.shares && a.weights[k] == e.shares[order[k]]
  {
    OneOrder(order, e.shares.Keys);
    InOrderIs(e.shares.Keys);
    forall k | 0 <= k < |order|
      ensures order[k] in e.shares
    {
      assert order[k] in order;
    }
  }

  /** An expense that names users is split among them by their weights, in the order
      of their ids. */
  lemma NamedShareIs(us: seq<UserId>, e: Expense, order: seq<UserId>, weights: seq<int>, i: nat)
    requires ListsNamed(order, e.shares) && i < |order| == |weights|
    requires forall k :: 0 <= k < |order| ==> order[k] in e.shares && weights[k] == e.shares[order[k]]
    ensures ShareOf(us, e, order[i]) == Split(e.amount, weights)[i]
  {
    NamedAre(e, order);
    forall j, k | 0 <= j < k < |order|
      ensures order[j] != order[k]
    {
      LessIsStrict(order[j], order[k]);
    }
    assert Meant(EntryOf(0, e)).weights == weights;
    NamedUserOwes(us, Meant(EntryOf(0, e)), i);
  }

  /** Nobody else owes anything of it. */
  lemma NoShareIs(us: seq<UserId>, e: Expense, u: UserId)
    requires u !in e.shares && (e.shares == map[] ==> u !in us)
    ensures ShareOf(us, e, u) == 0
  {
    ShareListIs(e.shares);
    var a := Meant(EntryOf(0, e));
    assert a.users == [] ==> e.shares == map[] by {
      if a.users == [] {
        assert |e.shares| == 0;
      }
    }
    forall i | 0 <= i < |a.users|
      ensures a.users[i] in e.shares
    {
      assert a.users[i] == ShareList(e.shares)[i].user;
    }
    OthersOweNothing(us, a, u);
  }

  // ---------------------------------------------------------------------------
  // In int64

  function Turns(q: int): int {
    q * 0x1_0000_0000_0000_0000
  }

  /** The number in int64 that is off by a multiple of 2^64 only. */
  ghost predicate Becomes(x: int, r: int) {
    -0x8000_0000_0000_0000 <= r < 0x8000_0000_0000_0000 && exists q :: x == r + Turns(q)
  }

  lemma WrapBecomes(x: int)
    ensures Becomes(x, Machine.Wrap(x))
  {
    Machine.WrapIsCongruent(x);
    assert x == Machine.Wrap(x) + Turns((x - Machine.Wrap(x)) / 0x1_0000_0000_0000_0000);
  }

  /** What the live expenses of this payer, or of this category, come to. */
  function PaidBy(es: seq<Expense>, id: MembershipId): int {
    SumBy((e: Expense) => if !e.deleted && e.paidBy == id then e.amount else 0, es)
  }

  function SpentFor(es: seq<Expense>, c: Category): int {
    SumBy((e: Expense) => if !e.deleted && e.category == c then e.amount else 0, es)
  }

  lemma FitsIff<K>(key: Expense -> K, sum: K -> int, es: seq<Expense>)
    requires forall k :: sum(k) == SumBy(AmountFor(key, k), es)
    ensures M.Fits(Grouped(key, es)) <==>
            forall k :: 0 <= k < |es| && !es[k].deleted ==> M.IsInt64(sum(key(es[k])))
  {
    forall k | 0 <= k < |es| && !es[k].deleted
      ensures key(es[k]) in Grouped(key, es) && Grouped(key, es)[key(es[k])] == sum(key(es[k]))
    {
      var g := key(es[k]);
      assert g in LiveKeys(key, es) && sum(g) == SumBy(AmountFor(key, g), es);
    }
    forall g | g in Grouped(key, es)
      ensures exists k :: 0 <= k < |es| && !es[k].deleted && key(es[k]) == g
    {
      assert g in LiveKeys(key, es);
    }
  }

  lemma PaidFits(es: seq<Expense>)
    ensures M.Fits(Grouped(PayerOf(), es)) <==>
            forall k :: 0 <= k < |es| && !es[k].deleted ==> M.IsInt64(PaidBy(es, es[k].paidBy))
  {
    forall id
      ensures PaidBy(es, id) == SumBy(AmountFor(PayerOf(), id), es)
    {
      SumBySame(AmountFor(PayerOf(), id), (e: Expense) => if !e.deleted && e.paidBy == id then e.amount else 0, es);
    }
    FitsIff(PayerOf(), id => PaidBy(es, id), es);
  }

  lemma SpentFits(es: seq<Expense>)
    ensures M.Fits(Grouped(CategoryOf(), es)) <==>
            forall k :: 0 <= k < |es| && !es[k].deleted ==> M.IsInt64(SpentFor(es, es[k].category))
  {
    forall c
      ensures SpentFor(es, c) == SumBy(AmountFor(CategoryOf(), c), es)
    {
      SumBySame(AmountFor(CategoryOf(), c), (e: Expense) => if !e.deleted && e.category == c then e.amount else 0, es);
    }
    FitsIff(CategoryOf(), c => SpentFor(es, c), es);
  }

  /** A close fails in its queries exactly when what some member paid, or what was
      spent on some category, does not fit int64. */
  lemma FailsIff(listed: seq<Listed>, es: seq<Expense>)
    ensures M.Snapshot64(listed, es).None? <==>
            exists k :: 0 <= k < |es| && !es[k].deleted &&
              !(-0x8000_0000_0000_0000 <= PaidBy(es, es[k].paidBy) < 0x8000_0000_0000_0000 &&
                -0x8000_0000_0000_0000 <= SpentFor(es, es[k].category) < 0x8000_0000_0000_0000)
  {
    PaidFits(es);
    SpentFits(es);
    M.SnapshotParts(listed, es);
  }

  /** Otherwise users, what they paid, the categories and the member count are those
      of unbounded integers, and the total wraps around; */
  lemma MachineTotalIs(listed: seq<Listed>, es: seq<Expense>)
    requires M.Snapshot64(listed, es).Some?
    ensures var s, exact := M.Snapshot64(listed, es).value, SnapshotOf(listed, es);
            && Becomes(exact.totalSpent, s.totalSpent)
            && s.memberCount == |listed| == |s.members| && s.spendPerCategory == exact.spendPerCategory
  {
    M.SnapshotParts(listed, es);
    WrapBecomes(SumMap(Grouped(PayerOf(), es)));
  }

  lemma MachineBalance(m: Listed, paid: int, owed: int, b: MemberBalance)
    requires b == M.BalanceFor64(m, paid, Machine.Wrap(owed))
    ensures b.user == m.user && b.paid == paid
    ensures Becomes(owed, b.fairShare) && Becomes(b.paid - b.fairShare, b.net)
  {
    WrapBecomes(owed);
    WrapBecomes(paid - b.fairShare);
  }

  /** a fair share is the sum of what int64 charges for each expense, wrapped around,
      and a net the difference, wrapped around. */
  lemma MachineMemberIs(listed: seq<Listed>, es: seq<Expense>, i: nat)
    requires M.Snapshot64(listed, es).Some? && i < |listed| == |M.Snapshot64(listed, es).value.members|
    ensures AllWellFormed(AllocationsOf(es))
    ensures var b, exact := M.Snapshot64(listed, es).value.members[i], SnapshotOf(listed, es).members[i];
            && b.user == exact.user && b.paid == exact.paid
            && Becomes(M.Owed64(UserIds(listed), AllocationsOf(es), b.user), b.fairShare)
            && Becomes(b.paid - b.fairShare, b.net)
  {
    M.SnapshotParts(listed, es);
    M.BalanceAt64(listed, es, i);
    BalanceAt(listed, es, i);
    var m := listed[i];
    MachineBalance(m, PaidOf(Grouped(PayerOf(), es), m.id), M.Owed64(UserIds(listed), AllocationsOf(es), m.user),
                   M.Snapshot64(listed, es).value.members[i]);
  }
}
