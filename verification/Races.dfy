/** Two races between the checks and the deletion of `RemoveMember`, as runs from
    the creation of a group, and what is left of the promises when they happen. */
module Races {
  import opened Sums
  import opened Ids
  import opened Shares
  import opened Allocations
  import opened FairShares
  import opened Planner
  import opened Tables
  import opened Snapshots
  import opened Lifecycle
  import opened Protocol
  import opened Guarantees
  import opened Orderly
  import opened Serial

  function Plain(u: UserId): Principal {
    Principal(u, false, true)
  }

  function AdminRow(): Membership {
    Membership(0, GroupAdmin, Approved)
  }

  // ---------------------------------------------------------------------------
  // A member leaves between the checks and the deletion

  /** A group of its admin and one more member. */
  function Pair(a: UserId, c: UserId): Db {
    Db(GroupOpen, map[a := AdminRow(), c := Membership(1, Member, Approved)], 2, [], [], [], [], [])
  }

  function Admitting(a: UserId, c: UserId): seq<Request> {
    [RequestToJoin(Plain(c)), DecideMember(Plain(a), c, true)]
  }

  lemma TwoServed(db: Db, r0: Request, r1: Request)
    ensures ServedAll(db, [r0, r1]) == Served(Served(db, r0), r1)
  {
    assert [r0, r1][1..] == [r1];
    assert ServedAll(Served(db, r0), [r1]) == ServedAll(Served(Served(db, r0), r1), [r1][1..]);
  }

  lemma Admission(a: UserId, c: UserId)
    requires a != c
    ensures ServedAll(Created(a).db, Admitting(a, c)) == Pair(a, c)
  {
    TwoServed(Created(a).db, RequestToJoin(Plain(c)), DecideMember(Plain(a), c, true));
    var db := Lifecycle.Joined(Created(a).db, Plain(c));
    assert db == Db(GroupOpen, map[a := AdminRow(), c := Membership(1, Member, Requested)], 2, [], [], [], [], []);
    assert Decided(db, Plain(a), c, Approved) == Pair(a, c);
  }

  function Orphan(c: UserId, amount: int): Expense {
    Expense(0, amount, Food, map[c := 1], false)
  }

  /** The member's own removal is checked; the admin records an expense that only
      this member shares; then the membership is deleted. */
  function LeavingInBetween(a: UserId, c: UserId, amount: int): seq<Event> {
    [RemoveCheck(1, Plain(c), c), ExpenseLock(0, Plain(a), true), ExpenseCheck(0, amount, Food, map[c := 1])] +
    ([ExpenseLookup(0, c), ExpenseInsert(0), ExpenseCommit(0)] + [RemoveDelete(1)])
  }

  function Deserted(a: UserId, c: UserId, amount: int): Db {
    Db(GroupOpen, map[a := AdminRow()], 2, [Orphan(c, amount)], [], [], [], [])
  }

  function Leaving(a: UserId, c: UserId, work: Work): State {
    State(Pair(a, c), map[1 := RemoveTx(Plain(c), c, 1), 0 := ExpenseTx(Plain(a), true, work)])
  }

  /** The member's removal has been checked and nothing else is under way. */
  function Checked(a: UserId, c: UserId): State {
    State(Pair(a, c), map[1 := RemoveTx(Plain(c), c, 1)])
  }

  lemma ChecksPass(a: UserId, c: UserId)
    requires a != c
    ensures After(Idle(Pair(a, c)), RemoveCheck(1, Plain(c), c)) == Checked(a, c)
  {
  }

  lemma Locks(a: UserId, c: UserId)
    requires a != c
    ensures After(Checked(a, c), ExpenseLock(0, Plain(a), true)) == Leaving(a, c, Locked)
  {
  }

  lemma Checks(a: UserId, c: UserId, amount: int)
    requires a != c && amount > 0
    ensures After(Leaving(a, c, Locked), ExpenseCheck(0, amount, Food, map[c := 1])) ==
            Leaving(a, c, Looking(Orphan(c, amount), {}))
  {
  }

  lemma Looks(a: UserId, c: UserId, amount: int)
    requires a != c
    ensures After(Leaving(a, c, Looking(Orphan(c, amount), {})), ExpenseLookup(0, c)) ==
            Leaving(a, c, Looking(Orphan(c, amount), {c}))
  {
    assert {} + {c} == {c};
  }

  lemma Inserts(a: UserId, c: UserId, amount: int)
    requires a != c
    ensures After(Leaving(a, c, Looking(Orphan(c, amount), {c})), ExpenseInsert(0)) ==
            Leaving(a, c, Inserted(Orphan(c, amount)))
  {
    assert Pair(a, c).members[a].id == 0;
  }

  /** The expense is committed; the checked removal is still under way. */
  function Recorded(a: UserId, c: UserId, amount: int): State {
    State(Pair(a, c).(expenses := [Orphan(c, amount)]), map[1 := RemoveTx(Plain(c), c, 1)])
  }

  lemma Commits(a: UserId, c: UserId, amount: int)
    requires a != c
    ensures After(Leaving(a, c, Inserted(Orphan(c, amount))), ExpenseCommit(0)) == Recorded(a, c, amount)
  {
  }

  lemma Deletes(a: UserId, c: UserId, amount: int)
    requires a != c
    ensures After(Recorded(a, c, amount), RemoveDelete(1)) == Idle(Deserted(a, c, amount))
  {
    assert Pair(a, c).members - {c} == map[a := AdminRow()];
  }

  lemma LeavesAfterChecks(a: UserId, c: UserId, amount: int)
    requires a != c && amount > 0
    ensures Reached(Leaving(a, c, Looking(Orphan(c, amount), {})),
                    [ExpenseLookup(0, c), ExpenseInsert(0), ExpenseCommit(0)] + [RemoveDelete(1)]) ==
            Idle(Deserted(a, c, amount))
  {
    var s := Leaving(a, c, Looking(Orphan(c, amount), {}));
    Looks(a, c, amount);
    Inserts(a, c, amount);
    Commits(a, c, amount);
    ThroughThree(s, ExpenseLookup(0, c), Leaving(a, c, Looking(Orphan(c, amount), {c})),
                 ExpenseInsert(0), Leaving(a, c, Inserted(Orphan(c, amount))),
                 ExpenseCommit(0), Recorded(a, c, amount));
    Deletes(a, c, amount);
    LastStep(Recorded(a, c, amount), RemoveDelete(1));
    ReachedConcat(s, [ExpenseLookup(0, c), ExpenseInsert(0), ExpenseCommit(0)], [RemoveDelete(1)]);
  }

  lemma Leaves(a: UserId, c: UserId, amount: int)
    requires a != c && amount > 0
    ensures Reached(Idle(Pair(a, c)), LeavingInBetween(a, c, amount)) == Idle(Deserted(a, c, amount))
  {
    var start := [RemoveCheck(1, Plain(c), c), ExpenseLock(0, Plain(a), true),
                  ExpenseCheck(0, amount, Food, map[c := 1])];
    ChecksPass(a, c);
    Locks(a, c);
    Checks(a, c, amount);
    ThroughThree(Idle(Pair(a, c)), RemoveCheck(1, Plain(c), c), Checked(a, c), ExpenseLock(0, Plain(a), true),
                 Leaving(a, c, Locked), ExpenseCheck(0, amount, Food, map[c := 1]),
                 Leaving(a, c, Looking(Orphan(c, amount), {})));
    LeavesAfterChecks(a, c, amount);
    ReachedConcat(Idle(Pair(a, c)), start,
                  [ExpenseLookup(0, c), ExpenseInsert(0), ExpenseCommit(0)] + [RemoveDelete(1)]);
  }

  lemma SomebodyElse(listed: seq<Listed>, a: UserId)
    requires |listed| > 1 && listed[0].user != listed[1].user
    ensures exists i :: 0 <= i < |listed| && listed[i].user != a
  {
    assert listed[0].user != a || listed[1].user != a;
  }

  lemma OnlyAdminListed(a: UserId)
    ensures ApprovedList(map[a := AdminRow()]) == [Listed(0, a)]
  {
    var members := map[a := AdminRow()];
    ApprovedListIs(members);
    assert IsApproved(members, a);
    var listed := ApprovedList(members);
    if |listed| > 1 {
      SomebodyElse(listed, a);
      assert false;
    }
  }

  lemma SoleShareTakesAll(total: int, weights: seq<int>)
    requires total >= 0 && |weights| == 1 && Weighable(weights)
    ensures Split(total, weights) == [total]
  {
    SplitIsExact(total, weights);
    var r := Split(total, weights);
    assert r == [] + [r[0]];
    SumSnoc([], r[0]);
  }

  /** The one user of an allocation is charged the whole amount. */
  lemma SoleUserOwesAll(us: seq<UserId>, a: Allocation, u: UserId)
    requires WellFormed(a) && |a.users| == 1 && a.amount >= 0 && Weighable(a.weights)
    ensures OwedIn(us, a, u) == if u == a.users[0] then a.amount else 0
  {
    SoleShareTakesAll(a.amount, a.weights);
    var users, shares := a.users, Charges(us, a);
    assert users[..0] == [] && shares[..0] == [];
    assert ChargedTo(users[..0], shares[..0], u) == 0;
  }

  lemma OwedForOne(us: seq<UserId>, allocs: seq<Allocation>, u: UserId)
    requires AllWellFormed(allocs) && |allocs| == 1
    ensures Owed(us, allocs, u) == OwedIn(us, allocs[0], u)
  {
    var each := OwedEach(us, allocs, u);
    assert each == [] + [each[0]];
    SumSnoc([], each[0]);
  }

  /** An expense with one share regroups to one allocation with one user. */
  lemma SingleShare(e: Expense, c: UserId)
    requires !e.deleted && e.shares == map[c := 1]
    ensures AllocationsOf([e]) == [Allocation(e.amount, [c], [1])]
  {
    AllocationsAre([e]);
    assert EntriesOf([e]) == [EntryOf(0, e)];
    SharesOfOne(0, e, c);
  }

  lemma SharesOfOne(id: nat, e: Expense, c: UserId)
    requires e.shares == map[c := 1]
    ensures Meant(EntryOf(id, e)) == Allocation(e.amount, [c], [1])
  {
    ShareListIs(e.shares);
    assert |e.shares| == 1;
    assert ShareList(e.shares) == [Share(c, Some(1))];
  }

  lemma PaidForOne(es: seq<Expense>, id: MembershipId)
    requires |es| == 1 && !es[0].deleted && es[0].paidBy == id
    ensures SumBy(AmountFor(PayerOf(), id), es) == es[0].amount
  {
    assert es[1..] == [];
  }

  /** Somebody who paid for one expense that another shares alone. */
  lemma LoneBalance(listed: seq<Listed>, es: seq<Expense>, c: UserId)
    requires |listed| == 1 && listed[0].user != c
    requires |es| == 1 && !es[0].deleted && es[0].paidBy == listed[0].id
    requires es[0].amount > 0 && es[0].shares == map[c := 1]
    ensures BalancesOf(listed, es) == [MemberBalance(listed[0].user, es[0].amount, 0, es[0].amount)]
  {
    assert es == [es[0]];
    SingleShare(es[0], c);
    UnitWeighs();
    var allocs := AllocationsOf(es);
    OwedForOne(UserIds(listed), allocs, listed[0].user);
    SoleUserOwesAll(UserIds(listed), allocs[0], listed[0].user);
    BalanceAt(listed, es, 0);
    PaidForOne(es, listed[0].id);
  }

  lemma UnitWeighs()
    ensures Weighable([1])
  {
    WeightsSum([1]);
  }

  lemma DesertedSnapshot(a: UserId, c: UserId, amount: int)
    requires a != c && amount > 0
    ensures SnapshotOf([Listed(0, a)], [Orphan(c, amount)]).members == [MemberBalance(a, amount, 0, amount)]
  {
    LoneBalance([Listed(0, a)], [Orphan(c, amount)], c);
  }

  lemma NobodyOwes(b: MemberBalance)
    requires b.net >= 0
    ensures Plan([b]) == []
  {
    assert [b][..0] == [];
    assert AcctsOf(Debtors, [b]) == [];
  }

  ghost function LeavingRun(a: UserId, c: UserId, amount: int): seq<Event> {
    Scripts(Admitting(a, c)) + (LeavingInBetween(a, c, amount) + Script(CloseGroup(Plain(a))))
  }

  lemma DesertedCloses(a: UserId, c: UserId, amount: int)
    requires a != c && amount > 0
    ensures var db := AfterClose(Deserted(a, c, amount), Plain(a));
            && db.status == GroupSettled && db.payments == [] && db.members == map[a := AdminRow()]
            && db.expenses == [Orphan(c, amount)]
            && |db.runs| == 1 && db.runs[0].snapshot.members == [MemberBalance(a, amount, 0, amount)]
  {
    var db := Deserted(a, c, amount);
    OnlyAdminListed(a);
    DesertedSnapshot(a, c, amount);
    NobodyOwes(MemberBalance(a, amount, 0, amount));
    assert IsAdmin(db.members, a);
  }

  lemma ThreeParts(s0: State, a: seq<Event>, s1: State, b: seq<Event>, s2: State, c: seq<Event>, s3: State)
    requires Reached(s0, a) == s1 && Reached(s1, b) == s2 && Reached(s2, c) == s3
    ensures Reached(s0, a + (b + c)) == s3
  {
    ReachedConcat(s1, b, c);
    ReachedConcat(s0, a, b + c);
  }

  lemma AdmissionReached(a: UserId, c: UserId)
    requires a != c
    ensures Reached(Created(a), Scripts(Admitting(a, c))) == Idle(Pair(a, c))
  {
    Admission(a, c);
    ServedAllPerforms(Created(a).db, Admitting(a, c));
    assert Created(a) == Idle(Created(a).db);
  }

  lemma CloseReached(db: Db, caller: Principal)
    ensures Reached(Idle(db), Script(CloseGroup(caller))) == Idle(AfterClose(db, caller))
  {
    ServedAsOne(db, CloseGroup(caller));
  }

  lemma LeavingRunReaches(a: UserId, c: UserId, amount: int)
    requires a != c && amount > 0
    ensures Reached(Created(a), LeavingRun(a, c, amount)).db == AfterClose(Deserted(a, c, amount), Plain(a))
  {
    var db := Deserted(a, c, amount);
    AdmissionReached(a, c);
    Leaves(a, c, amount);
    CloseReached(db, Plain(a));
    ThreeParts(Created(a), Scripts(Admitting(a, c)), Idle(Pair(a, c)), LeavingInBetween(a, c, amount), Idle(db),
               Script(CloseGroup(Plain(a))), Idle(AfterClose(db, Plain(a))));
  }

  /** A group of two reaches the settled state with nothing to pay although its
      admin has paid for the other one, who left between checks and deletion:
      the admin is owed the whole amount and no payment will ever return it. */
  lemma LeavingStrandsADebt(a: UserId, c: UserId, amount: int)
    requires a != c && amount > 0
    ensures var db := Reached(Created(a), LeavingRun(a, c, amount)).db;
            && db.status == GroupSettled && db.payments == []
            && c !in db.members && db.expenses == [Orphan(c, amount)]
            && |db.runs| == 1 && db.runs[0].snapshot.members == [MemberBalance(a, amount, 0, amount)]
            && !AllSquare(db.runs[0].snapshot.members, db.payments)
  {
    LeavingRunReaches(a, c, amount);
    DesertedCloses(a, c, amount);
    var db := AfterClose(Deserted(a, c, amount), Plain(a));
    assert !IsSquare(db.runs[0].snapshot.members[0], db.payments);
  }

  // ---------------------------------------------------------------------------
  // A member is made admin between the checks and the deletion

  lemma OthersKeepMembers(s: State, e: Event)
    requires IsExpenseEvent(e) || IsCloseEvent(e) || IsPayEvent(e)
    ensures After(s, e).db.members == s.db.members
  {
    if e.ExpenseCommit? || e.CloseCommit? || e.PayCommit? {
      CommitsKeepMembers(s, e);
    } else if IsExpenseEvent(e) {
      ExpenseWritesNothing(s, e);
    } else if IsCloseEvent(e) {
      CloseWritesNothing(s, e);
    } else {
      PayWritesNothing(s, e);
    }
  }

  lemma CommitsKeepMembers(s: State, e: Event)
    requires e.ExpenseCommit? || e.CloseCommit? || e.PayCommit?
    ensures After(s, e).db.members == s.db.members
  {
  }

  /** Only a hand-over makes an admin, and it needs one to demote. */
  lemma NoAdminStays(s: State, e: Event)
    requires !HasAdmin(s.db.members)
    ensures !HasAdmin(After(s, e).db.members)
  {
    if IsExpenseEvent(e) || IsCloseEvent(e) || IsPayEvent(e) {
      OthersKeepMembers(s, e);
    }
  }

  lemma {:induction false} NoAdminForever(s: State, events: seq<Event>)
    requires !HasAdmin(s.db.members)
    ensures !HasAdmin(Reached(s, events).db.members)
    decreases |events|
  {
    if events != [] {
      NoAdminStays(s, events[0]);
      NoAdminForever(After(s, events[0]), events[1..]);
    }
  }

  /** The member's own removal is checked; the admin hands over to this member;
      then the membership is deleted. */
  function PromotedInBetween(a: UserId, c: UserId): seq<Event> {
    [RemoveCheck(1, Plain(c), c), HandOver(Plain(a), c), RemoveDelete(1)]
  }

  function Promoted(a: UserId, c: UserId): State {
    State(Pair(a, c).(members := map[a := Membership(0, Member, Approved), c := Membership(1, GroupAdmin, Approved)]),
          map[1 := RemoveTx(Plain(c), c, 1)])
  }

  lemma Promotes(a: UserId, c: UserId)
    requires a != c
    ensures After(Checked(a, c), HandOver(Plain(a), c)) == Promoted(a, c)
  {
    assert Pair(a, c).members[a].role == GroupAdmin;
    assert Promoted(a, c).db.members ==
           Demoted(Pair(a, c).members)[c := Demoted(Pair(a, c).members)[c].(role := GroupAdmin)];
  }

  lemma DeletesAdmin(a: UserId, c: UserId)
    requires a != c
    ensures var s := After(Promoted(a, c), RemoveDelete(1));
            s.db.members == map[a := Membership(0, Member, Approved)]
  {
    assert Promoted(a, c).db.members - {c} == map[a := Membership(0, Member, Approved)];
  }

  lemma PromotedIsDeleted(a: UserId, c: UserId)
    requires a != c
    ensures Reached(Idle(Pair(a, c)), PromotedInBetween(a, c)).db.members == map[a := Membership(0, Member, Approved)]
  {
    ChecksPass(a, c);
    Promotes(a, c);
    DeletesAdmin(a, c);
    ThroughThree(Idle(Pair(a, c)), RemoveCheck(1, Plain(c), c), Checked(a, c), HandOver(Plain(a), c),
                 Promoted(a, c), RemoveDelete(1), After(Promoted(a, c), RemoveDelete(1)));
  }

  /** A group of two loses its admin, who was promoted between the checks of the
      removal and the deletion, and never has one again over any further run. */
  lemma PromotionLosesTheAdmin(a: UserId, c: UserId, more: seq<Event>)
    requires a != c
    ensures var db := Reached(Created(a), Scripts(Admitting(a, c)) + (PromotedInBetween(a, c) + more)).db;
            !HasAdmin(db.members)
  {
    var s := Reached(Idle(Pair(a, c)), PromotedInBetween(a, c));
    AdmissionReached(a, c);
    PromotedIsDeleted(a, c);
    NoAdminForever(s, more);
    ThreeParts(Created(a), Scripts(Admitting(a, c)), Idle(Pair(a, c)), PromotedInBetween(a, c), s,
               more, Reached(s, more));
  }
}
