/** The last two payments of a group finalized at the same time: each count
    still sees the other payment unsettled, so nobody marks the group settled. */
module LastPayments {
  import opened Sums
  import opened Ids
  import opened Shares
  import opened Allocations
  import opened FairShares
  import opened Planner
  import opened PlanBounds
  import opened Tables
  import opened Snapshots
  import opened Lifecycle
  import opened Invariants
  import opened Protocol
  import opened Guarantees
  import opened Orderly
  import opened Serial
  import opened Races
  import opened TwoKey

  // ---------------------------------------------------------------------------
  // Forever closed

  lemma CommitsTheUnsettled(db: Db, tx: Tx)
    requires MayCommit(db, tx)
    ensures !IsSettled(db.payments[tx.pid])
  {
    assert Lawful(EntryFor(tx), db.payments[tx.pid].from, db.payments[tx.pid].to);
  }

  lemma NoMoreCommits(s: State, tid: nat)
    requires Inv(s) && AllSettled(s.db.payments)
    ensures AfterPayCommit(s, tid) == s
  {
    if Paying(s, tid) && ReadyToCommit(s.txs[tid]) {
      assert TxOk(s.db, s.txs[tid]);
      CommitsTheUnsettled(s.db, s.txs[tid]);
      assert false;
    }
  }

  lemma StaysClosed(s: State, e: Event)
    requires Inv(s) && s.db.status == GroupClosed && AllSettled(s.db.payments)
    ensures After(s, e).db.status == GroupClosed && AllSettled(After(s, e).db.payments)
  {
    match e
    case ExpenseCommit(tid) => WritersAreGone(s, tid);
    case CloseCommit(tid) => WritersAreGone(s, tid);
    case PayCommit(tid) => NoMoreCommits(s, tid);
    case _ => OnlyCommitsWrite(s, e);
  }

  /** A group that is closed with all payments settled stays so, whatever happens:
      no step is left that could mark it settled. */
  lemma {:induction false} ClosedForever(s: State, events: seq<Event>)
    requires Inv(s) && s.db.status == GroupClosed && AllSettled(s.db.payments)
    ensures Reached(s, events).db.status == GroupClosed && AllSettled(Reached(s, events).db.payments)
    decreases |events|
  {
    if events != [] {
      EventKeeps(s, events[0]);
      StaysClosed(s, events[0]);
      ClosedForever(After(s, events[0]), events[1..]);
    }
  }

  // ---------------------------------------------------------------------------
  // Two finalizations side by side

  /** The machine lets the caller finalize this payment: a group admin once it is
      confirmed, a global admin from any status, neither of them its debtor. */
  predicate MayFinalize(db: Db, g: Principal, pid: nat) {
    pid < |db.payments| &&
    Validate(Finalize, ActorOf(db, g, db.payments[pid]), db.payments[pid].status) == Next(Settled)
  }

  function Finalizing(db: Db, g: Principal, pid: nat, progress: Progress): Tx
    requires pid < |db.payments|
  {
    var p := db.payments[pid];
    PayTx(g, Finalize, ActorOf(db, g, p), pid, p.status, p.version, Settled, "", progress)
  }

  lemma Reads(s: State, tid: nat, g: Principal, pid: nat)
    requires MayFinalize(s.db, g, pid) && tid !in s.txs
    ensures After(s, PayRead(tid, g, Finalize, pid, "")) == With(s, tid, Finalizing(s.db, g, pid, Validated))
  {
  }

  lemma Proves(s: State, tid: nat, g: Principal, pid: nat)
    requires pid < |s.db.payments|
    ensures After(With(s, tid, Finalizing(s.db, g, pid, Validated)), PayProve(tid)) ==
            With(s, tid, Finalizing(s.db, g, pid, Proved({})))
  {
  }

  lemma Guards(s: State, tid: nat, g: Principal, pid: nat)
    requires pid < |s.db.payments| && tid !in s.txs && PaymentFree(s.txs, tid, pid)
    ensures After(With(s, tid, Finalizing(s.db, g, pid, Proved({}))), PayGuard(tid)) ==
            With(s, tid, Finalizing(s.db, g, pid, Guarded({})))
  {
  }

  function Beginning(tid: nat, g: Principal, pid: nat): seq<Event> {
    [PayRead(tid, g, Finalize, pid, ""), PayProve(tid), PayGuard(tid)]
  }

  lemma BeginsInRun(s: State, tid: nat, g: Principal, pid: nat)
    requires MayFinalize(s.db, g, pid) && tid !in s.txs && PaymentFree(s.txs, tid, pid)
    ensures Reached(s, Beginning(tid, g, pid)) == With(s, tid, Finalizing(s.db, g, pid, Guarded({})))
  {
    Reads(s, tid, g, pid);
    Proves(s, tid, g, pid);
    Guards(s, tid, g, pid);
    ThroughThree(s, PayRead(tid, g, Finalize, pid, ""), With(s, tid, Finalizing(s.db, g, pid, Validated)),
                 PayProve(tid), With(s, tid, Finalizing(s.db, g, pid, Proved({}))),
                 PayGuard(tid), With(s, tid, Finalizing(s.db, g, pid, Guarded({}))));
  }

  /** Both are under way, by these callers. */
  function Both(db: Db, g: Principal, p: nat, h: Principal, q: nat, x: Progress, y: Progress): State
    requires p < |db.payments| && q < |db.payments|
  {
    State(db, map[1 := Finalizing(db, g, p, x), 2 := Finalizing(db, h, q, y)])
  }

  /** All payments but these two are settled, and these callers may finalize them. */
  predicate LastTwo(db: Db, g: Principal, p: nat, h: Principal, q: nat) {
    && p != q && MayFinalize(db, g, p) && MayFinalize(db, h, q)
    && forall k :: 0 <= k < |db.payments| && k != p && k != q ==> IsSettled(db.payments[k])
  }

  lemma BothBegin(db: Db, g: Principal, p: nat, h: Principal, q: nat)
    requires LastTwo(db, g, p, h, q)
    ensures Reached(Idle(db), Beginning(1, g, p) + Beginning(2, h, q)) ==
            Both(db, g, p, h, q, Guarded({}), Guarded({}))
  {
    BeginsInRun(Idle(db), 1, g, p);
    var s := With(Idle(db), 1, Finalizing(db, g, p, Guarded({})));
    BeginsInRun(s, 2, h, q);
    ReachedConcat(Idle(db), Beginning(1, g, p), Beginning(2, h, q));
    assert With(s, 2, Finalizing(db, h, q, Guarded({}))) == Both(db, g, p, h, q, Guarded({}), Guarded({}));
  }

  /** Neither count is zero: each still sees the other payment unsettled. */
  lemma FirstCounts(db: Db, g: Principal, p: nat, h: Principal, q: nat)
    requires LastTwo(db, g, p, h, q)
    ensures After(Both(db, g, p, h, q, Guarded({}), Guarded({})), PayCount(1)) ==
            Both(db, g, p, h, q, Counted({}, false), Guarded({}))
  {
    assert !IsSettled(db.payments[q]);
  }

  lemma SecondCounts(db: Db, g: Principal, p: nat, h: Principal, q: nat)
    requires LastTwo(db, g, p, h, q)
    ensures After(Both(db, g, p, h, q, Counted({}, false), Guarded({})), PayCount(2)) ==
            Both(db, g, p, h, q, Counted({}, false), Counted({}, false))
  {
    assert !IsSettled(db.payments[p]);
  }

  function Finalized(db: Db, g: Principal, pid: nat): Db
    requires pid < |db.payments|
  {
    Paid(db, Finalizing(db, g, pid, Counted({}, false)))
  }

  function BothFinalized(db: Db, g: Principal, p: nat, h: Principal, q: nat): Db
    requires p < |db.payments| && q < |db.payments|
  {
    Paid(Finalized(db, g, p), Finalizing(db, h, q, Counted({}, false)))
  }

  function OneLeft(db: Db, g: Principal, p: nat, h: Principal, q: nat): State
    requires p < |db.payments| && q < |db.payments|
  {
    State(Finalized(db, g, p), map[2 := Finalizing(db, h, q, Counted({}, false))])
  }

  lemma FirstCommits(db: Db, g: Principal, p: nat, h: Principal, q: nat)
    requires LastTwo(db, g, p, h, q)
    ensures After(Both(db, g, p, h, q, Counted({}, false), Counted({}, false)), PayCommit(1)) ==
            OneLeft(db, g, p, h, q)
  {
  }

  lemma SecondCommits(db: Db, g: Principal, p: nat, h: Principal, q: nat)
    requires LastTwo(db, g, p, h, q)
    ensures After(OneLeft(db, g, p, h, q), PayCommit(2)) == Idle(BothFinalized(db, g, p, h, q))
  {
  }

  lemma BothAreSettled(db: Db, g: Principal, p: nat, h: Principal, q: nat)
    requires LastTwo(db, g, p, h, q)
    ensures var after := BothFinalized(db, g, p, h, q);
            after.status == db.status && AllSettled(after.payments)
  {
  }

  function Ending(): seq<Event> {
    [PayCount(1), PayCount(2), PayCommit(1)] + [PayCommit(2)]
  }

  lemma BothEnd(db: Db, g: Principal, p: nat, h: Principal, q: nat)
    requires LastTwo(db, g, p, h, q)
    ensures Reached(Both(db, g, p, h, q, Guarded({}), Guarded({})), Ending()) == Idle(BothFinalized(db, g, p, h, q))
  {
    var s := Both(db, g, p, h, q, Guarded({}), Guarded({}));
    FirstCounts(db, g, p, h, q);
    SecondCounts(db, g, p, h, q);
    FirstCommits(db, g, p, h, q);
    SecondCommits(db, g, p, h, q);
    ThroughThree(s, PayCount(1), Both(db, g, p, h, q, Counted({}, false), Guarded({})),
                 PayCount(2), Both(db, g, p, h, q, Counted({}, false), Counted({}, false)),
                 PayCommit(1), OneLeft(db, g, p, h, q));
    LastStep(OneLeft(db, g, p, h, q), PayCommit(2));
    ReachedConcat(s, [PayCount(1), PayCount(2), PayCommit(1)], [PayCommit(2)]);
  }

  function SideBySide(g: Principal, p: nat, h: Principal, q: nat): seq<Event> {
    (Beginning(1, g, p) + Beginning(2, h, q)) + Ending()
  }

  lemma SideBySideReaches(db: Db, g: Principal, p: nat, h: Principal, q: nat)
    requires LastTwo(db, g, p, h, q)
    ensures Reached(Idle(db), SideBySide(g, p, h, q)) == Idle(BothFinalized(db, g, p, h, q))
  {
    BothBegin(db, g, p, h, q);
    BothEnd(db, g, p, h, q);
    ReachedConcat(Idle(db), Beginning(1, g, p) + Beginning(2, h, q), Ending());
  }

  /** From every closed group with exactly two unsettled payments that these
      callers, the same one or not, may finalize: two finalizations side by side
      settle every payment and leave the group closed, over any further run. */
  lemma FinalizedSideBySide(db: Db, g: Principal, p: nat, h: Principal, q: nat, more: seq<Event>)
    requires DbOk(db) && db.status == GroupClosed && LastTwo(db, g, p, h, q)
    ensures var after := Reached(Idle(db), SideBySide(g, p, h, q) + more).db;
            after.status == GroupClosed && AllSettled(after.payments)
  {
    SideBySideReaches(db, g, p, h, q);
    BothAreSettled(db, g, p, h, q);
    RunKeeps(Idle(db), SideBySide(g, p, h, q));
    ReachedConcat(Idle(db), SideBySide(g, p, h, q), more);
    ClosedForever(Idle(BothFinalized(db, g, p, h, q)), more);
  }

  // ---------------------------------------------------------------------------
  // A group that gets there

  function Trio(a: UserId, b: UserId, c: UserId): map<UserId, Membership> {
    map[a := AdminRow(), b := Membership(1, Member, Approved), c := Membership(2, Member, Approved)]
  }

  function Three(a: UserId, b: UserId, c: UserId, es: seq<Expense>): Db {
    Db(GroupOpen, Trio(a, b, c), 3, es, [], [], [], [])
  }

  function Treat(a: UserId, c: UserId, amount: int): Request {
    RecordExpense(Plain(a), true, amount, Food, map[c := 1])
  }

  function TwoTreats(a: UserId, b: UserId, c: UserId, x: int, y: int): seq<Request> {
    (Admitting(a, b) + Admitting(a, c)) + [Treat(a, b, x), Treat(a, c, y)]
  }

  lemma SecondAdmission(a: UserId, b: UserId, c: UserId)
    requires a != b && a != c && b != c
    ensures ServedAll(Pair(a, b), Admitting(a, c)) == Three(a, b, c, [])
  {
    TwoServed(Pair(a, b), RequestToJoin(Plain(c)), DecideMember(Plain(a), c, true));
    var db := Lifecycle.Joined(Pair(a, b), Plain(c));
    assert db == Three(a, b, c, []).(members := Trio(a, b, c)[c := Membership(2, Member, Requested)]);
    assert Decided(db, Plain(a), c, Approved) == Three(a, b, c, []);
  }

  lemma TreatsRecorded(a: UserId, b: UserId, c: UserId, x: int, y: int)
    requires a != b && a != c && b != c && x > 0 && y > 0
    ensures ServedAll(Three(a, b, c, []), [Treat(a, b, x), Treat(a, c, y)]) ==
            Three(a, b, c, [Orphan(b, x), Orphan(c, y)])
  {
    TwoServed(Three(a, b, c, []), Treat(a, b, x), Treat(a, c, y));
    assert AfterRecording(Three(a, b, c, []), a, true, x, Food, map[b := 1]) == Three(a, b, c, [Orphan(b, x)]);
    assert AfterRecording(Three(a, b, c, [Orphan(b, x)]), a, true, y, Food, map[c := 1]) ==
           Three(a, b, c, [Orphan(b, x), Orphan(c, y)]);
  }

  lemma TreatsServed(a: UserId, b: UserId, c: UserId, x: int, y: int)
    requires a != b && a != c && b != c && x > 0 && y > 0
    ensures ServedAll(Created(a).db, TwoTreats(a, b, c, x, y)) == Three(a, b, c, [Orphan(b, x), Orphan(c, y)])
  {
    Admission(a, b);
    SecondAdmission(a, b, c);
    TreatsRecorded(a, b, c, x, y);
    ServedConcat(Created(a).db, Admitting(a, b), Admitting(a, c));
    ServedConcat(Created(a).db, Admitting(a, b) + Admitting(a, c), [Treat(a, b, x), Treat(a, c, y)]);
  }

  lemma TwoEntries(e0: Expense, e1: Expense)
    requires !e0.deleted && !e1.deleted
    ensures EntriesOf([e0, e1]) == [EntryOf(0, e0), EntryOf(1, e1)]
  {
    assert [e0][..0] == [];
    assert EntriesOf([e0]) == [EntryOf(0, e0)];
    assert [e0, e1][..1] == [e0];
  }

  lemma TwoMeant(x: Allocations.Entry, y: Allocations.Entry)
    ensures AllMeant([x, y]) == [Meant(x)] + [Meant(y)]
  {
  }

  lemma TreatAllocations(e0: Expense, e1: Expense, b: UserId, c: UserId)
    requires !e0.deleted && !e1.deleted && e0.shares == map[b := 1] && e1.shares == map[c := 1]
    ensures AllocationsOf([e0, e1]) == [Allocation(e0.amount, [b], [1])] + [Allocation(e1.amount, [c], [1])]
  {
    AllocationsAre([e0, e1]);
    TwoEntries(e0, e1);
    TwoMeant(EntryOf(0, e0), EntryOf(1, e1));
    SharesOfOne(0, e0, b);
    SharesOfOne(1, e1, c);
  }

  lemma TreatOwed(us: seq<UserId>, x: Allocation, y: Allocation, u: UserId)
    requires WellFormed(x) && |x.users| == 1 && x.amount >= 0 && Weighable(x.weights)
    requires WellFormed(y) && |y.users| == 1 && y.amount >= 0 && Weighable(y.weights)
    ensures AllWellFormed([x] + [y])
    ensures Owed(us, [x] + [y], u) ==
            (if u == x.users[0] then x.amount else 0) + (if u == y.users[0] then y.amount else 0)
  {
    OwedIsAdditive(us, [x], [y], u);
    OwedForOne(us, [x], u);
    OwedForOne(us, [y], u);
    SoleUserOwesAll(us, x, u);
    SoleUserOwesAll(us, y, u);
  }

  lemma TreatPaid(e0: Expense, e1: Expense, id: MembershipId)
    requires !e0.deleted && !e1.deleted && e0.paidBy == 0 && e1.paidBy == 0
    ensures SumBy(AmountFor(PayerOf(), id), [e0, e1]) == if id == 0 then e0.amount + e1.amount else 0
  {
    SumByConcat(AmountFor(PayerOf(), id), [e0], [e1]);
    assert [e0] + [e1] == [e0, e1];
    assert [e0][1..] == [] && [e1][1..] == [];
  }

  /** The nets of the two treats: the payer is owed both, each of the others one. */
  lemma TreatNets(b: UserId, c: UserId, e0: Expense, e1: Expense, listed: seq<Listed>, i: nat)
    requires i < |listed| && b != c
    requires e0.amount > 0 && !e0.deleted && e0.paidBy == 0 && e0.shares == map[b := 1]
    requires e1.amount > 0 && !e1.deleted && e1.paidBy == 0 && e1.shares == map[c := 1]
    ensures var m := BalancesOf(listed, [e0, e1])[i];
            && m.user == listed[i].user
            && m.net == (if listed[i].id == 0 then e0.amount + e1.amount else 0)
                        - (if m.user == b then e0.amount else 0) - (if m.user == c then e1.amount else 0)
  {
    UnitWeighs();
    TreatAllocations(e0, e1, b, c);
    TreatOwed(UserIds(listed), Allocation(e0.amount, [b], [1]), Allocation(e1.amount, [c], [1]), listed[i].user);
    TreatPaid(e0, e1, listed[i].id);
    BalanceAt(listed, [e0, e1], i);
  }

  lemma TrioListed(a: UserId, b: UserId, c: UserId, listed: seq<Listed>, i: nat)
    requires a != b && a != c && b != c && listed == ApprovedList(Trio(a, b, c)) && i < |listed|
    ensures var m := listed[i];
            (m.user == a || m.user == b || m.user == c) && (m.id == 0 <==> m.user == a)
  {
    ApprovedListIs(Trio(a, b, c));
  }

  predicate Occurs(bs: seq<MemberBalance>, u: UserId) {
    exists i :: 0 <= i < |bs| && bs[i].user == u
  }

  lemma SidesOf(bs: seq<MemberBalance>, a: UserId, b: UserId, c: UserId)
    requires forall i :: 0 <= i < |bs| ==>
               if bs[i].user == a then bs[i].net > 0 else bs[i].net < 0 && (bs[i].user == b || bs[i].user == c)
    requires a != b && a != c && Occurs(bs, a) && Occurs(bs, b) && Occurs(bs, c)
    ensures UsersOn(Debtors, bs) == {b, c} && UsersOn(Creditors, bs) == {a}
  {
  }

  lemma ListedOccurs(listed: seq<Listed>, es: seq<Expense>, members: map<UserId, Membership>, u: UserId)
    requires listed == ApprovedList(members) && IsApproved(members, u)
    ensures Occurs(BalancesOf(listed, es), u)
  {
    ApprovedListIs(members);
    RegroupedIsWellFormed(AllocationRows(es));
    var i :| 0 <= i < |listed| && listed[i].user == u;
    assert BalancesOf(listed, es)[i].user == u;
  }

  /** One payer of two expenses, each shared by one other member alone. */
  predicate Treats(a: UserId, b: UserId, c: UserId, e0: Expense, e1: Expense) {
    && a != b && a != c && b != c
    && e0.amount > 0 && !e0.deleted && e0.paidBy == 0 && e0.shares == map[b := 1]
    && e1.amount > 0 && !e1.deleted && e1.paidBy == 0 && e1.shares == map[c := 1]
  }

  lemma TreatSign(a: UserId, b: UserId, c: UserId, e0: Expense, e1: Expense, listed: seq<Listed>, i: nat)
    requires Treats(a, b, c, e0, e1) && listed == ApprovedList(Trio(a, b, c)) && i < |listed|
    ensures var m := BalancesOf(listed, [e0, e1])[i];
            if m.user == a then m.net > 0 else m.net < 0 && (m.user == b || m.user == c)
  {
    TrioListed(a, b, c, listed, i);
    TreatNets(b, c, e0, e1, listed, i);
  }

  lemma TreatSides(a: UserId, b: UserId, c: UserId, e0: Expense, e1: Expense)
    requires Treats(a, b, c, e0, e1)
    ensures var bs := BalancesOf(ApprovedList(Trio(a, b, c)), [e0, e1]);
            UsersOn(Debtors, bs) == {b, c} && UsersOn(Creditors, bs) == {a}
  {
    var members := Trio(a, b, c);
    var listed := ApprovedList(members);
    forall i | 0 <= i < |listed|
      ensures var m := BalancesOf(listed, [e0, e1])[i];
              if m.user == a then m.net > 0 else m.net < 0 && (m.user == b || m.user == c)
    {
      TreatSign(a, b, c, e0, e1, listed, i);
    }
    ListedOccurs(listed, [e0, e1], members, a);
    ListedOccurs(listed, [e0, e1], members, b);
    ListedOccurs(listed, [e0, e1], members, c);
    SidesOf(BalancesOf(listed, [e0, e1]), a, b, c);
  }

  /** Two debtors and one creditor settle in exactly two transfers. */
  lemma TwoTransfers(bs: seq<MemberBalance>, a: UserId, b: UserId, c: UserId)
    requires DistinctUsers(bs) && ZeroSum(bs) && b != c
    requires UsersOn(Debtors, bs) == {b, c} && UsersOn(Creditors, bs) == {a}
    ensures |Plan(bs)| == 2
  {
    CountUsersOn(Debtors, bs);
    CountUsersOn(Creditors, bs);
    PlanSettlesIffZeroSum(bs);
    SettlingTakes(bs, Plan(bs), Debtors);
    PlanIsShort(bs);
  }

  lemma TreatsBalance(db: Db)
    requires Sound(db)
    ensures var bs := BalancesOf(ApprovedList(db.members), db.expenses);
            DistinctUsers(bs) && ZeroSum(bs)
    ensures db.status == GroupOpen ==> db.runs == [] && db.payments == []
  {
    var listed := ApprovedList(db.members);
    RegroupedIsWellFormed(AllocationRows(db.expenses));
    ApprovedListOk(db);
    ApprovedListFair(db);
    ZeroSumIffNoOutsider(listed, db.expenses);
    BalancesAreDistinct(listed, Grouped(PayerOf(), db.expenses), AllocationsOf(db.expenses));
  }

  lemma ClosesOnto(db: Db, a: UserId, plan: seq<Transfer>)
    requires db.status == GroupOpen && db.runs == [] && db.payments == [] && IsAdmin(db.members, a)
    requires plan == Plan(BalancesOf(ApprovedList(db.members), db.expenses))
    requires EndsExist(db.members, plan) && plan != []
    ensures var after := AfterClose(db, Plain(a));
            after.status == GroupClosed && after.payments == Openings(plan) && after.members == db.members
  {
    assert RunNow(db, a).snapshot.members == BalancesOf(ApprovedList(db.members), db.expenses);
    assert db.payments + Openings(plan) == Openings(plan);
  }

  /** Two pending payments to this member by others. */
  predicate TwoOwed(db: Db, a: UserId) {
    && db.status == GroupClosed && |db.payments| == 2 && IsAdmin(db.members, a)
    && (forall k :: 0 <= k < 2 ==>
          db.payments[k].status == Pending && db.payments[k].from != a && db.payments[k].to == a)
  }

  lemma TwoAreOwed(db: Db, a: UserId, plan: seq<Transfer>)
    requires db.status == GroupClosed && IsAdmin(db.members, a) && db.payments == Openings(plan) && |plan| == 2
    requires forall k :: 0 <= k < 2 ==> plan[k].from != a && plan[k].to == a
    ensures TwoOwed(db, a)
  {
  }

  lemma TwoDebtorsPay(bs: seq<MemberBalance>, a: UserId, b: UserId, c: UserId)
    requires DistinctUsers(bs) && ZeroSum(bs) && a != b && a != c && b != c
    requires UsersOn(Debtors, bs) == {b, c} && UsersOn(Creditors, bs) == {a}
    ensures |Plan(bs)| == 2
    ensures forall k :: 0 <= k < 2 ==> Plan(bs)[k].from in {b, c} && Plan(bs)[k].to == a
  {
    TwoTransfers(bs, a, b, c);
    PlanConnects(bs, 0);
    PlanConnects(bs, 1);
  }

  lemma TwoFromDebtors(db: Db, a: UserId, b: UserId, c: UserId, bs: seq<MemberBalance>)
    requires a in db.members && b in db.members && c in db.members && a != b && a != c && b != c
    requires DistinctUsers(bs) && ZeroSum(bs) && UsersOn(Debtors, bs) == {b, c} && UsersOn(Creditors, bs) == {a}
    ensures |Plan(bs)| == 2 && EndsExist(db.members, Plan(bs))
    ensures forall k :: 0 <= k < 2 ==> Plan(bs)[k].from != a && Plan(bs)[k].to == a
  {
    TwoDebtorsPay(bs, a, b, c);
  }

  lemma ClosesOwed(db: Db, a: UserId, b: UserId, c: UserId, bs: seq<MemberBalance>)
    requires db.status == GroupOpen && db.runs == [] && db.payments == []
    requires bs == BalancesOf(ApprovedList(db.members), db.expenses) && IsAdmin(db.members, a)
    requires b in db.members && c in db.members && a != b && a != c && b != c
    requires DistinctUsers(bs) && ZeroSum(bs) && UsersOn(Debtors, bs) == {b, c} && UsersOn(Creditors, bs) == {a}
    ensures TwoOwed(AfterClose(db, Plain(a)), a)
  {
    TwoFromDebtors(db, a, b, c, bs);
    ClosesOnto(db, a, Plan(bs));
    TwoAreOwed(AfterClose(db, Plain(a)), a, Plan(bs));
  }

  lemma TreatsClose(db: Db, a: UserId, b: UserId, c: UserId, e0: Expense, e1: Expense)
    requires db.status == GroupOpen && db.runs == [] && db.payments == [] && Treats(a, b, c, e0, e1)
    requires db.members == Trio(a, b, c) && db.expenses == [e0, e1]
    requires var bs := BalancesOf(ApprovedList(db.members), db.expenses);
             DistinctUsers(bs) && ZeroSum(bs)
    ensures TwoOwed(AfterClose(db, Plain(a)), a)
  {
    TreatSides(a, b, c, e0, e1);
    ClosesOwed(db, a, b, c, BalancesOf(ApprovedList(db.members), db.expenses));
  }

  lemma SoundAfter(admin: UserId, rs: seq<Request>)
    ensures Sound(ServedAll(Created(admin).db, rs))
  {
    CreatedOk(admin);
    CreatedFair(admin);
    ServedAllSound(Created(admin).db, rs);
  }

  lemma ReachedAfter(admin: UserId, rs: seq<Request>)
    ensures Reached(Created(admin), Scripts(rs)) == Idle(ServedAll(Created(admin).db, rs))
  {
    ServedAllPerforms(Created(admin).db, rs);
    assert Created(admin) == Idle(Created(admin).db);
  }

  /** After these requests the two finalizations strand the group. */
  lemma StrandsAfter(admin: UserId, rs: seq<Request>, g: Principal, more: seq<Event>)
    requires var db := ServedAll(Created(admin).db, rs); db.status == GroupClosed && LastTwo(db, g, 0, g, 1)
    ensures var db := Reached(Created(admin), Scripts(rs) + (SideBySide(g, 0, g, 1) + more)).db;
            && db.status == GroupClosed && AllSettled(db.payments)
            && |db.payments| == |ServedAll(Created(admin).db, rs).payments|
  {
    var db := ServedAll(Created(admin).db, rs);
    SoundAfter(admin, rs);
    ReachedAfter(admin, rs);
    FinalizedSideBySide(db, g, 0, g, 1, more);
    ClosedIsFinal(Idle(db), SideBySide(g, 0, g, 1) + more);
    ReachedConcat(Created(admin), Scripts(rs), SideBySide(g, 0, g, 1) + more);
  }

  // ---------------------------------------------------------------------------
  // Both payments proven and confirmed

  /** A step that does not settle changes its payment's row and no other, nor the
      group or its members. */
  lemma StepTaken(db: Db, caller: Principal, action: Action, pid: nat, content: string, next: Status)
    requires pid < |db.payments| && next != Settled
    requires Validate(action, ActorOf(db, caller, db.payments[pid]), db.payments[pid].status) == Next(next)
    ensures var after := AfterTransition(db, caller, action, pid, content);
            && after.payments == db.payments[pid := Transitioned(db.payments[pid], next)]
            && after.members == db.members && after.status == db.status
  {
  }

  /** The debtor proves and the creditor confirms. */
  function Confirming(db: Db, pid: nat): seq<Request>
    requires pid < |db.payments|
  {
    [TransitionPayment(Plain(db.payments[pid].from), SubmitProof, pid, ""),
     TransitionPayment(Plain(db.payments[pid].to), Confirm, pid, "")]
  }

  lemma Confirmed(db: Db, pid: nat)
    requires pid < |db.payments| && db.payments[pid].status == Pending && db.payments[pid].from != db.payments[pid].to
    ensures var after := ServedAll(db, Confirming(db, pid));
            && after.members == db.members && after.status == db.status
            && |after.payments| == |db.payments|
            && after.payments[pid].status == CreditorConfirmed
            && after.payments[pid].from == db.payments[pid].from && after.payments[pid].to == db.payments[pid].to
            && forall k :: 0 <= k < |db.payments| && k != pid ==> after.payments[k] == db.payments[k]
  {
    var p := db.payments[pid];
    TwoServed(db, Confirming(db, pid)[0], Confirming(db, pid)[1]);
    StepTaken(db, Plain(p.from), SubmitProof, pid, "", ProofSubmitted);
    var proven := AfterTransition(db, Plain(p.from), SubmitProof, pid, "");
    StepTaken(proven, Plain(p.to), Confirm, pid, "", CreditorConfirmed);
  }

  function BothConfirming(db: Db): seq<Request>
    requires |db.payments| == 2
  {
    Confirming(db, 0) + Confirming(db, 1)
  }

  lemma BothConfirmed(db: Db, a: UserId)
    requires TwoOwed(db, a)
    ensures var after := ServedAll(db, BothConfirming(db));
            after.status == GroupClosed && |after.payments| == 2 && LastTwo(after, Plain(a), 0, Plain(a), 1)
  {
    Confirmed(db, 0);
    var half := ServedAll(db, Confirming(db, 0));
    Confirmed(half, 1);
    assert Confirming(half, 1) == Confirming(db, 1);
    ServedConcat(db, Confirming(db, 0), Confirming(db, 1));
  }

  /** The admin pays once for each of two members; then the group is closed. */
  function TreatsAndClose(a: UserId, b: UserId, c: UserId, x: int, y: int): seq<Request> {
    TwoTreats(a, b, c, x, y) + [CloseGroup(Plain(a))]
  }

  lemma ThenClosed(db: Db, a: UserId, b: UserId, c: UserId, e0: Expense, e1: Expense)
    requires Sound(db) && Treats(a, b, c, e0, e1)
    requires db.status == GroupOpen && db.members == Trio(a, b, c) && db.expenses == [e0, e1]
    ensures TwoOwed(AfterClose(db, Plain(a)), a)
  {
    TreatsBalance(db);
    TreatsClose(db, a, b, c, e0, e1);
  }

  lemma ClosedLast(db: Db, rs: seq<Request>, caller: Principal)
    ensures ServedAll(db, rs + [CloseGroup(caller)]) == AfterClose(ServedAll(db, rs), caller)
  {
    ServedConcat(db, rs, [CloseGroup(caller)]);
    ServedOne(ServedAll(db, rs), CloseGroup(caller));
  }

  lemma TreatsOpen(a: UserId, b: UserId, c: UserId, x: int, y: int, db: Db)
    requires a != b && a != c && b != c && x > 0 && y > 0
    requires db == ServedAll(Created(a).db, TwoTreats(a, b, c, x, y))
    ensures Sound(db) && db == Three(a, b, c, [Orphan(b, x), Orphan(c, y)])
  {
    TreatsServed(a, b, c, x, y);
    SoundAfter(a, TwoTreats(a, b, c, x, y));
  }

  lemma TreatsClosed(a: UserId, b: UserId, c: UserId, x: int, y: int)
    requires a != b && a != c && b != c && x > 0 && y > 0
    ensures TwoOwed(ServedAll(Created(a).db, TreatsAndClose(a, b, c, x, y)), a)
  {
    var db := ServedAll(Created(a).db, TwoTreats(a, b, c, x, y));
    TreatsOpen(a, b, c, x, y, db);
    ThenClosed(db, a, b, c, Orphan(b, x), Orphan(c, y));
    ClosedLast(Created(a).db, TwoTreats(a, b, c, x, y), Plain(a));
  }

  lemma ServedOne(db: Db, r: Request)
    ensures ServedAll(db, [r]) == Served(db, r)
  {
  }

  lemma ConfirmedAfter(db: Db, rs: seq<Request>, a: UserId)
    requires TwoOwed(ServedAll(db, rs), a)
    ensures var after := ServedAll(db, rs + BothConfirming(ServedAll(db, rs)));
            after.status == GroupClosed && |after.payments| == 2 && LastTwo(after, Plain(a), 0, Plain(a), 1)
  {
    BothConfirmed(ServedAll(db, rs), a);
    ServedConcat(db, rs, BothConfirming(ServedAll(db, rs)));
  }

  /** In a group of three, with no global admin anywhere: the admin pays for both
      others, closes, both debtors prove, the admin confirms both payments and
      finalizes them side by side. All payments are then settled and the group is
      not, over any further run. */
  lemma LastTwoFinalizationsStrandAGroup(a: UserId, b: UserId, c: UserId, x: int, y: int, more: seq<Event>)
    requires a != b && a != c && b != c && x > 0 && y > 0
    ensures var rs := TreatsAndClose(a, b, c, x, y);
            && |ServedAll(Created(a).db, rs).payments| == 2
            && var all := rs + BothConfirming(ServedAll(Created(a).db, rs));
               var db := Reached(Created(a), Scripts(all) + (SideBySide(Plain(a), 0, Plain(a), 1) + more)).db;
               db.status == GroupClosed && |db.payments| == 2 && AllSettled(db.payments)
  {
    var rs := TreatsAndClose(a, b, c, x, y);
    TreatsClosed(a, b, c, x, y);
    ConfirmedAfter(Created(a).db, rs, a);
    StrandsAfter(a, rs + BothConfirming(ServedAll(Created(a).db, rs)), Plain(a), more);
  }
}
