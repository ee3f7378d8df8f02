/** Orderly runs: a member is removed only while the checks for it still hold,
    and a finalization commits only while its count of unsettled payments still
    holds. Both are what one transaction at a time gives; neither is what the
    locks enforce. Under them the books always balance. */
module Orderly {
  import opened Sums
  import opened Ids
  import opened Planner
  import opened PlanBounds
  import opened Tables
  import opened Snapshots
  import opened TwoKey
  import opened Lifecycle
  import opened Invariants
  import opened Protocol
  import opened Guarantees

  /** The sharers an expense under way rests on: those looked up so far, then all. */
  function NamedSoFar(work: Work): set<UserId> {
    match work
    case Looking(_, seen) => seen
    case Inserted(e) => e.shares.Keys
    case _ => {}
  }

  predicate Names(tx: Tx, u: UserId) {
    tx.ExpenseTx? && u in NamedSoFar(tx.work)
  }

  /** The removal would still pass its checks, counting expenses under way. */
  predicate StillUnused(s: State, tid: nat) {
    tid in s.txs && s.txs[tid].RemoveTx? ==>
      var u, id := s.txs[tid].target, s.txs[tid].id;
      u in s.db.members && s.db.members[u].id == id ==>
        IsUnused(s.db, u) && forall t :: t in s.txs ==> !Names(s.txs[t], u)
  }

  /** Counting again at commit would give the same answer. */
  predicate StillCounted(s: State, tid: nat) {
    Paying(s, tid) && s.txs[tid].progress.Counted? ==>
      s.txs[tid].progress.lastOne == OthersSettled(s.db.payments, s.txs[tid].pid)
  }

  predicate IsOrderly(s: State, e: Event) {
    && (e.RemoveDelete? ==> StillUnused(s, e.tid))
    && (e.PayCommit? ==> StillCounted(s, e.tid))
  }

  ghost predicate OrderlyRun(s: State, events: seq<Event>)
    decreases |events|
  {
    events != [] ==> IsOrderly(s, events[0]) && OrderlyRun(After(s, events[0]), events[1..])
  }

  // ---------------------------------------------------------------------------
  // What orderly runs keep besides

  predicate HasAdmin(members: map<UserId, Membership>) {
    exists u :: u in members && members[u].role == GroupAdmin
  }

  predicate AllApproved(members: map<UserId, Membership>, us: set<UserId>) {
    forall u :: u in us ==> IsApproved(members, u)
  }

  /** Whoever shares a live expense is an approved member. */
  predicate SharersOk(members: map<UserId, Membership>, es: seq<Expense>) {
    forall k :: 0 <= k < |es| && !es[k].deleted ==> AllApproved(members, es[k].shares.Keys)
  }

  predicate ListFair(listed: seq<Listed>, es: seq<Expense>) {
    listed != [] && ListsShares(listed, es)
  }

  /** The group is settled exactly when it is closed and all its payments are settled. */
  predicate Complete(db: Db) {
    db.status == GroupSettled <==> db.status != GroupOpen && AllSettled(db.payments)
  }

  ghost predicate Fair(db: Db) {
    && HasAdmin(db.members)
    && SharersOk(db.members, db.expenses)
    && (db.runs != [] ==> ListFair(db.runs[0].listed, db.expenses))
    && Complete(db)
  }

  predicate TxFair(db: Db, tx: Tx) {
    match tx
    case ExpenseTx(_, _, work) => AllApproved(db.members, NamedSoFar(work))
    case CloseTx(_, r) =>
      r.Authorized? || r.Exclusive? || ListFair(r.listed, db.expenses)
    case _ => true
  }

  ghost predicate StateFair(s: State) {
    Fair(s.db) && forall t :: t in s.txs ==> TxFair(s.db, s.txs[t])
  }

  lemma CreatedFair(admin: UserId)
    ensures StateFair(Created(admin))
  {
    assert Created(admin).db.members[admin].role == GroupAdmin;
  }

  // ---------------------------------------------------------------------------
  // Members

  predicate Shares(e: Expense, u: UserId) {
    !e.deleted && u in e.shares
  }

  /** Approval stays with everybody who shares an expense, live or under way. */
  ghost predicate RetainsSharers(s: State, b: map<UserId, Membership>) {
    forall u :: IsApproved(s.db.members, u) && !IsApproved(b, u) ==>
      && (forall k :: 0 <= k < |s.db.expenses| ==> !Shares(s.db.expenses[k], u))
      && (forall t :: t in s.txs ==> !Names(s.txs[t], u))
  }

  lemma MemberStepFair(s: State, b: Db)
    requires StateFair(s) && OnlyMembersDiffer(s.db, b) && HasAdmin(b.members) && RetainsSharers(s, b.members)
    ensures StateFair(State(b, s.txs))
  {
    forall k | 0 <= k < |b.expenses| && !b.expenses[k].deleted
      ensures AllApproved(b.members, b.expenses[k].shares.Keys)
    {
      assert AllApproved(s.db.members, s.db.expenses[k].shares.Keys);
      forall u | u in b.expenses[k].shares
        ensures IsApproved(b.members, u)
      {
        assert Shares(s.db.expenses[k], u);
      }
    }
    forall t | t in s.txs
      ensures TxFair(b, s.txs[t])
    {
      assert TxFair(s.db, s.txs[t]);
      if s.txs[t].ExpenseTx? {
        forall u | u in NamedSoFar(s.txs[t].work)
          ensures IsApproved(b.members, u)
        {
          assert Names(s.txs[t], u);
        }
      }
    }
  }

  lemma AdminStays(db: Db, caller: Principal, u: UserId, standing: Standing)
    requires HasAdmin(db.members)
    ensures HasAdmin(Joined(db, caller).members)
    ensures HasAdmin(Decided(db, caller, u, standing).members)
    ensures HasAdmin(HandedOver(db, caller, u).members)
  {
    var a :| a in db.members && db.members[a].role == GroupAdmin;
    assert a in Joined(db, caller).members && Joined(db, caller).members[a].role == GroupAdmin;
    var decided := Decided(db, caller, u, standing).members;
    assert a in decided && decided[a].role == GroupAdmin;
    var handed := HandedOver(db, caller, u).members;
    assert (a in handed && handed[a].role == GroupAdmin) || (u in handed && handed[u].role == GroupAdmin);
  }

  lemma ApprovalStays(db: Db, caller: Principal, u: UserId, standing: Standing, x: UserId)
    requires IsApproved(db.members, x)
    ensures IsApproved(Joined(db, caller).members, x)
    ensures IsApproved(Decided(db, caller, u, standing).members, x)
    ensures IsApproved(HandedOver(db, caller, u).members, x)
  {
  }

  lemma MemberEventFair(s: State, e: Event)
    requires StateFair(s) && (e.Join? || e.Decide? || e.HandOver?)
    ensures StateFair(After(s, e))
  {
    var u, standing := if e.Join? then "" else e.user, if e.Decide? && e.approve then Approved else Rejected;
    AdminStays(s.db, e.caller, u, standing);
    forall x | IsApproved(s.db.members, x)
      ensures IsApproved(After(s, e).db.members, x)
    {
      ApprovalStays(s.db, e.caller, u, standing, x);
    }
    MemberStepFair(s, After(s, e).db);
  }

  lemma RemovedKeepsAdmin(db: Db, target: UserId, id: MembershipId)
    requires HasAdmin(db.members)
    requires target in db.members && db.members[target].id == id ==> db.members[target].role != GroupAdmin
    ensures HasAdmin(Removed(db, target, id).members)
  {
    var a :| a in db.members && db.members[a].role == GroupAdmin;
    assert a in Removed(db, target, id).members;
  }

  lemma RemovedKeepsSharers(s: State, tid: nat)
    requires StillUnused(s, tid) && tid in s.txs && s.txs[tid].RemoveTx?
    ensures RetainsSharers(s, Removed(s.db, s.txs[tid].target, s.txs[tid].id).members)
  {
    var target, id := s.txs[tid].target, s.txs[tid].id;
    if target in s.db.members && s.db.members[target].id == id {
      assert !HasShares(s.db.expenses, target);
    }
  }

  lemma RemoveDeleteFair(s: State, tid: nat)
    requires StateFair(s) && StillUnused(s, tid)
    ensures StateFair(AfterRemoveDelete(s, tid))
  {
    if tid in s.txs && s.txs[tid].RemoveTx? {
      var b := Removed(s.db, s.txs[tid].target, s.txs[tid].id);
      RemovedKeepsAdmin(s.db, s.txs[tid].target, s.txs[tid].id);
      RemovedKeepsSharers(s, tid);
      MemberStepFair(s, b);
    }
  }

  /** The foreign keys let the deletion through. */
  predicate WillRemove(s: State, tid: nat) {
    && tid in s.txs && s.txs[tid].RemoveTx?
    && !InsertPending(s.txs, s.txs[tid].id)
    && !Referenced(s.db, s.txs[tid].target, s.txs[tid].id)
    && s.txs[tid].target in s.db.members && s.db.members[s.txs[tid].target].id == s.txs[tid].id
  }

  lemma UnfairRemoval(s: State, tid: nat)
    requires AdminsOk(s.db.members) && WillRemove(s, tid) && StateFair(AfterRemoveDelete(s, tid))
    ensures StillUnused(s, tid)
  {
    var u, t := s.txs[tid].target, AfterRemoveDelete(s, tid);
    assert !IsApproved(t.db.members, u);
    forall k | 0 <= k < |s.db.expenses| && !s.db.expenses[k].deleted
      ensures u !in s.db.expenses[k].shares
    {
      assert AllApproved(t.db.members, t.db.expenses[k].shares.Keys);
    }
    forall w | w in s.txs
      ensures !Names(s.txs[w], u)
    {
      assert w != tid ==> w in t.txs && TxFair(t.db, t.txs[w]);
    }
  }

  /** What the foreign keys let through keeps an admin and keeps everybody who
      shares an expense, live or under way, if and only if the member is not the
      admin, has no live share, and is named by no expense under way. */
  lemma RemovalIsFairIffUnused(s: State, tid: nat)
    requires Inv(s) && StateFair(s) && WillRemove(s, tid)
    ensures StateFair(AfterRemoveDelete(s, tid)) <==> StillUnused(s, tid)
  {
    if StillUnused(s, tid) {
      RemoveDeleteFair(s, tid);
    }
    if StateFair(AfterRemoveDelete(s, tid)) {
      UnfairRemoval(s, tid);
    }
  }

  // ---------------------------------------------------------------------------
  // Transactions under way

  /** Only this transaction differs, if it is still there. */
  predicate OnlyTxDiffers(s: State, t: State, tid: nat) {
    t.db == s.db && forall u :: u in t.txs && u != tid ==> u in s.txs && t.txs[u] == s.txs[u]
  }

  /** A statement that writes no row and leaves its transaction fair. */
  lemma StatementFair(s: State, t: State, tid: nat)
    requires StateFair(s) && OnlyTxDiffers(s, t, tid)
    requires tid in t.txs ==> TxFair(s.db, t.txs[tid])
    ensures StateFair(t)
  {
  }

  lemma ExpenseCheckFair(s: State, tid: nat, amount: int, category: Category, shares: map<UserId, int>)
    requires StateFair(s)
    ensures StateFair(AfterExpenseCheck(s, tid, amount, category, shares))
  {
    StatementFair(s, AfterExpenseCheck(s, tid, amount, category, shares), tid);
  }

  lemma ExpenseLookupFair(s: State, tid: nat, u: UserId)
    requires StateFair(s)
    ensures StateFair(AfterExpenseLookup(s, tid, u))
  {
    assert tid in s.txs ==> TxFair(s.db, s.txs[tid]);
    StatementFair(s, AfterExpenseLookup(s, tid, u), tid);
  }

  lemma ExpenseInsertFair(s: State, tid: nat)
    requires StateFair(s)
    ensures StateFair(AfterExpenseInsert(s, tid))
  {
    assert tid in s.txs ==> TxFair(s.db, s.txs[tid]);
    StatementFair(s, AfterExpenseInsert(s, tid), tid);
  }

  /** The statements that lock, read or decide, and name nobody. */
  predicate NamesNobody(e: Event) {
    || e.ExpenseLock? || e.ExpenseUpdate? || e.ExpenseDelete? || e.CloseAuthorize? || e.CloseLock?
    || e.PayRead? || e.PayProve? || e.PayGuard? || e.PayCount? || e.RemoveCheck? || e.Abort?
  }

  lemma ExpenseNamesNobody(s: State, e: Event)
    requires StateFair(s) && (e.ExpenseLock? || e.ExpenseUpdate? || e.ExpenseDelete?)
    ensures StateFair(After(s, e))
  {
    StatementFair(s, After(s, e), e.tid);
  }

  lemma CloseNamesNobody(s: State, e: Event)
    requires StateFair(s) && (e.CloseAuthorize? || e.CloseLock?)
    ensures StateFair(After(s, e))
  {
    StatementFair(s, After(s, e), e.tid);
  }

  lemma PayNamesNobody(s: State, e: Event)
    requires StateFair(s) && (e.PayRead? || e.PayProve? || e.PayGuard? || e.PayCount?)
    ensures StateFair(After(s, e))
  {
    StatementFair(s, After(s, e), e.tid);
  }

  lemma NamesNobodyFair(s: State, e: Event)
    requires StateFair(s) && NamesNobody(e)
    ensures StateFair(After(s, e))
  {
    if e.ExpenseLock? || e.ExpenseUpdate? || e.ExpenseDelete? {
      ExpenseNamesNobody(s, e);
    } else if e.CloseAuthorize? || e.CloseLock? {
      CloseNamesNobody(s, e);
    } else if e.PayRead? || e.PayProve? || e.PayGuard? || e.PayCount? {
      PayNamesNobody(s, e);
    } else {
      StatementFair(s, After(s, e), e.tid);
    }
  }

  lemma WrittenSharers(members: map<UserId, Membership>, es: seq<Expense>, work: Work)
    requires SharersOk(members, es)
    requires work.Inserted? ==> AllApproved(members, work.expense.shares.Keys)
    ensures SharersOk(members, Written(es, work))
  {
    var after := Written(es, work);
    forall k | 0 <= k < |after| && !after[k].deleted
      ensures AllApproved(members, after[k].shares.Keys)
    {
      if k < |es| {
        assert AllApproved(members, es[k].shares.Keys);
      }
    }
  }

  lemma ExpenseCommitFair(s: State, tid: nat)
    requires Inv(s) && StateFair(s)
    ensures StateFair(AfterExpenseCommit(s, tid))
  {
    if AtWork(s, tid) {
      assert TxOk(s.db, s.txs[tid]) && TxFair(s.db, s.txs[tid]);
      WrittenSharers(s.db.members, s.db.expenses, s.txs[tid].work);
      forall u | u in s.txs && u != tid
        ensures TxFair(AfterExpenseCommit(s, tid).db, s.txs[u])
      {
        assert TxFair(s.db, s.txs[u]) && Apart(s.txs[tid], s.txs[u]);
      }
    }
  }

  // ---------------------------------------------------------------------------
  // Closing

  /** The list a close reads has everybody who shares an expense, and the admin. */
  lemma ApprovedListFair(db: Db)
    requires SharersOk(db.members, db.expenses) && AdminsOk(db.members) && HasAdmin(db.members)
    ensures ListFair(ApprovedList(db.members), db.expenses)
  {
    var listed := ApprovedList(db.members);
    ApprovedListIs(db.members);
    var a :| a in db.members && db.members[a].role == GroupAdmin;
    assert IsApproved(db.members, a);
    forall k, u | 0 <= k < |db.expenses| && !db.expenses[k].deleted && u in db.expenses[k].shares
      ensures u in UserIds(listed)
    {
      assert AllApproved(db.members, db.expenses[k].shares.Keys);
      assert IsApproved(db.members, u);
      var i :| 0 <= i < |listed| && listed[i].user == u;
      assert UserIds(listed)[i] == u;
    }
  }

  lemma CloseReadFair(s: State, tid: nat)
    requires DbOk(s.db) && StateFair(s)
    ensures StateFair(AfterCloseRead(s, tid))
  {
    if Closing(s, tid) {
      assert TxFair(s.db, s.txs[tid]);
      ApprovedListFair(s.db);
      StatementFair(s, AfterCloseRead(s, tid), tid);
    }
  }

  lemma OpeningsUnsettled(plan: seq<Transfer>)
    ensures AllSettled(Openings(plan)) <==> plan == []
  {
    if plan != [] {
      assert !IsSettled(Openings(plan)[0]);
    }
  }

  lemma ClosedFair(db: Db, run: SettlementRun)
    requires Fair(db) && db.payments == [] && db.runs == [] && ListFair(run.listed, db.expenses)
    ensures Fair(Closed(db, run))
  {
    var plan := Plan(run.snapshot.members);
    OpeningsUnsettled(plan);
    assert db.payments + Openings(plan) == Openings(plan);
  }

  lemma CloseCommitFair(s: State, tid: nat)
    requires Inv(s) && StateFair(s)
    ensures StateFair(AfterCloseCommit(s, tid))
  {
    if Closing(s, tid) && s.txs[tid].reading.GotRows? {
      assert TxOk(s.db, s.txs[tid]) && TxFair(s.db, s.txs[tid]);
      var run := RunOf(s.txs[tid].caller.user, s.txs[tid].reading);
      ClosedFair(s.db, run);
      forall u | u in s.txs && u != tid
        ensures TxFair(Closed(s.db, run), s.txs[u])
      {
        assert TxFair(s.db, s.txs[u]) && Apart(s.txs[tid], s.txs[u]);
      }
    }
  }

  // ---------------------------------------------------------------------------
  // Paying

  /** A finalization keeps the group complete exactly when its count still
      holds; the other steps always do. */
  lemma PaidIsComplete(db: Db, tx: Tx)
    requires DbOk(db) && Complete(db) && MayCommit(db, tx) && ReadyToCommit(tx)
    ensures Complete(Paid(db, tx)) <==>
            (tx.next == Settled ==> tx.progress.lastOne == OthersSettled(db.payments, tx.pid))
  {
    assert Lawful(EntryFor(tx), db.payments[tx.pid].from, db.payments[tx.pid].to);
    var after := Paid(db, tx);
    assert !IsSettled(db.payments[tx.pid]);
    AllOrOthers(db.payments, tx.pid, tx.next);
  }

  lemma AllOrOthers(payments: seq<Payment>, pid: nat, next: Status)
    requires pid < |payments|
    ensures AllSettled(payments[pid := Transitioned(payments[pid], next)]) <==>
            next == Settled && OthersSettled(payments, pid)
  {
    var after := payments[pid := Transitioned(payments[pid], next)];
    assert IsSettled(after[pid]) <==> next == Settled;
    if AllSettled(after) {
      forall k | 0 <= k < |payments| && k != pid
        ensures IsSettled(payments[k])
      {
        assert IsSettled(after[k]);
      }
    }
  }

  lemma PayCommitFair(s: State, tid: nat)
    requires Inv(s) && StateFair(s) && StillCounted(s, tid)
    ensures StateFair(AfterPayCommit(s, tid))
  {
    if Paying(s, tid) && ReadyToCommit(s.txs[tid]) {
      assert TxOk(s.db, s.txs[tid]);
      PaidIsComplete(s.db, s.txs[tid]);
    }
  }

  // ---------------------------------------------------------------------------
  // Orderly runs

  lemma EventFair(s: State, e: Event)
    requires Inv(s) && StateFair(s) && IsOrderly(s, e)
    ensures StateFair(After(s, e))
  {
    if NamesNobody(e) {
      NamesNobodyFair(s, e);
    } else {
      match e
      case Join(_) => MemberEventFair(s, e);
      case Decide(_, _, _) => MemberEventFair(s, e);
      case HandOver(_, _) => MemberEventFair(s, e);
      case RemoveDelete(tid) => RemoveDeleteFair(s, tid);
      case ExpenseCheck(tid, amount, category, shares) => ExpenseCheckFair(s, tid, amount, category, shares);
      case ExpenseLookup(tid, u) => ExpenseLookupFair(s, tid, u);
      case ExpenseInsert(tid) => ExpenseInsertFair(s, tid);
      case ExpenseCommit(tid) => ExpenseCommitFair(s, tid);
      case CloseRead(tid) => CloseReadFair(s, tid);
      case CloseCommit(tid) => CloseCommitFair(s, tid);
      case PayCommit(tid) => PayCommitFair(s, tid);
    }
  }

  lemma {:induction false} RunFair(s: State, events: seq<Event>)
    requires Inv(s) && StateFair(s) && OrderlyRun(s, events)
    ensures Inv(Reached(s, events)) && StateFair(Reached(s, events))
    decreases |events|
  {
    if events != [] {
      EventKeeps(s, events[0]);
      EventFair(s, events[0]);
      RunFair(After(s, events[0]), events[1..]);
    }
  }

  ghost predicate OrderlyReachable(db: Db) {
    exists admin, events :: OrderlyRun(Created(admin), events) && db == Reached(Created(admin), events).db
  }

  lemma OrderlyOk(db: Db)
    requires OrderlyReachable(db)
    ensures DbOk(db) && Fair(db)
  {
    var admin, events :| OrderlyRun(Created(admin), events) && db == Reached(Created(admin), events).db;
    CreatedOk(admin);
    CreatedFair(admin);
    RunFair(Created(admin), events);
  }

  /** In orderly runs a group has exactly one admin, who is approved. */
  lemma ExactlyOneAdmin(db: Db)
    requires OrderlyReachable(db)
    ensures exists a :: IsAdmin(db.members, a) &&
                        forall u :: u in db.members && db.members[u].role == GroupAdmin ==> u == a
  {
    OrderlyOk(db);
    var a :| a in db.members && db.members[a].role == GroupAdmin;
    assert IsAdmin(db.members, a);
  }

  /** In orderly runs everybody who pays or shares is an approved member, so the
      nets of a close sum to zero and total, paid and fair shares agree. */
  lemma BooksBalance(db: Db)
    requires OrderlyReachable(db) && db.runs != []
    ensures var s := db.runs[0].snapshot;
            && s.memberCount >= 1
            && ZeroSum(s.members)
            && SumBy(FairAmount(), s.members) == s.totalSpent == LiveTotal(db.expenses)
  {
    OrderlyOk(db);
    ZeroSumIffNoOutsider(db.runs[0].listed, db.expenses);
    TotalsAgree(db.runs[0].listed, db.expenses);
  }

  /** In orderly runs a closed group is settled exactly when all its payments
      are, and with these payments every member has paid exactly the fair share. */
  lemma EverybodyIsSquare(db: Db)
    requires OrderlyReachable(db) && db.runs != []
    ensures db.status == GroupSettled <==> AllSettled(db.payments)
    ensures AllSquare(db.runs[0].snapshot.members, db.payments)
  {
    OrderlyOk(db);
    SquareIffNoOutsider(db);
    ZeroSumIffNoOutsider(db.runs[0].listed, db.expenses);
  }
}
