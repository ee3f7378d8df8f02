/** Every event keeps the invariant: expense, close and payment transactions. */
module Protocol {
  import opened Sums
  import opened Ids
  import opened Planner
  import opened Tables
  import opened Snapshots
  import opened TwoKey
  import opened Lifecycle
  import opened Invariants

  // ---------------------------------------------------------------------------
  // Expense transactions

  lemma ExpenseLockKeeps(s: State, tid: nat, caller: Principal, inRange: bool)
    requires Inv(s)
    ensures Inv(AfterExpenseLock(s, tid, caller, inRange))
  {
    if tid !in s.txs && NoneExclusive(s.txs, tid) && s.db.status == GroupOpen {
      WithKeeps(s, tid, ExpenseTx(caller, inRange, Locked));
    }
  }

  /** Going on with the work changes no group lock. */
  lemma WorkKeeps(s: State, tid: nat, work: Work)
    requires Inv(s) && AtWork(s, tid) && WorkOk(s.db, work)
    requires work.Updated? || work.Deleted? ==> ExpenseFree(s.txs, tid, work.eid)
    ensures Inv(With(s, tid, s.txs[tid].(work := work)))
  {
    var tx := s.txs[tid].(work := work);
    forall t | t in s.txs && t != tid
      ensures Apart(tx, s.txs[t])
    {
      assert Apart(s.txs[tid], s.txs[t]);
    }
    WithKeeps(s, tid, tx);
  }

  lemma ExpenseCheckKeeps(s: State, tid: nat, amount: int, category: Category, shares: map<UserId, int>)
    requires Inv(s)
    ensures Inv(AfterExpenseCheck(s, tid, amount, category, shares))
  {
    if AtWork(s, tid) && s.txs[tid].work.Locked? {
      var user := s.txs[tid].caller.user;
      if s.txs[tid].inRange && IsApproved(s.db.members, user) && ValidRequest(amount, shares) {
        WorkKeeps(s, tid, Looking(Recording(s.db, user, amount, category, shares), {}));
      } else {
        WithoutKeeps(s, tid);
      }
    }
  }

  lemma ExpenseLookupKeeps(s: State, tid: nat, u: UserId)
    requires Inv(s)
    ensures Inv(AfterExpenseLookup(s, tid, u))
  {
    if AtWork(s, tid) && s.txs[tid].work.Looking? && u in s.txs[tid].work.expense.shares {
      assert TxOk(s.db, s.txs[tid]);
      if IsApproved(s.db.members, u) {
        WorkKeeps(s, tid, Looking(s.txs[tid].work.expense, s.txs[tid].work.seen + {u}));
      } else {
        WithoutKeeps(s, tid);
      }
    }
  }

  lemma PayerIsApproved(db: Db, e: Expense)
    requires PayerOk(db, e) && HasId(db.members, e.paidBy)
    ensures HasApproved(db.members, e.paidBy)
  {
    var u :| u in db.members && db.members[u].id == e.paidBy;
    assert db.members[u].standing == Approved;
  }

  lemma ExpenseInsertKeeps(s: State, tid: nat)
    requires Inv(s)
    ensures Inv(AfterExpenseInsert(s, tid))
  {
    if AtWork(s, tid) && s.txs[tid].work.Looking? && s.txs[tid].work.seen == s.txs[tid].work.expense.shares.Keys {
      var e := s.txs[tid].work.expense;
      assert TxOk(s.db, s.txs[tid]);
      if HasId(s.db.members, e.paidBy) {
        PayerIsApproved(s.db, e);
        WorkKeeps(s, tid, Inserted(e));
      } else {
        WithoutKeeps(s, tid);
      }
    }
  }

  lemma ExpenseChangeKeeps(s: State, tid: nat, eid: nat, amount: int, category: Category)
    requires Inv(s)
    ensures Inv(AfterExpenseUpdate(s, tid, eid, amount, category))
    ensures Inv(AfterExpenseDelete(s, tid, eid))
  {
    if AtWork(s, tid) && s.txs[tid].work.Locked? && ExpenseFree(s.txs, tid, eid) {
      WithoutKeeps(s, tid);
      if OwnsLive(s.db, s.txs[tid].caller.user, eid) {
        WorkKeeps(s, tid, Deleted(eid));
        if amount > 0 {
          WorkKeeps(s, tid, Updated(eid, amount, category));
        }
      }
    }
  }

  lemma WrittenOk(db: Db, work: Work)
    requires ValidExpenses(db.expenses) && PayersOk(db.members, db.expenses) && WorkOk(db, work)
    ensures var es := Written(db.expenses, work);
            ValidExpenses(es) && PayersOk(db.members, es) && |es| >= |db.expenses|
  {
  }

  lemma ExpenseCommitKeepsTx(a: Db, es: seq<Expense>, tx: Tx)
    requires TxOk(a, tx) && !HoldsExclusive(tx) && a.payments == [] && |es| >= |a.expenses|
    ensures TxOk(a.(expenses := es), tx)
  {
  }

  lemma ExpenseCommitKeeps(s: State, tid: nat)
    requires Inv(s)
    ensures Inv(AfterExpenseCommit(s, tid))
  {
    if AtWork(s, tid) {
      assert TxOk(s.db, s.txs[tid]);
      var es := Written(s.db.expenses, s.txs[tid].work);
      WrittenOk(s.db, s.txs[tid].work);
      var db := s.db.(expenses := es);
      HistoriesFollow(s.db, db);
      forall t | t in s.txs - {tid}
        ensures TxOk(db, s.txs[t])
      {
        assert Apart(s.txs[tid], s.txs[t]);
        ExpenseCommitKeepsTx(s.db, es, s.txs[t]);
      }
      FinishKeeps(s, tid, db);
    }
  }

  // ---------------------------------------------------------------------------
  // Close transactions

  lemma CloseAuthorizeKeeps(s: State, tid: nat, caller: Principal)
    requires Inv(s)
    ensures Inv(AfterCloseAuthorize(s, tid, caller))
  {
    if tid !in s.txs && MayAdminister(s.db.members, caller) {
      WithKeeps(s, tid, CloseTx(caller, Authorized));
    }
  }

  lemma CloseLockKeeps(s: State, tid: nat)
    requires Inv(s)
    ensures Inv(AfterCloseLock(s, tid))
  {
    if Closing(s, tid) && s.txs[tid].reading.Authorized? && NoneExclusive(s.txs, tid) && NoneShared(s.txs, tid) {
      WithoutKeeps(s, tid);
      if s.db.status == GroupOpen {
        WithKeeps(s, tid, s.txs[tid].(reading := Exclusive));
      }
    }
  }

  lemma PayerListed(members: map<UserId, Membership>, id: MembershipId)
    requires HasApproved(members, id)
    ensures ListsId(ApprovedList(members), id)
  {
    var listed := ApprovedList(members);
    ApprovedListIs(members);
    var u :| u in members && members[u].id == id && members[u].standing == Approved;
    assert IsApproved(members, u);
    var i :| 0 <= i < |listed| && listed[i].user == u;
    assert listed[i].id == id;
  }

  /** The approved members, each once; whoever paid is among them. */
  lemma ApprovedListOk(db: Db)
    requires MembersOk(db) && PayersOk(db.members, db.expenses)
    ensures ListOk(ApprovedList(db.members), db.expenses)
  {
    var listed := ApprovedList(db.members);
    ApprovedListIs(db.members);
    forall i, j | 0 <= i < j < |listed|
      ensures listed[i].id != listed[j].id && listed[i].user != listed[j].user
    {
    }
    forall k | 0 <= k < |db.expenses|
      ensures ListsId(listed, db.expenses[k].paidBy)
    {
      PayerListed(db.members, db.expenses[k].paidBy);
    }
  }

  lemma ApprovedListIs(members: map<UserId, Membership>)
    ensures var listed := ApprovedList(members);
            && (forall i :: 0 <= i < |listed| ==>
                  IsApproved(members, listed[i].user) && listed[i].id == members[listed[i].user].id)
            && (forall i, j :: 0 <= i < j < |listed| ==> listed[i].user != listed[j].user)
            && (forall u :: IsApproved(members, u) ==> exists i :: 0 <= i < |listed| && listed[i].user == u)
  {
    var us := InOrder(ApprovedUsers(members));
    InOrderIs(ApprovedUsers(members));
    var listed := ApprovedList(members);
    forall i | 0 <= i < |listed|
      ensures IsApproved(members, listed[i].user) && listed[i].id == members[listed[i].user].id
    {
      assert us[i] in us;
    }
    forall u | IsApproved(members, u)
      ensures exists i :: 0 <= i < |listed| && listed[i].user == u
    {
      assert u in us;
      var i :| 0 <= i < |us| && us[i] == u;
      assert listed[i].user == u;
    }
  }

  lemma ReadOk(db: Db, r: Reading)
    requires DbOk(db) && CloseOk(db, r)
    ensures CloseOk(db, Read(db, r))
  {
    if r.Exclusive? {
      ApprovedListOk(db);
    }
  }

  lemma CloseReadKeeps(s: State, tid: nat)
    requires Inv(s)
    ensures Inv(AfterCloseRead(s, tid))
  {
    if Closing(s, tid) {
      assert TxOk(s.db, s.txs[tid]);
      ReadOk(s.db, s.txs[tid].reading);
      var tx := s.txs[tid].(reading := Read(s.db, s.txs[tid].reading));
      forall t | t in s.txs && t != tid
        ensures Apart(tx, s.txs[t])
      {
        assert Apart(s.txs[tid], s.txs[t]);
      }
      WithKeeps(s, tid, tx);
    }
  }

  /** What a close computes is the snapshot of the expenses it closes over. */
  lemma RunIsSnapshot(db: Db, user: UserId, r: Reading)
    requires r.GotRows? && RowsOk(db.expenses, r)
    ensures RunOf(user, r).snapshot == SnapshotOf(r.listed, db.expenses)
  {
  }

  lemma OpenHistories(db: Db, payments: seq<Payment>)
    requires db.log == [] && db.proofs == []
    requires forall i :: 0 <= i < |payments| ==> payments[i].status == Pending && payments[i].version == 0
    ensures HistoriesOk(db.(payments := payments)) && ProofsOk(db.(payments := payments))
  {
  }

  lemma OpeningsMatch(plan: seq<Transfer>)
    ensures Matches(Openings(plan), plan)
    ensures plan == [] ==> AllSettled(Openings(plan))
  {
  }

  lemma ClosedRuns(db: Db, run: SettlementRun, plan: seq<Transfer>)
    requires db.runs == [] && db.payments == [] && plan == Plan(run.snapshot.members)
    requires ListOk(run.listed, db.expenses) && run.snapshot == SnapshotOf(run.listed, db.expenses)
    ensures RunsOk(ClosedWith(db, run, plan))
  {
    OpeningsMatch(plan);
    assert db.payments + Openings(plan) == Openings(plan);
  }

  lemma ClosedSettled(db: Db, run: SettlementRun, plan: seq<Transfer>)
    requires db.payments == []
    ensures SettledOk(ClosedWith(db, run, plan))
  {
    OpeningsMatch(plan);
    assert db.payments + Openings(plan) == Openings(plan);
  }

  lemma ClosedHistories(db: Db, run: SettlementRun, plan: seq<Transfer>)
    requires db.payments == [] && db.log == [] && db.proofs == []
    ensures HistoriesOk(ClosedWith(db, run, plan)) && ProofsOk(ClosedWith(db, run, plan))
  {
    var after := ClosedWith(db, run, plan);
    OpenHistories(db, after.payments);
    HistoriesFollow(db.(payments := after.payments), after);
  }

  lemma ClosedOk(db: Db, user: UserId, r: Reading)
    requires DbOk(db) && db.status == GroupOpen && r.GotRows? && RowsOk(db.expenses, r)
    ensures DbOk(Closed(db, RunOf(user, r)))
  {
    var run := RunOf(user, r);
    var plan := Plan(run.snapshot.members);
    RunIsSnapshot(db, user, r);
    ClosedRuns(db, run, plan);
    ClosedSettled(db, run, plan);
    ClosedHistories(db, run, plan);
  }

  lemma ClosedKeepsTx(db: Db, run: SettlementRun, tx: Tx)
    requires TxOk(db, tx) && !HoldsExclusive(tx) && !HoldsShare(tx) && db.payments == []
    ensures TxOk(Closed(db, run), tx)
  {
  }

  lemma CloseCommitKeeps(s: State, tid: nat)
    requires Inv(s)
    ensures Inv(AfterCloseCommit(s, tid))
  {
    if Closing(s, tid) && s.txs[tid].reading.GotRows? {
      assert TxOk(s.db, s.txs[tid]);
      var run := RunOf(s.txs[tid].caller.user, s.txs[tid].reading);
      WithoutKeeps(s, tid);
      ClosedOk(s.db, s.txs[tid].caller.user, s.txs[tid].reading);
      forall t | t in s.txs - {tid}
        ensures TxOk(Closed(s.db, run), s.txs[t])
      {
        assert Apart(s.txs[tid], s.txs[t]);
        ClosedKeepsTx(s.db, run, s.txs[t]);
      }
      FinishKeeps(s, tid, Closed(s.db, run));
    }
  }

  // ---------------------------------------------------------------------------
  // Payment transactions

  lemma PayReadKeeps(s: State, tid: nat, caller: Principal, action: Action, pid: nat, content: string)
    requires Inv(s)
    ensures Inv(AfterPayRead(s, tid, caller, action, pid, content))
  {
    if tid !in s.txs && pid < |s.db.payments| {
      var p := s.db.payments[pid];
      var actor := ActorOf(s.db, caller, p);
      var verdict := Validate(action, actor, p.status);
      if verdict.Next? && Participates(actor) {
        WithKeeps(s, tid, PayTx(caller, action, actor, pid, p.status, p.version, verdict.status, content,
                                Validated));
      }
    }
  }

  lemma ProgressKeeps(s: State, tid: nat, progress: Progress)
    requires Inv(s) && Paying(s, tid)
    requires var tx := s.txs[tid].(progress := progress);
             PayOk(s.db, tx) && forall t :: t in s.txs && t != tid ==> Apart(tx, s.txs[t])
    ensures Inv(With(s, tid, s.txs[tid].(progress := progress)))
  {
    WithKeeps(s, tid, s.txs[tid].(progress := progress));
  }

  lemma PayProveKeeps(s: State, tid: nat)
    requires Inv(s)
    ensures Inv(AfterPayProve(s, tid))
  {
    if Paying(s, tid) && s.txs[tid].progress.Validated? {
      assert TxOk(s.db, s.txs[tid]);
      var unset := if s.txs[tid].action == SubmitProof then CurrentProofs(s.db.proofs, s.txs[tid].pid) else {};
      ProgressKeeps(s, tid, Proved(unset));
    }
  }

  lemma PayGuardKeeps(s: State, tid: nat)
    requires Inv(s)
    ensures Inv(AfterPayGuard(s, tid))
  {
    if Paying(s, tid) && s.txs[tid].progress.Proved? && PaymentFree(s.txs, tid, s.txs[tid].pid) {
      assert TxOk(s.db, s.txs[tid]);
      if s.db.payments[s.txs[tid].pid].version == s.txs[tid].version {
        ProgressKeeps(s, tid, Guarded(s.txs[tid].progress.unset));
      } else {
        WithoutKeeps(s, tid);
      }
    }
  }

  lemma PayCountKeeps(s: State, tid: nat)
    requires Inv(s)
    ensures Inv(AfterPayCount(s, tid))
  {
    if Paying(s, tid) && s.txs[tid].progress.Guarded? && s.txs[tid].next == Settled {
      assert TxOk(s.db, s.txs[tid]);
      var lastOne := OthersSettled(s.db.payments, s.txs[tid].pid);
      if !lastOne || (NoneExclusive(s.txs, tid) && NoneShared(s.txs, tid)) {
        var progress := Counted(s.txs[tid].progress.unset, lastOne);
        forall t | t in s.txs && t != tid
          ensures Apart(s.txs[tid].(progress := progress), s.txs[t])
        {
          assert Apart(s.txs[tid], s.txs[t]);
        }
        ProgressKeeps(s, tid, progress);
      }
    }
  }

  /** A payment transaction about to commit: it holds the row it has seen. */
  ghost predicate MayCommit(db: Db, tx: Tx) {
    tx.PayTx? && PayOk(db, tx) && HoldsPayment(tx, tx.pid)
  }

  lemma HistorySnoc(log: seq<TwoKey.Entry>, e: TwoKey.Entry, pid: nat)
    ensures HistoryOf(log + [e], pid) == if e.pid == pid then HistoryOf(log, pid) + [e] else HistoryOf(log, pid)
  {
    assert (log + [e])[..|log|] == log;
  }

  lemma PaidHistories(db: Db, tx: Tx)
    requires HistoriesOk(db) && MayCommit(db, tx)
    ensures HistoriesOk(Paid(db, tx))
  {
    var after := Paid(db, tx);
    forall pid | 0 <= pid < |after.payments|
      ensures HistoryOk(after, pid)
    {
      assert HistoryOk(db, pid);
      HistorySnoc(db.log, EntryFor(tx), pid);
      if pid == tx.pid {
        ChainSnoc(HistoryOf(db.log, pid), EntryFor(tx), db.payments[pid].from, db.payments[pid].to);
      }
    }
  }

  lemma {:induction false} SupersededCount(proofs: seq<Proof>, unset: set<nat>, pid: nat)
    ensures SumBy(ProofFor(pid), Superseded(proofs, unset)) == SumBy(ProofFor(pid), proofs)
  {
    if proofs != [] {
      var n := |proofs| - 1;
      SupersededCount(proofs[..n], unset, pid);
      SumByLast(ProofFor(pid), proofs);
      SumByLast(ProofFor(pid), Superseded(proofs, unset));
      assert Superseded(proofs, unset)[..n] == Superseded(proofs[..n], unset);
    }
  }

  lemma PaidProofCounts(db: Db, tx: Tx, pid: nat)
    requires MayCommit(db, tx) && ProofsCounted(db, pid)
    ensures ProofsCounted(Paid(db, tx), pid)
  {
    var e := EntryFor(tx);
    HistorySnoc(db.log, e, pid);
    SumBySnoc(SubmitStep(), HistoryOf(db.log, pid), e);
    var marked := Superseded(db.proofs, tx.progress.unset);
    SupersededCount(db.proofs, tx.progress.unset, pid);
    SumBySnoc(ProofFor(pid), marked, Proof(tx.pid, tx.content, true));
  }

  lemma LatestExtends(proofs: seq<Proof>, unset: set<nat>, p: Proof, k: nat)
    requires k < |proofs|
    ensures var after := Superseded(proofs, unset) + [p];
            IsLatest(after, k) <==> IsLatest(proofs, k) && proofs[k].pid != p.pid
  {
    var after := Superseded(proofs, unset) + [p];
    assert after[|proofs|] == p;
    if IsLatest(after, k) {
      forall j | k < j < |proofs|
        ensures proofs[j].pid != proofs[k].pid
      {
        assert after[j].pid == proofs[j].pid;
      }
    }
  }

  lemma PaidProofs(db: Db, tx: Tx)
    requires ProofsOk(db) && MayCommit(db, tx)
    ensures ProofsOk(Paid(db, tx))
  {
    var after := Paid(db, tx);
    forall pid | 0 <= pid < |after.payments|
      ensures ProofsCounted(after, pid)
    {
      PaidProofCounts(db, tx, pid);
    }
    if tx.action == SubmitProof {
      forall k | 0 <= k < |after.proofs|
        ensures after.proofs[k].current <==> IsLatest(after.proofs, k)
      {
        if k < |db.proofs| {
          LatestExtends(db.proofs, tx.progress.unset, Proof(tx.pid, tx.content, true), k);
        }
      }
    }
  }

  lemma PaidSettles(db: Db, tx: Tx)
    requires RunsOk(db) && SettledOk(db) && MayCommit(db, tx)
    ensures RunsOk(Paid(db, tx)) && SettledOk(Paid(db, tx))
  {
    assert Lawful(EntryFor(tx), db.payments[tx.pid].from, db.payments[tx.pid].to);
    assert !IsSettled(db.payments[tx.pid]);
  }

  lemma PaidOk(db: Db, tx: Tx)
    requires DbOk(db) && MayCommit(db, tx)
    ensures DbOk(Paid(db, tx))
  {
    PaidHistories(db, tx);
    PaidProofs(db, tx);
    PaidSettles(db, tx);
  }

  lemma CurrentElsewhere(proofs: seq<Proof>, unset: set<nat>, p: Proof, pid: nat)
    requires pid != p.pid && unset == CurrentProofs(proofs, p.pid)
    ensures CurrentProofs(Superseded(proofs, unset) + [p], pid) == CurrentProofs(proofs, pid)
  {
  }

  /** A commit on one payment leaves the transactions on the others as they are,
      and those on the same payment outdated. */
  lemma PaidKeepsPay(db: Db, tx: Tx, other: Tx)
    requires MayCommit(db, tx) && other.PayTx? && PayOk(db, other) && Apart(tx, other)
    ensures PayOk(Paid(db, tx), other)
  {
    assert Lawful(EntryFor(tx), db.payments[tx.pid].from, db.payments[tx.pid].to);
    if other.pid != tx.pid && tx.action == SubmitProof {
      CurrentElsewhere(db.proofs, tx.progress.unset, Proof(tx.pid, tx.content, true), other.pid);
    }
  }

  lemma PaidKeepsTx(db: Db, tx: Tx, other: Tx)
    requires RunsOk(db) && MayCommit(db, tx) && TxOk(db, other) && Apart(tx, other)
    ensures TxOk(Paid(db, tx), other)
  {
    if other.PayTx? {
      PaidKeepsPay(db, tx, other);
    }
  }

  lemma PayCommitKeeps(s: State, tid: nat)
    requires Inv(s)
    ensures Inv(AfterPayCommit(s, tid))
  {
    if Paying(s, tid) && ReadyToCommit(s.txs[tid]) {
      var tx := s.txs[tid];
      assert TxOk(s.db, tx);
      PaidOk(s.db, tx);
      forall t | t in s.txs - {tid}
        ensures TxOk(Paid(s.db, tx), s.txs[t])
      {
        assert Apart(tx, s.txs[t]);
        PaidKeepsTx(s.db, tx, s.txs[t]);
      }
      FinishKeeps(s, tid, Paid(s.db, tx));
    }
  }

  // ---------------------------------------------------------------------------
  // Every event, every run

  lemma RemoveCheckKeeps(s: State, tid: nat, caller: Principal, target: UserId)
    requires Inv(s)
    ensures Inv(AfterRemoveCheck(s, tid, caller, target))
  {
    if tid !in s.txs && Removable(s.db, caller, target) {
      WithKeeps(s, tid, RemoveTx(caller, target, s.db.members[target].id));
    }
  }

  predicate IsExpenseEvent(e: Event) {
    || e.ExpenseLock? || e.ExpenseCheck? || e.ExpenseLookup? || e.ExpenseInsert?
    || e.ExpenseUpdate? || e.ExpenseDelete? || e.ExpenseCommit?
  }

  lemma ExpenseEventKeeps(s: State, e: Event)
    requires Inv(s) && IsExpenseEvent(e)
    ensures Inv(After(s, e))
  {
    match e
    case ExpenseLock(tid, caller, inRange) => ExpenseLockKeeps(s, tid, caller, inRange);
    case ExpenseCheck(tid, amount, category, shares) => ExpenseCheckKeeps(s, tid, amount, category, shares);
    case ExpenseLookup(tid, u) => ExpenseLookupKeeps(s, tid, u);
    case ExpenseInsert(tid) => ExpenseInsertKeeps(s, tid);
    case ExpenseUpdate(tid, eid, amount, category) => ExpenseChangeKeeps(s, tid, eid, amount, category);
    case ExpenseDelete(tid, eid) => ExpenseChangeKeeps(s, tid, eid, 1, Other);
    case ExpenseCommit(tid) => ExpenseCommitKeeps(s, tid);
  }

  predicate IsCloseEvent(e: Event) {
    e.CloseAuthorize? || e.CloseLock? || e.CloseRead? || e.CloseCommit?
  }

  lemma CloseEventKeeps(s: State, e: Event)
    requires Inv(s) && IsCloseEvent(e)
    ensures Inv(After(s, e))
  {
    match e
    case CloseAuthorize(tid, caller) => CloseAuthorizeKeeps(s, tid, caller);
    case CloseLock(tid) => CloseLockKeeps(s, tid);
    case CloseRead(tid) => CloseReadKeeps(s, tid);
    case CloseCommit(tid) => CloseCommitKeeps(s, tid);
  }

  predicate IsPayEvent(e: Event) {
    e.PayRead? || e.PayProve? || e.PayGuard? || e.PayCount? || e.PayCommit?
  }

  lemma PayEventKeeps(s: State, e: Event)
    requires Inv(s) && IsPayEvent(e)
    ensures Inv(After(s, e))
  {
    if e.PayRead? {
      PayReadKeeps(s, e.tid, e.caller, e.action, e.pid, e.content);
    } else if e.PayProve? {
      PayProveKeeps(s, e.tid);
    } else if e.PayGuard? {
      PayGuardKeeps(s, e.tid);
    } else if e.PayCount? {
      PayCountKeeps(s, e.tid);
    } else {
      PayCommitKeeps(s, e.tid);
    }
  }

  lemma EventKeeps(s: State, e: Event)
    requires Inv(s)
    ensures Inv(After(s, e))
  {
    if IsExpenseEvent(e) {
      ExpenseEventKeeps(s, e);
    } else if IsCloseEvent(e) {
      CloseEventKeeps(s, e);
    } else if IsPayEvent(e) {
      PayEventKeeps(s, e);
    } else {
      match e
      case Join(_) => MemberEventKeeps(s, e);
      case Decide(_, _, _) => MemberEventKeeps(s, e);
      case HandOver(_, _) => MemberEventKeeps(s, e);
      case RemoveCheck(tid, caller, u) => RemoveCheckKeeps(s, tid, caller, u);
      case RemoveDelete(tid) => RemoveDeleteKeeps(s, tid);
      case Abort(tid) => WithoutKeeps(s, tid);
    }
  }

  /** The invariant holds after any sequence of events, however interleaved. */
  lemma {:induction false} RunKeeps(s: State, events: seq<Event>)
    requires Inv(s)
    ensures Inv(Reached(s, events))
    decreases |events|
  {
    if events != [] {
      EventKeeps(s, events[0]);
      RunKeeps(After(s, events[0]), events[1..]);
    }
  }
}
