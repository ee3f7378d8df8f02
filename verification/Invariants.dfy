/** What every interleaving keeps: facts about the committed rows, facts about
    each transaction under way, and the locks that keep transactions apart. */
module Invariants {
  import opened Sums
  import opened Ids
  import opened Planner
  import opened Tables
  import opened Snapshots
  import opened TwoKey
  import opened Lifecycle

  // ---------------------------------------------------------------------------
  // The committed rows

  predicate MembersOk(db: Db) {
    && (forall u, v :: u in db.members && v in db.members && db.members[u].id == db.members[v].id ==> u == v)
    && (forall u :: u in db.members ==> db.members[u].id < db.nextId)
  }

  predicate IsAdminRow(m: Membership) {
    m.role == GroupAdmin
  }

  /** At most one admin, and an approved one. */
  predicate AdminsOk(members: map<UserId, Membership>) {
    && (forall u, v :: u in members && v in members && IsAdminRow(members[u]) && IsAdminRow(members[v]) ==> u == v)
    && (forall u :: u in members && members[u].role == GroupAdmin ==> members[u].standing == Approved)
  }

  predicate HasApproved(members: map<UserId, Membership>, id: MembershipId) {
    exists u :: u in members && members[u].id == id && members[u].standing == Approved
  }

  /** Whoever paid for an expense is an approved member. */
  predicate PayersOk(members: map<UserId, Membership>, es: seq<Expense>) {
    forall k :: 0 <= k < |es| ==> HasApproved(members, es[k].paidBy)
  }

  /** A list of members that a settlement of these expenses may rest on. */
  predicate ListOk(listed: seq<Listed>, es: seq<Expense>) {
    ListedOnce(listed) && ListsPayers(listed, es)
  }

  /** The payments are the transfers of the plan, whatever their status. */
  predicate Matches(payments: seq<Payment>, plan: seq<Transfer>) {
    && |payments| == |plan|
    && forall i :: 0 <= i < |plan| ==>
         payments[i].from == plan[i].from && payments[i].to == plan[i].to && payments[i].amount == plan[i].amount
  }

  /** The group is open exactly until its only settlement run, which agrees with
      the expenses and has its plan as payments. */
  ghost predicate RunsOk(db: Db) {
    && (db.status == GroupOpen <==> db.runs == [])
    && |db.runs| <= 1
    && (db.runs == [] ==> db.payments == [] && db.proofs == [] && db.log == [])
    && (db.runs != [] ==>
          && ListOk(db.runs[0].listed, db.expenses)
          && db.runs[0].snapshot == SnapshotOf(db.runs[0].listed, db.expenses)
          && Matches(db.payments, Plan(db.runs[0].snapshot.members)))
  }

  predicate SettledOk(db: Db) {
    db.status == GroupSettled ==> AllSettled(db.payments)
  }

  /** The log entries of one payment. */
  function HistoryOf(log: seq<TwoKey.Entry>, pid: nat): seq<TwoKey.Entry> {
    if log == [] then []
    else HistoryOf(log[..|log|-1], pid) + if log[|log|-1].pid == pid then [log[|log|-1]] else []
  }

  /** The log entries of a payment are one unbroken chain of lawful steps that
      ends in its status, and its version counts them. */
  predicate HistoryOk(db: Db, pid: nat)
    requires pid < |db.payments|
  {
    var p, h := db.payments[pid], HistoryOf(db.log, pid);
    Chain(h, p.from, p.to) && p.version == |h| && p.status == StatusAfter(h)
  }

  predicate HistoriesOk(db: Db) {
    forall pid :: 0 <= pid < |db.payments| ==> HistoryOk(db, pid)
  }

  predicate IsLatest(proofs: seq<Proof>, k: nat)
    requires k < |proofs|
  {
    forall j :: k < j < |proofs| ==> proofs[j].pid != proofs[k].pid
  }

  function SubmitStep(): TwoKey.Entry -> int {
    (e: TwoKey.Entry) => if e.action == SubmitProof then 1 else 0
  }

  function ProofFor(pid: nat): Proof -> int {
    (p: Proof) => if p.pid == pid then 1 else 0
  }

  /** Every committed submission has left one proof row. */
  predicate ProofsCounted(db: Db, pid: nat) {
    SumBy(ProofFor(pid), db.proofs) == SumBy(SubmitStep(), HistoryOf(db.log, pid))
  }

  /** Of each payment's proofs exactly the latest is current. */
  predicate ProofsOk(db: Db) {
    && (forall k :: 0 <= k < |db.proofs| ==> (db.proofs[k].current <==> IsLatest(db.proofs, k)))
    && (forall pid :: 0 <= pid < |db.payments| ==> ProofsCounted(db, pid))
  }

  ghost predicate DbOk(db: Db) {
    && MembersOk(db)
    && AdminsOk(db.members)
    && ValidExpenses(db.expenses)
    && PayersOk(db.members, db.expenses)
    && RunsOk(db)
    && SettledOk(db)
    && HistoriesOk(db)
    && ProofsOk(db)
  }

  // ---------------------------------------------------------------------------
  // A transaction under way

  /** The payer was approved when checked, and no later member gets that id. */
  predicate PayerOk(db: Db, e: Expense) {
    && e.paidBy < db.nextId
    && forall u :: u in db.members && db.members[u].id == e.paidBy ==> db.members[u].standing == Approved
  }

  predicate WorkOk(db: Db, w: Work) {
    match w
    case Locked => true
    case Looking(e, seen) => ValidExpense(e) && !e.deleted && PayerOk(db, e) && seen <= e.shares.Keys
    case Inserted(e) => ValidExpense(e) && !e.deleted && HasApproved(db.members, e.paidBy)
    case Updated(eid, amount, _) => eid < |db.expenses| && amount > 0
    case Deleted(eid) => eid < |db.expenses|
  }

  /** What a close has read so far is what a single read would return now. */
  predicate ReadingOk(es: seq<Expense>, r: Reading)
    requires !r.Authorized? && !r.Exclusive? && !r.GotRows?
  {
    match r
    case GotMembers(listed) => ListOk(listed, es)
    case GotPaid(listed, paid) => ListOk(listed, es) && paid == Grouped(PayerOf(), es)
    case GotCategories(listed, paid, categories) =>
      ListOk(listed, es) && paid == Grouped(PayerOf(), es) && categories == Grouped(CategoryOf(), es)
  }

  ghost predicate RowsOk(es: seq<Expense>, r: Reading)
    requires r.GotRows?
  {
    && ListOk(r.listed, es)
    && r.paid == Grouped(PayerOf(), es)
    && r.categories == Grouped(CategoryOf(), es)
    && r.rows == AllocationRows(es)
  }

  ghost predicate CloseOk(db: Db, r: Reading) {
    r.Authorized? || (db.status == GroupOpen &&
                      (r.Exclusive? || if r.GotRows? then RowsOk(db.expenses, r) else ReadingOk(db.expenses, r)))
  }

  /** A payment transaction that can still commit saw the current row. */
  predicate SawCurrent(db: Db, tx: Tx)
    requires tx.PayTx? && tx.pid < |db.payments|
  {
    db.payments[tx.pid].version == tx.version ==>
      && db.payments[tx.pid].status == tx.seen
      && (!tx.progress.Validated? && tx.action == SubmitProof ==>
            tx.progress.unset == CurrentProofs(db.proofs, tx.pid))
  }

  predicate PayOk(db: Db, tx: Tx)
    requires tx.PayTx?
  {
    && tx.pid < |db.payments|
    && tx.version <= db.payments[tx.pid].version
    && SawCurrent(db, tx)
    && Lawful(EntryFor(tx), db.payments[tx.pid].from, db.payments[tx.pid].to)
    && (HoldsPayment(tx, tx.pid) ==> db.payments[tx.pid].version == tx.version)
    && (tx.progress.Counted? ==> tx.next == Settled)
    && (Finishes(tx) ==> OthersSettled(db.payments, tx.pid))
  }

  ghost predicate TxOk(db: Db, tx: Tx) {
    match tx
    case ExpenseTx(_, _, work) => db.status == GroupOpen && WorkOk(db, work)
    case CloseTx(_, reading) => CloseOk(db, reading)
    case PayTx(_, _, _, _, _, _, _, _, _) => PayOk(db, tx)
    case RemoveTx(_, _, id) => id < db.nextId
  }

  // ---------------------------------------------------------------------------
  // Two transactions under way

  predicate Apart(a: Tx, b: Tx) {
    && !(HoldsExclusive(a) && HoldsExclusive(b))
    && !(HoldsExclusive(a) && HoldsShare(b))
    && !(HoldsShare(a) && HoldsExclusive(b))
    && !(a.ExpenseTx? && (a.work.Updated? || a.work.Deleted?) && HoldsExpense(b, a.work.eid))
    && !(a.PayTx? && HoldsPayment(a, a.pid) && HoldsPayment(b, a.pid))
  }

  predicate AllApart(txs: map<nat, Tx>) {
    forall t, u :: t in txs && u in txs && t != u ==> Apart(txs[t], txs[u])
  }

  ghost predicate TxsOk(db: Db, txs: map<nat, Tx>) {
    forall t :: t in txs ==> TxOk(db, txs[t])
  }

  ghost predicate Inv(s: State) {
    DbOk(s.db) && TxsOk(s.db, s.txs) && AllApart(s.txs)
  }

  lemma CreatedOk(admin: UserId)
    ensures Inv(Created(admin))
  {
  }

  lemma WithKeeps(s: State, tid: nat, tx: Tx)
    requires Inv(s) && TxOk(s.db, tx)
    requires forall t :: t in s.txs && t != tid ==> Apart(tx, s.txs[t])
    ensures Inv(With(s, tid, tx))
  {
    var txs := s.txs[tid := tx];
    forall t, u | t in txs && u in txs && t != u
      ensures Apart(txs[t], txs[u])
    {
      if u == tid {
        assert Apart(tx, s.txs[t]);
      } else if t != tid {
        assert Apart(s.txs[t], s.txs[u]);
      }
    }
  }

  lemma WithoutKeeps(s: State, tid: nat)
    requires Inv(s)
    ensures Inv(Without(s, tid))
  {
  }

  lemma FinishKeeps(s: State, tid: nat, db: Db)
    requires Inv(s) && DbOk(db) && TxsOk(db, s.txs - {tid})
    ensures Inv(Finish(s, tid, db))
  {
  }

  // ---------------------------------------------------------------------------
  // Memberships

  /** Ids are never reused and approval is never withdrawn. */
  predicate Grows(a: Db, b: Db) {
    && a.nextId <= b.nextId
    && forall u :: u in b.members ==>
         || b.members[u].id >= a.nextId
         || (u in a.members && a.members[u].id == b.members[u].id &&
             (a.members[u].standing == Approved ==> b.members[u].standing == Approved))
  }

  /** The membership with this id is not deleted, if there is one. */
  predicate Retains(a: map<UserId, Membership>, b: map<UserId, Membership>, id: MembershipId) {
    forall u :: u in a && a[u].id == id ==>
      u in b && b[u].id == id && (a[u].standing == Approved ==> b[u].standing == Approved)
  }

  predicate OnlyMembersDiffer(a: Db, b: Db) {
    b == a.(members := b.members, nextId := b.nextId)
  }

  lemma RetainsApproved(a: map<UserId, Membership>, b: map<UserId, Membership>, id: MembershipId)
    requires Retains(a, b, id) && HasApproved(a, id)
    ensures HasApproved(b, id)
  {
    var u :| u in a && a[u].id == id && a[u].standing == Approved;
    assert u in b && b[u].id == id && b[u].standing == Approved;
  }

  lemma HistoriesFollow(a: Db, b: Db)
    requires HistoriesOk(a) && ProofsOk(a) && b.payments == a.payments && b.log == a.log && b.proofs == a.proofs
    ensures HistoriesOk(b) && ProofsOk(b)
  {
    forall pid | 0 <= pid < |b.payments|
      ensures HistoryOk(b, pid) && ProofsCounted(b, pid)
    {
      assert HistoryOk(a, pid) && ProofsCounted(a, pid);
    }
  }

  /** Whoever paid for an expense, committed or under way, stays a member. */
  predicate RetainsPayers(s: State, b: map<UserId, Membership>) {
    && (forall k :: 0 <= k < |s.db.expenses| ==> Retains(s.db.members, b, s.db.expenses[k].paidBy))
    && (forall t :: t in s.txs && s.txs[t].ExpenseTx? && s.txs[t].work.Inserted? ==>
          Retains(s.db.members, b, s.txs[t].work.expense.paidBy))
  }

  ghost predicate MembersStepOk(a: Db, b: Db) {
    OnlyMembersDiffer(a, b) && Grows(a, b) && MembersOk(b) && AdminsOk(b.members)
  }

  lemma PayersStay(s: State, b: map<UserId, Membership>)
    requires PayersOk(s.db.members, s.db.expenses) && RetainsPayers(s, b)
    ensures PayersOk(b, s.db.expenses)
  {
    forall k | 0 <= k < |s.db.expenses|
      ensures HasApproved(b, s.db.expenses[k].paidBy)
    {
      RetainsApproved(s.db.members, b, s.db.expenses[k].paidBy);
    }
  }

  /** A step on the members that keeps the payers keeps everything else. */
  lemma MemberStepKeeps(s: State, b: Db)
    requires Inv(s) && MembersStepOk(s.db, b) && RetainsPayers(s, b.members)
    ensures Inv(State(b, s.txs))
  {
    PayersStay(s, b.members);
    HistoriesFollow(s.db, b);
    forall t | t in s.txs
      ensures TxOk(b, s.txs[t])
    {
      MemberStepKeepsTx(s.db, b, s.txs[t]);
    }
  }

  lemma MemberStepKeepsTx(a: Db, b: Db, tx: Tx)
    requires TxOk(a, tx) && OnlyMembersDiffer(a, b) && Grows(a, b)
    requires tx.ExpenseTx? && tx.work.Inserted? ==> Retains(a.members, b.members, tx.work.expense.paidBy)
    ensures TxOk(b, tx)
  {
    if tx.ExpenseTx? && tx.work.Inserted? {
      RetainsApproved(a.members, b.members, tx.work.expense.paidBy);
    } else if tx.ExpenseTx? && tx.work.Looking? {
      PayerStays(a, b, tx.work.expense);
    }
  }

  lemma PayerStays(a: Db, b: Db, e: Expense)
    requires PayerOk(a, e) && Grows(a, b)
    ensures PayerOk(b, e)
  {
  }

  lemma AdminsStay(db: Db, caller: Principal, u: UserId, standing: Standing)
    requires AdminsOk(db.members)
    ensures AdminsOk(Joined(db, caller).members)
    ensures AdminsOk(Decided(db, caller, u, standing).members)
    ensures AdminsOk(HandedOver(db, caller, u).members)
  {
  }

  lemma JoinMembers(db: Db, caller: Principal)
    requires MembersOk(db) && AdminsOk(db.members)
    ensures MembersStepOk(db, Joined(db, caller))
    ensures forall id :: Retains(db.members, Joined(db, caller).members, id)
  {
    AdminsStay(db, caller, caller.user, Approved);
  }

  /** The same members with the same ids, none less approved than before. */
  predicate SameMembers(a: map<UserId, Membership>, b: map<UserId, Membership>) {
    && b.Keys == a.Keys
    && forall u :: u in a ==> b[u].id == a[u].id && (a[u].standing == Approved ==> b[u].standing == Approved)
  }

  lemma SameMembersOk(a: Db, b: Db)
    requires MembersOk(a) && OnlyMembersDiffer(a, b) && a.nextId == b.nextId && SameMembers(a.members, b.members)
    ensures MembersOk(b) && Grows(a, b) && forall id :: Retains(a.members, b.members, id)
  {
    forall u, v | u in b.members && v in b.members && b.members[u].id == b.members[v].id
      ensures u == v
    {
      assert a.members[u].id == a.members[v].id;
    }
  }

  lemma DecideMembers(db: Db, caller: Principal, u: UserId, standing: Standing)
    requires MembersOk(db) && AdminsOk(db.members)
    ensures MembersStepOk(db, Decided(db, caller, u, standing))
    ensures forall id :: Retains(db.members, Decided(db, caller, u, standing).members, id)
  {
    AdminsStay(db, caller, u, standing);
    SameMembersOk(db, Decided(db, caller, u, standing));
  }

  lemma HandOverMembers(db: Db, caller: Principal, u: UserId)
    requires MembersOk(db) && AdminsOk(db.members)
    ensures MembersStepOk(db, HandedOver(db, caller, u))
    ensures forall id :: Retains(db.members, HandedOver(db, caller, u).members, id)
  {
    AdminsStay(db, caller, u, Approved);
    SameMembersOk(db, HandedOver(db, caller, u));
  }

  lemma RemoveMembers(db: Db, target: UserId, id: MembershipId)
    requires MembersOk(db) && AdminsOk(db.members)
    ensures MembersStepOk(db, Removed(db, target, id))
    ensures forall other :: other != id ==> Retains(db.members, Removed(db, target, id).members, other)
  {
  }

  lemma RemoveDeleteKeeps(s: State, tid: nat)
    requires Inv(s)
    ensures Inv(AfterRemoveDelete(s, tid))
  {
    if tid in s.txs && s.txs[tid].RemoveTx? {
      WithoutKeeps(s, tid);
      var target, id := s.txs[tid].target, s.txs[tid].id;
      if !InsertPending(s.txs, id) && !Referenced(s.db, target, id) {
        RemoveMembers(s.db, target, id);
        MemberStepKeeps(Without(s, tid), Removed(s.db, target, id));
      }
    }
  }

  lemma MemberEventKeeps(s: State, e: Event)
    requires Inv(s) && (e.Join? || e.Decide? || e.HandOver?)
    ensures Inv(After(s, e))
  {
    match e
    case Join(caller) =>
      JoinMembers(s.db, caller);
      MemberStepKeeps(s, Joined(s.db, caller));
    case Decide(caller, u, approve) =>
      var standing := if approve then Approved else Rejected;
      DecideMembers(s.db, caller, u, standing);
      MemberStepKeeps(s, Decided(s.db, caller, u, standing));
    case HandOver(caller, u) =>
      HandOverMembers(s.db, caller, u);
      MemberStepKeeps(s, HandedOver(s.db, caller, u));
  }
}
