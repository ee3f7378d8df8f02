/** One group as a concurrent protocol: its rows, the transactions under way,
    and every statement a transaction can execute next. PostgreSQL runs the
    transactions at its default level, read committed: a statement sees what
    has been committed, and what a transaction writes shows at its commit. */
module Lifecycle {
  import opened Ids
  import opened Planner
  import opened Tables
  import opened Snapshots
  import opened TwoKey
  import Allocations

  datatype Principal = Principal(user: UserId, isGlobalAdmin: bool, verified: bool)

  datatype Payment = Payment(from: UserId, to: UserId, amount: int, status: Status, version: nat)

  datatype Proof = Proof(pid: nat, content: string, current: bool)

  /** A settlement run; `listed` is the member list its snapshot was computed from. */
  datatype SettlementRun = SettlementRun(computedBy: UserId, listed: seq<Listed>, snapshot: Snapshot)

  /** The committed rows. Expenses, payments and proofs are numbered in the order
      of their creation, memberships by a counter that never goes back. */
  datatype Db = Db(
    status: GroupStatus,
    members: map<UserId, Membership>,
    nextId: MembershipId,
    expenses: seq<Expense>,
    runs: seq<SettlementRun>,
    payments: seq<Payment>,
    proofs: seq<Proof>,
    log: seq<TwoKey.Entry>)

  // ---------------------------------------------------------------------------
  // Transactions

  /** An expense transaction holds the group row FOR SHARE. `seen` are the named
      users whose memberships have been looked up so far. */
  datatype Work =
    | Locked
    | Looking(expense: Expense, seen: set<UserId>)
    | Inserted(expense: Expense)
    | Updated(eid: nat, amount: int, category: Category)
    | Deleted(eid: nat)

  /** A close holds the group row FOR UPDATE once it is past its first stage. */
  datatype Reading =
    | Authorized
    | Exclusive
    | GotMembers(listed: seq<Listed>)
    | GotPaid(listed: seq<Listed>, paid: map<MembershipId, int>)
    | GotCategories(listed: seq<Listed>, paid: map<MembershipId, int>, categories: map<Category, int>)
    | GotRows(listed: seq<Listed>, paid: map<MembershipId, int>, categories: map<Category, int>,
              rows: seq<Allocations.Row>)

  /** A payment transaction; `unset` are the proofs it has marked as superseded. */
  datatype Progress =
    | Validated
    | Proved(unset: set<nat>)
    | Guarded(unset: set<nat>)
    | Counted(unset: set<nat>, lastOne: bool)

  datatype Tx =
    | ExpenseTx(caller: Principal, inRange: bool, work: Work)
    | CloseTx(caller: Principal, reading: Reading)
    | PayTx(caller: Principal, action: Action, actor: Actor, pid: nat, seen: Status, version: nat, next: Status,
            content: string, progress: Progress)
    | RemoveTx(caller: Principal, target: UserId, id: MembershipId)

  datatype State = State(db: Db, txs: map<nat, Tx>)

  predicate HoldsShare(tx: Tx) {
    tx.ExpenseTx?
  }

  predicate HoldsExclusive(tx: Tx) {
    || (tx.CloseTx? && !tx.reading.Authorized?)
    || (tx.PayTx? && tx.progress.Counted? && tx.progress.lastOne)
  }

  /** The lock on the row of an expense, taken by its update or deletion. */
  predicate HoldsExpense(tx: Tx, eid: nat) {
    tx.ExpenseTx? && (tx.work.Updated? || tx.work.Deleted?) && tx.work.eid == eid
  }

  /** The lock on the row of a payment, taken by the version-guarded update. */
  predicate HoldsPayment(tx: Tx, pid: nat) {
    tx.PayTx? && tx.pid == pid && (tx.progress.Guarded? || tx.progress.Counted?)
  }

  predicate NoneExclusive(txs: map<nat, Tx>, tid: nat) {
    forall t :: t in txs && t != tid ==> !HoldsExclusive(txs[t])
  }

  predicate NoneShared(txs: map<nat, Tx>, tid: nat) {
    forall t :: t in txs && t != tid ==> !HoldsShare(txs[t])
  }

  predicate ExpenseFree(txs: map<nat, Tx>, tid: nat, eid: nat) {
    forall t :: t in txs && t != tid ==> !HoldsExpense(txs[t], eid)
  }

  predicate PaymentFree(txs: map<nat, Tx>, tid: nat, pid: nat) {
    forall t :: t in txs && t != tid ==> !HoldsPayment(txs[t], pid)
  }

  // ---------------------------------------------------------------------------
  // Queries

  predicate IsApproved(members: map<UserId, Membership>, u: UserId) {
    u in members && members[u].standing == Approved
  }

  predicate IsAdmin(members: map<UserId, Membership>, u: UserId) {
    IsApproved(members, u) && members[u].role == GroupAdmin
  }

  /** `decideGroupRole` for the group admin role. */
  predicate MayAdminister(members: map<UserId, Membership>, caller: Principal) {
    caller.isGlobalAdmin || IsAdmin(members, caller.user)
  }

  predicate HasId(members: map<UserId, Membership>, id: MembershipId) {
    exists u :: u in members && members[u].id == id
  }

  /** MembershipHasExpenses counts deleted expenses too. */
  predicate HasExpenses(es: seq<Expense>, id: MembershipId) {
    exists k :: 0 <= k < |es| && es[k].paidBy == id
  }

  /** UserHasExpenseShares does not. */
  predicate HasShares(es: seq<Expense>, u: UserId) {
    exists k :: 0 <= k < |es| && !es[k].deleted && u in es[k].shares
  }

  function ApprovedUsers(members: map<UserId, Membership>): set<UserId> {
    set u | u in members && members[u].standing == Approved
  }

  /** ListApprovedMembers, ordered by user id. */
  ghost function ApprovedList(members: map<UserId, Membership>): (r: seq<Listed>) {
    InOrderIs(ApprovedUsers(members));
    var us := InOrder(ApprovedUsers(members));
    seq(|us|, i requires 0 <= i < |us| => assert us[i] in us; Listed(members[us[i]].id, us[i]))
  }

  /** The proofs of a payment marked as current. */
  function CurrentProofs(proofs: seq<Proof>, pid: nat): set<nat> {
    set k | 0 <= k < |proofs| && proofs[k].pid == pid && proofs[k].current
  }

  predicate IsSettled(p: Payment) {
    p.status == Settled
  }

  /** No payment but possibly this one is unsettled. */
  predicate OthersSettled(payments: seq<Payment>, pid: nat) {
    forall k :: 0 <= k < |payments| && k != pid ==> IsSettled(payments[k])
  }

  predicate AllSettled(payments: seq<Payment>) {
    forall k :: 0 <= k < |payments| ==> IsSettled(payments[k])
  }

  function ActorOf(db: Db, caller: Principal, p: Payment): Actor {
    Actor(p.from == caller.user, p.to == caller.user, IsAdmin(db.members, caller.user), caller.isGlobalAdmin)
  }

  predicate Participates(a: Actor) {
    a.isDebtor || a.isCreditor || a.isGroupAdmin || a.isGlobalAdmin
  }

  // ---------------------------------------------------------------------------
  // What each kind of transaction commits

  function Written(es: seq<Expense>, work: Work): seq<Expense> {
    match work
    case Locked => es
    case Looking(_, _) => es
    case Inserted(e) => es + [e]
    case Updated(eid, amount, category) =>
      if eid < |es| then es[eid := es[eid].(amount := amount, category := category)] else es
    case Deleted(eid) =>
      if eid < |es| then es[eid := es[eid].(deleted := true)] else es
  }

  function Opening(t: Transfer): Payment {
    Payment(t.from, t.to, t.amount, Pending, 0)
  }

  function Openings(plan: seq<Transfer>): (r: seq<Payment>)
    ensures |r| == |plan|
  {
    seq(|plan|, i requires 0 <= i < |plan| => Opening(plan[i]))
  }

  /** The foreign keys of the payments: both ends are memberships. */
  predicate EndsExist(members: map<UserId, Membership>, plan: seq<Transfer>) {
    forall i :: 0 <= i < |plan| ==> plan[i].from in members && plan[i].to in members
  }

  /** The one settlement run of the group with one payment per transfer. An empty
      plan settles the group at once. */
  function ClosedWith(db: Db, run: SettlementRun, plan: seq<Transfer>): Db {
    db.(status := if plan == [] then GroupSettled else GroupClosed,
        runs := db.runs + [run],
        payments := db.payments + Openings(plan))
  }

  function Closed(db: Db, run: SettlementRun): Db {
    ClosedWith(db, run, Plan(run.snapshot.members))
  }

  ghost function RunOf(user: UserId, r: Reading): SettlementRun
    requires r.GotRows?
  {
    SettlementRun(user, r.listed, SnapshotFrom(r.listed, r.paid, r.categories, r.rows))
  }

  function Superseded(proofs: seq<Proof>, unset: set<nat>): (r: seq<Proof>)
    ensures |r| == |proofs|
  {
    seq(|proofs|, k requires 0 <= k < |proofs| =>
      if k in unset then proofs[k].(current := false) else proofs[k])
  }

  function WithProof(proofs: seq<Proof>, pid: nat, action: Action, unset: set<nat>, content: string): seq<Proof> {
    if action == SubmitProof then Superseded(proofs, unset) + [Proof(pid, content, true)] else proofs
  }

  function EntryFor(tx: Tx): TwoKey.Entry
    requires tx.PayTx?
  {
    Entry(tx.pid, tx.caller.user, tx.action, tx.actor, LabelFor(tx.action, tx.actor, tx.seen), tx.seen, tx.next)
  }

  predicate Finishes(tx: Tx)
    requires tx.PayTx?
  {
    tx.progress.Counted? && tx.progress.lastOne
  }

  /** MarkGroupSettled, which only a closed group obeys. */
  function MarkedSettled(status: GroupStatus): GroupStatus {
    if status == GroupClosed then GroupSettled else status
  }

  function Transitioned(p: Payment, next: Status): Payment {
    p.(status := next, version := p.version + 1)
  }

  function Paid(db: Db, tx: Tx): Db
    requires tx.PayTx? && !tx.progress.Validated? && tx.pid < |db.payments|
  {
    db.(status := if Finishes(tx) then MarkedSettled(db.status) else db.status,
        payments := db.payments[tx.pid := Transitioned(db.payments[tx.pid], tx.next)],
        proofs := WithProof(db.proofs, tx.pid, tx.action, tx.progress.unset, tx.content),
        log := db.log + [EntryFor(tx)])
  }

  // ---------------------------------------------------------------------------
  // The membership steps, each a single atomic statement or transaction

  /** RequestToJoin: ON CONFLICT DO NOTHING. */
  function Joined(db: Db, caller: Principal): Db {
    if caller.verified && db.status == GroupOpen && caller.user !in db.members
    then db.(members := db.members[caller.user := Membership(db.nextId, Member, Requested)], nextId := db.nextId + 1)
    else db
  }

  function Decided(db: Db, caller: Principal, u: UserId, standing: Standing): Db {
    if MayAdminister(db.members, caller) && u in db.members && db.members[u].standing == Requested
    then db.(members := db.members[u := db.members[u].(standing := standing)])
    else db
  }

  function Demoted(members: map<UserId, Membership>): map<UserId, Membership> {
    map u | u in members :: members[u].(role := Member)
  }

  /** TransferAdmin: demote the old admin first, then promote; a demotion that
      finds no admin fails the transaction. */
  function HandedOver(db: Db, caller: Principal, u: UserId): Db {
    if && MayAdminister(db.members, caller)
       && IsApproved(db.members, u) && db.members[u].role != GroupAdmin
       && (exists a :: a in db.members && db.members[a].role == GroupAdmin)
    then
      var demoted := Demoted(db.members);
      db.(members := demoted[u := demoted[u].(role := GroupAdmin)])
    else db
  }

  /** The checks of RemoveMember. */
  predicate Removable(db: Db, caller: Principal, target: UserId) {
    && (target == caller.user || MayAdminister(db.members, caller))
    && target in db.members && IsUnused(db, target)
  }

  /** What those checks establish about the member, whoever asked. */
  predicate IsUnused(db: Db, target: UserId)
    requires target in db.members
  {
    && db.members[target].role != GroupAdmin
    && !HasExpenses(db.expenses, db.members[target].id)
    && !HasShares(db.expenses, target)
  }

  predicate HasPayments(payments: seq<Payment>, u: UserId) {
    exists k :: 0 <= k < |payments| && (payments[k].from == u || payments[k].to == u)
  }

  /** The foreign keys that refer to a membership. */
  predicate Referenced(db: Db, target: UserId, id: MembershipId) {
    HasExpenses(db.expenses, id) || HasPayments(db.payments, target)
  }

  /** An insert under way keeps the payer's membership from being deleted. */
  predicate InsertPending(txs: map<nat, Tx>, id: MembershipId) {
    exists t :: t in txs && txs[t].ExpenseTx? && txs[t].work.Inserted? && txs[t].work.expense.paidBy == id
  }

  function Removed(db: Db, target: UserId, id: MembershipId): Db {
    if target in db.members && db.members[target].id == id
    then db.(members := db.members - {target})
    else db
  }

  // ---------------------------------------------------------------------------
  // Events

  datatype Event =
    | Join(caller: Principal)
    | Decide(caller: Principal, user: UserId, approve: bool)
    | HandOver(caller: Principal, user: UserId)
    | RemoveCheck(tid: nat, caller: Principal, user: UserId)
    | RemoveDelete(tid: nat)
    | ExpenseLock(tid: nat, caller: Principal, inRange: bool)
    | ExpenseCheck(tid: nat, amount: int, category: Category, shares: map<UserId, int>)
    | ExpenseLookup(tid: nat, user: UserId)
    | ExpenseInsert(tid: nat)
    | ExpenseUpdate(tid: nat, eid: nat, amount: int, category: Category)
    | ExpenseDelete(tid: nat, eid: nat)
    | ExpenseCommit(tid: nat)
    | CloseAuthorize(tid: nat, caller: Principal)
    | CloseLock(tid: nat)
    | CloseRead(tid: nat)
    | CloseCommit(tid: nat)
    | PayRead(tid: nat, caller: Principal, action: Action, pid: nat, content: string)
    | PayProve(tid: nat)
    | PayGuard(tid: nat)
    | PayCount(tid: nat)
    | PayCommit(tid: nat)
    | Abort(tid: nat)

  function With(s: State, tid: nat, tx: Tx): State {
    s.(txs := s.txs[tid := tx])
  }

  function Without(s: State, tid: nat): State {
    s.(txs := s.txs - {tid})
  }

  function Finish(s: State, tid: nat, db: Db): State {
    State(db, s.txs - {tid})
  }

  // ---------------------------------------------------------------------------
  // RemoveMember: checks and deletion are separate statements outside any
  // transaction

  function AfterRemoveCheck(s: State, tid: nat, caller: Principal, target: UserId): State {
    if tid !in s.txs && Removable(s.db, caller, target)
    then With(s, tid, RemoveTx(caller, target, s.db.members[target].id))
    else s
  }

  function AfterRemoveDelete(s: State, tid: nat): State {
    if tid !in s.txs || !s.txs[tid].RemoveTx? || InsertPending(s.txs, s.txs[tid].id) then s
    else if Referenced(s.db, s.txs[tid].target, s.txs[tid].id) then Without(s, tid)
    else Finish(s, tid, Removed(s.db, s.txs[tid].target, s.txs[tid].id))
  }

  // ---------------------------------------------------------------------------
  // RecordExpense, UpdateExpense, DeleteExpense

  /** FOR SHARE waits for an exclusive holder, then sees the status. */
  function AfterExpenseLock(s: State, tid: nat, caller: Principal, inRange: bool): State {
    if tid !in s.txs && NoneExclusive(s.txs, tid) && s.db.status == GroupOpen
    then With(s, tid, ExpenseTx(caller, inRange, Locked))
    else s
  }

  predicate AtWork(s: State, tid: nat) {
    tid in s.txs && s.txs[tid].ExpenseTx?
  }

  function Recording(db: Db, user: UserId, amount: int, category: Category, shares: map<UserId, int>): Expense
    requires user in db.members
  {
    Expense(db.members[user].id, amount, category, shares, false)
  }

  /** What the validation of the request guarantees. */
  predicate ValidRequest(amount: int, shares: map<UserId, int>) {
    amount > 0 && forall u :: u in shares ==> 1 <= shares[u] <= 1000
  }

  /** The caller and everybody named must be approved members. */
  predicate MayRecord(db: Db, user: UserId, amount: int, shares: map<UserId, int>) {
    && IsApproved(db.members, user)
    && (forall u :: u in shares ==> IsApproved(db.members, u))
    && ValidRequest(amount, shares)
  }

  /** The caller's own membership is looked up first. */
  function AfterExpenseCheck(s: State, tid: nat, amount: int, category: Category, shares: map<UserId, int>): State {
    if !AtWork(s, tid) || !s.txs[tid].work.Locked? then s
    else if s.txs[tid].inRange && IsApproved(s.db.members, s.txs[tid].caller.user) && ValidRequest(amount, shares)
    then
      var e := Recording(s.db, s.txs[tid].caller.user, amount, category, shares);
      With(s, tid, s.txs[tid].(work := Looking(e, {})))
    else Without(s, tid)
  }

  /** Then those of the named users, one statement each. */
  function AfterExpenseLookup(s: State, tid: nat, u: UserId): State {
    if !AtWork(s, tid) || !s.txs[tid].work.Looking? || u !in s.txs[tid].work.expense.shares then s
    else if IsApproved(s.db.members, u)
    then With(s, tid, s.txs[tid].(work := Looking(s.txs[tid].work.expense, s.txs[tid].work.seen + {u})))
    else Without(s, tid)
  }

  /** The insert comes after the last lookup and fails when the payer's
      membership is gone. */
  function AfterExpenseInsert(s: State, tid: nat): State {
    if !AtWork(s, tid) || !s.txs[tid].work.Looking? then s
    else if s.txs[tid].work.seen != s.txs[tid].work.expense.shares.Keys then s
    else if HasId(s.db.members, s.txs[tid].work.expense.paidBy)
    then With(s, tid, s.txs[tid].(work := Inserted(s.txs[tid].work.expense)))
    else Without(s, tid)
  }

  /** LockExpenseForUpdate joins the membership to compare its user with the caller. */
  predicate OwnsLive(db: Db, user: UserId, eid: nat) {
    && eid < |db.expenses| && !db.expenses[eid].deleted
    && user in db.members && db.members[user].id == db.expenses[eid].paidBy
  }

  function AfterExpenseUpdate(s: State, tid: nat, eid: nat, amount: int, category: Category): State {
    if !AtWork(s, tid) || !s.txs[tid].work.Locked? || !ExpenseFree(s.txs, tid, eid) then s
    else if s.txs[tid].inRange && amount > 0 && OwnsLive(s.db, s.txs[tid].caller.user, eid)
    then With(s, tid, s.txs[tid].(work := Updated(eid, amount, category)))
    else Without(s, tid)
  }

  function AfterExpenseDelete(s: State, tid: nat, eid: nat): State {
    if !AtWork(s, tid) || !s.txs[tid].work.Locked? || !ExpenseFree(s.txs, tid, eid) then s
    else if OwnsLive(s.db, s.txs[tid].caller.user, eid)
    then With(s, tid, s.txs[tid].(work := Deleted(eid)))
    else Without(s, tid)
  }

  function AfterExpenseCommit(s: State, tid: nat): State {
    if !AtWork(s, tid) then s
    else Finish(s, tid, s.db.(expenses := Written(s.db.expenses, s.txs[tid].work)))
  }

  // ---------------------------------------------------------------------------
  // CloseGroup

  function AfterCloseAuthorize(s: State, tid: nat, caller: Principal): State {
    if tid !in s.txs && MayAdminister(s.db.members, caller)
    then With(s, tid, CloseTx(caller, Authorized))
    else s
  }

  predicate Closing(s: State, tid: nat) {
    tid in s.txs && s.txs[tid].CloseTx?
  }

  /** FOR UPDATE waits for every other holder, then the status is checked again. */
  function AfterCloseLock(s: State, tid: nat): State {
    if !Closing(s, tid) || !s.txs[tid].reading.Authorized? then s
    else if !NoneExclusive(s.txs, tid) || !NoneShared(s.txs, tid) then s
    else if s.db.status == GroupOpen then With(s, tid, s.txs[tid].(reading := Exclusive))
    else Without(s, tid)
  }

  /** The next of the four queries, each on the rows committed at that moment. */
  ghost function Read(db: Db, r: Reading): Reading {
    match r
    case Authorized => r
    case Exclusive => GotMembers(ApprovedList(db.members))
    case GotMembers(listed) => GotPaid(listed, Grouped(PayerOf(), db.expenses))
    case GotPaid(listed, paid) => GotCategories(listed, paid, Grouped(CategoryOf(), db.expenses))
    case GotCategories(listed, paid, categories) =>
      GotRows(listed, paid, categories, AllocationRows(db.expenses))
    case GotRows(_, _, _, _) => r
  }

  ghost function AfterCloseRead(s: State, tid: nat): State {
    if !Closing(s, tid) then s
    else With(s, tid, s.txs[tid].(reading := Read(s.db, s.txs[tid].reading)))
  }

  /** UNIQUE on the run's group and the foreign keys of the payments can still
      fail the close. */
  predicate MayClose(db: Db, run: SettlementRun) {
    db.runs == [] && EndsExist(db.members, Plan(run.snapshot.members))
  }

  ghost function AfterCloseCommit(s: State, tid: nat): State {
    if !Closing(s, tid) || !s.txs[tid].reading.GotRows? then s
    else
      var run := RunOf(s.txs[tid].caller.user, s.txs[tid].reading);
      if MayClose(s.db, run) then Finish(s, tid, Closed(s.db, run)) else Without(s, tid)
  }

  // ---------------------------------------------------------------------------
  // transitionPayment

  function AfterPayRead(s: State, tid: nat, caller: Principal, action: Action, pid: nat, content: string): State {
    if tid in s.txs || pid >= |s.db.payments| then s
    else
      var p := s.db.payments[pid];
      var actor := ActorOf(s.db, caller, p);
      match Validate(action, actor, p.status)
      case Next(next) =>
        if !Participates(actor) then s
        else With(s, tid, PayTx(caller, action, actor, pid, p.status, p.version, next, content, Validated))
      case _ => s
  }

  predicate Paying(s: State, tid: nat) {
    tid in s.txs && s.txs[tid].PayTx? && s.txs[tid].pid < |s.db.payments|
  }

  /** The side effect of SubmitProof: UnsetCurrentProof marks what it sees. */
  function AfterPayProve(s: State, tid: nat): State {
    if !Paying(s, tid) || !s.txs[tid].progress.Validated? then s
    else
      var unset := if s.txs[tid].action == SubmitProof then CurrentProofs(s.db.proofs, s.txs[tid].pid) else {};
      With(s, tid, s.txs[tid].(progress := Proved(unset)))
  }

  /** The version-guarded update waits for the row, then compares versions. */
  function AfterPayGuard(s: State, tid: nat): State {
    if !Paying(s, tid) || !s.txs[tid].progress.Proved? then s
    else if !PaymentFree(s.txs, tid, s.txs[tid].pid) then s
    else if s.db.payments[s.txs[tid].pid].version == s.txs[tid].version
    then With(s, tid, s.txs[tid].(progress := Guarded(s.txs[tid].progress.unset)))
    else Without(s, tid)
  }

  /** CountUnsettledPayments counts what others have committed; when it is zero,
      MarkGroupSettled waits for the group row and keeps it. */
  function AfterPayCount(s: State, tid: nat): State {
    if !Paying(s, tid) || !s.txs[tid].progress.Guarded? || s.txs[tid].next != Settled then s
    else
      var lastOne := OthersSettled(s.db.payments, s.txs[tid].pid);
      if lastOne && (!NoneExclusive(s.txs, tid) || !NoneShared(s.txs, tid)) then s
      else With(s, tid, s.txs[tid].(progress := Counted(s.txs[tid].progress.unset, lastOne)))
  }

  predicate ReadyToCommit(tx: Tx)
    requires tx.PayTx?
  {
    if tx.next == Settled then tx.progress.Counted? else tx.progress.Guarded?
  }

  function AfterPayCommit(s: State, tid: nat): State {
    if Paying(s, tid) && ReadyToCommit(s.txs[tid]) then Finish(s, tid, Paid(s.db, s.txs[tid])) else s
  }

  // ---------------------------------------------------------------------------
  // Runs

  /** What an event does. One that cannot happen, or must wait, changes nothing;
      one that fails ends its transaction without effect. */
  ghost function After(s: State, e: Event): State {
    match e
    case Join(caller) => s.(db := Joined(s.db, caller))
    case Decide(caller, u, approve) => s.(db := Decided(s.db, caller, u, if approve then Approved else Rejected))
    case HandOver(caller, u) => s.(db := HandedOver(s.db, caller, u))
    case RemoveCheck(tid, caller, u) => AfterRemoveCheck(s, tid, caller, u)
    case RemoveDelete(tid) => AfterRemoveDelete(s, tid)
    case ExpenseLock(tid, caller, inRange) => AfterExpenseLock(s, tid, caller, inRange)
    case ExpenseCheck(tid, amount, category, shares) => AfterExpenseCheck(s, tid, amount, category, shares)
    case ExpenseLookup(tid, u) => AfterExpenseLookup(s, tid, u)
    case ExpenseInsert(tid) => AfterExpenseInsert(s, tid)
    case ExpenseUpdate(tid, eid, amount, category) => AfterExpenseUpdate(s, tid, eid, amount, category)
    case ExpenseDelete(tid, eid) => AfterExpenseDelete(s, tid, eid)
    case ExpenseCommit(tid) => AfterExpenseCommit(s, tid)
    case CloseAuthorize(tid, caller) => AfterCloseAuthorize(s, tid, caller)
    case CloseLock(tid) => AfterCloseLock(s, tid)
    case CloseRead(tid) => AfterCloseRead(s, tid)
    case CloseCommit(tid) => AfterCloseCommit(s, tid)
    case PayRead(tid, caller, action, pid, content) => AfterPayRead(s, tid, caller, action, pid, content)
    case PayProve(tid) => AfterPayProve(s, tid)
    case PayGuard(tid) => AfterPayGuard(s, tid)
    case PayCount(tid) => AfterPayCount(s, tid)
    case PayCommit(tid) => AfterPayCommit(s, tid)
    case Abort(tid) => Without(s, tid)
  }

  ghost function Reached(s: State, events: seq<Event>): State
    decreases |events|
  {
    if events == [] then s else Reached(After(s, events[0]), events[1..])
  }

  /** CreateGroup: an open group with its admin. */
  function Created(admin: UserId): State {
    State(Db(GroupOpen, map[admin := Membership(0, GroupAdmin, Approved)], 1, [], [], [], [], []), map[])
  }
}
