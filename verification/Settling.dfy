/** How a closed group gets settled without a global admin: the debtors prove, the
    creditors confirm, the admin finalizes, after handing over to the creditor
    where the admin is the debtor. That works if and only if the group has an
    admin and an unsettled payment; otherwise nothing settles it any more. */
module Settling {
  import opened Sums
  import opened Ids
  import opened FairShares
  import opened Planner
  import opened PlanBounds
  import opened Tables
  import opened Snapshots
  import opened TwoKey
  import opened Lifecycle
  import opened Invariants
  import opened Protocol
  import opened Guarantees
  import opened Orderly
  import opened Serial
  import opened LastPayments
  import opened Races

  // ---------------------------------------------------------------------------
  // Whoever is to receive a payment is an approved member, in every state

  predicate IdOf(members: map<UserId, Membership>, u: UserId, id: MembershipId) {
    u in members && members[u].id == id
  }

  /** Nobody else has, or will get, the membership id of somebody on the list. */
  predicate ListTrue(db: Db, listed: seq<Listed>) {
    forall i :: 0 <= i < |listed| ==>
      && listed[i].id < db.nextId
      && forall u :: u in db.members && IdOf(db.members, u, listed[i].id) ==> u == listed[i].user
  }

  predicate TxListed(db: Db, tx: Tx) {
    tx.CloseTx? && !tx.reading.Authorized? && !tx.reading.Exclusive? ==> ListTrue(db, tx.reading.listed)
  }

  predicate CreditorsOk(db: Db) {
    forall k :: 0 <= k < |db.payments| ==> IsApproved(db.members, db.payments[k].to)
  }

  predicate Receiving(s: State) {
    CreditorsOk(s.db) && forall t :: t in s.txs ==> TxListed(s.db, s.txs[t])
  }

  lemma PaidSomething(es: seq<Expense>, id: MembershipId)
    requires SumBy(AmountFor(PayerOf(), id), es) > 0
    ensures exists k :: 0 <= k < |es| && es[k].paidBy == id
  {
    if forall k :: 0 <= k < |es| ==> es[k].paidBy != id {
      NoLiveKey(PayerOf(), id, es);
    }
  }

  /** A positive net is that of a payer, who is an approved member. */
  lemma CreditorIsApproved(db: Db, listed: seq<Listed>, i: nat)
    requires MembersOk(db) && ValidExpenses(db.expenses) && PayersOk(db.members, db.expenses) && ListTrue(db, listed)
    requires i < |listed| && BalancesOf(listed, db.expenses)[i].net > 0
    ensures IsApproved(db.members, listed[i].user)
  {
    var es, id := db.expenses, listed[i].id;
    AllocationsAreChargeable(es);
    OwedBetween(UserIds(listed), AllocationsOf(es), listed[i].user);
    BalanceAt(listed, es, i);
    PaidSomething(es, id);
    var k :| 0 <= k < |es| && es[k].paidBy == id;
    var u :| u in db.members && db.members[u].id == id && db.members[u].standing == Approved;
    assert IdOf(db.members, u, id);
  }

  lemma PlanReceivers(db: Db, listed: seq<Listed>, k: nat)
    requires MembersOk(db) && ValidExpenses(db.expenses) && PayersOk(db.members, db.expenses) && ListTrue(db, listed)
    requires k < |Plan(BalancesOf(listed, db.expenses))|
    ensures IsApproved(db.members, Plan(BalancesOf(listed, db.expenses))[k].to)
  {
    var bs := BalancesOf(listed, db.expenses);
    PlanConnects(bs, k);
    var i :| 0 <= i < |bs| && OnSide(Creditors, bs[i].net) && bs[i].user == Plan(bs)[k].to;
    AllocationsAreChargeable(db.expenses);
    BalanceAt(listed, db.expenses, i);
    CreditorIsApproved(db, listed, i);
  }

  lemma ClosedReceivers(db: Db, run: SettlementRun)
    requires DbOk(db) && db.payments == [] && ListTrue(db, run.listed)
    requires run.snapshot == SnapshotOf(run.listed, db.expenses)
    ensures CreditorsOk(Closed(db, run))
  {
    var plan := Plan(run.snapshot.members);
    assert run.snapshot.members == BalancesOf(run.listed, db.expenses);
    forall k | 0 <= k < |plan|
      ensures IsApproved(db.members, plan[k].to)
    {
      PlanReceivers(db, run.listed, k);
    }
    assert db.payments + Openings(plan) == Openings(plan);
  }

  lemma ApprovedListTrue(db: Db)
    requires MembersOk(db)
    ensures ListTrue(db, ApprovedList(db.members))
  {
    ApprovedListIs(db.members);
  }

  lemma ListStaysTrue(a: Db, b: Db, listed: seq<Listed>)
    requires ListTrue(a, listed) && Grows(a, b)
    ensures ListTrue(b, listed)
  {
    forall i, u | 0 <= i < |listed| && IdOf(b.members, u, listed[i].id)
      ensures u == listed[i].user
    {
      assert IdOf(a.members, u, listed[i].id);
    }
  }

  /** A step on the members that removes nobody a payment goes to. */
  lemma MembersReceiving(s: State, b: Db)
    requires Receiving(s) && OnlyMembersDiffer(s.db, b) && Grows(s.db, b)
    requires forall k :: 0 <= k < |s.db.payments| ==>
               IsApproved(s.db.members, s.db.payments[k].to) ==> IsApproved(b.members, s.db.payments[k].to)
    ensures Receiving(State(b, s.txs))
  {
    forall t | t in s.txs
      ensures TxListed(b, s.txs[t])
    {
      assert TxListed(s.db, s.txs[t]);
      if s.txs[t].CloseTx? && !s.txs[t].reading.Authorized? && !s.txs[t].reading.Exclusive? {
        ListStaysTrue(s.db, b, s.txs[t].reading.listed);
      }
    }
  }

  lemma MemberEventReceiving(s: State, e: Event)
    requires Inv(s) && Receiving(s) && (e.Join? || e.Decide? || e.HandOver?)
    ensures Receiving(After(s, e))
  {
    var u, standing := if e.Join? then "" else e.user, if e.Decide? && e.approve then Approved else Rejected;
    JoinMembers(s.db, e.caller);
    DecideMembers(s.db, e.caller, u, standing);
    HandOverMembers(s.db, e.caller, u);
    forall k | 0 <= k < |s.db.payments|
      ensures IsApproved(After(s, e).db.members, s.db.payments[k].to)
    {
      ApprovalStays(s.db, e.caller, u, standing, s.db.payments[k].to);
    }
    MembersReceiving(s, After(s, e).db);
  }

  lemma RemovalReceiving(s: State, tid: nat)
    requires Inv(s) && Receiving(s)
    ensures Receiving(AfterRemoveDelete(s, tid))
  {
    if tid in s.txs && s.txs[tid].RemoveTx? {
      var target, id := s.txs[tid].target, s.txs[tid].id;
      RemoveMembers(s.db, target, id);
      if !InsertPending(s.txs, id) && !Referenced(s.db, target, id) {
        MembersReceiving(Without(s, tid), Removed(s.db, target, id));
      }
    }
  }

  lemma CloseReadReceiving(s: State, tid: nat)
    requires Inv(s) && Receiving(s)
    ensures Receiving(AfterCloseRead(s, tid))
  {
    if Closing(s, tid) {
      assert TxListed(s.db, s.txs[tid]);
      ApprovedListTrue(s.db);
    }
  }

  lemma CloseCommitReceiving(s: State, tid: nat)
    requires Inv(s) && Receiving(s)
    ensures Receiving(AfterCloseCommit(s, tid))
  {
    if Closing(s, tid) && s.txs[tid].reading.GotRows? {
      var user, reading := s.txs[tid].caller.user, s.txs[tid].reading;
      assert TxOk(s.db, s.txs[tid]) && TxListed(s.db, s.txs[tid]);
      RunIsSnapshot(s.db, user, reading);
      ClosedReceivers(s.db, RunOf(user, reading));
      forall t | t in s.txs && t != tid
        ensures TxListed(Closed(s.db, RunOf(user, reading)), s.txs[t])
      {
        assert TxListed(s.db, s.txs[t]);
      }
    }
  }

  lemma CommitReceiving(s: State, e: Event)
    requires Receiving(s) && (e.ExpenseCommit? || e.PayCommit?)
    ensures Receiving(After(s, e))
  {
    forall t | t in After(s, e).txs
      ensures TxListed(After(s, e).db, After(s, e).txs[t])
    {
      assert TxListed(s.db, s.txs[t]);
    }
  }

  lemma StatementReceiving(s: State, t: State, tid: nat)
    requires Receiving(s) && OnlyTxDiffers(s, t, tid) && (tid in t.txs ==> TxListed(s.db, t.txs[tid]))
    ensures Receiving(t)
  {
  }

  lemma ExpenseReceiving(s: State, e: Event)
    requires Receiving(s) && IsExpenseEvent(e) && !e.ExpenseCommit?
    ensures Receiving(After(s, e))
  {
    ExpenseWritesNothing(s, e);
    StatementReceiving(s, After(s, e), e.tid);
  }

  lemma PayReceiving(s: State, e: Event)
    requires Receiving(s) && IsPayEvent(e) && !e.PayCommit?
    ensures Receiving(After(s, e))
  {
    PayWritesNothing(s, e);
    StatementReceiving(s, After(s, e), e.tid);
  }

  lemma OtherReceiving(s: State, e: Event)
    requires Receiving(s) && (e.CloseAuthorize? || e.CloseLock? || e.RemoveCheck? || e.Abort?)
    ensures Receiving(After(s, e))
  {
    StatementReceiving(s, After(s, e), e.tid);
  }

  lemma EventReceiving(s: State, e: Event)
    requires Inv(s) && Receiving(s)
    ensures Receiving(After(s, e))
  {
    if e.Join? || e.Decide? || e.HandOver? {
      MemberEventReceiving(s, e);
    } else if e.RemoveDelete? {
      RemovalReceiving(s, e.tid);
    } else if e.CloseRead? {
      CloseReadReceiving(s, e.tid);
    } else if e.CloseCommit? {
      CloseCommitReceiving(s, e.tid);
    } else if e.ExpenseCommit? || e.PayCommit? {
      CommitReceiving(s, e);
    } else if IsExpenseEvent(e) {
      ExpenseReceiving(s, e);
    } else if IsPayEvent(e) {
      PayReceiving(s, e);
    } else {
      OtherReceiving(s, e);
    }
  }

  lemma {:induction false} RunReceiving(s: State, events: seq<Event>)
    requires Inv(s) && Receiving(s)
    ensures Receiving(Reached(s, events))
    decreases |events|
  {
    if events != [] {
      EventKeeps(s, events[0]);
      EventReceiving(s, events[0]);
      RunReceiving(After(s, events[0]), events[1..]);
    }
  }

  /** In every reachable state payments go to approved members. */
  lemma ReceiversAreApproved(db: Db)
    requires Reachable(db)
    ensures CreditorsOk(db)
  {
    var admin, events :| db == Reached(Created(admin), events).db;
    CreatedOk(admin);
    RunReceiving(Created(admin), events);
  }

  // ---------------------------------------------------------------------------
  // One payment

  predicate NoGlobal(rs: seq<Request>) {
    forall i :: 0 <= i < |rs| ==> !rs[i].caller.isGlobalAdmin
  }

  /** These requests, none of them by a global admin, lead from one to the other. */
  ghost predicate Leads(db: Db, rs: seq<Request>, after: Db) {
    NoGlobal(rs) && ServedAll(db, rs) == after
  }

  lemma NothingLeads(db: Db)
    ensures Leads(db, [], db)
  {
  }

  lemma OneLeads(db: Db, r: Request, after: Db)
    requires !r.caller.isGlobalAdmin && Served(db, r) == after
    ensures Leads(db, [r], after)
  {
    ServedOne(db, r);
  }

  lemma LeadsOn(a: Db, rs: seq<Request>, b: Db, more: seq<Request>, c: Db)
    requires Leads(a, rs, b) && Leads(b, more, c)
    ensures Leads(a, rs + more, c)
  {
    ServedConcat(a, rs, more);
  }

  /** A closed group with an admin, whose payments go from one member to another. */
  predicate Payable(db: Db) {
    && db.status == GroupClosed && AdminsOk(db.members) && HasAdmin(db.members) && CreditorsOk(db)
    && forall k :: 0 <= k < |db.payments| ==> db.payments[k].from != db.payments[k].to
  }

  /** Only this payment's status and version differ. */
  predicate OnlyPayment(a: seq<Payment>, b: seq<Payment>, pid: nat) {
    && pid < |a| == |b|
    && b == a[pid := a[pid].(status := b[pid].status, version := b[pid].version)]
  }

  lemma StillPayable(a: Db, b: Db, pid: nat)
    requires Payable(a) && b.status == GroupClosed && b.members == a.members && OnlyPayment(a.payments, b.payments, pid)
    ensures Payable(b)
  {
    forall k | 0 <= k < |b.payments|
      ensures b.payments[k].from == a.payments[k].from && b.payments[k].to == a.payments[k].to
    {
    }
  }

  /** A step by one of the two ends of a payment. */
  lemma EndSteps(db: Db, u: UserId, action: Action, pid: nat, next: Status) returns (after: Db)
    requires Payable(db) && pid < |db.payments| && next != Settled
    requires Validate(action, ActorOf(db, Plain(u), db.payments[pid]), db.payments[pid].status) == Next(next)
    ensures Leads(db, [TransitionPayment(Plain(u), action, pid, "")], after) && Payable(after)
    ensures after.payments == db.payments[pid := Transitioned(db.payments[pid], next)]
    ensures after.members == db.members
  {
    after := AfterTransition(db, Plain(u), action, pid, "");
    StepTaken(db, Plain(u), action, pid, "", next);
    StillPayable(db, after, pid);
    OneLeads(db, TransitionPayment(Plain(u), action, pid, ""), after);
  }

  /** Up to the proof: the debtor submits one, unless that has been done. */
  lemma Proves(db: Db, pid: nat) returns (rs: seq<Request>, after: Db)
    requires Payable(db) && pid < |db.payments| && !IsSettled(db.payments[pid])
    ensures Leads(db, rs, after) && Payable(after) && OnlyPayment(db.payments, after.payments, pid)
    ensures after.payments[pid].status == ProofSubmitted || after.payments[pid].status == CreditorConfirmed
  {
    if db.payments[pid].status == Pending || db.payments[pid].status == Disputed {
      var u := db.payments[pid].from;
      rs := [TransitionPayment(Plain(u), SubmitProof, pid, "")];
      after := EndSteps(db, u, SubmitProof, pid, ProofSubmitted);
    } else {
      rs, after := [], db;
      NothingLeads(db);
    }
  }

  /** Up to the confirmation, which is the creditor's. */
  lemma Confirms(db: Db, pid: nat) returns (rs: seq<Request>, after: Db)
    requires Payable(db) && pid < |db.payments|
    requires db.payments[pid].status == ProofSubmitted || db.payments[pid].status == CreditorConfirmed
    ensures Leads(db, rs, after) && Payable(after) && OnlyPayment(db.payments, after.payments, pid)
    ensures after.payments[pid].status == CreditorConfirmed
  {
    if db.payments[pid].status == ProofSubmitted {
      var u := db.payments[pid].to;
      rs := [TransitionPayment(Plain(u), Confirm, pid, "")];
      after := EndSteps(db, u, Confirm, pid, CreditorConfirmed);
    } else {
      rs, after := [], db;
      NothingLeads(db);
    }
  }

  lemma HandsOver(db: Db, a: UserId, u: UserId) returns (after: Db)
    requires Payable(db) && IsAdmin(db.members, a) && IsApproved(db.members, u) && u != a
    ensures after == HandedOver(db, Plain(a), u)
    ensures Payable(after) && after.payments == db.payments && IsAdmin(after.members, u)
  {
    after := HandedOver(db, Plain(a), u);
    assert db.members[u].role != GroupAdmin;
    AdminsStay(db, Plain(a), u, Approved);
    AdminStays(db, Plain(a), u, Approved);
    forall k | 0 <= k < |db.payments|
      ensures IsApproved(after.members, db.payments[k].to)
    {
      ApprovalStays(db, Plain(a), u, Approved, db.payments[k].to);
    }
  }

  /** An admin who is not the debtor: an admin who is hands over to the creditor. */
  lemma Arranges(db: Db, pid: nat) returns (rs: seq<Request>, after: Db, a: UserId)
    requires Payable(db) && pid < |db.payments|
    ensures Leads(db, rs, after) && Payable(after) && after.payments == db.payments
    ensures IsAdmin(after.members, a) && a != db.payments[pid].from
  {
    a :| a in db.members && db.members[a].role == GroupAdmin;
    if a == db.payments[pid].from {
      var u := db.payments[pid].to;
      rs := [TransferAdmin(Plain(a), u)];
      after := HandsOver(db, a, u);
      OneLeads(db, TransferAdmin(Plain(a), u), after);
      a := u;
    } else {
      rs, after := [], db;
      NothingLeads(db);
    }
  }

  lemma FinalStep(db: Db, caller: Principal, pid: nat)
    requires pid < |db.payments| && db.status == GroupClosed
    requires Validate(Finalize, ActorOf(db, caller, db.payments[pid]), db.payments[pid].status) == Next(Settled)
    ensures var after := AfterTransition(db, caller, Finalize, pid, "");
            && after.payments == db.payments[pid := Transitioned(db.payments[pid], Settled)]
            && after.members == db.members
            && after.status == if OthersSettled(db.payments, pid) then GroupSettled else GroupClosed
  {
  }

  lemma Finalizes(db: Db, pid: nat, a: UserId) returns (after: Db)
    requires Payable(db) && pid < |db.payments| && db.payments[pid].status == CreditorConfirmed
    requires IsAdmin(db.members, a) && a != db.payments[pid].from
    ensures Leads(db, [TransitionPayment(Plain(a), Finalize, pid, "")], after)
    ensures OnlyPayment(db.payments, after.payments, pid) && IsSettled(after.payments[pid])
    ensures if OthersSettled(db.payments, pid) then after.status == GroupSettled else Payable(after)
  {
    after := AfterTransition(db, Plain(a), Finalize, pid, "");
    FinalStep(db, Plain(a), pid);
    OneLeads(db, TransitionPayment(Plain(a), Finalize, pid, ""), after);
    if !OthersSettled(db.payments, pid) {
      StillPayable(db, after, pid);
    }
  }

  lemma OneAfterTheOther(a: seq<Payment>, b: seq<Payment>, c: seq<Payment>, pid: nat)
    requires OnlyPayment(a, b, pid) && OnlyPayment(b, c, pid)
    ensures OnlyPayment(a, c, pid)
  {
  }

  lemma ProvesAndConfirms(db: Db, pid: nat) returns (rs: seq<Request>, after: Db)
    requires Payable(db) && pid < |db.payments| && !IsSettled(db.payments[pid])
    ensures Leads(db, rs, after) && Payable(after) && OnlyPayment(db.payments, after.payments, pid)
    ensures after.payments[pid].status == CreditorConfirmed
  {
    var rs1, proven := Proves(db, pid);
    var rs2, confirmed := Confirms(proven, pid);
    LeadsOn(db, rs1, proven, rs2, confirmed);
    OneAfterTheOther(db.payments, proven.payments, confirmed.payments, pid);
    rs, after := rs1 + rs2, confirmed;
  }

  /** Every unsettled payment can be settled on its own. */
  lemma SettlesOne(db: Db, pid: nat) returns (rs: seq<Request>, after: Db)
    requires Payable(db) && pid < |db.payments| && !IsSettled(db.payments[pid])
    ensures Leads(db, rs, after)
    ensures OnlyPayment(db.payments, after.payments, pid) && IsSettled(after.payments[pid])
    ensures if OthersSettled(db.payments, pid) then after.status == GroupSettled else Payable(after)
  {
    var rs1, confirmed := ProvesAndConfirms(db, pid);
    var rs2, arranged, a := Arranges(confirmed, pid);
    after := Finalizes(arranged, pid, a);
    var rs3 := [TransitionPayment(Plain(a), Finalize, pid, "")];
    LeadsOn(db, rs1, confirmed, rs2, arranged);
    LeadsOn(db, rs1 + rs2, arranged, rs3, after);
    OneAfterTheOther(db.payments, confirmed.payments, after.payments, pid);
    OthersAlike(db.payments, confirmed.payments, pid);
    rs := rs1 + rs2 + rs3;
  }

  lemma OthersAlike(a: seq<Payment>, b: seq<Payment>, pid: nat)
    requires OnlyPayment(a, b, pid)
    ensures OthersSettled(a, pid) <==> OthersSettled(b, pid)
  {
    forall k | 0 <= k < |a| && k != pid
      ensures a[k] == b[k]
    {
    }
  }

  // ---------------------------------------------------------------------------
  // All payments

  function Open(payments: seq<Payment>): set<nat> {
    set k | 0 <= k < |payments| && !IsSettled(payments[k])
  }

  lemma OneLess(a: seq<Payment>, b: seq<Payment>, pid: nat)
    requires OnlyPayment(a, b, pid) && !IsSettled(a[pid]) && IsSettled(b[pid])
    ensures Open(b) == Open(a) - {pid} && pid in Open(a) && |Open(b)| < |Open(a)|
    ensures Open(b) == {} <==> OthersSettled(a, pid)
  {
    forall k | 0 <= k < |a| && k != pid
      ensures a[k] == b[k]
    {
    }
    assert Open(b) == Open(a) - {pid};
    if Open(b) == {} {
      forall k | 0 <= k < |a| && k != pid
        ensures IsSettled(a[k])
      {
        assert k !in Open(b);
      }
    }
  }

  /** Payment by payment. */
  lemma {:induction false} SettlesAll(db: Db) returns (rs: seq<Request>)
    requires Payable(db) && Open(db.payments) != {}
    ensures NoGlobal(rs) && ServedAll(db, rs).status == GroupSettled
    decreases |Open(db.payments)|
  {
    var pid :| pid in Open(db.payments);
    var rs1, after := SettlesOne(db, pid);
    OneLess(db.payments, after.payments, pid);
    if OthersSettled(db.payments, pid) {
      rs := rs1;
    } else {
      var rs2 := SettlesAll(after);
      LeadsOn(db, rs1, after, rs2, ServedAll(after, rs2));
      rs := rs1 + rs2;
    }
  }

  // ---------------------------------------------------------------------------
  // And when not

  /** A call in the role of a global admin. */
  predicate CallsAsGlobal(e: Event) {
    && (e.Join? || e.Decide? || e.HandOver? || e.RemoveCheck? || e.ExpenseLock? || e.CloseAuthorize? || e.PayRead?)
    && e.caller.isGlobalAdmin
  }

  predicate NoGlobalCalls(events: seq<Event>) {
    forall i :: 0 <= i < |events| ==> !CallsAsGlobal(events[i])
  }

  /** A closed group without an admin, in which nobody is about to settle anything. */
  predicate Powerless(s: State) {
    && s.db.status == GroupClosed && !HasAdmin(s.db.members)
    && forall t :: t in s.txs && s.txs[t].PayTx? ==> s.txs[t].next != Settled && !s.txs[t].progress.Counted?
  }

  lemma NobodyFinalizes(db: Db, caller: Principal, action: Action, p: Payment)
    requires !HasAdmin(db.members) && !caller.isGlobalAdmin
    ensures Validate(action, ActorOf(db, caller, p), p.status) != Next(Settled)
  {
    AllowedSteps(action, ActorOf(db, caller, p), p.status);
  }

  lemma PayEventPowerless(s: State, e: Event)
    requires Powerless(s) && IsPayEvent(e) && !CallsAsGlobal(e)
    ensures Powerless(After(s, e))
  {
    if e.PayRead? && e.pid < |s.db.payments| {
      NobodyFinalizes(s.db, e.caller, e.action, s.db.payments[e.pid]);
    }
  }

  lemma StatementPowerless(s: State, e: Event)
    requires Powerless(s) && !e.ExpenseCommit? && !e.CloseCommit? && (IsExpenseEvent(e) || IsCloseEvent(e))
    ensures Powerless(After(s, e))
  {
    if IsExpenseEvent(e) {
      ExpenseWritesNothing(s, e);
    } else {
      CloseWritesNothing(s, e);
    }
  }

  lemma MemberEventPowerless(s: State, e: Event)
    requires Powerless(s) && !IsExpenseEvent(e) && !IsCloseEvent(e) && !IsPayEvent(e)
    ensures Powerless(After(s, e))
  {
    NoAdminStays(s, e);
  }

  lemma OtherEventPowerless(s: State, e: Event)
    requires Inv(s) && Powerless(s) && !IsPayEvent(e)
    ensures Powerless(After(s, e))
  {
    if e.ExpenseCommit? || e.CloseCommit? {
      WritersAreGone(s, e.tid);
    } else if IsExpenseEvent(e) || IsCloseEvent(e) {
      StatementPowerless(s, e);
    } else {
      MemberEventPowerless(s, e);
    }
  }

  lemma {:induction false} RunPowerless(s: State, events: seq<Event>)
    requires Inv(s) && Powerless(s) && NoGlobalCalls(events)
    ensures Powerless(Reached(s, events))
    decreases |events|
  {
    if events != [] {
      assert !CallsAsGlobal(events[0]);
      EventKeeps(s, events[0]);
      if IsPayEvent(events[0]) {
        PayEventPowerless(s, events[0]);
      } else {
        OtherEventPowerless(s, events[0]);
      }
      RunPowerless(After(s, events[0]), events[1..]);
    }
  }

  /** A closed group without an admin, or with all its payments settled, stays
      closed over any run in which no global admin calls. */
  lemma NeverSettledOtherwise(db: Db, events: seq<Event>)
    requires DbOk(db) && db.status == GroupClosed && (!HasAdmin(db.members) || AllSettled(db.payments))
    requires NoGlobalCalls(events)
    ensures Reached(Idle(db), events).db.status == GroupClosed
  {
    if AllSettled(db.payments) {
      ClosedForever(Idle(db), events);
    } else {
      RunPowerless(Idle(db), events);
    }
  }

  lemma ScriptCalls(r: Request)
    requires !r.caller.isGlobalAdmin
    ensures NoGlobalCalls(Script(r))
  {
  }

  lemma {:induction false} ScriptsCall(rs: seq<Request>)
    requires NoGlobal(rs)
    ensures NoGlobalCalls(Scripts(rs))
  {
    if rs != [] {
      ScriptCalls(rs[0]);
      ScriptsCall(rs[1..]);
    }
  }

  lemma OpenIffUnsettled(payments: seq<Payment>)
    ensures Open(payments) == {} <==> AllSettled(payments)
  {
    if Open(payments) == {} {
      forall k | 0 <= k < |payments|
        ensures IsSettled(payments[k])
      {
        assert k !in Open(payments);
      }
    }
  }

  lemma ReachedPayable(db: Db)
    requires Reachable(db) && db.status == GroupClosed && HasAdmin(db.members)
    ensures Payable(db)
  {
    ReachableOk(db);
    ReceiversAreApproved(db);
    forall k | 0 <= k < |db.payments|
      ensures db.payments[k].from != db.payments[k].to
    {
      EndsDiffer(db, k);
    }
  }

  /** From every reachable closed group some requests, none by a global admin, reach
      the settled group if and only if it has an admin and an unsettled payment. */
  lemma CanBeSettledIff(db: Db)
    requires Reachable(db) && db.status == GroupClosed
    ensures (exists rs :: NoGlobal(rs) && ServedAll(db, rs).status == GroupSettled) <==>
            HasAdmin(db.members) && !AllSettled(db.payments)
  {
    ReachableOk(db);
    OpenIffUnsettled(db.payments);
    if HasAdmin(db.members) && !AllSettled(db.payments) {
      ReachedPayable(db);
      var rs := SettlesAll(db);
    } else {
      forall rs | NoGlobal(rs)
        ensures ServedAll(db, rs).status != GroupSettled
      {
        ServedAllPerforms(db, rs);
        ScriptsCall(rs);
        NeverSettledOtherwise(db, Scripts(rs));
      }
    }
  }

  /** In orderly runs every closed group can still be settled that way. */
  lemma OrderlyGroupsCanBeSettled(db: Db)
    requires OrderlyReachable(db) && db.status == GroupClosed
    ensures exists rs :: NoGlobal(rs) && ServedAll(db, rs).status == GroupSettled
  {
    OrderlyOk(db);
    var admin, events :| OrderlyRun(Created(admin), events) && db == Reached(Created(admin), events).db;
    assert Reachable(db);
    CanBeSettledIff(db);
  }
}
