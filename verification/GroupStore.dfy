/** A group as the service keeps it: the rows are fields, and each service
    function changes them in place, one request at a time. Each method has the
    effect that the statements of its transaction have when nothing interleaves. */
module GroupStore {
  import opened Sums
  import opened Ids
  import opened Planner
  import opened Tables
  import opened TwoKey
  import opened Lifecycle
  import opened Invariants
  import opened Orderly
  import opened Memberships
  import S = Serial
  import Queries
  import Requests

  /** What the caller is told. */
  datatype Outcome = Done | Denied | Missing | Conflicting | Refused

  function Unsettled(): Payment -> int {
    (p: Payment) => if IsSettled(p) then 0 else 1
  }

  /** CountUnsettledPayments. */
  lemma {:induction false} UnsettledCounts(payments: seq<Payment>)
    ensures SumBy(Unsettled(), payments) >= 0
    ensures SumBy(Unsettled(), payments) == 0 <==> AllSettled(payments)
  {
    if payments != [] {
      UnsettledCounts(payments[1..]);
      assert payments == [payments[0]] + payments[1..];
      assert AllSettled(payments) <==> IsSettled(payments[0]) && AllSettled(payments[1..]);
    }
  }

  /** The loop over the shares: everybody named must be an approved member. */
  method AllNamedApproved(members: map<UserId, Membership>, shares: seq<Requests.ShareInput>) returns (ok: bool)
    ensures ok <==> forall i :: 0 <= i < |shares| ==> IsApproved(members, shares[i].userId)
  {
    var i := 0;
    while i < |shares|
      invariant 0 <= i <= |shares|
      invariant forall j :: 0 <= j < i ==> IsApproved(members, shares[j].userId)
    {
      if !IsApproved(members, shares[i].userId) {
        return false;
      }
      i := i + 1;
    }
    ok := true;
  }

  /** The loop that inserts one row per share. */
  method ShareRows(shares: seq<Requests.ShareInput>) returns (rows: map<UserId, int>)
    ensures rows == Requests.ShareMap(shares)
  {
    rows := map[];
    var i := 0;
    while i < |shares|
      invariant 0 <= i <= |shares|
      invariant rows == Requests.ShareMap(shares[..i])
    {
      assert shares[..i+1][..i] == shares[..i];
      rows := rows[shares[i].userId := shares[i].weight];
      i := i + 1;
    }
    assert shares[..i] == shares;
  }

  lemma MayRecordIff(db: Db, user: UserId, amount: int, shares: seq<Requests.ShareInput>)
    requires Requests.Storable(shares) && amount > 0
    ensures MayRecord(db, user, amount, Requests.ShareMap(shares)) <==>
            IsApproved(db.members, user) && forall i :: 0 <= i < |shares| ==> IsApproved(db.members, shares[i].userId)
  {
    var m := Requests.ShareMap(shares);
    Requests.StorableMakesValidExpense(shares, amount, 0, Other);
    if forall u :: u in m ==> IsApproved(db.members, u) {
      forall i | 0 <= i < |shares|
        ensures IsApproved(db.members, shares[i].userId)
      {
        Requests.ShareMapAt(shares, i);
      }
    }
    if forall i :: 0 <= i < |shares| ==> IsApproved(db.members, shares[i].userId) {
      forall u | u in m
        ensures IsApproved(db.members, u)
      {
        Requests.OnlyNamedShare(shares, u);
      }
    }
  }

  /** The expense is there, not deleted, and this user paid it. */
  predicate IsOwnLive(es: seq<Expense>, members: map<UserId, Membership>, user: UserId, eid: nat) {
    && eid < |es| && !es[eid].deleted
    && user in members && members[user].id == es[eid].paidBy
  }

  /** The row holds what was asked for, with one weight for each share. */
  ghost predicate IsRecorded(e: Expense, payer: MembershipId, amount: int, category: Category,
                             shares: seq<Requests.ShareInput>)
  {
    && e.paidBy == payer && e.amount == amount && e.category == category && !e.deleted
    && (forall u :: u in e.shares <==> exists i :: 0 <= i < |shares| && shares[i].userId == u)
    && (forall i :: 0 <= i < |shares| ==>
          shares[i].userId in e.shares && e.shares[shares[i].userId] == shares[i].weight)
  }

  /** From the n-th on there is one pending payment per transfer, and without any
      the group is settled. */
  predicate IsPlannedBy(payments: seq<Payment>, status: GroupStatus, n: nat, plan: seq<Transfer>) {
    && |payments| == n + |plan|
    && (forall k :: 0 <= k < |plan| ==>
          payments[n+k] == Payment(plan[k].from, plan[k].to, plan[k].amount, Pending, 0))
    && status == if plan == [] then GroupSettled else GroupClosed
  }

  /** Where a step leads. */
  function Leads(action: Action): Status {
    match action
    case SubmitProof => ProofSubmitted
    case Confirm => CreditorConfirmed
    case Dispute => Disputed
    case Finalize => Settled
    case Reject => Disputed
  }

  /** What this user is to this payment. */
  function RolesIn(db: Db, caller: Principal, p: Payment): Actor {
    Actor(caller.user == p.from, caller.user == p.to,
          Administers(db.members, caller.(isGlobalAdmin := false)), caller.isGlobalAdmin)
  }

  /** Who has no part in the payment, or may not take the step, is denied; what the
      status does not admit is a conflict. */
  predicate IsJudged(db: Db, caller: Principal, action: Action, p: Payment, r: Outcome) {
    var actor := RolesIn(db, caller, p);
    var outsider := !actor.isDebtor && !actor.isCreditor && !actor.isGroupAdmin && !actor.isGlobalAdmin;
    r == if outsider then Denied
         else match Validate(action, actor, p.status)
           case Next(_) => Done
           case Forbidden => Denied
           case Conflict => Conflicting
  }

  lemma JudgedIsServed(db: Db, caller: Principal, action: Action, pid: nat, content: string, r: Outcome)
    requires pid < |db.payments| && IsJudged(db, caller, action, db.payments[pid], r)
    ensures var verdict := Validate(action, ActorOf(db, caller, db.payments[pid]), db.payments[pid].status);
            S.Served(db, S.Request.TransitionPayment(caller, action, pid, content)) ==
            if r == Done && verdict.Next?
            then Paid(db, S.Transaction(db, caller, action, pid, content, verdict.status)) else db
  {
  }

  /** The step is taken: the payment moves on by one version, a new proof becomes its
      only current one, the log has one entry more, and the last settlement of a
      closed group settles the group. */
  ghost predicate IsStepped(db: Db, after: Db, caller: Principal, action: Action, pid: nat, content: string)
    requires pid < |db.payments|
  {
    var p := db.payments[pid];
    var n := |db.proofs|;
    && after == db.(status := after.status, payments := after.payments, proofs := after.proofs, log := after.log)
    && |after.payments| == |db.payments|
    && (forall k :: 0 <= k < |db.payments| ==>
          after.payments[k] == if k == pid then Payment(p.from, p.to, p.amount, Leads(action), p.version + 1)
                               else db.payments[k])
    && (if action == SubmitProof
        then && |after.proofs| == n + 1 && after.proofs[n] == Proof(pid, content, true)
             && forall k :: 0 <= k < n ==>
                  after.proofs[k] == Proof(db.proofs[k].pid, db.proofs[k].content,
                                           db.proofs[k].current && db.proofs[k].pid != pid)
        else after.proofs == db.proofs)
    && |after.log| == |db.log| + 1 && after.log[..|db.log|] == db.log
    && (var e := after.log[|db.log|];
        && e.pid == pid && e.user == caller.user && e.action == action && e.actor == RolesIn(db, caller, p)
        && e.before == p.status && e.after == Leads(action) && Lawful(e, p.from, p.to))
    && after.status == if db.status == GroupClosed && forall k :: 0 <= k < |after.payments| ==>
                          after.payments[k].status == Settled
                       then GroupSettled else db.status
  }

  lemma StepIs(db: Db, caller: Principal, action: Action, pid: nat, content: string, next: Status)
    requires pid < |db.payments|
    requires Validate(action, ActorOf(db, caller, db.payments[pid]), db.payments[pid].status) == Next(next)
    ensures next == Leads(action)
    ensures IsStepped(db, Paid(db, S.Transaction(db, caller, action, pid, content, next)), caller, action, pid, content)
  {
    AllowedSteps(action, ActorOf(db, caller, db.payments[pid]), db.payments[pid].status);
    var after := Paid(db, S.Transaction(db, caller, action, pid, content, next));
    AllOrOthers(db.payments, pid, next);
    if next != Settled {
      assert after.payments[pid].status != Settled;
    }
  }

  lemma RecordedAre(e: Expense, shares: seq<Requests.ShareInput>)
    requires Requests.Storable(shares) && e.shares == Requests.ShareMap(shares) && !e.deleted
    ensures IsRecorded(e, e.paidBy, e.amount, e.category, shares)
  {
    forall i | 0 <= i < |shares|
      ensures shares[i].userId in e.shares && e.shares[shares[i].userId] == shares[i].weight
    {
      Requests.ShareMapAt(shares, i);
    }
    forall u
      ensures u in e.shares <==> exists i :: 0 <= i < |shares| && shares[i].userId == u
    {
      if u in e.shares {
        Requests.OnlyNamedShare(shares, u);
      }
    }
  }

  /** Demoting the one admin is demoting every admin. */
  lemma OneDemotion(members: map<UserId, Membership>, a: UserId)
    requires AdminsOk(members) && a in members && members[a].role == GroupAdmin
    ensures members[a := members[a].(role := Member)] == Demoted(members)
  {
  }

  /** The update that demotes finds its row, and it is the only one. */
  lemma AdminIsFound(db: Db)
    requires S.ServiceReached(db)
    ensures HasAdmin(db.members) && AdminsOk(db.members)
  {
    S.ReachedIsSound(db);
  }

  /** An open group has no run and no payments yet, and its close meets every
      constraint. */
  lemma OpenCanClose(db: Db, user: UserId)
    requires S.ServiceReached(db) && db.status == GroupOpen
    ensures db.runs == [] && db.payments == [] && MayClose(db, S.RunNow(db, user))
  {
    S.ReachedIsSound(db);
    S.EndsOfPlanExist(db, user);
  }

  lemma CloseIsServed(db: Db, caller: Principal)
    ensures S.Served(db, S.Request.CloseGroup(caller)) ==
            if Administers(db.members, caller) && db.status == GroupOpen && MayClose(db, S.RunNow(db, caller.user))
            then Closed(db, S.RunNow(db, caller.user)) else db
  {
  }

  class Group {
    var status: GroupStatus
    var members: map<UserId, Membership>
    var nextId: MembershipId
    var expenses: seq<Expense>
    var runs: seq<SettlementRun>
    var payments: seq<Payment>
    var proofs: seq<Proof>
    var log: seq<TwoKey.Entry>

    ghost function View(): Db
      reads this
    {
      Db(status, members, nextId, expenses, runs, payments, proofs, log)
    }

    /** The rows are those that some requests, one after the other, have led to. */
    ghost predicate Valid()
      reads this
    {
      S.ServiceReached(View())
    }

    constructor (admin: UserId)
      ensures Valid() && View() == Created(admin).db
      ensures status == GroupOpen && members == map[admin := Membership(0, GroupAdmin, Approved)] && nextId == 1
      ensures expenses == [] && runs == [] && payments == [] && proofs == [] && log == []
    {
      status, members, nextId := GroupOpen, map[admin := Membership(0, GroupAdmin, Approved)], 1;
      expenses, runs, payments, proofs, log := [], [], [], [], [];
      new;
      S.CreationIsReached(admin);
    }

    method RequestToJoin(caller: Principal) returns (r: Outcome)
      requires Valid()
      modifies this`members, this`nextId
      ensures Valid() && View() == S.Served(old(View()), S.Request.RequestToJoin(caller))
      ensures r == Denied <==> !caller.verified
      ensures r == Done <==> caller.verified && status == GroupOpen && caller.user !in old(members)
      ensures r in {Done, Denied, Conflicting}
      ensures if r == Done
              then members == old(members)[caller.user := Membership(old(nextId), Member, Requested)] &&
                   nextId == old(nextId) + 1
              else members == old(members) && nextId == old(nextId)
    {
      S.ServedIsReached(View(), S.Request.RequestToJoin(caller));
      if !caller.verified {
        return Denied;
      }
      if status != GroupOpen {
        return Conflicting;
      }
      if caller.user in members {
        return Conflicting;
      }
      members := members[caller.user := Membership(nextId, Member, Requested)];
      nextId := nextId + 1;
      r := Done;
    }

    method DecideMember(caller: Principal, user: UserId, approve: bool) returns (r: Outcome)
      requires Valid()
      modifies this`members
      ensures Valid() && View() == S.Served(old(View()), S.Request.DecideMember(caller, user, approve))
      ensures r == Denied <==> !Administers(old(members), caller)
      ensures r == Done <==> r != Denied && user in old(members) && old(members)[user].standing == Requested
      ensures r in {Done, Denied, Missing}
      ensures members.Keys == old(members).Keys
      ensures forall u :: u in members ==>
                members[u] == if u == user && r == Done
                              then Membership(old(members)[u].id, old(members)[u].role,
                                              if approve then Approved else Rejected)
                              else old(members)[u]
    {
      S.ServedIsReached(View(), S.Request.DecideMember(caller, user, approve));
      if !MayAdminister(members, caller) {
        return Denied;
      }
      if user !in members || members[user].standing != Requested {
        return Missing;
      }
      members := members[user := members[user].(standing := if approve then Approved else Rejected)];
      r := Done;
    }

    /** Demotes first, then promotes; the update that demotes finds its row. */
    method TransferAdmin(caller: Principal, user: UserId) returns (r: Outcome)
      requires Valid()
      modifies this`members
      ensures Valid() && View() == S.Served(old(View()), S.Request.TransferAdmin(caller, user))
      ensures r == Denied <==> !Administers(old(members), caller)
      ensures r == Missing <==> r != Denied && user !in old(members)
      ensures r == Refused <==> r != Denied && user in old(members) && old(members)[user].standing != Approved
      ensures r == Conflicting <==>
                && r != Denied && user in old(members)
                && old(members)[user].standing == Approved && old(members)[user].role == GroupAdmin
      ensures members.Keys == old(members).Keys
      ensures forall u :: u in members ==>
                members[u] == if r != Done then old(members)[u]
                              else Membership(old(members)[u].id, if u == user then GroupAdmin else Member,
                                              old(members)[u].standing)
    {
      S.ServedIsReached(View(), S.Request.TransferAdmin(caller, user));
      if !MayAdminister(members, caller) {
        return Denied;
      }
      if user !in members {
        return Missing;
      }
      if members[user].standing != Approved {
        return Refused;
      }
      if members[user].role == GroupAdmin {
        return Conflicting;
      }
      AdminIsFound(View());
      var oldAdmin :| oldAdmin in members && members[oldAdmin].role == GroupAdmin;
      OneDemotion(members, oldAdmin);
      members := members[oldAdmin := members[oldAdmin].(role := Member)];
      members := members[user := members[user].(role := GroupAdmin)];
      r := Done;
    }

    /** The checks and the deletion, with nothing between them. */
    method RemoveMember(caller: Principal, user: UserId) returns (r: Outcome)
      requires Valid()
      modifies this`members
      ensures Valid() && View() == S.Served(old(View()), S.Request.RemoveMember(caller, user))
      ensures r == Denied <==> user != caller.user && !Administers(old(members), caller)
      ensures r == Missing <==> r != Denied && user !in old(members)
      ensures r == Done <==>
                && r != Denied && user in old(members) && old(members)[user].role == Member
                && (forall k :: 0 <= k < |expenses| ==> expenses[k].paidBy != old(members)[user].id)
                && (forall k :: 0 <= k < |expenses| ==> expenses[k].deleted || user !in expenses[k].shares)
                && (forall k :: 0 <= k < |payments| ==> payments[k].from != user && payments[k].to != user)
      ensures members == if r == Done then old(members) - {user} else old(members)
    {
      S.ServedIsReached(View(), S.Request.RemoveMember(caller, user));
      if user != caller.user && !MayAdminister(members, caller) {
        return Denied;
      }
      if user !in members {
        return Missing;
      }
      if members[user].role == GroupAdmin {
        return Conflicting;
      }
      if HasExpenses(expenses, members[user].id) {
        return Conflicting;
      }
      if HasShares(expenses, user) {
        return Conflicting;
      }
      if HasPayments(payments, user) {
        return Refused;
      }
      members := members - {user};
      r := Done;
    }

    method RecordExpense(caller: Principal, inRange: bool, amount: int, category: Category,
                         shares: seq<Requests.ShareInput>)
      returns (r: Outcome)
      requires Valid() && amount > 0 && Requests.Storable(shares)
      modifies this`expenses
      ensures Valid()
      ensures View() == S.Served(old(View()), S.Request.RecordExpense(caller, inRange, amount, category,
                                                                     Requests.ShareMap(shares)))
      ensures r == Done <==>
                && status == GroupOpen && inRange
                && caller.user in members && members[caller.user].standing == Approved
                && forall i :: 0 <= i < |shares| ==>
                     shares[i].userId in members && members[shares[i].userId].standing == Approved
      ensures r == Conflicting <==> status != GroupOpen
      ensures r == Denied <==>
                && status == GroupOpen && inRange
                && (caller.user !in members || members[caller.user].standing != Approved)
      ensures r in {Done, Conflicting, Denied, Refused}
      ensures if r == Done
              then |expenses| == |old(expenses)| + 1 && expenses[..|old(expenses)|] == old(expenses) &&
                   IsRecorded(expenses[|old(expenses)|], members[caller.user].id, amount, category, shares)
              else expenses == old(expenses)
    {
      S.ServedIsReached(View(), S.Request.RecordExpense(caller, inRange, amount, category, Requests.ShareMap(shares)));
      MayRecordIff(View(), caller.user, amount, shares);
      if status != GroupOpen {
        return Conflicting;
      }
      if !inRange {
        return Refused;
      }
      if !IsApproved(members, caller.user) {
        return Denied;
      }
      var ok := AllNamedApproved(members, shares);
      if !ok {
        return Refused;
      }
      var rows := ShareRows(shares);
      var e := Expense(members[caller.user].id, amount, category, rows, false);
      RecordedAre(e, shares);
      expenses := expenses + [e];
      r := Done;
    }

    /** Amount and category of one's own live expense; never its shares or payer. */
    method UpdateExpense(caller: Principal, inRange: bool, eid: nat, amount: int, category: Category)
      returns (r: Outcome)
      requires Valid() && amount > 0
      modifies this`expenses
      ensures Valid()
      ensures View() == S.Served(old(View()), S.Request.UpdateExpense(caller, inRange, eid, amount, category))
      ensures r == Done <==> status == GroupOpen && inRange && IsOwnLive(old(expenses), members, caller.user, eid)
      ensures r == Conflicting <==> status != GroupOpen
      ensures r == Missing <==>
                status == GroupOpen && inRange && (eid >= |old(expenses)| || old(expenses)[eid].deleted)
      ensures r in {Done, Conflicting, Missing, Denied, Refused}
      ensures |expenses| == |old(expenses)|
      ensures forall k :: 0 <= k < |expenses| ==>
                expenses[k] == if k == eid && r == Done
                               then Expense(old(expenses)[k].paidBy, amount, category, old(expenses)[k].shares, false)
                               else old(expenses)[k]
    {
      S.ServedIsReached(View(), S.Request.UpdateExpense(caller, inRange, eid, amount, category));
      if status != GroupOpen {
        return Conflicting;
      }
      if !inRange {
        return Refused;
      }
      if eid >= |expenses| || expenses[eid].deleted {
        return Missing;
      }
      if caller.user !in members || members[caller.user].id != expenses[eid].paidBy {
        return Denied;
      }
      expenses := expenses[eid := expenses[eid].(amount := amount, category := category)];
      r := Done;
    }

    method DeleteExpense(caller: Principal, eid: nat) returns (r: Outcome)
      requires Valid()
      modifies this`expenses
      ensures Valid() && View() == S.Served(old(View()), S.Request.DeleteExpense(caller, eid))
      ensures r == Done <==> status == GroupOpen && IsOwnLive(old(expenses), members, caller.user, eid)
      ensures r == Conflicting <==> status != GroupOpen
      ensures r == Missing <==> status == GroupOpen && (eid >= |old(expenses)| || old(expenses)[eid].deleted)
      ensures r in {Done, Conflicting, Missing, Denied}
      ensures |expenses| == |old(expenses)|
      ensures forall k :: 0 <= k < |expenses| ==>
                expenses[k] == if k == eid && r == Done
                               then Expense(old(expenses)[k].paidBy, old(expenses)[k].amount, old(expenses)[k].category,
                                            old(expenses)[k].shares, true)
                               else old(expenses)[k]
    {
      S.ServedIsReached(View(), S.Request.DeleteExpense(caller, eid));
      if status != GroupOpen {
        return Conflicting;
      }
      if eid >= |expenses| || expenses[eid].deleted {
        return Missing;
      }
      if caller.user !in members || members[caller.user].id != expenses[eid].paidBy {
        return Denied;
      }
      expenses := expenses[eid := expenses[eid].(deleted := true)];
      r := Done;
    }

    /** One payment per transfer. */
    method CreatePayments(plan: seq<Planner.Transfer>)
      modifies this`payments
      ensures payments == old(payments) + Openings(plan)
      ensures |payments| == |old(payments)| + |plan| && payments[..|old(payments)|] == old(payments)
      ensures forall k :: 0 <= k < |plan| ==>
                payments[|old(payments)| + k] == Payment(plan[k].from, plan[k].to, plan[k].amount, Pending, 0)
    {
      var i := 0;
      while i < |plan|
        invariant 0 <= i <= |plan|
        invariant payments == old(payments) + Openings(plan)[..i]
      {
        payments := payments + [Payment(plan[i].from, plan[i].to, plan[i].amount, Pending, 0)];
        i := i + 1;
      }
    }

    /** The part of a close under the lock. */
    method Settle(user: UserId)
      modifies this`status, this`runs, this`payments
      ensures View() == Closed(old(View()), S.RunNow(old(View()), user))
      ensures |runs| == |old(runs)| + 1 && runs[..|old(runs)|] == old(runs) && runs[|old(runs)|].computedBy == user
      ensures Queries.ListsApproved(runs[|old(runs)|].listed, members)
      ensures IsPlannedBy(payments, status, |old(payments)|, Plan(runs[|old(runs)|].snapshot.members))
    {
      var listed, snapshot := Queries.TakeSnapshot(members, expenses);
      var plan := ComputePlan(snapshot.members);
      status := GroupClosed;
      runs := runs + [SettlementRun(user, listed, snapshot)];
      CreatePayments(plan);
      if |plan| == 0 {
        status := GroupSettled;
      }
    }

    /** Closes over the rows as they are; with sums that int64 can hold, which is
        when `MachineClose` computes the same, it cannot fail once past the status. */
    method CloseGroup(caller: Principal) returns (r: Outcome)
      requires Valid()
      modifies this`status, this`runs, this`payments
      ensures Valid() && View() == S.Served(old(View()), S.Request.CloseGroup(caller))
      ensures r == Denied <==> !Administers(members, caller)
      ensures r == Conflicting <==> r != Denied && old(status) != GroupOpen
      ensures r in {Done, Denied, Conflicting}
      ensures r == Done ==> runs == [S.RunNow(old(View()), caller.user)] && runs[0].computedBy == caller.user
      ensures r == Done ==> Queries.ListsApproved(runs[0].listed, members)
      ensures r == Done ==> IsPlannedBy(payments, status, 0, Plan(runs[0].snapshot.members))
      ensures r != Done ==> View() == old(View())
    {
      S.ServedIsReached(View(), S.Request.CloseGroup(caller));
      CloseIsServed(View(), caller);
      if !MayAdminister(members, caller) {
        return Denied;
      }
      if status != GroupOpen {
        return Conflicting;
      }
      OpenCanClose(View(), caller.user);
      Settle(caller.user);
      r := Done;
    }

    /** The statements of an accepted step: the proof, the version-guarded update,
        the log entry, and the group once its last payment is settled. */
    method Apply(caller: Principal, action: Action, pid: nat, content: string, next: Status)
      requires pid < |payments|
      requires Validate(action, ActorOf(View(), caller, payments[pid]), payments[pid].status) == Next(next)
      modifies this`status, this`payments, this`proofs, this`log
      ensures View() == Paid(old(View()), S.Transaction(old(View()), caller, action, pid, content, next))
    {
      var p := payments[pid];
      var actor := Actor(p.from == caller.user, p.to == caller.user,
                         IsAdmin(members, caller.user), caller.isGlobalAdmin);
      if action == SubmitProof {
        proofs := Superseded(proofs, CurrentProofs(proofs, pid)) + [Proof(pid, content, true)];
      }
      payments := payments[pid := Transitioned(p, next)];
      log := log + [TwoKey.Entry(pid, caller.user, action, actor, LabelFor(action, actor, p.status), p.status, next)];
      if next == Settled {
        UnsettledCounts(payments);
        AllOrOthers(old(payments), pid, Settled);
        if SumBy(Unsettled(), payments) == 0 {
          status := MarkedSettled(status);
        }
      }
    }

    /** The checks: whoever has no part in the payment is turned away first. */
    method Judge(caller: Principal, action: Action, p: Payment) returns (r: Outcome, next: Status)
      ensures IsJudged(View(), caller, action, p, r)
      ensures r == Done ==> Validate(action, ActorOf(View(), caller, p), p.status) == Next(next)
    {
      next := p.status;
      var actor := Actor(p.from == caller.user, p.to == caller.user,
                         IsAdmin(members, caller.user), caller.isGlobalAdmin);
      assert actor == ActorOf(View(), caller, p) == RolesIn(View(), caller, p);
      if !Participates(actor) {
        return Denied, next;
      }
      var verdict := Validate(action, actor, p.status);
      if verdict.Forbidden? {
        return Denied, next;
      }
      if verdict.Conflict? {
        return Conflicting, next;
      }
      r, next := Done, verdict.status;
    }

    method TransitionPayment(caller: Principal, action: Action, pid: nat, content: string) returns (r: Outcome)
      requires Valid()
      modifies this`status, this`payments, this`proofs, this`log
      ensures Valid() && View() == S.Served(old(View()), S.Request.TransitionPayment(caller, action, pid, content))
      ensures if pid < |payments| then IsJudged(old(View()), caller, action, old(payments)[pid], r) else r == Missing
      ensures r == Done ==> pid < |old(payments)| && IsStepped(old(View()), View(), caller, action, pid, content)
      ensures r != Done ==> View() == old(View())
    {
      S.ServedIsReached(View(), S.Request.TransitionPayment(caller, action, pid, content));
      if pid >= |payments| {
        return Missing;
      }
      var next;
      r, next := Judge(caller, action, payments[pid]);
      JudgedIsServed(View(), caller, action, pid, content, r);
      if r == Done {
        StepIs(View(), caller, action, pid, content, next);
        Apply(caller, action, pid, content, next);
      }
    }
  }
}
