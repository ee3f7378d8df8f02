/** Expenses are written by those who paid: over every run, whatever interleaves,
    an expense is recorded, changed or deleted by its payer, and its payer and
    shares never change. */
module Ownership {
  import opened Ids
  import opened Tables
  import opened Lifecycle
  import opened Invariants
  import opened Protocol
  import opened Guarantees

  predicate Owns(members: map<UserId, Membership>, u: UserId, id: MembershipId) {
    u in members && members[u].id == id
  }

  /** The expense a transaction works on is its user's. */
  predicate WorkedBy(db: Db, u: UserId, w: Work) {
    match w
    case Locked => true
    case Looking(e, _) => forall v :: v in db.members && Owns(db.members, v, e.paidBy) ==> v == u
    case Inserted(e) => Owns(db.members, u, e.paidBy)
    case Updated(eid, _, _) => eid < |db.expenses| && Owns(db.members, u, db.expenses[eid].paidBy)
    case Deleted(eid) => eid < |db.expenses| && Owns(db.members, u, db.expenses[eid].paidBy)
  }

  predicate TxOwned(db: Db, tx: Tx) {
    tx.ExpenseTx? ==> WorkedBy(db, tx.caller.user, tx.work)
  }

  predicate Owned(s: State) {
    forall t :: t in s.txs ==> TxOwned(s.db, s.txs[t])
  }

  /** Only one transaction differs, and it is owned. */
  lemma StatementOwned(s: State, t: State, tid: nat)
    requires Owned(s) && t.db == s.db
    requires tid in t.txs ==> TxOwned(s.db, t.txs[tid])
    requires forall u :: u in t.txs && u != tid ==> u in s.txs && t.txs[u] == s.txs[u]
    ensures Owned(t)
  {
  }

  /** Recording: the payer is the caller's own membership. */
  lemma RecordingOwned(s: State, e: Event)
    requires MembersOk(s.db) && Owned(s) && (e.ExpenseCheck? || e.ExpenseLookup? || e.ExpenseInsert?)
    ensures Owned(After(s, e))
  {
    assert e.tid in s.txs ==> TxOwned(s.db, s.txs[e.tid]);
    StatementOwned(s, After(s, e), e.tid);
  }

  /** Changing: the owner check. */
  lemma ChangeOwned(s: State, e: Event)
    requires Owned(s) && (e.ExpenseLock? || e.ExpenseUpdate? || e.ExpenseDelete?)
    ensures Owned(After(s, e))
  {
    assert e.tid in s.txs ==> TxOwned(s.db, s.txs[e.tid]);
    StatementOwned(s, After(s, e), e.tid);
  }

  lemma ExpenseStatementOwned(s: State, e: Event)
    requires MembersOk(s.db) && Owned(s) && IsExpenseEvent(e) && !e.ExpenseCommit?
    ensures Owned(After(s, e))
  {
    if e.ExpenseCheck? || e.ExpenseLookup? || e.ExpenseInsert? {
      RecordingOwned(s, e);
    } else {
      ChangeOwned(s, e);
    }
  }

  lemma OtherStatementOwned(s: State, e: Event)
    requires Owned(s) && (IsCloseEvent(e) || IsPayEvent(e)) && !e.CloseCommit? && !e.PayCommit?
    ensures Owned(After(s, e))
  {
    StatementOwned(s, After(s, e), e.tid);
  }

  /** No membership that pays is lost, and nobody new gets its id. */
  lemma MembersStepOwned(s: State, b: Db)
    requires Inv(s) && Owned(s) && MembersStepOk(s.db, b) && RetainsPayers(s, b.members)
    ensures Owned(State(b, s.txs))
  {
    forall t | t in s.txs
      ensures TxOwned(b, s.txs[t])
    {
      assert TxOwned(s.db, s.txs[t]) && TxOk(s.db, s.txs[t]);
    }
  }

  lemma MemberEventOwned(s: State, e: Event)
    requires Inv(s) && Owned(s) && (e.Join? || e.Decide? || e.HandOver?)
    ensures Owned(After(s, e))
  {
    match e
    case Join(caller) =>
      JoinMembers(s.db, caller);
      MembersStepOwned(s, Joined(s.db, caller));
    case Decide(caller, u, approve) =>
      var standing := if approve then Approved else Rejected;
      DecideMembers(s.db, caller, u, standing);
      MembersStepOwned(s, Decided(s.db, caller, u, standing));
    case HandOver(caller, u) =>
      HandOverMembers(s.db, caller, u);
      MembersStepOwned(s, HandedOver(s.db, caller, u));
  }

  lemma RemoveDeleteOwned(s: State, tid: nat)
    requires Inv(s) && Owned(s)
    ensures Owned(AfterRemoveDelete(s, tid))
  {
    if tid in s.txs && s.txs[tid].RemoveTx? {
      WithoutKeeps(s, tid);
      var target, id := s.txs[tid].target, s.txs[tid].id;
      if !InsertPending(s.txs, id) && !Referenced(s.db, target, id) {
        RemoveMembers(s.db, target, id);
        MembersStepOwned(Without(s, tid), Removed(s.db, target, id));
      }
    }
  }

  lemma CommitOwned(s: State, e: Event)
    requires Owned(s) && (e.ExpenseCommit? || e.CloseCommit? || e.PayCommit?)
    ensures Owned(After(s, e))
  {
    var t := After(s, e);
    forall u | u in t.txs
      ensures TxOwned(t.db, t.txs[u])
    {
      assert TxOwned(s.db, s.txs[u]);
    }
  }

  lemma EventOwned(s: State, e: Event)
    requires Inv(s) && Owned(s)
    ensures Owned(After(s, e))
  {
    if e.ExpenseCommit? || e.CloseCommit? || e.PayCommit? {
      CommitOwned(s, e);
    } else if IsExpenseEvent(e) {
      ExpenseStatementOwned(s, e);
    } else if IsCloseEvent(e) || IsPayEvent(e) {
      OtherStatementOwned(s, e);
    } else if e.Join? || e.Decide? || e.HandOver? {
      MemberEventOwned(s, e);
    } else if e.RemoveDelete? {
      RemoveDeleteOwned(s, e.tid);
    } else {
      StatementOwned(s, After(s, e), e.tid);
    }
  }

  lemma {:induction false} RunOwned(s: State, events: seq<Event>)
    requires Inv(s) && Owned(s)
    ensures Inv(Reached(s, events)) && Owned(Reached(s, events))
    decreases |events|
  {
    if events != [] {
      EventKeeps(s, events[0]);
      EventOwned(s, events[0]);
      RunOwned(After(s, events[0]), events[1..]);
    }
  }

  // ---------------------------------------------------------------------------
  // Who writes

  predicate Appends(members: map<UserId, Membership>, u: UserId, a: seq<Expense>, b: seq<Expense>) {
    |b| == |a| + 1 && b[..|a|] == a && Owns(members, u, b[|a|].paidBy)
  }

  predicate Changes(members: map<UserId, Membership>, u: UserId, a: seq<Expense>, b: seq<Expense>, eid: nat) {
    && eid < |a| == |b| && Owns(members, u, a[eid].paidBy)
    && b == a[eid := b[eid]] && b[eid].paidBy == a[eid].paidBy && b[eid].shares == a[eid].shares
  }

  /** In every reachable state every event leaves the expenses alone, or is the
      commit of somebody's transaction that appends an expense this user paid, or
      changes one this user paid without changing its payer or shares. */
  lemma OnlyPayersWrite(admin: UserId, events: seq<Event>, e: Event)
    ensures var s := Reached(Created(admin), events);
            var a, b := s.db.expenses, After(s, e).db.expenses;
            b != a ==>
              && e.ExpenseCommit? && AtWork(s, e.tid)
              && (Appends(s.db.members, s.txs[e.tid].caller.user, a, b) ||
                  exists eid :: Changes(s.db.members, s.txs[e.tid].caller.user, a, b, eid))
  {
    var s := Reached(Created(admin), events);
    CreatedOk(admin);
    RunOwned(Created(admin), events);
    if e.ExpenseCommit? {
      CommitIsOwners(s, e.tid);
    } else {
      CommitsKeepExpenses(s, e);
    }
  }

  lemma CommitsKeepExpenses(s: State, e: Event)
    requires !e.ExpenseCommit?
    ensures After(s, e).db.expenses == s.db.expenses
  {
    if !e.CloseCommit? && !e.PayCommit? {
      OnlyCommitsWrite(s, e);
    }
  }

  lemma CommitIsOwners(s: State, tid: nat)
    requires Inv(s) && Owned(s)
    ensures var a, b := s.db.expenses, AfterExpenseCommit(s, tid).db.expenses;
            b != a ==>
              && AtWork(s, tid)
              && (Appends(s.db.members, s.txs[tid].caller.user, a, b) ||
                  exists eid :: Changes(s.db.members, s.txs[tid].caller.user, a, b, eid))
  {
    if AtWork(s, tid) {
      assert TxOwned(s.db, s.txs[tid]);
      var w, a, b := s.txs[tid].work, s.db.expenses, AfterExpenseCommit(s, tid).db.expenses;
      if (w.Updated? || w.Deleted?) && b != a {
        assert Changes(s.db.members, s.txs[tid].caller.user, a, b, w.eid);
      }
    }
  }
}
