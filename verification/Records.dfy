/** What the settlement run and the audit log of every reachable group say, entry
    by entry. */
module Records {
  import opened Sums
  import opened Ids
  import opened Planner
  import opened PlanBounds
  import opened Tables
  import opened Snapshots
  import opened Breakdown
  import opened TwoKey
  import opened Lifecycle
  import opened Invariants
  import opened Protocol
  import opened Guarantees
  import opened Orderly

  // ---------------------------------------------------------------------------
  // Every list is in the order of the user ids, every log entry of a payment

  predicate UserOrder(listed: seq<Listed>) {
    forall i, j :: 0 <= i < j < |listed| ==> Less(listed[i].user, listed[j].user)
  }

  predicate TxOrdered(tx: Tx) {
    tx.CloseTx? && !tx.reading.Authorized? && !tx.reading.Exclusive? ==> UserOrder(tx.reading.listed)
  }

  predicate DbRecorded(db: Db) {
    && (forall r :: 0 <= r < |db.runs| ==> UserOrder(db.runs[r].listed))
    && (forall k :: 0 <= k < |db.log| ==> db.log[k].pid < |db.payments|)
  }

  predicate Recorded(s: State) {
    DbRecorded(s.db) && forall t :: t in s.txs ==> TxOrdered(s.txs[t])
  }

  lemma ApprovedListOrder(members: map<UserId, Membership>)
    ensures UserOrder(ApprovedList(members))
  {
    InOrderIs(ApprovedUsers(members));
  }

  /** Only one transaction differs. */
  lemma StatementRecorded(s: State, t: State, tid: nat)
    requires Recorded(s) && OnlyTxDiffers(s, t, tid) && (tid in t.txs ==> TxOrdered(t.txs[tid]))
    ensures Recorded(t)
  {
  }

  lemma ExpenseRecorded(s: State, e: Event)
    requires Recorded(s) && IsExpenseEvent(e) && !e.ExpenseCommit?
    ensures Recorded(After(s, e))
  {
    ExpenseWritesNothing(s, e);
    StatementRecorded(s, After(s, e), e.tid);
  }

  lemma PayRecorded(s: State, e: Event)
    requires Recorded(s) && IsPayEvent(e) && !e.PayCommit?
    ensures Recorded(After(s, e))
  {
    PayWritesNothing(s, e);
    StatementRecorded(s, After(s, e), e.tid);
  }

  lemma CloseReadRecorded(s: State, tid: nat)
    requires Recorded(s)
    ensures Recorded(AfterCloseRead(s, tid))
  {
    if Closing(s, tid) {
      assert TxOrdered(s.txs[tid]);
      ApprovedListOrder(s.db.members);
      StatementRecorded(s, AfterCloseRead(s, tid), tid);
    }
  }

  lemma CloseCommitRecorded(s: State, tid: nat)
    requires Recorded(s)
    ensures Recorded(AfterCloseCommit(s, tid))
  {
    if Closing(s, tid) && s.txs[tid].reading.GotRows? {
      assert TxOrdered(s.txs[tid]);
    }
  }

  lemma CommitRecorded(s: State, e: Event)
    requires Recorded(s) && (e.ExpenseCommit? || e.PayCommit?)
    ensures Recorded(After(s, e))
  {
  }

  lemma OtherRecorded(s: State, e: Event)
    requires Recorded(s) && !IsExpenseEvent(e) && !IsPayEvent(e) && !e.CloseRead? && !e.CloseCommit?
    ensures Recorded(After(s, e))
  {
  }

  lemma EventRecorded(s: State, e: Event)
    requires Recorded(s)
    ensures Recorded(After(s, e))
  {
    if e.CloseRead? {
      CloseReadRecorded(s, e.tid);
    } else if e.CloseCommit? {
      CloseCommitRecorded(s, e.tid);
    } else if e.ExpenseCommit? || e.PayCommit? {
      CommitRecorded(s, e);
    } else if IsExpenseEvent(e) {
      ExpenseRecorded(s, e);
    } else if IsPayEvent(e) {
      PayRecorded(s, e);
    } else {
      OtherRecorded(s, e);
    }
  }

  lemma {:induction false} RunRecorded(s: State, events: seq<Event>)
    requires Recorded(s)
    ensures Recorded(Reached(s, events))
    decreases |events|
  {
    if events != [] {
      EventRecorded(s, events[0]);
      RunRecorded(After(s, events[0]), events[1..]);
    }
  }

  lemma ReachableRecorded(db: Db)
    requires Reachable(db)
    ensures DbRecorded(db)
  {
    var admin, events :| db == Reached(Created(admin), events).db;
    RunRecorded(Created(admin), events);
  }

  // ---------------------------------------------------------------------------
  // What the run says

  /** In every reachable state the run lists its members by user id, counts all of
      them, and has for every category exactly what the expenses spent on it. */
  lemma RunSays(db: Db, c: Category)
    requires Reachable(db) && db.runs != []
    ensures var s, listed := db.runs[0].snapshot, db.runs[0].listed;
            && (forall i, j :: 0 <= i < j < |listed| ==> Less(listed[i].user, listed[j].user))
            && s.memberCount == |listed| == |s.members|
            && s.totalSpent == SumBy((e: Expense) => if e.deleted then 0 else e.amount, db.expenses)
            && (c in s.spendPerCategory <==>
                  exists k :: 0 <= k < |db.expenses| && !db.expenses[k].deleted && db.expenses[k].category == c)
            && (c in s.spendPerCategory ==>
                  s.spendPerCategory[c] ==
                  SumBy((e: Expense) => if !e.deleted && e.category == c then e.amount else 0, db.expenses))
  {
    ReachableOk(db);
    ReachableRecorded(db);
    SpendingIs(db.runs[0].listed, db.expenses, c);
    TotalIs(db.runs[0].listed, db.expenses);
    assert UserOrder(db.runs[0].listed);
  }

  /** ... and for every member what that member paid and owes. */
  lemma RunSaysOf(db: Db, i: nat)
    requires Reachable(db) && db.runs != [] && i < |db.runs[0].listed|
    ensures var s, listed := db.runs[0].snapshot, db.runs[0].listed;
            && |s.members| == |listed|
            && var b, id := s.members[i], listed[i].id;
               && b.user == listed[i].user
               && b.paid == SumBy((e: Expense) => if !e.deleted && e.paidBy == id then e.amount else 0, db.expenses)
               && b.fairShare == SumBy(ChargeOf(UserIds(listed), b.user), db.expenses)
               && b.net == b.paid - b.fairShare
  {
    ReachableOk(db);
    MemberIs(db.runs[0].listed, db.expenses, i);
  }

  // ---------------------------------------------------------------------------
  // What the log says

  lemma {:induction false} PositionOf(log: seq<TwoKey.Entry>, k: nat)
    requires k < |log|
    ensures var h, i := HistoryOf(log, log[k].pid), |HistoryOf(log[..k], log[k].pid)|;
            i < |h| && h[i] == log[k]
  {
    var n := |log| - 1;
    if k < n {
      PositionOf(log[..n], k);
      assert log[..n][..k] == log[..k];
    }
  }

  /** In every reachable state each log entry is about a payment of the group, its
      step was one that its user could take, and its label tells which it was. */
  lemma LogSays(db: Db, k: nat)
    requires Reachable(db) && k < |db.log|
    ensures var e := db.log[k];
            && e.pid < |db.payments|
            && (e.actor.isDebtor <==> e.user == db.payments[e.pid].from)
            && (e.actor.isCreditor <==> e.user == db.payments[e.pid].to)
            && (e.tag == LabelProofSubmitted <==> e.action == SubmitProof)
            && (e.tag == LabelProofSubmitted <==> e.after == ProofSubmitted)
            && (e.tag == LabelConfirmed <==> e.action == Confirm)
            && (e.tag == LabelConfirmed <==> e.after == CreditorConfirmed)
            && (e.tag == LabelDisputed <==> e.action == Dispute)
            && (e.tag in {LabelRejected, LabelRejectedOverride} <==> e.action == Reject)
            && (e.tag in {LabelSettled, LabelSettledOverride} <==> e.action == Finalize)
            && (e.tag in {LabelSettled, LabelSettledOverride} <==> e.after == Settled)
            && (e.after == Disputed <==> e.action in {Dispute, Reject})
  {
    ReachableOk(db);
    ReachableRecorded(db);
    var e := db.log[k];
    PositionOf(db.log, k);
    PaymentChain(db, e.pid);
    assert Lawful(e, db.payments[e.pid].from, db.payments[e.pid].to);
    LabelTells(e, db.payments[e.pid].from, db.payments[e.pid].to);
    AllowedSteps(e.action, e.actor, e.before);
  }

  /** Entries of other payments do not count. */
  lemma {:induction false} NothingBetween(log: seq<TwoKey.Entry>, pid: nat, i: nat, j: nat)
    requires i <= j <= |log| && forall k :: i <= k < j ==> log[k].pid != pid
    ensures HistoryOf(log[..j], pid) == HistoryOf(log[..i], pid)
    decreases j - i
  {
    if i < j {
      NothingBetween(log, pid, i, j - 1);
      assert log[..j][..j-1] == log[..j-1];
    }
  }

  lemma OneMoreEntry(log: seq<TwoKey.Entry>, i: nat)
    requires i < |log|
    ensures HistoryOf(log[..i+1], log[i].pid) == HistoryOf(log[..i], log[i].pid) + [log[i]]
  {
    assert log[..i+1][..i] == log[..i];
  }

  lemma ReachableChain(db: Db, pid: nat)
    requires Reachable(db) && pid < |db.payments|
    ensures var p, h := db.payments[pid], HistoryOf(db.log, pid);
            p.from != p.to && Chain(h, p.from, p.to) && p.version == |h| && p.status == StatusAfter(h)
  {
    ReachableOk(db);
    PaymentChain(db, pid);
  }

  lemma PositionAfter(log: seq<TwoKey.Entry>, i: nat, j: nat, h: seq<TwoKey.Entry>) returns (m: nat)
    requires i <= j < |log| && h == HistoryOf(log, log[j].pid)
    requires forall k :: i <= k < j ==> log[k].pid != log[j].pid
    ensures m < |h| && h[m] == log[j]
    ensures i == 0 ==> m == 0
    ensures i > 0 && log[i-1].pid == log[j].pid ==> m > 0 && h[m-1] == log[i-1]
  {
    m := |HistoryOf(log[..i], log[j].pid)|;
    PositionOf(log, j);
    NothingBetween(log, log[j].pid, i, j);
    if i > 0 && log[i-1].pid == log[j].pid {
      OneMoreEntry(log, i - 1);
      PositionOf(log, i - 1);
    }
  }

  lemma EntriesLink(log: seq<TwoKey.Entry>, from: UserId, to: UserId, i: nat, j: nat)
    requires i <= j < |log| && Chain(HistoryOf(log, log[j].pid), from, to)
    requires forall k :: i <= k < j ==> log[k].pid != log[j].pid
    ensures i == 0 ==> log[j].before == Pending
    ensures i > 0 && log[i-1].pid == log[j].pid ==> log[j].before == log[i-1].after
  {
    var h := HistoryOf(log, log[j].pid);
    var m := PositionAfter(log, i, j, h);
    assert Linked(h, m);
  }

  /** In every reachable log a step starts where the one before it on the same
      payment ended, and the first one from pending. */
  lemma LogLinks(db: Db, i: nat, j: nat)
    requires Reachable(db) && j < |db.log| && i <= j
    requires forall k :: i <= k < j ==> db.log[k].pid != db.log[j].pid
    ensures i == 0 ==> db.log[j].before == Pending
    ensures i > 0 && db.log[i-1].pid == db.log[j].pid ==> db.log[j].before == db.log[i-1].after
  {
    ReachableRecorded(db);
    ReachableChain(db, db.log[j].pid);
    var p := db.payments[db.log[j].pid];
    EntriesLink(db.log, p.from, p.to, i, j);
  }

  lemma {:induction false} EntriesCount(log: seq<TwoKey.Entry>, pid: nat)
    ensures |HistoryOf(log, pid)| == SumBy((e: TwoKey.Entry) => if e.pid == pid then 1 else 0, log)
  {
    if log != [] {
      EntriesCount(log[..|log|-1], pid);
      SumByLast((e: TwoKey.Entry) => if e.pid == pid then 1 else 0, log);
    }
  }

  /** No later entry is about this payment. */
  predicate IsLast(log: seq<TwoKey.Entry>, pid: nat, k: nat)
    requires k < |log|
  {
    log[k].pid == pid && forall l :: k < l < |log| ==> log[l].pid != pid
  }

  lemma StatusIsLast(log: seq<TwoKey.Entry>, pid: nat, k: nat)
    requires k < |log| && IsLast(log, pid, k)
    ensures StatusAfter(HistoryOf(log, pid)) == log[k].after
  {
    NothingBetween(log, pid, k + 1, |log|);
    assert log[..|log|] == log;
    OneMoreEntry(log, k);
  }

  /** In every reachable state the version of a payment counts the log entries about
      it, and its status is where the last of them ended. */
  lemma PaymentSays(db: Db, pid: nat)
    requires Reachable(db) && pid < |db.payments|
    ensures var p := db.payments[pid];
            && p.version == SumBy((e: TwoKey.Entry) => if e.pid == pid then 1 else 0, db.log)
            && (p.version == 0 ==> p.status == Pending)
            && (forall k :: 0 <= k < |db.log| && IsLast(db.log, pid, k) ==> p.status == db.log[k].after)
  {
    ReachableChain(db, pid);
    EntriesCount(db.log, pid);
    forall k | 0 <= k < |db.log| && IsLast(db.log, pid, k)
      ensures db.payments[pid].status == db.log[k].after
    {
      StatusIsLast(db.log, pid, k);
    }
  }

  /** In every reachable state the payments are the transfers of the plan for the
      balances of the run, in order. */
  lemma PaymentsAre(db: Db, pid: nat)
    requires Reachable(db) && pid < |db.payments|
    ensures db.runs != [] && |db.payments| == |Plan(db.runs[0].snapshot.members)|
    ensures var p, t := db.payments[pid], Plan(db.runs[0].snapshot.members)[pid];
            p.from == t.from && p.to == t.to && p.amount == t.amount > 0 && p.from != p.to
  {
    ReachableOk(db);
    EndsDiffer(db, pid);
    PlanConnects(db.runs[0].snapshot.members, pid);
  }

  /** In every reachable state an expense has a positive amount and weights from 1 to
      1000, and whoever paid it is still an approved member. */
  lemma ExpenseSays(db: Db, k: nat)
    requires Reachable(db) && k < |db.expenses|
    ensures var e := db.expenses[k];
            && e.amount > 0
            && (forall u :: u in e.shares ==> 1 <= e.shares[u] <= 1000)
            && exists u :: u in db.members && db.members[u].id == e.paidBy && db.members[u].standing == Approved
  {
    ReachableOk(db);
    assert HasApproved(db.members, db.expenses[k].paidBy);
  }
}
