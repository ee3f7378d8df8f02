/** What holds in every reachable state and over every run, whatever interleaves. */
module Guarantees {
  import opened Sums
  import opened Ids
  import opened FairShares
  import opened Planner
  import opened PlanBounds
  import opened Tables
  import opened Snapshots
  import opened TwoKey
  import opened Lifecycle
  import opened Invariants
  import opened Protocol

  /** The rows after some run from the creation of the group. */
  ghost predicate Reachable(db: Db) {
    exists admin, events :: db == Reached(Created(admin), events).db
  }

  lemma ReachableOk(db: Db)
    requires Reachable(db)
    ensures DbOk(db)
  {
    var admin, events :| db == Reached(Created(admin), events).db;
    CreatedOk(admin);
    RunKeeps(Created(admin), events);
  }

  // ---------------------------------------------------------------------------
  // Closing once, over a fixed set of expenses

  /** The same transfers are to be made, and none that was settled is reopened. */
  predicate SameTerms(a: seq<Payment>, b: seq<Payment>) {
    && |a| == |b|
    && forall i :: 0 <= i < |a| ==>
         && a[i].from == b[i].from && a[i].to == b[i].to && a[i].amount == b[i].amount
         && (IsSettled(a[i]) ==> b[i] == a[i])
  }

  /** From close on nothing that the settlement rests on changes. */
  predicate Fixed(a: Db, b: Db) {
    && b.status != GroupOpen
    && (a.status == GroupSettled ==> b.status == GroupSettled)
    && b.expenses == a.expenses
    && b.runs == a.runs
    && SameTerms(a.payments, b.payments)
  }

  lemma PaidIsFixed(db: Db, tx: Tx)
    requires RunsOk(db) && MayCommit(db, tx)
    ensures Fixed(db, Paid(db, tx))
  {
    assert Lawful(EntryFor(tx), db.payments[tx.pid].from, db.payments[tx.pid].to);
  }

  lemma WritersAreGone(s: State, tid: nat)
    requires Inv(s) && s.db.status != GroupOpen
    ensures AfterExpenseCommit(s, tid) == s && AfterCloseCommit(s, tid) == s
  {
    assert tid in s.txs ==> TxOk(s.db, s.txs[tid]);
  }

  lemma PayCommitIsFixed(s: State, tid: nat)
    requires Inv(s) && s.db.status != GroupOpen
    ensures Fixed(s.db, AfterPayCommit(s, tid).db)
  {
    if Paying(s, tid) && ReadyToCommit(s.txs[tid]) {
      assert TxOk(s.db, s.txs[tid]);
      PaidIsFixed(s.db, s.txs[tid]);
    }
  }

  lemma ExpenseWritesNothing(s: State, e: Event)
    requires IsExpenseEvent(e) && !e.ExpenseCommit?
    ensures After(s, e).db == s.db
  {
  }

  lemma CloseWritesNothing(s: State, e: Event)
    requires IsCloseEvent(e) && !e.CloseCommit?
    ensures After(s, e).db == s.db
  {
  }

  lemma PayWritesNothing(s: State, e: Event)
    requires IsPayEvent(e) && !e.PayCommit?
    ensures After(s, e).db == s.db
  {
  }

  /** Every event but the commits leaves all rows except the members alone. */
  lemma OnlyCommitsWrite(s: State, e: Event)
    requires !e.ExpenseCommit? && !e.CloseCommit? && !e.PayCommit?
    ensures OnlyMembersDiffer(s.db, After(s, e).db)
  {
    if IsExpenseEvent(e) {
      ExpenseWritesNothing(s, e);
    } else if IsCloseEvent(e) {
      CloseWritesNothing(s, e);
    } else if IsPayEvent(e) {
      PayWritesNothing(s, e);
    }
  }

  lemma EventIsFixed(s: State, e: Event)
    requires Inv(s) && s.db.status != GroupOpen
    ensures Fixed(s.db, After(s, e).db)
  {
    match e
    case ExpenseCommit(tid) => WritersAreGone(s, tid);
    case CloseCommit(tid) => WritersAreGone(s, tid);
    case PayCommit(tid) => PayCommitIsFixed(s, tid);
    case _ => OnlyCommitsWrite(s, e);
  }

  /** Once a group is closed its expenses, its one run and the terms of its
      payments stay as they are over any further run, a settled payment stays
      settled and so does a settled group. */
  lemma {:induction false} ClosedIsFinal(s: State, events: seq<Event>)
    requires Inv(s) && s.db.status != GroupOpen
    ensures Fixed(s.db, Reached(s, events).db)
    decreases |events|
  {
    if events != [] {
      var t := After(s, events[0]);
      EventKeeps(s, events[0]);
      EventIsFixed(s, events[0]);
      ClosedIsFinal(t, events[1..]);
    }
  }

  /** Every reachable state: at most one run; the group is open until there is
      one; and the run's totals are those of the live expenses, in all ways of
      adding them up. (In int64: as long as `MachineClose.TotalIsExactIff` says so.) */
  lemma SettledOnce(db: Db)
    requires Reachable(db)
    ensures |db.runs| <= 1
    ensures db.status == GroupOpen <==> db.runs == []
    ensures db.runs != [] ==>
                  var s, listed := db.runs[0].snapshot, db.runs[0].listed;
                  && s == SnapshotOf(listed, db.expenses)
                  && s.totalSpent == LiveTotal(db.expenses)
                  && SumMap(s.spendPerCategory) == s.totalSpent
                  && SumBy(PaidAmount(), s.members) == s.totalSpent
  {
    ReachableOk(db);
    if db.runs != [] {
      TotalsAgree(db.runs[0].listed, db.expenses);
    }
  }

  // ---------------------------------------------------------------------------
  // End to end

  function Terms(payments: seq<Payment>): (r: seq<Transfer>)
    ensures |r| == |payments|
  {
    seq(|payments|, i requires 0 <= i < |payments| =>
      Planner.Transfer(payments[i].from, payments[i].to, payments[i].amount))
  }

  /** What the member has paid, counting the payments of the plan, is the fair share. */
  predicate IsSquare(b: MemberBalance, payments: seq<Payment>) {
    b.paid + Sent(Terms(payments), b.user) - Received(Terms(payments), b.user) == b.fairShare
  }

  predicate AllSquare(bs: seq<MemberBalance>, payments: seq<Payment>) {
    forall i :: 0 <= i < |bs| ==> IsSquare(bs[i], payments)
  }

  lemma TermsArePlan(payments: seq<Payment>, plan: seq<Transfer>)
    requires Matches(payments, plan)
    ensures Terms(payments) == plan
  {
  }

  lemma SquareIsSettled(listed: seq<Listed>, payments: seq<Payment>, db: Db)
    requires db.runs != [] && DbOk(db) && db.runs[0].listed == listed && payments == db.payments
    ensures var bs := db.runs[0].snapshot.members;
            && DistinctUsers(bs)
            && (AllSquare(bs, payments) <==> Settles(bs, Plan(bs)))
  {
    var bs := db.runs[0].snapshot.members;
    TermsArePlan(payments, Plan(bs));
    RegroupedIsWellFormed(AllocationRows(db.expenses));
    BalancesAreDistinct(listed, Grouped(PayerOf(), db.expenses), AllocationsOf(db.expenses));
    forall k | 0 <= k < |Plan(bs)|
      ensures Plan(bs)[k].amount > 0
    {
      PlanConnects(bs, k);
    }
    forall i | 0 <= i < |bs|
      ensures IsSquare(bs[i], payments) <==>
              bs[i].net + Sent(Plan(bs), bs[i].user) - Received(Plan(bs), bs[i].user) == 0
    {
      BalanceAt(listed, db.expenses, i);
    }
  }

  /** In a settled group every payment is settled; and with those payments every
      member has paid exactly the fair share if and only if nobody outside the
      member list is charged for an expense. */
  lemma SettledMeansSquare(db: Db)
    requires Reachable(db)
    ensures db.status == GroupSettled ==> AllSettled(db.payments)
    ensures AllWellFormed(AllocationsOf(db.expenses))
    ensures db.runs != [] ==>
              (AllSquare(db.runs[0].snapshot.members, db.payments) <==>
               !ChargesOutsider(db.runs[0].listed, db.expenses))
  {
    ReachableOk(db);
    RegroupedIsWellFormed(AllocationRows(db.expenses));
    if db.runs != [] {
      SquareIffNoOutsider(db);
    }
  }

  lemma SquareIffNoOutsider(db: Db)
    requires DbOk(db) && db.runs != []
    ensures AllWellFormed(AllocationsOf(db.expenses))
    ensures AllSquare(db.runs[0].snapshot.members, db.payments) <==>
            !ChargesOutsider(db.runs[0].listed, db.expenses)
  {
    var listed := db.runs[0].listed;
    SquareIsSettled(listed, db.payments, db);
    PlanSettlesIffZeroSum(db.runs[0].snapshot.members);
    ZeroSumIffNoOutsider(listed, db.expenses);
  }

  // ---------------------------------------------------------------------------
  // Payments over whole runs

  lemma EndsDiffer(db: Db, pid: nat)
    requires DbOk(db) && pid < |db.payments|
    ensures db.payments[pid].from != db.payments[pid].to && db.payments[pid].amount > 0
  {
    PlanConnects(db.runs[0].snapshot.members, pid);
    var bs := db.runs[0].snapshot.members;
    RegroupedIsWellFormed(AllocationRows(db.expenses));
    BalancesAreDistinct(db.runs[0].listed, Grouped(PayerOf(), db.expenses), AllocationsOf(db.expenses));
    SidesAreApart(bs, db.payments[pid].from);
  }

  lemma SidesAreApart(bs: seq<MemberBalance>, u: UserId)
    requires DistinctUsers(bs) && u in UsersOn(Debtors, bs)
    ensures u !in UsersOn(Creditors, bs)
  {
  }

  lemma PaymentChain(db: Db, pid: nat)
    requires DbOk(db) && pid < |db.payments|
    ensures var p, h := db.payments[pid], HistoryOf(db.log, pid);
            p.from != p.to && Chain(h, p.from, p.to) && p.version == |h| && p.status == StatusAfter(h)
  {
    EndsDiffer(db, pid);
    assert HistoryOk(db, pid);
  }

  /** Whatever transactions interleave, the committed steps of a payment are one
      chain of lawful steps from pending to its current status, as many as its
      version says, without a gap between one step's after and the next one's before. */
  lemma StepsFormOneChain(db: Db, pid: nat)
    requires Reachable(db) && pid < |db.payments|
    ensures var p, h := db.payments[pid], HistoryOf(db.log, pid);
            && p.from != p.to
            && p.version == |h|
            && p.status == StatusAfter(h)
            && Chain(h, p.from, p.to)
  {
    ReachableOk(db);
    PaymentChain(db, pid);
  }

  /** A payment that reads settled went through both keys one right after the
      other, proof by the debtor, confirmation by the creditor, finalization by
      an admin who is not the debtor; or its last step is the override of a
      global admin who is not the debtor, and is labelled so. */
  lemma SettledTookTwoKeys(db: Db, pid: nat)
    requires Reachable(db) && pid < |db.payments| && IsSettled(db.payments[pid])
    ensures var p, h := db.payments[pid], HistoryOf(db.log, pid);
            BothKeys(h, p.from, p.to) || Overridden(h, p.from)
  {
    ReachableOk(db);
    PaymentChain(db, pid);
    TwoKeys(HistoryOf(db.log, pid), db.payments[pid].from, db.payments[pid].to);
  }

  /** As long as only the debtor has acted on it, whatever roles that user holds,
      a payment is neither confirmed nor settled. */
  lemma DebtorAloneGetsNowhere(db: Db, pid: nat)
    requires Reachable(db) && pid < |db.payments|
    requires forall k :: 0 <= k < |db.log| && db.log[k].pid == pid ==> db.log[k].user == db.payments[pid].from
    ensures db.payments[pid].status in {Pending, ProofSubmitted, Disputed}
  {
    ReachableOk(db);
    PaymentChain(db, pid);
    HistoryUsers(db.log, pid, db.payments[pid].from);
    DebtorAlone(HistoryOf(db.log, pid), db.payments[pid].from, db.payments[pid].to);
  }

  lemma {:induction false} HistoryUsers(log: seq<TwoKey.Entry>, pid: nat, u: UserId)
    requires forall k :: 0 <= k < |log| && log[k].pid == pid ==> log[k].user == u
    ensures forall i :: 0 <= i < |HistoryOf(log, pid)| ==> HistoryOf(log, pid)[i].user == u
  {
    if log != [] {
      HistoryUsers(log[..|log|-1], pid, u);
    }
  }

  /** Once the version of a payment has moved on, a transaction that saw an earlier
      one cannot commit, and its guarded update finds no row and ends it. */
  lemma OutdatedNeverCommits(s: State, tid: nat)
    requires Inv(s) && Paying(s, tid) && s.txs[tid].version < s.db.payments[s.txs[tid].pid].version
    ensures !HoldsPayment(s.txs[tid], s.txs[tid].pid)
    ensures AfterPayCommit(s, tid) == s
    ensures AfterPayGuard(s, tid) == s || AfterPayGuard(s, tid) == Without(s, tid)
  {
    assert TxOk(s.db, s.txs[tid]);
  }

  /** No payment is lost and no version goes back. */
  predicate VersionsKept(a: seq<Payment>, b: seq<Payment>) {
    |a| <= |b| && forall i :: 0 <= i < |a| ==> a[i].version <= b[i].version
  }

  lemma EventKeepsVersions(s: State, e: Event)
    ensures VersionsKept(s.db.payments, After(s, e).db.payments)
  {
    if !e.ExpenseCommit? && !e.CloseCommit? && !e.PayCommit? {
      OnlyCommitsWrite(s, e);
    }
  }

  lemma {:induction false} RunKeepsVersions(s: State, events: seq<Event>)
    ensures VersionsKept(s.db.payments, Reached(s, events).db.payments)
    decreases |events|
  {
    if events != [] {
      EventKeepsVersions(s, events[0]);
      RunKeepsVersions(After(s, events[0]), events[1..]);
    }
  }

  lemma CommitRaisesVersion(s: State, tid: nat)
    requires Inv(s) && Paying(s, tid) && ReadyToCommit(s.txs[tid])
    ensures var pid, after := s.txs[tid].pid, AfterPayCommit(s, tid).db.payments;
            pid < |after| && after[pid].version == s.txs[tid].version + 1
  {
    assert TxOk(s.db, s.txs[tid]);
  }

  /** Of the transactions that see the same version of a payment at most one ever
      commits: after its commit, over any further run, no other does. */
  lemma OneCommitPerVersion(admin: UserId, before: seq<Event>, tid: nat, between: seq<Event>, other: nat)
    requires var s := Reached(Created(admin), before); Paying(s, tid) && ReadyToCommit(s.txs[tid])
    ensures var s := Reached(Created(admin), before);
            var t := Reached(AfterPayCommit(s, tid), between);
            Paying(t, other) && t.txs[other].pid == s.txs[tid].pid && t.txs[other].version == s.txs[tid].version ==>
              AfterPayCommit(t, other) == t
  {
    var s := Reached(Created(admin), before);
    var t := Reached(AfterPayCommit(s, tid), between);
    CreatedOk(admin);
    RunKeeps(Created(admin), before);
    PayCommitKeeps(s, tid);
    RunKeeps(AfterPayCommit(s, tid), between);
    CommitRaisesVersion(s, tid);
    RunKeepsVersions(AfterPayCommit(s, tid), between);
    if Paying(t, other) && t.txs[other].pid == s.txs[tid].pid && t.txs[other].version == s.txs[tid].version {
      OutdatedNeverCommits(t, other);
    }
  }

  // ---------------------------------------------------------------------------
  // Proofs

  lemma {:induction false} NoSubmission(h: seq<TwoKey.Entry>, from: UserId, to: UserId)
    requires Chain(h, from, to) && SumBy(SubmitStep(), h) == 0
    ensures StatusAfter(h) != ProofSubmitted && StatusAfter(h) != CreditorConfirmed
  {
    if h != [] {
      var n := |h| - 1;
      assert Lawful(h[n], from, to) && Linked(h, n);
      SumByLast(SubmitStep(), h);
      StepsCount(h[..n]);
      ChainPrefix(h, from, to);
      NoSubmission(h[..n], from, to);
    }
  }

  lemma {:induction false} StepsCount(h: seq<TwoKey.Entry>)
    ensures SumBy(SubmitStep(), h) >= 0
  {
    if h != [] {
      StepsCount(h[1..]);
    }
  }

  lemma ChainPrefix(h: seq<TwoKey.Entry>, from: UserId, to: UserId)
    requires Chain(h, from, to) && h != []
    ensures Chain(h[..|h|-1], from, to)
  {
    var g := h[..|h|-1];
    forall i | 0 <= i < |g|
      ensures Lawful(g[i], from, to) && Linked(g, i)
    {
      assert Lawful(h[i], from, to) && Linked(h, i);
    }
  }

  lemma {:induction false} SomeProof(proofs: seq<Proof>, pid: nat)
    requires SumBy(ProofFor(pid), proofs) != 0
    ensures exists k :: 0 <= k < |proofs| && proofs[k].pid == pid && IsLatest(proofs, k)
  {
    var n := |proofs| - 1;
    SumByLast(ProofFor(pid), proofs);
    if proofs[n].pid == pid {
      assert IsLatest(proofs, n);
    } else {
      SomeProof(proofs[..n], pid);
      var k :| 0 <= k < n && proofs[..n][k].pid == pid && IsLatest(proofs[..n], k);
      forall j | k < j < |proofs|
        ensures proofs[j].pid != pid
      {
        assert j < n ==> proofs[..n][j].pid == proofs[j].pid;
      }
      assert IsLatest(proofs, k);
    }
  }

  lemma OneCurrent(db: Db, pid: nat, j: nat, k: nat)
    requires ProofsOk(db) && j in CurrentProofs(db.proofs, pid) && k in CurrentProofs(db.proofs, pid)
    ensures j == k
  {
    assert IsLatest(db.proofs, j) && IsLatest(db.proofs, k);
  }

  /** Without help from the unique index: a payment never has two current proofs;
      one that stands proven or confirmed has exactly one, the latest of as many
      as proofs were ever submitted for it. */
  lemma ProvenHasOneCurrentProof(db: Db, pid: nat)
    requires Reachable(db) && pid < |db.payments|
    ensures forall j, k :: j in CurrentProofs(db.proofs, pid) && k in CurrentProofs(db.proofs, pid) ==> j == k
    ensures db.payments[pid].status in {ProofSubmitted, CreditorConfirmed} ==> CurrentProofs(db.proofs, pid) != {}
    ensures forall k :: k in CurrentProofs(db.proofs, pid) ==> IsLatest(db.proofs, k)
    ensures SumBy(ProofFor(pid), db.proofs) == SumBy(SubmitStep(), HistoryOf(db.log, pid))
  {
    ReachableOk(db);
    forall j, k | j in CurrentProofs(db.proofs, pid) && k in CurrentProofs(db.proofs, pid)
      ensures j == k
    {
      OneCurrent(db, pid, j, k);
    }
    assert ProofsCounted(db, pid);
    if db.payments[pid].status in {ProofSubmitted, CreditorConfirmed} {
      ProvenIsCurrent(db, pid);
    }
  }

  lemma ProvenIsCurrent(db: Db, pid: nat)
    requires DbOk(db) && pid < |db.payments| && db.payments[pid].status in {ProofSubmitted, CreditorConfirmed}
    ensures CurrentProofs(db.proofs, pid) != {}
  {
    assert HistoryOk(db, pid) && ProofsCounted(db, pid);
    var h := HistoryOf(db.log, pid);
    if SumBy(SubmitStep(), h) == 0 {
      NoSubmission(h, db.payments[pid].from, db.payments[pid].to);
      assert false;
    }
    SomeProof(db.proofs, pid);
    var k :| 0 <= k < |db.proofs| && db.proofs[k].pid == pid && IsLatest(db.proofs, k);
    assert k in CurrentProofs(db.proofs, pid);
  }
}
