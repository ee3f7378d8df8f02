/** Orderly runs are serial: in the order of their commits the transactions of a
    run, however they interleave, do to the rows what their requests, by the same
    callers, do when served one after the other. That holds of a commit exactly
    when what it rests on is still current: for a close the members it has listed
    and its caller's authority, for a removal its caller's authority, for a payment
    step whether its caller is the group admin. Where no membership changes
    meanwhile all of that always is. */
module Serializable {
  import opened Ids
  import opened Tables
  import opened TwoKey
  import opened Lifecycle
  import opened Invariants
  import opened Protocol
  import opened Guarantees
  import opened Ownership
  import opened Orderly
  import opened Serial

  // ---------------------------------------------------------------------------
  // The expense an update or a deletion has locked stays live

  predicate WorksOnLive(db: Db, tx: Tx) {
    tx.ExpenseTx? && (tx.work.Updated? || tx.work.Deleted?) ==>
      tx.work.eid < |db.expenses| && !db.expenses[tx.work.eid].deleted
  }

  predicate Live(s: State) {
    forall t :: t in s.txs ==> WorksOnLive(s.db, s.txs[t])
  }

  /** An expense keeps being live unless the work that is committed deletes it. */
  lemma WrittenLive(es: seq<Expense>, work: Work, eid: nat)
    requires eid < |es| && !es[eid].deleted && (work.Deleted? ==> work.eid != eid)
    ensures eid < |Written(es, work)| && !Written(es, work)[eid].deleted
  {
  }

  lemma ExpenseCommitLive(s: State, tid: nat)
    requires Inv(s) && Live(s)
    ensures Live(AfterExpenseCommit(s, tid))
  {
    if AtWork(s, tid) {
      var after := AfterExpenseCommit(s, tid);
      forall t | t in after.txs
        ensures WorksOnLive(after.db, after.txs[t])
      {
        var tx := s.txs[t];
        assert WorksOnLive(s.db, tx) && Invariants.Apart(s.txs[tid], tx);
        if tx.ExpenseTx? && (tx.work.Updated? || tx.work.Deleted?) {
          WrittenLive(s.db.expenses, s.txs[tid].work, tx.work.eid);
        }
      }
    }
  }

  lemma ExpenseStatementLive(s: State, e: Event)
    requires Live(s) && IsExpenseEvent(e) && !e.ExpenseCommit?
    ensures Live(After(s, e))
  {
    assert e.tid in s.txs ==> WorksOnLive(s.db, s.txs[e.tid]);
  }

  lemma OtherLive(s: State, e: Event)
    requires Live(s) && !IsExpenseEvent(e)
    ensures Live(After(s, e))
  {
    CommitsKeepExpenses(s, e);
    forall t | t in After(s, e).txs
      ensures WorksOnLive(After(s, e).db, After(s, e).txs[t])
    {
      assert t in s.txs ==> WorksOnLive(s.db, s.txs[t]);
    }
  }

  lemma EventLive(s: State, e: Event)
    requires Inv(s) && Live(s)
    ensures Live(After(s, e))
  {
    if e.ExpenseCommit? {
      ExpenseCommitLive(s, e.tid);
    } else if IsExpenseEvent(e) {
      ExpenseStatementLive(s, e);
    } else {
      OtherLive(s, e);
    }
  }

  // ---------------------------------------------------------------------------
  // Every transaction goes back to the statements that began it

  predicate WorkAsked(past: set<Event>, t: nat, inRange: bool, work: Work) {
    match work
    case Locked => true
    case Looking(e, _) => inRange && ExpenseCheck(t, e.amount, e.category, e.shares) in past
    case Inserted(e) => inRange && ExpenseCheck(t, e.amount, e.category, e.shares) in past
    case Updated(eid, amount, category) => inRange && ExpenseUpdate(t, eid, amount, category) in past
    case Deleted(eid) => ExpenseDelete(t, eid) in past
  }

  /** Its caller and what was asked for are those of events that have happened. */
  predicate Asked(past: set<Event>, t: nat, tx: Tx) {
    match tx
    case ExpenseTx(caller, inRange, work) =>
      ExpenseLock(t, caller, inRange) in past && WorkAsked(past, t, inRange, work)
    case CloseTx(caller, _) => CloseAuthorize(t, caller) in past
    case PayTx(caller, action, actor, pid, _, _, _, content, _) =>
      PayRead(t, caller, action, pid, content) in past && actor.isGlobalAdmin == caller.isGlobalAdmin
    case RemoveTx(caller, target, _) => RemoveCheck(t, caller, target) in past
  }

  predicate AllAsked(past: set<Event>, s: State) {
    forall t :: t in s.txs ==> Asked(past, t, s.txs[t])
  }

  lemma AskedBefore(past: set<Event>, e: Event, t: nat, tx: Tx)
    requires Asked(past, t, tx)
    ensures Asked(past + {e}, t, tx)
  {
  }

  /** Only the event's own transaction needs a look. */
  lemma OthersAsked(past: set<Event>, s: State, e: Event, tid: nat)
    requires AllAsked(past, s)
    requires forall t :: t in After(s, e).txs && t != tid ==> t in s.txs && After(s, e).txs[t] == s.txs[t]
    requires tid in After(s, e).txs ==> Asked(past + {e}, tid, After(s, e).txs[tid])
    ensures AllAsked(past + {e}, After(s, e))
  {
    forall t | t in After(s, e).txs && t != tid
      ensures Asked(past + {e}, t, After(s, e).txs[t])
    {
      AskedBefore(past, e, t, s.txs[t]);
    }
  }

  lemma ExpenseAsked(past: set<Event>, s: State, e: Event)
    requires AllAsked(past, s) && IsExpenseEvent(e)
    ensures AllAsked(past + {e}, After(s, e))
  {
    if e.tid in s.txs {
      AskedBefore(past, e, e.tid, s.txs[e.tid]);
    }
    OthersAsked(past, s, e, e.tid);
  }

  lemma CloseAsked(past: set<Event>, s: State, e: Event)
    requires AllAsked(past, s) && IsCloseEvent(e)
    ensures AllAsked(past + {e}, After(s, e))
  {
    if e.tid in s.txs {
      AskedBefore(past, e, e.tid, s.txs[e.tid]);
    }
    OthersAsked(past, s, e, e.tid);
  }

  lemma PayAsked(past: set<Event>, s: State, e: Event)
    requires AllAsked(past, s) && IsPayEvent(e)
    ensures AllAsked(past + {e}, After(s, e))
  {
    if e.tid in s.txs {
      AskedBefore(past, e, e.tid, s.txs[e.tid]);
    }
    OthersAsked(past, s, e, e.tid);
  }

  lemma RemovalAsked(past: set<Event>, s: State, e: Event)
    requires AllAsked(past, s) && (e.RemoveCheck? || e.RemoveDelete? || e.Abort?)
    ensures AllAsked(past + {e}, After(s, e))
  {
    if e.tid in s.txs {
      AskedBefore(past, e, e.tid, s.txs[e.tid]);
    }
    OthersAsked(past, s, e, e.tid);
  }

  lemma EventAsked(past: set<Event>, s: State, e: Event)
    requires AllAsked(past, s)
    ensures AllAsked(past + {e}, After(s, e))
  {
    if IsExpenseEvent(e) {
      ExpenseAsked(past, s, e);
    } else if IsCloseEvent(e) {
      CloseAsked(past, s, e);
    } else if IsPayEvent(e) {
      PayAsked(past, s, e);
    } else if e.RemoveCheck? || e.RemoveDelete? || e.Abort? {
      RemovalAsked(past, s, e);
    } else {
      forall t | t in s.txs
        ensures Asked(past + {e}, t, s.txs[t])
      {
        AskedBefore(past, e, t, s.txs[t]);
      }
    }
  }

  /** Everything orderly runs keep, after these events. */
  ghost predicate Kept(past: set<Event>, s: State) {
    Inv(s) && StateFair(s) && Owned(s) && Live(s) && AllAsked(past, s)
  }

  lemma EventKept(past: set<Event>, s: State, e: Event)
    requires Kept(past, s) && IsOrderly(s, e)
    ensures Kept(past + {e}, After(s, e))
  {
    EventKeeps(s, e);
    EventFair(s, e);
    EventOwned(s, e);
    EventLive(s, e);
    EventAsked(past, s, e);
  }

  lemma IdleKept(db: Db)
    requires Sound(db)
    ensures Kept({}, Idle(db))
  {
  }

  // ---------------------------------------------------------------------------
  // What each commit amounts to

  /** What a commit of a close rests on besides its locks: its list has the
      approved members and its caller may still close. */
  ghost predicate CloseIsFresh(s: State, tid: nat) {
    WillClose(s, tid) ==>
      && s.txs[tid].reading.listed == ApprovedList(s.db.members)
      && MayAdminister(s.db.members, s.txs[tid].caller)
  }

  /** The unique and foreign keys let the close through. */
  ghost predicate WillClose(s: State, tid: nat) {
    && Closing(s, tid) && s.txs[tid].reading.GotRows?
    && MayClose(s.db, RunOf(s.txs[tid].caller.user, s.txs[tid].reading))
  }

  predicate MayRemove(members: map<UserId, Membership>, caller: Principal, target: UserId) {
    target == caller.user || MayAdminister(members, caller)
  }

  /** Whoever asked for the removal may still ask for it. */
  predicate RemovalIsFresh(s: State, tid: nat) {
    WillRemove(s, tid) ==> MayRemove(s.db.members, s.txs[tid].caller, s.txs[tid].target)
  }

  predicate WillPay(s: State, tid: nat) {
    Paying(s, tid) && ReadyToCommit(s.txs[tid])
  }

  /** The actor of a payment step is still, or still not, the group admin. */
  predicate RoleIsFresh(s: State, tid: nat) {
    WillPay(s, tid) ==> s.txs[tid].actor.isGroupAdmin == IsAdmin(s.db.members, s.txs[tid].caller.user)
  }

  /** What a commit rests on, besides its locks, is still current. */
  ghost predicate IsFresh(s: State, e: Event) {
    && (e.CloseCommit? ==> CloseIsFresh(s, e.tid))
    && (e.RemoveDelete? ==> RemovalIsFresh(s, e.tid))
    && (e.PayCommit? ==> RoleIsFresh(s, e.tid))
  }

  /** The request of an expense transaction at its commit. */
  function WorkRequest(caller: Principal, inRange: bool, work: Work): seq<Request> {
    match work
    case Inserted(e) => [RecordExpense(caller, inRange, e.amount, e.category, e.shares)]
    case Updated(eid, amount, category) => [UpdateExpense(caller, inRange, eid, amount, category)]
    case Deleted(eid) => [DeleteExpense(caller, eid)]
    case _ => []
  }

  lemma OneServed(db: Db, r: Request)
    ensures ServedAll(db, [r]) == Served(db, r)
  {
    assert ServedAll(Served(db, r), [r][1..]) == Served(db, r);
  }

  lemma RecordingServed(db: Db, caller: Principal, e: Expense)
    ensures ServedAll(db, [RecordExpense(caller, true, e.amount, e.category, e.shares)]) ==
            AfterRecording(db, caller.user, true, e.amount, e.category, e.shares)
  {
    OneServed(db, RecordExpense(caller, true, e.amount, e.category, e.shares));
  }

  lemma UpdateServed(db: Db, caller: Principal, eid: nat, amount: int, category: Category)
    ensures ServedAll(db, [UpdateExpense(caller, true, eid, amount, category)]) ==
            AfterUpdate(db, caller.user, true, eid, amount, category)
  {
    OneServed(db, UpdateExpense(caller, true, eid, amount, category));
  }

  lemma DeletionServed(db: Db, caller: Principal, eid: nat)
    ensures ServedAll(db, [DeleteExpense(caller, eid)]) == AfterDeletion(db, caller.user, eid)
  {
    OneServed(db, DeleteExpense(caller, eid));
  }

  lemma CloseServed(db: Db, caller: Principal)
    ensures ServedAll(db, [CloseGroup(caller)]) == AfterClose(db, caller)
  {
    OneServed(db, CloseGroup(caller));
  }

  lemma TransitionServed(db: Db, caller: Principal, action: Action, pid: nat, content: string)
    ensures ServedAll(db, [TransitionPayment(caller, action, pid, content)]) ==
            AfterTransition(db, caller, action, pid, content)
  {
    OneServed(db, TransitionPayment(caller, action, pid, content));
  }

  /** The payer of a recorded expense is its recorder, who is approved. */
  lemma RecorderIsApproved(db: Db, user: UserId, id: MembershipId)
    requires MembersOk(db) && HasApproved(db.members, id) && Owns(db.members, user, id)
    ensures IsApproved(db.members, user)
  {
    var u :| u in db.members && db.members[u].id == id && db.members[u].standing == Approved;
    assert u == user;
  }

  lemma RecordingCommits(past: set<Event>, s: State, tid: nat)
    requires Kept(past, s) && AtWork(s, tid) && s.txs[tid].work.Inserted?
    ensures var tx := s.txs[tid];
            AfterRecording(s.db, tx.caller.user, true, tx.work.expense.amount, tx.work.expense.category,
                           tx.work.expense.shares) == AfterExpenseCommit(s, tid).db
  {
    var tx := s.txs[tid];
    assert TxOk(s.db, tx) && TxFair(s.db, tx) && TxOwned(s.db, tx);
    RecorderIsApproved(s.db, tx.caller.user, tx.work.expense.paidBy);
  }

  lemma ChangeCommits(past: set<Event>, s: State, tid: nat)
    requires Kept(past, s) && AtWork(s, tid)
    ensures var tx := s.txs[tid];
            && (tx.work.Updated? ==>
                  AfterUpdate(s.db, tx.caller.user, true, tx.work.eid, tx.work.amount, tx.work.category) ==
                  AfterExpenseCommit(s, tid).db)
            && (tx.work.Deleted? ==>
                  AfterDeletion(s.db, tx.caller.user, tx.work.eid) == AfterExpenseCommit(s, tid).db)
  {
    var tx := s.txs[tid];
    assert TxOk(s.db, tx) && TxOwned(s.db, tx) && WorksOnLive(s.db, tx);
  }

  lemma WorkCommits(past: set<Event>, s: State, tid: nat)
    requires Kept(past, s) && AtWork(s, tid)
    ensures ServedAll(s.db, WorkRequest(s.txs[tid].caller, s.txs[tid].inRange, s.txs[tid].work)) ==
            AfterExpenseCommit(s, tid).db
  {
    var caller, work := s.txs[tid].caller, s.txs[tid].work;
    assert Asked(past, tid, s.txs[tid]);
    match work
    case Inserted(e) =>
      RecordingCommits(past, s, tid);
      RecordingServed(s.db, caller, e);
    case Updated(eid, amount, category) =>
      ChangeCommits(past, s, tid);
      UpdateServed(s.db, caller, eid, amount, category);
    case Deleted(eid) =>
      ChangeCommits(past, s, tid);
      DeletionServed(s.db, caller, eid);
    case Locked =>
    case Looking(_, _) =>
  }

  /** A close commits what its caller's request, served at that moment, does, if
      and only if its list and its caller's authority are still current. */
  lemma CloseIsServedIff(past: set<Event>, s: State, tid: nat)
    requires Kept(past, s) && WillClose(s, tid)
    ensures AfterClose(s.db, s.txs[tid].caller) == AfterCloseCommit(s, tid).db <==> CloseIsFresh(s, tid)
  {
    var caller, reading := s.txs[tid].caller, s.txs[tid].reading;
    var run, now := RunOf(caller.user, reading), RunNow(s.db, caller.user);
    assert TxOk(s.db, s.txs[tid]);
    RunIsSnapshot(s.db, caller.user, reading);
    SameRuns(s.db, run, now);
    if reading.listed == ApprovedList(s.db.members) {
      assert run == now;
    }
  }

  lemma SameRuns(db: Db, a: SettlementRun, b: SettlementRun)
    ensures Closed(db, a) != db
    ensures Closed(db, a) == Closed(db, b) ==> a == b
  {
    assert Closed(db, a).runs[|db.runs|] == a;
    assert Closed(db, b).runs[|db.runs|] == b;
    assert |Closed(db, a).runs| == |db.runs| + 1;
  }

  lemma StillLawful(db: Db, tx: Tx)
    requires MayCommit(db, tx) && tx.actor.isGlobalAdmin == tx.caller.isGlobalAdmin
    ensures var now := ActorOf(db, tx.caller, db.payments[tx.pid]);
            tx.actor == now <==> tx.actor.isGroupAdmin == IsAdmin(db.members, tx.caller.user)
    ensures db.payments[tx.pid].status == tx.seen && db.payments[tx.pid].version == tx.version
    ensures Validate(tx.action, tx.actor, tx.seen) == Next(tx.next) && Participates(tx.actor)
  {
    assert Lawful(EntryFor(tx), db.payments[tx.pid].from, db.payments[tx.pid].to);
  }

  /** What a payment transaction commits is what one that starts now would. */
  lemma SamePaid(db: Db, tx: Tx)
    requires MayCommit(db, tx) && ReadyToCommit(tx) && tx.actor == ActorOf(db, tx.caller, db.payments[tx.pid])
    requires db.payments[tx.pid].status == tx.seen && db.payments[tx.pid].version == tx.version
    requires tx.next == Settled ==> tx.progress.lastOne == OthersSettled(db.payments, tx.pid)
    ensures Paid(db, Transaction(db, tx.caller, tx.action, tx.pid, tx.content, tx.next)) == Paid(db, tx)
  {
    var now := Transaction(db, tx.caller, tx.action, tx.pid, tx.content, tx.next);
    assert EntryFor(now) == EntryFor(tx);
    assert WithProof(db.proofs, tx.pid, tx.action, now.progress.unset, tx.content) ==
           WithProof(db.proofs, tx.pid, tx.action, tx.progress.unset, tx.content);
  }

  /** What a step by another actor logs shows. */
  lemma OtherActorShows(db: Db, tx: Tx)
    requires tx.PayTx? && !tx.progress.Validated? && tx.pid < |db.payments|
    requires tx.actor != ActorOf(db, tx.caller, db.payments[tx.pid])
    ensures AfterTransition(db, tx.caller, tx.action, tx.pid, tx.content) != Paid(db, tx)
  {
    var after := AfterTransition(db, tx.caller, tx.action, tx.pid, tx.content);
    assert |Paid(db, tx).log| == |db.log| + 1 && Paid(db, tx).log[|db.log|].actor == tx.actor;
    assert |after.log| > |db.log| ==> after.log[|db.log|].actor == ActorOf(db, tx.caller, db.payments[tx.pid]);
  }

  /** A payment step commits what its caller's request, served at that moment,
      does, if and only if its caller is the group admin now as then. */
  lemma PayIsServedIff(past: set<Event>, s: State, tid: nat)
    requires Kept(past, s) && WillPay(s, tid) && StillCounted(s, tid)
    ensures var tx := s.txs[tid];
            AfterTransition(s.db, tx.caller, tx.action, tx.pid, tx.content) == AfterPayCommit(s, tid).db <==>
            RoleIsFresh(s, tid)
  {
    var tx := s.txs[tid];
    assert TxOk(s.db, tx) && Asked(past, tid, tx);
    StillLawful(s.db, tx);
    if tx.actor == ActorOf(s.db, tx.caller, s.db.payments[tx.pid]) {
      SamePaid(s.db, tx);
    } else {
      OtherActorShows(s.db, tx);
    }
  }

  /** A deletion does what its caller's request, served at that moment, does, if
      and only if this caller may still ask for it. */
  lemma RemovalIsServedIff(s: State, tid: nat)
    requires StillUnused(s, tid) && WillRemove(s, tid)
    ensures AfterRemoval(s.db, s.txs[tid].caller, s.txs[tid].target) == AfterRemoveDelete(s, tid).db <==>
            RemovalIsFresh(s, tid)
  {
    assert s.txs[tid].target !in AfterRemoveDelete(s, tid).db.members;
  }

  // ---------------------------------------------------------------------------
  // One event, at most one request

  function RemovalRequest(s: State, tid: nat): seq<Request> {
    if WillRemove(s, tid) then [RemoveMember(s.txs[tid].caller, s.txs[tid].target)] else []
  }

  function ExpenseRequest(s: State, tid: nat): seq<Request> {
    if AtWork(s, tid) then WorkRequest(s.txs[tid].caller, s.txs[tid].inRange, s.txs[tid].work) else []
  }

  ghost function CloseRequest(s: State, tid: nat): seq<Request> {
    if WillClose(s, tid) then [CloseGroup(s.txs[tid].caller)] else []
  }

  function PayRequest(s: State, tid: nat): seq<Request> {
    if WillPay(s, tid)
    then [TransitionPayment(s.txs[tid].caller, s.txs[tid].action, s.txs[tid].pid, s.txs[tid].content)] else []
  }

  /** The request an event completes, if it may change rows: its own caller's. */
  ghost function Completed(s: State, e: Event): seq<Request> {
    match e
    case Join(caller) => [RequestToJoin(caller)]
    case Decide(caller, u, approve) => [DecideMember(caller, u, approve)]
    case HandOver(caller, u) => [TransferAdmin(caller, u)]
    case RemoveDelete(tid) => RemovalRequest(s, tid)
    case ExpenseCommit(tid) => ExpenseRequest(s, tid)
    case CloseCommit(tid) => CloseRequest(s, tid)
    case PayCommit(tid) => PayRequest(s, tid)
    case _ => []
  }

  lemma MemberEventCompletes(s: State, e: Event)
    requires e.Join? || e.Decide? || e.HandOver?
    ensures ServedAll(s.db, Completed(s, e)) == After(s, e).db
  {
    OneServed(s.db, Completed(s, e)[0]);
  }

  lemma RemovalCompletes(s: State, tid: nat)
    requires StillUnused(s, tid)
    ensures ServedAll(s.db, RemovalRequest(s, tid)) == AfterRemoveDelete(s, tid).db <==> RemovalIsFresh(s, tid)
  {
    if WillRemove(s, tid) {
      RemovalIsServedIff(s, tid);
      OneServed(s.db, RemoveMember(s.txs[tid].caller, s.txs[tid].target));
    }
  }

  lemma ExpenseCompletes(past: set<Event>, s: State, tid: nat)
    requires Kept(past, s)
    ensures ServedAll(s.db, ExpenseRequest(s, tid)) == AfterExpenseCommit(s, tid).db
  {
    if AtWork(s, tid) {
      WorkCommits(past, s, tid);
    }
  }

  lemma CloseCompletes(past: set<Event>, s: State, tid: nat)
    requires Kept(past, s)
    ensures ServedAll(s.db, CloseRequest(s, tid)) == AfterCloseCommit(s, tid).db <==> CloseIsFresh(s, tid)
  {
    if WillClose(s, tid) {
      CloseIsServedIff(past, s, tid);
      CloseServed(s.db, s.txs[tid].caller);
    }
  }

  lemma PayCompletes(past: set<Event>, s: State, tid: nat)
    requires Kept(past, s) && StillCounted(s, tid)
    ensures ServedAll(s.db, PayRequest(s, tid)) == AfterPayCommit(s, tid).db <==> RoleIsFresh(s, tid)
  {
    if WillPay(s, tid) {
      var tx := s.txs[tid];
      PayIsServedIff(past, s, tid);
      TransitionServed(s.db, tx.caller, tx.action, tx.pid, tx.content);
    }
  }

  predicate Writes(e: Event) {
    e.Join? || e.Decide? || e.HandOver? || e.RemoveDelete? || e.ExpenseCommit? || e.CloseCommit? || e.PayCommit?
  }

  lemma NothingWritten(s: State, e: Event)
    requires !Writes(e)
    ensures After(s, e).db == s.db
  {
    if IsExpenseEvent(e) {
      ExpenseWritesNothing(s, e);
    } else if IsCloseEvent(e) {
      CloseWritesNothing(s, e);
    } else if IsPayEvent(e) {
      PayWritesNothing(s, e);
    }
  }

  /** In orderly runs an event does to the rows what the request it completes does
      when served at that moment, if and only if what it rests on is current. */
  lemma EventIsServedIff(past: set<Event>, s: State, e: Event)
    requires Kept(past, s) && IsOrderly(s, e)
    ensures ServedAll(s.db, Completed(s, e)) == After(s, e).db <==> IsFresh(s, e)
  {
    if e.Join? || e.Decide? || e.HandOver? {
      MemberEventCompletes(s, e);
    } else if e.RemoveDelete? {
      RemovalCompletes(s, e.tid);
    } else if e.ExpenseCommit? {
      ExpenseCompletes(past, s, e.tid);
    } else if e.CloseCommit? {
      CloseCompletes(past, s, e.tid);
    } else if e.PayCommit? {
      PayCompletes(past, s, e.tid);
    } else {
      NothingWritten(s, e);
    }
  }

  // ---------------------------------------------------------------------------
  // Whole runs

  ghost predicate FreshRun(s: State, events: seq<Event>)
    decreases |events|
  {
    events != [] ==> IsFresh(s, events[0]) && FreshRun(After(s, events[0]), events[1..])
  }

  /** The requests of a run, in the order in which they commit. */
  ghost function InCommitOrder(s: State, events: seq<Event>): seq<Request>
    decreases |events|
  {
    if events == [] then [] else Completed(s, events[0]) + InCommitOrder(After(s, events[0]), events[1..])
  }

  lemma {:induction false} CommitOrderServes(past: set<Event>, s: State, events: seq<Event>)
    requires Kept(past, s) && OrderlyRun(s, events) && FreshRun(s, events)
    ensures Reached(s, events).db == ServedAll(s.db, InCommitOrder(s, events))
    decreases |events|
  {
    if events != [] {
      var t := After(s, events[0]);
      EventKept(past, s, events[0]);
      EventIsServedIff(past, s, events[0]);
      CommitOrderServes(past + {events[0]}, t, events[1..]);
      ServedConcat(s.db, Completed(s, events[0]), InCommitOrder(t, events[1..]));
    }
  }

  /** From the creation of a group every orderly run whose commits rest on current
      lists, authority and roles reaches exactly the rows that its requests reach
      when served one after the other in the order of their commits. */
  lemma FreshRunIsSerial(admin: UserId, events: seq<Event>)
    requires OrderlyRun(Created(admin), events) && FreshRun(Created(admin), events)
    ensures Reached(Created(admin), events).db ==
            ServedAll(Created(admin).db, InCommitOrder(Created(admin), events))
  {
    CreatedOk(admin);
    CreatedFair(admin);
    CommitOrderServes({}, Created(admin), events);
  }

  // ---------------------------------------------------------------------------
  // The requests are those that were made

  /** Events of a run asked for this, under one transaction number. */
  ghost predicate Made(past: set<Event>, r: Request) {
    match r
    case RequestToJoin(caller) => Join(caller) in past
    case DecideMember(caller, u, approve) => Decide(caller, u, approve) in past
    case TransferAdmin(caller, u) => HandOver(caller, u) in past
    case RemoveMember(caller, u) => exists t :: RemoveCheck(t, caller, u) in past
    case RecordExpense(caller, inRange, amount, category, shares) =>
      exists t :: ExpenseLock(t, caller, inRange) in past && ExpenseCheck(t, amount, category, shares) in past
    case UpdateExpense(caller, inRange, eid, amount, category) =>
      exists t :: ExpenseLock(t, caller, inRange) in past && ExpenseUpdate(t, eid, amount, category) in past
    case DeleteExpense(caller, eid) =>
      exists t, inRange :: ExpenseLock(t, caller, inRange) in past && ExpenseDelete(t, eid) in past
    case CloseGroup(caller) => exists t :: CloseAuthorize(t, caller) in past
    case TransitionPayment(caller, action, pid, content) =>
      exists t :: PayRead(t, caller, action, pid, content) in past
  }

  ghost predicate AllMade(past: set<Event>, rs: seq<Request>) {
    forall k :: 0 <= k < |rs| ==> Made(past, rs[k])
  }

  lemma MadeBefore(past: set<Event>, more: set<Event>, r: Request)
    requires Made(past, r) && past <= more
    ensures Made(more, r)
  {
  }

  lemma CompletedWasMade(past: set<Event>, s: State, e: Event)
    requires AllAsked(past, s)
    ensures AllMade(past + {e}, Completed(s, e))
  {
    var rs := Completed(s, e);
    if rs != [] && !e.Join? && !e.Decide? && !e.HandOver? {
      assert Asked(past, e.tid, s.txs[e.tid]);
      MadeByItsOwn(past, s, e);
      MadeBefore(past, past + {e}, rs[0]);
    }
  }

  lemma MadeByItsOwn(past: set<Event>, s: State, e: Event)
    requires !e.Join? && !e.Decide? && !e.HandOver? && Completed(s, e) != []
    requires e.tid in s.txs && Asked(past, e.tid, s.txs[e.tid])
    ensures |Completed(s, e)| == 1 && Made(past, Completed(s, e)[0])
  {
  }

  function Happened(events: seq<Event>): set<Event> {
    set e | e in events
  }

  lemma {:induction false} CommittedWasMade(past: set<Event>, s: State, events: seq<Event>)
    requires AllAsked(past, s)
    ensures AllMade(past + Happened(events), InCommitOrder(s, events))
    decreases |events|
  {
    if events != [] {
      var e, rest := events[0], InCommitOrder(After(s, events[0]), events[1..]);
      var all := past + Happened(events);
      EventAsked(past, s, e);
      CompletedWasMade(past, s, e);
      CommittedWasMade(past + {e}, After(s, e), events[1..]);
      assert past + {e} + Happened(events[1..]) == all by {
        assert events == [e] + events[1..];
      }
      forall k | 0 <= k < |Completed(s, e)|
        ensures Made(all, Completed(s, e)[k])
      {
        MadeBefore(past + {e}, all, Completed(s, e)[k]);
      }
    }
  }

  /** Over every run, orderly or not, each request in the commit order is one that
      statements of the run asked for: by this caller, with these arguments. */
  lemma RequestsWereMade(admin: UserId, events: seq<Event>)
    ensures AllMade(Happened(events), InCommitOrder(Created(admin), events))
  {
    CommittedWasMade({}, Created(admin), events);
    assert {} + Happened(events) == Happened(events);
  }

  // ---------------------------------------------------------------------------
  // Expense, close and payment transactions among the same members

  ghost predicate TxFresh(members: map<UserId, Membership>, tx: Tx) {
    && (tx.PayTx? ==> tx.actor.isGroupAdmin == IsAdmin(members, tx.caller.user))
    && (tx.CloseTx? ==> MayAdminister(members, tx.caller))
    && (tx.CloseTx? && !tx.reading.Authorized? && !tx.reading.Exclusive? ==>
          tx.reading.listed == ApprovedList(members))
  }

  ghost predicate AllFresh(s: State) {
    forall t :: t in s.txs ==> TxFresh(s.db.members, s.txs[t])
  }

  /** Nobody is approved, made admin or removed; people may ask to join. */
  predicate IsQuiet(e: Event) {
    !e.Decide? && !e.HandOver? && !e.RemoveDelete?
  }

  predicate Quiet(events: seq<Event>) {
    forall i :: 0 <= i < |events| ==> IsQuiet(events[i])
  }

  lemma SameList(a: map<UserId, Membership>, b: map<UserId, Membership>)
    requires ApprovedUsers(a) == ApprovedUsers(b)
    requires forall u :: u in ApprovedUsers(a) ==> a[u].id == b[u].id
    ensures ApprovedList(a) == ApprovedList(b)
  {
    var us := InOrder(ApprovedUsers(a));
    InOrderIs(ApprovedUsers(a));
    forall i | 0 <= i < |us|
      ensures us[i] in ApprovedUsers(a) && us[i] in ApprovedUsers(b) && a[us[i]].id == b[us[i]].id
    {
      assert us[i] in us;
    }
  }

  lemma JoinFresh(s: State, caller: Principal)
    requires AllFresh(s)
    ensures AllFresh(s.(db := Joined(s.db, caller)))
  {
    var b := Joined(s.db, caller);
    SameList(s.db.members, b.members);
    forall t | t in s.txs
      ensures TxFresh(b.members, s.txs[t])
    {
      assert TxFresh(s.db.members, s.txs[t]);
    }
  }

  lemma ExpenseFresh(s: State, e: Event)
    requires AllFresh(s) && IsExpenseEvent(e)
    ensures AllFresh(After(s, e))
  {
  }

  lemma CloseFresh(s: State, e: Event)
    requires AllFresh(s) && IsCloseEvent(e)
    ensures AllFresh(After(s, e))
  {
    assert e.tid in s.txs ==> TxFresh(s.db.members, s.txs[e.tid]);
  }

  lemma PayFresh(s: State, e: Event)
    requires AllFresh(s) && IsPayEvent(e)
    ensures AllFresh(After(s, e))
  {
    assert e.tid in s.txs ==> TxFresh(s.db.members, s.txs[e.tid]);
  }

  lemma QuietFresh(s: State, e: Event)
    requires AllFresh(s) && IsQuiet(e)
    ensures IsFresh(s, e) && AllFresh(After(s, e))
  {
    if IsExpenseEvent(e) {
      ExpenseFresh(s, e);
    } else if IsCloseEvent(e) {
      assert e.tid in s.txs ==> TxFresh(s.db.members, s.txs[e.tid]);
      CloseFresh(s, e);
    } else if IsPayEvent(e) {
      assert e.tid in s.txs ==> TxFresh(s.db.members, s.txs[e.tid]);
      PayFresh(s, e);
    } else if e.Join? {
      JoinFresh(s, e.caller);
    }
  }

  lemma {:induction false} QuietRunFresh(s: State, events: seq<Event>)
    requires AllFresh(s) && Quiet(events)
    ensures FreshRun(s, events)
    decreases |events|
  {
    if events != [] {
      QuietFresh(s, events[0]);
      QuietRunFresh(After(s, events[0]), events[1..]);
    }
  }

  /** From any rows between requests: however expense, close and payment
      transactions interleave, with requests to join among them, an orderly run
      reaches the rows of its requests served one after the other. */
  lemma QuietRunIsSerial(db: Db, events: seq<Event>)
    requires Sound(db) && OrderlyRun(Idle(db), events) && Quiet(events)
    ensures Reached(Idle(db), events).db == ServedAll(db, InCommitOrder(Idle(db), events))
  {
    IdleKept(db);
    QuietRunFresh(Idle(db), events);
    CommitOrderServes({}, Idle(db), events);
  }

  // ---------------------------------------------------------------------------
  // An authority that lapses before the commit

  function ReadingOn(): seq<Event> {
    [CloseRead(0), CloseRead(0)] + ([CloseRead(0), CloseRead(0)] + [CloseCommit(0)])
  }

  /** From the lock of a close to its commit. */
  function GoingOn(): seq<Event> {
    [CloseLock(0)] + ReadingOn()
  }

  function Authorizing(db: Db, caller: Principal): State {
    With(Idle(db), 0, CloseTx(caller, Authorized))
  }

  lemma LockStep(db: Db, caller: Principal, s: State)
    requires db.status == GroupOpen && s == With(Idle(db), 0, CloseTx(caller, Exclusive))
    ensures IsOrderly(Authorizing(db, caller), CloseLock(0)) && After(Authorizing(db, caller), CloseLock(0)) == s
  {
  }

  lemma CommitsAll(db: Db, caller: Principal)
    requires MayClose(db, RunNow(db, caller.user))
    ensures AfterCloseCommit(ReadAll(With(Idle(db), 0, CloseTx(caller, Exclusive))), 0) ==
            Idle(Closed(db, RunNow(db, caller.user)))
  {
    FourReads(db, caller);
  }

  lemma ReadsThenCommits(s: State)
    ensures Reached(s, ReadingOn()) == AfterCloseCommit(ReadAll(s), 0) && OrderlyRun(s, ReadingOn())
  {
    var s1 := AfterCloseRead(s, 0);
    var s2 := AfterCloseRead(s1, 0);
    var s3 := AfterCloseRead(s2, 0);
    var s4 := AfterCloseRead(s3, 0);
    TwoSteps(s, CloseRead(0), s1, CloseRead(0), s2);
    TwoSteps(s2, CloseRead(0), s3, CloseRead(0), s4);
    LastStep(s4, CloseCommit(0));
    ReachedConcat(s2, [CloseRead(0), CloseRead(0)], [CloseCommit(0)]);
    ReachedConcat(s, [CloseRead(0), CloseRead(0)], [CloseRead(0), CloseRead(0)] + [CloseCommit(0)]);
  }

  /** These events are an orderly run from one state to the other. */
  ghost predicate GoesTo(s: State, events: seq<Event>, t: State) {
    Reached(s, events) == t && OrderlyRun(s, events)
  }

  lemma FirstThenRest(s: State, e: Event, next: State, rest: seq<Event>, t: State)
    requires IsOrderly(s, e) && After(s, e) == next && GoesTo(next, rest, t)
    ensures GoesTo(s, [e] + rest, t)
  {
    ReachedStep(s, e, rest);
  }

  lemma OneThenTheOther(s: State, a: seq<Event>, t: State, b: seq<Event>, u: State)
    requires GoesTo(s, a, t) && GoesTo(t, b, u)
    ensures GoesTo(s, a + b, u)
  {
    ReachedConcat(s, a, b);
  }

  lemma ReadsOn(s: State, t: State)
    requires AfterCloseCommit(ReadAll(s), 0) == t
    ensures GoesTo(s, ReadingOn(), t)
  {
    ReadsThenCommits(s);
  }

  /** Past its first stage a close asks for nobody's authority. */
  lemma GoesOn(db: Db, caller: Principal, s: State, t: State)
    requires db.status == GroupOpen && s == With(Idle(db), 0, CloseTx(caller, Exclusive))
    requires AfterCloseCommit(ReadAll(s), 0) == t
    ensures GoesTo(Authorizing(db, caller), GoingOn(), t)
  {
    LockStep(db, caller, s);
    ReadsOn(s, t);
    FirstThenRest(Authorizing(db, caller), CloseLock(0), s, ReadingOn(), t);
  }

  lemma HandOverKeepsList(db: Db, caller: Principal, c: UserId)
    ensures RunNow(HandedOver(db, caller, c), caller.user) == RunNow(db, caller.user)
  {
    SameList(db.members, HandedOver(db, caller, c).members);
  }

  /** The caller is the admin and no global admin, and c another approved member. */
  predicate CanHandOver(members: map<UserId, Membership>, caller: Principal, c: UserId) {
    IsAdmin(members, caller.user) && !caller.isGlobalAdmin && IsApproved(members, c) && c != caller.user
  }

  lemma HandsOver(db: Db, caller: Principal, c: UserId)
    requires AdminsOk(db.members) && CanHandOver(db.members, caller, c)
    ensures HandedOver(db, caller, c).status == db.status
    ensures !MayAdminister(HandedOver(db, caller, c).members, caller)
  {
  }

  lemma CloseKeepsHandOver(db: Db, run: SettlementRun, caller: Principal, c: UserId)
    ensures HandedOver(Closed(db, run), caller, c) == Closed(HandedOver(db, caller, c), run)
  {
  }

  /** Closing first and handing over then, or the other way round. */
  lemma BothOrders(db: Db, caller: Principal, c: UserId)
    requires Sound(db) && db.status == GroupOpen && CanHandOver(db.members, caller, c)
    ensures var after := HandedOver(db, caller, c);
            && after.status == GroupOpen && MayClose(after, RunNow(after, caller.user))
            && AfterClose(after, caller) == after
            && HandedOver(AfterClose(db, caller), caller, c) == Closed(after, RunNow(after, caller.user))
  {
    ServedIsSound(db, TransferAdmin(caller, c));
    HandsOver(db, caller, c);
    EndsOfPlanExist(HandedOver(db, caller, c), caller.user);
    EndsOfPlanExist(db, caller.user);
    HandOverKeepsList(db, caller, c);
    CloseKeepsHandOver(db, RunNow(db, caller.user), caller, c);
  }

  lemma TwoOfThem(db: Db, r0: Request, db1: Db, r1: Request, db2: Db)
    requires Served(db, r0) == db1 && Served(db1, r1) == db2
    ensures ServedAll(db, [r0, r1]) == db2
  {
    OneServed(db1, r1);
    ServedConcat(db, [r0], [r1]);
    OneServed(db, r0);
    assert [r0] + [r1] == [r0, r1];
  }

  function StartingThenHandingOver(caller: Principal, c: UserId): seq<Event> {
    [CloseAuthorize(0, caller), HandOver(caller, c)]
  }

  lemma StartsAndHandsOver(db: Db, caller: Principal, c: UserId)
    requires IsAdmin(db.members, caller.user)
    ensures GoesTo(Idle(db), StartingThenHandingOver(caller, c), Authorizing(HandedOver(db, caller, c), caller))
  {
    TwoSteps(Idle(db), CloseAuthorize(0, caller), Authorizing(db, caller), HandOver(caller, c),
             Authorizing(HandedOver(db, caller, c), caller));
  }

  lemma LapsedRun(db: Db, caller: Principal, c: UserId, after: Db, closed: Db)
    requires IsAdmin(db.members, caller.user) && after == HandedOver(db, caller, c) && after.status == GroupOpen
    requires AfterCloseCommit(ReadAll(With(Idle(after), 0, CloseTx(caller, Exclusive))), 0) == Idle(closed)
    ensures GoesTo(Idle(db), StartingThenHandingOver(caller, c) + GoingOn(), Idle(closed))
  {
    StartsAndHandsOver(db, caller, c);
    GoesOn(after, caller, With(Idle(after), 0, CloseTx(caller, Exclusive)), Idle(closed));
    OneThenTheOther(Idle(db), StartingThenHandingOver(caller, c), Authorizing(after, caller), GoingOn(), Idle(closed));
  }

  lemma ClosedFirst(db: Db, caller: Principal, c: UserId, closed: Db, both: Db)
    requires AfterClose(db, caller) == closed && HandedOver(closed, caller, c) == both
    ensures ServedAll(db, [CloseGroup(caller), TransferAdmin(caller, c)]) == both
  {
    TwoOfThem(db, CloseGroup(caller), closed, TransferAdmin(caller, c), both);
  }

  lemma HandedOverFirst(db: Db, caller: Principal, c: UserId, after: Db, both: Db)
    requires HandedOver(db, caller, c) == after && AfterClose(after, caller) == both
    ensures ServedAll(db, [TransferAdmin(caller, c), CloseGroup(caller)]) == both
  {
    TwoOfThem(db, TransferAdmin(caller, c), after, CloseGroup(caller), both);
  }

  lemma LapsedRunCloses(db: Db, caller: Principal, c: UserId)
    requires Sound(db) && db.status == GroupOpen && CanHandOver(db.members, caller, c)
    ensures var after := HandedOver(db, caller, c);
            && after.status == GroupOpen
            && GoesTo(Idle(db), StartingThenHandingOver(caller, c) + GoingOn(),
                      Idle(Closed(after, RunNow(after, caller.user))))
  {
    var after := HandedOver(db, caller, c);
    BothOrders(db, caller, c);
    CommitsAll(after, caller);
    LapsedRun(db, caller, c, after, Closed(after, RunNow(after, caller.user)));
  }

  /** In every open group an admin who starts to close and then hands over still
      closes it. In the order of the commits the close would be refused; in the
      other order the two requests reach the same rows as the run. */
  lemma HandedOverStillCloses(db: Db, caller: Principal, c: UserId)
    requires Sound(db) && db.status == GroupOpen && CanHandOver(db.members, caller, c)
    ensures var closed := ServedAll(db, [CloseGroup(caller), TransferAdmin(caller, c)]);
            && GoesTo(Idle(db), StartingThenHandingOver(caller, c) + GoingOn(), Idle(closed))
            && closed.status != GroupOpen
            && ServedAll(db, [TransferAdmin(caller, c), CloseGroup(caller)]).status == GroupOpen
  {
    var after := HandedOver(db, caller, c);
    BothOrders(db, caller, c);
    ClosedFirst(db, caller, c, AfterClose(db, caller), Closed(after, RunNow(after, caller.user)));
    HandedOverFirst(db, caller, c, after, after);
    LapsedRunCloses(db, caller, c);
  }
}
