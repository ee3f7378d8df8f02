/** Requests served one at a time: the whole effect of each service function,
    and the proof that it is what the statements of its transaction do when
    nothing interleaves. Serving one request after the other is orderly. */
module Serial {
  import opened Ids
  import opened Planner
  import opened PlanBounds
  import opened Tables
  import opened Snapshots
  import opened TwoKey
  import opened Lifecycle
  import opened Invariants
  import opened Protocol
  import opened Orderly

  datatype Request =
    | RequestToJoin(caller: Principal)
    | DecideMember(caller: Principal, user: UserId, approve: bool)
    | TransferAdmin(caller: Principal, user: UserId)
    | RemoveMember(caller: Principal, user: UserId)
    | RecordExpense(caller: Principal, inRange: bool, amount: int, category: Category, shares: map<UserId, int>)
    | UpdateExpense(caller: Principal, inRange: bool, eid: nat, amount: int, category: Category)
    | DeleteExpense(caller: Principal, eid: nat)
    | CloseGroup(caller: Principal)
    | TransitionPayment(caller: Principal, action: Action, pid: nat, content: string)

  /** One lookup per named user. */
  function Lookups(us: seq<UserId>): (r: seq<Event>)
    ensures |r| == |us|
  {
    seq(|us|, i requires 0 <= i < |us| => ExpenseLookup(0, us[i]))
  }

  /** The statements of a request, in order, under one transaction number. */
  ghost function Script(r: Request): seq<Event> {
    match r
    case RequestToJoin(caller) => [Join(caller)]
    case DecideMember(caller, u, approve) => [Decide(caller, u, approve)]
    case TransferAdmin(caller, u) => [HandOver(caller, u)]
    case RemoveMember(caller, u) => [RemoveCheck(0, caller, u), RemoveDelete(0)]
    case RecordExpense(caller, inRange, amount, category, shares) =>
      [ExpenseLock(0, caller, inRange), ExpenseCheck(0, amount, category, shares)] +
      (Lookups(InOrder(shares.Keys)) + [ExpenseInsert(0), ExpenseCommit(0)])
    case UpdateExpense(caller, inRange, eid, amount, category) =>
      [ExpenseLock(0, caller, inRange), ExpenseUpdate(0, eid, amount, category), ExpenseCommit(0)]
    case DeleteExpense(caller, eid) =>
      [ExpenseLock(0, caller, true), ExpenseDelete(0, eid), ExpenseCommit(0)]
    case CloseGroup(caller) =>
      [CloseAuthorize(0, caller), CloseLock(0), CloseRead(0), CloseRead(0), CloseRead(0), CloseRead(0), CloseCommit(0)]
    case TransitionPayment(caller, action, pid, content) =>
      [PayRead(0, caller, action, pid, content), PayProve(0), PayGuard(0), PayCount(0), PayCommit(0)]
  }

  // ---------------------------------------------------------------------------
  // The effect of each request as a whole

  function AfterRemoval(db: Db, caller: Principal, u: UserId): Db {
    if Removable(db, caller, u) && !Referenced(db, u, db.members[u].id)
    then db.(members := db.members - {u}) else db
  }

  function AfterRecording(db: Db, user: UserId, inRange: bool, amount: int, category: Category,
                          shares: map<UserId, int>): Db {
    if db.status == GroupOpen && inRange && MayRecord(db, user, amount, shares)
    then db.(expenses := db.expenses + [Recording(db, user, amount, category, shares)]) else db
  }

  function AfterUpdate(db: Db, user: UserId, inRange: bool, eid: nat, amount: int, category: Category): Db {
    if db.status == GroupOpen && inRange && amount > 0 && OwnsLive(db, user, eid)
    then db.(expenses := Written(db.expenses, Updated(eid, amount, category))) else db
  }

  function AfterDeletion(db: Db, user: UserId, eid: nat): Db {
    if db.status == GroupOpen && OwnsLive(db, user, eid)
    then db.(expenses := Written(db.expenses, Deleted(eid))) else db
  }

  ghost function RunNow(db: Db, user: UserId): SettlementRun {
    var listed := ApprovedList(db.members);
    SettlementRun(user, listed, SnapshotOf(listed, db.expenses))
  }

  ghost function AfterClose(db: Db, caller: Principal): Db {
    if MayAdminister(db.members, caller) && db.status == GroupOpen && MayClose(db, RunNow(db, caller.user))
    then Closed(db, RunNow(db, caller.user)) else db
  }

  /** The transaction of an accepted step, about to commit. */
  function Transaction(db: Db, caller: Principal, action: Action, pid: nat, content: string, next: Status): Tx
    requires pid < |db.payments|
  {
    var p := db.payments[pid];
    var unset := if action == SubmitProof then CurrentProofs(db.proofs, pid) else {};
    PayTx(caller, action, ActorOf(db, caller, p), pid, p.status, p.version, next, content,
          if next == Settled then Counted(unset, OthersSettled(db.payments, pid)) else Guarded(unset))
  }

  function AfterTransition(db: Db, caller: Principal, action: Action, pid: nat, content: string): Db {
    if pid >= |db.payments| then db
    else
      var actor := ActorOf(db, caller, db.payments[pid]);
      match Validate(action, actor, db.payments[pid].status)
      case Next(next) =>
        if Participates(actor) then Paid(db, Transaction(db, caller, action, pid, content, next)) else db
      case _ => db
  }

  ghost function Served(db: Db, r: Request): Db {
    match r
    case RequestToJoin(caller) => Joined(db, caller)
    case DecideMember(caller, u, approve) => Decided(db, caller, u, if approve then Approved else Rejected)
    case TransferAdmin(caller, u) => HandedOver(db, caller, u)
    case RemoveMember(caller, u) => AfterRemoval(db, caller, u)
    case RecordExpense(caller, inRange, amount, category, shares) =>
      AfterRecording(db, caller.user, inRange, amount, category, shares)
    case UpdateExpense(caller, inRange, eid, amount, category) =>
      AfterUpdate(db, caller.user, inRange, eid, amount, category)
    case DeleteExpense(caller, eid) => AfterDeletion(db, caller.user, eid)
    case CloseGroup(caller) => AfterClose(db, caller)
    case TransitionPayment(caller, action, pid, content) => AfterTransition(db, caller, action, pid, content)
  }

  // ---------------------------------------------------------------------------
  // The statements of a request come to its effect

  function Idle(db: Db): State {
    State(db, map[])
  }

  lemma ReachedStep(s: State, e: Event, rest: seq<Event>)
    ensures Reached(s, [e] + rest) == Reached(After(s, e), rest)
    ensures OrderlyRun(s, [e] + rest) <==> IsOrderly(s, e) && OrderlyRun(After(s, e), rest)
  {
    assert ([e] + rest)[1..] == rest;
  }

  lemma RemovalScript(db: Db, caller: Principal, u: UserId)
    ensures var s := AfterRemoveCheck(Idle(db), 0, caller, u);
            && StillUnused(s, 0)
            && AfterRemoveDelete(s, 0) == Idle(AfterRemoval(db, caller, u))
  {
  }

  /** The state of a recording whose payer and these named users have been looked up. */
  function Recorder(db: Db, caller: Principal, e: Expense, seen: set<UserId>): State {
    With(Idle(db), 0, ExpenseTx(caller, true, Looking(e, seen)))
  }

  lemma RecordingChecks(db: Db, caller: Principal, inRange: bool, amount: int, category: Category,
                        shares: map<UserId, int>)
    ensures var s0 := AfterExpenseLock(Idle(db), 0, caller, inRange);
            AfterExpenseCheck(s0, 0, amount, category, shares) ==
            if db.status == GroupOpen && inRange && IsApproved(db.members, caller.user) && ValidRequest(amount, shares)
            then Recorder(db, caller, Recording(db, caller.user, amount, category, shares), {})
            else Idle(db)
  {
  }

  lemma RecordingEnds(db: Db, caller: Principal, e: Expense)
    requires HasId(db.members, e.paidBy)
    ensures AfterExpenseCommit(AfterExpenseInsert(Recorder(db, caller, e, e.shares.Keys), 0), 0) ==
            Idle(db.(expenses := db.expenses + [e]))
  {
  }

  lemma UpdateScript(db: Db, caller: Principal, inRange: bool, eid: nat, amount: int, category: Category)
    ensures var s0 := AfterExpenseLock(Idle(db), 0, caller, inRange);
            AfterExpenseCommit(AfterExpenseUpdate(s0, 0, eid, amount, category), 0) ==
            Idle(AfterUpdate(db, caller.user, inRange, eid, amount, category))
  {
  }

  lemma DeletionScript(db: Db, caller: Principal, eid: nat)
    ensures var s0 := AfterExpenseLock(Idle(db), 0, caller, true);
            AfterExpenseCommit(AfterExpenseDelete(s0, 0, eid), 0) == Idle(AfterDeletion(db, caller.user, eid))
  {
  }

  ghost function ReadAll(s: State): State {
    AfterCloseRead(AfterCloseRead(AfterCloseRead(AfterCloseRead(s, 0), 0), 0), 0)
  }

  lemma FourReads(db: Db, caller: Principal)
    ensures var listed := ApprovedList(db.members);
            ReadAll(With(Idle(db), 0, CloseTx(caller, Exclusive))) ==
            With(Idle(db), 0, CloseTx(caller, GotRows(listed, Grouped(PayerOf(), db.expenses),
                                                    Grouped(CategoryOf(), db.expenses), AllocationRows(db.expenses))))
  {
  }

  lemma CloseScript(db: Db, caller: Principal)
    ensures var s := AfterCloseLock(AfterCloseAuthorize(Idle(db), 0, caller), 0);
            AfterCloseCommit(ReadAll(s), 0) == Idle(AfterClose(db, caller))
  {
    FourReads(db, caller);
    if MayAdminister(db.members, caller) && db.status == GroupOpen {
      assert AfterCloseLock(AfterCloseAuthorize(Idle(db), 0, caller), 0) ==
             With(Idle(db), 0, CloseTx(caller, Exclusive));
    } else {
      assert AfterCloseLock(AfterCloseAuthorize(Idle(db), 0, caller), 0) == Idle(db);
    }
  }

  ghost function Pay(s: State, caller: Principal, action: Action, pid: nat, content: string): State {
    AfterPayCount(AfterPayGuard(AfterPayProve(AfterPayRead(s, 0, caller, action, pid, content), 0), 0), 0)
  }

  lemma TransitionScript(db: Db, caller: Principal, action: Action, pid: nat, content: string)
    ensures var s := Pay(Idle(db), caller, action, pid, content);
            StillCounted(s, 0) && AfterPayCommit(s, 0) == Idle(AfterTransition(db, caller, action, pid, content))
  {
  }

  lemma {:induction false} ReachedConcat(s: State, a: seq<Event>, b: seq<Event>)
    ensures Reached(s, a + b) == Reached(Reached(s, a), b)
    ensures OrderlyRun(s, a) && OrderlyRun(Reached(s, a), b) ==> OrderlyRun(s, a + b)
    decreases |a|
  {
    if a == [] {
      assert a + b == b;
    } else {
      assert a + b == [a[0]] + (a[1..] + b);
      ReachedStep(s, a[0], a[1..] + b);
      ReachedConcat(After(s, a[0]), a[1..], b);
    }
  }

  lemma ThreeSteps(s: State, e0: Event, e1: Event, e2: Event)
    ensures Reached(s, [e0, e1, e2]) == After(After(After(s, e0), e1), e2)
    ensures OrderlyRun(s, [e0, e1, e2]) <==>
            IsOrderly(s, e0) && IsOrderly(After(s, e0), e1) && IsOrderly(After(After(s, e0), e1), e2)
  {
    assert [e0, e1, e2] == [e0] + ([e1] + ([e2] + []));
    ReachedStep(s, e0, [e1] + ([e2] + []));
    ReachedStep(After(s, e0), e1, [e2] + []);
    ReachedStep(After(After(s, e0), e1), e2, []);
  }

  /** A run through these states, each step orderly. */
  lemma ThroughThree(s: State, e0: Event, s1: State, e1: Event, s2: State, e2: Event, s3: State)
    requires After(s, e0) == s1 && After(s1, e1) == s2 && After(s2, e2) == s3
    ensures Reached(s, [e0, e1, e2]) == s3
    ensures IsOrderly(s, e0) && IsOrderly(s1, e1) && IsOrderly(s2, e2) ==> OrderlyRun(s, [e0, e1, e2])
  {
    ThreeSteps(s, e0, e1, e2);
  }

  lemma LastStep(s: State, e: Event)
    ensures Reached(s, [e]) == After(s, e)
    ensures OrderlyRun(s, [e]) <==> IsOrderly(s, e)
  {
    assert [e] == [e] + [];
    ReachedStep(s, e, []);
  }

  ghost predicate Performs(db: Db, events: seq<Event>, after: Db) {
    Reached(Idle(db), events) == Idle(after) && OrderlyRun(Idle(db), events)
  }

  lemma OneStatement(db: Db, e: Event)
    requires e.Join? || e.Decide? || e.HandOver?
    ensures Performs(db, [e], After(Idle(db), e).db)
  {
    assert [e] == [e] + [];
    ReachedStep(Idle(db), e, []);
  }

  lemma RemovalPerforms(db: Db, caller: Principal, u: UserId)
    ensures Performs(db, Script(RemoveMember(caller, u)), AfterRemoval(db, caller, u))
  {
    var check, delete := RemoveCheck(0, caller, u), RemoveDelete(0);
    assert [check, delete] == [check] + ([delete] + []);
    ReachedStep(Idle(db), check, [delete] + []);
    ReachedStep(After(Idle(db), check), delete, []);
    RemovalScript(db, caller, u);
  }

  lemma TwoSteps(s: State, e0: Event, s1: State, e1: Event, s2: State)
    requires After(s, e0) == s1 && After(s1, e1) == s2 && IsOrderly(s, e0) && IsOrderly(s1, e1)
    ensures Reached(s, [e0, e1]) == s2 && OrderlyRun(s, [e0, e1])
  {
    assert [e0, e1] == [e0] + [e1];
    ReachedStep(s, e0, [e1]);
    LastStep(s1, e1);
  }

  lemma LookupsLast(us: seq<UserId>)
    requires us != []
    ensures Lookups(us) == [ExpenseLookup(0, us[0])] + Lookups(us[1..])
  {
  }

  /** Without a transaction the statements of one change nothing. */
  lemma {:induction false} LookupsInVain(db: Db, us: seq<UserId>)
    ensures Reached(Idle(db), Lookups(us)) == Idle(db) && OrderlyRun(Idle(db), Lookups(us))
  {
    if us != [] {
      LookupsLast(us);
      ReachedStep(Idle(db), ExpenseLookup(0, us[0]), Lookups(us[1..]));
      LookupsInVain(db, us[1..]);
    }
  }

  predicate AllListedApproved(members: map<UserId, Membership>, us: seq<UserId>) {
    forall i :: 0 <= i < |us| ==> IsApproved(members, us[i])
  }

  function Users(us: seq<UserId>): set<UserId> {
    set i | 0 <= i < |us| :: us[i]
  }

  lemma UsersFirst(us: seq<UserId>)
    requires us != []
    ensures Users(us) == {us[0]} + Users(us[1..])
  {
    forall u | u in Users(us)
      ensures u in {us[0]} + Users(us[1..])
    {
      var i :| 0 <= i < |us| && us[i] == u;
      assert i > 0 ==> us[1..][i-1] == u;
    }
  }

  lemma LooksUp(db: Db, caller: Principal, e: Expense, seen: set<UserId>, u: UserId)
    requires u in e.shares
    ensures AfterExpenseLookup(Recorder(db, caller, e, seen), 0, u) ==
            if IsApproved(db.members, u) then Recorder(db, caller, e, seen + {u}) else Idle(db)
  {
  }

  /** The lookups pass when every named user is approved, and end the transaction
      otherwise. */
  lemma {:induction false} LookupsReach(db: Db, caller: Principal, e: Expense, seen: set<UserId>, us: seq<UserId>)
    requires Users(us) <= e.shares.Keys
    ensures Reached(Recorder(db, caller, e, seen), Lookups(us)) ==
            if AllListedApproved(db.members, us) then Recorder(db, caller, e, seen + Users(us)) else Idle(db)
    ensures OrderlyRun(Recorder(db, caller, e, seen), Lookups(us))
    decreases |us|
  {
    if us == [] {
      assert seen + Users(us) == seen;
    } else {
      var u := us[0];
      LookupsLast(us);
      UsersFirst(us);
      LooksUp(db, caller, e, seen, u);
      ReachedStep(Recorder(db, caller, e, seen), ExpenseLookup(0, u), Lookups(us[1..]));
      if IsApproved(db.members, u) {
        LookupsReach(db, caller, e, seen + {u}, us[1..]);
        assert seen + {u} + Users(us[1..]) == seen + Users(us);
        assert AllListedApproved(db.members, us) <==> AllListedApproved(db.members, us[1..]) by {
          assert us == [u] + us[1..];
        }
      } else {
        LookupsInVain(db, us[1..]);
      }
    }
  }

  lemma OrderedUsers(us: set<UserId>, members: map<UserId, Membership>)
    ensures Users(InOrder(us)) == us
    ensures AllListedApproved(members, InOrder(us)) <==> forall u :: u in us ==> IsApproved(members, u)
  {
    var listed := InOrder(us);
    InOrderIs(us);
    forall i | 0 <= i < |listed|
      ensures listed[i] in us
    {
      assert listed[i] in listed;
    }
    forall u | u in us
      ensures exists i :: 0 <= i < |listed| && listed[i] == u
    {
      assert u in listed;
    }
  }

  lemma AllLooked(db: Db, caller: Principal, e: Expense)
    ensures Reached(Recorder(db, caller, e, {}), Lookups(InOrder(e.shares.Keys))) ==
            if forall u :: u in e.shares ==> IsApproved(db.members, u)
            then Recorder(db, caller, e, e.shares.Keys) else Idle(db)
    ensures OrderlyRun(Recorder(db, caller, e, {}), Lookups(InOrder(e.shares.Keys)))
  {
    OrderedUsers(e.shares.Keys, db.members);
    LookupsReach(db, caller, e, {}, InOrder(e.shares.Keys));
    assert {} + e.shares.Keys == e.shares.Keys;
  }

  lemma EndsInVain(db: Db)
    ensures Reached(Idle(db), [ExpenseInsert(0), ExpenseCommit(0)]) == Idle(db)
    ensures OrderlyRun(Idle(db), [ExpenseInsert(0), ExpenseCommit(0)])
  {
    TwoSteps(Idle(db), ExpenseInsert(0), Idle(db), ExpenseCommit(0), Idle(db));
  }

  lemma Ends(db: Db, caller: Principal, e: Expense)
    requires HasId(db.members, e.paidBy)
    ensures var s, events := Recorder(db, caller, e, e.shares.Keys), [ExpenseInsert(0), ExpenseCommit(0)];
            Reached(s, events) == Idle(db.(expenses := db.expenses + [e])) && OrderlyRun(s, events)
  {
    var s := Recorder(db, caller, e, e.shares.Keys);
    RecordingEnds(db, caller, e);
    TwoSteps(s, ExpenseInsert(0), AfterExpenseInsert(s, 0), ExpenseCommit(0), Idle(db.(expenses := db.expenses + [e])));
  }

  /** From the state after the payer's lookup to the end. */
  lemma LooksAndEnds(db: Db, caller: Principal, e: Expense)
    requires HasId(db.members, e.paidBy)
    ensures var s := Recorder(db, caller, e, {});
            var events := Lookups(InOrder(e.shares.Keys)) + [ExpenseInsert(0), ExpenseCommit(0)];
            && OrderlyRun(s, events)
            && Reached(s, events) == if forall u :: u in e.shares ==> IsApproved(db.members, u)
                                     then Idle(db.(expenses := db.expenses + [e])) else Idle(db)
  {
    AllLooked(db, caller, e);
    Ends(db, caller, e);
    EndsInVain(db);
    ReachedConcat(Recorder(db, caller, e, {}), Lookups(InOrder(e.shares.Keys)), [ExpenseInsert(0), ExpenseCommit(0)]);
  }

  lemma LooksInVain(db: Db, us: seq<UserId>)
    ensures Reached(Idle(db), Lookups(us) + [ExpenseInsert(0), ExpenseCommit(0)]) == Idle(db)
    ensures OrderlyRun(Idle(db), Lookups(us) + [ExpenseInsert(0), ExpenseCommit(0)])
  {
    LookupsInVain(db, us);
    EndsInVain(db);
    ReachedConcat(Idle(db), Lookups(us), [ExpenseInsert(0), ExpenseCommit(0)]);
  }

  lemma RecordingStarts(db: Db, r: Request)
    requires r.RecordExpense?
    ensures var s1 := AfterExpenseLock(Idle(db), 0, r.caller, r.inRange);
            var events := [ExpenseLock(0, r.caller, r.inRange), ExpenseCheck(0, r.amount, r.category, r.shares)];
            && Reached(Idle(db), events) == AfterExpenseCheck(s1, 0, r.amount, r.category, r.shares)
            && OrderlyRun(Idle(db), events)
  {
    var s1 := AfterExpenseLock(Idle(db), 0, r.caller, r.inRange);
    TwoSteps(Idle(db), ExpenseLock(0, r.caller, r.inRange), s1, ExpenseCheck(0, r.amount, r.category, r.shares),
             AfterExpenseCheck(s1, 0, r.amount, r.category, r.shares));
  }

  lemma RecordingPerforms(db: Db, r: Request)
    requires r.RecordExpense?
    ensures Performs(db, Script(r), AfterRecording(db, r.caller.user, r.inRange, r.amount, r.category, r.shares))
  {
    var start := [ExpenseLock(0, r.caller, r.inRange), ExpenseCheck(0, r.amount, r.category, r.shares)];
    var rest := Lookups(InOrder(r.shares.Keys)) + [ExpenseInsert(0), ExpenseCommit(0)];
    RecordingStarts(db, r);
    RecordingChecks(db, r.caller, r.inRange, r.amount, r.category, r.shares);
    ReachedConcat(Idle(db), start, rest);
    if db.status == GroupOpen && r.inRange && IsApproved(db.members, r.caller.user) &&
       ValidRequest(r.amount, r.shares) {
      assert HasId(db.members, db.members[r.caller.user].id);
      LooksAndEnds(db, r.caller, Recording(db, r.caller.user, r.amount, r.category, r.shares));
    } else {
      LooksInVain(db, InOrder(r.shares.Keys));
    }
  }

  lemma UpdatePerforms(db: Db, r: Request)
    requires r.UpdateExpense?
    ensures Performs(db, Script(r), Served(db, r))
  {
    ThreeSteps(Idle(db), ExpenseLock(0, r.caller, r.inRange),
               ExpenseUpdate(0, r.eid, r.amount, r.category), ExpenseCommit(0));
    UpdateScript(db, r.caller, r.inRange, r.eid, r.amount, r.category);
  }

  lemma DeletionPerforms(db: Db, r: Request)
    requires r.DeleteExpense?
    ensures Performs(db, Script(r), Served(db, r))
  {
    ThreeSteps(Idle(db), ExpenseLock(0, r.caller, true), ExpenseDelete(0, r.eid), ExpenseCommit(0));
    DeletionScript(db, r.caller, r.eid);
  }

  lemma CloseLocks(db: Db, caller: Principal)
    ensures var s1 := AfterCloseAuthorize(Idle(db), 0, caller);
            var s2 := AfterCloseLock(s1, 0);
            var events := [CloseAuthorize(0, caller), CloseLock(0), CloseRead(0)];
            Reached(Idle(db), events) == AfterCloseRead(s2, 0) && OrderlyRun(Idle(db), events)
  {
    var s1 := AfterCloseAuthorize(Idle(db), 0, caller);
    var s2 := AfterCloseLock(s1, 0);
    ThroughThree(Idle(db), CloseAuthorize(0, caller), s1, CloseLock(0), s2, CloseRead(0), AfterCloseRead(s2, 0));
  }

  lemma CloseReads(s: State)
    ensures var t := AfterCloseRead(AfterCloseRead(AfterCloseRead(s, 0), 0), 0);
            var events := [CloseRead(0), CloseRead(0), CloseRead(0)];
            Reached(s, events) == t && OrderlyRun(s, events)
  {
    var s1 := AfterCloseRead(s, 0);
    var s2 := AfterCloseRead(s1, 0);
    ThroughThree(s, CloseRead(0), s1, CloseRead(0), s2, CloseRead(0), AfterCloseRead(s2, 0));
  }

  lemma ClosePerforms(db: Db, r: Request)
    requires r.CloseGroup?
    ensures Performs(db, Script(r), Served(db, r))
  {
    var locks := [CloseAuthorize(0, r.caller), CloseLock(0), CloseRead(0)];
    var reading := [CloseRead(0), CloseRead(0), CloseRead(0)];
    var s := Reached(Idle(db), locks);
    assert Script(r) == locks + (reading + [CloseCommit(0)]);
    CloseLocks(db, r.caller);
    CloseReads(s);
    LastStep(Reached(s, reading), CloseCommit(0));
    ReachedConcat(s, reading, [CloseCommit(0)]);
    ReachedConcat(Idle(db), locks, reading + [CloseCommit(0)]);
    CloseScript(db, r.caller);
  }

  lemma PayStarts(db: Db, caller: Principal, action: Action, pid: nat, content: string)
    ensures var s1 := AfterPayRead(Idle(db), 0, caller, action, pid, content);
            var events := [PayRead(0, caller, action, pid, content), PayProve(0)];
            Reached(Idle(db), events) == AfterPayProve(s1, 0) && OrderlyRun(Idle(db), events)
  {
    var s1 := AfterPayRead(Idle(db), 0, caller, action, pid, content);
    TwoSteps(Idle(db), PayRead(0, caller, action, pid, content), s1, PayProve(0), AfterPayProve(s1, 0));
  }

  lemma PayGoesOn(s: State)
    ensures Reached(s, [PayGuard(0), PayCount(0)]) == AfterPayCount(AfterPayGuard(s, 0), 0)
    ensures OrderlyRun(s, [PayGuard(0), PayCount(0)])
  {
    var s1 := AfterPayGuard(s, 0);
    TwoSteps(s, PayGuard(0), s1, PayCount(0), AfterPayCount(s1, 0));
  }

  lemma PayReaches(db: Db, caller: Principal, action: Action, pid: nat, content: string)
    ensures var events := [PayRead(0, caller, action, pid, content), PayProve(0)] + [PayGuard(0), PayCount(0)];
            Reached(Idle(db), events) == Pay(Idle(db), caller, action, pid, content) && OrderlyRun(Idle(db), events)
  {
    var start := [PayRead(0, caller, action, pid, content), PayProve(0)];
    PayStarts(db, caller, action, pid, content);
    PayGoesOn(Reached(Idle(db), start));
    ReachedConcat(Idle(db), start, [PayGuard(0), PayCount(0)]);
  }

  lemma TransitionPerforms(db: Db, r: Request)
    requires r.TransitionPayment?
    ensures Performs(db, Script(r), AfterTransition(db, r.caller, r.action, r.pid, r.content))
  {
    var events := [PayRead(0, r.caller, r.action, r.pid, r.content), PayProve(0)] + [PayGuard(0), PayCount(0)];
    assert Script(r) == events + [PayCommit(0)];
    PayReaches(db, r.caller, r.action, r.pid, r.content);
    TransitionScript(db, r.caller, r.action, r.pid, r.content);
    LastStep(Reached(Idle(db), events), PayCommit(0));
    ReachedConcat(Idle(db), events, [PayCommit(0)]);
  }

  /** Alone, the statements of a request have exactly its effect, and are orderly. */
  lemma ServedAsOne(db: Db, r: Request)
    ensures Performs(db, Script(r), Served(db, r))
  {
    match r
    case RequestToJoin(caller) => OneStatement(db, Join(caller));
    case DecideMember(caller, u, approve) => OneStatement(db, Decide(caller, u, approve));
    case TransferAdmin(caller, u) => OneStatement(db, HandOver(caller, u));
    case RemoveMember(caller, u) => RemovalPerforms(db, caller, u);
    case RecordExpense(_, _, _, _, _) => RecordingPerforms(db, r);
    case UpdateExpense(_, _, _, _, _) => UpdatePerforms(db, r);
    case DeleteExpense(_, _) => DeletionPerforms(db, r);
    case CloseGroup(_) => ClosePerforms(db, r);
    case TransitionPayment(_, _, _, _) => TransitionPerforms(db, r);
  }

  // ---------------------------------------------------------------------------
  // One request after the other

  /** Rows between requests: everything that any orderly run keeps. */
  ghost predicate Sound(db: Db) {
    DbOk(db) && Fair(db)
  }

  /** Serving a request keeps all of it. */
  lemma ServedIsSound(db: Db, r: Request)
    requires Sound(db)
    ensures Sound(Served(db, r))
  {
    ServedAsOne(db, r);
    RunFair(Idle(db), Script(r));
  }

  /** The payments of a close between requests never violate their foreign keys. */
  lemma EndsOfPlanExist(db: Db, user: UserId)
    requires Sound(db) && db.status == GroupOpen
    ensures MayClose(db, RunNow(db, user))
  {
    var listed := ApprovedList(db.members);
    var bs := BalancesOf(listed, db.expenses);
    ApprovedListIs(db.members);
    forall k | 0 <= k < |Plan(bs)|
      ensures Plan(bs)[k].from in db.members && Plan(bs)[k].to in db.members
    {
      PlanConnects(bs, k);
    }
    assert RunNow(db, user).snapshot.members == bs;
  }

  ghost function ServedAll(db: Db, rs: seq<Request>): Db
    decreases |rs|
  {
    if rs == [] then db else ServedAll(Served(db, rs[0]), rs[1..])
  }

  ghost function Scripts(rs: seq<Request>): seq<Event> {
    if rs == [] then [] else Script(rs[0]) + Scripts(rs[1..])
  }

  lemma {:induction false} ServedAllPerforms(db: Db, rs: seq<Request>)
    ensures Performs(db, Scripts(rs), ServedAll(db, rs))
    decreases |rs|
  {
    if rs != [] {
      ServedAsOne(db, rs[0]);
      ServedAllPerforms(Served(db, rs[0]), rs[1..]);
      ReachedConcat(Idle(db), Script(rs[0]), Scripts(rs[1..]));
    }
  }

  lemma {:induction false} ServedAllSound(db: Db, rs: seq<Request>)
    requires Sound(db)
    ensures Sound(ServedAll(db, rs))
    decreases |rs|
  {
    if rs != [] {
      ServedIsSound(db, rs[0]);
      ServedAllSound(Served(db, rs[0]), rs[1..]);
    }
  }

  lemma {:induction false} ServedConcat(db: Db, a: seq<Request>, b: seq<Request>)
    ensures ServedAll(db, a + b) == ServedAll(ServedAll(db, a), b)
    decreases |a|
  {
    if a == [] {
      assert a + b == b;
    } else {
      assert (a + b)[1..] == a[1..] + b;
      ServedConcat(Served(db, a[0]), a[1..], b);
    }
  }

  /** Whatever requests are served one after the other, the rows are among those
      that orderly runs of the concurrent protocol reach. */
  lemma SerialIsOrderly(admin: UserId, rs: seq<Request>)
    ensures OrderlyReachable(ServedAll(Created(admin).db, rs))
  {
    ServedAllPerforms(Created(admin).db, rs);
    assert Created(admin) == Idle(Created(admin).db);
    assert OrderlyRun(Created(admin), Scripts(rs));
  }

  /** What requests, served one after the other since its creation, have made of a group. */
  ghost predicate ServiceReached(db: Db) {
    exists admin: UserId, rs: seq<Request> :: db == ServedAll(Created(admin).db, rs)
  }

  lemma CreationIsReached(admin: UserId)
    ensures ServiceReached(Created(admin).db)
  {
    assert ServedAll(Created(admin).db, []) == Created(admin).db;
  }

  lemma ServedIsReached(db: Db, r: Request)
    requires ServiceReached(db)
    ensures ServiceReached(Served(db, r))
  {
    var admin: UserId, rs: seq<Request> :| db == ServedAll(Created(admin).db, rs);
    ServedConcat(Created(admin).db, rs, [r]);
    assert ServedAll(db, [r]) == Served(db, r);
  }

  /** Everything proved of orderly runs holds of it. */
  lemma ReachedIsSound(db: Db)
    requires ServiceReached(db)
    ensures Sound(db) && OrderlyReachable(db)
  {
    var admin: UserId, rs: seq<Request> :| db == ServedAll(Created(admin).db, rs);
    SerialIsOrderly(admin, rs);
    CreatedOk(admin);
    CreatedFair(admin);
    ServedAllSound(Created(admin).db, rs);
  }
}
