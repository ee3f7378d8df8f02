/** Roles are real: over every run, whoever the log shows acting as group admin
    was the approved admin at some earlier moment of the run, whoever it shows
    acting as global admin called as one, and so did whoever closed the group. */
module Roles {
  import opened Ids
  import opened TwoKey
  import opened Lifecycle
  import opened Invariants
  import opened Protocol
  import opened Guarantees
  import S = Serial

  /** The event is a call in the role of global admin that can lead to a step. */
  predicate ByGlobal(e: Event, u: UserId) {
    (e.PayRead? || e.CloseAuthorize?) && e.caller.user == u && e.caller.isGlobalAdmin
  }

  /** The roles of an actor are among those that these users have had. */
  ghost predicate Acted(a: Actor, u: UserId, admins: iset<UserId>, globals: iset<UserId>) {
    && (a.isGroupAdmin ==> u in admins)
    && (a.isGlobalAdmin ==> u in globals)
  }

  ghost predicate TxReal(tx: Tx, admins: iset<UserId>, globals: iset<UserId>) {
    && (tx.PayTx? ==> Acted(tx.actor, tx.caller.user, admins, globals))
    && (tx.CloseTx? ==> tx.caller.user in admins + globals)
  }

  ghost predicate DbReal(db: Db, admins: iset<UserId>, globals: iset<UserId>) {
    && (forall k :: 0 <= k < |db.log| ==> Acted(db.log[k].actor, db.log[k].user, admins, globals))
    && (forall k :: 0 <= k < |db.runs| ==> db.runs[k].computedBy in admins + globals)
  }

  ghost predicate Real(s: State, admins: iset<UserId>, globals: iset<UserId>) {
    DbReal(s.db, admins, globals) && forall t :: t in s.txs ==> TxReal(s.txs[t], admins, globals)
  }

  /** The present admins and the caller of the event are accounted for. */
  ghost predicate Accounted(s: State, e: Event, admins: iset<UserId>, globals: iset<UserId>) {
    && (forall u :: IsAdmin(s.db.members, u) ==> u in admins)
    && (forall u :: ByGlobal(e, u) ==> u in globals)
  }

  lemma StartsReal(s: State, e: Event, admins: iset<UserId>, globals: iset<UserId>)
    requires Real(s, admins, globals) && Accounted(s, e, admins, globals) && (e.PayRead? || e.CloseAuthorize?)
    ensures Real(After(s, e), admins, globals)
  {
  }

  lemma CommitsReal(s: State, e: Event, admins: iset<UserId>, globals: iset<UserId>)
    requires Real(s, admins, globals) && (e.PayCommit? || e.CloseCommit?)
    ensures Real(After(s, e), admins, globals)
  {
    assert e.tid in s.txs ==> TxReal(s.txs[e.tid], admins, globals);
  }

  lemma PayGoesOnReal(s: State, e: Event, admins: iset<UserId>, globals: iset<UserId>)
    requires Real(s, admins, globals) && (e.PayProve? || e.PayGuard? || e.PayCount?)
    ensures Real(After(s, e), admins, globals)
  {
    assert e.tid in s.txs ==> TxReal(s.txs[e.tid], admins, globals);
  }

  lemma CloseGoesOnReal(s: State, e: Event, admins: iset<UserId>, globals: iset<UserId>)
    requires Real(s, admins, globals) && (e.CloseLock? || e.CloseRead?)
    ensures Real(After(s, e), admins, globals)
  {
    assert e.tid in s.txs ==> TxReal(s.txs[e.tid], admins, globals);
  }

  lemma ExpenseReal(s: State, e: Event, admins: iset<UserId>, globals: iset<UserId>)
    requires Real(s, admins, globals) && IsExpenseEvent(e)
    ensures Real(After(s, e), admins, globals)
  {
  }

  lemma EventReal(s: State, e: Event, admins: iset<UserId>, globals: iset<UserId>)
    requires Real(s, admins, globals) && Accounted(s, e, admins, globals)
    ensures Real(After(s, e), admins, globals)
  {
    if e.PayRead? || e.CloseAuthorize? {
      StartsReal(s, e, admins, globals);
    } else if e.PayCommit? || e.CloseCommit? {
      CommitsReal(s, e, admins, globals);
    } else if IsPayEvent(e) {
      PayGoesOnReal(s, e, admins, globals);
    } else if IsCloseEvent(e) {
      CloseGoesOnReal(s, e, admins, globals);
    } else if IsExpenseEvent(e) {
      ExpenseReal(s, e, admins, globals);
    }
  }

  // ---------------------------------------------------------------------------
  // Over a run

  /** The approved admin of the group after some beginning of the run. */
  ghost predicate WasAdmin(admin: UserId, events: seq<Event>, u: UserId) {
    exists n :: 0 <= n <= |events| && IsAdmin(Reached(Created(admin), events[..n]).db.members, u)
  }

  predicate CalledAsGlobal(events: seq<Event>, u: UserId) {
    exists n :: 0 <= n < |events| && ByGlobal(events[n], u)
  }

  ghost function Admins(admin: UserId, events: seq<Event>): iset<UserId> {
    iset u | WasAdmin(admin, events, u)
  }

  ghost function Globals(events: seq<Event>): iset<UserId> {
    iset u | CalledAsGlobal(events, u)
  }

  lemma LongerRun(admin: UserId, events: seq<Event>, u: UserId)
    requires events != []
    ensures var front := events[..|events|-1];
            && (WasAdmin(admin, front, u) ==> WasAdmin(admin, events, u))
            && (CalledAsGlobal(front, u) ==> CalledAsGlobal(events, u))
            && (IsAdmin(Reached(Created(admin), front).db.members, u) ==> WasAdmin(admin, events, u))
            && (ByGlobal(events[|events|-1], u) ==> CalledAsGlobal(events, u))
  {
    var m := |events| - 1;
    var front := events[..m];
    if WasAdmin(admin, front, u) {
      var n :| 0 <= n <= m && IsAdmin(Reached(Created(admin), front[..n]).db.members, u);
      assert front[..n] == events[..n];
    }
    if CalledAsGlobal(front, u) {
      var n :| 0 <= n < m && ByGlobal(front[n], u);
      assert events[n] == front[n];
    }
  }

  lemma MoreReal(s: State, a: iset<UserId>, g: iset<UserId>, a': iset<UserId>, g': iset<UserId>)
    requires Real(s, a, g) && a <= a' && g <= g'
    ensures Real(s, a', g')
  {
  }

  lemma LastEvent(s: State, events: seq<Event>)
    requires events != []
    ensures Reached(s, events) == After(Reached(s, events[..|events|-1]), events[|events|-1])
  {
    var m := |events| - 1;
    assert events == events[..m] + [events[m]];
    S.ReachedConcat(s, events[..m], [events[m]]);
    S.LastStep(Reached(s, events[..m]), events[m]);
  }

  lemma {:induction false} RolesAreReal(admin: UserId, events: seq<Event>)
    ensures Real(Reached(Created(admin), events), Admins(admin, events), Globals(events))
    decreases |events|
  {
    if events != [] {
      var front, e := events[..|events|-1], events[|events|-1];
      RolesAreReal(admin, front);
      var s := Reached(Created(admin), front);
      forall u
        ensures u in Admins(admin, front) ==> u in Admins(admin, events)
        ensures u in Globals(front) ==> u in Globals(events)
        ensures IsAdmin(s.db.members, u) ==> u in Admins(admin, events)
        ensures ByGlobal(e, u) ==> u in Globals(events)
      {
        LongerRun(admin, events, u);
      }
      MoreReal(s, Admins(admin, front), Globals(front), Admins(admin, events), Globals(events));
      EventReal(s, e, Admins(admin, events), Globals(events));
      LastEvent(Created(admin), events);
    }
  }

  lemma {:induction false} HistoryReal(log: seq<TwoKey.Entry>, pid: nat, admins: iset<UserId>, globals: iset<UserId>)
    requires forall k :: 0 <= k < |log| ==> Acted(log[k].actor, log[k].user, admins, globals)
    ensures forall i :: 0 <= i < |HistoryOf(log, pid)| ==>
              Acted(HistoryOf(log, pid)[i].actor, HistoryOf(log, pid)[i].user, admins, globals)
  {
    if log != [] {
      HistoryReal(log[..|log|-1], pid, admins, globals);
    }
  }

  /** A settled payment was settled by somebody else than its debtor, who had been
      the group's approved admin or called as global admin; by override only as the latter. */
  lemma SettledByAnAdmin(admin: UserId, events: seq<Event>, pid: nat)
    requires var db := Reached(Created(admin), events).db; pid < |db.payments| && IsSettled(db.payments[pid])
    ensures var db := Reached(Created(admin), events).db;
            var h := HistoryOf(db.log, pid);
            && h != []
            && var last := h[|h|-1];
            && last.user != db.payments[pid].from
            && (WasAdmin(admin, events, last.user) || CalledAsGlobal(events, last.user))
            && (last.tag == LabelSettledOverride ==> CalledAsGlobal(events, last.user))
  {
    var db := Reached(Created(admin), events).db;
    RolesAreReal(admin, events);
    HistoryReal(db.log, pid, Admins(admin, events), Globals(events));
    assert Reachable(db);
    SettledTookTwoKeys(db, pid);
    var h := HistoryOf(db.log, pid);
    assert Acted(h[|h|-1].actor, h[|h|-1].user, Admins(admin, events), Globals(events));
  }

  /** A group was closed by somebody who had been its approved admin or called as global admin. */
  lemma ClosedByAnAdmin(admin: UserId, events: seq<Event>)
    requires Reached(Created(admin), events).db.runs != []
    ensures var closer := Reached(Created(admin), events).db.runs[0].computedBy;
            WasAdmin(admin, events, closer) || CalledAsGlobal(events, closer)
  {
    RolesAreReal(admin, events);
  }
}
