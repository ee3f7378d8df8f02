/** Where memberships come from and what becomes of them: over every run, whatever
    interleaves, each was asked for by its own user and is decided at most once, by
    an admin, for good. */
module Memberships {
  import opened Ids
  import opened Tables
  import opened Lifecycle
  import opened Invariants
  import opened Protocol
  import S = Serial
  import Roles

  /** A global admin, or an approved admin of the group. */
  predicate Administers(members: map<UserId, Membership>, caller: Principal) {
    caller.isGlobalAdmin ||
    (caller.user in members && members[caller.user].role == GroupAdmin && members[caller.user].standing == Approved)
  }

  // ---------------------------------------------------------------------------
  // One event

  /** This event is the request that makes this membership. */
  predicate Asks(db: Db, e: Event, u: UserId, id: MembershipId) {
    && e.Join? && e.caller.user == u && e.caller.verified
    && db.status == GroupOpen && u !in db.members && db.nextId == id
  }

  /** This event is the decision about this membership. */
  predicate Decides(db: Db, e: Event, u: UserId, id: MembershipId, standing: Standing) {
    && e.Decide? && e.user == u && Administers(db.members, e.caller)
    && u in db.members && db.members[u].id == id && db.members[u].standing == Requested
    && standing == if e.approve then Approved else Rejected
  }

  /** What one event makes of the row of one user: it appears when asked for, is
      decided when requested, and keeps its id. */
  lemma RowAfter(s: State, e: Event, u: UserId)
    ensures var was, now := s.db.members, After(s, e).db.members;
            && (u !in was ==> (u in now <==> Asks(s.db, e, u, s.db.nextId)))
            && (u !in was && u in now ==> now[u] == Membership(s.db.nextId, Member, Requested))
            && (u in was && u !in now ==> e.RemoveDelete?)
            && (u in was && u in now ==>
                  now[u].id == was[u].id &&
                  (now[u].standing == was[u].standing || Decides(s.db, e, u, was[u].id, now[u].standing)))
    ensures s.db.nextId <= After(s, e).db.nextId
    ensures (exists v :: Asks(s.db, e, v, s.db.nextId)) ==> After(s, e).db.nextId == s.db.nextId + 1
  {
  }

  /** A decision takes effect. */
  lemma DecisionHolds(s: State, e: Event, u: UserId, id: MembershipId, standing: Standing)
    requires Decides(s.db, e, u, id, standing)
    ensures u in After(s, e).db.members
    ensures After(s, e).db.members[u] == Membership(id, s.db.members[u].role, standing)
  {
  }

  // ---------------------------------------------------------------------------
  // Over a run

  ghost function StateAt(admin: UserId, events: seq<Event>, k: nat): State
    requires k <= |events|
  {
    Reached(Created(admin), events[..k])
  }

  ghost predicate AskedAt(admin: UserId, events: seq<Event>, k: nat, u: UserId, id: MembershipId)
    requires k < |events|
  {
    Asks(StateAt(admin, events, k).db, events[k], u, id)
  }

  ghost predicate DecidedAt(admin: UserId, events: seq<Event>, k: nat, u: UserId, id: MembershipId, standing: Standing)
    requires k < |events|
  {
    Decides(StateAt(admin, events, k).db, events[k], u, id, standing)
  }

  lemma AtFront(admin: UserId, events: seq<Event>, k: nat)
    requires k < |events|
    ensures k < |events| - 1 ==> StateAt(admin, events[..|events|-1], k) == StateAt(admin, events, k)
    ensures Reached(Created(admin), events) ==
            After(StateAt(admin, events, |events| - 1), events[|events|-1])
  {
    Roles.LastEvent(Created(admin), events);
    if k < |events| - 1 {
      assert events[..|events|-1][..k] == events[..k];
    }
  }

  /** Every membership but the founder's was asked for by its own user, who was
      verified, while the group was open. */
  lemma {:induction false} AskedFor(admin: UserId, events: seq<Event>, u: UserId)
    requires u in Reached(Created(admin), events).db.members
    ensures var id := Reached(Created(admin), events).db.members[u].id;
            || (id == 0 && u == admin)
            || exists k :: 0 <= k < |events| && AskedAt(admin, events, k, u, id)
    decreases |events|
  {
    if events != [] {
      var n := |events| - 1;
      var front, s := events[..n], StateAt(admin, events, n);
      var id := Reached(Created(admin), events).db.members[u].id;
      AtFront(admin, events, n);
      RowAfter(s, events[n], u);
      if u in s.db.members {
        AskedFor(admin, front, u);
        if !(id == 0 && u == admin) {
          var k :| 0 <= k < n && AskedAt(admin, front, k, u, id);
          AtFront(admin, events, k);
          assert AskedAt(admin, events, k, u, id);
        }
      } else {
        assert AskedAt(admin, events, n, u, id);
      }
    }
  }

  /** ... and if it is approved or rejected, an admin has decided so. */
  lemma {:induction false} WasDecided(admin: UserId, events: seq<Event>, u: UserId)
    requires u in Reached(Created(admin), events).db.members
    ensures var m := Reached(Created(admin), events).db.members[u];
            || m.standing == Requested
            || (m.id == 0 && u == admin && m.standing == Approved)
            || exists k :: 0 <= k < |events| && DecidedAt(admin, events, k, u, m.id, m.standing)
    decreases |events|
  {
    if events != [] {
      var n := |events| - 1;
      var front, s := events[..n], StateAt(admin, events, n);
      var m := Reached(Created(admin), events).db.members[u];
      AtFront(admin, events, n);
      RowAfter(s, events[n], u);
      if u in s.db.members && s.db.members[u].standing == m.standing {
        WasDecided(admin, front, u);
        if m.standing != Requested && !(m.id == 0 && u == admin && m.standing == Approved) {
          var k :| 0 <= k < n && DecidedAt(admin, front, k, u, m.id, m.standing);
          AtFront(admin, events, k);
          assert DecidedAt(admin, events, k, u, m.id, m.standing);
        }
      } else if u in s.db.members {
        assert DecidedAt(admin, events, n, u, m.id, m.standing);
      }
    }
  }

  // ---------------------------------------------------------------------------
  // For good

  /** This id is this user's, with this standing, or nobody's any more. */
  predicate Sealed(db: Db, u: UserId, id: MembershipId, standing: Standing) {
    && id < db.nextId
    && forall v :: v in db.members && db.members[v].id == id ==> v == u && db.members[v].standing == standing
  }

  lemma EventSeals(s: State, e: Event, u: UserId, id: MembershipId, standing: Standing)
    requires Sealed(s.db, u, id, standing) && standing != Requested
    ensures Sealed(After(s, e).db, u, id, standing)
  {
    var now := After(s, e).db.members;
    RowAfter(s, e, u);
    forall v | v in now && now[v].id == id
      ensures v == u && now[v].standing == standing
    {
      RowAfter(s, e, v);
    }
  }

  /** A decision is never taken back and never taken again: whatever follows, nobody
      has the membership any more, or it is still this user's and as decided. */
  lemma {:induction false} DecidedForGood(s: State, events: seq<Event>, u: UserId, id: MembershipId, standing: Standing)
    requires Sealed(s.db, u, id, standing) && standing != Requested
    ensures Sealed(Reached(s, events).db, u, id, standing)
    decreases |events|
  {
    if events != [] {
      EventSeals(s, events[0], u, id, standing);
      DecidedForGood(After(s, events[0]), events[1..], u, id, standing);
    }
  }

  lemma DecisionSeals(s: State, e: Event, u: UserId, id: MembershipId, standing: Standing)
    requires MembersOk(s.db) && Decides(s.db, e, u, id, standing)
    ensures Sealed(After(s, e).db, u, id, standing)
  {
    var now := After(s, e).db.members;
    DecisionHolds(s, e, u, id, standing);
    RowAfter(s, e, u);
    forall v | v in now && now[v].id == id
      ensures v == u
    {
      RowAfter(s, e, v);
    }
  }

  lemma RunBetween(admin: UserId, events: seq<Event>, j: nat, k: nat)
    requires j < k <= |events|
    ensures StateAt(admin, events, k) == Reached(After(StateAt(admin, events, j), events[j]), events[j+1..k])
  {
    assert events[..k] == events[..j] + ([events[j]] + events[j+1..k]);
    S.ReachedConcat(Created(admin), events[..j], [events[j]] + events[j+1..k]);
    S.ReachedStep(StateAt(admin, events, j), events[j], events[j+1..k]);
  }

  lemma NotAgain(admin: UserId, events: seq<Event>, j: nat, k: nat, u: UserId, v: UserId, id: MembershipId,
                 one: Standing, other: Standing)
    requires j < k < |events| && DecidedAt(admin, events, j, u, id, one)
    ensures !DecidedAt(admin, events, k, v, id, other)
  {
    var s := StateAt(admin, events, j);
    CreatedOk(admin);
    RunKeeps(Created(admin), events[..j]);
    DecisionSeals(s, events[j], u, id, one);
    RunBetween(admin, events, j, k);
    DecidedForGood(After(s, events[j]), events[j+1..k], u, id, one);
  }

  /** A membership is decided once. */
  lemma DecidedOnce(admin: UserId, events: seq<Event>, j: nat, k: nat, u: UserId, v: UserId, id: MembershipId,
                    one: Standing, other: Standing)
    requires j < |events| && k < |events|
    requires DecidedAt(admin, events, j, u, id, one) && DecidedAt(admin, events, k, v, id, other)
    ensures j == k && u == v && one == other
  {
    if j < k {
      NotAgain(admin, events, j, k, u, v, id, one, other);
    } else if k < j {
      NotAgain(admin, events, k, j, v, u, id, other, one);
    }
  }
}
