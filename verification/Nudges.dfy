/** `RunNudges`: reminders for payments that have sat idle, never two of a kind
    within the threshold of the later one. */
module Nudges {
  import opened Ids
  import opened TwoKey

  /** Times are counted in seconds. */
  function Hours(h: int): int {
    h * 3600
  }

  datatype NudgeType = NudgeDebtor | NudgeCreditor

  datatype Key = Key(pid: nat, recipient: UserId, kind: NudgeType)

  datatype Row = Row(from: UserId, to: UserId, amount: int, status: Status, updatedAt: int)

  datatype Nudge = Nudge(key: Key, amount: int)

  // ---------------------------------------------------------------------------
  // ListStalePayments

  predicate IsStale(p: Row, now: int, hours: nat) {
    (p.status == Pending || p.status == ProofSubmitted) && p.updatedAt < now - Hours(hours)
  }

  /** The stale payments by number, in the order of their creation. */
  function StaleBefore(ps: seq<Row>, now: int, hours: nat, n: nat): seq<nat>
    requires n <= |ps|
  {
    if n == 0 then []
    else StaleBefore(ps, now, hours, n - 1) + if IsStale(ps[n-1], now, hours) then [n - 1] else []
  }

  function Stale(ps: seq<Row>, now: int, hours: nat): seq<nat> {
    StaleBefore(ps, now, hours, |ps|)
  }

  lemma {:induction false} StaleIs(ps: seq<Row>, now: int, hours: nat, n: nat)
    requires n <= |ps|
    ensures forall i :: 0 <= i < |StaleBefore(ps, now, hours, n)| ==>
              var k := StaleBefore(ps, now, hours, n)[i]; k < n && IsStale(ps[k], now, hours)
    ensures forall i, j :: 0 <= i < j < |StaleBefore(ps, now, hours, n)| ==>
              StaleBefore(ps, now, hours, n)[i] < StaleBefore(ps, now, hours, n)[j]
  {
    if n > 0 {
      StaleIs(ps, now, hours, n - 1);
    }
  }

  /** Listed are exactly the payments that are pending or have a submitted proof and
      were last updated longer ago than the threshold. */
  lemma StaleIff(ps: seq<Row>, now: int, hours: nat, k: nat)
    requires k < |ps|
    ensures k in Stale(ps, now, hours) <==>
            ps[k].status in {Pending, ProofSubmitted} && ps[k].updatedAt < now - 3600 * hours
  {
    StaleUpTo(ps, now, hours, |ps|, k);
  }

  lemma {:induction false} StaleUpTo(ps: seq<Row>, now: int, hours: nat, n: nat, k: nat)
    requires n <= |ps| && k < |ps|
    ensures k in StaleBefore(ps, now, hours, n) <==> k < n && IsStale(ps[k], now, hours)
  {
    if n > 0 {
      StaleUpTo(ps, now, hours, n - 1, k);
    }
  }

  /** Whoever holds things up: the debtor of a pending payment, the creditor of
      one with a submitted proof. */
  function NudgeFor(pid: nat, p: Row): Nudge {
    if p.status == Pending then Nudge(Key(pid, p.from, NudgeDebtor), p.amount)
    else Nudge(Key(pid, p.to, NudgeCreditor), p.amount)
  }

  /** The reminders of these upserts, with the amounts of their payments. */
  predicate Reports(ps: seq<Row>, out: seq<Nudge>, sent: seq<Attempt>) {
    && |out| == |sent|
    && forall j :: 0 <= j < |out| ==>
         out[j].key == sent[j].key && out[j].key.pid < |ps| && out[j].amount == ps[out[j].key.pid].amount
  }

  // ---------------------------------------------------------------------------
  // UpsertNudge

  /** One upsert at some time, and the log of those that sent. */
  datatype Attempt = Attempt(key: Key, now: int, hours: nat)

  datatype Notifications = Notifications(lastSent: map<Key, int>, sent: seq<Attempt>)

  /** The insert succeeds, or the conflicting row is older than the threshold. */
  predicate Sends(lastSent: map<Key, int>, a: Attempt) {
    a.key in lastSent ==> lastSent[a.key] < a.now - Hours(a.hours)
  }

  function Upserted(n: Notifications, a: Attempt): Notifications {
    if Sends(n.lastSent, a) then Notifications(n.lastSent[a.key := a.now], n.sent + [a]) else n
  }

  function AllUpserted(n: Notifications, attempts: seq<Attempt>): Notifications {
    if attempts == [] then n
    else Upserted(AllUpserted(n, attempts[..|attempts|-1]), attempts[|attempts|-1])
  }

  // ---------------------------------------------------------------------------
  // RunNudges

  /** The upsert for a payment, at the time at which its turn comes. */
  function AttemptFor(ps: seq<Row>, k: nat, hours: nat, clock: seq<int>): Attempt
    requires k < |ps| == |clock|
  {
    Attempt(NudgeFor(k, ps[k]).key, clock[k], hours)
  }

  /** The upserts of one run. */
  function AttemptsOf(ps: seq<Row>, stale: seq<nat>, hours: nat, clock: seq<int>): (r: seq<Attempt>)
    requires |clock| == |ps| && forall i :: 0 <= i < |stale| ==> stale[i] < |ps|
    ensures |r| == |stale|
  {
    seq(|stale|, i requires 0 <= i < |stale| => AttemptFor(ps, stale[i], hours, clock))
  }

  /** The upserts are for later and later payments. */
  predicate InPaymentOrder(attempts: seq<Attempt>) {
    forall i, j :: 0 <= i < j < |attempts| ==> attempts[i].key.pid < attempts[j].key.pid
  }

  /** What upserts with different keys add to what was sent: those that would send
      on their own. */
  predicate Adds(n: Notifications, attempts: seq<Attempt>, added: seq<Attempt>) {
    && (forall i :: 0 <= i < |attempts| ==> (attempts[i] in added <==> Sends(n.lastSent, attempts[i])))
    && (forall j :: 0 <= j < |added| ==> added[j] in attempts)
    && InPaymentOrder(added)
  }

  lemma {:induction false} AddedAre(n: Notifications, attempts: seq<Attempt>) returns (added: seq<Attempt>)
    requires InPaymentOrder(attempts)
    ensures AllUpserted(n, attempts).sent == n.sent + added && Adds(n, attempts, added)
    ensures TableIs(n.lastSent, AllUpserted(n, attempts).lastSent, added)
  {
    if attempts == [] {
      added := [];
    } else {
      var last := |attempts| - 1;
      var front := attempts[..last];
      var before := AddedAre(n, front);
      assert attempts == front + [attempts[last]];
      var so := AllUpserted(n, front);
      KeyIsLater(front, attempts[last], before);
      added := before + if Sends(n.lastSent, attempts[last]) then [attempts[last]] else [];
      OneAdded(n, front, attempts[last], so, before, added);
    }
  }

  /** A key that was not sent to before is decided by the table of the start. */
  lemma OneAdded(n: Notifications, front: seq<Attempt>, a: Attempt, so: Notifications, before: seq<Attempt>,
                 added: seq<Attempt>)
    requires Adds(n, front, before) && TableIs(n.lastSent, so.lastSent, before) && so.sent == n.sent + before
    requires InPaymentOrder(front + [a])
    requires added == before + if Sends(n.lastSent, a) then [a] else []
    ensures Upserted(so, a).sent == n.sent + added && Adds(n, front + [a], added)
    ensures TableIs(n.lastSent, Upserted(so, a).lastSent, added)
  {
    KeyIsLater(front, a, before);
    assert !HasKey(before, a.key);
    assert Sends(so.lastSent, a) <==> Sends(n.lastSent, a);
    AddsOne(n, front, a, before, added);
    if Sends(n.lastSent, a) {
      assert added == before + [a];
      assert n.sent + before + [a] == n.sent + added;
      TableOne(n.lastSent, so.lastSent, before, a);
    } else {
      assert added == before;
    }
  }

  lemma AddsOne(n: Notifications, front: seq<Attempt>, a: Attempt, before: seq<Attempt>, added: seq<Attempt>)
    requires Adds(n, front, before) && InPaymentOrder(front + [a])
    requires added == before + if Sends(n.lastSent, a) then [a] else []
    ensures Adds(n, front + [a], added)
  {
    KeyIsLater(front, a, before);
    var all := front + [a];
    forall i | 0 <= i < |all|
      ensures all[i] in added <==> Sends(n.lastSent, all[i])
    {
      if i < |front| {
        assert all[i] == front[i] && front[i] != a;
      }
    }
  }

  lemma TableOne(was: map<Key, int>, lastSent: map<Key, int>, before: seq<Attempt>, a: Attempt)
    requires TableIs(was, lastSent, before) && !HasKey(before, a.key)
    ensures TableIs(was, lastSent[a.key := a.now], before + [a])
  {
    var added := before + [a];
    forall key
      ensures HasKey(added, key) <==> HasKey(before, key) || key == a.key
    {
      assert added[|before|] == a;
      if HasKey(before, key) {
        var j :| 0 <= j < |before| && before[j].key == key;
        assert added[j].key == key;
      }
    }
  }

  lemma KeyIsLater(front: seq<Attempt>, a: Attempt, added: seq<Attempt>)
    requires InPaymentOrder(front + [a]) && forall j :: 0 <= j < |added| ==> added[j] in front
    ensures forall j :: 0 <= j < |added| ==> added[j].key.pid < a.key.pid
    ensures forall i :: 0 <= i < |front| ==> front[i].key.pid < a.key.pid
  {
    var all := front + [a];
    forall i | 0 <= i < |front|
      ensures front[i].key.pid < a.key.pid
    {
      assert all[i] == front[i] && all[|front|] == a;
    }
  }

  predicate HasKey(added: seq<Attempt>, key: Key) {
    exists j :: 0 <= j < |added| && added[j].key == key
  }

  /** The table differs by the added entries alone. */
  ghost predicate TableIs(was: map<Key, int>, lastSent: map<Key, int>, added: seq<Attempt>) {
    && (forall j :: 0 <= j < |added| ==> added[j].key in lastSent && lastSent[added[j].key] == added[j].now)
    && (forall key :: key in lastSent <==> key in was || HasKey(added, key))
    && (forall key :: key in was && !HasKey(added, key) ==> lastSent[key] == was[key])
  }

  // ---------------------------------------------------------------------------
  // What a run comes to, payment by payment

  /** The payments that have waited longer than the threshold. */
  function Idle(ps: seq<Row>, now: int, hours: nat): set<nat> {
    set k | 0 <= k < |ps| && ps[k].status in {Pending, ProofSubmitted} && ps[k].updatedAt < now - 3600 * hours
  }

  /** No reminder of this key within the threshold. */
  predicate Unreminded(lastSent: map<Key, int>, key: Key, now: int, hours: nat) {
    key in lastSent ==> lastSent[key] < now - 3600 * hours
  }

  /** It has waited, and whoever it waits for has not been reminded. */
  predicate IsDue(lastSent: map<Key, int>, p: Row, k: nat, now: int, hours: nat, turn: int) {
    && p.updatedAt < now - 3600 * hours
    && match p.status
       case Pending => Unreminded(lastSent, Key(k, p.from, NudgeDebtor), turn, hours)
       case ProofSubmitted => Unreminded(lastSent, Key(k, p.to, NudgeCreditor), turn, hours)
       case _ => false
  }

  /** A reminder tells the debtor of a pending payment, or the creditor of one with
      a submitted proof, of its amount. */
  predicate IsReminder(ps: seq<Row>, n: Nudge)
    requires n.key.pid < |ps|
  {
    var p := ps[n.key.pid];
    && n.amount == p.amount
    && match p.status
       case Pending => n.key.recipient == p.from && n.key.kind == NudgeDebtor
       case ProofSubmitted => n.key.recipient == p.to && n.key.kind == NudgeCreditor
       case _ => false
  }

  predicate IsReported(out: seq<Nudge>, k: nat) {
    exists j :: 0 <= j < |out| && out[j].key.pid == k
  }

  predicate IsKeyOf(out: seq<Nudge>, key: Key) {
    exists j :: 0 <= j < |out| && out[j].key == key
  }

  lemma AttemptsInOrder(ps: seq<Row>, now: int, hours: nat, clock: seq<int>)
    requires |clock| == |ps|
    ensures (StaleIs(ps, now, hours, |ps|);
             InPaymentOrder(AttemptsOf(ps, Stale(ps, now, hours), hours, clock)))
  {
    StaleIs(ps, now, hours, |ps|);
  }

  /** The upserts of a run are those of the idle payments. */
  lemma AttemptIff(ps: seq<Row>, now: int, hours: nat, clock: seq<int>, k: nat, attempts: seq<Attempt>)
    requires |clock| == |ps| && k < |ps|
    requires (StaleIs(ps, now, hours, |ps|); attempts == AttemptsOf(ps, Stale(ps, now, hours), hours, clock))
    ensures k in Idle(ps, now, hours) ==> AttemptFor(ps, k, hours, clock) in attempts
    ensures forall a :: a in attempts && a.key.pid == k ==>
              a == AttemptFor(ps, k, hours, clock) && k in Idle(ps, now, hours)
  {
    StaleIs(ps, now, hours, |ps|);
    StaleIff(ps, now, hours, k);
    var stale := Stale(ps, now, hours);
    if k in Idle(ps, now, hours) {
      var i :| 0 <= i < |stale| && stale[i] == k;
      assert attempts[i] == AttemptFor(ps, k, hours, clock);
    }
    forall a | a in attempts && a.key.pid == k
      ensures a == AttemptFor(ps, k, hours, clock) && k in Idle(ps, now, hours)
    {
      var i :| 0 <= i < |attempts| && attempts[i] == a;
      assert stale[i] == k;
    }
  }

  lemma SentIff(ps: seq<Row>, now: int, hours: nat, clock: seq<int>, k: nat, n: Notifications,
                attempts: seq<Attempt>, added: seq<Attempt>, out: seq<Nudge>)
    requires |clock| == |ps| && k < |ps| && Adds(n, attempts, added) && Reports(ps, out, added)
    requires (StaleIs(ps, now, hours, |ps|); attempts == AttemptsOf(ps, Stale(ps, now, hours), hours, clock))
    ensures IsReported(out, k) <==> IsDue(n.lastSent, ps[k], k, now, hours, clock[k])
    ensures forall j :: 0 <= j < |out| && out[j].key.pid == k ==> IsReminder(ps, out[j]) && added[j].now == clock[k]
  {
    AttemptIff(ps, now, hours, clock, k, attempts);
    var a := AttemptFor(ps, k, hours, clock);
    forall j | 0 <= j < |out| && out[j].key.pid == k
      ensures added[j] == a && k in Idle(ps, now, hours) && Sends(n.lastSent, a)
    {
      assert added[j] in attempts;
    }
    if IsDue(n.lastSent, ps[k], k, now, hours, clock[k]) {
      assert k in Idle(ps, now, hours) && Sends(n.lastSent, a);
      assert a in attempts && a in added;
      var j :| 0 <= j < |added| && added[j] == a;
      assert out[j].key.pid == k;
    }
  }

  lemma {:induction false} StaleCount(ps: seq<Row>, now: int, hours: nat, n: nat)
    requires n <= |ps|
    ensures |StaleBefore(ps, now, hours, n)| == |Idle(ps[..n], now, hours)|
  {
    if n > 0 {
      StaleCount(ps, now, hours, n - 1);
      assert ps[..n][..n-1] == ps[..n-1];
      assert Idle(ps[..n], now, hours) ==
             Idle(ps[..n-1], now, hours) + if IsStale(ps[n-1], now, hours) then {n - 1} else {};
    } else {
      assert Idle(ps[..0], now, hours) == {};
    }
  }

  lemma TableAfter(was: map<Key, int>, lastSent: map<Key, int>, ps: seq<Row>, clock: seq<int>,
                   added: seq<Attempt>, out: seq<Nudge>)
    requires |clock| == |ps| && TableIs(was, lastSent, added) && Reports(ps, out, added)
    requires forall j :: 0 <= j < |out| ==> added[j].now == clock[out[j].key.pid]
    ensures forall key :: key in lastSent <==> key in was || IsKeyOf(out, key)
    ensures forall key :: key in lastSent ==>
              lastSent[key] == if IsKeyOf(out, key) && key.pid < |clock| then clock[key.pid] else was[key]
  {
    forall key
      ensures IsKeyOf(out, key) <==> HasKey(added, key)
      ensures IsKeyOf(out, key) ==> key in lastSent && key.pid < |clock| && lastSent[key] == clock[key.pid]
    {
      if IsKeyOf(out, key) {
        var j :| 0 <= j < |out| && out[j].key == key;
        assert added[j].key == key;
      }
      if HasKey(added, key) {
        var j :| 0 <= j < |added| && added[j].key == key;
        assert out[j].key == key;
      }
    }
  }

  /** The whole effect of a run. */
  ghost predicate RunIs(was: map<Key, int>, lastSent: map<Key, int>, ps: seq<Row>, now: int, hours: nat,
                        clock: seq<int>, out: seq<Nudge>)
    requires |clock| == |ps|
  {
    && (forall k :: 0 <= k < |ps| ==> (IsReported(out, k) <==> IsDue(was, ps[k], k, now, hours, clock[k])))
    && (forall j :: 0 <= j < |out| ==> out[j].key.pid < |ps| && IsReminder(ps, out[j]))
    && (forall i, j :: 0 <= i < j < |out| ==> out[i].key.pid < out[j].key.pid)
    && (forall key :: key in lastSent <==> key in was || IsKeyOf(out, key))
    && (forall key :: key in lastSent ==>
          lastSent[key] == if IsKeyOf(out, key) && key.pid < |clock| then clock[key.pid] else was[key])
  }

  lemma RunComesTo(n: Notifications, ps: seq<Row>, now: int, hours: nat, clock: seq<int>, after: Notifications,
                   out: seq<Nudge>)
    requires |clock| == |ps| && |n.sent| <= |after.sent| && Reports(ps, out, after.sent[|n.sent|..])
    requires (StaleIs(ps, now, hours, |ps|);
              after == AllUpserted(n, AttemptsOf(ps, Stale(ps, now, hours), hours, clock)))
    ensures RunIs(n.lastSent, after.lastSent, ps, now, hours, clock, out)
  {
    StaleIs(ps, now, hours, |ps|);
    var attempts := AttemptsOf(ps, Stale(ps, now, hours), hours, clock);
    AttemptsInOrder(ps, now, hours, clock);
    var added := AddedAre(n, attempts);
    assert after.sent[|n.sent|..] == added;
    forall k | 0 <= k < |ps|
      ensures IsReported(out, k) <==> IsDue(n.lastSent, ps[k], k, now, hours, clock[k])
      ensures forall j :: 0 <= j < |out| && out[j].key.pid == k ==> IsReminder(ps, out[j]) && added[j].now == clock[k]
    {
      SentIff(ps, now, hours, clock, k, n, attempts, added, out);
    }
    TableAfter(n.lastSent, after.lastSent, ps, clock, added, out);
  }

  class Reminders {
    var lastSent: map<Key, int>
    /** Every reminder ever sent, for the specification only. */
    ghost var sent: seq<Attempt>

    ghost function View(): Notifications
      reads this
    {
      Notifications(lastSent, sent)
    }

    constructor ()
      ensures View() == Notifications(map[], [])
    {
      lastSent := map[];
      sent := [];
    }

    /** INSERT ... ON CONFLICT DO UPDATE ... WHERE last_sent_at < now() - hours. */
    method UpsertNudge(a: Attempt) returns (ok: bool)
      modifies this
      ensures View() == Upserted(old(View()), a)
      ensures ok == Sends(old(lastSent), a)
    {
      ok := Sends(lastSent, a);
      if ok {
        lastSent := lastSent[a.key := a.now];
        sent := sent + [a];
      }
    }

    /** One turn of the loop. */
    method NudgeOne(ps: seq<Row>, k: nat, hours: nat, clock: seq<int>, ghost was: seq<Attempt>, out: seq<Nudge>)
      returns (ok: bool, out': seq<Nudge>)
      requires k < |ps| == |clock|
      requires |was| <= |sent| && Reports(ps, out, sent[|was|..])
      modifies this
      ensures View() == Upserted(old(View()), AttemptFor(ps, k, hours, clock))
      ensures |was| <= |sent| && Reports(ps, out', sent[|was|..])
      ensures |out'| == |out| + if ok then 1 else 0
    {
      var nudge := NudgeFor(k, ps[k]);
      ghost var before := sent;
      ok := UpsertNudge(Attempt(nudge.key, clock[k], hours));
      out' := if ok then out + [nudge] else out;
      assert sent[|was|..] == before[|was|..] + if ok then [AttemptFor(ps, k, hours, clock)] else [];
    }

    /** One run: an upsert per stale payment, in order; those that send are
        reported, the others counted. Reported is a payment if and only if it is
        pending or has a submitted proof, was last updated longer ago than the
        threshold, and whoever it waits for was not reminded within it. */
    method RunNudges(ps: seq<Row>, now: int, hours: nat, clock: seq<int>) returns (out: seq<Nudge>, skipped: nat)
      requires |clock| == |ps|
      modifies this
      ensures RunIs(old(lastSent), lastSent, ps, now, hours, clock, out)
      ensures |out| + skipped == |Idle(ps, now, hours)|
      ensures (StaleIs(ps, now, hours, |ps|);
               View() == AllUpserted(old(View()), AttemptsOf(ps, Stale(ps, now, hours), hours, clock)))
    {
      var stale := Stale(ps, now, hours);
      StaleIs(ps, now, hours, |ps|);
      ghost var attempts := AttemptsOf(ps, stale, hours, clock);
      out, skipped := [], 0;
      var i := 0;
      while i < |stale|
        invariant 0 <= i <= |stale|
        invariant |out| + skipped == i
        invariant |sent| >= |old(sent)| && Reports(ps, out, sent[|old(sent)|..])
        invariant View() == AllUpserted(old(View()), attempts[..i])
      {
        assert attempts[..i+1][..i] == attempts[..i];
        var ok;
        ok, out := NudgeOne(ps, stale[i], hours, clock, old(sent), out);
        if !ok {
          skipped := skipped + 1;
        }
        i := i + 1;
      }
      assert attempts[..i] == attempts;
      RunComesTo(old(View()), ps, now, hours, clock, View(), out);
      StaleCount(ps, now, hours, |ps|);
      assert ps[..|ps|] == ps;
    }
  }

  // ---------------------------------------------------------------------------
  // Spacing

  /** Any two reminders of a kind are further apart than the later one's threshold. */
  predicate Spaced(sent: seq<Attempt>) {
    forall i, j :: 0 <= i < j < |sent| && sent[i].key == sent[j].key ==>
      sent[j].now - sent[i].now > Hours(sent[j].hours)
  }

  /** The table holds, for each key ever sent to, a time that no reminder is later than. */
  predicate Current(n: Notifications) {
    forall i :: 0 <= i < |n.sent| ==> n.sent[i].key in n.lastSent && n.sent[i].now <= n.lastSent[n.sent[i].key]
  }

  lemma UpsertKeepsSpacing(n: Notifications, a: Attempt)
    requires Current(n) && Spaced(n.sent)
    ensures Current(Upserted(n, a)) && Spaced(Upserted(n, a).sent)
  {
  }

  /** However many runs with whatever thresholds interleave their upserts, and
      whatever their clocks say: two reminders of one kind to one recipient about
      one payment are more than the later one's threshold apart. */
  lemma {:induction false} RemindersAreSpaced(attempts: seq<Attempt>)
    ensures Current(AllUpserted(Notifications(map[], []), attempts))
    ensures Spaced(AllUpserted(Notifications(map[], []), attempts).sent)
  {
    if attempts != [] {
      var n := |attempts| - 1;
      RemindersAreSpaced(attempts[..n]);
      UpsertKeepsSpacing(AllUpserted(Notifications(map[], []), attempts[..n]), attempts[n]);
    }
  }

  predicate DistinctKeys(attempts: seq<Attempt>) {
    forall i, j :: 0 <= i < j < |attempts| ==> attempts[i].key != attempts[j].key
  }

  /** A run reminds nobody twice: its stale payments are different ones. */
  lemma RunHasDistinctKeys(ps: seq<Row>, now: int, hours: nat, clock: seq<int>)
    requires |clock| == |ps|
    ensures (StaleIs(ps, now, hours, |ps|);
             DistinctKeys(AttemptsOf(ps, Stale(ps, now, hours), hours, clock)))
  {
    StaleIs(ps, now, hours, |ps|);
  }

  lemma {:induction false} AfterItsTurn(n: Notifications, attempts: seq<Attempt>, i: nat)
    requires DistinctKeys(attempts) && i < |attempts|
    ensures !Sends(AllUpserted(n, attempts).lastSent, attempts[i])
  {
    var last := |attempts| - 1;
    if i < last {
      AfterItsTurn(n, attempts[..last], i);
      assert attempts[..last][i] == attempts[i];
    }
  }

  lemma {:induction false} SentGrows(n: Notifications, attempts: seq<Attempt>)
    ensures |AllUpserted(n, attempts).sent| >= |n.sent|
  {
    if attempts != [] {
      SentGrows(n, attempts[..|attempts|-1]);
    }
  }

  /** Upserts change nothing exactly when none of them would send on its own. */
  lemma {:induction false} NothingSentIff(n: Notifications, attempts: seq<Attempt>)
    ensures AllUpserted(n, attempts) == n <==> forall i :: 0 <= i < |attempts| ==> !Sends(n.lastSent, attempts[i])
  {
    if attempts != [] {
      var last := |attempts| - 1;
      var front := attempts[..last];
      NothingSentIff(n, front);
      SentGrows(n, front);
      assert attempts == front + [attempts[last]];
      assert AllUpserted(n, attempts) == Upserted(AllUpserted(n, front), attempts[last]);
    }
  }

  predicate SameKeys(attempts: seq<Attempt>, again: seq<Attempt>) {
    |again| == |attempts| && forall i :: 0 <= i < |again| ==> again[i].key == attempts[i].key
  }

  /** A run made once more, at whatever times and with whatever threshold, sends
      nothing and changes nothing if and only if each of its keys was last sent to
      no longer ago than the threshold; at the same times it never does. */
  lemma RunIsIdempotent(n: Notifications, attempts: seq<Attempt>, again: seq<Attempt>)
    requires DistinctKeys(attempts) && SameKeys(attempts, again)
    ensures var after := AllUpserted(n, attempts);
            && (forall i :: 0 <= i < |again| ==> again[i].key in after.lastSent)
            && (AllUpserted(after, again) == after <==>
                forall i :: 0 <= i < |again| ==>
                  again[i].now - after.lastSent[again[i].key] <= Hours(again[i].hours))
            && (again == attempts ==> AllUpserted(after, again) == after)
  {
    var after := AllUpserted(n, attempts);
    forall i | 0 <= i < |attempts|
      ensures attempts[i].key in after.lastSent && !Sends(after.lastSent, attempts[i])
    {
      AfterItsTurn(n, attempts, i);
    }
    NothingSentIff(after, again);
  }

  // ---------------------------------------------------------------------------
  // What has been sent decides what is sent next

  predicate IsSent(sent: seq<Attempt>, key: Key, now: int) {
    exists i :: 0 <= i < |sent| && sent[i].key == key && sent[i].now == now
  }

  /** Each time in the table is that of a reminder. */
  predicate Traced(n: Notifications) {
    forall k :: k in n.lastSent ==> IsSent(n.sent, k, n.lastSent[k])
  }

  /** A reminder of this key was sent no longer ago than the threshold. */
  predicate SentWithin(sent: seq<Attempt>, a: Attempt) {
    exists i :: 0 <= i < |sent| && sent[i].key == a.key && a.now - sent[i].now <= Hours(a.hours)
  }

  lemma UpsertKeepsTrace(n: Notifications, a: Attempt)
    requires Traced(n)
    ensures Traced(Upserted(n, a))
  {
    if Sends(n.lastSent, a) {
      var after := Upserted(n, a);
      assert after.sent[|n.sent|] == a;
      forall k | k in after.lastSent
        ensures IsSent(after.sent, k, after.lastSent[k])
      {
        if k != a.key {
          var i :| 0 <= i < |n.sent| && n.sent[i].key == k && n.sent[i].now == n.lastSent[k];
          assert after.sent[i] == n.sent[i];
        }
      }
    }
  }

  lemma {:induction false} TableIsTraced(attempts: seq<Attempt>)
    ensures Traced(AllUpserted(Notifications(map[], []), attempts))
  {
    if attempts != [] {
      TableIsTraced(attempts[..|attempts|-1]);
      UpsertKeepsTrace(AllUpserted(Notifications(map[], []), attempts[..|attempts|-1]), attempts[|attempts|-1]);
    }
  }

  lemma SendsUnlessSent(n: Notifications, a: Attempt)
    requires Current(n) && Traced(n)
    ensures Sends(n.lastSent, a) <==> !SentWithin(n.sent, a)
  {
    if a.key in n.lastSent {
      assert IsSent(n.sent, a.key, n.lastSent[a.key]);
    }
  }

  /** After whatever upserts: further ones send nothing if and only if for each of
      them a reminder of its key was sent no longer ago than its threshold. */
  lemma SendsNothingIff(attempts: seq<Attempt>, again: seq<Attempt>)
    ensures var n := AllUpserted(Notifications(map[], []), attempts);
            AllUpserted(n, again) == n <==> forall i :: 0 <= i < |again| ==> SentWithin(n.sent, again[i])
  {
    var n := AllUpserted(Notifications(map[], []), attempts);
    RemindersAreSpaced(attempts);
    TableIsTraced(attempts);
    NothingSentIff(n, again);
    forall i | 0 <= i < |again|
      ensures Sends(n.lastSent, again[i]) <==> !SentWithin(n.sent, again[i])
    {
      SendsUnlessSent(n, again[i]);
    }
  }
}
