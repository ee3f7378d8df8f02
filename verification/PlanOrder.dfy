/** Who pays whom: the plan goes through the debtors from the largest debt and
    through the creditors from the largest credit, and it is the only list of
    transfers that does so, pays exactly and names no pair twice. */
module PlanOrder {
  import opened Sums
  import opened Ids
  import opened Planner
  import opened PlanBounds

  // ---------------------------------------------------------------------------
  // The plan follows the two lines

  function Payers(ts: seq<Transfer>): (r: seq<UserId>)
    ensures |r| == |ts| && forall k :: 0 <= k < |ts| ==> r[k] == ts[k].from
  {
    seq(|ts|, k requires 0 <= k < |ts| => ts[k].from)
  }

  function Receivers(ts: seq<Transfer>): (r: seq<UserId>)
    ensures |r| == |ts| && forall k :: 0 <= k < |ts| ==> r[k] == ts[k].to
  {
    seq(|ts|, k requires 0 <= k < |ts| => ts[k].to)
  }

  /** These users stand at these places of the line, one after the other. */
  predicate Follows(s: seq<Acct>, users: seq<UserId>, places: seq<nat>) {
    && |places| == |users|
    && (forall k :: 0 <= k < |places| ==> places[k] < |s| && s[places[k]].user == users[k])
    && (forall i, j :: 0 <= i < j < |places| ==> places[i] <= places[j])
  }

  /** Where the accounts of what a transfer leaves stood before it. */
  function Shifted(net: int, places: seq<nat>): (r: seq<nat>)
    ensures |r| == |places|
    ensures forall k :: 0 <= k < |places| ==> r[k] == if net == 0 then places[k] + 1 else places[k]
  {
    seq(|places|, k requires 0 <= k < |places| => if net == 0 then places[k] + 1 else places[k])
  }

  lemma FollowsMore(s: seq<Acct>, net: int, users: seq<UserId>, places: seq<nat>)
    requires s != [] && Follows(Rest(s, net), users, places)
    ensures Follows(s, [s[0].user] + users, [0] + Shifted(net, places))
  {
    var all := [0] + Shifted(net, places);
    forall k | 0 <= k < |all|
      ensures all[k] < |s| && s[all[k]].user == ([s[0].user] + users)[k]
    {
      if k > 0 {
        assert Rest(s, net)[places[k-1]].user == users[k-1];
      }
    }
  }

  lemma NamesOfMore(t: Transfer, ts: seq<Transfer>)
    ensures Payers([t] + ts) == [t.from] + Payers(ts) && Receivers([t] + ts) == [t.to] + Receivers(ts)
  {
  }

  /** The matching goes through both lines from the front to the back. */
  lemma {:induction false} GreedyFollows(ds: seq<Acct>, cs: seq<Acct>) returns (ps: seq<nat>, qs: seq<nat>)
    ensures Follows(ds, Payers(Greedy(ds, cs)), ps) && Follows(cs, Receivers(Greedy(ds, cs)), qs)
    decreases |ds| + |cs|
  {
    if ds == [] || cs == [] {
      ps, qs := [], [];
    } else {
      var t := Payment(ds[0], cs[0]);
      var ds', cs' := Rest(ds, ds[0].net + t.amount), Rest(cs, cs[0].net - t.amount);
      AfterOne(ds, cs, t);
      ps, qs := GreedyFollows(ds', cs');
      ps, qs := OneFollows(ds, cs, t, Greedy(ds', cs'), ps, qs);
    }
  }

  lemma OneFollows(ds: seq<Acct>, cs: seq<Acct>, t: Transfer, rest: seq<Transfer>, ps: seq<nat>, qs: seq<nat>)
    returns (ps': seq<nat>, qs': seq<nat>)
    requires ds != [] && cs != [] && t == Payment(ds[0], cs[0])
    requires Follows(Rest(ds, ds[0].net + t.amount), Payers(rest), ps)
    requires Follows(Rest(cs, cs[0].net - t.amount), Receivers(rest), qs)
    ensures Follows(ds, Payers([t] + rest), ps') && Follows(cs, Receivers([t] + rest), qs')
  {
    ps', qs' := [0] + Shifted(ds[0].net + t.amount, ps), [0] + Shifted(cs[0].net - t.amount, qs);
    FollowsMore(ds, ds[0].net + t.amount, Payers(rest), ps);
    FollowsMore(cs, cs[0].net - t.amount, Receivers(rest), qs);
    NamesOfMore(t, rest);
  }

  lemma {:induction false} AcctIsBalance(side: Side, bs: seq<MemberBalance>, a: Acct) returns (k: nat)
    requires a in AcctsOf(side, bs)
    ensures k < |bs| && a == Acct(bs[k].user, bs[k].net)
  {
    var n := |bs| - 1;
    if a in AcctsOf(side, bs[..n]) {
      k := AcctIsBalance(side, bs[..n], a);
    } else {
      k := n;
    }
  }

  /** An account on the line of a member has that member's net. */
  lemma LineNet(side: Side, bs: seq<MemberBalance>, p: nat, k: nat)
    requires DistinctUsers(bs) && p < |Line(side, bs)| && k < |bs| && bs[k].user == Line(side, bs)[p].user
    ensures Line(side, bs)[p].net == bs[k].net
  {
    LineMembers(side, bs, p);
    var i := AcctIsBalance(side, bs, Line(side, bs)[p]);
    assert i == k;
  }

  /** Who stands further front on the line of debtors owes more, or as much with the
      smaller user id; on the line of creditors, is owed more. */
  lemma FrontIsLarger(bs: seq<MemberBalance>, side: Side, p: nat, q: nat)
    requires p < q < |Line(side, bs)| && Line(side, bs)[p].user != Line(side, bs)[q].user
    ensures var a, b := Line(side, bs)[p], Line(side, bs)[q];
            || (a.net == b.net && Less(a.user, b.user))
            || if side.Debtors? then a.net < b.net else a.net > b.net
  {
    ArrangedIsSorted(side, AcctsOf(side, bs));
    RanksIsTotal(side, Line(side, bs)[p], Line(side, bs)[q]);
  }

  lemma FollowersAreOrdered(bs: seq<MemberBalance>, side: Side, users: seq<UserId>, places: seq<nat>, i: nat, j: nat,
                            p: nat, q: nat)
    requires DistinctUsers(bs) && Follows(Line(side, bs), users, places)
    requires i < j < |users| && p < |bs| && q < |bs| && bs[p].user == users[i] && bs[q].user == users[j] && p != q
    ensures || (bs[p].net == bs[q].net && Less(bs[p].user, bs[q].user))
            || if side.Debtors? then bs[p].net < bs[q].net else bs[p].net > bs[q].net
  {
    LineNet(side, bs, places[i], p);
    LineNet(side, bs, places[j], q);
    FrontIsLarger(bs, side, places[i], places[j]);
  }

  /** Of two transfers by different payers the earlier is by the larger debtor, or
      by the smaller user id where both owe the same. */
  lemma PayersAreOrdered(bs: seq<MemberBalance>, i: nat, j: nat, p: nat, q: nat)
    requires DistinctUsers(bs) && i < j < |Plan(bs)| && p < |bs| && q < |bs| && p != q
    requires bs[p].user == Plan(bs)[i].from && bs[q].user == Plan(bs)[j].from
    ensures bs[p].net < bs[q].net || (bs[p].net == bs[q].net && Less(bs[p].user, bs[q].user))
  {
    var ps, qs := GreedyFollows(Line(Debtors, bs), Line(Creditors, bs));
    FollowersAreOrdered(bs, Debtors, Payers(Plan(bs)), ps, i, j, p, q);
  }

  /** Of two transfers to different receivers the earlier is to the larger creditor,
      or to the smaller user id where both are owed the same. */
  lemma ReceiversAreOrdered(bs: seq<MemberBalance>, i: nat, j: nat, p: nat, q: nat)
    requires DistinctUsers(bs) && i < j < |Plan(bs)| && p < |bs| && q < |bs| && p != q
    requires bs[p].user == Plan(bs)[i].to && bs[q].user == Plan(bs)[j].to
    ensures bs[p].net > bs[q].net || (bs[p].net == bs[q].net && Less(bs[p].user, bs[q].user))
  {
    var ps, qs := GreedyFollows(Line(Debtors, bs), Line(Creditors, bs));
    FollowersAreOrdered(bs, Creditors, Receivers(Plan(bs)), qs, i, j, p, q);
  }

  // ---------------------------------------------------------------------------
  // Two lines leave one choice

  predicate DistinctAccts(s: seq<Acct>) {
    forall i, j :: 0 <= i < j < |s| ==> s[i].user != s[j].user
  }

  /** No two transfers are between the same two users. */
  predicate PairsOnce(ts: seq<Transfer>) {
    forall i, j :: 0 <= i < j < |ts| ==> ts[i].from != ts[j].from || ts[i].to != ts[j].to
  }

  predicate Positive(ts: seq<Transfer>) {
    forall k :: 0 <= k < |ts| ==> ts[k].amount > 0
  }

  predicate SendsAll(ds: seq<Acct>, ts: seq<Transfer>) {
    forall p :: 0 <= p < |ds| ==> Sent(ts, ds[p].user) == -ds[p].net
  }

  predicate ReceivesAll(cs: seq<Acct>, ts: seq<Transfer>) {
    forall q :: 0 <= q < |cs| ==> Received(ts, cs[q].user) == cs[q].net
  }

  /** The transfers go along the line of debtors and pay exactly what stands there. */
  predicate DebtorsPay(ds: seq<Acct>, ts: seq<Transfer>, ps: seq<nat>) {
    AllOnSide(Debtors, ds) && DistinctAccts(ds) && Follows(ds, Payers(ts), ps) && SendsAll(ds, ts)
  }

  predicate CreditorsGet(cs: seq<Acct>, ts: seq<Transfer>, qs: seq<nat>) {
    AllOnSide(Creditors, cs) && DistinctAccts(cs) && Follows(cs, Receivers(ts), qs) && ReceivesAll(cs, ts)
  }

  predicate Fulfils(ds: seq<Acct>, cs: seq<Acct>, ts: seq<Transfer>, ps: seq<nat>, qs: seq<nat>) {
    DebtorsPay(ds, ts, ps) && CreditorsGet(cs, ts, qs) && Positive(ts) && PairsOnce(ts)
  }

  lemma {:induction false} SomebodySends(ts: seq<Transfer>, u: UserId) returns (k: nat)
    requires Sent(ts, u) != 0
    ensures k < |ts| && ts[k].from == u
  {
    if ts[0].from == u {
      k := 0;
    } else {
      k := SomebodySends(ts[1..], u);
      k := k + 1;
    }
  }

  lemma {:induction false} SomebodyReceives(ts: seq<Transfer>, u: UserId) returns (k: nat)
    requires Received(ts, u) != 0
    ensures k < |ts| && ts[k].to == u
  {
    if ts[0].to == u {
      k := 0;
    } else {
      k := SomebodyReceives(ts[1..], u);
      k := k + 1;
    }
  }

  lemma {:induction false} SentIsPositive(ts: seq<Transfer>, u: UserId)
    requires Positive(ts)
    ensures Sent(ts, u) >= 0 && ((exists k :: 0 <= k < |ts| && ts[k].from == u) ==> Sent(ts, u) > 0)
  {
    if ts != [] {
      SentIsPositive(ts[1..], u);
      if k :| 0 <= k < |ts| && ts[k].from == u {
        assert k > 0 ==> ts[1..][k-1].from == u;
      }
    }
  }

  lemma {:induction false} ReceivedIsPositive(ts: seq<Transfer>, u: UserId)
    requires Positive(ts)
    ensures Received(ts, u) >= 0 && ((exists k :: 0 <= k < |ts| && ts[k].to == u) ==> Received(ts, u) > 0)
  {
    if ts != [] {
      ReceivedIsPositive(ts[1..], u);
      if k :| 0 <= k < |ts| && ts[k].to == u {
        assert k > 0 ==> ts[1..][k-1].to == u;
      }
    }
  }

  /** If somebody later still stands at the front of the line, so does the next. */
  lemma FrontFirst(s: seq<Acct>, users: seq<UserId>, places: seq<nat>, i: nat, k: nat)
    requires DistinctAccts(s) && Follows(s, users, places) && i <= k < |users| && s != [] && users[k] == s[0].user
    ensures users[i] == s[0].user && places[i] == 0
  {
    assert places[k] == 0;
  }

  lemma FirstPays(ds: seq<Acct>, cs: seq<Acct>, ts: seq<Transfer>, ps: seq<nat>, qs: seq<nat>)
    requires Fulfils(ds, cs, ts, ps, qs) && ds != [] && cs != []
    ensures ts != [] && ts[0].from == ds[0].user && ts[0].to == cs[0].user
  {
    assert OnSide(Debtors, ds[0].net) && OnSide(Creditors, cs[0].net);
    var k := SomebodySends(ts, ds[0].user);
    FrontFirst(ds, Payers(ts), ps, 0, k);
    var l := SomebodyReceives(ts, cs[0].user);
    FrontFirst(cs, Receivers(ts), qs, 0, l);
  }

  lemma FirstSums(ts: seq<Transfer>, u: UserId)
    requires ts != []
    ensures Sent(ts, u) == (if ts[0].from == u then ts[0].amount else 0) + Sent(ts[1..], u)
    ensures Received(ts, u) == (if ts[0].to == u then ts[0].amount else 0) + Received(ts[1..], u)
  {
  }

  lemma NextPairDiffers(ts: seq<Transfer>)
    requires PairsOnce(ts) && |ts| > 1
    ensures ts[1].from != ts[0].from || ts[1].to != ts[0].to
  {
  }

  /** What the first transfer leaves open on both sides would name its pair again. */
  lemma FirstPaysFully(ds: seq<Acct>, cs: seq<Acct>, ts: seq<Transfer>, ps: seq<nat>, qs: seq<nat>)
    requires Fulfils(ds, cs, ts, ps, qs) && ds != [] && cs != []
    ensures ts != [] && ts[0] == Payment(ds[0], cs[0])
  {
    FirstPays(ds, cs, ts, ps, qs);
    FirstSums(ts, ds[0].user);
    FirstSums(ts, cs[0].user);
    SentIsPositive(ts[1..], ds[0].user);
    ReceivedIsPositive(ts[1..], cs[0].user);
    assert ts[0].amount <= -ds[0].net && ts[0].amount <= cs[0].net;
    if ts[0].amount < -ds[0].net && ts[0].amount < cs[0].net {
      var k := SomebodySends(ts[1..], ds[0].user);
      var l := SomebodyReceives(ts[1..], cs[0].user);
      NextPairDiffers(ts);
      FrontFirst(ds, Payers(ts), ps, 1, k + 1);
      FrontFirst(cs, Receivers(ts), qs, 1, l + 1);
      assert false;
    }
  }

  /** The places on the line that the first transfer leaves. */
  function Remaining(net: int, places: seq<nat>): (r: seq<nat>)
    requires places != [] && (net == 0 ==> forall k :: 1 <= k < |places| ==> places[k] >= 1)
    ensures |r| == |places| - 1
    ensures forall k :: 0 <= k < |r| ==> r[k] == if net == 0 then places[k+1] - 1 else places[k+1]
  {
    seq(|places| - 1, k requires 0 <= k < |places| - 1 =>
      var p: nat := if net == 0 then places[k+1] - 1 else places[k+1]; p)
  }

  lemma RestFollows(s: seq<Acct>, users: seq<UserId>, places: seq<nat>, net: int)
    requires s != [] && users != [] && Follows(s, users, places)
    requires net == 0 ==> forall k :: 1 <= k < |places| ==> places[k] >= 1
    ensures Follows(Rest(s, net), users[1..], Remaining(net, places))
  {
    var r := Remaining(net, places);
    forall k | 0 <= k < |r|
      ensures r[k] < |Rest(s, net)| && Rest(s, net)[r[k]].user == users[1..][k]
    {
      assert s[places[k+1]].user == users[k+1];
    }
  }

  lemma RestDistinct(s: seq<Acct>, net: int)
    requires s != [] && DistinctAccts(s)
    ensures DistinctAccts(Rest(s, net))
  {
  }

  lemma RestSends(ds: seq<Acct>, ts: seq<Transfer>, net: int)
    requires DistinctAccts(ds) && SendsAll(ds, ts) && ds != [] && ts != [] && ts[0].from == ds[0].user
    requires net == ds[0].net + ts[0].amount
    ensures SendsAll(Rest(ds, net), ts[1..])
  {
    forall p | 0 <= p < |Rest(ds, net)|
      ensures Sent(ts[1..], Rest(ds, net)[p].user) == -Rest(ds, net)[p].net
    {
      FirstSums(ts, Rest(ds, net)[p].user);
      RestStood(ds, net, p);
    }
  }

  lemma RestReceives(cs: seq<Acct>, ts: seq<Transfer>, net: int)
    requires DistinctAccts(cs) && ReceivesAll(cs, ts) && cs != [] && ts != [] && ts[0].to == cs[0].user
    requires net == cs[0].net - ts[0].amount
    ensures ReceivesAll(Rest(cs, net), ts[1..])
  {
    forall q | 0 <= q < |Rest(cs, net)|
      ensures Received(ts[1..], Rest(cs, net)[q].user) == Rest(cs, net)[q].net
    {
      FirstSums(ts, Rest(cs, net)[q].user);
      RestStood(cs, net, q);
    }
  }

  lemma RestStood(s: seq<Acct>, net: int, p: nat)
    requires s != [] && p < |Rest(s, net)|
    ensures var q := if net == 0 then p + 1 else p;
            q < |s| && Rest(s, net)[p].user == s[q].user && (q > 0 ==> Rest(s, net)[p] == s[q])
            && (q == 0 ==> Rest(s, net)[p].net == net)
  {
  }

  /** Once the front account is settled nobody pays from it any more. */
  lemma SettledMovesOn(s: seq<Acct>, users: seq<UserId>, places: seq<nat>)
    requires s != [] && Follows(s, users, places) && forall k :: 1 <= k < |users| ==> users[k] != s[0].user
    ensures forall k :: 1 <= k < |places| ==> places[k] >= 1
  {
  }

  lemma NoMorePayers(ts: seq<Transfer>, u: UserId)
    requires Positive(ts) && ts != [] && Sent(ts[1..], u) == 0
    ensures forall k :: 1 <= k < |ts| ==> ts[k].from != u
  {
    SentIsPositive(ts[1..], u);
    forall k | 1 <= k < |ts|
      ensures ts[k].from != u
    {
      assert ts[1..][k-1] == ts[k];
    }
  }

  lemma NoMoreReceivers(ts: seq<Transfer>, u: UserId)
    requires Positive(ts) && ts != [] && Received(ts[1..], u) == 0
    ensures forall k :: 1 <= k < |ts| ==> ts[k].to != u
  {
    ReceivedIsPositive(ts[1..], u);
    forall k | 1 <= k < |ts|
      ensures ts[k].to != u
    {
      assert ts[1..][k-1] == ts[k];
    }
  }

  lemma DebtorsMoveOn(ds: seq<Acct>, ts: seq<Transfer>, ps: seq<nat>, net: int)
    requires DebtorsPay(ds, ts, ps) && Positive(ts)
    requires ds != [] && ts != [] && ts[0].from == ds[0].user && net == ds[0].net + ts[0].amount
    ensures net == 0 ==> forall k :: 1 <= k < |ps| ==> ps[k] >= 1
  {
    if net == 0 {
      FirstSums(ts, ds[0].user);
      NoMorePayers(ts, ds[0].user);
      SettledMovesOn(ds, Payers(ts), ps);
    }
  }

  lemma CreditorsMoveOn(cs: seq<Acct>, ts: seq<Transfer>, qs: seq<nat>, net: int)
    requires CreditorsGet(cs, ts, qs) && Positive(ts)
    requires cs != [] && ts != [] && ts[0].to == cs[0].user && net == cs[0].net - ts[0].amount
    ensures net == 0 ==> forall k :: 1 <= k < |qs| ==> qs[k] >= 1
  {
    if net == 0 {
      FirstSums(ts, cs[0].user);
      NoMoreReceivers(ts, cs[0].user);
      SettledMovesOn(cs, Receivers(ts), qs);
    }
  }

  lemma RestPays(ds: seq<Acct>, ts: seq<Transfer>, ps: seq<nat>, net: int, ds': seq<Acct>) returns (ps': seq<nat>)
    requires DebtorsPay(ds, ts, ps) && Positive(ts) && ds != [] && ts != [] && ts[0].from == ds[0].user
    requires net == ds[0].net + ts[0].amount <= 0 && ds' == Rest(ds, net)
    ensures DebtorsPay(ds', ts[1..], ps')
  {
    DebtorsMoveOn(ds, ts, ps, net);
    ps' := Remaining(net, ps);
    RestFollows(ds, Payers(ts), ps, net);
    assert Payers(ts)[1..] == Payers(ts[1..]);
    RestStays(Debtors, ds, net);
    RestDistinct(ds, net);
    RestSends(ds, ts, net);
  }

  lemma RestGets(cs: seq<Acct>, ts: seq<Transfer>, qs: seq<nat>, net: int, cs': seq<Acct>) returns (qs': seq<nat>)
    requires CreditorsGet(cs, ts, qs) && Positive(ts) && cs != [] && ts != [] && ts[0].to == cs[0].user
    requires net == cs[0].net - ts[0].amount >= 0 && cs' == Rest(cs, net)
    ensures CreditorsGet(cs', ts[1..], qs')
  {
    CreditorsMoveOn(cs, ts, qs, net);
    qs' := Remaining(net, qs);
    RestFollows(cs, Receivers(ts), qs, net);
    assert Receivers(ts)[1..] == Receivers(ts[1..]);
    RestStays(Creditors, cs, net);
    RestDistinct(cs, net);
    RestReceives(cs, ts, net);
  }

  lemma RestOnce(ts: seq<Transfer>)
    requires ts != [] && Positive(ts) && PairsOnce(ts)
    ensures Positive(ts[1..]) && PairsOnce(ts[1..])
  {
  }

  lemma FirstMatched(ds: seq<Acct>, cs: seq<Acct>, ts: seq<Transfer>, ps: seq<nat>, qs: seq<nat>)
    returns (ds': seq<Acct>, cs': seq<Acct>)
    requires Fulfils(ds, cs, ts, ps, qs) && ds != [] && cs != []
    ensures ts != [] && First(ds, cs, ts[0], ds', cs') && |ds'| + |cs'| < |ds| + |cs|
    ensures ts[0].from == ds[0].user && ds[0].net + ts[0].amount <= 0
    ensures ts[0].to == cs[0].user && cs[0].net - ts[0].amount >= 0
  {
    FirstPaysFully(ds, cs, ts, ps, qs);
    assert OnSide(Debtors, ds[0].net) && OnSide(Creditors, cs[0].net);
    ds', cs' := Rest(ds, ds[0].net + ts[0].amount), Rest(cs, cs[0].net - ts[0].amount);
    AfterOne(ds, cs, ts[0]);
  }

  lemma OneFulfilled(ds: seq<Acct>, cs: seq<Acct>, ts: seq<Transfer>, ps: seq<nat>, qs: seq<nat>)
    returns (ds': seq<Acct>, cs': seq<Acct>, ps': seq<nat>, qs': seq<nat>)
    requires Fulfils(ds, cs, ts, ps, qs) && ds != [] && cs != []
    ensures ts != [] && First(ds, cs, ts[0], ds', cs') && |ds'| + |cs'| < |ds| + |cs|
    ensures Fulfils(ds', cs', ts[1..], ps', qs')
  {
    ds', cs' := FirstMatched(ds, cs, ts, ps, qs);
    ps' := RestPays(ds, ts, ps, ds[0].net + ts[0].amount, ds');
    qs' := RestGets(cs, ts, qs, cs[0].net - ts[0].amount, cs');
    RestOnce(ts);
  }

  lemma SomebodyOnBoth(ds: seq<Acct>, cs: seq<Acct>, ts: seq<Transfer>, ps: seq<nat>, qs: seq<nat>)
    requires Fulfils(ds, cs, ts, ps, qs) && ts != []
    ensures ds != [] && cs != []
  {
    assert ps[0] < |ds| && qs[0] < |cs|;
  }

  lemma NobodyLeft(ds: seq<Acct>, cs: seq<Acct>, ts: seq<Transfer>, ps: seq<nat>, qs: seq<nat>)
    requires Fulfils(ds, cs, ts, ps, qs) && (ds == [] || cs == [])
    ensures ts == [] && Greedy(ds, cs) == []
  {
    if ts != [] {
      SomebodyOnBoth(ds, cs, ts, ps, qs);
    }
  }

  /** Whatever fulfils two lines in order is their greedy matching. */
  lemma {:induction false} FulfilledIsGreedy(ds: seq<Acct>, cs: seq<Acct>, ts: seq<Transfer>, ps: seq<nat>,
                                             qs: seq<nat>)
    requires Fulfils(ds, cs, ts, ps, qs)
    ensures ts == Greedy(ds, cs)
    decreases |ds| + |cs|
  {
    if ds == [] || cs == [] {
      NobodyLeft(ds, cs, ts, ps, qs);
    } else {
      var ds', cs', ps', qs' := OneFulfilled(ds, cs, ts, ps, qs);
      FulfilledIsGreedy(ds', cs', ts[1..], ps', qs');
      GreedyHead(ds, cs, ts[0], ds', cs');
      assert ts == [ts[0]] + ts[1..];
    }
  }

  // ---------------------------------------------------------------------------
  // The plan names no pair twice

  lemma NotInRest(s: seq<Acct>, users: seq<UserId>, places: seq<nat>, k: nat)
    requires s != [] && DistinctAccts(s) && Follows(s[1..], users, places) && k < |users|
    ensures users[k] != s[0].user
  {
    assert s[1..][places[k]] == s[places[k] + 1];
  }

  lemma OnceMore(ds: seq<Acct>, cs: seq<Acct>, t: Transfer, rest: seq<Transfer>, ps: seq<nat>, qs: seq<nat>)
    requires ds != [] && cs != [] && DistinctAccts(ds) && DistinctAccts(cs) && PairsOnce(rest)
    requires t.from == ds[0].user && t.to == cs[0].user
    requires Follows(ds[1..], Payers(rest), ps) || Follows(cs[1..], Receivers(rest), qs)
    ensures PairsOnce([t] + rest)
  {
    forall k | 0 <= k < |rest|
      ensures t.from != rest[k].from || t.to != rest[k].to
    {
      if Follows(ds[1..], Payers(rest), ps) {
        NotInRest(ds, Payers(rest), ps, k);
      } else {
        NotInRest(cs, Receivers(rest), qs, k);
      }
    }
  }

  /** One transfer takes the front account off one of the lines. */
  lemma FrontTaken(ds: seq<Acct>, cs: seq<Acct>) returns (t: Transfer, ds': seq<Acct>, cs': seq<Acct>)
    requires ds != [] && cs != []
    ensures First(ds, cs, t, ds', cs') && |ds'| + |cs'| < |ds| + |cs|
    ensures t.from == ds[0].user && t.to == cs[0].user
    ensures ds' == Rest(ds, ds[0].net + t.amount) && cs' == Rest(cs, cs[0].net - t.amount)
  {
    t := Payment(ds[0], cs[0]);
    ds', cs' := Rest(ds, ds[0].net + t.amount), Rest(cs, cs[0].net - t.amount);
    AfterOne(ds, cs, t);
  }

  lemma OneTaken(ds: seq<Acct>, cs: seq<Acct>) returns (t: Transfer, ds': seq<Acct>, cs': seq<Acct>)
    requires ds != [] && cs != [] && DistinctAccts(ds) && DistinctAccts(cs)
    ensures First(ds, cs, t, ds', cs') && |ds'| + |cs'| < |ds| + |cs|
    ensures t.from == ds[0].user && t.to == cs[0].user && (ds' == ds[1..] || cs' == cs[1..])
    ensures DistinctAccts(ds') && DistinctAccts(cs')
  {
    t, ds', cs' := FrontTaken(ds, cs);
    RestDistinct(ds, ds[0].net + t.amount);
    RestDistinct(cs, cs[0].net - t.amount);
  }

  lemma {:induction false} GreedyPairsOnce(ds: seq<Acct>, cs: seq<Acct>)
    requires DistinctAccts(ds) && DistinctAccts(cs)
    ensures PairsOnce(Greedy(ds, cs))
    decreases |ds| + |cs|
  {
    if ds != [] && cs != [] {
      var t, ds', cs' := OneTaken(ds, cs);
      GreedyPairsOnce(ds', cs');
      var ps, qs := GreedyFollows(ds', cs');
      OnceMore(ds, cs, t, Greedy(ds', cs'), ps, qs);
      GreedyHead(ds, cs, t, ds', cs');
    }
  }

  // ---------------------------------------------------------------------------
  // From balances to the lines

  function OneOf(u: UserId): Acct -> int {
    (a: Acct) => if a.user == u then 1 else 0
  }

  lemma {:induction false} AcctsOnce(side: Side, bs: seq<MemberBalance>, u: UserId)
    requires DistinctUsers(bs)
    ensures 0 <= SumBy(OneOf(u), AcctsOf(side, bs)) <= 1
    ensures (forall i :: 0 <= i < |bs| ==> bs[i].user != u) ==> SumBy(OneOf(u), AcctsOf(side, bs)) == 0
  {
    if bs != [] {
      AcctsOnce(side, bs[..|bs|-1], u);
      AcctsLast(OneOf(u), side, bs);
    }
  }

  lemma {:induction false} CountsAtLeast(s: seq<Acct>, u: UserId, k: nat)
    requires k < |s| && s[k].user == u
    ensures SumBy(OneOf(u), s) >= 1
  {
    NoneNegative(s[1..], u);
    if k > 0 {
      CountsAtLeast(s[1..], u, k - 1);
    }
  }

  lemma {:induction false} NoneNegative(s: seq<Acct>, u: UserId)
    ensures SumBy(OneOf(u), s) >= 0
  {
    if s != [] {
      NoneNegative(s[1..], u);
    }
  }

  lemma {:induction false} CountedTwice(s: seq<Acct>, i: nat, j: nat)
    requires i < j < |s| && s[i].user == s[j].user
    ensures SumBy(OneOf(s[i].user), s) >= 2
  {
    if i == 0 {
      CountsAtLeast(s[1..], s[0].user, j - 1);
    } else {
      CountedTwice(s[1..], i - 1, j - 1);
    }
  }

  lemma LineDistinct(side: Side, bs: seq<MemberBalance>)
    requires DistinctUsers(bs)
    ensures DistinctAccts(Line(side, bs))
  {
    var s := Line(side, bs);
    forall i, j | 0 <= i < j < |s|
      ensures s[i].user != s[j].user
    {
      if s[i].user == s[j].user {
        CountedTwice(s, i, j);
        LinePermutes(side, bs, OneOf(s[i].user));
        AcctsOnce(side, bs, s[i].user);
      }
    }
  }

  lemma {:induction false} BalanceIsAcct(side: Side, bs: seq<MemberBalance>, k: nat)
    requires k < |bs| && OnSide(side, bs[k].net)
    ensures Acct(bs[k].user, bs[k].net) in AcctsOf(side, bs)
  {
    if k < |bs| - 1 {
      BalanceIsAcct(side, bs[..|bs|-1], k);
    }
  }

  lemma PlaceOf(side: Side, bs: seq<MemberBalance>, k: nat) returns (p: nat)
    requires k < |bs| && OnSide(side, bs[k].net)
    ensures p < |Line(side, bs)| && Line(side, bs)[p] == Acct(bs[k].user, bs[k].net)
  {
    BalanceIsAcct(side, bs, k);
    ArrangedIsSorted(side, AcctsOf(side, bs));
    p := Found(Line(side, bs), Acct(bs[k].user, bs[k].net));
  }

  /** The larger debt, or the larger credit, first; the smaller user id where they
      are the same. */
  predicate Precedes(side: Side, a: MemberBalance, b: MemberBalance) {
    || (a.net == b.net && Less(a.user, b.user))
    || if side.Debtors? then a.net < b.net else a.net > b.net
  }

  predicate UsersOrdered(side: Side, bs: seq<MemberBalance>, users: seq<UserId>) {
    forall i, j, p, q ::
      (0 <= i < j < |users| && 0 <= p < |bs| && 0 <= q < |bs| && p != q &&
       bs[p].user == users[i] && bs[q].user == users[j]) ==>
        Precedes(side, bs[p], bs[q])
  }

  lemma PlacesOrdered(side: Side, bs: seq<MemberBalance>, a: nat, b: nat, p: nat, q: nat)
    requires DistinctUsers(bs) && a < |bs| && b < |bs| && p < |Line(side, bs)| && q < |Line(side, bs)|
    requires Line(side, bs)[p] == Acct(bs[a].user, bs[a].net) && Line(side, bs)[q] == Acct(bs[b].user, bs[b].net)
    requires a == b || Precedes(side, bs[a], bs[b])
    ensures p <= q
  {
    LineDistinct(side, bs);
    if a != b && q < p {
      FrontIsLarger(bs, side, q, p);
      if Less(bs[a].user, bs[b].user) {
        LessIsStrict(bs[a].user, bs[b].user);
      }
    }
  }

  /** These users are on this side of the balances. */
  predicate OnThisSide(side: Side, bs: seq<MemberBalance>, users: seq<UserId>) {
    forall k :: 0 <= k < |users| ==> users[k] in UsersOn(side, bs)
  }

  lemma OnePlace(side: Side, bs: seq<MemberBalance>, u: UserId) returns (p: nat, k: nat)
    requires DistinctUsers(bs) && u in UsersOn(side, bs)
    ensures k < |bs| && bs[k].user == u && p < |Line(side, bs)| && Line(side, bs)[p] == Acct(u, bs[k].net)
  {
    k :| 0 <= k < |bs| && OnSide(side, bs[k].net) && bs[k].user == u;
    p := PlaceOf(side, bs, k);
  }

  lemma NoFurther(side: Side, bs: seq<MemberBalance>, users: seq<UserId>, places: seq<nat>, i: nat, p: nat, k: nat)
    requires DistinctUsers(bs) && UsersOrdered(side, bs, users) && i < |places| < |users|
    requires users[i] in UsersOn(side, bs) && k < |bs| && users[|places|] == bs[k].user
    requires places[i] < |Line(side, bs)| && Line(side, bs)[places[i]].user == users[i]
    requires p < |Line(side, bs)| && Line(side, bs)[p] == Acct(bs[k].user, bs[k].net)
    ensures places[i] <= p
  {
    var q, l := OnePlace(side, bs, users[i]);
    LineDistinct(side, bs);
    assert q == places[i];
    PlacesOrdered(side, bs, l, k, q, p);
  }

  lemma FollowsLast(s: seq<Acct>, users: seq<UserId>, places: seq<nat>, p: nat)
    requires users != [] && Follows(s, users[..|users|-1], places) && p < |s| && s[p].user == users[|users|-1]
    requires forall i :: 0 <= i < |places| ==> places[i] <= p
    ensures Follows(s, users, places + [p])
  {
  }

  lemma {:induction false} PlacesOf(side: Side, bs: seq<MemberBalance>, users: seq<UserId>) returns (places: seq<nat>)
    requires DistinctUsers(bs) && OnThisSide(side, bs, users) && UsersOrdered(side, bs, users)
    ensures Follows(Line(side, bs), users, places)
  {
    if users == [] {
      places := [];
    } else {
      var n := |users| - 1;
      var before := PlacesOf(side, bs, users[..n]);
      var p, k := OnePlace(side, bs, users[n]);
      forall i | 0 <= i < n
        ensures before[i] <= p
      {
        assert users[..n][i] == users[i];
        NoFurther(side, bs, users, before, i, p, k);
      }
      FollowsLast(Line(side, bs), users, before, p);
      places := before + [p];
    }
  }

  // ---------------------------------------------------------------------------
  // Exactly the plan

  /** Each debtor sends exactly the debt, each creditor receives exactly the credit,
      and nobody else sends or receives anything. */
  predicate PaysExactly(bs: seq<MemberBalance>, ts: seq<Transfer>) {
    && (forall k :: 0 <= k < |ts| ==> ts[k].from in UsersIn(bs) && ts[k].to in UsersIn(bs))
    && (forall i :: 0 <= i < |bs| ==> Sent(ts, bs[i].user) == if bs[i].net < 0 then -bs[i].net else 0)
    && (forall i :: 0 <= i < |bs| ==> Received(ts, bs[i].user) == if bs[i].net > 0 then bs[i].net else 0)
  }

  lemma PayersOwe(bs: seq<MemberBalance>, ts: seq<Transfer>)
    requires DistinctUsers(bs) && Positive(ts) && PaysExactly(bs, ts)
    ensures OnThisSide(Debtors, bs, Payers(ts)) && OnThisSide(Creditors, bs, Receivers(ts))
  {
    forall k | 0 <= k < |ts|
      ensures ts[k].from in UsersOn(Debtors, bs) && ts[k].to in UsersOn(Creditors, bs)
    {
      SentIsPositive(ts, ts[k].from);
      ReceivedIsPositive(ts, ts[k].to);
      var i :| 0 <= i < |bs| && bs[i].user == ts[k].from;
      var j :| 0 <= j < |bs| && bs[j].user == ts[k].to;
      assert OnSide(Debtors, bs[i].net) && OnSide(Creditors, bs[j].net);
    }
  }

  lemma LineBalance(side: Side, bs: seq<MemberBalance>, p: nat) returns (k: nat)
    requires p < |Line(side, bs)|
    ensures k < |bs| && Line(side, bs)[p] == Acct(bs[k].user, bs[k].net) && OnSide(side, bs[k].net)
  {
    LineMembers(side, bs, p);
    LineOnSide(side, bs);
    k := AcctIsBalance(side, bs, Line(side, bs)[p]);
  }

  lemma LinesPaid(bs: seq<MemberBalance>, ts: seq<Transfer>)
    requires PaysExactly(bs, ts)
    ensures SendsAll(Line(Debtors, bs), ts) && ReceivesAll(Line(Creditors, bs), ts)
  {
    forall p | 0 <= p < |Line(Debtors, bs)|
      ensures Sent(ts, Line(Debtors, bs)[p].user) == -Line(Debtors, bs)[p].net
    {
      var k := LineBalance(Debtors, bs, p);
    }
    forall q | 0 <= q < |Line(Creditors, bs)|
      ensures Received(ts, Line(Creditors, bs)[q].user) == Line(Creditors, bs)[q].net
    {
      var k := LineBalance(Creditors, bs, q);
    }
  }

  lemma OrderedIsPlan(bs: seq<MemberBalance>, ts: seq<Transfer>)
    requires DistinctUsers(bs) && Positive(ts) && PairsOnce(ts) && PaysExactly(bs, ts)
    requires UsersOrdered(Debtors, bs, Payers(ts)) && UsersOrdered(Creditors, bs, Receivers(ts))
    ensures ts == Plan(bs)
  {
    PayersOwe(bs, ts);
    var ps := PlacesOf(Debtors, bs, Payers(ts));
    var qs := PlacesOf(Creditors, bs, Receivers(ts));
    LinesPaid(bs, ts);
    LineOnSide(Debtors, bs);
    LineOnSide(Creditors, bs);
    LineDistinct(Debtors, bs);
    LineDistinct(Creditors, bs);
    FulfilledIsGreedy(Line(Debtors, bs), Line(Creditors, bs), ts, ps, qs);
  }

  lemma PlanIsOrdered(bs: seq<MemberBalance>)
    requires DistinctUsers(bs)
    ensures UsersOrdered(Debtors, bs, Payers(Plan(bs))) && UsersOrdered(Creditors, bs, Receivers(Plan(bs)))
  {
    var ps, qs := GreedyFollows(Line(Debtors, bs), Line(Creditors, bs));
    forall i, j, p, q | 0 <= i < j < |Plan(bs)| && 0 <= p < |bs| && 0 <= q < |bs| && p != q
      ensures bs[p].user == Plan(bs)[i].from && bs[q].user == Plan(bs)[j].from ==> Precedes(Debtors, bs[p], bs[q])
      ensures bs[p].user == Plan(bs)[i].to && bs[q].user == Plan(bs)[j].to ==> Precedes(Creditors, bs[p], bs[q])
    {
      if bs[p].user == Plan(bs)[i].from && bs[q].user == Plan(bs)[j].from {
        FollowersAreOrdered(bs, Debtors, Payers(Plan(bs)), ps, i, j, p, q);
      }
      if bs[p].user == Plan(bs)[i].to && bs[q].user == Plan(bs)[j].to {
        FollowersAreOrdered(bs, Creditors, Receivers(Plan(bs)), qs, i, j, p, q);
      }
    }
  }

  lemma PlanPaysOnce(bs: seq<MemberBalance>)
    requires DistinctUsers(bs) && ZeroSum(bs)
    ensures Positive(Plan(bs)) && PairsOnce(Plan(bs)) && PaysExactly(bs, Plan(bs))
  {
    LineDistinct(Debtors, bs);
    LineDistinct(Creditors, bs);
    GreedyPairsOnce(Line(Debtors, bs), Line(Creditors, bs));
    forall k | 0 <= k < |Plan(bs)|
      ensures Plan(bs)[k].amount > 0 && Plan(bs)[k].from in UsersIn(bs) && Plan(bs)[k].to in UsersIn(bs)
    {
      PlanConnects(bs, k);
    }
    forall i | 0 <= i < |bs|
      ensures Sent(Plan(bs), bs[i].user) == if bs[i].net < 0 then -bs[i].net else 0
      ensures Received(Plan(bs), bs[i].user) == if bs[i].net > 0 then bs[i].net else 0
    {
      PlanPaysExactly(bs, i);
    }
  }

  /** For nets that sum to zero the plan is the one list of positive transfers that
      pays exactly, names no pair twice, and is ordered on both sides: the larger
      debtor and the larger creditor first, the smaller user id where they tie. */
  lemma OnlyThePlan(bs: seq<MemberBalance>, ts: seq<Transfer>)
    requires DistinctUsers(bs) && ZeroSum(bs)
    ensures ts == Plan(bs) <==>
            && Positive(ts) && PairsOnce(ts) && PaysExactly(bs, ts)
            && UsersOrdered(Debtors, bs, Payers(ts)) && UsersOrdered(Creditors, bs, Receivers(ts))
  {
    PlanPaysOnce(bs);
    PlanIsOrdered(bs);
    if && Positive(ts) && PairsOnce(ts) && PaysExactly(bs, ts)
       && UsersOrdered(Debtors, bs, Payers(ts)) && UsersOrdered(Creditors, bs, Receivers(ts)) {
      OrderedIsPlan(bs, ts);
    }
  }
}
