/** Groups of members between which no transfer goes settle separately; and an
    example that the greedy plan settles with more transfers than it takes.
    `Divisions` says exactly when it does. */
module Shortest {
  import opened Sums
  import opened Ids
  import opened Planner
  import opened PlanBounds

  /** The balances of these users. */
  function Among(bs: seq<MemberBalance>, us: set<UserId>): seq<MemberBalance> {
    if bs == [] then []
    else Among(bs[..|bs|-1], us) + if bs[|bs|-1].user in us then [bs[|bs|-1]] else []
  }

  lemma {:induction false} AmongIs(bs: seq<MemberBalance>, us: set<UserId>)
    requires DistinctUsers(bs)
    ensures DistinctUsers(Among(bs, us))
    ensures UsersIn(Among(bs, us)) == UsersIn(bs) * us
    ensures forall i :: 0 <= i < |Among(bs, us)| ==> Among(bs, us)[i] in bs
  {
    if bs != [] {
      var n := |bs| - 1;
      var before := Among(bs[..n], us);
      AmongIs(bs[..n], us);
      assert bs == bs[..n] + [bs[n]];
      UsersInSnoc(bs[..n], bs[n]);
      if bs[n].user in us {
        UsersInSnoc(before, bs[n]);
        forall i | 0 <= i < |before|
          ensures before[i].user != bs[n].user
        {
          assert before[i].user in UsersIn(before);
        }
      } else {
        assert Among(bs, us) == before;
      }
    }
  }

  lemma UsersInSnoc(bs: seq<MemberBalance>, b: MemberBalance)
    ensures UsersIn(bs + [b]) == UsersIn(bs) + {b.user}
  {
    var all := bs + [b];
    assert all[|bs|] == b;
    forall u | u in UsersIn(bs)
      ensures u in UsersIn(all)
    {
      var i :| 0 <= i < |bs| && bs[i].user == u;
      assert all[i].user == u;
    }
  }

  /** No transfer goes into or out of this group of users. */
  predicate Closed(us: set<UserId>, ts: seq<Transfer>) {
    forall i :: 0 <= i < |ts| ==> (ts[i].from in us <==> ts[i].to in us)
  }

  lemma {:induction false} ClosedCancels(us: set<UserId>, ts: seq<Transfer>)
    requires Closed(us, ts)
    ensures SumBy(SentWithin(us), ts) == SumBy(ReceivedWithin(us), ts)
  {
    if ts != [] {
      ClosedCancels(us, ts[1..]);
    }
  }

  /** The transfers are between these members. */
  predicate Within(bs: seq<MemberBalance>, ts: seq<Transfer>) {
    forall i :: 0 <= i < |ts| ==> ts[i].from in UsersIn(bs) && ts[i].to in UsersIn(bs)
  }

  lemma ClosedSumsToZero(bs: seq<MemberBalance>, ts: seq<Transfer>, us: set<UserId>)
    requires DistinctUsers(bs) && Settles(bs, ts) && Closed(UsersIn(bs) * us, ts)
    ensures SumBy(BalanceNet(), Among(bs, us)) == 0
  {
    var some := Among(bs, us);
    AmongIs(bs, us);
    forall i | 0 <= i < |some|
      ensures some[i].net + Sent(ts, some[i].user) - Received(ts, some[i].user) == 0
    {
      assert some[i] in bs;
    }
    NetsFlow(some, ts);
    ClosedCancels(UsersIn(some), ts);
  }

  lemma SidesCount(bs: seq<MemberBalance>)
    requires DistinctUsers(bs)
    ensures |UsersOn(Debtors, bs) + UsersOn(Creditors, bs)| == CountOn(Debtors, bs) + CountOn(Creditors, bs)
  {
    CountUsersOn(Debtors, bs);
    CountUsersOn(Creditors, bs);
    assert UsersOn(Debtors, bs) !! UsersOn(Creditors, bs);
  }

  // ---------------------------------------------------------------------------
  // When it is not

  /** Nets that two pairs of transfers cancel with one transfer less than the plan. */
  function Example(): seq<MemberBalance> {
    [MemberBalance("a", 0, 7, -7), MemberBalance("b", 0, 5, -5), MemberBalance("c", 0, 3, -3),
     MemberBalance("d", 8, 0, 8), MemberBalance("e", 7, 0, 7)]
  }

  function Shorter(): seq<Transfer> {
    [Transfer("a", "e", 7), Transfer("b", "d", 5), Transfer("c", "d", 3)]
  }

  /** The plan is not the fewest transfers there are: three settle the example,
      the plan has four. */
  lemma PlanIsNotAlwaysShortest()
    ensures DistinctUsers(Example()) && Settles(Example(), Shorter())
    ensures |Shorter()| == 3 && |Plan(Example())| == 4
  {
    ExampleDebtors();
    ExampleCreditors();
    ExampleGreedy();
    ShorterSettles();
  }

  lemma OneAcct(side: Side, b: MemberBalance)
    ensures AcctsOf(side, [b]) == if OnSide(side, b.net) then [Acct(b.user, b.net)] else []
  {
    assert [b][..0] == [];
  }

  lemma ExampleAccts(side: Side)
    ensures AcctsOf(side, Example()) ==
            if side.Debtors? then [Acct("a", -7), Acct("b", -5), Acct("c", -3)] else [Acct("d", 8), Acct("e", 7)]
  {
    var bs := Example();
    assert bs == [bs[0]] + ([bs[1]] + ([bs[2]] + ([bs[3]] + [bs[4]])));
    AcctsConcat(side, [bs[3]], [bs[4]]);
    AcctsConcat(side, [bs[2]], [bs[3]] + [bs[4]]);
    AcctsConcat(side, [bs[1]], [bs[2]] + ([bs[3]] + [bs[4]]));
    AcctsConcat(side, [bs[0]], [bs[1]] + ([bs[2]] + ([bs[3]] + [bs[4]])));
    OneAcct(side, bs[0]);
    OneAcct(side, bs[1]);
    OneAcct(side, bs[2]);
    OneAcct(side, bs[3]);
    OneAcct(side, bs[4]);
  }

  lemma AlreadyArranged(side: Side, s: seq<Acct>)
    requires Sorted(side, s)
    ensures Arranged(side, s) == s
  {
    ArrangedIsSorted(side, s);
    OneArrangement(side, Arranged(side, s), s);
  }

  lemma ExampleDebtors()
    ensures Line(Debtors, Example()) == [Acct("a", -7), Acct("b", -5), Acct("c", -3)]
  {
    ExampleAccts(Debtors);
    AlreadyArranged(Debtors, [Acct("a", -7), Acct("b", -5), Acct("c", -3)]);
  }

  lemma ExampleCreditors()
    ensures Line(Creditors, Example()) == [Acct("d", 8), Acct("e", 7)]
  {
    ExampleAccts(Creditors);
    AlreadyArranged(Creditors, [Acct("d", 8), Acct("e", 7)]);
  }

  lemma GreedyOnce(ds: seq<Acct>, cs: seq<Acct>)
    requires ds != [] && cs != []
    ensures var amount := Min(-ds[0].net, cs[0].net);
            |Greedy(ds, cs)| == 1 + |Greedy(Rest(ds, ds[0].net + amount), Rest(cs, cs[0].net - amount))|
  {
  }

  lemma ExampleGreedy()
    ensures |Greedy([Acct("a", -7), Acct("b", -5), Acct("c", -3)], [Acct("d", 8), Acct("e", 7)])| == 4
  {
    var b, c, e := Acct("b", -5), Acct("c", -3), Acct("e", 7);
    GreedyOnce([Acct("a", -7), b, c], [Acct("d", 8), e]);
    assert Rest([Acct("a", -7), b, c], 0) == [b, c] && Rest([Acct("d", 8), e], 1) == [Acct("d", 1), e];
    GreedyOnce([b, c], [Acct("d", 1), e]);
    assert Rest([b, c], -4) == [Acct("b", -4), c] && Rest([Acct("d", 1), e], 0) == [e];
    GreedyOnce([Acct("b", -4), c], [e]);
    assert Rest([Acct("b", -4), c], 0) == [c] && Rest([e], 3) == [Acct("e", 3)];
    GreedyOnce([c], [Acct("e", 3)]);
    assert Rest([c], 0) == [] && Rest([Acct("e", 3)], 0) == [];
  }

  predicate Evens(b: MemberBalance, ts: seq<Transfer>) {
    b.net + Sent(ts, b.user) - Received(ts, b.user) == 0
  }

  /** Three transfers even out somebody when their ends do. */
  lemma ThreeEven(b: MemberBalance, ts: seq<Transfer>)
    requires |ts| == 3
    requires b.net + SentBy(b.user)(ts[0]) + SentBy(b.user)(ts[1]) + SentBy(b.user)(ts[2]) ==
             ReceivedBy(b.user)(ts[0]) + ReceivedBy(b.user)(ts[1]) + ReceivedBy(b.user)(ts[2])
    ensures Evens(b, ts)
  {
    ThreeTransfers(SentBy(b.user), ts);
    ThreeTransfers(ReceivedBy(b.user), ts);
  }

  /** The first debtor pays one creditor, the other two debtors the other one. */
  predicate PairsUp(bs: seq<MemberBalance>, ts: seq<Transfer>) {
    && |bs| == 5 && |ts| == 3 && DistinctUsers(bs)
    && bs[0].net < 0 && bs[1].net < 0 && bs[2].net < 0
    && bs[3].net == -bs[1].net - bs[2].net && bs[4].net == -bs[0].net
    && ts[0] == Transfer(bs[0].user, bs[4].user, -bs[0].net)
    && ts[1] == Transfer(bs[1].user, bs[3].user, -bs[1].net)
    && ts[2] == Transfer(bs[2].user, bs[3].user, -bs[2].net)
  }

  lemma PairingSettles(bs: seq<MemberBalance>, ts: seq<Transfer>)
    requires PairsUp(bs, ts)
    ensures Settles(bs, ts)
  {
    forall i | 0 <= i < |bs|
      ensures Evens(bs[i], ts)
    {
      ThreeEven(bs[i], ts);
    }
  }

  lemma ShorterSettles()
    ensures DistinctUsers(Example()) && Settles(Example(), Shorter())
  {
    PairingSettles(Example(), Shorter());
  }

  lemma ThreeTransfers(f: Transfer -> int, ts: seq<Transfer>)
    requires |ts| == 3
    ensures SumBy(f, ts) == f(ts[0]) + f(ts[1]) + f(ts[2])
  {
    assert SumBy(f, ts) == f(ts[0]) + SumBy(f, ts[1..]);
    assert SumBy(f, ts[1..]) == f(ts[1]) + SumBy(f, ts[1..][1..]);
    assert SumBy(f, ts[1..][1..]) == f(ts[2]) + SumBy(f, ts[1..][1..][1..]);
    assert ts[1..][1..][1..] == [];
  }
}
