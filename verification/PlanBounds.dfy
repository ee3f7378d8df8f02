/** What the plan promises: it reconciles, it is short, it moves the least money,
    and it depends on the balances only, not on their order. */
module PlanBounds {
  import opened Sums
  import opened Ids
  import opened Planner

  function SentBy(u: UserId): Transfer -> int {
    (t: Transfer) => if t.from == u then t.amount else 0
  }

  function ReceivedBy(u: UserId): Transfer -> int {
    (t: Transfer) => if t.to == u then t.amount else 0
  }

  function AmountOf(): Transfer -> int {
    (t: Transfer) => t.amount
  }

  function Sent(ts: seq<Transfer>, u: UserId): int {
    SumBy(SentBy(u), ts)
  }

  function Received(ts: seq<Transfer>, u: UserId): int {
    SumBy(ReceivedBy(u), ts)
  }

  /** The money that changes hands. */
  function Moved(ts: seq<Transfer>): int {
    SumBy(AmountOf(), ts)
  }

  function NetOf(): Acct -> int {
    (a: Acct) => a.net
  }

  function NetFor(u: UserId): Acct -> int {
    (a: Acct) => if a.user == u then a.net else 0
  }

  function BalanceNet(): MemberBalance -> int {
    (b: MemberBalance) => b.net
  }

  predicate DistinctUsers(bs: seq<MemberBalance>) {
    forall i, j :: 0 <= i < j < |bs| ==> bs[i].user != bs[j].user
  }

  predicate ZeroSum(bs: seq<MemberBalance>) {
    SumBy(BalanceNet(), bs) == 0
  }

  /** Every transfer is positive and every net ends at zero. */
  predicate Settles(bs: seq<MemberBalance>, ts: seq<Transfer>) {
    && (forall i :: 0 <= i < |ts| ==> ts[i].amount > 0)
    && (forall i :: 0 <= i < |bs| ==> bs[i].net + Sent(ts, bs[i].user) - Received(ts, bs[i].user) == 0)
  }

  // ---------------------------------------------------------------------------
  // The matching on two lists of accounts

  lemma SumByRest(f: Acct -> int, s: seq<Acct>, net: int)
    requires s != []
    ensures SumBy(f, Rest(s, net)) ==
            SumBy(f, s) - f(s[0]) + if net == 0 then 0 else f(Acct(s[0].user, net))
  {
    if net != 0 {
      assert Rest(s, net)[1..] == s[1..];
    }
  }

  predicate AllOnSide(side: Side, s: seq<Acct>) {
    forall i :: 0 <= i < |s| ==> OnSide(side, s[i].net)
  }

  lemma RestStays(side: Side, s: seq<Acct>, net: int)
    requires AllOnSide(side, s) && s != [] && (net == 0 || OnSide(side, net))
    ensures AllOnSide(side, Rest(s, net))
  {
  }

  lemma {:induction false} PositiveSum(side: Side, s: seq<Acct>)
    requires AllOnSide(side, s)
    ensures s != [] ==> OnSide(side, SumBy(NetOf(), s))
  {
    if s != [] {
      PositiveSum(side, s[1..]);
    }
  }

  lemma AfterOneSum(f: Transfer -> int, ds: seq<Acct>, cs: seq<Acct>, t: Transfer)
    requires ds != [] && cs != []
    requires t == Payment(ds[0], cs[0])
    ensures SumBy(f, Greedy(ds, cs)) ==
            f(t) + SumBy(f, Greedy(Rest(ds, ds[0].net + t.amount), Rest(cs, cs[0].net - t.amount)))
  {
    AfterOne(ds, cs, t);
    SumByConcat(f, [t], Greedy(Rest(ds, ds[0].net + t.amount), Rest(cs, cs[0].net - t.amount)));
  }

  /** Two lists that cancel are empty together. */
  lemma BothOrNeither(ds: seq<Acct>, cs: seq<Acct>)
    requires AllOnSide(Debtors, ds) && AllOnSide(Creditors, cs)
    requires SumBy(NetOf(), ds) + SumBy(NetOf(), cs) == 0
    ensures ds == [] <==> cs == []
  {
    PositiveSum(Debtors, ds);
    PositiveSum(Creditors, cs);
  }

  lemma StillCancel(ds: seq<Acct>, cs: seq<Acct>, amount: int)
    requires AllOnSide(Debtors, ds) && AllOnSide(Creditors, cs) && ds != [] && cs != []
    requires SumBy(NetOf(), ds) + SumBy(NetOf(), cs) == 0
    requires amount == Min(-ds[0].net, cs[0].net)
    ensures var ds', cs' := Rest(ds, ds[0].net + amount), Rest(cs, cs[0].net - amount);
            && AllOnSide(Debtors, ds') && AllOnSide(Creditors, cs')
            && SumBy(NetOf(), ds') + SumBy(NetOf(), cs') == 0
            && SumBy(NetOf(), cs') == SumBy(NetOf(), cs) - amount
  {
    RestStays(Debtors, ds, ds[0].net + amount);
    RestStays(Creditors, cs, cs[0].net - amount);
    SumByRest(NetOf(), ds, ds[0].net + amount);
    SumByRest(NetOf(), cs, cs[0].net - amount);
  }

  /** The lists hold debts and credits, and cancel each other. */
  predicate Cancel(ds: seq<Acct>, cs: seq<Acct>) {
    AllOnSide(Debtors, ds) && AllOnSide(Creditors, cs) && SumBy(NetOf(), ds) + SumBy(NetOf(), cs) == 0
  }

  /** One transfer leaves lists that cancel, and are shorter together. */
  lemma OneMatched(ds: seq<Acct>, cs: seq<Acct>) returns (t: Transfer, ds': seq<Acct>, cs': seq<Acct>)
    requires Cancel(ds, cs) && (ds != [] || cs != [])
    ensures First(ds, cs, t, ds', cs') && Cancel(ds', cs') && |ds'| + |cs'| < |ds| + |cs|
  {
    BothOrNeither(ds, cs);
    t := Payment(ds[0], cs[0]);
    ds', cs' := Rest(ds, ds[0].net + t.amount), Rest(cs, cs[0].net - t.amount);
    AfterOne(ds, cs, t);
    StillCancel(ds, cs, t.amount);
  }

  lemma OneMoreSent(ds: seq<Acct>, cs: seq<Acct>, t: Transfer, ds': seq<Acct>, cs': seq<Acct>, u: UserId)
    requires First(ds, cs, t, ds', cs')
    ensures Sent(Greedy(ds, cs), u) + SumBy(NetFor(u), ds) == Sent(Greedy(ds', cs'), u) + SumBy(NetFor(u), ds')
  {
    AfterOneSum(SentBy(u), ds, cs, t);
    SumByRest(NetFor(u), ds, ds[0].net + t.amount);
  }

  lemma OneMoreReceived(ds: seq<Acct>, cs: seq<Acct>, t: Transfer, ds': seq<Acct>, cs': seq<Acct>, u: UserId)
    requires First(ds, cs, t, ds', cs')
    ensures Received(Greedy(ds, cs), u) - SumBy(NetFor(u), cs) ==
            Received(Greedy(ds', cs'), u) - SumBy(NetFor(u), cs')
  {
    AfterOneSum(ReceivedBy(u), ds, cs, t);
    SumByRest(NetFor(u), cs, cs[0].net - t.amount);
  }

  lemma OneMoreMoved(ds: seq<Acct>, cs: seq<Acct>, t: Transfer, ds': seq<Acct>, cs': seq<Acct>)
    requires First(ds, cs, t, ds', cs')
    ensures Moved(Greedy(ds, cs)) - SumBy(NetOf(), cs) == Moved(Greedy(ds', cs')) - SumBy(NetOf(), cs')
  {
    AfterOneSum(AmountOf(), ds, cs, t);
    SumByRest(NetOf(), cs, cs[0].net - t.amount);
  }

  /** Matching lists that cancel out: everyone sends exactly what their debts say. */
  lemma {:induction false} GreedySends(ds: seq<Acct>, cs: seq<Acct>, u: UserId)
    requires Cancel(ds, cs)
    ensures Sent(Greedy(ds, cs), u) == -SumBy(NetFor(u), ds)
    decreases |ds| + |cs|
  {
    if ds != [] || cs != [] {
      var t, ds', cs' := OneMatched(ds, cs);
      OneMoreSent(ds, cs, t, ds', cs', u);
      GreedySends(ds', cs', u);
    }
  }

  /** ... and receives exactly what their credits say. */
  lemma {:induction false} GreedyDelivers(ds: seq<Acct>, cs: seq<Acct>, u: UserId)
    requires Cancel(ds, cs)
    ensures Received(Greedy(ds, cs), u) == SumBy(NetFor(u), cs)
    decreases |ds| + |cs|
  {
    if ds != [] || cs != [] {
      var t, ds', cs' := OneMatched(ds, cs);
      OneMoreReceived(ds, cs, t, ds', cs', u);
      GreedyDelivers(ds', cs', u);
    }
  }

  lemma {:induction false} GreedyMoves(ds: seq<Acct>, cs: seq<Acct>)
    requires Cancel(ds, cs)
    ensures Moved(Greedy(ds, cs)) == SumBy(NetOf(), cs)
    decreases |ds| + |cs|
  {
    if ds != [] || cs != [] {
      var t, ds', cs' := OneMatched(ds, cs);
      OneMoreMoved(ds, cs, t, ds', cs');
      GreedyMoves(ds', cs');
    }
  }

  predicate AllNamed(s: seq<Acct>, users: set<UserId>) {
    forall i :: 0 <= i < |s| ==> s[i].user in users
  }

  lemma RestNamed(s: seq<Acct>, net: int, users: set<UserId>)
    requires s != [] && AllNamed(s, users)
    ensures AllNamed(Rest(s, net), users)
  {
  }

  /** The k-th transfer is the first one, or one of those that match what it leaves. */
  lemma GreedyAt(ds: seq<Acct>, cs: seq<Acct>, t: Transfer, ds': seq<Acct>, cs': seq<Acct>, k: nat)
    requires First(ds, cs, t, ds', cs') && k < |Greedy(ds, cs)|
    ensures k == 0 ==> Greedy(ds, cs)[k] == t
    ensures k > 0 ==> k - 1 < |Greedy(ds', cs')| && Greedy(ds, cs)[k] == Greedy(ds', cs')[k-1]
    ensures |ds'| + |cs'| < |ds| + |cs|
  {
    GreedyHead(ds, cs, t, ds', cs');
    AfterOne(ds, cs, t);
  }

  /** Transfers run from people on the first list to people on the second. */
  lemma {:induction false} GreedyConnects(ds: seq<Acct>, cs: seq<Acct>, k: nat, froms: set<UserId>, tos: set<UserId>)
    requires k < |Greedy(ds, cs)| && AllNamed(ds, froms) && AllNamed(cs, tos)
    ensures Greedy(ds, cs)[k].from in froms && Greedy(ds, cs)[k].to in tos
    decreases |ds| + |cs|
  {
    var t := Payment(ds[0], cs[0]);
    var ds', cs' := Rest(ds, ds[0].net + t.amount), Rest(cs, cs[0].net - t.amount);
    GreedyAt(ds, cs, t, ds', cs', k);
    if k > 0 {
      RestNamed(ds, ds[0].net + t.amount, froms);
      RestNamed(cs, cs[0].net - t.amount, tos);
      GreedyConnects(ds', cs', k - 1, froms, tos);
    }
  }

  lemma {:induction false} GreedyIsPositive(ds: seq<Acct>, cs: seq<Acct>, k: nat)
    requires AllOnSide(Debtors, ds) && AllOnSide(Creditors, cs) && k < |Greedy(ds, cs)|
    ensures Greedy(ds, cs)[k].amount > 0
    decreases |ds| + |cs|
  {
    var t := Payment(ds[0], cs[0]);
    var ds', cs' := Rest(ds, ds[0].net + t.amount), Rest(cs, cs[0].net - t.amount);
    GreedyAt(ds, cs, t, ds', cs', k);
    if k > 0 {
      RestStays(Debtors, ds, ds[0].net + t.amount);
      RestStays(Creditors, cs, cs[0].net - t.amount);
      GreedyIsPositive(ds', cs', k - 1);
    }
  }

  /** Each transfer takes at least one account off the lists, the last one is
      never needed for that. */
  lemma {:induction false} GreedyIsShort(ds: seq<Acct>, cs: seq<Acct>)
    ensures |Greedy(ds, cs)| <= if ds == [] || cs == [] then 0 else |ds| + |cs| - 1
    decreases |ds| + |cs|
  {
    if ds != [] && cs != [] {
      var t := Payment(ds[0], cs[0]);
      AfterOne(ds, cs, t);
      GreedyIsShort(Rest(ds, ds[0].net + t.amount), Rest(cs, cs[0].net - t.amount));
    }
  }

  // ---------------------------------------------------------------------------
  // From balances to the two lists

  lemma {:induction false} AcctsOnSide(side: Side, bs: seq<MemberBalance>)
    ensures AllOnSide(side, AcctsOf(side, bs))
  {
    if bs != [] {
      AcctsOnSide(side, bs[..|bs|-1]);
    }
  }

  lemma LinePermutes(side: Side, bs: seq<MemberBalance>, f: Acct -> int)
    ensures SumBy(f, Line(side, bs)) == SumBy(f, AcctsOf(side, bs))
    ensures |Line(side, bs)| == |AcctsOf(side, bs)|
  {
    ArrangedIsSorted(side, AcctsOf(side, bs));
    SumByPermuted(f, Line(side, bs), AcctsOf(side, bs));
  }

  lemma LineMembers(side: Side, bs: seq<MemberBalance>, i: nat)
    requires i < |Line(side, bs)|
    ensures Line(side, bs)[i] in AcctsOf(side, bs)
  {
    ArrangedIsSorted(side, AcctsOf(side, bs));
    assert Line(side, bs)[i] in multiset(Line(side, bs));
  }

  lemma LineOnSide(side: Side, bs: seq<MemberBalance>)
    ensures AllOnSide(side, Line(side, bs))
  {
    AcctsOnSide(side, bs);
    forall i | 0 <= i < |Line(side, bs)|
      ensures OnSide(side, Line(side, bs)[i].net)
    {
      LineMembers(side, bs, i);
    }
  }

  lemma AcctsLast(f: Acct -> int, side: Side, bs: seq<MemberBalance>)
    requires bs != []
    ensures var b := bs[|bs|-1];
            SumBy(f, AcctsOf(side, bs)) ==
            SumBy(f, AcctsOf(side, bs[..|bs|-1])) + if OnSide(side, b.net) then f(Acct(b.user, b.net)) else 0
  {
    var b := bs[|bs|-1];
    SumByConcat(f, AcctsOf(side, bs[..|bs|-1]), if OnSide(side, b.net) then [Acct(b.user, b.net)] else []);
  }

  lemma {:induction false} SidesAddUp(bs: seq<MemberBalance>)
    ensures SumBy(NetOf(), AcctsOf(Debtors, bs)) + SumBy(NetOf(), AcctsOf(Creditors, bs)) == SumBy(BalanceNet(), bs)
    ensures |AcctsOf(Debtors, bs)| + |AcctsOf(Creditors, bs)| <= |bs|
  {
    if bs != [] {
      SidesAddUp(bs[..|bs|-1]);
      AcctsLast(NetOf(), Debtors, bs);
      AcctsLast(NetOf(), Creditors, bs);
      SumByLast(BalanceNet(), bs);
    }
  }

  lemma LinesCancel(bs: seq<MemberBalance>)
    ensures SumBy(NetOf(), Line(Debtors, bs)) + SumBy(NetOf(), Line(Creditors, bs)) == SumBy(BalanceNet(), bs)
    ensures AllOnSide(Debtors, Line(Debtors, bs)) && AllOnSide(Creditors, Line(Creditors, bs))
  {
    SidesAddUp(bs);
    LinePermutes(Debtors, bs, NetOf());
    LinePermutes(Creditors, bs, NetOf());
    LineOnSide(Debtors, bs);
    LineOnSide(Creditors, bs);
  }

  lemma {:induction false} NetOfStranger(side: Side, bs: seq<MemberBalance>, u: UserId)
    requires forall i :: 0 <= i < |bs| ==> bs[i].user != u
    ensures SumBy(NetFor(u), AcctsOf(side, bs)) == 0
  {
    if bs != [] {
      NetOfStranger(side, bs[..|bs|-1], u);
      AcctsLast(NetFor(u), side, bs);
    }
  }

  lemma {:induction false} NetOfMember(side: Side, bs: seq<MemberBalance>, k: nat)
    requires DistinctUsers(bs) && k < |bs|
    ensures SumBy(NetFor(bs[k].user), AcctsOf(side, bs)) == if OnSide(side, bs[k].net) then bs[k].net else 0
  {
    var n, u := |bs| - 1, bs[k].user;
    AcctsLast(NetFor(u), side, bs);
    if k < n {
      NetOfMember(side, bs[..n], k);
    } else {
      NetOfStranger(side, bs[..n], u);
    }
  }

  // ---------------------------------------------------------------------------
  // Reconciliation

  /** Each debtor sends exactly the debt and receives nothing; each creditor
      receives exactly the credit and sends nothing; the others do neither. */
  lemma PlanPaysExactly(bs: seq<MemberBalance>, k: nat)
    requires DistinctUsers(bs) && ZeroSum(bs) && k < |bs|
    ensures Sent(Plan(bs), bs[k].user) == if bs[k].net < 0 then -bs[k].net else 0
    ensures Received(Plan(bs), bs[k].user) == if bs[k].net > 0 then bs[k].net else 0
  {
    var u := bs[k].user;
    LinesCancel(bs);
    GreedySends(Line(Debtors, bs), Line(Creditors, bs), u);
    GreedyDelivers(Line(Debtors, bs), Line(Creditors, bs), u);
    LinePermutes(Debtors, bs, NetFor(u));
    LinePermutes(Creditors, bs, NetFor(u));
    NetOfMember(Debtors, bs, k);
    NetOfMember(Creditors, bs, k);
  }

  function UsersOn(side: Side, bs: seq<MemberBalance>): set<UserId> {
    set i | 0 <= i < |bs| && OnSide(side, bs[i].net) :: bs[i].user
  }

  lemma {:induction false} AcctsNamed(side: Side, bs: seq<MemberBalance>, users: set<UserId>)
    requires forall i :: 0 <= i < |bs| && OnSide(side, bs[i].net) ==> bs[i].user in users
    ensures AllNamed(AcctsOf(side, bs), users)
  {
    if bs != [] {
      AcctsNamed(side, bs[..|bs|-1], users);
    }
  }

  lemma LineNamed(side: Side, bs: seq<MemberBalance>)
    ensures AllNamed(Line(side, bs), UsersOn(side, bs))
  {
    AcctsNamed(side, bs, UsersOn(side, bs));
    forall i | 0 <= i < |Line(side, bs)|
      ensures Line(side, bs)[i].user in UsersOn(side, bs)
    {
      LineMembers(side, bs, i);
    }
  }

  /** Every transfer is positive and runs from a debtor to a creditor. */
  lemma PlanConnects(bs: seq<MemberBalance>, k: nat)
    requires k < |Plan(bs)|
    ensures Plan(bs)[k].amount > 0
    ensures Plan(bs)[k].from in UsersOn(Debtors, bs) && Plan(bs)[k].to in UsersOn(Creditors, bs)
  {
    LineOnSide(Debtors, bs);
    LineOnSide(Creditors, bs);
    GreedyIsPositive(Line(Debtors, bs), Line(Creditors, bs), k);
    LineNamed(Debtors, bs);
    LineNamed(Creditors, bs);
    GreedyConnects(Line(Debtors, bs), Line(Creditors, bs), k, UsersOn(Debtors, bs), UsersOn(Creditors, bs));
  }

  // ---------------------------------------------------------------------------
  // Totals over groups of people

  function SentWithin(us: set<UserId>): Transfer -> int {
    (t: Transfer) => if t.from in us then t.amount else 0
  }

  function ReceivedWithin(us: set<UserId>): Transfer -> int {
    (t: Transfer) => if t.to in us then t.amount else 0
  }

  lemma {:induction false} OneMore(ts: seq<Transfer>, us: set<UserId>, u: UserId)
    requires u !in us
    ensures SumBy(SentWithin(us + {u}), ts) == SumBy(SentWithin(us), ts) + Sent(ts, u)
    ensures SumBy(ReceivedWithin(us + {u}), ts) == SumBy(ReceivedWithin(us), ts) + Received(ts, u)
  {
    if ts != [] {
      OneMore(ts[1..], us, u);
    }
  }

  lemma {:induction false} Nobody(ts: seq<Transfer>)
    ensures SumBy(SentWithin({}), ts) == SumBy(ReceivedWithin({}), ts) == 0
  {
    if ts != [] {
      Nobody(ts[1..]);
    }
  }

  function UsersIn(bs: seq<MemberBalance>): set<UserId> {
    set i | 0 <= i < |bs| :: bs[i].user
  }

  /** Where every net ends at zero, the nets together are what the members
      receive from outside less what they send outside. */
  lemma {:induction false} NetsFlow(bs: seq<MemberBalance>, ts: seq<Transfer>)
    requires DistinctUsers(bs)
    requires forall i :: 0 <= i < |bs| ==> bs[i].net + Sent(ts, bs[i].user) - Received(ts, bs[i].user) == 0
    ensures SumBy(BalanceNet(), bs) ==
            SumBy(ReceivedWithin(UsersIn(bs)), ts) - SumBy(SentWithin(UsersIn(bs)), ts)
  {
    if bs == [] {
      Nobody(ts);
      assert UsersIn(bs) == {};
    } else {
      var n := |bs| - 1;
      NetsFlow(bs[..n], ts);
      SumByLast(BalanceNet(), bs);
      OneMore(ts, UsersIn(bs[..n]), bs[n].user);
      assert UsersIn(bs) == UsersIn(bs[..n]) + {bs[n].user};
    }
  }

  lemma {:induction false} AllWithin(ts: seq<Transfer>, us: set<UserId>)
    requires forall i :: 0 <= i < |ts| ==> ts[i].from in us && ts[i].to in us
    ensures SumBy(SentWithin(us), ts) == SumBy(ReceivedWithin(us), ts) == Moved(ts)
  {
    if ts != [] {
      AllWithin(ts[1..], us);
    }
  }

  /** The plan settles every net exactly when the nets sum to zero. */
  lemma PlanSettlesIffZeroSum(bs: seq<MemberBalance>)
    requires DistinctUsers(bs)
    ensures Settles(bs, Plan(bs)) <==> ZeroSum(bs)
  {
    var plan := Plan(bs);
    forall k | 0 <= k < |plan|
      ensures plan[k].amount > 0 && plan[k].from in UsersIn(bs) && plan[k].to in UsersIn(bs)
    {
      PlanConnects(bs, k);
    }
    if ZeroSum(bs) {
      forall i | 0 <= i < |bs|
        ensures bs[i].net + Sent(plan, bs[i].user) - Received(plan, bs[i].user) == 0
      {
        PlanPaysExactly(bs, i);
      }
    } else if Settles(bs, plan) {
      NetsFlow(bs, plan);
      AllWithin(plan, UsersIn(bs));
      assert false;
    }
  }

  // ---------------------------------------------------------------------------
  // How short the plan is

  function CountOn(side: Side, bs: seq<MemberBalance>): nat {
    |AcctsOf(side, bs)|
  }

  /** At most D + C - 1 transfers, hence fewer than there are members. */
  lemma PlanIsShort(bs: seq<MemberBalance>)
    ensures Plan(bs) != [] ==> |Plan(bs)| <= CountOn(Debtors, bs) + CountOn(Creditors, bs) - 1 <= |bs| - 1
  {
    GreedyIsShort(Line(Debtors, bs), Line(Creditors, bs));
    LinePermutes(Debtors, bs, NetOf());
    LinePermutes(Creditors, bs, NetOf());
    SidesAddUp(bs);
  }

  /** The users that appear on one end of some transfer. */
  function Ends(side: Side, ts: seq<Transfer>): set<UserId> {
    set i | 0 <= i < |ts| :: if side.Debtors? then ts[i].from else ts[i].to
  }

  lemma {:induction false} EndsAreFew(side: Side, ts: seq<Transfer>)
    ensures |Ends(side, ts)| <= |ts|
  {
    if ts != [] {
      var n := |ts| - 1;
      EndsAreFew(side, ts[..n]);
      var last := if side.Debtors? then ts[n].from else ts[n].to;
      assert Ends(side, ts) == Ends(side, ts[..n]) + {last};
    }
  }

  lemma {:induction false} UnseenMoveNothing(ts: seq<Transfer>, u: UserId)
    ensures u !in Ends(Debtors, ts) ==> Sent(ts, u) == 0
    ensures u !in Ends(Creditors, ts) ==> Received(ts, u) == 0
    ensures (forall i :: 0 <= i < |ts| ==> ts[i].amount > 0) ==> Sent(ts, u) >= 0 && Received(ts, u) >= 0
  {
    if ts != [] {
      UnseenMoveNothing(ts[1..], u);
      FrontEnd(Debtors, ts);
      FrontEnd(Creditors, ts);
    }
  }

  lemma FrontEnd(side: Side, ts: seq<Transfer>)
    requires ts != []
    ensures Ends(side, ts) == Ends(side, ts[1..]) + {if side.Debtors? then ts[0].from else ts[0].to}
  {
    forall u | u in Ends(side, ts)
      ensures u in Ends(side, ts[1..]) + {if side.Debtors? then ts[0].from else ts[0].to}
    {
      var i :| 0 <= i < |ts| && u == if side.Debtors? then ts[i].from else ts[i].to;
      if i > 0 {
        assert ts[1..][i-1] == ts[i];
      }
    }
  }

  lemma UsersOnLast(side: Side, bs: seq<MemberBalance>)
    requires DistinctUsers(bs) && bs != []
    ensures var b, before := bs[|bs|-1], UsersOn(side, bs[..|bs|-1]);
            && b.user !in before
            && UsersOn(side, bs) == if OnSide(side, b.net) then before + {b.user} else before
  {
  }

  lemma {:induction false} CountUsersOn(side: Side, bs: seq<MemberBalance>)
    requires DistinctUsers(bs)
    ensures |UsersOn(side, bs)| == CountOn(side, bs)
  {
    if bs == [] {
      assert UsersOn(side, bs) == {};
    } else {
      CountUsersOn(side, bs[..|bs|-1]);
      UsersOnLast(side, bs);
    }
  }

  /** However it is done, every debtor must send and every creditor must
      receive, so settling takes at least max(D, C) transfers. */
  lemma SettlingTakes(bs: seq<MemberBalance>, ts: seq<Transfer>, side: Side)
    requires DistinctUsers(bs) && Settles(bs, ts)
    ensures |ts| >= CountOn(side, bs)
  {
    forall u | u in UsersOn(side, bs)
      ensures u in Ends(side, ts)
    {
      UnseenMoveNothing(ts, u);
    }
    SubsetSize(UsersOn(side, bs), Ends(side, ts));
    CountUsersOn(side, bs);
    EndsAreFew(side, ts);
  }

  /** The plan has fewer than twice as many transfers as any other way of
      settling, and no more than any other with a single debtor or creditor. */
  lemma PlanIsNearOptimal(bs: seq<MemberBalance>, ts: seq<Transfer>)
    requires DistinctUsers(bs) && Settles(bs, ts)
    ensures Plan(bs) != [] ==> |Plan(bs)| < 2 * |ts|
    ensures CountOn(Debtors, bs) == 1 || CountOn(Creditors, bs) == 1 ==> |Plan(bs)| <= |ts|
  {
    PlanIsShort(bs);
    SettlingTakes(bs, ts, Debtors);
    SettlingTakes(bs, ts, Creditors);
  }

  // ---------------------------------------------------------------------------
  // How little money moves

  lemma {:induction false} MovedBounds(ts: seq<Transfer>, us: set<UserId>)
    requires forall i :: 0 <= i < |ts| ==> ts[i].amount > 0
    ensures SumBy(ReceivedWithin(us), ts) <= Moved(ts)
  {
    if ts != [] {
      MovedBounds(ts[1..], us);
    }
  }

  lemma LastCreditArrives(bs: seq<MemberBalance>, ts: seq<Transfer>)
    requires DistinctUsers(bs) && Settles(bs, ts) && bs != [] && bs[|bs|-1].net > 0
    ensures SumBy(ReceivedWithin(UsersOn(Creditors, bs)), ts) >=
            SumBy(ReceivedWithin(UsersOn(Creditors, bs[..|bs|-1])), ts) + bs[|bs|-1].net
  {
    var b := bs[|bs|-1];
    UsersOnLast(Creditors, bs);
    UnseenMoveNothing(ts, b.user);
    OneMore(ts, UsersOn(Creditors, bs[..|bs|-1]), b.user);
  }

  lemma {:induction false} CreditsArrive(bs: seq<MemberBalance>, ts: seq<Transfer>)
    requires DistinctUsers(bs) && Settles(bs, ts)
    ensures SumBy(NetOf(), AcctsOf(Creditors, bs)) <= SumBy(ReceivedWithin(UsersOn(Creditors, bs)), ts)
  {
    if bs == [] {
      Nobody(ts);
      assert UsersOn(Creditors, bs) == {};
    } else {
      var n := |bs| - 1;
      CreditsArrive(bs[..n], ts);
      AcctsLast(NetOf(), Creditors, bs);
      if OnSide(Creditors, bs[n].net) {
        LastCreditArrives(bs, ts);
      } else {
        UsersOnLast(Creditors, bs);
      }
    }
  }

  /** No way of settling moves less money than the plan. */
  lemma PlanMovesLeast(bs: seq<MemberBalance>, ts: seq<Transfer>)
    requires DistinctUsers(bs) && ZeroSum(bs) && Settles(bs, ts)
    ensures Moved(Plan(bs)) <= Moved(ts)
  {
    LinesCancel(bs);
    GreedyMoves(Line(Debtors, bs), Line(Creditors, bs));
    LinePermutes(Creditors, bs, NetOf());
    CreditsArrive(bs, ts);
    MovedBounds(ts, UsersOn(Creditors, bs));
  }

  // ---------------------------------------------------------------------------
  // Determinism

  lemma {:induction false} AcctsConcat(side: Side, a: seq<MemberBalance>, b: seq<MemberBalance>)
    ensures AcctsOf(side, a + b) == AcctsOf(side, a) + AcctsOf(side, b)
    decreases |b|
  {
    if b == [] {
      assert a + b == a;
    } else {
      assert (a + b)[..|a| + |b| - 1] == a + b[..|b|-1];
      AcctsConcat(side, a, b[..|b|-1]);
    }
  }

  lemma AcctsWithout(side: Side, bs: seq<MemberBalance>, k: nat)
    requires k < |bs|
    ensures multiset(AcctsOf(side, bs)) ==
            multiset(AcctsOf(side, bs[..k] + bs[k+1..])) +
            (if OnSide(side, bs[k].net) then multiset{Acct(bs[k].user, bs[k].net)} else multiset{})
  {
    assert bs == bs[..k+1] + bs[k+1..];
    AcctsConcat(side, bs[..k+1], bs[k+1..]);
    AcctsSnoc(side, bs, k);
    AcctsConcat(side, bs[..k], bs[k+1..]);
  }

  lemma {:induction false} AcctsPermuted(side: Side, a: seq<MemberBalance>, b: seq<MemberBalance>)
    requires multiset(a) == multiset(b)
    ensures multiset(AcctsOf(side, a)) == multiset(AcctsOf(side, b))
    decreases |a|
  {
    if a == [] {
      assert |b| == |multiset(b)| == 0;
    } else {
      var n := |a| - 1;
      assert a[n] in multiset(b);
      var k :| 0 <= k < |b| && b[k] == a[n];
      DroppedLast(a);
      Dropped(b, k);
      AcctsPermuted(side, a[..n], b[..k] + b[k+1..]);
      AcctsWithout(side, a, n);
      assert a[..n] + a[n+1..] == a[..n];
      AcctsWithout(side, b, k);
    }
  }

  /** The same balances in any order give the very same list of transfers. */
  lemma PlanIgnoresOrder(a: seq<MemberBalance>, b: seq<MemberBalance>)
    requires multiset(a) == multiset(b)
    ensures Plan(a) == Plan(b)
  {
    forall side
      ensures Line(side, a) == Line(side, b)
    {
      AcctsPermuted(side, a, b);
      ArrangedIsSorted(side, AcctsOf(side, a));
      ArrangedIsSorted(side, AcctsOf(side, b));
      OneArrangement(side, Line(side, a), Line(side, b));
    }
  }
}
