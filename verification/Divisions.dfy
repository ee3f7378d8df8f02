/** When exactly the greedy plan is the shortest: its length is the number of
    debtors and creditors less the sums at which both sorted lines break, and the
    fewest transfers are that number less the groups into which the members can be
    divided that settle separately. */
module Divisions {
  import opened Sums
  import opened Ids
  import opened Planner
  import opened PlanBounds
  import opened Shortest

  /** The users with something to settle. */
  function Active(bs: seq<MemberBalance>): set<UserId> {
    UsersOn(Debtors, bs) + UsersOn(Creditors, bs)
  }

  predicate Apart(gs: set<set<UserId>>) {
    forall g, h :: g in gs && h in gs && g != h ==> g !! h
  }

  /** A group that settles by itself and has something to settle. */
  predicate SettlesAlone(bs: seq<MemberBalance>, g: set<UserId>) {
    SumBy(BalanceNet(), Among(bs, g)) == 0 && Active(bs) * g != {}
  }

  /** Separate groups of members that each settle by themselves. */
  predicate Division(bs: seq<MemberBalance>, gs: set<set<UserId>>) {
    Apart(gs) && forall g :: g in gs ==> SettlesAlone(bs, g)
  }

  // ---------------------------------------------------------------------------
  // Every way of settling divides the members

  /** The groups with somebody of these users. */
  function Touching(gs: set<set<UserId>>, us: set<UserId>): set<set<UserId>> {
    set g | g in gs && g * us != {}
  }

  function Singles(us: set<UserId>): set<set<UserId>> {
    set u | u in us :: {u}
  }

  lemma SingleOf(us: set<UserId>, u: UserId)
    requires {u} in Singles(us)
    ensures u in us
  {
    var v :| v in us && {v} == {u};
    assert v in {u};
  }

  lemma {:induction false} SinglesSize(us: set<UserId>)
    ensures |Singles(us)| == |us|
    decreases |us|
  {
    if us == {} {
      assert Singles(us) == {};
    } else {
      var u :| u in us;
      SinglesSize(us - {u});
      if {u} in Singles(us - {u}) {
        SingleOf(us - {u}, u);
        assert false;
      }
      assert Singles(us) == Singles(us - {u}) + {{u}};
    }
  }

  predicate Covered(gs: set<set<UserId>>, u: UserId) {
    exists g :: g in gs && u in g
  }

  /** Separate groups that take in all users, with no transfer between them. */
  predicate Splits(gs: set<set<UserId>>, us: set<UserId>, ts: seq<Transfer>) {
    && Apart(gs)
    && (forall u :: u in us ==> Covered(gs, u))
    && (forall g :: g in gs ==> Closed(g, ts))
  }

  function Merged(gs: set<set<UserId>>, a: set<UserId>, b: set<UserId>): set<set<UserId>> {
    gs - {a, b} + {a + b}
  }

  lemma MergedIsNew(gs: set<set<UserId>>, a: set<UserId>, b: set<UserId>, u: UserId, v: UserId)
    requires Apart(gs) && a in gs && b in gs && a != b && u in a && v in b
    ensures a + b !in gs
  {
    assert a !! b;
    assert v in a + b && v !in a;
    assert u in (a + b) * a;
  }

  lemma MergedApart(gs: set<set<UserId>>, a: set<UserId>, b: set<UserId>)
    requires Apart(gs) && a in gs && b in gs && a != b
    ensures Apart(Merged(gs, a, b))
  {
  }

  /** A merge costs at most one of the groups that touch these users. */
  lemma MergedTouching(gs: set<set<UserId>>, a: set<UserId>, b: set<UserId>, us: set<UserId>)
    requires a in gs && b in gs && a != b && a + b !in gs
    ensures |Touching(Merged(gs, a, b), us)| >= |Touching(gs, us)| - 1
  {
    var before, after := Touching(gs, us), Touching(Merged(gs, a, b), us);
    var others := before - {a, b};
    if a * us != {} || b * us != {} {
      assert (a + b) * us == a * us + b * us;
      OneForTwo(before, others, a, b);
      SubsetSize(others + {a + b}, after);
    } else {
      SubsetSize(before, after);
    }
  }

  lemma OneForTwo(before: set<set<UserId>>, others: set<set<UserId>>, a: set<UserId>, b: set<UserId>)
    requires others == before - {a, b} && a + b !in before
    ensures |others + {a + b}| >= |before| - 1
  {
    SubsetSize(before, others + {a, b});
    assert |others + {a, b}| <= |others| + |{a, b}|;
    assert |others + {a + b}| == |others| + 1;
  }

  lemma MergedCovers(gs: set<set<UserId>>, a: set<UserId>, b: set<UserId>, u: UserId)
    requires Covered(gs, u)
    ensures Covered(Merged(gs, a, b), u)
  {
    var g :| g in gs && u in g;
    if g == a || g == b {
      assert a + b in Merged(gs, a, b) && u in a + b;
    } else {
      assert g in Merged(gs, a, b);
    }
  }

  lemma ClosedMore(g: set<UserId>, ts: seq<Transfer>)
    requires ts != [] && Closed(g, ts[1..]) && (ts[0].from in g <==> ts[0].to in g)
    ensures Closed(g, ts)
  {
    forall i | 0 <= i < |ts|
      ensures ts[i].from in g <==> ts[i].to in g
    {
      assert i > 0 ==> ts[1..][i-1] == ts[i];
    }
  }

  lemma ClosedUnion(a: set<UserId>, b: set<UserId>, ts: seq<Transfer>)
    requires Closed(a, ts) && Closed(b, ts)
    ensures Closed(a + b, ts)
  {
  }

  /** Merging the two groups of a transfer closes every group under it as well. */
  lemma MergedSplits(gs: set<set<UserId>>, us: set<UserId>, ts: seq<Transfer>, a: set<UserId>, b: set<UserId>)
    requires ts != [] && Splits(gs, us, ts[1..]) && a in gs && b in gs && a != b
    requires ts[0].from in a && ts[0].to in b
    ensures Splits(Merged(gs, a, b), us, ts)
  {
    var all := Merged(gs, a, b);
    MergedApart(gs, a, b);
    forall u | u in us
      ensures Covered(all, u)
    {
      MergedCovers(gs, a, b, u);
    }
    forall g | g in all
      ensures Closed(g, ts)
    {
      if g == a + b {
        ClosedUnion(a, b, ts[1..]);
      } else {
        assert g !! a && g !! b;
      }
      ClosedMore(g, ts);
    }
  }

  lemma SameGroupSplits(gs: set<set<UserId>>, us: set<UserId>, ts: seq<Transfer>, a: set<UserId>)
    requires ts != [] && Splits(gs, us, ts[1..]) && a in gs && ts[0].from in a && ts[0].to in a
    ensures Splits(gs, us, ts)
  {
    forall g | g in gs
      ensures Closed(g, ts)
    {
      assert g != a ==> g !! a;
      ClosedMore(g, ts);
    }
  }

  predicate Inside(us: set<UserId>, ts: seq<Transfer>) {
    forall i :: 0 <= i < |ts| ==> ts[i].from in us && ts[i].to in us
  }

  lemma SinglesSplit(us: set<UserId>)
    ensures Splits(Singles(us), us, [])
  {
    forall u | u in us
      ensures Covered(Singles(us), u)
    {
      assert {u} in Singles(us) && u in {u};
    }
    forall g, h | g in Singles(us) && h in Singles(us) && g != h
      ensures g !! h
    {
    }
  }

  lemma SinglesTouching(us: set<UserId>, active: set<UserId>)
    requires active <= us
    ensures Touching(Singles(us), active) == Singles(active)
  {
    forall g | g in Touching(Singles(us), active)
      ensures g in Singles(active)
    {
      var u :| u in us && g == {u};
      var v :| v in g * active;
      assert v == u;
    }
    forall u | u in active
      ensures {u} in Touching(Singles(us), active)
    {
      assert u in {u} * active;
    }
  }

  /** One more transfer: the groups of its ends become one, if they are not yet. */
  lemma MergeEnds(before: set<set<UserId>>, us: set<UserId>, active: set<UserId>, ts: seq<Transfer>)
    returns (gs: set<set<UserId>>)
    requires ts != [] && Splits(before, us, ts[1..]) && ts[0].from in us && ts[0].to in us
    ensures Splits(gs, us, ts) && |Touching(gs, active)| >= |Touching(before, active)| - 1
  {
    assert Covered(before, ts[0].from) && Covered(before, ts[0].to);
    var a :| a in before && ts[0].from in a;
    var b :| b in before && ts[0].to in b;
    if a == b {
      SameGroupSplits(before, us, ts, a);
      gs := before;
    } else {
      MergedIsNew(before, a, b, ts[0].from, ts[0].to);
      MergedTouching(before, a, b, active);
      MergedSplits(before, us, ts, a, b);
      gs := Merged(before, a, b);
    }
  }

  /** From one group per user each transfer merges at most two, so these many
      groups remain between which no transfer goes. */
  lemma {:induction false} Parts(us: set<UserId>, active: set<UserId>, ts: seq<Transfer>)
    returns (gs: set<set<UserId>>)
    requires active <= us && Inside(us, ts)
    ensures Splits(gs, us, ts) && |Touching(gs, active)| + |ts| >= |active|
    decreases |ts|
  {
    if ts == [] {
      gs := Singles(us);
      SinglesSplit(us);
      SinglesTouching(us, active);
      SinglesSize(active);
    } else {
      var before := Parts(us, active, ts[1..]);
      gs := MergeEnds(before, us, active, ts);
    }
  }

  lemma ActiveCount(bs: seq<MemberBalance>)
    requires DistinctUsers(bs)
    ensures |Active(bs)| == CountOn(Debtors, bs) + CountOn(Creditors, bs)
    ensures Active(bs) <= UsersIn(bs)
  {
    SidesCount(bs);
  }

  /** The users in these transfers that are not members. */
  function Outsiders(bs: seq<MemberBalance>, ts: seq<Transfer>): set<UserId> {
    (set i | 0 <= i < |ts| :: ts[i].from) + (set i | 0 <= i < |ts| :: ts[i].to) - UsersIn(bs)
  }

  lemma EverybodyInside(bs: seq<MemberBalance>, ts: seq<Transfer>)
    ensures Inside(UsersIn(bs) + Outsiders(bs, ts), ts)
  {
  }

  /** Separate groups with somebody of these users are no more than the users. */
  lemma {:induction false} TouchingSize(gs: set<set<UserId>>, us: set<UserId>)
    requires Apart(gs)
    ensures |Touching(gs, us)| <= |us|
    decreases |us|
  {
    if us == {} {
      assert Touching(gs, us) == {};
    } else {
      var u :| u in us;
      TouchingSize(gs, us - {u});
      if Covered(gs, u) {
        var g :| g in gs && u in g;
        forall h | h in Touching(gs, us)
          ensures h in Touching(gs, us - {u}) + {g}
        {
          HasAnother(h, us, u);
          assert h != g ==> h !! g;
        }
        SubsetSize(Touching(gs, us), Touching(gs, us - {u}) + {g});
      } else {
        forall h | h in Touching(gs, us)
          ensures h in Touching(gs, us - {u})
        {
          HasAnother(h, us, u);
        }
        SubsetSize(Touching(gs, us), Touching(gs, us - {u}));
      }
    }
  }

  lemma HasAnother(h: set<UserId>, us: set<UserId>, u: UserId)
    requires h * us != {}
    ensures u in h || h * (us - {u}) != {}
  {
    var v :| v in h * us;
    assert v != u ==> v in h * (us - {u});
  }

  /** Of the groups that touch members or outsiders, those without an outsider. */
  function Without(gs: set<set<UserId>>, outside: set<UserId>): set<set<UserId>> {
    set g | g in gs && g * outside == {}
  }

  lemma WithoutOutsiders(gs: set<set<UserId>>, active: set<UserId>, outside: set<UserId>, n: nat)
    requires Apart(gs) && active !! outside
    requires |Touching(gs, active + outside)| + n >= |active + outside|
    ensures |Without(Touching(gs, active), outside)| + n >= |active|
  {
    var inside := Without(Touching(gs, active), outside);
    forall g | g in Touching(gs, active + outside)
      ensures g in inside + Touching(gs, outside)
    {
      assert g * (active + outside) == g * active + g * outside;
    }
    TouchingSize(gs, outside);
    SubsetSize(Touching(gs, active + outside), inside + Touching(gs, outside));
    assert |inside + Touching(gs, outside)| <= |inside| + |Touching(gs, outside)|;
    assert |active + outside| == |active| + |outside|;
  }

  lemma ClosedSettlesAlone(bs: seq<MemberBalance>, ts: seq<Transfer>, g: set<UserId>)
    requires DistinctUsers(bs) && Settles(bs, ts) && Closed(g, ts)
    requires g * Active(bs) != {} && g * Outsiders(bs, ts) == {}
    ensures SettlesAlone(bs, g)
  {
    forall i | 0 <= i < |ts|
      ensures ts[i].from in UsersIn(bs) * g <==> ts[i].to in UsersIn(bs) * g
    {
      MemberOrOutsider(bs, ts, i);
      if ts[i].from in g {
        NoneOf(g, Outsiders(bs, ts), ts[i].from);
        NoneOf(g, Outsiders(bs, ts), ts[i].to);
      }
    }
    ClosedSumsToZero(bs, ts, g);
    assert g * Active(bs) == Active(bs) * g;
  }

  lemma NoneOf(g: set<UserId>, us: set<UserId>, u: UserId)
    requires g * us == {} && u in g
    ensures u !in us
  {
    assert u in us ==> u in g * us;
  }

  lemma MemberOrOutsider(bs: seq<MemberBalance>, ts: seq<Transfer>, i: nat)
    requires i < |ts|
    ensures ts[i].from in UsersIn(bs) || ts[i].from in Outsiders(bs, ts)
    ensures ts[i].to in UsersIn(bs) || ts[i].to in Outsiders(bs, ts)
  {
  }

  /** Whoever settles in these many transfers, through third parties or not,
      divides the members into at least so many groups that the two numbers
      together make all debtors and creditors. */
  lemma SettlingDivides(bs: seq<MemberBalance>, ts: seq<Transfer>) returns (gs: set<set<UserId>>)
    requires DistinctUsers(bs) && Settles(bs, ts)
    ensures Division(bs, gs) && |ts| + |gs| >= CountOn(Debtors, bs) + CountOn(Creditors, bs)
  {
    ActiveCount(bs);
    var active, outside := Active(bs), Outsiders(bs, ts);
    EverybodyInside(bs, ts);
    var all := Parts(UsersIn(bs) + outside, active + outside, ts);
    WithoutOutsiders(all, active, outside, |ts|);
    gs := Without(Touching(all, active), outside);
    forall g | g in gs
      ensures SettlesAlone(bs, g)
    {
      ClosedSettlesAlone(bs, ts, g);
    }
  }

  // ---------------------------------------------------------------------------
  // Every division settles

  lemma {:induction false} AmongAgree(bs: seq<MemberBalance>, us: set<UserId>, vs: set<UserId>)
    requires forall i :: 0 <= i < |bs| ==> (bs[i].user in us <==> bs[i].user in vs)
    ensures Among(bs, us) == Among(bs, vs)
  {
    if bs != [] {
      AmongAgree(bs[..|bs|-1], us, vs);
    }
  }

  lemma AmongLast(bs: seq<MemberBalance>, b: MemberBalance, us: set<UserId>)
    ensures Among(bs + [b], us) == Among(bs, us) + if b.user in us then [b] else []
  {
    assert (bs + [b])[..|bs|] == bs;
  }

  lemma {:induction false} AmongTwice(bs: seq<MemberBalance>, us: set<UserId>, vs: set<UserId>)
    ensures Among(Among(bs, us), vs) == Among(bs, us * vs)
  {
    if bs != [] {
      var n := |bs| - 1;
      AmongTwice(bs[..n], us, vs);
      if bs[n].user in us {
        AmongLast(Among(bs[..n], us), bs[n], vs);
      } else {
        assert Among(bs, us) == Among(bs[..n], us);
      }
    }
  }

  /** These two sets hold every member of the list once. */
  predicate Halves(bs: seq<MemberBalance>, us: set<UserId>, vs: set<UserId>) {
    forall i :: 0 <= i < |bs| ==> (bs[i].user in us <==> bs[i].user !in vs)
  }

  lemma {:induction false} HalvesAddUp(f: MemberBalance -> int, bs: seq<MemberBalance>, us: set<UserId>,
                                       vs: set<UserId>)
    requires Halves(bs, us, vs)
    ensures SumBy(f, bs) == SumBy(f, Among(bs, us)) + SumBy(f, Among(bs, vs))
  {
    if bs != [] {
      var n := |bs| - 1;
      HalvesAddUp(f, bs[..n], us, vs);
      SumByLast(f, bs);
      if bs[n].user in us {
        SumBySnoc(f, Among(bs[..n], us), bs[n]);
        assert Among(bs, vs) == Among(bs[..n], vs);
      } else {
        SumBySnoc(f, Among(bs[..n], vs), bs[n]);
        assert Among(bs, us) == Among(bs[..n], us);
      }
    }
  }

  function IsOn(side: Side): MemberBalance -> int {
    (b: MemberBalance) => if OnSide(side, b.net) then 1 else 0
  }

  lemma {:induction false} CountIsSum(side: Side, bs: seq<MemberBalance>)
    ensures CountOn(side, bs) == SumBy(IsOn(side), bs)
  {
    if bs != [] {
      CountIsSum(side, bs[..|bs|-1]);
      SumByLast(IsOn(side), bs);
    }
  }

  lemma HalvesCount(side: Side, bs: seq<MemberBalance>, us: set<UserId>, vs: set<UserId>)
    requires Halves(bs, us, vs)
    ensures CountOn(side, bs) == CountOn(side, Among(bs, us)) + CountOn(side, Among(bs, vs))
  {
    HalvesAddUp(IsOn(side), bs, us, vs);
    CountIsSum(side, bs);
    CountIsSum(side, Among(bs, us));
    CountIsSum(side, Among(bs, vs));
  }

  lemma {:induction false} AmongHas(bs: seq<MemberBalance>, us: set<UserId>, i: nat) returns (k: nat)
    requires i < |bs| && bs[i].user in us
    ensures k < |Among(bs, us)| && Among(bs, us)[k] == bs[i]
  {
    var n := |bs| - 1;
    if i < n {
      k := AmongHas(bs[..n], us, i);
    } else {
      k := |Among(bs[..n], us)|;
    }
  }

  /** Somebody not in the list neither sends nor receives in transfers within it. */
  lemma OutsiderMovesNothing(bs: seq<MemberBalance>, ts: seq<Transfer>, u: UserId)
    requires Within(bs, ts) && u !in UsersIn(bs)
    ensures Sent(ts, u) == 0 && Received(ts, u) == 0
  {
    UnseenMoveNothing(ts, u);
  }

  lemma AmongUsers(bs: seq<MemberBalance>, us: set<UserId>)
    requires DistinctUsers(bs)
    ensures DistinctUsers(Among(bs, us)) && UsersIn(Among(bs, us)) == UsersIn(bs) * us
  {
    AmongIs(bs, us);
  }

  /** What settles one half evens out each of its members, whatever the other half does. */
  lemma HalfEvens(bs: seq<MemberBalance>, us: set<UserId>, vs: set<UserId>, xs: seq<Transfer>, ys: seq<Transfer>,
                  i: nat)
    requires DistinctUsers(bs) && Halves(bs, us, vs) && i < |bs| && bs[i].user in us
    requires Settles(Among(bs, us), xs) && Within(Among(bs, vs), ys)
    ensures bs[i].net + (Sent(xs, bs[i].user) + Sent(ys, bs[i].user)) -
            (Received(xs, bs[i].user) + Received(ys, bs[i].user)) == 0
  {
    var k := AmongHas(bs, us, i);
    AmongUsers(bs, vs);
    OutsiderMovesNothing(Among(bs, vs), ys, bs[i].user);
    assert Among(bs, us)[k].net + Sent(xs, bs[i].user) - Received(xs, bs[i].user) == 0;
  }

  lemma BothWays(xs: seq<Transfer>, ys: seq<Transfer>, u: UserId)
    ensures Sent(xs + ys, u) == Sent(xs, u) + Sent(ys, u)
    ensures Received(xs + ys, u) == Received(xs, u) + Received(ys, u)
  {
    SumByConcat(SentBy(u), xs, ys);
    SumByConcat(ReceivedBy(u), xs, ys);
  }

  lemma HalvesSettle(bs: seq<MemberBalance>, us: set<UserId>, vs: set<UserId>, xs: seq<Transfer>, ys: seq<Transfer>)
    requires DistinctUsers(bs) && Halves(bs, us, vs)
    requires Settles(Among(bs, us), xs) && Within(Among(bs, us), xs)
    requires Settles(Among(bs, vs), ys) && Within(Among(bs, vs), ys)
    ensures Settles(bs, xs + ys) && Within(bs, xs + ys)
  {
    AmongUsers(bs, us);
    AmongUsers(bs, vs);
    var ts := xs + ys;
    forall i | 0 <= i < |bs|
      ensures bs[i].net + Sent(ts, bs[i].user) - Received(ts, bs[i].user) == 0
    {
      BothWays(xs, ys, bs[i].user);
      if bs[i].user in us {
        HalfEvens(bs, us, vs, xs, ys, i);
      } else {
        HalfEvens(bs, vs, us, ys, xs, i);
      }
    }
  }

  lemma PlanIsWithin(bs: seq<MemberBalance>)
    ensures Within(bs, Plan(bs))
  {
    forall k | 0 <= k < |Plan(bs)|
      ensures Plan(bs)[k].from in UsersIn(bs) && Plan(bs)[k].to in UsersIn(bs)
    {
      PlanConnects(bs, k);
    }
  }

  lemma ActiveAmong(bs: seq<MemberBalance>, us: set<UserId>)
    requires DistinctUsers(bs)
    ensures Active(Among(bs, us)) == Active(bs) * us
  {
    var some := Among(bs, us);
    AmongIs(bs, us);
    AmongUsers(bs, us);
    forall u | u in Active(some)
      ensures u in Active(bs) * us
    {
      var k :| 0 <= k < |some| && some[k].user == u && (OnSide(Debtors, some[k].net) || OnSide(Creditors, some[k].net));
      assert some[k] in bs && some[k].user in UsersIn(some);
    }
    forall u | u in Active(bs) * us
      ensures u in Active(some)
    {
      var i :| 0 <= i < |bs| && bs[i].user == u && (OnSide(Debtors, bs[i].net) || OnSide(Creditors, bs[i].net));
      var k := AmongHas(bs, us, i);
    }
  }

  /** A group that settles alone needs one transfer less than it has debtors and creditors. */
  lemma GroupSettles(bs: seq<MemberBalance>, g: set<UserId>)
    requires DistinctUsers(bs) && SettlesAlone(bs, g)
    ensures var some := Among(bs, g);
            && Settles(some, Plan(some)) && Within(some, Plan(some))
            && |Plan(some)| <= CountOn(Debtors, some) + CountOn(Creditors, some) - 1
  {
    var some := Among(bs, g);
    AmongUsers(bs, g);
    PlanSettlesIffZeroSum(some);
    PlanIsWithin(some);
    PlanIsShort(some);
    ActiveAmong(bs, g);
    ActiveCount(some);
    assert |Active(some)| > 0;
  }

  /** Taking one group away leaves a division of the others. */
  lemma RestDivides(bs: seq<MemberBalance>, gs: set<set<UserId>>, g: set<UserId>)
    requires DistinctUsers(bs) && Division(bs, gs) && g in gs
    ensures Division(Among(bs, UsersIn(bs) - g), gs - {g})
  {
    var others := UsersIn(bs) - g;
    ActiveAmong(bs, others);
    forall h | h in gs - {g}
      ensures SettlesAlone(Among(bs, others), h)
    {
      assert g !! h && SettlesAlone(bs, h);
      AmongTwice(bs, others, h);
      AmongAgree(bs, others * h, h);
      var u :| u in Active(bs) * h;
      ActiveMember(bs, u);
      assert u in Active(bs) * others * h;
    }
  }

  lemma ActiveMember(bs: seq<MemberBalance>, u: UserId)
    requires u in Active(bs)
    ensures u in UsersIn(bs)
  {
  }

  /** The members outside a group that settles alone. */
  function Others(bs: seq<MemberBalance>, g: set<UserId>): seq<MemberBalance> {
    Among(bs, UsersIn(bs) - g)
  }

  lemma OthersCancel(bs: seq<MemberBalance>, g: set<UserId>)
    requires DistinctUsers(bs) && ZeroSum(bs) && SettlesAlone(bs, g)
    ensures DistinctUsers(Others(bs, g)) && ZeroSum(Others(bs, g))
  {
    assert Halves(bs, g, UsersIn(bs) - g);
    AmongUsers(bs, UsersIn(bs) - g);
    HalvesAddUp(BalanceNet(), bs, g, UsersIn(bs) - g);
  }

  /** The group's own plan and whatever settles the others settle together. */
  lemma SettlesWithOthers(bs: seq<MemberBalance>, g: set<UserId>, rest: seq<Transfer>)
    requires DistinctUsers(bs) && SettlesAlone(bs, g)
    requires Settles(Others(bs, g), rest) && Within(Others(bs, g), rest)
    ensures var ts := Plan(Among(bs, g)) + rest;
            && Settles(bs, ts) && Within(bs, ts)
            && |ts| + 1 + CountOn(Debtors, Others(bs, g)) + CountOn(Creditors, Others(bs, g)) <=
               |rest| + CountOn(Debtors, bs) + CountOn(Creditors, bs)
  {
    var others := UsersIn(bs) - g;
    assert Halves(bs, g, others);
    GroupSettles(bs, g);
    HalvesSettle(bs, g, others, Plan(Among(bs, g)), rest);
    HalvesCount(Debtors, bs, g, others);
    HalvesCount(Creditors, bs, g, others);
  }

  /** Every division settles with as many transfers as there are debtors and
      creditors less the number of its groups. */
  lemma {:induction false} DivisionSettles(bs: seq<MemberBalance>, gs: set<set<UserId>>) returns (ts: seq<Transfer>)
    requires DistinctUsers(bs) && ZeroSum(bs) && Division(bs, gs)
    ensures Settles(bs, ts) && Within(bs, ts)
    ensures |ts| + |gs| <= CountOn(Debtors, bs) + CountOn(Creditors, bs)
    decreases |gs|
  {
    if gs == {} {
      ts := Plan(bs);
      PlanSettlesIffZeroSum(bs);
      PlanIsWithin(bs);
      PlanIsShort(bs);
    } else {
      var g :| g in gs;
      OthersCancel(bs, g);
      RestDivides(bs, gs, g);
      var rest := DivisionSettles(Others(bs, g), gs - {g});
      SettlesWithOthers(bs, g, rest);
      ts := Plan(Among(bs, g)) + rest;
    }
  }

  // ---------------------------------------------------------------------------
  // How long the plan is

  function Size(net: int): int {
    if net < 0 then -net else net
  }

  /** The sums, counted from here, at which one account of the line ends. */
  function Breaks(s: seq<Acct>, base: int): set<int> {
    if s == [] then {} else {base + Size(s[0].net)} + Breaks(s[1..], base + Size(s[0].net))
  }

  lemma {:induction false} BreaksAbove(side: Side, s: seq<Acct>, base: int)
    requires AllOnSide(side, s)
    ensures forall x :: x in Breaks(s, base) ==> x > base
  {
    if s != [] {
      BreaksAbove(side, s[1..], base + Size(s[0].net));
    }
  }

  /** The sums at which an account of each line ends. */
  function Common(ds: seq<Acct>, cs: seq<Acct>, base: int): set<int> {
    Breaks(ds, base) * Breaks(cs, base)
  }

  /** Paying part of the first account moves no break but the start. */
  lemma PartPaid(side: Side, s: seq<Acct>, net: int, base: int, amount: int)
    requires AllOnSide(side, s) && s != [] && 0 < amount < Size(s[0].net)
    requires Size(net) == Size(s[0].net) - amount && net != 0
    ensures Breaks(Rest(s, net), base + amount) == Breaks(s, base)
    ensures base + amount !in Breaks(s, base)
  {
    BreaksAbove(side, s[1..], base + Size(s[0].net));
    assert Rest(s, net)[1..] == s[1..];
  }

  lemma FullyPaid(side: Side, s: seq<Acct>, base: int)
    requires AllOnSide(side, s) && s != []
    ensures var end := base + Size(s[0].net);
            && Breaks(s, base) == {end} + Breaks(Rest(s, 0), end)
            && end !in Breaks(Rest(s, 0), end)
  {
    BreaksAbove(side, s[1..], base + Size(s[0].net));
  }

  lemma OneInBoth(a: set<int>, b: set<int>, x: int)
    requires x !in a && x !in b
    ensures |({x} + a) * ({x} + b)| == 1 + |a * b|
  {
    assert ({x} + a) * ({x} + b) == {x} + a * b;
  }

  /** Both accounts are emptied: a break the lines have in common. */
  lemma BothEnd(ds: seq<Acct>, cs: seq<Acct>, base: int)
    requires AllOnSide(Debtors, ds) && AllOnSide(Creditors, cs) && ds != [] && cs != []
    requires -ds[0].net == cs[0].net
    ensures |Common(ds, cs, base)| == 1 + |Common(Rest(ds, 0), Rest(cs, 0), base + cs[0].net)|
  {
    var end := base + cs[0].net;
    FullyPaid(Debtors, ds, base);
    FullyPaid(Creditors, cs, base);
    OneInBoth(Breaks(Rest(ds, 0), end), Breaks(Rest(cs, 0), end), end);
  }

  lemma EndsAlone(a: set<int>, b: set<int>, x: int)
    requires x !in b
    ensures ({x} + a) * b == a * b
  {
  }

  /** The debtor is emptied, the creditor keeps the same breaks: none in common. */
  lemma DebtorEnds(ds: seq<Acct>, cs: seq<Acct>, base: int)
    requires AllOnSide(Debtors, ds) && AllOnSide(Creditors, cs) && ds != [] && cs != []
    requires -ds[0].net < cs[0].net
    ensures Common(ds, cs, base) == Common(Rest(ds, 0), Rest(cs, cs[0].net + ds[0].net), base - ds[0].net)
  {
    FullyPaid(Debtors, ds, base);
    PartPaid(Creditors, cs, cs[0].net + ds[0].net, base, -ds[0].net);
    EndsAlone(Breaks(Rest(ds, 0), base - ds[0].net), Breaks(cs, base), base - ds[0].net);
  }

  lemma CreditorEnds(ds: seq<Acct>, cs: seq<Acct>, base: int)
    requires AllOnSide(Debtors, ds) && AllOnSide(Creditors, cs) && ds != [] && cs != []
    requires cs[0].net < -ds[0].net
    ensures Common(ds, cs, base) == Common(Rest(ds, ds[0].net + cs[0].net), Rest(cs, 0), base + cs[0].net)
  {
    var end := base + cs[0].net;
    FullyPaid(Creditors, cs, base);
    PartPaid(Debtors, ds, ds[0].net + cs[0].net, base, cs[0].net);
    EndsAlone(Breaks(Rest(cs, 0), end), Breaks(ds, base), end);
    assert Common(ds, cs, base) == Breaks(cs, base) * Breaks(ds, base);
  }

  /** One transfer uses up a break that the lines have in common exactly when it
      empties both accounts. */
  lemma OneBreak(ds: seq<Acct>, cs: seq<Acct>, base: int, amount: int)
    requires AllOnSide(Debtors, ds) && AllOnSide(Creditors, cs) && ds != [] && cs != []
    requires amount == Min(-ds[0].net, cs[0].net)
    ensures |Common(ds, cs, base)| ==
            |Common(Rest(ds, ds[0].net + amount), Rest(cs, cs[0].net - amount), base + amount)| +
            if -ds[0].net == cs[0].net then 1 else 0
  {
    if -ds[0].net == cs[0].net {
      BothEnd(ds, cs, base);
    } else if -ds[0].net < cs[0].net {
      DebtorEnds(ds, cs, base);
    } else {
      CreditorEnds(ds, cs, base);
    }
  }

  /** A transfer empties one account, or both. */
  lemma AccountsLeft(ds: seq<Acct>, cs: seq<Acct>, amount: int)
    requires ds != [] && cs != [] && amount == Min(-ds[0].net, cs[0].net)
    ensures |Rest(ds, ds[0].net + amount)| + |Rest(cs, cs[0].net - amount)| + 1 ==
            |ds| + |cs| - if -ds[0].net == cs[0].net then 1 else 0
  {
  }

  /** As many transfers as there are accounts, less the common breaks. */
  predicate MatchedIn(ds: seq<Acct>, cs: seq<Acct>, base: int) {
    |Greedy(ds, cs)| + |Common(ds, cs, base)| == |ds| + |cs|
  }

  lemma NothingLeft(base: int)
    ensures MatchedIn([], [], base)
  {
    assert Common([], [], base) == {};
  }

  lemma OneLonger(ds: seq<Acct>, cs: seq<Acct>, t: Transfer, ds': seq<Acct>, cs': seq<Acct>)
    requires First(ds, cs, t, ds', cs')
    ensures |Greedy(ds, cs)| == |Greedy(ds', cs')| + 1
  {
    GreedyHead(ds, cs, t, ds', cs');
  }

  lemma OneMoreLong(ds: seq<Acct>, cs: seq<Acct>, t: Transfer, ds': seq<Acct>, cs': seq<Acct>, base: int)
    requires AllOnSide(Debtors, ds) && AllOnSide(Creditors, cs) && First(ds, cs, t, ds', cs')
    requires MatchedIn(ds', cs', base + t.amount)
    ensures MatchedIn(ds, cs, base)
  {
    OneLonger(ds, cs, t, ds', cs');
    AccountsLeft(ds, cs, t.amount);
    assert |Common(ds, cs, base)| == |Common(ds', cs', base + t.amount)| + |ds| + |cs| - |ds'| - |cs'| - 1 by {
      OneBreak(ds, cs, base, t.amount);
    }
  }

  /** Two lines that cancel are matched in as many transfers as they have accounts
      less the breaks they have in common. */
  lemma {:induction false} GreedyLength(ds: seq<Acct>, cs: seq<Acct>, base: int)
    requires Cancel(ds, cs)
    ensures MatchedIn(ds, cs, base)
    decreases |ds| + |cs|
  {
    if ds == [] && cs == [] {
      NothingLeft(base);
    } else {
      var t, ds', cs' := OneMatched(ds, cs);
      GreedyLength(ds', cs', base + t.amount);
      OneMoreLong(ds, cs, t, ds', cs', base);
    }
  }

  /** The running sums that the debts, largest first, and the credits, largest
      first, have in common. */
  function CommonSums(bs: seq<MemberBalance>): set<int> {
    Common(Line(Debtors, bs), Line(Creditors, bs), 0)
  }

  lemma PlanLength(bs: seq<MemberBalance>)
    requires ZeroSum(bs)
    ensures |Plan(bs)| == CountOn(Debtors, bs) + CountOn(Creditors, bs) - |CommonSums(bs)|
  {
    LinesCancel(bs);
    LineOnSide(Debtors, bs);
    LineOnSide(Creditors, bs);
    GreedyLength(Line(Debtors, bs), Line(Creditors, bs), 0);
    LinePermutes(Debtors, bs, NetOf());
    LinePermutes(Creditors, bs, NetOf());
  }

  // ---------------------------------------------------------------------------
  // When it is the shortest

  /** No way of settling, among the members or through third parties, has fewer
      transfers than the plan. */
  ghost predicate PlanIsShortest(bs: seq<MemberBalance>) {
    forall ts :: Settles(bs, ts) ==> |Plan(bs)| <= |ts|
  }

  /** The plan is the shortest if and only if the members cannot be divided into
      more groups that settle separately than the two sorted lines have running
      sums in common. */
  lemma PlanIsShortestIff(bs: seq<MemberBalance>)
    requires DistinctUsers(bs) && ZeroSum(bs)
    ensures PlanIsShortest(bs) <==> forall gs :: Division(bs, gs) ==> |gs| <= |CommonSums(bs)|
  {
    PlanLength(bs);
    if PlanIsShortest(bs) {
      forall gs | Division(bs, gs)
        ensures |gs| <= |CommonSums(bs)|
      {
        var ts := DivisionSettles(bs, gs);
      }
    }
    if forall gs :: Division(bs, gs) ==> |gs| <= |CommonSums(bs)| {
      forall ts | Settles(bs, ts)
        ensures |Plan(bs)| <= |ts|
      {
        var gs := SettlingDivides(bs, ts);
      }
    }
  }

  /** No group of members settles among itself unless it has everybody, or
      nobody, who owes or is owed. */
  ghost predicate Indivisible(bs: seq<MemberBalance>) {
    forall us: set<UserId> :: SumBy(BalanceNet(), Among(bs, us)) == 0 ==>
      Active(bs) <= us || Active(bs) * us == {}
  }

  lemma OneGroup(bs: seq<MemberBalance>, gs: set<set<UserId>>)
    requires Indivisible(bs) && Division(bs, gs)
    ensures |gs| <= 1
  {
    if gs != {} {
      var g :| g in gs;
      assert SettlesAlone(bs, g);
      forall h | h in gs
        ensures h == g
      {
        assert SettlesAlone(bs, h);
        var u :| u in Active(bs) * h;
        assert u in g;
      }
      SubsetSize(gs, {g});
    }
  }

  /** When the members cannot be divided into groups that settle separately, no
      way of settling has fewer transfers than the plan, be the nets zero-sum or not. */
  lemma IndivisiblePlanIsShortest(bs: seq<MemberBalance>, ts: seq<Transfer>)
    requires DistinctUsers(bs) && Settles(bs, ts) && Indivisible(bs)
    ensures |Plan(bs)| <= |ts|
  {
    if Plan(bs) != [] {
      PlanIsShort(bs);
      var gs := SettlingDivides(bs, ts);
      OneGroup(bs, gs);
    }
  }
}
