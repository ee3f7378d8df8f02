/** `computePlan`: debtors and creditors sorted once, then matched from the front. */
module Planner {
  import opened Sums
  import opened Ids

  datatype MemberBalance = MemberBalance(user: UserId, paid: int, fairShare: int, net: int)

  datatype Transfer = Transfer(from: UserId, to: UserId, amount: int)

  datatype Acct = Acct(user: UserId, net: int)

  datatype Side = Debtors | Creditors

  predicate OnSide(side: Side, net: int) {
    if side.Debtors? then net < 0 else net > 0
  }

  /** The accounts of one side, in the order of the balances. */
  function AcctsOf(side: Side, bs: seq<MemberBalance>): seq<Acct> {
    if bs == [] then []
    else
      var b := bs[|bs|-1];
      AcctsOf(side, bs[..|bs|-1]) + if OnSide(side, b.net) then [Acct(b.user, b.net)] else []
  }

  // ---------------------------------------------------------------------------
  // Sorting

  /** The two comparison functions: larger size first, ties by user id. */
  predicate Ranks(side: Side, a: Acct, b: Acct) {
    if a.net != b.net then (if side.Debtors? then a.net < b.net else a.net > b.net)
    else Less(a.user, b.user)
  }

  /** What `sort.Slice` promises: no element ranks before an earlier one. */
  predicate Sorted(side: Side, s: seq<Acct>) {
    forall i, j :: 0 <= i < j < |s| ==> !Ranks(side, s[j], s[i])
  }

  lemma RanksIsTotal(side: Side, a: Acct, b: Acct)
    ensures a == b || Ranks(side, a, b) || Ranks(side, b, a)
    ensures Ranks(side, a, b) ==> !Ranks(side, b, a)
  {
    LessIsTotal(a.user, b.user);
    if Less(a.user, b.user) {
      LessIsStrict(a.user, b.user);
    }
  }

  lemma RanksIsTransitive(side: Side, a: Acct, b: Acct, c: Acct)
    requires !Ranks(side, b, a) && !Ranks(side, c, b)
    ensures !Ranks(side, c, a)
  {
    RanksIsTotal(side, a, b);
    RanksIsTotal(side, b, c);
    if a != b && b != c && a.net == b.net == c.net {
      LessIsTransitive(a.user, b.user, c.user);
      LessIsStrict(a.user, c.user);
    }
  }

  function Insert(side: Side, s: seq<Acct>, x: Acct): seq<Acct> {
    if s == [] then [x]
    else
      var n := |s| - 1;
      if Ranks(side, x, s[n]) then Insert(side, s[..n], x) + [s[n]] else s + [x]
  }

  /** An arrangement of the accounts; by `OneArrangement` it is the only sorted one. */
  function Arranged(side: Side, s: seq<Acct>): seq<Acct> {
    if s == [] then [] else Insert(side, Arranged(side, s[..|s|-1]), s[|s|-1])
  }

  lemma {:induction false} InsertAdds(side: Side, s: seq<Acct>, x: Acct)
    ensures multiset(Insert(side, s, x)) == multiset(s) + multiset{x}
  {
    if s != [] {
      InsertAdds(side, s[..|s|-1], x);
      assert s == s[..|s|-1] + [s[|s|-1]];
    }
  }

  lemma SortedSnoc(side: Side, s: seq<Acct>, x: Acct)
    requires Sorted(side, s) && (s != [] ==> !Ranks(side, x, s[|s|-1]))
    ensures Sorted(side, s + [x])
  {
    forall i | 0 <= i < |s|
      ensures !Ranks(side, x, s[i])
    {
      if i < |s| - 1 {
        RanksIsTransitive(side, s[i], s[|s|-1], x);
      }
    }
  }

  lemma {:induction false} InsertSorts(side: Side, s: seq<Acct>, x: Acct)
    requires Sorted(side, s)
    ensures Sorted(side, Insert(side, s, x))
  {
    if s == [] || !Ranks(side, x, s[|s|-1]) {
      SortedSnoc(side, s, x);
    } else {
      var front, last := s[..|s|-1], s[|s|-1];
      var r := Insert(side, front, x);
      InsertSorts(side, front, x);
      InsertAdds(side, front, x);
      assert r[|r|-1] in multiset(r);
      assert r[|r|-1] == x || r[|r|-1] in front;
      RanksIsTotal(side, x, last);
      SortedSnoc(side, r, last);
    }
  }

  lemma {:induction false} ArrangedIsSorted(side: Side, s: seq<Acct>)
    ensures Sorted(side, Arranged(side, s)) && multiset(Arranged(side, s)) == multiset(s)
  {
    if s != [] {
      var n := |s| - 1;
      ArrangedIsSorted(side, s[..n]);
      InsertSorts(side, Arranged(side, s[..n]), s[n]);
      InsertAdds(side, Arranged(side, s[..n]), s[n]);
      assert s == s[..n] + [s[n]];
    }
  }

  /** A last element of a sorted arrangement is one that nothing follows. */
  lemma LastIsLast(side: Side, a: seq<Acct>, b: seq<Acct>)
    requires a != [] && b != [] && multiset(a) == multiset(b) && Sorted(side, a)
    ensures !Ranks(side, a[|a|-1], b[|b|-1])
  {
    var x := b[|b|-1];
    assert x in multiset(a);
    var i :| 0 <= i < |a| && a[i] == x;
    RanksIsTotal(side, x, x);
  }

  lemma LastsAgree(side: Side, a: seq<Acct>, b: seq<Acct>)
    requires a != [] && b != [] && multiset(a) == multiset(b) && Sorted(side, a) && Sorted(side, b)
    ensures a[|a|-1] == b[|b|-1]
  {
    LastIsLast(side, a, b);
    LastIsLast(side, b, a);
    RanksIsTotal(side, a[|a|-1], b[|b|-1]);
  }

  lemma SortedFront(side: Side, s: seq<Acct>)
    requires Sorted(side, s) && s != []
    ensures Sorted(side, s[..|s|-1])
  {
  }

  lemma FrontAndLast(a: seq<Acct>, b: seq<Acct>)
    requires a != [] && b != [] && a[..|a|-1] == b[..|b|-1] && a[|a|-1] == b[|b|-1]
    ensures a == b
  {
    assert a == a[..|a|-1] + [a[|a|-1]];
    assert b == b[..|b|-1] + [b[|b|-1]];
  }

  /** Every sorting algorithm, stable or not, produces the same arrangement:
      accounts with equal keys are equal accounts. */
  lemma {:induction false} OneArrangement(side: Side, a: seq<Acct>, b: seq<Acct>)
    requires Sorted(side, a) && Sorted(side, b) && multiset(a) == multiset(b)
    ensures a == b
    decreases |a|
  {
    assert |a| == |multiset(a)| == |multiset(b)| == |b|;
    if a != [] {
      LastsAgree(side, a, b);
      DroppedLast(a);
      DroppedLast(b);
      SortedFront(side, a);
      SortedFront(side, b);
      OneArrangement(side, a[..|a|-1], b[..|b|-1]);
      FrontAndLast(a, b);
    }
  }

  /** The sort, in place. Its contract is `sort.Slice`'s: nothing about stability. */
  method SortSlice(side: Side, a: array<Acct>)
    modifies a
    ensures Sorted(side, a[..]) && multiset(a[..]) == multiset(old(a[..]))
  {
    var s := Arranged(side, a[..]);
    ArrangedIsSorted(side, a[..]);
    assert |s| == |multiset(s)| == |multiset(a[..])| == a.Length;
    forall i | 0 <= i < a.Length {
      a[i] := s[i];
    }
    assert a[..] == s;
  }

  // ---------------------------------------------------------------------------
  // Matching

  function Min(a: int, b: int): int {
    if a < b then a else b
  }

  /** What is left of a list whose first account moves to `net`. */
  function Rest(s: seq<Acct>, net: int): (r: seq<Acct>)
    requires s != []
  {
    if net == 0 then s[1..] else [Acct(s[0].user, net)] + s[1..]
  }

  /** The first debtor pays the first creditor as much as both allow. */
  function Payment(d: Acct, c: Acct): Transfer {
    Transfer(d.user, c.user, Min(-d.net, c.net))
  }

  /** One payment after the other; whoever reaches zero leaves. */
  function Greedy(ds: seq<Acct>, cs: seq<Acct>): seq<Transfer>
    decreases |ds| + |cs|
  {
    if ds == [] || cs == [] then []
    else
      var t := Payment(ds[0], cs[0]);
      [t] + Greedy(Rest(ds, ds[0].net + t.amount), Rest(cs, cs[0].net - t.amount))
  }

  function Line(side: Side, bs: seq<MemberBalance>): seq<Acct> {
    Arranged(side, AcctsOf(side, bs))
  }

  function Plan(bs: seq<MemberBalance>): seq<Transfer> {
    Greedy(Line(Debtors, bs), Line(Creditors, bs))
  }

  lemma AcctsSnoc(side: Side, bs: seq<MemberBalance>, i: nat)
    requires i < |bs|
    ensures AcctsOf(side, bs[..i+1]) ==
            if OnSide(side, bs[i].net) then AcctsOf(side, bs[..i]) + [Acct(bs[i].user, bs[i].net)]
            else AcctsOf(side, bs[..i])
  {
    assert bs[..i+1][..i] == bs[..i];
  }

  /** The accounts of one side, copied out of the balances and sorted in place. */
  method LineUp(side: Side, accts: seq<Acct>, ghost bs: seq<MemberBalance>) returns (a: array<Acct>)
    requires accts == AcctsOf(side, bs)
    ensures fresh(a) && a[..] == Line(side, bs)
  {
    a := new Acct[|accts|](i requires 0 <= i < |accts| => accts[i]);
    assert a[..] == accts;
    SortSlice(side, a);
    ArrangedIsSorted(side, accts);
    OneArrangement(side, a[..], Arranged(side, accts));
  }

  method ComputePlan(balances: seq<MemberBalance>) returns (plan: seq<Transfer>)
    ensures plan == Plan(balances)
  {
    var ds: seq<Acct>, cs: seq<Acct> := [], [];
    var k := 0;
    while k < |balances|
      invariant 0 <= k <= |balances|
      invariant ds == AcctsOf(Debtors, balances[..k]) && cs == AcctsOf(Creditors, balances[..k])
    {
      AcctsSnoc(Debtors, balances, k);
      AcctsSnoc(Creditors, balances, k);
      var b := balances[k];
      if b.net < 0 {
        ds := ds + [Acct(b.user, b.net)];
      } else if b.net > 0 {
        cs := cs + [Acct(b.user, b.net)];
      }
      k := k + 1;
    }
    assert balances[..k] == balances;
    var debtors := LineUp(Debtors, ds, balances);
    var creditors := LineUp(Creditors, cs, balances);
    plan := Match(debtors, creditors);
  }

  /** One transfer: both balances move in place, and a pointer whose balance
      reached zero moves on. */
  method Pay(debtors: array<Acct>, creditors: array<Acct>, i: nat, j: nat, ghost ds: seq<Acct>, ghost cs: seq<Acct>)
    returns (t: Transfer, i': nat, j': nat)
    requires debtors != creditors && i < debtors.Length && j < creditors.Length
    requires ds == debtors[i..] && cs == creditors[j..]
    modifies debtors, creditors
    ensures t == Payment(ds[0], cs[0])
    ensures i <= i' <= debtors.Length && j <= j' <= creditors.Length
    ensures debtors[i'..] == Rest(ds, ds[0].net + t.amount)
    ensures creditors[j'..] == Rest(cs, cs[0].net - t.amount)
    ensures i' - i == (if ds[0].net + t.amount == 0 then 1 else 0)
    ensures j' - j == (if cs[0].net - t.amount == 0 then 1 else 0)
  {
    assert debtors[i] == ds[0] && creditors[j] == cs[0];
    var owe := -debtors[i].net;
    var credit := creditors[j].net;
    var amt := owe;
    if credit < amt {
      amt := credit;
    }
    t := Transfer(debtors[i].user, creditors[j].user, amt);
    debtors[i] := debtors[i].(net := debtors[i].net + amt);
    creditors[j] := creditors[j].(net := creditors[j].net - amt);
    i', j' := i, j;
    if debtors[i].net == 0 {
      i' := i + 1;
    }
    if creditors[j].net == 0 {
      j' := j + 1;
    }
  }

  /** The first transfer of two lines, and what it leaves of them. */
  predicate First(ds: seq<Acct>, cs: seq<Acct>, t: Transfer, ds': seq<Acct>, cs': seq<Acct>) {
    && ds != [] && cs != []
    && t == Payment(ds[0], cs[0])
    && ds' == Rest(ds, ds[0].net + t.amount) && cs' == Rest(cs, cs[0].net - t.amount)
  }

  /** The definition, on named results. */
  lemma GreedyUnfolds(ds: seq<Acct>, cs: seq<Acct>, t: Transfer, ds': seq<Acct>, cs': seq<Acct>,
                      plan: seq<Transfer>, rest: seq<Transfer>)
    requires First(ds, cs, t, ds', cs') && plan == Greedy(ds, cs) && rest == Greedy(ds', cs')
    ensures plan == [t] + rest
  {
  }

  lemma GreedyHead(ds: seq<Acct>, cs: seq<Acct>, t: Transfer, ds': seq<Acct>, cs': seq<Acct>)
    requires First(ds, cs, t, ds', cs')
    ensures Greedy(ds, cs) == [t] + Greedy(ds', cs')
  {
    GreedyUnfolds(ds, cs, t, ds', cs', Greedy(ds, cs), Greedy(ds', cs'));
  }

  lemma RestIsNoLonger(s: seq<Acct>, net: int)
    requires s != []
    ensures |Rest(s, net)| == if net == 0 then |s| - 1 else |s|
  {
  }

  /** A transfer empties at least one of the two accounts, and the matching goes
      on with what is left. */
  lemma AfterOne(ds: seq<Acct>, cs: seq<Acct>, t: Transfer)
    requires ds != [] && cs != []
    requires t == Payment(ds[0], cs[0])
    ensures ds[0].net + t.amount == 0 || cs[0].net - t.amount == 0
    ensures var ds', cs' := Rest(ds, ds[0].net + t.amount), Rest(cs, cs[0].net - t.amount);
            && Greedy(ds, cs) == [t] + Greedy(ds', cs')
            && |ds'| + |cs'| < |ds| + |cs| && |ds'| <= |ds| && |cs'| <= |cs|
  {
    GreedyHead(ds, cs, t, Rest(ds, ds[0].net + t.amount), Rest(cs, cs[0].net - t.amount));
    RestIsNoLonger(ds, ds[0].net + t.amount);
    RestIsNoLonger(cs, cs[0].net - t.amount);
    if -ds[0].net <= cs[0].net {
      assert ds[0].net + t.amount == 0;
    } else {
      assert cs[0].net - t.amount == 0;
    }
  }

  lemma GreedyStep(plan: seq<Transfer>, ds: seq<Acct>, cs: seq<Acct>, whole: seq<Transfer>, t: Transfer)
    requires plan + Greedy(ds, cs) == whole && ds != [] && cs != []
    requires t == Payment(ds[0], cs[0])
    ensures ds[0].net + t.amount == 0 || cs[0].net - t.amount == 0
    ensures (plan + [t]) + Greedy(Rest(ds, ds[0].net + t.amount), Rest(cs, cs[0].net - t.amount)) == whole
  {
    AfterOne(ds, cs, t);
    Associative(plan, [t], Greedy(Rest(ds, ds[0].net + t.amount), Rest(cs, cs[0].net - t.amount)));
  }

  lemma Associative(a: seq<Transfer>, b: seq<Transfer>, c: seq<Transfer>)
    ensures a + (b + c) == (a + b) + c
  {
  }

  /** The two pointers. */
  method Match(debtors: array<Acct>, creditors: array<Acct>) returns (plan: seq<Transfer>)
    requires debtors != creditors
    modifies debtors, creditors
    ensures plan == Greedy(old(debtors[..]), old(creditors[..]))
  {
    plan := [];
    var i, j := 0, 0;
    ghost var ds, cs := debtors[..], creditors[..];
    ghost var whole := Greedy(ds, cs);
    while i < debtors.Length && j < creditors.Length
      invariant 0 <= i <= debtors.Length && 0 <= j <= creditors.Length
      invariant ds == debtors[i..] && cs == creditors[j..]
      invariant plan + Greedy(ds, cs) == whole
      decreases debtors.Length - i + creditors.Length - j
    {
      var t;
      t, i, j := Pay(debtors, creditors, i, j, ds, cs);
      GreedyStep(plan, ds, cs, whole, t);
      plan := plan + [t];
      ds, cs := Rest(ds, ds[0].net + t.amount), Rest(cs, cs[0].net - t.amount);
    }
  }
}
