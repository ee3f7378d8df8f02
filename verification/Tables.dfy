/** The rows of one group and the queries `CloseGroup` reads them with. */
module Tables {
  import opened Sums
  import opened Ids

  datatype GroupStatus = GroupOpen | GroupClosed | GroupSettled

  datatype Role = GroupAdmin | Member

  datatype Standing = Requested | Approved | Rejected

  /** Membership ids and user ids are separate: `paid_by` refers to the former,
      shares and payments to the latter. */
  type MembershipId = nat

  datatype Membership = Membership(id: MembershipId, role: Role, standing: Standing)

  datatype Category = Lodging | Fuel | Food | Transport | Other

  datatype Expense = Expense(paidBy: MembershipId, amount: int, category: Category,
                             shares: map<UserId, int>, deleted: bool)

  /** What the request validation and the CHECK constraints enforce. */
  predicate ValidExpense(e: Expense) {
    e.amount > 0 && forall u :: u in e.shares ==> 1 <= e.shares[u] <= 1000
  }

  predicate ValidExpenses(es: seq<Expense>) {
    forall i :: 0 <= i < |es| ==> ValidExpense(es[i])
  }

  // ---------------------------------------------------------------------------
  // ORDER BY user_id

  ghost predicate IsLeast(x: UserId, s: set<UserId>) {
    x in s && forall y :: y in s ==> y == x || Less(x, y)
  }

  lemma {:induction false} LeastExists(s: set<UserId>)
    requires s != {}
    ensures exists x :: IsLeast(x, s)
    decreases |s|
  {
    var a :| a in s;
    var rest := s - {a};
    assert s == {a} + rest;
    if rest == {} {
      assert IsLeast(a, s);
    } else {
      LeastExists(rest);
      var x :| IsLeast(x, rest);
      LessIsTotal(a, x);
      if Less(x, a) {
        assert IsLeast(x, s);
      } else {
        forall y | y in s
          ensures y == a || Less(a, y)
        {
          if y in rest && y != x {
            LessIsTransitive(a, x, y);
          }
        }
        assert IsLeast(a, s);
      }
    }
  }

  lemma LeastIsUnique(s: set<UserId>)
    ensures forall x, y :: IsLeast(x, s) && IsLeast(y, s) ==> x == y
  {
    forall x, y | IsLeast(x, s) && IsLeast(y, s)
      ensures x == y
    {
      if x != y {
        LessIsStrict(x, y);
      }
    }
  }

  ghost function Least(s: set<UserId>): (x: UserId)
    requires s != {}
    ensures IsLeast(x, s)
  {
    LeastExists(s);
    var x :| IsLeast(x, s);
    x
  }

  ghost function InOrder(s: set<UserId>): seq<UserId> {
    if s == {} then []
    else
      var x := Least(s);
      [x] + InOrder(s - {x})
  }

  /** The ordered listing has every element once, in strictly increasing order. */
  lemma {:induction false} InOrderIs(s: set<UserId>)
    ensures Distinct(InOrder(s)) && |InOrder(s)| == |s|
    ensures forall u :: u in InOrder(s) <==> u in s
    ensures forall i, j :: 0 <= i < j < |InOrder(s)| ==> Less(InOrder(s)[i], InOrder(s)[j])
  {
    if s != {} {
      var x := Least(s);
      InOrderIs(s - {x});
      var rest := InOrder(s - {x});
      forall j | 0 <= j < |rest|
        ensures rest[j] != x && Less(x, rest[j])
      {
        assert rest[j] in s - {x};
      }
    }
  }

  // ---------------------------------------------------------------------------
  // SUM(amount_baisa) ... WHERE deleted_at IS NULL GROUP BY ...

  ghost function SumMap<K(!new)>(m: map<K, int>): int
    decreases |m|
  {
    if m == map[] then 0
    else
      var k :| k in m;
      m[k] + SumMap(m - {k})
  }

  lemma {:induction false} SumMapWithout<K(!new)>(m: map<K, int>, k: K)
    requires k in m
    ensures SumMap(m) == m[k] + SumMap(m - {k})
    decreases |m|
  {
    var c :| c in m && SumMap(m) == m[c] + SumMap(m - {c});
    if c != k {
      SumMapWithout(m - {c}, k);
      SumMapWithout(m - {k}, c);
      assert m - {c} - {k} == m - {k} - {c};
    }
  }

  lemma SumMapUpdate<K(!new)>(m: map<K, int>, k: K, v: int)
    ensures SumMap(m[k := v]) == SumMap(m) + v - (if k in m then m[k] else 0)
  {
    SumMapWithout(m[k := v], k);
    if k in m {
      SumMapWithout(m, k);
      assert m[k := v] - {k} == m - {k};
    } else {
      assert m[k := v] - {k} == m;
    }
  }

  function CountedAmount(): Expense -> int {
    (e: Expense) => if e.deleted then 0 else e.amount
  }

  /** What the live expenses come to. */
  function LiveTotal(es: seq<Expense>): int {
    SumBy(CountedAmount(), es)
  }

  function AmountFor<K(==)>(key: Expense -> K, k: K): Expense -> int {
    (e: Expense) => if !e.deleted && key(e) == k then e.amount else 0
  }

  function LiveKeys<K(==)>(key: Expense -> K, es: seq<Expense>): set<K> {
    set i | 0 <= i < |es| && !es[i].deleted :: key(es[i])
  }

  /** The sum of each of these groups. */
  function SumsFor<K(==)>(key: Expense -> K, ks: set<K>, es: seq<Expense>): map<K, int> {
    map k | k in ks :: SumBy(AmountFor(key, k), es)
  }

  function Grouped<K(==)>(key: Expense -> K, es: seq<Expense>): map<K, int> {
    SumsFor(key, LiveKeys(key, es), es)
  }

  function PayerOf(): Expense -> MembershipId {
    (e: Expense) => e.paidBy
  }

  function CategoryOf(): Expense -> Category {
    (e: Expense) => e.category
  }

  lemma {:induction false} NoLiveKey<K>(key: Expense -> K, k: K, es: seq<Expense>)
    requires forall i :: 0 <= i < |es| && !es[i].deleted ==> key(es[i]) != k
    ensures SumBy(AmountFor(key, k), es) == 0
  {
    if es != [] {
      SumByLast(AmountFor(key, k), es);
      NoLiveKey(key, k, es[..|es|-1]);
    }
  }

  lemma {:induction false} ZeroMap<K(!new)>(m: map<K, int>)
    requires forall k :: k in m ==> m[k] == 0
    ensures SumMap(m) == 0
    decreases |m|
  {
    if m != map[] {
      var k :| k in m;
      SumMapWithout(m, k);
      ZeroMap(m - {k});
    }
  }

  lemma SumsForLast<K>(key: Expense -> K, ks: set<K>, es: seq<Expense>)
    requires es != [] && (!es[|es|-1].deleted ==> key(es[|es|-1]) in ks)
    ensures var e, before := es[|es|-1], SumsFor(key, ks, es[..|es|-1]);
            SumsFor(key, ks, es) == if e.deleted then before else before[key(e) := before[key(e)] + e.amount]
  {
    forall k | k in ks
      ensures SumBy(AmountFor(key, k), es) ==
              SumBy(AmountFor(key, k), es[..|es|-1]) + AmountFor(key, k)(es[|es|-1])
    {
      SumByLast(AmountFor(key, k), es);
    }
  }

  lemma {:induction false} SumsAddUp<K(!new)>(key: Expense -> K, ks: set<K>, es: seq<Expense>)
    requires forall i :: 0 <= i < |es| && !es[i].deleted ==> key(es[i]) in ks
    ensures SumMap(SumsFor(key, ks, es)) == LiveTotal(es)
  {
    if es == [] {
      ZeroMap(SumsFor(key, ks, es));
    } else {
      var n := |es| - 1;
      var e, before := es[n], SumsFor(key, ks, es[..n]);
      SumsAddUp(key, ks, es[..n]);
      SumsForLast(key, ks, es);
      SumByLast(CountedAmount(), es);
      if !e.deleted {
        SumMapUpdate(before, key(e), before[key(e)] + e.amount);
      }
    }
  }

  /** Grouping by anything keeps the total. */
  lemma GroupsAddUp<K(!new)>(key: Expense -> K, es: seq<Expense>)
    ensures SumMap(Grouped(key, es)) == LiveTotal(es)
  {
    SumsAddUp(key, LiveKeys(key, es), es);
  }

  function PaidOf(paid: map<MembershipId, int>, m: MembershipId): int {
    if m in paid then paid[m] else 0
  }

  lemma PaidIs(es: seq<Expense>, m: MembershipId)
    ensures PaidOf(Grouped(PayerOf(), es), m) == SumBy(AmountFor(PayerOf(), m), es)
  {
    if m !in LiveKeys(PayerOf(), es) {
      forall i | 0 <= i < |es| && !es[i].deleted
        ensures PayerOf()(es[i]) != m
      {
        assert PayerOf()(es[i]) in LiveKeys(PayerOf(), es);
      }
      NoLiveKey(PayerOf(), m, es);
    }
  }
}
