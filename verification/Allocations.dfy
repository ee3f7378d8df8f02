/** `allocationsFromRows`: the flat LEFT JOIN of expenses and shares, regrouped. */
module Allocations {
  import opened Sums
  import opened Ids

  datatype Option<T> = None | Some(value: T)

  /** Expense ids are only ever compared for equality. */
  type ExpenseId = nat

  /** One row of the join; an expense without shares has one row without a user. */
  datatype Row = Row(id: ExpenseId, amount: int, user: Option<UserId>, weight: Option<int>)

  /** One expense's split instruction; no users means everybody, equally. */
  datatype Allocation = Allocation(amount: int, users: seq<UserId>, weights: seq<int>)

  // ---------------------------------------------------------------------------
  // The regrouping, independent of how the loop does it

  function WeightOf(r: Row): int {
    if r.weight.None? then 1 else r.weight.value
  }

  function Users(rows: seq<Row>): seq<UserId> {
    if rows == [] then []
    else
      var r := rows[|rows|-1];
      Users(rows[..|rows|-1]) + if r.user.None? then [] else [r.user.value]
  }

  function Weights(rows: seq<Row>): (w: seq<int>)
    ensures |w| == |Users(rows)|
  {
    if rows == [] then []
    else
      var r := rows[|rows|-1];
      Weights(rows[..|rows|-1]) + if r.user.None? then [] else [WeightOf(r)]
  }

  /** A row with a user adds the user with its weight, or with 1 for a null weight;
      a row without one adds nothing. */
  lemma UserWeight(rows: seq<Row>, r: Row)
    ensures Users([]) == [] && Weights([]) == []
    ensures r.user == None ==> Users(rows + [r]) == Users(rows) && Weights(rows + [r]) == Weights(rows)
    ensures forall u :: r.user == Some(u) ==> Users(rows + [r]) == Users(rows) + [u]
    ensures forall u :: r == Row(r.id, r.amount, Some(u), None) ==> Weights(rows + [r]) == Weights(rows) + [1]
    ensures forall u, w :: r == Row(r.id, r.amount, Some(u), Some(w)) ==> Weights(rows + [r]) == Weights(rows) + [w]
  {
    assert (rows + [r])[..|rows|] == rows;
  }

  /** The rows of one expense, in order. */
  function RowsOf(rows: seq<Row>, id: ExpenseId): seq<Row> {
    if rows == [] then []
    else
      var r := rows[|rows|-1];
      RowsOf(rows[..|rows|-1], id) + if r.id == id then [r] else []
  }

  /** The expense ids, each once, in the order they first appear. */
  function FirstIds(rows: seq<Row>): seq<ExpenseId> {
    if rows == [] then []
    else
      var before, id := FirstIds(rows[..|rows|-1]), rows[|rows|-1].id;
      if id in before then before else before + [id]
  }

  lemma {:induction false} FirstIdsDistinct(rows: seq<Row>)
    ensures Distinct(FirstIds(rows))
    ensures forall r :: r in rows ==> r.id in FirstIds(rows)
  {
    if rows != [] {
      FirstIdsDistinct(rows[..|rows|-1]);
    }
  }

  lemma {:induction false} EveryIdHasRows(rows: seq<Row>, id: ExpenseId)
    ensures id in FirstIds(rows) <==> RowsOf(rows, id) != []
    ensures forall r :: r in RowsOf(rows, id) ==> r in rows && r.id == id
  {
    if rows != [] {
      EveryIdHasRows(rows[..|rows|-1], id);
    }
  }

  function WithRow(a: Allocation, r: Row): Allocation {
    if r.user.None? then a else Allocation(a.amount, a.users + [r.user.value], a.weights + [WeightOf(r)])
  }

  function Position(ids: seq<ExpenseId>, id: ExpenseId): (k: nat)
    ensures k <= |ids| && (k < |ids| <==> id in ids) && (k < |ids| ==> ids[k] == id)
  {
    if ids == [] then 0
    else
      var n := |ids| - 1;
      if ids[n] == id then n
      else
        var k := Position(ids[..n], id);
        if k == n then n + 1 else k
  }

  /** One more row: it opens an allocation at the end when its expense is new,
      and adds its user, if it names one, to the allocation of its expense. */
  function Step(out: seq<Allocation>, ids: seq<ExpenseId>, r: Row): (next: seq<Allocation>)
    requires |out| == |ids|
    ensures |next| == |ids| + (if r.id in ids then 0 else 1)
  {
    var k := Position(ids, r.id);
    var started := if k == |ids| then out + [Allocation(r.amount, [], [])] else out;
    started[k := WithRow(started[k], r)]
  }

  function Regrouped(rows: seq<Row>): (out: seq<Allocation>)
    ensures |out| == |FirstIds(rows)|
  {
    if rows == [] then []
    else
      var front := rows[..|rows|-1];
      Step(Regrouped(front), FirstIds(front), rows[|rows|-1])
  }

  // ---------------------------------------------------------------------------
  // The loop, with its map from expense id to position

  predicate Indexes(idx: map<ExpenseId, nat>, ids: seq<ExpenseId>) {
    && (forall id :: id in ids ==> id in idx)
    && (forall id :: id in idx ==> idx[id] < |ids| && ids[idx[id]] == id)
  }

  lemma Extended(rows: seq<Row>, n: nat)
    requires n < |rows|
    ensures var ids := FirstIds(rows[..n]);
            && Distinct(ids)
            && FirstIds(rows[..n+1]) == (if rows[n].id in ids then ids else ids + [rows[n].id])
            && Regrouped(rows[..n+1]) == Step(Regrouped(rows[..n]), ids, rows[n])
  {
    FirstIdsDistinct(rows[..n]);
    assert rows[..n+1][..n] == rows[..n];
  }

  lemma {:induction false} PositionIs(ids: seq<ExpenseId>, id: ExpenseId, k: nat)
    requires Distinct(ids) && k <= |ids|
    requires if k < |ids| then ids[k] == id else id !in ids
    ensures Position(ids, id) == k
  {
  }

  /** The loop body: one row, looked up in the map. */
  method AddRow(out: seq<Allocation>, idx: map<ExpenseId, nat>, r: Row, ghost ids: seq<ExpenseId>)
    returns (out': seq<Allocation>, idx': map<ExpenseId, nat>)
    requires |out| == |ids| && Distinct(ids) && Indexes(idx, ids)
    ensures out' == Step(out, ids, r)
    ensures Indexes(idx', if r.id in ids then ids else ids + [r.id])
  {
    out', idx' := out, idx;
    var i;
    if r.id in idx {
      i := idx[r.id];
    } else {
      i := |out|;
      idx' := idx[r.id := i];
      out' := out + [Allocation(r.amount, [], [])];
    }
    PositionIs(ids, r.id, i);
    if r.user.Some? {
      var w := 1;
      if r.weight.Some? {
        w := r.weight.value;
      }
      out' := out'[i := Allocation(out'[i].amount, out'[i].users + [r.user.value], out'[i].weights + [w])];
    }
  }

  method AllocationsFromRows(rows: seq<Row>) returns (out: seq<Allocation>)
    ensures out == Regrouped(rows)
  {
    out := [];
    var idx: map<ExpenseId, nat> := map[];
    var n := 0;
    while n < |rows|
      invariant 0 <= n <= |rows|
      invariant out == Regrouped(rows[..n])
      invariant Indexes(idx, FirstIds(rows[..n]))
    {
      Extended(rows, n);
      out, idx := AddRow(out, idx, rows[n], FirstIds(rows[..n]));
      n := n + 1;
    }
    assert rows[..n] == rows;
  }

  // ---------------------------------------------------------------------------
  // What the loop computes, expense by expense

  /** What the rows of one expense amount to. */
  function Group(rows: seq<Row>): Allocation {
    Allocation(if rows == [] then 0 else rows[0].amount, Users(rows), Weights(rows))
  }

  lemma RowsOfSnoc(rows: seq<Row>, r: Row, id: ExpenseId)
    ensures RowsOf(rows + [r], id) == if r.id == id then RowsOf(rows, id) + [r] else RowsOf(rows, id)
  {
    assert (rows + [r])[..|rows|] == rows;
  }

  lemma GroupSnoc(rows: seq<Row>, r: Row)
    ensures Group(rows + [r]) ==
            WithRow(if rows == [] then Allocation(r.amount, [], []) else Group(rows), r)
  {
    assert (rows + [r])[..|rows|] == rows;
  }

  lemma GroupOfSnoc(rows: seq<Row>, r: Row, id: ExpenseId)
    ensures id != r.id ==> Group(RowsOf(rows + [r], id)) == Group(RowsOf(rows, id))
    ensures id == r.id && id in FirstIds(rows) ==>
              Group(RowsOf(rows + [r], id)) == WithRow(Group(RowsOf(rows, id)), r)
    ensures id == r.id && id !in FirstIds(rows) ==>
              Group(RowsOf(rows + [r], id)) == WithRow(Allocation(r.amount, [], []), r)
  {
    RowsOfSnoc(rows, r, id);
    GroupSnoc(RowsOf(rows, id), r);
    EveryIdHasRows(rows, id);
  }

  /** The k-th allocation is what the rows of the k-th expense amount to,
      wherever among the others those rows stand. */
  lemma {:induction false} RegroupedAt(rows: seq<Row>, k: nat)
    requires k < |FirstIds(rows)|
    ensures Regrouped(rows)[k] == Group(RowsOf(rows, FirstIds(rows)[k]))
  {
    var front, r := rows[..|rows|-1], rows[|rows|-1];
    var ids := FirstIds(front);
    assert rows == front + [r];
    FirstIdsDistinct(front);
    FirstIdsDistinct(rows);
    GroupOfSnoc(front, r, FirstIds(rows)[k]);
    if k < |ids| {
      RegroupedAt(front, k);
      assert ids[k] in ids;
    }
  }

  // ---------------------------------------------------------------------------
  // Regrouping undoes the join

  datatype Share = Share(user: UserId, weight: Option<int>)

  datatype Entry = Entry(id: ExpenseId, amount: int, shares: seq<Share>)

  function ShareRows(id: ExpenseId, amount: int, shares: seq<Share>): (rows: seq<Row>)
    ensures |rows| == |shares|
    ensures forall i :: 0 <= i < |rows| ==> rows[i] == Row(id, amount, Some(shares[i].user), shares[i].weight)
  {
    seq(|shares|, i requires 0 <= i < |shares| => Row(id, amount, Some(shares[i].user), shares[i].weight))
  }

  /** The rows the LEFT JOIN produces for one expense. */
  function Joined(e: Entry): (rows: seq<Row>)
    ensures rows != []
  {
    if e.shares == [] then [Row(e.id, e.amount, None, None)]
    else ShareRows(e.id, e.amount, e.shares)
  }

  function Join(es: seq<Entry>): seq<Row> {
    if es == [] then [] else Join(es[..|es|-1]) + Joined(es[|es|-1])
  }

  function ShareUsers(shares: seq<Share>): (r: seq<UserId>)
    ensures |r| == |shares|
    ensures forall i :: 0 <= i < |r| ==> r[i] == shares[i].user
  {
    seq(|shares|, i requires 0 <= i < |shares| => shares[i].user)
  }

  function ShareWeights(shares: seq<Share>): (r: seq<int>)
    ensures |r| == |shares|
    ensures forall i :: 0 <= i < |r| ==> r[i] == (if shares[i].weight.None? then 1 else shares[i].weight.value)
  {
    seq(|shares|, i requires 0 <= i < |shares| => if shares[i].weight.None? then 1 else shares[i].weight.value)
  }

  /** What the regrouping should recover of an expense. */
  function Meant(e: Entry): Allocation {
    Allocation(e.amount, ShareUsers(e.shares), ShareWeights(e.shares))
  }

  lemma {:induction false} NamedRowsBack(rows: seq<Row>, shares: seq<Share>)
    requires |rows| == |shares|
    requires forall i :: 0 <= i < |rows| ==> rows[i].user == Some(shares[i].user) && rows[i].weight == shares[i].weight
    ensures Users(rows) == ShareUsers(shares) && Weights(rows) == ShareWeights(shares)
  {
    if rows != [] {
      var n := |rows| - 1;
      NamedRowsBack(rows[..n], shares[..n]);
      assert ShareUsers(shares) == ShareUsers(shares[..n]) + [shares[n].user];
      assert ShareWeights(shares) == ShareWeights(shares[..n]) + [WeightOf(rows[n])];
    }
  }

  lemma JoinedBack(e: Entry)
    ensures Group(Joined(e)) == Meant(e)
    ensures forall r :: r in Joined(e) ==> r.id == e.id
  {
    if e.shares == [] {
      var r := Row(e.id, e.amount, None, None);
      GroupSnoc([], r);
      assert [] + [r] == [r];
    } else {
      NamedRowsBack(Joined(e), e.shares);
    }
  }

  /** Each expense has an id of its own. */
  predicate DistinctIds(es: seq<Entry>) {
    forall i, j :: 0 <= i < j < |es| ==> es[i].id != es[j].id
  }

  function IdsOf(es: seq<Entry>): (r: seq<ExpenseId>)
    ensures |r| == |es|
    ensures forall i :: 0 <= i < |r| ==> r[i] == es[i].id
  {
    seq(|es|, i requires 0 <= i < |es| => es[i].id)
  }

  /** Rows that hold exactly the join of these expenses, in any interleaving
      that keeps each expense's own rows in order. */
  ghost predicate Interleaving(rows: seq<Row>, es: seq<Entry>) {
    && DistinctIds(es)
    && (forall r :: r in rows ==> r.id in IdsOf(es))
    && (forall i :: 0 <= i < |es| ==> RowsOf(rows, es[i].id) == Joined(es[i]))
  }

  lemma InterleavedIds(rows: seq<Row>, es: seq<Entry>)
    requires Interleaving(rows, es)
    ensures forall id :: id in FirstIds(rows) <==> id in IdsOf(es)
    ensures |FirstIds(rows)| == |es|
  {
    forall id
      ensures id in FirstIds(rows) <==> id in IdsOf(es)
    {
      EveryIdHasRows(rows, id);
      if id in FirstIds(rows) {
        assert RowsOf(rows, id)[0] in RowsOf(rows, id);
      }
      if id in IdsOf(es) {
        var i :| 0 <= i < |es| && es[i].id == id;
        assert RowsOf(rows, es[i].id) == Joined(es[i]) != [];
      }
    }
    FirstIdsDistinct(rows);
    SameLength(FirstIds(rows), IdsOf(es));
  }

  /** Every expense comes back with its amount, users and weights, and the
      expenses come in first-appearance order, however the rows interleave. */
  lemma RegroupingUndoesJoin(rows: seq<Row>, es: seq<Entry>)
    requires Interleaving(rows, es)
    ensures |Regrouped(rows)| == |es|
    ensures forall id :: id in FirstIds(rows) <==> id in IdsOf(es)
    ensures forall i, k :: 0 <= i < |es| && 0 <= k < |es| && es[i].id == FirstIds(rows)[k] ==>
              Regrouped(rows)[k] == Meant(es[i])
  {
    InterleavedIds(rows, es);
    forall i, k | 0 <= i < |es| && 0 <= k < |es| && es[i].id == FirstIds(rows)[k]
      ensures Regrouped(rows)[k] == Meant(es[i])
    {
      RegroupedAt(rows, k);
      JoinedBack(es[i]);
    }
  }

  lemma {:induction false} RowsOfConcat(a: seq<Row>, b: seq<Row>, id: ExpenseId)
    ensures RowsOf(a + b, id) == RowsOf(a, id) + RowsOf(b, id)
    decreases |b|
  {
    if b == [] {
      assert a + b == a;
    } else {
      var n := |b| - 1;
      assert (a + b)[..|a| + n] == a + b[..n];
      RowsOfConcat(a, b[..n], id);
    }
  }

  lemma {:induction false} RowsOfOne(rows: seq<Row>, id: ExpenseId, other: ExpenseId)
    requires forall r :: r in rows ==> r.id == id
    ensures RowsOf(rows, other) == if other == id then rows else []
  {
    if rows != [] {
      RowsOfOne(rows[..|rows|-1], id, other);
    }
  }

  lemma RowsOfJoin(es: seq<Entry>, id: ExpenseId)
    requires es != []
    ensures var n := |es| - 1;
            RowsOf(Join(es), id) ==
            if es[n].id == id then RowsOf(Join(es[..n]), id) + Joined(es[n]) else RowsOf(Join(es[..n]), id)
  {
    var n := |es| - 1;
    RowsOfConcat(Join(es[..n]), Joined(es[n]), id);
    JoinedBack(es[n]);
    RowsOfOne(Joined(es[n]), es[n].id, id);
  }

  lemma {:induction false} JoinMisses(es: seq<Entry>, id: ExpenseId)
    requires forall i :: 0 <= i < |es| ==> es[i].id != id
    ensures RowsOf(Join(es), id) == []
  {
    if es != [] {
      RowsOfJoin(es, id);
      JoinMisses(es[..|es|-1], id);
    }
  }

  lemma {:induction false} JoinHits(es: seq<Entry>, e: Entry, i: nat)
    requires i < |es| && es[i] == e && forall j :: 0 <= j < |es| && j != i ==> es[j].id != e.id
    ensures RowsOf(Join(es), e.id) == Joined(e)
  {
    RowsOfJoin(es, e.id);
    if i < |es| - 1 {
      JoinHits(es[..|es|-1], e, i);
    } else {
      JoinMisses(es[..|es|-1], e.id);
    }
  }

  lemma {:induction false} FirstIdsConcat(a: seq<Row>, b: seq<Row>, id: ExpenseId)
    requires b != [] && (forall r :: r in b ==> r.id == id) && id !in FirstIds(a)
    ensures FirstIds(a + b) == FirstIds(a) + [id]
    decreases |b|
  {
    var n := |b| - 1;
    assert (a + b)[..|a| + n] == a + b[..n];
    if n == 0 {
      assert a + b[..n] == a;
    } else {
      FirstIdsConcat(a, b[..n], id);
    }
  }

  lemma {:induction false} JoinIds(es: seq<Entry>)
    requires DistinctIds(es)
    ensures FirstIds(Join(es)) == IdsOf(es)
  {
    if es != [] {
      var n := |es| - 1;
      JoinIds(es[..n]);
      JoinedBack(es[n]);
      NewId(es);
      FirstIdsConcat(Join(es[..n]), Joined(es[n]), es[n].id);
    }
  }

  lemma NewId(es: seq<Entry>)
    requires DistinctIds(es) && es != []
    ensures es[|es|-1].id !in IdsOf(es[..|es|-1])
    ensures IdsOf(es) == IdsOf(es[..|es|-1]) + [es[|es|-1].id]
  {
  }

  function AllMeant(es: seq<Entry>): (r: seq<Allocation>)
    ensures |r| == |es|
    ensures forall i :: 0 <= i < |r| ==> r[i] == Meant(es[i])
  {
    seq(|es|, i requires 0 <= i < |es| => Meant(es[i]))
  }

  /** The join itself, expense after expense, comes back in its own order. */
  lemma RegroupedJoin(es: seq<Entry>)
    requires DistinctIds(es)
    ensures Interleaving(Join(es), es)
    ensures Regrouped(Join(es)) == AllMeant(es)
  {
    var rows := Join(es);
    JoinIds(es);
    FirstIdsDistinct(rows);
    forall i | 0 <= i < |es|
      ensures RowsOf(rows, es[i].id) == Joined(es[i])
    {
      JoinHits(es, es[i], i);
    }
    RegroupingUndoesJoin(rows, es);
  }
}
