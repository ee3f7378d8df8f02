/** Validating a request to record an expense: `RecordExpenseRequest.Validate`
    and `SplitType`, and what they guarantee the arithmetic. */
module Requests {
  import opened Sums
  import opened Ids
  import opened Shares
  import opened Tables

  datatype ShareInput = ShareInput(userId: string, weight: int)

  datatype Complaint = BadAmount | BadCategory | NoDescription | BadDate | BadUser | RepeatedUser | BadWeight

  datatype Check = Valid | Invalid(complaint: Complaint)

  /** The parsers of uuids and dates and the test for blank text are foreign. */
  datatype Parsers = Parsers(isUuid: string -> bool, isDate: string -> bool, isBlank: string -> bool)

  /** An omitted weight means 1. */
  function Defaulted(s: ShareInput): ShareInput {
    if s.weight == 0 then s.(weight := 1) else s
  }

  function AllDefaulted(ss: seq<ShareInput>): (r: seq<ShareInput>)
    ensures |r| == |ss|
  {
    seq(|ss|, i requires 0 <= i < |ss| => Defaulted(ss[i]))
  }

  /** Some share before the i-th names the same user. */
  predicate Repeats(ss: seq<ShareInput>, i: nat)
    requires i < |ss|
  {
    exists j :: 0 <= j < i && ss[j].userId == ss[i].userId
  }

  /** What the loop finds wrong with the i-th share, in the order it looks. */
  function CheckShare(p: Parsers, ss: seq<ShareInput>, i: nat): Check
    requires i < |ss|
  {
    if !p.isUuid(ss[i].userId) then Invalid(BadUser)
    else if Repeats(ss, i) then Invalid(RepeatedUser)
    else if ss[i].weight != 0 && !(1 <= ss[i].weight <= 1000) then Invalid(BadWeight)
    else Valid
  }

  /** All shares before the k-th are in order. */
  predicate ValidUpTo(p: Parsers, ss: seq<ShareInput>, k: nat)
    requires k <= |ss|
  {
    forall i :: 0 <= i < k ==> CheckShare(p, ss, i) == Valid
  }

  /** The users of the shares before the i-th, and no others, have been seen. */
  predicate Seen(seen: map<string, bool>, ss: seq<ShareInput>, i: nat)
    requires i <= |ss|
  {
    && (forall j :: 0 <= j < i ==> ss[j].userId in seen)
    && (forall u :: u in seen ==> exists j :: 0 <= j < i && ss[j].userId == u)
  }

  lemma SeenRepeats(seen: map<string, bool>, ss: seq<ShareInput>, i: nat)
    requires i < |ss| && Seen(seen, ss, i)
    ensures ss[i].userId in seen <==> Repeats(ss, i)
    ensures Seen(seen[ss[i].userId := true], ss, i + 1)
  {
    var more := seen[ss[i].userId := true];
    forall u | u in more
      ensures exists j :: 0 <= j < i + 1 && ss[j].userId == u
    {
      if u in seen {
        var j :| 0 <= j < i && ss[j].userId == u;
        assert ss[j].userId == u;
      } else {
        assert ss[i].userId == u;
      }
    }
  }

  /** The state of the shares once those before the i-th have been visited. */
  function Visited(ss: seq<ShareInput>, i: nat): (r: seq<ShareInput>)
    requires i <= |ss|
    ensures |r| == |ss|
  {
    AllDefaulted(ss[..i]) + ss[i..]
  }

  /** One turn of the loop. */
  method ValidateShare(p: Parsers, shares: array<ShareInput>, i: nat, seen: map<string, bool>,
                       ghost was: seq<ShareInput>)
    returns (r: Check, seen': map<string, bool>)
    requires i < shares.Length == |was| && Seen(seen, was, i) && shares[..] == Visited(was, i)
    modifies shares
    ensures r == CheckShare(p, was, i)
    ensures shares[..] == Visited(was, if r == Valid then i + 1 else i)
    ensures r == Valid ==> Seen(seen', was, i + 1)
  {
    var s := shares[i];
    assert s == Visited(was, i)[i] == was[i];
    SeenRepeats(seen, was, i);
    seen' := seen;
    if !p.isUuid(s.userId) {
      return Invalid(BadUser), seen';
    }
    if s.userId in seen {
      return Invalid(RepeatedUser), seen';
    }
    seen' := seen[s.userId := true];
    if s.weight == 0 {
      shares[i] := s.(weight := 1);
    }
    if shares[i].weight < 1 || shares[i].weight > 1000 {
      return Invalid(BadWeight), seen';
    }
    assert shares[..] == Visited(was, i)[i := Defaulted(was[i])] == Visited(was, i + 1);
    r := Valid;
  }

  /** The loop over the shares. It stops at the first share that is not in order,
      having replaced the omitted weights before it; without one it has replaced
      them all. */
  method ValidateShares(p: Parsers, shares: array<ShareInput>) returns (r: Check, ghost k: nat)
    modifies shares
    ensures k <= shares.Length && ValidUpTo(p, old(shares[..]), k)
    ensures shares[..] == Visited(old(shares[..]), k)
    ensures if k == shares.Length then r == Valid else r == CheckShare(p, old(shares[..]), k) && r != Valid
  {
    ghost var was := shares[..];
    var seen: map<string, bool> := map[];
    var i := 0;
    r, k := Valid, 0;
    while i < shares.Length
      invariant 0 <= i <= shares.Length && ValidUpTo(p, was, i)
      invariant shares[..] == Visited(was, i)
      invariant Seen(seen, was, i)
      invariant r == Valid
    {
      r, seen := ValidateShare(p, shares, i, seen, was);
      k := i;
      if r != Valid {
        return;
      }
      i := i + 1;
    }
    k := i;
  }

  predicate KnownCategory(c: string) {
    c in {"lodging", "fuel", "food", "transport", "other"}
  }

  /** What is wrong outside the shares, in the order it is looked for. */
  function CheckHead(p: Parsers, amount: int, category: string, description: string, occurredOn: string): Check {
    if amount <= 0 then Invalid(BadAmount)
    else if !KnownCategory(category) then Invalid(BadCategory)
    else if p.isBlank(description) then Invalid(NoDescription)
    else if !p.isDate(occurredOn) then Invalid(BadDate)
    else Valid
  }

  /** Shares as they are stored: distinct users, weights from 1 to 1000. */
  predicate Storable(ss: seq<ShareInput>) {
    && (forall i, j :: 0 <= i < j < |ss| ==> ss[i].userId != ss[j].userId)
    && (forall i :: 0 <= i < |ss| ==> 1 <= ss[i].weight <= 1000)
  }

  lemma ValidIsStorable(p: Parsers, ss: seq<ShareInput>)
    requires ValidUpTo(p, ss, |ss|)
    ensures Storable(AllDefaulted(ss))
  {
    forall i, j | 0 <= i < j < |ss|
      ensures ss[i].userId != ss[j].userId
    {
      assert CheckShare(p, ss, j) == Valid && !Repeats(ss, j);
    }
    forall i | 0 <= i < |ss|
      ensures 1 <= AllDefaulted(ss)[i].weight <= 1000
    {
      assert CheckShare(p, ss, i) == Valid;
    }
  }

  /** The request is in order: a positive amount, one of the five categories, a
      description, a date, and for every share a uuid that no other share has and a
      weight from 1 to 1000 or left out. */
  predicate Acceptable(p: Parsers, amount: int, category: string, description: string, occurredOn: string,
                    ss: seq<ShareInput>)
  {
    && amount > 0 && !p.isBlank(description) && p.isDate(occurredOn)
    && (category == "lodging" || category == "fuel" || category == "food" || category == "transport" ||
        category == "other")
    && (forall i :: 0 <= i < |ss| ==> p.isUuid(ss[i].userId) && 0 <= ss[i].weight <= 1000)
    && (forall i, j :: 0 <= i < j < |ss| ==> ss[i].userId != ss[j].userId)
  }

  lemma PassesIff(p: Parsers, amount: int, category: string, description: string, occurredOn: string,
                  ss: seq<ShareInput>)
    ensures CheckHead(p, amount, category, description, occurredOn) == Valid && ValidUpTo(p, ss, |ss|) <==>
            Acceptable(p, amount, category, description, occurredOn, ss)
  {
    if ValidUpTo(p, ss, |ss|) {
      forall i | 0 <= i < |ss|
        ensures p.isUuid(ss[i].userId) && 0 <= ss[i].weight <= 1000 && !Repeats(ss, i)
      {
        assert CheckShare(p, ss, i) == Valid;
      }
    }
    if Acceptable(p, amount, category, description, occurredOn, ss) {
      forall i | 0 <= i < |ss|
        ensures CheckShare(p, ss, i) == Valid
      {
        assert !Repeats(ss, i);
      }
    }
  }

  /** What a request is told: the first thing wrong with its head, or with the first
      share that has something wrong. */
  lemma ComplaintTells(p: Parsers, amount: int, category: string, description: string, occurredOn: string,
                       ss: seq<ShareInput>, i: nat)
    requires i < |ss|
    ensures var r := CheckHead(p, amount, category, description, occurredOn);
            var known := category in {"food", "fuel", "lodging", "other", "transport"};
            && (r == Invalid(BadAmount) <==> amount <= 0)
            && (r == Invalid(BadCategory) <==> amount > 0 && !known)
            && (r == Invalid(NoDescription) <==> amount > 0 && known && p.isBlank(description))
            && (r == Invalid(BadDate) <==> amount > 0 && known && !p.isBlank(description) && !p.isDate(occurredOn))
    ensures var r := CheckShare(p, ss, i);
            var seen := exists j :: 0 <= j < i && ss[j].userId == ss[i].userId;
            && (r == Invalid(BadUser) <==> !p.isUuid(ss[i].userId))
            && (r == Invalid(RepeatedUser) <==> p.isUuid(ss[i].userId) && seen)
            && (r == Invalid(BadWeight) <==>
                  p.isUuid(ss[i].userId) && !seen && (ss[i].weight < 0 || ss[i].weight > 1000))
  {
  }

  /** A request passes exactly when it is in order; then its shares are as they were
      but for the weights left out, which are 1. A head that fails leaves them alone. */
  method Validate(p: Parsers, amount: int, category: string, description: string, occurredOn: string,
                  shares: array<ShareInput>)
    returns (r: Check)
    modifies shares
    ensures r == Valid <==> Acceptable(p, amount, category, description, occurredOn, old(shares[..]))
    ensures r == Valid ==> Storable(shares[..]) && forall i :: 0 <= i < shares.Length ==>
              && shares[i].userId == old(shares[i].userId)
              && shares[i].weight == if old(shares[i].weight) == 0 then 1 else old(shares[i].weight)
    ensures CheckHead(p, amount, category, description, occurredOn) != Valid ==>
              r == CheckHead(p, amount, category, description, occurredOn) && shares[..] == old(shares[..])
  {
    PassesIff(p, amount, category, description, occurredOn, shares[..]);
    if amount <= 0 {
      return Invalid(BadAmount);
    }
    if !KnownCategory(category) {
      return Invalid(BadCategory);
    }
    if p.isBlank(description) {
      return Invalid(NoDescription);
    }
    if !p.isDate(occurredOn) {
      return Invalid(BadDate);
    }
    ghost var was, k := shares[..], 0;
    r, k := ValidateShares(p, shares);
    if r == Valid {
      assert was[..k] == was && was[k..] == [];
      assert shares[..] == AllDefaulted(was);
      ValidIsStorable(p, was);
    }
  }

  // ---------------------------------------------------------------------------
  // The kind of split

  datatype SplitType = SplitEqual | SplitSubset | SplitWeighted

  method SplitTypeOf(shares: seq<ShareInput>) returns (r: SplitType)
    ensures r == SplitEqual <==> shares == []
    ensures r == SplitWeighted <==> exists i :: 0 <= i < |shares| && shares[i].weight > 1
  {
    if |shares| == 0 {
      return SplitEqual;
    }
    var i := 0;
    while i < |shares|
      invariant 0 <= i <= |shares|
      invariant forall j :: 0 <= j < i ==> shares[j].weight <= 1
    {
      if shares[i].weight > 1 {
        return SplitWeighted;
      }
      i := i + 1;
    }
    r := SplitSubset;
  }

  function WeightsOf(ss: seq<ShareInput>): (r: seq<int>)
    ensures |r| == |ss|
  {
    seq(|ss|, i requires 0 <= i < |ss| => ss[i].weight)
  }

  lemma StorableWeigh(ss: seq<ShareInput>)
    requires Storable(ss) && ss != []
    ensures Weighable(WeightsOf(ss))
  {
    var ws := WeightsOf(ss);
    SumNonNegative(ws[..|ws|-1]);
  }

  /** Whatever passed validation is split exactly, and as fairly as baisas allow;
      a subset split is an equal split among those named. */
  lemma ValidatedSplitsExactly(ss: seq<ShareInput>, amount: int)
    requires Storable(ss) && ss != [] && amount > 0
    ensures Sum(Split(amount, WeightsOf(ss))) == amount
    ensures (forall i :: 0 <= i < |ss| ==> ss[i].weight == 1) ==>
              Split(amount, WeightsOf(ss)) == EqualSplit(amount, |ss|)
  {
    StorableWeigh(ss);
    SplitIsExact(amount, WeightsOf(ss));
    if forall i :: 0 <= i < |ss| ==> ss[i].weight == 1 {
      assert WeightsOf(ss) == Ones(|ss|);
      UnitWeightsSplitEqually(amount, |ss|);
    }
  }

  // ---------------------------------------------------------------------------
  // The rows the shares become

  /** The share rows, by user. */
  function ShareMap(ss: seq<ShareInput>): map<UserId, int> {
    if ss == [] then map[] else ShareMap(ss[..|ss|-1])[ss[|ss|-1].userId := ss[|ss|-1].weight]
  }

  predicate Named(ss: seq<ShareInput>, u: UserId) {
    exists i :: 0 <= i < |ss| && ss[i].userId == u
  }

  lemma {:induction false} OnlyNamedShare(ss: seq<ShareInput>, u: UserId)
    requires u in ShareMap(ss)
    ensures Named(ss, u)
  {
    var n := |ss| - 1;
    if u == ss[n].userId {
      assert ss[n].userId == u;
    } else {
      OnlyNamedShare(ss[..n], u);
      var i :| 0 <= i < n && ss[..n][i].userId == u;
      assert ss[i].userId == u;
    }
  }

  /** Each share becomes the row of its user. */
  lemma {:induction false} ShareMapAt(ss: seq<ShareInput>, i: nat)
    requires Storable(ss) && i < |ss|
    ensures ss[i].userId in ShareMap(ss) && ShareMap(ss)[ss[i].userId] == ss[i].weight
  {
    var n := |ss| - 1;
    if i < n {
      ShareMapAt(ss[..n], i);
      assert ss[..n][i] == ss[i];
    }
  }

  /** A validated request makes an expense that satisfies every row constraint. */
  lemma StorableMakesValidExpense(ss: seq<ShareInput>, amount: int, payer: MembershipId, category: Category)
    requires Storable(ss) && amount > 0
    ensures ValidExpense(Expense(payer, amount, category, ShareMap(ss), false))
  {
    forall u | u in ShareMap(ss)
      ensures 1 <= ShareMap(ss)[u] <= 1000
    {
      OnlyNamedShare(ss, u);
      var i :| 0 <= i < |ss| && ss[i].userId == u;
      ShareMapAt(ss, i);
    }
  }
}
