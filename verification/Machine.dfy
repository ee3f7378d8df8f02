/** The split in Go's int64, where every operation wraps around at 64 bits. */
module Machine {
  import opened Sums
  import opened Shares

  const HALF := 0x8000_0000_0000_0000
  const FULL := 0x1_0000_0000_0000_0000

  /** The int64 that x becomes when it is cut to 64 bits. */
  function Wrap(x: int): (r: int)
    ensures -HALF <= r < HALF
    ensures -HALF <= x < HALF ==> r == x
  {
    (x + 0x8000_0000_0000_0000) % 0x1_0000_0000_0000_0000 - 0x8000_0000_0000_0000
  }

  /** Wrapping around changes a number by a multiple of 2^64. */
  lemma WrapIsCongruent(x: int)
    ensures (x - Wrap(x)) % 0x1_0000_0000_0000_0000 == 0
    ensures -0x8000_0000_0000_0000 <= Wrap(x) < 0x8000_0000_0000_0000
  {
    var q := (x + 0x8000_0000_0000_0000) / 0x1_0000_0000_0000_0000;
    assert x - Wrap(x) == q * 0x1_0000_0000_0000_0000;
  }

  function Wrapped(s: seq<int>): (r: seq<int>)
    ensures |r| == |s|
    ensures forall i :: 0 <= i < |s| ==> r[i] == Wrap(s[i])
  {
    seq(|s|, i requires 0 <= i < |s| => Wrap(s[i]))
  }

  function WrappedSum(s: seq<int>): int {
    if s == [] then 0 else Wrap(WrappedSum(s[..|s|-1]) + s[|s|-1])
  }

  function WrappedCompleted(total: int, parts: seq<int>): (r: seq<int>)
    ensures |r| == |parts|
  {
    Wrapped(Topped(parts, Wrap(total - WrappedSum(parts))))
  }

  /** `weightedShares`, operation by operation, in 64 bits. */
  function WrappedSplit(total: int, weights: seq<int>): (r: seq<int>)
    ensures |r| == |weights|
  {
    if WrappedSum(weights) <= 0 then seq(|weights|, _ => 0)
    else WrappedCompleted(total, Parts(Wrapped(Products(total, weights)), WrappedSum(weights)))
  }

  lemma {:induction false} NoWrapInSum(s: seq<int>)
    requires forall i :: 0 <= i < |s| ==> s[i] >= 0
    requires Sum(s) < HALF
    ensures WrappedSum(s) == Sum(s) >= 0
  {
    if s != [] {
      NoWrapInSum(s[..|s|-1]);
    }
  }

  lemma WrapBelow(p: int)
    requires HALF <= p
    ensures Wrap(p) + FULL <= p
  {
  }

  lemma Apart(p: int, q: int, m: int, f: int, w: int)
    requires 2 <= w < HALF / 8 && q + FULL <= p && w * m < q + w && p - w < w * f
    ensures m + 1 < f
  {
    Distribute(w, m, 1);
    BigMultiple(w, f, m + 1);
  }

  lemma QuotientInRange(q: int, m: int, w: int)
    requires w >= 2 && -HALF <= q < HALF && q - w < w * m < q + w
    ensures -HALF <= m + 1 < HALF
  {
    Distribute(w, HALF - 1, 1);
    Distribute(w, -HALF - 2, 1);
    BigMultiple(w, HALF - 1, m);
    BigMultiple(w, m, -HALF - 2);
  }

  /** A product that leaves 64 bits changes the rounded part by more than the
      one baisa that the remainder pass could give back. */
  lemma OverflowShows(p: int, w: int)
    requires HALF <= p && 2 <= w < HALF / 8
    ensures -HALF <= GoDiv(Wrap(p), w) <= GoDiv(Wrap(p), w) + 1 < HALF
    ensures GoDiv(Wrap(p), w) + 1 < GoDiv(p, w)
  {
    var q := Wrap(p);
    WrapBelow(p);
    GoDivBack(q, w);
    GoDivBack(p, w);
    Apart(p, q, GoDiv(q, w), GoDiv(p, w), w);
    QuotientInRange(q, GoDiv(q, w), w);
    BigMultiple(w, GoDiv(q, w), -HALF - 1);
  }

  /** Every entry is an int64. */
  predicate Int64s(s: seq<int>) {
    forall i :: 0 <= i < |s| ==> -HALF <= s[i] < HALF
  }

  lemma NothingWrapped(s: seq<int>)
    requires Int64s(s)
    ensures Wrapped(s) == s
  {
  }

  predicate AllWithin(s: seq<int>, bound: int) {
    forall i :: 0 <= i < |s| ==> 0 <= s[i] <= bound
  }

  lemma InRange(total: int, parts: seq<int>, rem: int)
    requires total < HALF && rem >= 0 && AllWithin(parts, total - rem)
    ensures Int64s(Topped(parts, rem))
  {
  }

  lemma CompletionForm(total: int, parts: seq<int>, given: int)
    requires WrappedSum(parts) == given && -HALF <= total - given < HALF
    ensures WrappedCompleted(total, parts) == Wrapped(Topped(parts, total - given))
  {
  }

  lemma Bounded(parts: seq<int>)
    requires forall i :: 0 <= i < |parts| ==> parts[i] >= 0
    ensures AllWithin(parts, Sum(parts))
  {
    SumNonNegative(parts);
  }

  lemma CompletionsAgree(total: int, parts: seq<int>)
    requires total < HALF && Sum(parts) <= total
    requires forall i :: 0 <= i < |parts| ==> parts[i] >= 0
    ensures WrappedCompleted(total, parts) == Completed(total, parts)
  {
    NoWrapInSum(parts);
    CompletionForm(total, parts, Sum(parts));
    Bounded(parts);
    InRange(total, parts, total - Sum(parts));
    NothingWrapped(Topped(parts, total - Sum(parts)));
  }

  lemma SplitsAgree(total: int, weights: seq<int>)
    requires 0 <= total < HALF && Weighable(weights) && Sum(weights) < HALF
    requires Int64s(Products(total, weights))
    ensures WrappedSplit(total, weights) == Split(total, weights)
  {
    var products := Products(total, weights);
    NoWrapInSum(weights);
    ProductsOf(total, weights);
    NothingWrapped(products);
    PartsNonNegative(products, Sum(weights));
    RemainderFits(total, weights);
    CompletionsAgree(total, Parts(products, Sum(weights)));
  }

  lemma PartsDisagree(products: seq<int>, w: int, i: nat)
    requires 2 <= w < HALF / 8 && i < |products| && products[i] >= HALF
    ensures var m := Parts(Wrapped(products), w)[i];
            -HALF <= m && m + 1 < HALF && m + 1 < Parts(products, w)[i]
  {
    PartsAt(products, w, i);
    PartsAt(Wrapped(products), w, i);
    OverflowShows(products[i], w);
  }

  lemma LargeFactor(a: int, b: int)
    requires 0 <= a < HALF && a * b >= HALF
    ensures b >= 2
  {
  }

  lemma CompletionsDisagree(total: int, machine: seq<int>, parts: seq<int>, i: nat)
    requires |machine| == |parts| && i < |parts|
    requires -HALF <= machine[i] && machine[i] + 1 < HALF && machine[i] + 1 < parts[i]
    ensures WrappedCompleted(total, machine)[i] < Completed(total, parts)[i]
  {
  }

  lemma WrappedForm(total: int, weights: seq<int>)
    requires WrappedSum(weights) == Sum(weights) > 0
    ensures WrappedSplit(total, weights) ==
            WrappedCompleted(total, Parts(Wrapped(Products(total, weights)), Sum(weights)))
  {
  }

  lemma SplitsDisagree(total: int, weights: seq<int>, i: nat)
    requires 0 <= total < HALF && Weighable(weights) && Sum(weights) < HALF / 8
    requires i < |weights| && Products(total, weights)[i] >= HALF
    ensures WrappedSplit(total, weights)[i] < Split(total, weights)[i]
  {
    SumNonNegative(weights);
    NoWrapInSum(weights);
    LargeFactor(total, weights[i]);
    WrappedForm(total, weights);
    SplitForm(total, weights);
    var products, w := Products(total, weights), Sum(weights);
    PartsDisagree(products, w, i);
    CompletionsDisagree(total, Parts(Wrapped(products), w), Parts(products, w), i);
  }

  /** int64 computes the mathematical split exactly when no product of the
      amount with a weight leaves the type. */
  lemma Int64SplitIsExact(total: int, weights: seq<int>)
    requires 0 <= total < HALF && Weighable(weights) && Sum(weights) < HALF / 8
    ensures WrappedSplit(total, weights) == Split(total, weights) <==> Int64s(Products(total, weights))
  {
    if Int64s(Products(total, weights)) {
      SplitsAgree(total, weights);
    } else {
      ProductsOf(total, weights);
      var i :| 0 <= i < |weights| && Products(total, weights)[i] >= HALF;
      SplitsDisagree(total, weights, i);
    }
  }

  /** A request the validation accepts and int64 gets wrong: amounts have no upper
      bound there, and a weight may be 1000. */
  lemma Int64SplitCanFail()
    ensures var total, weights := 9_223_372_036_854_776, [1000, 1];
            WrappedSplit(total, weights) != Split(total, weights)
  {
    var total, weights := 9_223_372_036_854_776, [1000, 1];
    assert weights[..1] == [1000] && weights[..1][..0] == [];
    assert Sum(weights[..1]) == 1000;
    assert Products(total, weights)[0] >= HALF;
    Int64SplitIsExact(total, weights);
  }
}
