/** The integer split of one amount: `fairShares` and `weightedShares`. */
module Shares {
  import opened Sums

  /** Go's integer division by a positive divisor truncates toward zero. */
  function GoDiv(a: int, b: int): int
    requires b > 0
  {
    if a >= 0 then a / b else -((-a) / b)
  }

  /** The amount times each weight. */
  function Products(total: int, weights: seq<int>): (r: seq<int>)
    ensures |r| == |weights|
    ensures forall i :: 0 <= i < |r| ==> r[i] == total * weights[i]
  {
    seq(|weights|, i requires 0 <= i < |weights| => total * weights[i])
  }

  /** What each participant gets before the remainder pass. */
  function Parts(products: seq<int>, w: int): (r: seq<int>)
    requires w > 0
    ensures |r| == |products|
  {
    if products == [] then []
    else
      var n := |products| - 1;
      Parts(products[..n], w) + [GoDiv(products[n], w)]
  }

  /** One extra baisa for each of the first `rem` participants. */
  function Topped(base: seq<int>, rem: int): (r: seq<int>)
    ensures |r| == |base|
    ensures forall i :: 0 <= i < |r| ==> r[i] == base[i] + (if i < rem then 1 else 0)
  {
    seq(|base|, i requires 0 <= i < |base| => base[i] + (if i < rem then 1 else 0))
  }

  /** The parts, with what they leave of the amount handed out from the front. */
  function Completed(total: int, parts: seq<int>): (r: seq<int>)
    ensures |r| == |parts|
  {
    Topped(parts, total - Sum(parts))
  }

  /** The split by weight. */
  function Split(total: int, weights: seq<int>): (r: seq<int>)
    ensures |r| == |weights|
  {
    if Sum(weights) <= 0 then seq(|weights|, _ => 0)
    else Completed(total, Parts(Products(total, weights), Sum(weights)))
  }

  /** The equal split among n participants. */
  function EqualSplit(total: int, n: nat): (r: seq<int>)
    ensures |r| == n
  {
    if n == 0 then []
    else
      var base := GoDiv(total, n);
      seq(n, i => base + (if i < total - base * n then 1 else 0))
  }

  method FairShares(total: int, n: int) returns (shares: seq<int>)
    ensures shares == EqualSplit(total, if n <= 0 then 0 else n)
  {
    if n <= 0 {
      return [];
    }
    var base := GoDiv(total, n);
    var rem := total - base * n;
    var a := new int[n](_ => 0);
    var i := 0;
    while i < n
      invariant 0 <= i <= n
      invariant forall k :: 0 <= k < i ==> a[k] == base + (if k < rem then 1 else 0)
    {
      a[i] := base;
      if i < rem {
        a[i] := a[i] + 1;
      }
      i := i + 1;
    }
    shares := a[..];
  }

  method WeightedShares(total: int, weights: seq<int>) returns (shares: seq<int>)
    ensures shares == Split(total, weights)
  {
    var n := |weights|;
    var totalWeight, k := 0, 0;
    while k < n
      invariant 0 <= k <= n
      invariant totalWeight == Sum(weights[..k])
    {
      SumSnoc(weights[..k], weights[k]);
      assert weights[..k] + [weights[k]] == weights[..k+1];
      totalWeight := totalWeight + weights[k];
      k := k + 1;
    }
    assert weights[..n] == weights;
    if totalWeight <= 0 {
      var zeros := new int[n](_ => 0);
      return zeros[..];
    }
    var a, handedOut := ProportionalParts(total, weights, totalWeight);
    TopUp(a, total - handedOut);
    shares := a[..];
  }

  lemma PartsSnoc(products: seq<int>, w: int, i: nat)
    requires w > 0 && i < |products|
    ensures Parts(products[..i+1], w) == Parts(products[..i], w) + [GoDiv(products[i], w)]
  {
    assert products[..i+1][..i] == products[..i];
  }

  /** The first pass: every participant's rounded part, and what they add up to. */
  method ProportionalParts(total: int, weights: seq<int>, totalWeight: int)
    returns (a: array<int>, handedOut: int)
    requires totalWeight > 0
    ensures fresh(a) && a[..] == Parts(Products(total, weights), totalWeight) && handedOut == Sum(a[..])
  {
    a := new int[|weights|](_ => 0);
    handedOut := 0;
    ghost var products := Products(total, weights);
    var i := 0;
    while i < |weights|
      invariant 0 <= i <= |weights|
      invariant a[..i] == Parts(products[..i], totalWeight)
      invariant handedOut == Sum(a[..i])
    {
      ghost var done := a[..i];
      PartsSnoc(products, totalWeight, i);
      var part := GoDiv(total * weights[i], totalWeight);
      SumSnoc(done, part);
      a[i] := part;
      assert a[..i+1] == done + [part];
      handedOut := handedOut + part;
      i := i + 1;
    }
    assert a[..i] == a[..] && products[..i] == products;
  }

  /** The remainder pass, in place: one baisa each from the front while any are left. */
  method TopUp(a: array<int>, leftover: int)
    modifies a
    ensures a[..] == Topped(old(a[..]), leftover)
  {
    var rem, i := leftover, 0;
    while rem > 0 && i < a.Length
      invariant 0 <= i <= a.Length
      invariant rem == leftover - i
      invariant i == 0 || rem >= 0
      invariant forall k :: 0 <= k < i ==> a[k] == old(a[k]) + 1
      invariant forall k :: i <= k < a.Length ==> a[k] == old(a[k])
      decreases a.Length - i
    {
      a[i] := a[i] + 1;
      rem := rem - 1;
      i := i + 1;
    }
  }

  // ---------------------------------------------------------------------------
  // Arithmetic on one participant

  lemma Distribute(a: int, b: int, c: int)
    ensures a * (b + c) == a * b + a * c
  {
  }

  lemma ProductSign(a: int, b: int)
    requires b >= 0
    ensures a >= 0 ==> a * b >= 0
    ensures a <= 0 ==> a * b <= 0
  {
  }

  /** `w * k` decides how `k` compares. */
  lemma BigMultiple(w: int, k: int, n: int)
    requires w > 0 && w * k > w * n
    ensures k > n
  {
  }

  /** What rounding toward zero takes from the size of x. */
  function LostIn(x: int, w: int): (r: int)
    requires w > 0
    ensures 0 <= r < w
  {
    (if x >= 0 then x else -x) % w
  }

  lemma GoDivBack(x: int, w: int)
    requires w > 0
    ensures w * GoDiv(x, w) == (if x >= 0 then x - LostIn(x, w) else x + LostIn(x, w))
    ensures x >= 0 ==> GoDiv(x, w) >= 0
  {
  }

  // ---------------------------------------------------------------------------
  // Sums of parts

  lemma {:induction false} PartsAt(products: seq<int>, w: int, i: nat)
    requires w > 0 && i < |products|
    ensures Parts(products, w)[i] == GoDiv(products[i], w)
  {
    var n := |products| - 1;
    if i < n {
      PartsAt(products[..n], w, i);
    }
  }

  lemma SumNonNegative(s: seq<int>)
    requires forall i :: 0 <= i < |s| ==> s[i] >= 0
    ensures Sum(s) >= 0
    ensures forall i :: 0 <= i < |s| ==> s[i] <= Sum(s)
  {
    if s != [] {
      SumNonNegative(s[..|s|-1]);
    }
  }

  lemma SumZeros(s: seq<int>)
    requires forall i :: 0 <= i < |s| ==> s[i] == 0
    ensures Sum(s) == 0
  {
  }

  lemma {:induction false} SumScaled(k: int, s: seq<int>)
    ensures Sum(Products(k, s)) == k * Sum(s)
  {
    if s != [] {
      var n := |s| - 1;
      assert Products(k, s)[..n] == Products(k, s[..n]);
      SumScaled(k, s[..n]);
      Distribute(k, Sum(s[..n]), s[n]);
    }
  }

  lemma {:induction false} ToppedSum(base: seq<int>, rem: int)
    ensures Sum(Topped(base, rem)) == Sum(base) + (if rem < 0 then 0 else if rem > |base| then |base| else rem)
  {
    if base != [] {
      var n := |base| - 1;
      assert Topped(base, rem)[..n] == Topped(base[..n], rem);
      ToppedSum(base[..n], rem);
    }
  }

  /** The parts lost to rounding, added up. */
  function Lost(products: seq<int>, w: int): (r: int)
    requires w > 0
    ensures 0 <= r
  {
    if products == [] then 0
    else
      var n := |products| - 1;
      Lost(products[..n], w) + LostIn(products[n], w)
  }

  lemma {:induction false} LostIsSmall(products: seq<int>, w: int)
    requires w > 0 && products != []
    ensures Lost(products, w) < w * |products|
  {
    var n := |products| - 1;
    if n > 0 {
      LostIsSmall(products[..n], w);
    }
    Distribute(w, n, 1);
  }

  /** Nothing is lost exactly when every product divides evenly. */
  lemma {:induction false} NothingLost(products: seq<int>, w: int)
    requires w > 0
    ensures Lost(products, w) == 0 <==> forall i :: 0 <= i < |products| ==> LostIn(products[i], w) == 0
  {
    if products != [] {
      var n := |products| - 1;
      NothingLost(products[..n], w);
    }
  }

  /** Rounding loses exactly `Lost`, on the side of zero. */
  lemma {:induction false} RoundingLoss(products: seq<int>, w: int)
    requires w > 0
    ensures (forall i :: 0 <= i < |products| ==> products[i] >= 0) ==>
              w * Sum(Parts(products, w)) == Sum(products) - Lost(products, w)
    ensures (forall i :: 0 <= i < |products| ==> products[i] <= 0) ==>
              w * Sum(Parts(products, w)) == Sum(products) + Lost(products, w)
  {
    if products != [] {
      var n := |products| - 1;
      RoundingLoss(products[..n], w);
      GoDivBack(products[n], w);
      SumSnoc(Parts(products[..n], w), GoDiv(products[n], w));
      Distribute(w, Sum(Parts(products[..n], w)), GoDiv(products[n], w));
    }
  }

  lemma PartsNonNegative(products: seq<int>, w: int)
    requires w > 0 && forall i :: 0 <= i < |products| ==> products[i] >= 0
    ensures forall i :: 0 <= i < |products| ==> Parts(products, w)[i] >= 0
  {
    forall i | 0 <= i < |products|
      ensures Parts(products, w)[i] >= 0
    {
      PartsAt(products, w, i);
      GoDivBack(products[i], w);
    }
  }

  lemma SmallShortfall(total: int, given: int, lost: int, w: int, n: int)
    requires w > 0 && w * given == w * total - lost && 0 <= lost < w * n
    ensures 0 <= total - given < n
  {
    Distribute(w, total, -given);
    BigMultiple(w, n, total - given);
    BigMultiple(w, total - given, -1);
  }

  lemma Excess(total: int, given: int, lost: int, w: int)
    requires w > 0 && w * given == w * total + lost && 0 <= lost
    ensures total <= given && (total == given <==> lost == 0)
  {
    Distribute(w, given, -total);
    BigMultiple(w, given - total, -1);
  }

  /** Parts of products that add up to `total * w` leave less than one baisa a head. */
  lemma LeftoverIsSmall(total: int, products: seq<int>, w: int)
    requires w > 0 && products != [] && Sum(products) == w * total
    requires forall i :: 0 <= i < |products| ==> products[i] >= 0
    ensures 0 <= total - Sum(Parts(products, w)) < |products|
  {
    RoundingLoss(products, w);
    LostIsSmall(products, w);
    SmallShortfall(total, Sum(Parts(products, w)), Lost(products, w), w, |products|);
  }

  lemma NegativeShortfall(total: int, products: seq<int>, w: int)
    requires w > 0 && Sum(products) == w * total
    requires forall i :: 0 <= i < |products| ==> products[i] <= 0
    ensures total <= Sum(Parts(products, w))
    ensures total == Sum(Parts(products, w)) <==> Lost(products, w) == 0
  {
    RoundingLoss(products, w);
    Excess(total, Sum(Parts(products, w)), Lost(products, w), w);
  }

  // ---------------------------------------------------------------------------
  // What the split promises

  /** The weights a caller may use: none negative, at least one positive. */
  predicate Weighable(weights: seq<int>) {
    (forall i :: 0 <= i < |weights| ==> weights[i] >= 0) && Sum(weights) > 0
  }

  lemma ProductsOf(total: int, weights: seq<int>)
    requires Weighable(weights)
    ensures Sum(Products(total, weights)) == Sum(weights) * total
    ensures total >= 0 ==> forall i :: 0 <= i < |weights| ==> Products(total, weights)[i] >= 0
    ensures total <= 0 ==> forall i :: 0 <= i < |weights| ==> Products(total, weights)[i] <= 0
  {
    SumScaled(total, weights);
    forall i | 0 <= i < |weights|
      ensures total >= 0 ==> Products(total, weights)[i] >= 0
      ensures total <= 0 ==> Products(total, weights)[i] <= 0
    {
      ProductSign(total, weights[i]);
    }
  }

  /** For an amount that is not negative the leftover is below the number of
      participants, so the single remainder pass hands out all of it. */
  lemma RemainderFits(total: int, weights: seq<int>)
    requires total >= 0 && Weighable(weights)
    ensures 0 <= total - Sum(Parts(Products(total, weights), Sum(weights))) < |weights|
  {
    ProductsOf(total, weights);
    LeftoverIsSmall(total, Products(total, weights), Sum(weights));
  }

  lemma SplitForm(total: int, weights: seq<int>)
    requires Sum(weights) > 0
    ensures Split(total, weights) == Completed(total, Parts(Products(total, weights), Sum(weights)))
  {
  }

  lemma ExactUnlessLost(total: int, weights: seq<int>)
    requires Weighable(weights)
    ensures Sum(Split(total, weights)) == total <==>
            total >= 0 || Lost(Products(total, weights), Sum(weights)) == 0
  {
    var parts := Parts(Products(total, weights), Sum(weights));
    ToppedSum(parts, total - Sum(parts));
    if total >= 0 {
      RemainderFits(total, weights);
    } else {
      ProductsOf(total, weights);
      NegativeShortfall(total, Products(total, weights), Sum(weights));
    }
  }

  /** The split is exact precisely when the amount is not negative, or nothing
      is lost to rounding (a loss on a negative amount is never handed back). */
  lemma SplitIsExact(total: int, weights: seq<int>)
    requires Weighable(weights)
    ensures Sum(Split(total, weights)) == total <==>
            total >= 0 || forall i :: 0 <= i < |weights| ==> LostIn(Products(total, weights)[i], Sum(weights)) == 0
  {
    ExactUnlessLost(total, weights);
    NothingLost(Products(total, weights), Sum(weights));
  }

  /** Without positive total weight nobody is charged, so only zero is split exactly. */
  lemma UnweightedSplitChargesNobody(total: int, weights: seq<int>)
    requires Sum(weights) <= 0
    ensures Sum(Split(total, weights)) == 0
    ensures forall i :: 0 <= i < |weights| ==> Split(total, weights)[i] == 0
  {
    SumZeros(Split(total, weights));
  }

  lemma ShareAt(total: int, weights: seq<int>, i: nat)
    requires total >= 0 && Weighable(weights) && i < |weights|
    ensures var products, w := Products(total, weights), Sum(weights);
            && products[i] >= 0
            && Split(total, weights)[i] == products[i] / w + (if i < total - Sum(Parts(products, w)) then 1 else 0)
  {
    PartsAt(Products(total, weights), Sum(weights), i);
    ProductsOf(total, weights);
  }

  lemma DivBounds(x: int, w: int, share: int)
    requires w > 0 && x >= 0 && (share == x / w || share == x / w + 1)
    ensures 0 <= x / w && -w < share * w - x <= w
  {
    var q := x / w;
    assert q * w <= x < q * w + w;
    Distribute(w, q, 1);
  }

  /** Each share is the exact proportion rounded down, or one more; the ones
      that get one more come first; nobody is more than a baisa off. */
  lemma SplitIsFair(total: int, weights: seq<int>, i: nat)
    requires total >= 0 && Weighable(weights) && i < |weights|
    ensures var exact, w, share := Products(total, weights)[i], Sum(weights), Split(total, weights)[i];
            0 <= exact / w <= share <= exact / w + 1 && -w < share * w - exact <= w
    ensures forall k :: 0 <= k < i && Split(total, weights)[i] > Products(total, weights)[i] / Sum(weights) ==>
              Split(total, weights)[k] == Products(total, weights)[k] / Sum(weights) + 1
  {
    ShareAt(total, weights, i);
    DivBounds(Products(total, weights)[i], Sum(weights), Split(total, weights)[i]);
    forall k | 0 <= k < i && Split(total, weights)[i] > Products(total, weights)[i] / Sum(weights)
      ensures Split(total, weights)[k] == Products(total, weights)[k] / Sum(weights) + 1
    {
      ShareAt(total, weights, k);
    }
  }

  /** Nobody is ever charged a negative share. */
  lemma SplitIsNonNegative(total: int, weights: seq<int>)
    requires total >= 0 && (forall i :: 0 <= i < |weights| ==> weights[i] >= 0)
    ensures forall i :: 0 <= i < |weights| ==> Split(total, weights)[i] >= 0
  {
    if Sum(weights) > 0 {
      ProductsOf(total, weights);
      PartsNonNegative(Products(total, weights), Sum(weights));
    }
  }

  // ---------------------------------------------------------------------------
  // Unit weights

  function Ones(n: nat): (r: seq<int>)
    ensures |r| == n
  {
    seq(n, _ => 1)
  }

  lemma {:induction false} SumOfEqual(s: seq<int>, v: int)
    requires forall i :: 0 <= i < |s| ==> s[i] == v
    ensures Sum(s) == v * |s|
  {
    if s != [] {
      SumOfEqual(s[..|s|-1], v);
      Distribute(v, |s| - 1, 1);
    }
  }

  lemma EqualParts(total: int, products: seq<int>, w: int)
    requires w > 0 && forall i :: 0 <= i < |products| ==> products[i] == total
    ensures Sum(Parts(products, w)) == GoDiv(total, w) * |products|
    ensures forall i :: 0 <= i < |products| ==> Parts(products, w)[i] == GoDiv(total, w)
  {
    forall i | 0 <= i < |products|
      ensures Parts(products, w)[i] == GoDiv(total, w)
    {
      PartsAt(products, w, i);
    }
    SumOfEqual(Parts(products, w), GoDiv(total, w));
  }

  lemma EqualCompletion(total: int, parts: seq<int>, v: int)
    requires (forall i :: 0 <= i < |parts| ==> parts[i] == v) && Sum(parts) == v * |parts|
    ensures Completed(total, parts) == seq(|parts|, i => v + (if i < total - v * |parts| then 1 else 0))
  {
  }

  /** An amount that is not negative is split into its quotient, and one more for as
      many of the first as there is remainder. */
  lemma EqualSplitAt(total: int, n: nat, i: nat)
    requires total >= 0 && i < n
    ensures EqualSplit(total, n)[i] == total / n + if i < total % n then 1 else 0
  {
    assert total == total / n * n + total % n;
  }

  /** Unit weights give exactly the equal split, for every amount. */
  lemma UnitWeightsSplitEqually(total: int, n: nat)
    ensures Split(total, Ones(n)) == EqualSplit(total, n)
  {
    SumOfEqual(Ones(n), 1);
    if n > 0 {
      var products := Products(total, Ones(n));
      SplitForm(total, Ones(n));
      EqualParts(total, products, n);
      EqualCompletion(total, Parts(products, n), GoDiv(total, n));
    }
  }
}
