// app/application/mock_exams.py, `_specialized_target_counts`: the questions of a specialized paper are
// shared among the topics of a chapter by the largest-remainder (Hamilton) method.  Ratios are exact.
module Apportionment {
  import opened OrderedCounts
  import opened Rounding

  function SumOfFirst(xs: seq<real>, k: nat): real
    requires k <= |xs|
  {
    if k == 0 then 0.0 else SumOfFirst(xs, k - 1) + xs[k - 1]
  }

  function Sum(xs: seq<real>): real { SumOfFirst(xs, |xs|) }

  function CountOfFirst(cs: seq<int>, k: nat): int
    requires k <= |cs|
  {
    if k == 0 then 0 else CountOfFirst(cs, k - 1) + cs[k - 1]
  }

  function Count(cs: seq<int>): int { CountOfFirst(cs, |cs|) }

  function Frac(x: real): real { x - x.Floor as real }

  // How far an allocation is from the exact shares.
  function DeviationOfFirst(q: seq<real>, c: seq<int>, k: nat): real
    requires |q| == |c| && k <= |q|
  {
    if k == 0 then 0.0 else DeviationOfFirst(q, c, k - 1) + Abs(c[k - 1] as real - q[k - 1])
  }

  function Deviation(q: seq<real>, c: seq<int>): real
    requires |q| == |c|
  {
    DeviationOfFirst(q, c, |q|)
  }

  // The order in which remainders are served: larger remainder first, earlier topic on a tie.
  predicate Before(q: seq<real>, i: nat, j: nat)
    requires i < |q| && j < |q|
  {
    Frac(q[i]) > Frac(q[j]) || (Frac(q[i]) == Frac(q[j]) && i < j)
  }

  predicate RoundedUp(q: seq<real>, c: seq<int>, i: nat)
    requires i < |q| == |c|
  {
    c[i] == q[i].Floor + 1
  }

  // Hamilton's allocation of `total`: each share rounded down or up, and those rounded up come first.
  predicate Hamilton(q: seq<real>, c: seq<int>, total: int) {
    && |q| == |c| && Count(c) == total
    && (forall i :: 0 <= i < |q| ==> c[i] == q[i].Floor || c[i] == q[i].Floor + 1)
    && (forall i, j :: 0 <= i < |q| && 0 <= j < |q| && RoundedUp(q, c, i) && !RoundedUp(q, c, j) ==> Before(q, i, j))
  }

  // ---- What the method is for --------------------------------------------------------------

  // A larger share never gets less; on equal shares the earlier topic gets at most one more.
  lemma {:induction false} LargerShareNeverFewer(q: seq<real>, c: seq<int>, total: int, i: nat, j: nat)
    requires Hamilton(q, c, total) && i < |q| && j < |q|
    ensures q[i] > q[j] ==> c[i] >= c[j]
    ensures q[i] == q[j] && i < j ==> c[j] <= c[i] <= c[j] + 1
  {
    if q[i] >= q[j] && q[i].Floor == q[j].Floor && RoundedUp(q, c, j) && !RoundedUp(q, c, i) {
      assert Before(q, j, i);
    }
  }

  // The shares determine the allocation.
  lemma {:induction false} HamiltonIsUnique(q: seq<real>, c: seq<int>, d: seq<int>, total: int)
    requires Hamilton(q, c, total) && Hamilton(q, d, total)
    ensures c == d
  {
    if c != d {
      var k := SomeDifference(c, d);
      var up, down := if c[k] > d[k] then c else d, if c[k] > d[k] then d else c;
      var m := SomeSmaller(up, down, k);
      ServedOnce(q, k, m);
    }
  }

  lemma {:induction false} ServedOnce(q: seq<real>, i: nat, j: nat)
    requires i < |q| && j < |q|
    ensures !(Before(q, i, j) && Before(q, j, i))
  {
  }

  lemma {:induction false} SomeDifference(c: seq<int>, d: seq<int>) returns (k: nat)
    requires |c| == |d| && c != d
    ensures k < |c| && c[k] != d[k]
  {
    k :| k < |c| && c[k] != d[k];
  }

  // Two lists with the same sum: if one is larger somewhere it is smaller elsewhere.
  lemma {:induction false} SomeSmaller(c: seq<int>, d: seq<int>, k: nat) returns (m: nat)
    requires |c| == |d| && k < |c| && c[k] > d[k] && Count(c) == Count(d)
    ensures m < |c| && c[m] < d[m]
  {
    if forall i :: 0 <= i < |c| ==> c[i] >= d[i] {
      CountsCompare(c, d, k, |c|);
      assert false;
    } else {
      m :| m < |c| && c[m] < d[m];
    }
  }

  lemma {:induction false} CountsCompare(c: seq<int>, d: seq<int>, k: nat, n: nat)
    requires |c| == |d| && n <= |c| && k < |c| && c[k] > d[k]
    requires forall i :: 0 <= i < |c| ==> c[i] >= d[i]
    ensures CountOfFirst(c, n) >= CountOfFirst(d, n) + if k < n then 1 else 0
  {
    if n > 0 { CountsCompare(c, d, k, n - 1); }
  }

  // No allocation of the same total in whole questions deviates less from the exact shares.
  lemma {:induction false} HamiltonIsOptimal(q: seq<real>, c: seq<int>, e: seq<int>, total: int)
    requires Hamilton(q, c, total) && Sum(q) == total as real
    requires |e| == |q| && Count(e) == total
    ensures Deviation(q, c) <= Deviation(q, e)
  {
    var price := Price(q, c);
    PricedDeviation(q, c, e, price, |q|);
    PricedIsSum(q, c, price, |q|);
    PricedIsSum(q, e, price, |q|);
  }

  // A price per question at which every topic, taken alone, is served best by its Hamilton count.
  predicate Clears(q: seq<real>, c: seq<int>, price: real) {
    && |q| == |c| && -1.0 <= price <= 1.0
    && forall i :: 0 <= i < |q| ==>
         (RoundedUp(q, c, i) ==> price <= 2.0 * Frac(q[i]) - 1.0)
         && (!RoundedUp(q, c, i) ==> c[i] == q[i].Floor && price >= 2.0 * Frac(q[i]) - 1.0)
  }

  // The smallest remainder that was rounded up fixes the price.
  lemma {:induction false} Price(q: seq<real>, c: seq<int>) returns (price: real)
    requires Hamilton(q, c, Count(c)) && Sum(q) == Count(c) as real
    ensures Clears(q, c, price)
  {
    if exists i :: 0 <= i < |q| && RoundedUp(q, c, i) {
      var least: nat :| least < |q| && RoundedUp(q, c, least);
      var k := 0;
      while k < |q|
        invariant k <= |q| && least < |q| && RoundedUp(q, c, least)
        invariant forall i :: 0 <= i < k && RoundedUp(q, c, i) ==> Frac(q[least]) <= Frac(q[i])
      {
        if RoundedUp(q, c, k) && Frac(q[k]) < Frac(q[least]) { least := k; }
        k := k + 1;
      }
      price := 2.0 * Frac(q[least]) - 1.0;
      forall j | 0 <= j < |q| && !RoundedUp(q, c, j) ensures Frac(q[j]) <= Frac(q[least]) {
        assert Before(q, least, j);
      }
    } else {
      assert forall i :: 0 <= i < |q| && !RoundedUp(q, c, i) ==> c[i] == q[i].Floor;
      price := -1.0;
      forall j | 0 <= j < |q| ensures Frac(q[j]) == 0.0 { NoRemainderAt(q, c, |q|, j); }
    }
  }

  lemma {:induction false} NoRemainders(q: seq<real>, c: seq<int>, k: nat)
    requires |q| == |c| && k <= |q| && forall i :: 0 <= i < |q| ==> c[i] == q[i].Floor
    ensures SumOfFirst(q, k) >= CountOfFirst(c, k) as real
  {
    if k > 0 { NoRemainders(q, c, k - 1); }
  }

  lemma {:induction false} NoRemainderAt(q: seq<real>, c: seq<int>, k: nat, j: nat)
    requires |q| == |c| && j < k <= |q| && forall i :: 0 <= i < |q| ==> c[i] == q[i].Floor
    requires SumOfFirst(q, k) == CountOfFirst(c, k) as real
    ensures Frac(q[j]) == 0.0
  {
    NoRemainders(q, c, k - 1);
    if j < k - 1 { NoRemainderAt(q, c, k - 1, j); }
  }

  // Moving away from the rounded value costs at least what the price gives back.
  lemma {:induction false} PricedShare(q: real, c: int, e: int, price: real)
    requires -1.0 <= price <= 1.0
    requires (c == q.Floor + 1 && price <= 2.0 * Frac(q) - 1.0) || (c == q.Floor && price >= 2.0 * Frac(q) - 1.0)
    ensures Abs(c as real - q) + price * c as real <= Abs(e as real - q) + price * e as real
  {
    if e > c {
      MovingUp(q, c, e, price, (e - c) as real);
    } else if e < c {
      MovingDown(q, c, e, price, (c - e) as real);
    }
  }

  lemma {:induction false} MovingUp(q: real, c: int, e: int, price: real, gap: real)
    requires -1.0 <= price && gap >= 1.0 && e as real == c as real + gap
    requires c == q.Floor + 1 || (c == q.Floor && price >= 2.0 * Frac(q) - 1.0)
    ensures Abs(c as real - q) + price * c as real <= Abs(e as real - q) + price * e as real
  {
    Fee(price, c as real, gap);
    assert Abs(e as real - q) - Abs(c as real - q) == if c == q.Floor then gap - 2.0 * Frac(q) else gap;
  }

  lemma {:induction false} MovingDown(q: real, c: int, e: int, price: real, gap: real)
    requires price <= 1.0 && gap >= 1.0 && c as real == e as real + gap
    requires (c == q.Floor + 1 && price <= 2.0 * Frac(q) - 1.0) || c == q.Floor
    ensures Abs(c as real - q) + price * c as real <= Abs(e as real - q) + price * e as real
  {
    Fee(-price, e as real, gap);
    assert -price * c as real == -(price * c as real) && -price * e as real == -(price * e as real);
    assert Abs(e as real - q) - Abs(c as real - q) == if c == q.Floor then gap else gap - 2.0 * (1.0 - Frac(q));
  }

  // At a price of at least -1, `gap` more questions cost at least what one more costs, less `gap - 1`.
  lemma {:induction false} Fee(price: real, x: real, gap: real)
    requires -1.0 <= price && gap >= 1.0
    ensures price * (x + gap) >= price * x + price + 1.0 - gap
  {
    Gap(price + 1.0, gap);
    assert price * (x + gap) == price * x + price * gap;
    assert price * gap == (price + 1.0) * gap - gap;
  }

  lemma {:induction false} Gap(x: real, gap: real)
    requires x >= 0.0 && gap >= 1.0
    ensures x * gap >= x
  {
    assert x * (gap - 1.0) >= 0.0;
  }

  function Priced(share: real, count: int, price: real): real { Abs(count as real - share) + price * count as real }

  // Deviation and price together, topic by topic.
  function PricedOfFirst(q: seq<real>, c: seq<int>, price: real, k: nat): real
    requires |q| == |c| && k <= |q|
  {
    if k == 0 then 0.0 else PricedOfFirst(q, c, price, k - 1) + Priced(q[k - 1], c[k - 1], price)
  }

  lemma {:induction false} PricedIsSum(q: seq<real>, c: seq<int>, price: real, k: nat)
    requires |q| == |c| && k <= |q|
    ensures PricedOfFirst(q, c, price, k) == DeviationOfFirst(q, c, k) + price * CountOfFirst(c, k) as real
  {
    if k > 0 {
      PricedIsSum(q, c, price, k - 1);
      Distribute(price, CountOfFirst(c, k - 1), c[k - 1]);
    }
  }

  lemma {:induction false} PricedAt(q: seq<real>, c: seq<int>, e: seq<int>, price: real, i: nat)
    requires Clears(q, c, price) && |e| == |q| && i < |q|
    ensures Priced(q[i], c[i], price) <= Priced(q[i], e[i], price)
  {
    assert RoundedUp(q, c, i) || !RoundedUp(q, c, i);
    PricedShare(q[i], c[i], e[i], price);
  }

  lemma {:induction false} PricedDeviation(q: seq<real>, c: seq<int>, e: seq<int>, price: real, k: nat)
    requires Clears(q, c, price) && |e| == |q| && k <= |q|
    ensures PricedOfFirst(q, c, price, k) <= PricedOfFirst(q, e, price, k)
  {
    if k > 0 {
      PricedDeviation(q, c, e, price, k - 1);
      PricedAt(q, c, e, price, k - 1);
    }
  }

  lemma {:induction false} Distribute(price: real, a: int, b: int)
    ensures price * (a + b) as real == price * a as real + price * b as real
  {
    assert (a + b) as real == a as real + b as real;
  }

  // ---- The counts of a specialized paper ---------------------------------------------------

  datatype Signal = Signal(code: Label, accuracy: real, attempts: nat)

  // A weaker topic weighs more; a topic never attempted weighs as little as a perfect one.
  function Weight(s: Signal): real { if s.attempts != 0 then 1.0 + (1.0 - s.accuracy) * 3.0 else 1.0 }

  function Weights(signals: seq<Signal>): seq<real> { seq(|signals|,
      i requires 0 <= i < |signals| => Weight(signals[i])) }

  // The accuracies are shares of answered questions, so at most 1.
  predicate Accurate(signals: seq<Signal>) { forall i :: 0 <= i < |signals| ==> signals[i].accuracy <= 1.0 }

  predicate DistinctCodes(signals: seq<Signal>) {
    forall i, j :: 0 <= i < j < |signals| ==> signals[i].code != signals[j].code
  }

  lemma {:induction false} WeightsArePositive(signals: seq<Signal>, k: nat)
    requires Accurate(signals) && k <= |signals|
    ensures SumOfFirst(Weights(signals), k) >= k as real
  {
    if k > 0 { WeightsArePositive(signals, k - 1); }
  }

  function Share(total: nat, weight: real, all: real): real
    requires all > 0.0
  {
    total as real * weight / all
  }

  // The exact shares of `total` questions.
  function Quotas(signals: seq<Signal>, total: nat): (q: seq<real>)
    requires Accurate(signals)
    ensures |q| == |signals|
  {
    var all := Sum(Weights(signals));
    seq(|signals|, i requires 0 <= i < |signals| =>
      WeightsArePositive(signals, |signals|);
      Share(total, Weight(signals[i]), all))
  }

  lemma {:induction false} QuotaAt(signals: seq<Signal>, total: nat, i: nat, rate: real)
    requires Accurate(signals) && i < |signals| && Sum(Weights(signals)) * rate == total as real && rate >= 0.0
    ensures Quotas(signals, total)[i] == Weights(signals)[i] * rate >= 0.0
  {
    WeightsArePositive(signals, |signals|);
    var all, weight := Sum(Weights(signals)), Weights(signals)[i];
    ShareByRate(total, weight, all, rate);
    assert Quotas(signals, total)[i] == Share(total, weight, all);
  }

  lemma {:induction false} ShareByRate(total: nat, weight: real, all: real, rate: real)
    requires all > 0.0 && weight >= 0.0 && rate >= 0.0 && all * rate == total as real
    ensures Share(total, weight, all) == weight * rate >= 0.0
  {
    assert total as real * weight == all * (rate * weight);
  }

  // Questions per unit of weight.
  lemma {:induction false} Rate(signals: seq<Signal>, total: nat) returns (rate: real)
    requires Accurate(signals) && signals != []
    ensures Sum(Weights(signals)) * rate == total as real && rate >= 0.0 && (total > 0 ==> rate > 0.0)
  {
    WeightsArePositive(signals, |signals|);
    rate := Divided(total as real, Sum(Weights(signals)));
  }

  lemma {:induction false} Divided(total: real, all: real) returns (rate: real)
    requires total >= 0.0 && all > 0.0
    ensures all * rate == total && rate >= 0.0 && (total > 0.0 ==> rate > 0.0)
  {
    rate := total / all;
  }

  lemma {:induction false} ScaledSum(w: seq<real>, q: seq<real>, rate: real, k: nat)
    requires |w| == |q| && k <= |w| && forall i :: 0 <= i < |w| ==> q[i] == w[i] * rate
    ensures SumOfFirst(q, k) == SumOfFirst(w, k) * rate
  {
    if k > 0 {
      ScaledSum(w, q, rate, k - 1);
      AddShares(SumOfFirst(w, k - 1), w[k - 1], rate);
    }
  }

  lemma {:induction false} AddShares(a: real, b: real, rate: real)
    ensures (a + b) * rate == a * rate + b * rate
  {
  }

  lemma {:induction false} QuotasSumToTotal(signals: seq<Signal>, total: nat)
    requires Accurate(signals) && signals != []
    ensures Sum(Quotas(signals, total)) == total as real
  {
    var w, q := Weights(signals), Quotas(signals, total);
    var rate := Rate(signals, total);
    forall i | 0 <= i < |w| ensures q[i] == w[i] * rate { QuotaAt(signals, total, i, rate); }
    ScaledSum(w, q, rate, |w|);
  }

  // The student has shown more need of the first topic: answered less of it correctly, or some of it wrongly while
  // the other was never attempted.
  predicate Weaker(a: Signal, b: Signal) {
    a.attempts > 0 && if b.attempts > 0 then a.accuracy < b.accuracy else a.accuracy < 1.0
  }

  // What a topic's share is in proportion to: four less three times the accuracy, or one where nothing was
  // attempted.
  lemma {:induction false} WeightIsNeed(s: Signal)
    ensures Weight(s) == if s.attempts > 0 then 4.0 - 3.0 * s.accuracy else 1.0
  {
  }

  // The shares add up to the total, in that proportion.
  lemma {:induction false} SharesFollowAccuracy(signals: seq<Signal>, total: nat, i: nat, j: nat) returns (a: real,
      b: real)
    requires Accurate(signals) && i < |signals| && j < |signals|
    ensures Sum(Quotas(signals, total)) == total as real
    ensures a == if signals[i].attempts > 0 then 4.0 - 3.0 * signals[i].accuracy else 1.0
    ensures b == if signals[j].attempts > 0 then 4.0 - 3.0 * signals[j].accuracy else 1.0
    ensures Quotas(signals, total)[i] * b == Quotas(signals, total)[j] * a
  {
    a, b := Weight(signals[i]), Weight(signals[j]);
    WeightIsNeed(signals[i]);
    WeightIsNeed(signals[j]);
    QuotasSumToTotal(signals, total);
    QuotasInProportion(signals, total, i, j);
  }

  lemma {:induction false} QuotasInProportion(signals: seq<Signal>, total: nat, i: nat, j: nat)
    requires Accurate(signals) && i < |signals| && j < |signals|
    ensures Quotas(signals, total)[i] * Weight(signals[j]) == Quotas(signals, total)[j] * Weight(signals[i])
  {
    WeightsArePositive(signals, |signals|);
    SharesInProportion(total, Weight(signals[i]), Weight(signals[j]), Sum(Weights(signals)));
  }

  lemma {:induction false} SharesInProportion(total: nat, v: real, w: real, all: real)
    requires all > 0.0 && v >= 0.0 && w >= 0.0
    ensures Share(total, v, all) * w == Share(total, w, all) * v
  {
    var rate := Divided(total as real, all);
    ShareByRate(total, v, all, rate);
    ShareByRate(total, w, all, rate);
    InProportion(Share(total, v, all), Share(total, w, all), v, w, rate);
  }

  lemma {:induction false} InProportion(p: real, q: real, a: real, b: real, rate: real)
    requires p == a * rate && q == b * rate
    ensures p * b == q * a
  {
    assert (a * rate) * b == (b * rate) * a;
  }

  // A weaker topic never gets fewer questions than a stronger one.
  lemma {:induction false} WeakerTopicNeverFewer(signals: seq<Signal>, total: nat, c: seq<int>, i: nat, j: nat)
    requires Accurate(signals) && i < |signals| && j < |signals|
    requires Hamilton(Quotas(signals, total), c, total)
    requires Weaker(signals[i], signals[j])
    ensures c[i] >= c[j]
  {
    var q := Quotas(signals, total);
    if total == 0 {
      NothingIsShared(signals, c, j);
      NothingIsShared(signals, c, i);
    } else {
      LargerWeightLargerQuota(signals, total, i, j);
      LargerShareNeverFewer(q, c, total, i, j);
    }
  }

  lemma {:induction false} NothingIsShared(signals: seq<Signal>, c: seq<int>, i: nat)
    requires Accurate(signals) && i < |signals| && Hamilton(Quotas(signals, 0), c, 0)
    ensures c[i] == 0
  {
    var rate := Rate(signals, 0);
    forall k | 0 <= k < |c| ensures c[k] >= 0 { QuotaAt(signals, 0, k, rate); }
    NothingToShare(c, |c|, i);
  }

  lemma {:induction false} LargerWeightLargerQuota(signals: seq<Signal>, total: nat, i: nat, j: nat)
    requires Accurate(signals) && i < |signals| && j < |signals| && total > 0
    requires Weight(signals[i]) > Weight(signals[j])
    ensures Quotas(signals, total)[i] > Quotas(signals, total)[j]
  {
    var rate := Rate(signals, total);
    QuotaAt(signals, total, i, rate);
    QuotaAt(signals, total, j, rate);
    LargerProduct(Weight(signals[i]), Weight(signals[j]), rate, Quotas(signals, total)[i], Quotas(signals, total)[j]);
  }

  lemma {:induction false} LargerProduct(a: real, b: real, rate: real, p: real, q: real)
    requires a > b && rate > 0.0 && p == a * rate && q == b * rate
    ensures p > q
  {
    Positive(a - b, rate);
    AddShares(a - b, b, rate);
  }

  lemma {:induction false} Positive(x: real, y: real)
    requires x > 0.0 && y > 0.0
    ensures x * y > 0.0
  {
  }

  lemma {:induction false} NothingToShare(c: seq<int>, k: nat, i: nat)
    requires k <= |c| && i < |c| && forall j :: 0 <= j < |c| ==> c[j] >= 0
    ensures CountOfFirst(c, k) >= if i < k then c[i] else 0
  {
    if k > 0 { NothingToShare(c, k - 1, i); }
  }

  lemma {:induction false} FloorsLeaveARemainder(q: seq<real>, floors: seq<int>, k: nat)
    requires |q| == |floors| && k <= |q| && forall i :: 0 <= i < |q| ==> floors[i] == q[i].Floor
    ensures CountOfFirst(floors, k) as real <= SumOfFirst(q, k) <= (CountOfFirst(floors, k) + k) as real
  {
    if k > 0 { FloorsLeaveARemainder(q, floors, k - 1); }
  }

  lemma {:induction false} CountAfterIncrement(c: seq<int>, i: nat, k: nat)
    requires k <= |c| && i < |c|
    ensures CountOfFirst(c[i := c[i] + 1], k) == CountOfFirst(c, k) + if i < k then 1 else 0
  {
    if k > 0 { CountAfterIncrement(c, i, k - 1); }
  }

  // `sorted` by remainder, larger first, then by index.
  method OrderOfRemainders(q: seq<real>) returns (order: seq<nat>)
    ensures |order| == |q| && forall a :: 0 <= a < |order| ==> order[a] < |q|
    ensures forall a, b :: 0 <= a < b < |order| ==> Before(q, order[a], order[b])
    ensures forall i :: 0 <= i < |q| ==> i in order
  {
    order := [];
    for k := 0 to |q|
      invariant |order| == k && forall a :: 0 <= a < k ==> order[a] < k
      invariant forall a, b :: 0 <= a < b < k ==> Before(q, order[a], order[b])
      invariant forall i :: 0 <= i < k ==> i in order
    {
      var p := 0;
      while p < k && Before(q, order[p], k)
        invariant p <= k && forall a :: 0 <= a < p ==> Before(q, order[a], k)
      {
        p := p + 1;
      }
      assert p < k ==> Before(q, k, order[p]);
      ghost var was := order;
      order := order[..p] + [k] + order[p..];
      forall i | 0 <= i <= k ensures i in order {
        if i < k {
          assert i in was;
          var a :| 0 <= a < |was| && was[a] == i;
          assert order[if a < p then a else a + 1] == i;
        } else {
          assert order[p] == k;
        }
      }
    }
  }

  // The nonzero counts as a dictionary.
  function NonZero(signals: seq<Signal>, c: seq<int>, k: nat): Counts
    requires |signals| == |c| && k <= |c|
  {
    if k == 0 then NO_COUNTS
    else if c[k - 1] > 0 then NonZero(signals, c, k - 1).Put(signals[k - 1].code, c[k - 1])
    else NonZero(signals, c, k - 1)
  }

  lemma {:induction false} NonZeroCounts(signals: seq<Signal>, c: seq<int>, k: nat)
    requires |signals| == |c| && k <= |c| && DistinctCodes(signals)
    requires forall i :: 0 <= i < |c| ==> c[i] >= 0
    ensures
      var d := NonZero(signals, c, k);
      && d.Valid() && d.Total() == CountOfFirst(c, k)
      && (forall i :: 0 <= i < |c| ==> d.Get(signals[i].code) == if i < k then c[i] else 0)
  {
    if k > 0 {
      NonZeroCounts(signals, c, k - 1);
      var before := NonZero(signals, c, k - 1);
      if c[k - 1] > 0 {
        var code := signals[k - 1].code;
        PutTotal(before, code, c[k - 1]);
        assert NonZero(signals, c, k) == before.Put(code, c[k - 1]) && before.Get(code) == 0;
        forall i | 0 <= i < |c| ensures before.Put(code, c[k - 1]).Get(signals[i].code) == if i < k then c[i] else 0 {
          assert signals[i].code == code <==> i == k - 1;
        }
      } else {
        assert NonZero(signals, c, k) == before;
      }
    }
  }

  // The loop that serves the remainders: the first `remainder` topics of the order get one more.
  method ServeRemainders(q: seq<real>, floors: seq<int>, order: seq<nat>, remainder: nat) returns (c: seq<int>)
    requires |floors| == |order| == |q| && remainder <= |q|
    requires forall i :: 0 <= i < |q| ==> floors[i] == q[i].Floor
    requires forall a :: 0 <= a < |order| ==> order[a] < |q|
    requires forall a, b :: 0 <= a < b < |order| ==> Before(q, order[a], order[b])
    requires forall i :: 0 <= i < |q| ==> i in order
    ensures Hamilton(q, c, Count(floors) + remainder)
  {
    c := floors;
    for m := 0 to remainder
      invariant |c| == |q| && Count(c) == Count(floors) + m
      invariant forall a :: 0 <= a < m ==> c[order[a]] == floors[order[a]] + 1
      invariant forall a :: m <= a < |order| ==> c[order[a]] == floors[order[a]]
    {
      CountAfterIncrement(c, order[m], |c|);
      c := c[order[m] := c[order[m]] + 1];
    }
    forall i | 0 <= i < |q| ensures c[i] == q[i].Floor || c[i] == q[i].Floor + 1 {
      assert i in order;
      var a :| 0 <= a < |order| && order[a] == i;
    }
    forall i, j | 0 <= i < |q| && 0 <= j < |q| && RoundedUp(q, c, i) && !RoundedUp(q, c, j) ensures Before(q, i, j) {
      assert i in order;
      var a :| 0 <= a < |order| && order[a] == i;
      assert j in order;
      var b :| 0 <= b < |order| && order[b] == j;
    }
  }

  // `_specialized_target_counts`.
  method SpecializedTargetCounts(signals: seq<Signal>, total: nat) returns (result: Counts, ghost c: seq<int>)
    requires Accurate(signals) && DistinctCodes(signals)
    ensures signals == [] ==> result == NO_COUNTS
    ensures signals != [] ==> Hamilton(Quotas(signals, total), c, total)
    ensures signals != [] ==> result == NonZero(signals, c, |signals|) && result.Total() == total
    ensures result.Valid()
    ensures signals != [] ==> forall i :: 0 <= i < |signals| ==> result.Get(signals[i].code) == c[i]
  {
    if signals == [] {
      return NO_COUNTS, [];
    }
    var rawCounts := RawCounts(signals, total);
    QuotasSumToTotal(signals, total);
    var floors: seq<int> := seq(|signals|, i requires 0 <= i < |signals| => rawCounts[i].Floor);
    var given := 0;
    for i := 0 to |signals|
      invariant given == CountOfFirst(floors, i)
    {
      given := given + floors[i];
    }
    FloorsLeaveARemainder(rawCounts, floors, |signals|);
    var order := OrderOfRemainders(rawCounts);
    var counts := ServeRemainders(rawCounts, floors, order, total - given);
    c := counts;
    result := ToDictionary(signals, total, counts);
  }

  method RawCounts(signals: seq<Signal>, total: nat) returns (rawCounts: seq<real>)
    requires Accurate(signals) && signals != []
    ensures rawCounts == Quotas(signals, total)
  {
    var weights := Weights(signals);
    var weightTotal := 0.0;
    for i := 0 to |signals|
      invariant weightTotal == SumOfFirst(weights, i)
    {
      weightTotal := weightTotal + weights[i];
    }
    WeightsArePositive(signals, |signals|);
    rawCounts := seq(|signals|, i requires 0 <= i < |signals| => Share(total, weights[i], weightTotal));
  }

  method ToDictionary(signals: seq<Signal>, total: nat, counts: seq<int>) returns (result: Counts)
    requires Accurate(signals) && DistinctCodes(signals) && Hamilton(Quotas(signals, total), counts, total)
    ensures result == NonZero(signals, counts, |signals|)
    ensures result.Valid() && result.Total() == total
    ensures forall i :: 0 <= i < |signals| ==> result.Get(signals[i].code) == counts[i]
  {
    if signals != [] {
      ghost var rate := Rate(signals, total);
      forall i | 0 <= i < |counts| ensures counts[i] >= 0 { QuotaAt(signals, total, i, rate); }
    }
    NonZeroCounts(signals, counts, |signals|);
    result := NO_COUNTS;
    for i := 0 to |signals|
      invariant result == NonZero(signals, counts, i)
    {
      if counts[i] > 0 {
        result := result.Put(signals[i].code, counts[i]);
      }
    }
  }
}
