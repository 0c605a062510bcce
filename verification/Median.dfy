/** The median over the extended reals: a sorted copy, and its middle element or the mean of the middle two. */
module Medians {

  /** A floating-point number without rounding; sorting puts not-a-number first. */
  datatype Float = NaN | Finite(value: real) | Infinite

  predicate Le(a: Float, b: Float) {
    a.NaN? || b.Infinite? || (a.Finite? && b.Finite? && a.value <= b.value)
  }

  predicate Lt(a: Float, b: Float) {
    !Le(b, a)
  }

  // ---------- order statistics ----------

  function CountLess(s: seq<Float>, x: Float): nat {
    if s == [] then 0 else CountLess(s[..|s| - 1], x) + if Lt(s[|s| - 1], x) then 1 else 0
  }

  function CountLeq(s: seq<Float>, x: Float): nat {
    if s == [] then 0 else CountLeq(s[..|s| - 1], x) + if Le(s[|s| - 1], x) then 1 else 0
  }

  /** At most k values are less than x, and more than k are at most x. */
  predicate IsKth(s: seq<Float>, k: nat, x: Float) {
    CountLess(s, x) <= k < CountLeq(s, x)
  }

  lemma {:induction false} CountsGrow(s: seq<Float>, x: Float, y: Float)
    requires Lt(x, y)
    ensures CountLeq(s, x) <= CountLess(s, y)
  {
    if s != [] {
      CountsGrow(s[..|s| - 1], x, y);
    }
  }

  /** A list has at most one k-th value. */
  lemma KthIsUnique(s: seq<Float>, k: nat, x: Float, y: Float)
    requires IsKth(s, k, x) && IsKth(s, k, y)
    ensures x == y
  {
    if Lt(x, y) {
      CountsGrow(s, x, y);
    } else if Lt(y, x) {
      CountsGrow(s, y, x);
    }
  }

  lemma {:induction false} CountLeqDominated(a: seq<Float>, b: seq<Float>, x: Float)
    requires |a| == |b| && forall i | 0 <= i < |a| :: Le(a[i], b[i])
    ensures CountLeq(b, x) <= CountLeq(a, x)
  {
    if a != [] {
      CountLeqDominated(a[..|a| - 1], b[..|b| - 1], x);
    }
  }

  // ---------- sorting ----------

  function Insert(x: Float, sorted: seq<Float>): seq<Float> {
    if sorted == [] || Le(sorted[|sorted| - 1], x) then sorted + [x]
    else Insert(x, sorted[..|sorted| - 1]) + [sorted[|sorted| - 1]]
  }

  function Sorted(s: seq<Float>): seq<Float> {
    if s == [] then [] else Insert(s[|s| - 1], Sorted(s[..|s| - 1]))
  }

  ghost predicate Ascending(s: seq<Float>) {
    forall i, j | 0 <= i < j < |s| :: Le(s[i], s[j])
  }

  lemma {:induction false} InsertMembers(x: Float, s: seq<Float>)
    ensures multiset(Insert(x, s)) == multiset(s + [x])
  {
    if s != [] && !Le(s[|s| - 1], x) {
      var init, last := s[..|s| - 1], s[|s| - 1];
      InsertMembers(x, init);
      assert s == init + [last];
    }
  }

  lemma {:induction false} InsertAscends(x: Float, s: seq<Float>)
    requires Ascending(s)
    ensures Ascending(Insert(x, s))
  {
    if s != [] && !Le(s[|s| - 1], x) {
      var init, last := s[..|s| - 1], s[|s| - 1];
      InsertAscends(x, init);
      InsertMembers(x, init);
      var t := Insert(x, init);
      forall i | 0 <= i < |t| ensures Le(t[i], last) {
        assert t[i] in multiset(init + [x]);
      }
    }
  }

  lemma CountSnoc(s: seq<Float>, x: Float, y: Float)
    ensures CountLeq(s + [x], y) == CountLeq(s, y) + if Le(x, y) then 1 else 0
    ensures CountLess(s + [x], y) == CountLess(s, y) + if Lt(x, y) then 1 else 0
  {
    assert (s + [x])[..|s|] == s;
  }

  lemma {:induction false} InsertCounts(x: Float, s: seq<Float>, y: Float)
    ensures CountLeq(Insert(x, s), y) == CountLeq(s + [x], y)
    ensures CountLess(Insert(x, s), y) == CountLess(s + [x], y)
  {
    if s != [] && !Le(s[|s| - 1], x) {
      var init, last := s[..|s| - 1], s[|s| - 1];
      InsertCounts(x, init, y);
      assert s == init + [last];
      CountSnoc(init, x, y);
      CountSnoc(init, last, y);
      CountSnoc(s, x, y);
      CountSnoc(Insert(x, init), last, y);
    }
  }

  /** The sorted list is ascending and holds the same values as often. */
  lemma {:induction false} SortedIsSorted(s: seq<Float>)
    ensures Ascending(Sorted(s)) && multiset(Sorted(s)) == multiset(s)
    ensures |Sorted(s)| == |s|
  {
    if s != [] {
      var init, last := s[..|s| - 1], s[|s| - 1];
      SortedIsSorted(init);
      InsertMembers(last, Sorted(init));
      InsertAscends(last, Sorted(init));
      assert s == init + [last];
      assert |multiset(Sorted(s))| == |multiset(s)|;
    }
  }

  lemma {:induction false} SortedCounts(s: seq<Float>, y: Float)
    ensures CountLeq(Sorted(s), y) == CountLeq(s, y) && CountLess(Sorted(s), y) == CountLess(s, y)
  {
    if s != [] {
      var init, last := s[..|s| - 1], s[|s| - 1];
      SortedCounts(init, y);
      InsertCounts(last, Sorted(init), y);
      CountSnoc(Sorted(init), last, y);
    }
  }

  lemma {:induction false} CountsInOrder(s: seq<Float>, k: nat)
    requires Ascending(s) && k < |s|
    ensures IsKth(s, k, s[k])
  {
    var init, last := s[..|s| - 1], s[|s| - 1];
    if k < |init| {
      CountsInOrder(init, k);
    } else {
      AllCounted(init, last);
    }
  }

  lemma {:induction false} AllCounted(s: seq<Float>, x: Float)
    requires forall i | 0 <= i < |s| :: Le(s[i], x)
    ensures CountLeq(s, x) == |s| && CountLess(s, x) <= |s|
  {
    if s != [] {
      AllCounted(s[..|s| - 1], x);
    }
  }

  lemma KthOfSorted(s: seq<Float>, k: nat)
    requires k < |s|
    ensures |Sorted(s)| == |s| && IsKth(s, k, Sorted(s)[k])
  {
    SortedIsSorted(s);
    CountsInOrder(Sorted(s), k);
    SortedCounts(s, Sorted(s)[k]);
  }

  // ---------- the median ----------

  function Mean(a: Float, b: Float): Float {
    if a.NaN? || b.NaN? then NaN
    else if a.Infinite? || b.Infinite? then Infinite
    else Finite((a.value + b.value) / 2.0)
  }

  /** The middle value, or the mean of the two middle values. */
  ghost predicate IsMedian(s: seq<Float>, m: Float) {
    if s == [] then false
    else if |s| % 2 == 1 then IsKth(s, |s| / 2, m)
    else exists a, b :: IsKth(s, |s| / 2 - 1, a) && IsKth(s, |s| / 2, b) && m == Mean(a, b)
  }

  method SortFloat64s(numbers: array<Float>)
    modifies numbers
    ensures numbers[..] == Sorted(old(numbers[..]))
  {
    SortedIsSorted(numbers[..]);
    var sorted := Sorted(numbers[..]);
    forall i | 0 <= i < numbers.Length {
      numbers[i] := sorted[i];
    }
  }

  function Selected<T>(values: seq<T>, selectValue: T -> Float): seq<Float> {
    seq(|values|, i requires 0 <= i < |values| => selectValue(values[i]))
  }

  function MedianOf(s: seq<Float>): (m: Float)
    requires s != []
    ensures IsMedian(s, m)
  {
    var middle := |s| / 2;
    KthOfSorted(s, middle);
    if |s| % 2 == 1 then Sorted(s)[middle]
    else
      KthOfSorted(s, middle - 1);
      Mean(Sorted(s)[middle - 1], Sorted(s)[middle])
  }

  /** The median of the selected values, the only one there is. */
  method Median<T>(values: seq<T>, selectValue: T -> Float) returns (m: Float)
    requires values != []
    ensures m == MedianOf(Selected(values, selectValue))
    ensures forall x :: IsMedian(Selected(values, selectValue), x) <==> x == m
  {
    var numbers := new Float[|values|];
    var index := 0;
    while index < |values|
      invariant index <= |values|
      invariant forall i | 0 <= i < index :: numbers[i] == selectValue(values[i])
    {
      numbers[index] := selectValue(values[index]);
      index := index + 1;
    }
    ghost var s := Selected(values, selectValue);
    assert numbers[..] == s;
    SortFloat64s(numbers);
    var middle := numbers.Length / 2;
    KthOfSorted(s, middle);
    if numbers.Length % 2 == 1 {
      m := numbers[middle];
    } else {
      KthOfSorted(s, middle - 1);
      m := Mean(numbers[middle - 1], numbers[middle]);
    }
    forall x | IsMedian(s, x) ensures x == m {
      MedianIsUnique(s, x, m);
    }
  }

  lemma MedianIsUnique(s: seq<Float>, x: Float, y: Float)
    requires s != [] && IsMedian(s, x) && IsMedian(s, y)
    ensures x == y
  {
    var k := |s| / 2;
    if |s| % 2 == 1 {
      KthIsUnique(s, k, x, y);
    } else {
      var a, b :| IsKth(s, k - 1, a) && IsKth(s, k, b) && x == Mean(a, b);
      var c, d :| IsKth(s, k - 1, c) && IsKth(s, k, d) && y == Mean(c, d);
      KthIsUnique(s, k - 1, a, c);
      KthIsUnique(s, k, b, d);
    }
  }

  // ---------- laws ----------

  /** If every value of one list is at most its partner in the other, so is every order statistic. */
  lemma KthDominated(a: seq<Float>, b: seq<Float>, k: nat, x: Float, y: Float)
    requires |a| == |b| && forall i | 0 <= i < |a| :: Le(a[i], b[i])
    requires IsKth(a, k, x) && IsKth(b, k, y)
    ensures Le(x, y)
  {
    if Lt(y, x) {
      CountLeqDominated(a, b, y);
      CountsGrow(a, y, x);
    }
  }

  /** Pointwise domination survives the median. */
  lemma MedianDominated(a: seq<Float>, b: seq<Float>, x: Float, y: Float)
    requires |a| == |b| && forall i | 0 <= i < |a| :: Le(a[i], b[i])
    requires a != [] && IsMedian(a, x) && IsMedian(b, y)
    ensures Le(x, y)
  {
    var k := |a| / 2;
    if |a| % 2 == 1 {
      KthDominated(a, b, k, x, y);
    } else {
      var p, q :| IsKth(a, k - 1, p) && IsKth(a, k, q) && x == Mean(p, q);
      var r, s :| IsKth(b, k - 1, r) && IsKth(b, k, s) && y == Mean(r, s);
      KthDominated(a, b, k - 1, p, r);
      KthDominated(a, b, k, q, s);
      KthsInOrder(a, k - 1, p, q);
      KthsInOrder(b, k - 1, r, s);
    }
  }

  lemma KthsInOrder(s: seq<Float>, k: nat, x: Float, y: Float)
    requires IsKth(s, k, x) && IsKth(s, k + 1, y)
    ensures Le(x, y)
  {
    if Lt(y, x) {
      CountsGrow(s, y, x);
    }
  }

  ghost predicate Positive(s: seq<Float>) {
    forall i | 0 <= i < |s| :: s[i].Finite? && 0.0 < s[i].value
  }

  function Quotient(n: real, x: Float): Float
    requires x.Finite? && 0.0 < x.value
  {
    Finite(n / x.value)
  }

  /** One list holds n over each value of the other. */
  ghost predicate Reciprocals(rates: seq<Float>, seconds: seq<Float>, n: real) {
    && |rates| == |seconds| && Positive(seconds)
    && forall i | 0 <= i < |rates| :: rates[i] == Quotient(n, seconds[i])
  }

  lemma QuotientReverses(n: real, x: real, y: real)
    requires 0.0 < n && 0.0 < x && 0.0 < y
    ensures n / x <= n / y <==> y <= x
  {
    var p, q := n / x, n / y;
    assert p * x == n && q * y == n && 0.0 < q;
    Scale(p, q, x);
    Scale(y, x, q);
    assert y * q == q * y && x * q == q * x;
  }

  lemma Scale(a: real, b: real, c: real)
    requires 0.0 < c
    ensures a <= b <==> a * c <= b * c
  {
    assert b * c - a * c == (b - a) * c;
  }

  lemma {:induction false} CountReciprocals(rates: seq<Float>, seconds: seq<Float>, n: real, x: Float)
    requires Reciprocals(rates, seconds, n) && 0.0 < n && x.Finite? && 0.0 < x.value
    ensures CountLess(rates, Quotient(n, x)) == |seconds| - CountLeq(seconds, x)
    ensures CountLeq(rates, Quotient(n, x)) == |seconds| - CountLess(seconds, x)
  {
    if seconds != [] {
      var s, last := seconds[..|seconds| - 1], seconds[|seconds| - 1];
      CountReciprocals(rates[..|rates| - 1], s, n, x);
      QuotientReverses(n, x.value, last.value);
      QuotientReverses(n, last.value, x.value);
    }
  }

  /** The k-th largest rate belongs to the k-th smallest duration. */
  lemma KthReciprocal(rates: seq<Float>, seconds: seq<Float>, n: real, k: nat, x: Float)
    requires Reciprocals(rates, seconds, n) && 0.0 < n && k < |seconds| && IsKth(seconds, k, x)
    ensures x.Finite? && 0.0 < x.value && IsKth(rates, |seconds| - 1 - k, Quotient(n, x))
  {
    KthIsMember(seconds, k, x);
    CountReciprocals(rates, seconds, n, x);
  }

  lemma KthIsMember(s: seq<Float>, k: nat, x: Float)
    requires k < |s| && IsKth(s, k, x)
    ensures x in s
  {
    KthOfSorted(s, k);
    SortedIsSorted(s);
    KthIsUnique(s, k, x, Sorted(s)[k]);
    assert Sorted(s)[k] in multiset(Sorted(s));
  }

  /** For an odd number of runs the median rate is the count over the median duration. */
  lemma OddMedianReciprocal(rates: seq<Float>, seconds: seq<Float>, n: real, m: Float)
    requires Reciprocals(rates, seconds, n) && 0.0 < n && |seconds| % 2 == 1 && IsMedian(seconds, m)
    ensures m.Finite? && 0.0 < m.value && IsMedian(rates, Quotient(n, m))
  {
    KthReciprocal(rates, seconds, n, |seconds| / 2, m);
  }

  /**
   For an even number it is never less, and equal exactly when the two middle durations, those at
   places n/2 - 1 and n/2 of the sorted list, are the same.
   */
  lemma EvenMedianReciprocal(rates: seq<Float>, seconds: seq<Float>, n: real, a: Float, b: Float, rate: Float)
    requires Reciprocals(rates, seconds, n) && 0.0 < n && |seconds| > 0 && |seconds| % 2 == 0
    requires IsKth(seconds, |seconds| / 2 - 1, a) && IsKth(seconds, |seconds| / 2, b)
    requires IsMedian(rates, rate)
    ensures IsMedian(seconds, Mean(a, b)) && Mean(a, b).Finite? && 0.0 < Mean(a, b).value
    ensures Le(Quotient(n, Mean(a, b)), rate)
    ensures rate == Quotient(n, Mean(a, b)) <==> a == b
  {
    var k := |seconds| / 2;
    KthReciprocal(rates, seconds, n, k - 1, a);
    KthReciprocal(rates, seconds, n, k, b);
    MedianIsUnique(rates, rate, Mean(Quotient(n, b), Quotient(n, a)));
    HarmonicMean(n, a.value, b.value);
  }

  lemma HarmonicMean(n: real, a: real, b: real)
    requires 0.0 < n && 0.0 < a && 0.0 < b
    ensures n / ((a + b) / 2.0) <= (n / a + n / b) / 2.0
    ensures n / ((a + b) / 2.0) == (n / a + n / b) / 2.0 <==> a == b
  {
    var p, q, r := n / a, n / b, n / ((a + b) / 2.0);
    assert p * a == n && q * b == n && r * (a + b) == 2.0 * n;
    // With p a = q b = n, the difference of the two sides is (p - q)(b - a), which is n (a - b)^2 / (a b).
    assert (p + q) * (a + b) == 2.0 * n + p * b + q * a;
    assert ((p + q) - 2.0 * r) * (a + b) == p * b + q * a - 2.0 * n;
    assert p * b + q * a - 2.0 * n == (p - q) * (b - a);
    QuotientReverses(n, a, b);
    QuotientReverses(n, b, a);
  }

  /** With two runs of 1 and 3 seconds the rates' median is 2/3, but one event over the median of 2 seconds is 1/2. */
  lemma EvenMedianDiffers()
    ensures var rates, seconds := [Finite(1.0), Finite(1.0 / 3.0)], [Finite(1.0), Finite(3.0)];
            && Reciprocals(rates, seconds, 1.0)
            && IsMedian(rates, Finite(2.0 / 3.0)) && IsMedian(seconds, Finite(2.0))
            && Quotient(1.0, Finite(2.0)) != Finite(2.0 / 3.0)
  {
    var rates, seconds := [Finite(1.0), Finite(1.0 / 3.0)], [Finite(1.0), Finite(3.0)];
    assert IsKth(rates, 0, rates[1]) && IsKth(rates, 1, rates[0]) by {
      PairCounts(rates[0], rates[1], rates[0]);
      PairCounts(rates[0], rates[1], rates[1]);
    }
    assert IsKth(seconds, 0, seconds[0]) && IsKth(seconds, 1, seconds[1]) by {
      PairCounts(seconds[0], seconds[1], seconds[0]);
      PairCounts(seconds[0], seconds[1], seconds[1]);
    }
    assert |rates| / 2 - 1 == 0 && |seconds| / 2 - 1 == 0;
    assert IsKth(rates, |rates| / 2 - 1, rates[1]) && IsKth(rates, |rates| / 2, rates[0]);
    assert IsKth(seconds, |seconds| / 2 - 1, seconds[0]) && IsKth(seconds, |seconds| / 2, seconds[1]);
    assert Mean(rates[1], rates[0]) == Finite(2.0 / 3.0) && Mean(seconds[0], seconds[1]) == Finite(2.0);
  }

  lemma PairCounts(a: Float, b: Float, x: Float)
    ensures CountLess([a, b], x) == (if Lt(a, x) then 1 else 0) + (if Lt(b, x) then 1 else 0)
    ensures CountLeq([a, b], x) == (if Le(a, x) then 1 else 0) + (if Le(b, x) then 1 else 0)
  {
    CountSnoc([], a, x);
    CountSnoc([a], b, x);
    assert [] + [a] == [a] && [a] + [b] == [a, b];
  }
}
