/** Interpolated percentiles over the reals, and the summary of a sample built from them. */
module Percentiles {
  import opened Wrappers

  ghost predicate Ascending(s: seq<real>) {
    forall i, j :: 0 <= i <= j < |s| ==> s[i] <= s[j]
  }

  function Inserted(x: real, s: seq<real>): seq<real> {
    if s == [] then [x] else if x <= s[0] then [x] + s else [s[0]] + Inserted(x, s[1..])
  }

  function Sorted(s: seq<real>): seq<real> {
    if s == [] then [] else Inserted(s[0], Sorted(s[1..]))
  }

  lemma {:induction false} InsertedAscends(x: real, s: seq<real>)
    requires Ascending(s)
    ensures Ascending(Inserted(x, s))
    ensures multiset(Inserted(x, s)) == multiset(s) + multiset{x}
    ensures forall y :: y in Inserted(x, s) ==> y == x || y in s
  {
    if s != [] && x > s[0] {
      InsertedAscends(x, s[1..]);
      var rest := Inserted(x, s[1..]);
      assert s == [s[0]] + s[1..];
      assert multiset(s) == multiset{s[0]} + multiset(s[1..]);
      LeastFirst(s[0], rest);
    }
  }

  lemma LeastFirst(x: real, s: seq<real>)
    requires Ascending(s) && forall y :: y in s ==> x <= y
    ensures Ascending([x] + s)
  {
    var t := [x] + s;
    forall i, j | 0 <= i <= j < |t|
      ensures t[i] <= t[j]
    {
      if j > 0 {
        assert t[j] == s[j - 1] && s[j - 1] in s;
        assert i > 0 ==> t[i] == s[i - 1];
      }
    }
  }

  /** Sorting gives an ascending rearrangement. */
  lemma {:induction false} SortedAscends(s: seq<real>)
    ensures Ascending(Sorted(s)) && multiset(Sorted(s)) == multiset(s)
    ensures |Sorted(s)| == |s|
  {
    if s != [] {
      SortedAscends(s[1..]);
      InsertedAscends(s[0], Sorted(s[1..]));
      assert s == [s[0]] + s[1..];
    }
    assert |multiset(Sorted(s))| == |multiset(s)|;
  }

  // ---------- the two implementations ----------

  function Ceiling(x: real): int {
    if x.Floor as real == x then x.Floor else x.Floor + 1
  }

  /** Multiplication by name, so that the proofs below can do without nonlinear arithmetic. */
  function Times(x: real, y: real): real {
    x * y
  }

  lemma TimesSubtract(x: real, y: real, z: real)
    ensures Times(x - y, z) == Times(x, z) - Times(y, z) && Times(z, x - y) == Times(z, x) - Times(z, y)
  {
  }

  lemma TimesUnits(x: real)
    ensures Times(x, 1.0) == x && Times(x, 0.0) == 0.0
  {
  }

  lemma TimesNatural(x: real, y: real)
    requires x >= 0.0 && y >= 0.0
    ensures Times(x, y) >= 0.0
  {
  }

  /** A weighted mean of two values. */
  function Mix(a: real, b: real, weight: real): real {
    Times(a, 1.0 - weight) + Times(b, weight)
  }

  /** The position of a fraction among the places 0 to n. */
  function Position(n: nat, fraction: real): real {
    Times(n as real, fraction)
  }

  /** The benchmark's own, over an ordered sample, for a fraction. */
  function Percentile(ordered: seq<real>, fraction: real): real
    requires ordered != [] && 0.0 <= fraction <= 1.0
  {
    if |ordered| == 1 then ordered[0]
    else
      var position := Position(|ordered| - 1, fraction);
      var lower, upper := position.Floor, Ceiling(position);
      InRange(|ordered| - 1, fraction);
      if lower == upper then ordered[lower] else Mix(ordered[lower], ordered[upper], position - lower as real)
  }

  lemma InRange(n: nat, fraction: real)
    requires 0.0 <= fraction <= 1.0
    ensures 0.0 <= Position(n, fraction) <= n as real
    ensures 0 <= Position(n, fraction).Floor <= Ceiling(Position(n, fraction)) <= n
  {
    hide Times;
    Product(n as real, fraction);
    RoundsWithin(n, Position(n, fraction));
  }

  lemma RoundsWithin(n: nat, x: real)
    requires 0.0 <= x <= n as real
    ensures 0 <= x.Floor <= Ceiling(x) <= n
  {
    if x.Floor >= n {
      assert x.Floor as real >= n as real;
    }
  }

  lemma Product(d: real, weight: real)
    requires 0.0 <= d && 0.0 <= weight <= 1.0
    ensures 0.0 <= Times(d, weight) <= d
  {
    hide Times;
    TimesNatural(d, weight);
    TimesNatural(d, 1.0 - weight);
    TimesSubtract(1.0, weight, d);
    TimesUnits(d);
  }

  /** The earlier baseline tool's, over any sample, for a whole percentage. */
  function BaselinePercentile(samples: seq<real>, percentile: int): real
    requires 0 <= percentile <= 100
  {
    if samples == [] then 0.0
    else
      var ordered := Sorted(samples);
      SortedAscends(samples);
      if |ordered| == 1 then ordered[0]
      else
        var rank := Position(|ordered| - 1, percentile as real / 100.0);
        InRange(|ordered| - 1, percentile as real / 100.0);
        var lower := rank.Floor;
        var upper := if lower + 1 < |ordered| - 1 then lower + 1 else |ordered| - 1;
        Mix(ordered[lower], ordered[upper], rank - lower as real)
  }

  /** The two agree on every sample and every whole percentage. */
  lemma ImplementationsAgree(samples: seq<real>, percentile: int)
    requires samples != [] && 0 <= percentile <= 100
    ensures |Sorted(samples)| == |samples|
    ensures BaselinePercentile(samples, percentile) == Percentile(Sorted(samples), percentile as real / 100.0)
  {
    hide Mix, Position, Sorted;
    SortedAscends(samples);
    var ordered := Sorted(samples);
    InRange(|samples| - 1, percentile as real / 100.0);
    var lower := Position(|samples| - 1, percentile as real / 100.0).Floor;
    var upper := if lower + 1 < |ordered| - 1 then lower + 1 else |ordered| - 1;
    NoWeight(ordered[lower], ordered[upper]);
  }

  lemma NoWeight(a: real, b: real)
    ensures Mix(a, b, 0.0) == a
  {
    hide Times;
    TimesUnits(a);
    TimesUnits(b);
  }

  // ---------- order ----------

  /** A percentile lies between the two order statistics around its position. */
  lemma Sandwich(ordered: seq<real>, fraction: real)
    requires ordered != [] && Ascending(ordered) && 0.0 <= fraction <= 1.0
    ensures var position := Position(|ordered| - 1, fraction);
      0 <= position.Floor <= Ceiling(position) < |ordered|
      && ordered[position.Floor] <= Percentile(ordered, fraction) <= ordered[Ceiling(position)]
  {
    hide Mix, Position;
    var position := Position(|ordered| - 1, fraction);
    InRange(|ordered| - 1, fraction);
    if |ordered| > 1 {
      Between(ordered[position.Floor], ordered[Ceiling(position)], position - position.Floor as real);
    }
  }

  lemma MixRises(a: real, b: real, weight: real)
    ensures Mix(a, b, weight) == a + Times(b - a, weight)
  {
    hide Times;
    TimesSubtract(1.0, weight, a);
    TimesSubtract(b, a, weight);
    TimesUnits(a);
  }

  lemma Between(a: real, b: real, weight: real)
    requires a <= b && 0.0 <= weight <= 1.0
    ensures a <= Mix(a, b, weight) <= b
  {
    hide Times, Mix;
    MixRises(a, b, weight);
    Product(b - a, weight);
  }

  lemma Steeper(a: real, b: real, v: real, w: real)
    requires a <= b && v <= w
    ensures Mix(a, b, v) <= Mix(a, b, w)
  {
    hide Times, Mix;
    MixRises(a, b, v);
    MixRises(a, b, w);
    TimesNatural(b - a, w - v);
    TimesSubtract(w, v, b - a);
  }

  lemma MixGrows(a: real, b: real, c: real, d: real, weight: real)
    requires a <= c && b <= d && 0.0 <= weight <= 1.0
    ensures Mix(a, b, weight) <= Mix(c, d, weight)
  {
    hide Times;
    TimesNatural(c - a, 1.0 - weight);
    TimesNatural(d - b, weight);
    TimesSubtract(c, a, 1.0 - weight);
    TimesSubtract(d, b, weight);
  }

  lemma PositionGrows(n: nat, f: real, g: real)
    requires f <= g
    ensures Position(n, f) <= Position(n, g)
  {
    hide Times;
    TimesNatural(n as real, g - f);
    TimesSubtract(g, f, n as real);
  }

  /** A larger fraction never gives a smaller percentile. */
  lemma MonotoneInFraction(ordered: seq<real>, f: real, g: real)
    requires ordered != [] && Ascending(ordered) && 0.0 <= f <= g <= 1.0
    ensures Percentile(ordered, f) <= Percentile(ordered, g)
  {
    hide Mix, Position;
    var p, q := Position(|ordered| - 1, f), Position(|ordered| - 1, g);
    PositionGrows(|ordered| - 1, f, g);
    Sandwich(ordered, f);
    Sandwich(ordered, g);
    if |ordered| > 1 && p.Floor == q.Floor && p.Floor as real != p {
      Steeper(ordered[p.Floor], ordered[p.Floor + 1], p - p.Floor as real, q - p.Floor as real);
    }
  }

  /** A sample that is nowhere smaller has no smaller percentile. */
  lemma MonotoneInSample(a: seq<real>, b: seq<real>, fraction: real)
    requires a != [] && |a| == |b| && 0.0 <= fraction <= 1.0
    requires forall i :: 0 <= i < |a| ==> a[i] <= b[i]
    ensures Percentile(a, fraction) <= Percentile(b, fraction)
  {
    hide Mix, Position;
    if |a| > 1 {
      var p := Position(|a| - 1, fraction);
      InRange(|a| - 1, fraction);
      MixGrows(a[p.Floor], a[Ceiling(p)], b[p.Floor], b[Ceiling(p)], p - p.Floor as real);
    }
  }

  // ---------- the summary ----------

  /** variance is the square of the standard deviation; mad is the median distance from the median. */
  datatype Summary = Summary(n: nat, min: real, p50: real, p90: real, p95: real, max: real, mean: real, variance: real,
                             mad: real, iqr: real)

  function Total(s: seq<real>): real {
    if s == [] then 0.0 else s[0] + Total(s[1..])
  }

  function Squares(s: seq<real>, mean: real): real {
    if s == [] then 0.0 else Times(s[0] - mean, s[0] - mean) + Squares(s[1..], mean)
  }

  /** The values that are finite numbers. */
  function Clean(values: seq<Option<real>>): seq<real> {
    if values == [] then []
    else (if values[0].Some? then [values[0].value] else []) + Clean(values[1..])
  }

  function Distance(x: real, y: real): real {
    if x < y then y - x else x - y
  }

  function Distances(s: seq<real>, center: real): seq<real> {
    seq(|s|, i requires 0 <= i < |s| => Distance(s[i], center))
  }

  /** The middle value, or the mean of the two middle ones. */
  function Median(ordered: seq<real>): real
    requires ordered != []
  {
    var half := |ordered| / 2;
    if |ordered| % 2 == 1 then ordered[half] else (ordered[half - 1] + ordered[half]) / 2.0
  }

  /** No summary without a finite value. */
  function Summarize(values: seq<Option<real>>): Option<Summary> {
    var clean := Clean(values);
    if clean == [] then None
    else
      var ordered := Sorted(clean);
      SortedAscends(clean);
      var n, p50, mean := |ordered| as real, Percentile(ordered, 0.50), Total(ordered) / |ordered| as real;
      SortedAscends(Distances(ordered, p50));
      Some(Summary(|ordered|, ordered[0], p50, Percentile(ordered, 0.90), Percentile(ordered, 0.95),
                   ordered[|ordered| - 1], mean, Squares(ordered, mean) / n, Median(Sorted(Distances(ordered, p50))),
                   Percentile(ordered, 0.75) - Percentile(ordered, 0.25)))
  }

  /** The median is the percentile for one half. */
  lemma MedianIsHalf(ordered: seq<real>)
    requires ordered != []
    ensures Median(ordered) == Percentile(ordered, 0.50)
  {
    var half := |ordered| / 2;
    var position := Position(|ordered| - 1, 0.50);
    assert position == (|ordered| - 1) as real / 2.0;
    if |ordered| % 2 == 1 {
      assert position == half as real;
    } else {
      assert position == (half - 1) as real + 0.5 && position.Floor == half - 1;
    }
  }

  lemma {:induction false} TotalWithin(s: seq<real>, low: real, high: real)
    requires forall i :: 0 <= i < |s| ==> low <= s[i] <= high
    ensures Times(|s| as real, low) <= Total(s) <= Times(|s| as real, high)
  {
    if s == [] {
      TimesUnits(low);
      TimesUnits(high);
      assert Times(0.0, low) == 0.0 == Times(0.0, high);
    } else {
      TotalWithin(s[1..], low, high);
      OneMore(|s| - 1, low);
      OneMore(|s| - 1, high);
      hide Times;
      assert |s[1..]| == |s| - 1;
    }
  }

  lemma OneMore(n: nat, x: real)
    ensures Times((n + 1) as real, x) == Times(n as real, x) + x
  {
    var m := n as real;
    assert (n + 1) as real == m + 1.0;
    assert Times(m + 1.0, x) == Times(m, x) + x;
  }

  lemma Quotient(total: real, n: real)
    requires n > 0.0
    ensures Times(n, total / n) == total
  {
  }

  lemma Cancels(a: real, b: real, n: real)
    requires n > 0.0 && Times(n, a) <= Times(n, b)
    ensures a <= b
  {
    if b < a {
      Positive(n, a - b);
      TimesSubtract(a, b, n);
    }
    hide Times;
  }

  lemma Positive(x: real, y: real)
    requires x > 0.0 && y > 0.0
    ensures Times(x, y) > 0.0
  {
  }

  lemma Divides(total: real, n: real, low: real, high: real)
    requires n > 0.0 && Times(n, low) <= total <= Times(n, high)
    ensures low <= total / n <= high
  {
    hide Times;
    Quotient(total, n);
    Cancels(low, total / n, n);
    Cancels(total / n, high, n);
  }

  lemma OneSquare(x: real, mean: real, low: real, high: real)
    requires low <= x <= high
    ensures Times(x - mean, x - mean) <= Times(high - mean, mean - low) + Times(high + low - 2.0 * mean, x - mean)
    ensures Times(x - mean, x - mean) >= 0.0
  {
    TimesNatural(high - x, x - low);
    assert Times(high - mean, mean - low) + Times(high + low - 2.0 * mean, x - mean) - Times(x - mean, x - mean)
      == Times(high - x, x - low);
    if x < mean {
      TimesNatural(mean - x, mean - x);
      assert Times(mean - x, mean - x) == Times(x - mean, x - mean);
    } else {
      TimesNatural(x - mean, x - mean);
    }
  }

  /** The squares about any centre, bounded by the ends of the range. */
  lemma {:induction false} SquaresWithin(s: seq<real>, mean: real, low: real, high: real)
    requires forall i :: 0 <= i < |s| ==> low <= s[i] <= high
    ensures 0.0 <= Squares(s, mean)
    ensures Squares(s, mean) <= Times(|s| as real, Times(high - mean, mean - low))
      + Times(high + low - 2.0 * mean, Total(s) - Times(|s| as real, mean))
  {
    var slope, bound := high + low - 2.0 * mean, Times(high - mean, mean - low);
    if s == [] {
      assert Times(0.0, bound) == 0.0 && Times(0.0, mean) == 0.0 && Times(slope, 0.0) == 0.0;
    } else {
      var rest := s[1..];
      hide Times;
      SquaresWithin(rest, mean, low, high);
      OneSquare(s[0], mean, low, high);
      OneMore(|rest|, bound);
      OneMore(|rest|, mean);
      TimesSubtract(Total(s) - Times(|s| as real, mean), Total(rest) - Times(|rest| as real, mean), slope);
      assert |s| == |rest| + 1;
    }
  }

  lemma MeanOf(s: seq<real>, low: real, high: real)
    requires s != [] && forall i :: 0 <= i < |s| ==> low <= s[i] <= high
    ensures var mean := Total(s) / |s| as real;
      low <= mean <= high && 0.0 <= Squares(s, mean) / |s| as real <= Times(high - mean, mean - low)
  {
    hide Times, Total, Squares;
    var n, mean := |s| as real, Total(s) / |s| as real;
    TotalWithin(s, low, high);
    Divides(Total(s), n, low, high);
    SquaresWithin(s, mean, low, high);
    Quotient(Total(s), n);
    TimesUnits(high + low - 2.0 * mean);
    TimesUnits(n);
    Divides(Squares(s, mean), n, 0.0, Times(high - mean, mean - low));
  }

  lemma WithinEnds(ordered: seq<real>, fraction: real)
    requires ordered != [] && Ascending(ordered) && 0.0 <= fraction <= 1.0
    ensures ordered[0] <= Percentile(ordered, fraction) <= ordered[|ordered| - 1]
  {
    hide Percentile, Position;
    Sandwich(ordered, fraction);
  }

  lemma MadOf(ordered: seq<real>)
    requires ordered != [] && Ascending(ordered)
    ensures |Sorted(Distances(ordered, Percentile(ordered, 0.50)))| == |ordered|
    ensures var p50 := Percentile(ordered, 0.50);
      var mad := Median(Sorted(Distances(ordered, p50)));
      0.0 <= mad && (mad <= p50 - ordered[0] || mad <= ordered[|ordered| - 1] - p50)
  {
    hide Percentile, Sorted, Median;
    var p50 := Percentile(ordered, 0.50);
    var far := Distances(ordered, p50);
    SortedAscends(far);
    WithinEnds(ordered, 0.50);
    var sorted := Sorted(far);
    MedianIsHalf(sorted);
    WithinEnds(sorted, 0.50);
    SameElements(far, sorted);
    assert sorted[0] in far && sorted[|sorted| - 1] in far;
  }

  /** A summary's figures are in order, whatever the sample and its order: the percentiles and the mean lie in the range,
      the squared deviation is at most the product of the mean's distances from the two ends, and the median distance at
      most the longer of the median's. */
  lemma SummaryInOrder(values: seq<Option<real>>)
    requires Summarize(values).Some?
    ensures var s := Summarize(values).value;
      s.min <= s.p50 <= s.p90 <= s.p95 <= s.max && s.min <= s.mean <= s.max && s.n == |Clean(values)|
    ensures var s := Summarize(values).value;
      0.0 <= s.iqr <= s.max - s.min && 0.0 <= s.variance <= Times(s.max - s.mean, s.mean - s.min)
      && 0.0 <= s.mad && (s.mad <= s.p50 - s.min || s.mad <= s.max - s.p50)
    ensures var s := Summarize(values).value;
      (forall x :: x in Clean(values) ==> s.min <= x <= s.max) && s.min in Clean(values) && s.max in Clean(values)
  {
    hide Percentile, Sorted, Clean, Total, Squares, Median, Distances, Times;
    var clean := Clean(values);
    SortedAscends(clean);
    var ordered := Sorted(clean);
    WithinEnds(ordered, 0.50);
    WithinEnds(ordered, 0.95);
    WithinEnds(ordered, 0.25);
    WithinEnds(ordered, 0.75);
    MonotoneInFraction(ordered, 0.25, 0.75);
    MonotoneInFraction(ordered, 0.50, 0.90);
    MonotoneInFraction(ordered, 0.90, 0.95);
    MeanOf(ordered, ordered[0], ordered[|ordered| - 1]);
    MadOf(ordered);
    SameElements(clean, ordered);
  }

  lemma SameElements(a: seq<real>, b: seq<real>)
    requires multiset(a) == multiset(b) && b != [] && Ascending(b)
    ensures (forall x :: x in a ==> b[0] <= x <= b[|b| - 1]) && b[0] in a && b[|b| - 1] in a
  {
    forall x | x in a
      ensures x in b
    {
      assert x in multiset(b);
    }
    assert b[0] in multiset(a) && b[|b| - 1] in multiset(a);
  }

  // ---------- what each figure is ----------

  /** The value that lies part / whole of the way through the ordered sample, between its two neighbours there. */
  predicate IsPoint(ordered: seq<real>, v: real, part: nat, whole: nat)
    requires ordered != [] && whole > 0
  {
    var place, rest := part * (|ordered| - 1) / whole, part * (|ordered| - 1) % whole;
    if rest == 0 then place < |ordered| && v == ordered[place]
    else place + 1 < |ordered|
         && v * whole as real == ordered[place] * (whole - rest) as real + ordered[place + 1] * rest as real
  }

  lemma PlaceOf(n: nat, part: nat, whole: nat)
    requires 0 < whole && part <= whole
    ensures var position, place, rest := Position(n, part as real / whole as real), part * n / whole, part * n % whole;
      && position == place as real + rest as real / whole as real
      && 0 <= place <= n && position.Floor == place && Ceiling(position) == (if rest == 0 then place else place + 1)
  {
    var place, rest, f := part * n / whole, part * n % whole, part as real / whole as real;
    var position := Position(n, f);
    assert part * n == place * whole + rest;
    assert position * whole as real == (part * n) as real by {
      assert position * whole as real == n as real * (f * whole as real);
      assert f * whole as real == part as real;
      assert (part * n) as real == n as real * part as real;
    }
    assert (part * n) as real == place as real * whole as real + rest as real;
    Divided(position, place as real, rest as real, whole as real);
    WholePart(position, place, rest, whole);
    InRange(n, f) by {
      FractionWithin(part, whole);
    }
  }

  lemma FractionWithin(part: nat, whole: nat)
    requires 0 < whole && part <= whole
    ensures 0.0 <= part as real / whole as real <= 1.0
  {
  }

  lemma Divided(x: real, place: real, rest: real, whole: real)
    requires whole > 0.0 && x * whole == place * whole + rest
    ensures x == place + rest / whole
  {
    assert (x - place) * whole == rest;
  }

  lemma WholePart(x: real, place: int, rest: nat, whole: nat)
    requires rest < whole && x == place as real + rest as real / whole as real
    ensures x.Floor == place && Ceiling(x) == (if rest == 0 then place else place + 1)
  {
    var part := rest as real / whole as real;
    assert 0.0 <= part < 1.0 && (part == 0.0 <==> rest == 0);
  }

  /** A percentile for part / whole is that point of the sample. */
  lemma PercentileIsPoint(ordered: seq<real>, part: nat, whole: nat)
    requires ordered != [] && 0 < whole && part <= whole
    ensures 0.0 <= part as real / whole as real <= 1.0
    ensures IsPoint(ordered, Percentile(ordered, part as real / whole as real), part, whole)
  {
    hide Position, Mix;
    FractionWithin(part, whole);
    var n, f := |ordered| - 1, part as real / whole as real;
    var place, rest := part * n / whole, part * n % whole;
    PlaceOf(n, part, whole);
    if n == 0 {
      assert part * n == 0;
    } else if rest != 0 {
      var a, b, w := ordered[place], ordered[place + 1], Position(n, f) - place as real;
      assert w == rest as real / whole as real;
      MixedPoint(a, b, rest, whole);
    }
  }

  lemma MixedPoint(a: real, b: real, rest: nat, whole: nat)
    requires rest < whole
    ensures Mix(a, b, rest as real / whole as real) * whole as real == a * (whole - rest) as real + b * rest as real
  {
    var w := rest as real / whole as real;
    assert w * whole as real == rest as real;
    assert (1.0 - w) * whole as real == (whole - rest) as real;
  }

  /** The distances of a sample from a centre. */
  predicate AreDistances(distances: seq<real>, sample: seq<real>, center: real) {
    && |distances| == |sample|
    && forall i :: 0 <= i < |sample| ==>
         distances[i] >= 0.0 && (distances[i] == sample[i] - center || distances[i] == center - sample[i])
  }

  /** The figures of a summary, each in its own terms; q1 and q3 are the quartiles that the last one lies between. */
  ghost predicate IsSummary(s: Summary, ordered: seq<real>, distances: seq<real>, q1: real, q3: real)
    requires ordered != [] && |distances| == |ordered|
  {
    && s.n == |ordered| && s.min == ordered[0] && s.max == ordered[|ordered| - 1]
    && IsPoint(ordered, s.p50, 1, 2) && IsPoint(ordered, s.p90, 9, 10) && IsPoint(ordered, s.p95, 19, 20)
    && IsPoint(ordered, q1, 1, 4) && IsPoint(ordered, q3, 3, 4) && s.iqr == q3 - q1
    && Times(|ordered| as real, s.mean) == Total(ordered)
    && Times(|ordered| as real, s.variance) == Total(Deviations(ordered, s.mean))
    && IsPoint(distances, s.mad, 1, 2)
  }

  function Deviations(s: seq<real>, mean: real): seq<real> {
    seq(|s|, i requires 0 <= i < |s| => Times(s[i] - mean, s[i] - mean))
  }

  lemma {:induction false} SquaresAreDeviations(s: seq<real>, mean: real)
    ensures Squares(s, mean) == Total(Deviations(s, mean))
  {
    hide Times;
    if s != [] {
      SquaresAreDeviations(s[1..], mean);
      assert Deviations(s, mean)[1..] == Deviations(s[1..], mean);
    }
  }

  /** A total is the sum of its parts' totals, and of one value that value. */
  lemma {:induction false} TotalJoins(a: seq<real>, b: seq<real>)
    ensures Total(a + b) == Total(a) + Total(b) && forall x: real :: Total([x]) == x
  {
    assert forall x: real :: [x][1..] == [];
    if a == [] {
      assert a + b == b;
    } else {
      TotalJoins(a[1..], b);
      assert (a + b)[1..] == a[1..] + b && (a + b)[0] == a[0];
    }
  }

  /** Cleaning keeps each finite value as often as it occurs, and nothing else. */
  lemma {:induction false} CleanKeeps(values: seq<Option<real>>, x: real)
    ensures multiset(Clean(values))[x] == multiset(values)[Some(x)]
  {
    if values != [] {
      CleanKeeps(values[1..], x);
      assert values == [values[0]] + values[1..];
      assert multiset(values) == multiset{values[0]} + multiset(values[1..]);
      var head := if values[0].Some? then [values[0].value] else [];
      assert multiset(Clean(values)) == multiset(head) + multiset(Clean(values[1..]));
    }
  }

  lemma SortedDistances(ordered: seq<real>, center: real)
    ensures AreDistances(Distances(ordered, center), ordered, center)
    ensures Ascending(Sorted(Distances(ordered, center)))
      && multiset(Sorted(Distances(ordered, center))) == multiset(Distances(ordered, center))
      && |Sorted(Distances(ordered, center))| == |ordered|
  {
    SortedAscends(Distances(ordered, center));
  }

  /** Every figure of a summary is what it is called, of the finite values in ascending order. */
  lemma SummaryMeans(values: seq<Option<real>>)
    returns (ordered: seq<real>, distances: seq<real>, sorted: seq<real>, q1: real, q3: real)
    requires Summarize(values).Some?
    ensures ordered != [] && Ascending(ordered)
    ensures forall x :: multiset(ordered)[x] == multiset(values)[Some(x)]
    ensures AreDistances(distances, ordered, Summarize(values).value.p50)
    ensures Ascending(sorted) && multiset(sorted) == multiset(distances) && |sorted| == |ordered|
    ensures IsSummary(Summarize(values).value, ordered, sorted, q1, q3)
  {
    hide Sorted, Percentile, Median, Distances, Total, Squares, IsPoint, Times, Clean, AreDistances, Deviations, Ascending;
    SortedAscends(Clean(values));
    ordered := Sorted(Clean(values));
    forall x ensures multiset(ordered)[x] == multiset(values)[Some(x)] {
      CleanKeeps(values, x);
    }
    var s := Summarize(values).value;
    FigurePoints(ordered);
    q1, q3 := Percentile(ordered, 0.25), Percentile(ordered, 0.75);
    distances := Distances(ordered, s.p50);
    SortedDistances(ordered, s.p50);
    sorted := Sorted(distances);
    MedianIsHalf(sorted);
    HalfIsPoint(sorted);
    Quotient(Total(ordered), |ordered| as real);
    Quotient(Squares(ordered, s.mean), |ordered| as real);
    SquaresAreDeviations(ordered, s.mean);
  }

  lemma HalfIsPoint(ordered: seq<real>)
    requires ordered != []
    ensures IsPoint(ordered, Percentile(ordered, 0.50), 1, 2)
  {
    hide Percentile, IsPoint;
    PercentileIsPoint(ordered, 1, 2);
    assert 1.0 / 2.0 == 0.50;
  }

  lemma FigurePoints(ordered: seq<real>)
    requires ordered != []
    ensures IsPoint(ordered, Percentile(ordered, 0.50), 1, 2) && IsPoint(ordered, Percentile(ordered, 0.90), 9, 10)
    ensures IsPoint(ordered, Percentile(ordered, 0.95), 19, 20)
    ensures IsPoint(ordered, Percentile(ordered, 0.25), 1, 4) && IsPoint(ordered, Percentile(ordered, 0.75), 3, 4)
  {
    hide Percentile, IsPoint;
    HalfIsPoint(ordered);
    PercentileIsPoint(ordered, 9, 10);
    PercentileIsPoint(ordered, 19, 20);
    PercentileIsPoint(ordered, 1, 4);
    PercentileIsPoint(ordered, 3, 4);
    assert 9.0 / 10.0 == 0.90 && 19.0 / 20.0 == 0.95 && 1.0 / 4.0 == 0.25 && 3.0 / 4.0 == 0.75;
  }

  /** There is a summary exactly when some value is finite. */
  lemma SummaryWhen(values: seq<Option<real>>)
    ensures Summarize(values).Some? <==> exists i :: 0 <= i < |values| && values[i].Some?
  {
    hide Sorted, Percentile, Median, Distances, Total, Squares, Clean;
    CleanSome(values);
  }

  lemma {:induction false} CleanSome(values: seq<Option<real>>)
    ensures Clean(values) != [] <==> exists i :: 0 <= i < |values| && values[i].Some?
  {
    if values != [] {
      CleanSome(values[1..]);
      assert forall i :: 1 <= i < |values| ==> values[i] == values[1..][i - 1];
    }
  }
}
