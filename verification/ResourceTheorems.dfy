/** What the reported figures mean for a whole run: telescoping, conservation, gaps and peaks. */
module ResourceTheorems {
  import opened SetSums
  import opened Wrappers
  import opened ResourceSpec
  import opened ResourceMarks
  import opened ResourceAggregate
  import opened ResourceProfile

  // ---------- telescoping ----------

  lemma ChainGrows(base: set<Identity>, id: Identity, s: seq<Sighting>, x: Sighting, c: Counter)
    ensures Rises(Chain(base, id, s + [x], c)) == Rises(Chain(base, id, s, c)) + Delta(base, id, s, x, Rise(c))
  {
    AppendChain(base, id, s, x, c);
    if Value(x.reading, c).Some? {
      AppendRise(Chain(base, id, s, c), Value(x.reading, c).value);
    }
  }

  /** The accumulated delta of a counter is the sum of its rises along the available values, whatever readings
      in between were missing. */
  lemma {:induction false} FlowIsRises(base: set<Identity>, id: Identity, s: seq<Sighting>, c: Counter)
    ensures Flow(base, id, s, Rise(c), All) == Rises(Chain(base, id, s, c))
  {
    if s != [] {
      hide Chain, Delta, Rises;
      assert s == Init(s) + [Last(s)];
      FlowIsRises(base, id, Init(s), c);
      ChainGrows(base, id, Init(s), Last(s), c);
    }
  }

  /** Rises add up to last minus first exactly when the values never fall. */
  lemma {:induction false} Telescope(xs: seq<int>)
    requires xs != []
    ensures Rises(xs) >= Last(xs) - xs[0]
    ensures Rises(xs) == Last(xs) - xs[0] <==> Falls(xs) == 0
  {
    if |xs| > 1 {
      Telescope(Init(xs));
    }
  }

  function FallsOver(base: set<Identity>, id: Identity, s: seq<Sighting>, n: nat): nat
    requires n <= FIELD_COUNT
  {
    if n == 0 then 0 else FallsOver(base, id, s, n - 1) + Falls(Chain(base, id, s, Io(n - 1)))
  }

  lemma {:induction false} FallsGrow(base: set<Identity>, id: Identity, s: seq<Sighting>, x: Sighting, n: nat)
    requires n <= FIELD_COUNT
    ensures FallsOver(base, id, s + [x], n) == FallsOver(base, id, s, n) + |FallingFields(base, id, s, x, n)|
  {
    hide Falling, Chain, Falls;
    if n == 0 {
      assert FallingFields(base, id, s, x, 0) == {};
    } else {
      var f: Field := n - 1;
      FallsGrow(base, id, s, x, f);
      FallsAt(base, id, s, x, f);
      var before, now := FallingFields(base, id, s, x, f), FallingFields(base, id, s, x, n);
      assert f !in before;
      assert now == if Falling(base, id, s, x, f) then before + {f} else before;
    }
  }

  lemma FallsAt(base: set<Identity>, id: Identity, s: seq<Sighting>, x: Sighting, f: Field)
    ensures Falls(Chain(base, id, s + [x], Io(f)))
      == Falls(Chain(base, id, s, Io(f))) + (if Falling(base, id, s, x, f) then 1 else 0)
  {
    AppendChain(base, id, s, x, Io(f));
    if !Missing(x, f) {
      var before, v := Chain(base, id, s, Io(f)), x.reading.io[f];
      assert Init(before + [v]) == before;
    }
  }

  /** The regressions counted for an identity are the falls along the available values of its six fields. */
  lemma {:induction false} RegressionsAreFalls(base: set<Identity>, id: Identity, s: seq<Sighting>)
    ensures Flow(base, id, s, Regressions, All) == FallsOver(base, id, s, FIELD_COUNT)
  {
    if s == [] {
      NoFalls(base, id, FIELD_COUNT);
    } else {
      hide FallsOver, FallingFields;
      assert s == Init(s) + [Last(s)];
      RegressionsAreFalls(base, id, Init(s));
      FallsGrow(base, id, Init(s), Last(s), FIELD_COUNT);
    }
  }

  lemma {:induction false} NoFalls(base: set<Identity>, id: Identity, n: nat)
    requires n <= FIELD_COUNT
    ensures FallsOver(base, id, [], n) == 0
  {
    if n > 0 {
      NoFalls(base, id, n - 1);
    }
  }

  ghost function NetFn(base: set<Identity>, log: Log, f: Field): Identity -> int {
    id => Net(base, id, Of(log, id), f)
  }

  /** Last reading minus start; the start is the first reading for a baseline process and 0 for any other. */
  function Net(base: set<Identity>, id: Identity, s: seq<Sighting>, f: Field): int {
    if s == [] || Missing(Last(s), f) then 0
    else if id in base then
      if Missing(s[0], f) then 0 else Last(s).reading.io[f] - s[0].reading.io[f]
    else Last(s).reading.io[f]
  }

  lemma {:induction false} FirstValue(s: seq<Sighting>, f: Field)
    requires s != [] && !Missing(s[0], f)
    ensures Values(s, Io(f)) != [] && Values(s, Io(f))[0] == s[0].reading.io[f]
  {
    if |s| > 1 {
      FirstValue(Init(s), f);
    }
  }

  lemma NetIsRises(base: set<Identity>, id: Identity, s: seq<Sighting>, f: Field)
    requires !Unresolved(base, id, s, f)
    ensures Flow(base, id, s, Rise(Io(f)), All) == Net(base, id, s, f)
  {
    FlowIsRises(base, id, s, Io(f));
    var chain := Chain(base, id, s, Io(f));
    if s != [] {
      Telescope(chain);
      if id in base { FirstValue(s, f); }
    }
  }

  /** When no key of the field is unresolved, the run's total is exactly the sum of last minus start. */
  lemma TotalIsNet(base: set<Identity>, log: Log, f: Field)
    requires forall id :: id in log ==> Key(id, f) !in UnresolvedKeys(base, log)
    ensures Total(base, log, Rise(Io(f)), All) == Sum(log.Keys, NetFn(base, log, f))
  {
    forall id | id in log.Keys
      ensures FlowFn(base, log, Rise(Io(f)), All)(id) == NetFn(base, log, f)(id)
    {
      assert Key(id, f) !in UnresolvedKeys(base, log);
      NetIsRises(base, id, log[id], f);
    }
    SumSame(log.Keys, FlowFn(base, log, Rise(Io(f)), All), NetFn(base, log, f));
  }

  // ---------- conservation over buckets and samples ----------

  ghost function BucketFn(base: set<Identity>, log: Log, m: Metric): string -> int {
    name => Total(base, log, m, InBucket(name))
  }

  ghost function SampleFn(base: set<Identity>, log: Log, m: Metric): nat -> int {
    (i: nat) => Total(base, log, m, AtSample(i))
  }

  ghost function OneBucketFn(base: set<Identity>, id: Identity, s: seq<Sighting>, m: Metric): string -> int {
    name => Flow(base, id, s, m, InBucket(name))
  }

  ghost function OneSampleFn(base: set<Identity>, id: Identity, s: seq<Sighting>, m: Metric): nat -> int {
    (i: nat) => Flow(base, id, s, m, AtSample(i))
  }

  /** One identity: its flow splits over the buckets it was seen in, even when it changes bucket. */
  lemma {:induction false} FlowOverBuckets(base: set<Identity>, id: Identity, s: seq<Sighting>, m: Metric, names: set<string>)
    requires forall k :: 0 <= k < |s| ==> s[k].reading.bucket in names
    ensures Sum(names, OneBucketFn(base, id, s, m)) == Flow(base, id, s, m, All)
  {
    if s == [] {
      SumSpike(names, "", OneBucketFn(base, id, s, m));
    } else {
      var x := Last(s);
      assert forall k :: 0 <= k < |Init(s)| ==> Init(s)[k] == s[k];
      FlowOverBuckets(base, id, Init(s), m, names);
      var d := Delta(base, id, Init(s), x, m);
      var spike := (name: string) => if name == x.reading.bucket then d else 0;
      SumSpike(names, x.reading.bucket, spike);
      assert s[|s| - 1] == x;
      SumPlus(names, OneBucketFn(base, id, Init(s), m), spike, OneBucketFn(base, id, s, m));
    }
  }

  lemma {:induction false} FlowOverSamples(base: set<Identity>, id: Identity, s: seq<Sighting>, m: Metric, samples: set<nat>)
    requires forall k :: 0 <= k < |s| ==> s[k].index in samples
    ensures Sum(samples, OneSampleFn(base, id, s, m)) == Flow(base, id, s, m, All)
  {
    if s == [] {
      SumSpike(samples, 0, OneSampleFn(base, id, s, m));
    } else {
      var x := Last(s);
      assert forall k :: 0 <= k < |Init(s)| ==> Init(s)[k] == s[k];
      FlowOverSamples(base, id, Init(s), m, samples);
      var d := Delta(base, id, Init(s), x, m);
      var spike := (i: nat) => if i == x.index then d else 0;
      SumSpike(samples, x.index, spike);
      assert s[|s| - 1] == x;
      SumPlus(samples, OneSampleFn(base, id, Init(s), m), spike, OneSampleFn(base, id, s, m));
    }
  }

  ghost function Row<A, B>(f: (A, B) -> int, x: A): B -> int {
    y => f(x, y)
  }

  ghost function Column<A, B>(f: (A, B) -> int, y: B): A -> int {
    x => f(x, y)
  }

  /** Exchanging two finite sums. */
  lemma {:induction false} Exchange<A, B>(xs: set<A>, ys: set<B>, f: (A, B) -> int, rows: A -> int, cols: B -> int)
    requires forall x :: x in xs ==> rows(x) == Sum(ys, Row(f, x))
    requires forall y :: y in ys ==> cols(y) == Sum(xs, Column(f, y))
    ensures Sum(xs, rows) == Sum(ys, cols)
    decreases xs
  {
    if xs == {} {
      forall y | y in ys ensures cols(y) == 0 {
        assert cols(y) == Sum(xs, Column(f, y));
      }
      SumZero(ys, cols);
    } else {
      var a :| a in xs;
      var rest := xs - {a};
      var less := (y: B) => cols(y) - f(a, y);
      forall y | y in ys ensures less(y) == Sum(rest, Column(f, y)) {
        SumSplit(xs, a, Column(f, y));
      }
      Exchange(rest, ys, f, rows, less);
      SumSplit(xs, a, rows);
      SumPlus(ys, less, Row(f, a), cols);
    }
  }

  lemma TotalOverBuckets(base: set<Identity>, log: Log, m: Metric, names: set<string>)
    requires forall id, k :: id in log && 0 <= k < |log[id]| ==> log[id][k].reading.bucket in names
    ensures Sum(names, BucketFn(base, log, m)) == Total(base, log, m, All)
  {
    hide Flow;
    var f := (name: string, id: Identity) => Flow(base, id, Of(log, id), m, InBucket(name));
    forall name | name in names
      ensures BucketFn(base, log, m)(name) == Sum(log.Keys, Row(f, name))
    {
      SumSame(log.Keys, FlowFn(base, log, m, InBucket(name)), Row(f, name));
    }
    forall id | id in log.Keys
      ensures FlowFn(base, log, m, All)(id) == Sum(names, Column(f, id))
    {
      FlowOverBuckets(base, id, log[id], m, names);
      SumSame(names, OneBucketFn(base, id, log[id], m), Column(f, id));
    }
    Exchange(names, log.Keys, f, BucketFn(base, log, m), FlowFn(base, log, m, All));
  }

  lemma TotalOverSamples(base: set<Identity>, log: Log, m: Metric, samples: set<nat>)
    requires forall id, k :: id in log && 0 <= k < |log[id]| ==> log[id][k].index in samples
    ensures Sum(samples, SampleFn(base, log, m)) == Total(base, log, m, All)
  {
    hide Flow;
    var f := (i: nat, id: Identity) => Flow(base, id, Of(log, id), m, AtSample(i));
    forall i | i in samples
      ensures SampleFn(base, log, m)(i) == Sum(log.Keys, Row(f, i))
    {
      SumSame(log.Keys, FlowFn(base, log, m, AtSample(i)), Row(f, i));
    }
    forall id | id in log.Keys
      ensures FlowFn(base, log, m, All)(id) == Sum(samples, Column(f, id))
    {
      FlowOverSamples(base, id, log[id], m, samples);
      SumSame(samples, OneSampleFn(base, id, log[id], m), Column(f, id));
    }
    Exchange(samples, log.Keys, f, SampleFn(base, log, m), FlowFn(base, log, m, All));
  }

  // ---------- missing samples ----------

  ghost predicate SeenAt(h: History, id: Identity, j: nat) {
    j < |h| && id in Ids(h[j])
  }

  /** id is seen in sample j, absent from the next one, and seen again later. */
  ghost predicate Lapses(h: History, id: Identity, j: nat) {
    SeenAt(h, id, j) && !SeenAt(h, id, j + 1) && exists l: nat :: l > j && SeenAt(h, id, l)
  }

  /** One element for each maximal absence of id lying between two sightings. */
  ghost function Absences(h: History, id: Identity): set<nat> {
    set j: nat | j < |h| && Lapses(h, id, j)
  }

  lemma {:induction false} SightingsAreSeen(h: History, id: Identity)
    ensures forall j: nat :: SeenAt(h, id, j) <==> exists k :: 0 <= k < |Sightings(h, id)| && Sightings(h, id)[k].index == j
    ensures Ordered(Sightings(h, id), |h|)
  {
    SightingsPlaced(h, id);
    if h != [] {
      var h0, s0, s := Init(h), Sightings(Init(h), id), Sightings(h, id);
      SightingsAreSeen(h0, id);
      FindMeans(Last(h), id);
      if id in Ids(Last(h)) { FindAll(Last(h), id); }
      forall j: nat
        ensures SeenAt(h, id, j) <==> exists k :: 0 <= k < |s| && s[k].index == j
      {
        if SeenAt(h, id, j) {
          if j < |h0| {
            assert SeenAt(h0, id, j);
            var k :| 0 <= k < |s0| && s0[k].index == j;
            assert s[k] == s0[k];
          } else {
            assert s[|s| - 1].index == j;
          }
        }
        if k :| 0 <= k < |s| && s[k].index == j {
          if k < |s0| {
            assert s0[k].index == j;
            assert SeenAt(h0, id, j);
          }
        }
      }
    }
  }

  /** Samples missed between the first and the last sighting. */
  lemma {:induction false} MissedSamples(base: set<Identity>, id: Identity, s: seq<Sighting>, n: nat)
    requires Ordered(s, n)
    ensures Flow(base, id, s, GapSamples, All) == if s == [] then 0 else Last(s).index - s[0].index + 1 - |s|
  {
    if s != [] {
      MissedSamples(base, id, Init(s), n);
    }
  }

  lemma AbsencesStep(h: History, cur: seq<Reading>, id: Identity)
    ensures var s := Sightings(h, id);
      Absences(h + [cur], id) == Absences(h, id)
        + (if id in Ids(cur) && s != [] && Last(s).index < |h| - 1 then {Last(s).index} else {})
    ensures Sightings(h, id) != [] ==> Last(Sightings(h, id)).index !in Absences(h, id)
  {
    var h', s := h + [cur], Sightings(h, id);
    SightingsAreSeen(h, id);
    forall j: nat ensures SeenAt(h', id, j) <==> SeenAt(h, id, j) || (j == |h| && id in Ids(cur)) {
      if j < |h| { assert h'[j] == h[j]; }
    }
    if s != [] {
      assert SeenAt(h, id, Last(s).index);
      assert forall l: nat :: SeenAt(h, id, l) ==> l <= Last(s).index;
    }
    forall j: nat
      ensures j in Absences(h', id) <==>
        j in Absences(h, id) || (id in Ids(cur) && s != [] && j == Last(s).index && j < |h| - 1)
    {
      AbsenceAt(h, cur, id, j);
    }
  }

  lemma AbsenceAt(h: History, cur: seq<Reading>, id: Identity, j: nat)
    requires forall j: nat :: SeenAt(h + [cur], id, j) <==> SeenAt(h, id, j) || (j == |h| && id in Ids(cur))
    requires var s := Sightings(h, id);
      s != [] ==> Last(s).index < |h| && SeenAt(h, id, Last(s).index) && forall l: nat :: SeenAt(h, id, l) ==> l <= Last(s).index
    requires Sightings(h, id) == [] ==> forall l: nat :: !SeenAt(h, id, l)
    ensures var s := Sightings(h, id);
      j in Absences(h + [cur], id) <==>
        j in Absences(h, id) || (id in Ids(cur) && s != [] && j == Last(s).index && j < |h| - 1)
  {
    hide SeenAt;
    var h', s := h + [cur], Sightings(h, id);
    if j in Absences(h', id) && j !in Absences(h, id) {
      assert SeenAt(h', id, j) && !SeenAt(h', id, j + 1);
      var l: nat :| l > j && SeenAt(h', id, l);
    }
    if j in Absences(h, id) {
      var l: nat :| l > j && SeenAt(h, id, l);
      assert SeenAt(h', id, l);
      assert l <= Last(s).index;
    }
    if id in Ids(cur) && s != [] && j == Last(s).index && j < |h| - 1 {
      assert SeenAt(h', id, |h|);
      assert !SeenAt(h, id, j + 1);
    }
  }

  /** The gap events of one identity count its maximal absences between sightings. */
  lemma {:induction false} GapEventsAreAbsences(base: set<Identity>, h: History, id: Identity)
    ensures Flow(base, id, Sightings(h, id), GapEvents, All) == |Absences(h, id)|
  {
    if h == [] {
      assert Absences(h, id) == {};
    } else {
      hide Absences;
      var h0, cur := Init(h), Last(h);
      var s := Sightings(h0, id);
      assert h == h0 + [cur];
      GapEventsAreAbsences(base, h0, id);
      AbsencesStep(h0, cur, id);
      FindMeans(cur, id);
      if id in Ids(cur) {
        FindAll(cur, id);
        var x := Sighting(|h0|, Find(cur, id).value);
        assert Sightings(h, id) == s + [x] && Init(s + [x]) == s && Last(s + [x]) == x;
        assert Flow(base, id, s + [x], GapEvents, All)
          == Flow(base, id, s, GapEvents, All) + Delta(base, id, s, x, GapEvents);
        if s != [] && Last(s).index < |h0| - 1 {
          assert |Absences(h0, id) + {Last(s).index}| == |Absences(h0, id)| + 1;
          assert |Absences(h, id)| == |Absences(h0, id)| + Delta(base, id, s, x, GapEvents);
        } else {
          assert Absences(h, id) == Absences(h0, id);
          assert Delta(base, id, s, x, GapEvents) == 0;
        }
      } else {
        assert Absences(h, id) == Absences(h0, id);
      }
    }
  }

  ghost function SpanFn(log: Log): Identity -> int {
    id => if Of(log, id) == [] then 0 else Last(Of(log, id)).index - Of(log, id)[0].index + 1 - |Of(log, id)|
  }

  ghost function AbsenceFn(h: History): Identity -> int {
    id => |Absences(h, id)|
  }

  /** The two gap figures of a run. */
  lemma GapFigures(p: Profile, h: History)
    requires Reports(p, h)
    ensures p.gapSamples == Sum(Seen(h), SpanFn(LogOf(h)))
    ensures p.gapEvents == Sum(Seen(h), AbsenceFn(h))
  {
    hide Flow, Absences, Sum;
    var base, log := Baseline(h), LogOf(h);
    assert log.Keys == Seen(h);
    forall id | id in log.Keys
      ensures FlowFn(base, log, GapSamples, All)(id) == SpanFn(log)(id)
      ensures FlowFn(base, log, GapEvents, All)(id) == AbsenceFn(h)(id)
    {
      SightingsPlaced(h, id);
      MissedSamples(base, id, log[id], |h|);
      GapEventsAreAbsences(base, h, id);
    }
    SumSame(log.Keys, FlowFn(base, log, GapSamples, All), SpanFn(log));
    SumSame(log.Keys, FlowFn(base, log, GapEvents, All), AbsenceFn(h));
  }

  // ---------- the figures of a profile ----------

  lemma LogFacts(h: History)
    ensures Sound(Baseline(h), LogOf(h))
    ensures forall id, k :: id in LogOf(h) && 0 <= k < |LogOf(h)[id]| ==> LogOf(h)[id][k].index < |h|
  {
    forall id | id in LogOf(h)
      ensures LogOf(h)[id] != [] && Placed(Baseline(h), id, LogOf(h)[id], |h|)
    {
      SeenMeans(h, id);
      SightingsPlaced(h, id);
    }
  }

  ghost function RisesFn(base: set<Identity>, h: History, c: Counter): Identity -> int {
    id => Rises(Chain(base, id, Sightings(h, id), c))
  }

  lemma TotalIsRises(h: History, c: Counter)
    ensures Total(Baseline(h), LogOf(h), Rise(c), All) == Sum(Seen(h), RisesFn(Baseline(h), h, c))
  {
    hide Chain, Rises, Flow, Sum;
    var base, log := Baseline(h), LogOf(h);
    assert log.Keys == Seen(h);
    forall id | id in log.Keys
      ensures FlowFn(base, log, Rise(c), All)(id) == RisesFn(base, h, c)(id)
    {
      FlowIsRises(base, id, log[id], c);
    }
    SumSame(Seen(h), FlowFn(base, log, Rise(c), All), RisesFn(base, h, c));
  }

  /** Reported totals are sums of rises along each identity's available values. */
  lemma TotalsAreRises(p: Profile, h: History, f: Field)
    requires Reports(p, h)
    ensures p.io[f] == Sum(Seen(h), RisesFn(Baseline(h), h, Io(f)))
    ensures p.cpuTicks == Sum(Seen(h), RisesFn(Baseline(h), h, User)) + Sum(Seen(h), RisesFn(Baseline(h), h, System))
  {
    hide Total;
    TotalIsRises(h, Io(f));
    TotalIsRises(h, User);
    TotalIsRises(h, System);
  }

  ghost predicate ReportsBuckets(p: Profile, h: History) {
    forall name {:trigger BucketOf(p.buckets, name)} :: ReportsBucket(BucketOf(p.buckets, name), name, h)
  }

  lemma BucketsCover(p: Profile, h: History)
    requires ReportsBuckets(p, h)
    ensures forall id, k :: id in LogOf(h) && 0 <= k < |LogOf(h)[id]| ==> LogOf(h)[id][k].reading.bucket in p.buckets
  {
    forall id, k | id in LogOf(h) && 0 <= k < |LogOf(h)[id]|
      ensures LogOf(h)[id][k].reading.bucket in p.buckets
    {
      var name := LogOf(h)[id][k].reading.bucket;
      assert ReportsBucket(BucketOf(p.buckets, name), name, h);
      assert id in Members(LogOf(h), name);
    }
  }

  ghost function BucketIoFn(p: Profile, f: Field): string -> int {
    name => if HasAll(BucketOf(p.buckets, name).io) then BucketOf(p.buckets, name).io[f] else 0
  }

  ghost function BucketCpuFn(p: Profile): string -> int {
    name => BucketOf(p.buckets, name).cpu
  }

  /** Summed over the buckets, CPU ticks and every I/O counter give the run's totals. */
  lemma BucketsConserve(p: Profile, h: History, f: Field)
    requires Reports(p, h) && ReportsBuckets(p, h)
    ensures Sum(p.buckets.Keys, BucketIoFn(p, f)) == p.io[f]
    ensures Sum(p.buckets.Keys, BucketCpuFn(p)) == p.cpuTicks
  {
    hide Total, Sum;
    var base, log, names := Baseline(h), LogOf(h), p.buckets.Keys;
    BucketsCover(p, h);
    TotalOverBuckets(base, log, Rise(Io(f)), names);
    TotalOverBuckets(base, log, Rise(User), names);
    TotalOverBuckets(base, log, Rise(System), names);
    forall name | name in names
      ensures BucketIoFn(p, f)(name) == BucketFn(base, log, Rise(Io(f)))(name)
      ensures BucketCpuFn(p)(name) == BucketFn(base, log, Rise(User))(name) + BucketFn(base, log, Rise(System))(name)
    {
      assert ReportsBucket(BucketOf(p.buckets, name), name, h);
    }
    SumSame(names, BucketIoFn(p, f), BucketFn(base, log, Rise(Io(f))));
    SumPlus(names, BucketFn(base, log, Rise(User)), BucketFn(base, log, Rise(System)), BucketCpuFn(p));
  }

  datatype Figure = CpuTicks | BytesRead | BytesWritten {
    function Of(p: Point): int {
      match this
      case CpuTicks => p.cpu
      case BytesRead => p.readBytes
      case BytesWritten => p.writeBytes
    }
  }

  ghost function PointFn(series: seq<Point>, figure: Figure): nat -> int {
    (i: nat) => if i < |series| then figure.Of(series[i]) else 0
  }

  function Samples(n: nat): (all: set<nat>)
    ensures forall i: nat :: i in all <==> i < n
  {
    if n == 0 then {} else Samples(n - 1) + {n - 1}
  }

  /** Summed over the time series, CPU ticks and bytes read and written give the run's totals. */
  lemma SeriesConserves(p: Profile, h: History)
    requires Reports(p, h) && ReportsSeries(p, h)
    ensures Sum(Samples(|h|), PointFn(p.series, CpuTicks)) == p.cpuTicks
    ensures Sum(Samples(|h|), PointFn(p.series, BytesRead)) == p.io[READ_BYTES]
    ensures Sum(Samples(|h|), PointFn(p.series, BytesWritten)) == p.io[WRITE_BYTES]
  {
    hide Total, Sum;
    var base, log, all := Baseline(h), LogOf(h), Samples(|h|);
    LogFacts(h);
    TotalOverSamples(base, log, Rise(Io(READ_BYTES)), all);
    TotalOverSamples(base, log, Rise(Io(WRITE_BYTES)), all);
    TotalOverSamples(base, log, Rise(User), all);
    TotalOverSamples(base, log, Rise(System), all);
    SumSame(all, PointFn(p.series, BytesRead), SampleFn(base, log, Rise(Io(READ_BYTES))));
    SumSame(all, PointFn(p.series, BytesWritten), SampleFn(base, log, Rise(Io(WRITE_BYTES))));
    SumPlus(all, SampleFn(base, log, Rise(User)), SampleFn(base, log, Rise(System)), PointFn(p.series, CpuTicks));
  }

  /** The four reported causes add up to the reported number of unresolved keys. */
  lemma CausesAddUp(p: Profile, h: History)
    requires Reports(p, h)
    ensures p.unresolved == p.baselineGaps + p.regressionGaps + p.neverValidGaps + p.terminalGaps
  {
    hide Total;
    LogFacts(h);
    CausesPartition(Baseline(h), LogOf(h));
  }

  /** With nothing unresolved, every I/O total is the sum of last reading minus start. */
  lemma NothingUnresolved(p: Profile, h: History, f: Field)
    requires Reports(p, h) && p.unresolved == 0
    ensures p.io[f] == Sum(Seen(h), NetFn(Baseline(h), LogOf(h), f))
  {
    hide Total;
    assert LogOf(h).Keys == Seen(h);
    TotalIsNet(Baseline(h), LogOf(h), f);
  }

  // ---------- peaks ----------

  ghost function LoadFn(d: seq<Reading>, heads: bool): string -> int {
    name => Load(d, Some(name), heads)
  }

  ghost function PeakFn(h: History, heads: bool): string -> int {
    name => Peak(h, Some(name), heads)
  }

  lemma {:induction false} LoadOverBuckets(d: seq<Reading>, heads: bool, names: set<string>)
    requires Names(d) <= names
    ensures Sum(names, LoadFn(d, heads)) == Load(d, None, heads)
    ensures forall name :: Load(d, Some(name), heads) <= Load(d, None, heads)
  {
    if d == [] {
      SumZero(names, LoadFn(d, heads));
    } else {
      var r := Last(d);
      assert d == Init(d) + [r];
      assert r.bucket in Names(d);
      LoadOverBuckets(Init(d), heads, names);
      var w := if heads then 1 else r.rss;
      var spike := (name: string) => if name == r.bucket then w else 0;
      SumSpike(names, r.bucket, spike);
      SumPlus(names, LoadFn(Init(d), heads), spike, LoadFn(d, heads));
    }
  }

  /** The run's peak lies between each bucket's peak and the sum of all bucket peaks. */
  lemma {:induction false} PeaksBound(h: History, heads: bool, names: set<string>)
    requires forall j :: 0 <= j < |h| ==> Names(h[j]) <= names
    ensures Peak(h, None, heads) <= Sum(names, PeakFn(h, heads))
    ensures forall name :: Peak(h, Some(name), heads) <= Peak(h, None, heads)
  {
    if h == [] {
      SumZero(names, PeakFn(h, heads));
    } else {
      hide Sum, Load;
      assert forall j :: 0 <= j < |Init(h)| ==> Init(h)[j] == h[j];
      assert Last(h) == h[|h| - 1];
      PeaksBound(Init(h), heads, names);
      LoadOverBuckets(Last(h), heads, names);
      SumMonotone(names, PeakFn(Init(h), heads), PeakFn(h, heads));
      SumMonotone(names, LoadFn(Last(h), heads), PeakFn(h, heads));
    }
  }

  ghost function BucketPeakFn(p: Profile, heads: bool): string -> int {
    name => if heads then BucketOf(p.buckets, name).peakCount else BucketOf(p.buckets, name).peakRss
  }

  lemma {:induction false} HeadsSeen(d: seq<Reading>, name: string)
    requires name in Names(d)
    ensures Load(d, Some(name), true) > 0
  {
    assert d == Init(d) + [Last(d)];
    if Last(d).bucket != name { HeadsSeen(Init(d), name); }
  }

  lemma {:induction false} PeakAtLeast(h: History, j: nat, name: string)
    requires j < |h|
    ensures Peak(h, Some(name), true) >= Load(h[j], Some(name), true)
  {
    if j < |h| - 1 { PeakAtLeast(Init(h), j, name); }
  }

  /** The reported peak RSS and peak process count lie between every bucket's peak and the sum of the bucket peaks. */
  lemma PeaksOfProfile(p: Profile, h: History)
    requires ReportsLoads(p, h) && ReportsBuckets(p, h)
    ensures p.peakRss <= Sum(p.buckets.Keys, BucketPeakFn(p, false))
    ensures p.peakCount <= Sum(p.buckets.Keys, BucketPeakFn(p, true))
    ensures forall name :: name in p.buckets ==>
      p.buckets[name].peakRss <= p.peakRss && p.buckets[name].peakCount <= p.peakCount
  {
    hide Sum;
    forall name ensures ReportsBucket(BucketOf(p.buckets, name), name, h) {
    }
    forall j, name | 0 <= j < |h| && name in Names(h[j]) ensures name in p.buckets.Keys {
      HeadsSeen(h[j], name);
      PeakAtLeast(h, j, name);
      assert ReportsBucket(BucketOf(p.buckets, name), name, h);
    }
    PeaksBound(h, false, p.buckets.Keys);
    PeaksBound(h, true, p.buckets.Keys);
    forall name | name in p.buckets
      ensures BucketPeakFn(p, false)(name) == PeakFn(h, false)(name)
      ensures BucketPeakFn(p, true)(name) == PeakFn(h, true)(name)
    {
      assert ReportsBucket(BucketOf(p.buckets, name), name, h);
    }
    SumSame(p.buckets.Keys, BucketPeakFn(p, false), PeakFn(h, false));
    SumSame(p.buckets.Keys, BucketPeakFn(p, true), PeakFn(h, true));
  }

  // ---------- what a counted recovery is worth ----------

  /** A counted recovery resolves its key exactly when the key has no lasting cause: its baseline reading was there and
      no available value had fallen before. */
  lemma RecoveryResolvesWhen(base: set<Identity>, id: Identity, s: seq<Sighting>, x: Sighting, f: Field)
    requires Placed(base, id, s, x.index) && Recovering(base, id, s, x, f)
    ensures Unresolved(base, id, s + [x], f) <==> BaselineGap(base, id, s, f) || Fell(base, id, s, f)
  {
    AppendFell(base, id, s, x, f);
    AppendBaselineGap(base, id, s, x, f);
  }

  /** Neither cause goes away, whatever is seen later. */
  lemma {:induction false} CausesLast(base: set<Identity>, id: Identity, s: seq<Sighting>, t: seq<Sighting>, f: Field)
    ensures BaselineGap(base, id, s, f) ==> BaselineGap(base, id, s + t, f)
    ensures Fell(base, id, s, f) ==> Fell(base, id, s + t, f)
    decreases |t|
  {
    if t == [] {
      assert s + t == s;
    } else {
      CausesLast(base, id, s, Init(t), f);
      assert s + t == (s + Init(t)) + [Last(t)];
      AppendFell(base, id, s + Init(t), Last(t), f);
    }
  }

  /** The first cause at work: a baseline process whose first two readings fail and whose next two succeed is counted as
      recovered and stays unresolved; the first available value does not close the gap, the second does. */
  lemma RecoveredYetUnresolved(base: set<Identity>, id: Identity, s: seq<Sighting>, f: Field)
    requires id in base && |s| == 4
    requires forall k :: 0 <= k < 4 ==> s[k].index == k
    requires Missing(s[0], f) && Missing(s[1], f) && !Missing(s[2], f) && !Missing(s[3], f)
    requires s[2].reading.io[f] <= s[3].reading.io[f]
    ensures OpenGap(base, id, s[..3], f)
    ensures Recovering(base, id, s[..3], s[3], f) && !OpenGap(base, id, s, f)
    ensures Unresolved(base, id, s, f)
  {
    FourReadings(s, f);
    assert s[..3][1] == s[1];
  }

  /** The second cause at work: a later process whose value falls, fails to be read and is read again. */
  lemma RecoveredAfterFall(base: set<Identity>, id: Identity, s: seq<Sighting>, f: Field)
    requires id !in base && |s| == 4
    requires forall k :: 0 <= k < 4 ==> s[k].index == k + 1
    requires !Missing(s[0], f) && !Missing(s[1], f) && Missing(s[2], f) && !Missing(s[3], f)
    requires s[1].reading.io[f] < s[0].reading.io[f] && s[1].reading.io[f] <= s[3].reading.io[f]
    ensures Recovering(base, id, s[..3], s[3], f) && !OpenGap(base, id, s, f)
    ensures Unresolved(base, id, s, f)
  {
    FourReadings(s, f);
    AppendFell(base, id, s[..1], s[1], f);
    AppendFell(base, id, s[..2], s[2], f);
    AppendFell(base, id, s[..3], s[3], f);
  }

  lemma FourReadings(s: seq<Sighting>, f: Field)
    requires |s| == 4
    ensures s[..2] == s[..1] + [s[1]] && s[..3] == s[..2] + [s[2]] && s == s[..3] + [s[3]]
    ensures Values(s[..1], Io(f)) == if Missing(s[0], f) then [] else [s[0].reading.io[f]]
    ensures forall k :: 1 <= k < 4 ==>
      Values(s[..k + 1], Io(f)) == Values(s[..k], Io(f)) + (if Missing(s[k], f) then [] else [s[k].reading.io[f]])
    ensures s[..4] == s
  {
    var none: seq<Sighting> := [];
    assert s[..1] == none + [s[0]];
    AppendValue(none, s[0], Io(f));
    forall k | 1 <= k < 4
      ensures Values(s[..k + 1], Io(f)) == Values(s[..k], Io(f)) + (if Missing(s[k], f) then [] else [s[k].reading.io[f]])
    {
      assert s[..k + 1] == s[..k] + [s[k]];
      AppendValue(s[..k], s[k], Io(f));
    }
  }
}
