/**
 * The aggregation loop over process snapshots: one snapshot, one reading and one I/O field at a time.
 * Its local variables are grouped into a few records; each invariant says what one group stands for.
 */
module ResourceAggregate {
  import opened Wrappers
  import opened ResourceSpec
  import opened ResourceMarks

  /** What a snapshot holds, and what it says about its own taking. */
  datatype Snapshot = Snapshot(monotonicNs: int, readings: seq<Reading>, ioUnavailable: nat, procfsAvailable: bool,
                               permissionErrors: nat, parseErrors: nat)

  datatype Bucket = Bucket(cpu: int, peakRss: nat, peakCount: nat, io: map<Field, int>, identities: set<Identity>)

  datatype Point = Point(offsetNs: int, processes: nat, rss: nat, cpu: int, readBytes: int, writeBytes: int,
                         ioUnavailable: nat)

  datatype LastSeen = LastSeen(reading: map<Identity, Reading>, index: map<Identity, nat>)

  datatype Counts = Counts(gapEvents: int, gapSamples: int, regressed: int, recovered: int)

  datatype Sums = Sums(cpu: int, io: map<Field, int>)

  datatype Loads = Loads(baselineRss: nat, peakRss: nat, endRss: nat, baselineCount: nat, peakCount: nat, endCount: nat)

  datatype State = State(base: set<Identity>, all: set<Identity>, seen: LastSeen, gaps: Gaps, counts: Counts, totals: Sums,
                         buckets: map<string, Bucket>, series: seq<Point>, loads: Loads)

  const ZERO_IO: map<Field, int> := map f: Field | 0 <= f < FIELD_COUNT :: 0

  const EMPTY_BUCKET := Bucket(0, 0, 0, ZERO_IO, {})

  const INITIAL := State({}, {}, LastSeen(map[], map[]), Gaps(map[], {}, {}, {}, {}), Counts(0, 0, 0, 0), Sums(0, ZERO_IO),
                         map[], [], Loads(0, 0, 0, 0, 0, 0))

  function CounterDelta(current: int, previous: Option<int>): int {
    if previous.None? || current < previous.value then 0 else current - previous.value
  }

  // ---------- what each group of variables stands for ----------

  ghost predicate TrackedAt(base: set<Identity>, seen: LastSeen, id: Identity, s: seq<Sighting>, n: nat) {
    && Placed(base, id, s, n)
    && (id in seen.reading <==> s != []) && (id in seen.index <==> s != [])
    && (s != [] ==> seen.reading[id] == Last(s).reading && seen.index[id] == Last(s).index)
  }

  ghost predicate Tracked(base: set<Identity>, seen: LastSeen, log: Log, n: nat) {
    forall id {:trigger Of(log, id)} :: TrackedAt(base, seen, id, Of(log, id), n) && (id in log ==> log[id] != [])
  }

  ghost predicate Marked(g: Gaps, base: set<Identity>, log: Log) {
    && g.Valid()
    && forall k: Key {:trigger g.At(k)} :: g.At(k) == MarksOf(base, k.id, Of(log, k.id), k.field)
  }

  ghost predicate Counted(base: set<Identity>, c: Counts, log: Log) {
    && c.gapEvents == Total(base, log, GapEvents, All)
    && c.gapSamples == Total(base, log, GapSamples, All)
    && c.regressed == Total(base, log, Regressions, All)
    && c.recovered == Total(base, log, Recoveries, All)
  }

  ghost predicate SumsTo(base: set<Identity>, sums: Sums, log: Log, sel: Selector) {
    && HasAll(sums.io)
    && sums.cpu == Cpu(base, log, sel)
    && forall f: Field {:trigger sums.io[f]} :: sums.io[f] == Total(base, log, Rise(Io(f)), sel)
  }

  /** The run's sums so far are the totals of the finished samples plus the sample under way. */
  ghost predicate SplitsTo(base: set<Identity>, totals: Sums, run: Sums, log: Log) {
    && HasAll(totals.io) && HasAll(run.io)
    && totals.cpu + run.cpu == Cpu(base, log, All)
    && forall f: Field {:trigger run.io[f]} :: totals.io[f] + run.io[f] == Total(base, log, Rise(Io(f)), All)
  }

  ghost predicate NoneFrom(base: set<Identity>, log: Log, n: nat) {
    forall m, j: nat {:trigger Total(base, log, m, AtSample(j))} :: j >= n ==> Total(base, log, m, AtSample(j)) == 0
  }

  ghost predicate Series(base: set<Identity>, series: seq<Point>, log: Log) {
    forall j: nat {:trigger series[j]} :: j < |series| ==>
      && series[j].cpu == Cpu(base, log, AtSample(j))
      && series[j].readBytes == Total(base, log, Rise(Io(READ_BYTES)), AtSample(j))
      && series[j].writeBytes == Total(base, log, Rise(Io(WRITE_BYTES)), AtSample(j))
  }

  ghost predicate BucketHolds(base: set<Identity>, log: Log, name: string, b: Bucket) {
    SumsTo(base, Sums(b.cpu, b.io), log, InBucket(name)) && b.identities == Members(log, name)
  }

  function BucketOf(buckets: map<string, Bucket>, name: string): Bucket {
    if name in buckets then buckets[name] else EMPTY_BUCKET
  }

  ghost predicate Bucketed(buckets: map<string, Bucket>, base: set<Identity>, log: Log) {
    forall name {:trigger BucketOf(buckets, name)} :: BucketHolds(base, log, name, BucketOf(buckets, name))
  }

  /** Sample i with some of its readings absorbed. */
  ghost predicate Absorbing(st: State, run: Sums, log: Log, i: nat) {
    match st
    case State(base, _, seen, gaps, counts, totals, buckets, series, _) =>
      var all :=
        && Tracked(base, seen, log, i + 1) && Marked(gaps, base, log) && Counted(base, counts, log)
        && SplitsTo(base, totals, run, log) && SumsTo(base, run, log, AtSample(i))
        && NoneFrom(base, log, i + 1)
        && Series(base, series, log) && |series| == i
        && Bucketed(buckets, base, log);
      all
  }

  /** Between samples, n of them done. */
  ghost predicate Settled(st: State, log: Log, n: nat) {
    match st
    case State(base, _, seen, gaps, counts, totals, buckets, series, _) =>
      var all :=
        && Tracked(base, seen, log, n) && Marked(gaps, base, log) && Counted(base, counts, log)
        && SumsTo(base, totals, log, All) && NoneFrom(base, log, n)
        && Series(base, series, log) && |series| == n
        && Bucketed(buckets, base, log);
      all
  }

  // ---------- one reading ----------

  /** What one sighting adds to a pair of sums. */
  ghost predicate Moves(base: set<Identity>, a: Sums, b: Sums, s: seq<Sighting>, x: Sighting) {
    var id := x.reading.Id();
    && HasAll(a.io) && HasAll(b.io)
    && b.cpu == a.cpu + Delta(base, id, s, x, Rise(User)) + Delta(base, id, s, x, Rise(System))
    && forall f: Field {:trigger b.io[f]} :: b.io[f] == a.io[f] + Delta(base, id, s, x, Rise(Io(f)))
  }

  ghost predicate CountsMove(base: set<Identity>, c: Counts, d: Counts, s: seq<Sighting>, x: Sighting) {
    var id := x.reading.Id();
    && d.gapEvents == c.gapEvents + Delta(base, id, s, x, GapEvents)
    && d.gapSamples == c.gapSamples + Delta(base, id, s, x, GapSamples)
    && d.regressed == c.regressed + Delta(base, id, s, x, Regressions)
    && d.recovered == c.recovered + Delta(base, id, s, x, Recoveries)
  }

  lemma RecordCounted(base: set<Identity>, c: Counts, d: Counts, log: Log, x: Sighting)
    requires Counted(base, c, log) && CountsMove(base, c, d, Of(log, x.reading.Id()), x)
    ensures Counted(base, d, Record(log, x.reading.Id(), x))
  {
    RecordTotals(base, log, x.reading.Id(), x);
  }

  lemma RecordSums(base: set<Identity>, a: Sums, b: Sums, log: Log, x: Sighting, sel: Selector)
    requires SumsTo(base, a, log, sel)
    requires if Accepts(sel, x) then Moves(base, a, b, Of(log, x.reading.Id()), x) else a == b
    ensures SumsTo(base, b, Record(log, x.reading.Id(), x), sel)
  {
    RecordTotals(base, log, x.reading.Id(), x);
  }

  lemma RecordSplit(base: set<Identity>, totals: Sums, a: Sums, b: Sums, log: Log, x: Sighting)
    requires SplitsTo(base, totals, a, log) && Moves(base, a, b, Of(log, x.reading.Id()), x)
    ensures SplitsTo(base, totals, b, Record(log, x.reading.Id(), x))
  {
    RecordTotals(base, log, x.reading.Id(), x);
  }

  lemma RecordOtherSamples(base: set<Identity>, series: seq<Point>, log: Log, x: Sighting)
    requires NoneFrom(base, log, x.index + 1) && Series(base, series, log) && |series| == x.index
    ensures NoneFrom(base, Record(log, x.reading.Id(), x), x.index + 1)
    ensures Series(base, series, Record(log, x.reading.Id(), x))
  {
    RecordTotals(base, log, x.reading.Id(), x);
  }

  lemma RecordMembers(log: Log, x: Sighting, name: string)
    ensures Members(Record(log, x.reading.Id(), x), name)
      == Members(log, name) + (if x.reading.bucket == name then {x.reading.Id()} else {})
  {
    var id := x.reading.Id();
    var log' := Record(log, id, x);
    assert log'[id] == Of(log, id) + [x];
    forall other
      ensures other in Members(log', name) <==>
        other in Members(log, name) || (x.reading.bucket == name && other == id)
    {
      if other == id {
        if id in log && id in Members(log, name) {
          var k :| 0 <= k < |log[id]| && log[id][k].reading.bucket == name;
          assert log'[id][k] == log[id][k];
        }
        if x.reading.bucket == name {
          assert log'[id][|Of(log, id)|] == x;
        }
        if id in Members(log', name) {
          var k :| 0 <= k < |log'[id]| && log'[id][k].reading.bucket == name;
          if k < |Of(log, id)| { assert log[id][k] == log'[id][k]; }
        }
      } else if other in log {
        assert log'[other] == log[other];
      }
    }
  }

  lemma RecordBuckets(buckets: map<string, Bucket>, base: set<Identity>, log: Log, x: Sighting, b: Bucket)
    requires Bucketed(buckets, base, log)
    requires var b0 := BucketOf(buckets, x.reading.bucket);
      && Moves(base, Sums(b0.cpu, b0.io), Sums(b.cpu, b.io), Of(log, x.reading.Id()), x)
      && b.identities == b0.identities + {x.reading.Id()}
    ensures Bucketed(buckets[x.reading.bucket := b], base, Record(log, x.reading.Id(), x))
  {
    var buckets' := buckets[x.reading.bucket := b];
    forall name {:trigger BucketOf(buckets', name)}
      ensures BucketHolds(base, Record(log, x.reading.Id(), x), name, BucketOf(buckets', name))
    {
      var b0, b1 := BucketOf(buckets, name), BucketOf(buckets', name);
      assert BucketHolds(base, log, name, b0);
      RecordMembers(log, x, name);
      RecordSums(base, Sums(b0.cpu, b0.io), Sums(b1.cpu, b1.io), log, x, InBucket(name));
    }
  }

  lemma PlacedMore(base: set<Identity>, id: Identity, s: seq<Sighting>, x: Sighting)
    requires Placed(base, id, s, x.index) && (s == [] ==> (id in base <==> x.index == 0))
    ensures Placed(base, id, s + [x], x.index + 1)
  {
    var t := s + [x];
    assert t[0] == if s == [] then x else s[0];
  }

  lemma RecordTracked(base: set<Identity>, seen: LastSeen, log: Log, x: Sighting)
    requires Tracked(base, seen, log, x.index + 1)
    requires Arriving(base, log, x)
    ensures Tracked(base, LastSeen(seen.reading[x.reading.Id() := x.reading], seen.index[x.reading.Id() := x.index]),
                    Record(log, x.reading.Id(), x), x.index + 1)
  {
    var log' := Record(log, x.reading.Id(), x);
    var seen' := LastSeen(seen.reading[x.reading.Id() := x.reading], seen.index[x.reading.Id() := x.index]);
    forall id {:trigger Of(log', id)}
      ensures TrackedAt(base, seen', id, Of(log', id), x.index + 1) && (id in log' ==> log'[id] != [])
    {
      assert TrackedAt(base, seen, id, Of(log, id), x.index + 1);
      if id == x.reading.Id() {
        PlacedMore(base, id, Of(log, id), x);
        assert Of(log', id) == Of(log, id) + [x];
      } else {
        assert Of(log', id) == Of(log, id);
      }
    }
  }

  /** x is a first sighting in this sample, and new identities appear in the baseline exactly at sample 0. */
  ghost predicate Arriving(base: set<Identity>, log: Log, x: Sighting) {
    var id := x.reading.Id();
    Placed(base, id, Of(log, id), x.index) && (Of(log, id) == [] ==> (id in base <==> x.index == 0))
  }

  lemma CpuDeltaMeans(base: set<Identity>, id: Identity, s: seq<Sighting>, x: Sighting, c: Counter)
    requires c.User? || c.System?
    requires s == [] ==> (id in base <==> x.index == 0)
    ensures var prior := if s != [] then Value(Last(s).reading, c) else if id in base then None else Some(0);
      CounterDelta(Value(x.reading, c).value, prior) == Delta(base, id, s, x, Rise(c))
  {
    if s != [] {
      assert Values(s, c) == Values(Init(s), c) + [Value(Last(s).reading, c).value];
    }
  }

  lemma GainMeans(g: Gaps, base: set<Identity>, log: Log, x: Sighting, f: Field)
    requires Marked(g, base, log)
    ensures var id := x.reading.Id();
      var m, inBase, v, s := g.At(Key(id, f)), id in base, Value(x.reading, Io(f)), Of(log, id);
      && Gain(m, inBase, v) == Delta(base, id, s, x, Rise(Io(f)))
      && Drops(m, inBase, v) == Falling(base, id, s, x, f)
      && Recovers(m, inBase, v) == Recovering(base, id, s, x, f)
  {
    PriorIsChainEnd(base, x.reading.Id(), Of(log, x.reading.Id()), f);
  }

  lemma {:induction false} DropsMean(g: Gaps, base: set<Identity>, log: Log, x: Sighting, n: nat)
    requires Marked(g, base, log) && n <= FIELD_COUNT
    ensures var id := x.reading.Id();
      TallyDrops(g, x.reading, id in base, n) == |FallingFields(base, id, Of(log, id), x, n)|
  {
    hide Falling, Marked, Drops, Of;
    var id := x.reading.Id();
    if n > 0 {
      var f: Field := n - 1;
      DropsMean(g, base, log, x, n - 1);
      GainMeans(g, base, log, x, f);
      var before := FallingFields(base, id, Of(log, id), x, n - 1);
      assert f !in before;
      assert FallingFields(base, id, Of(log, id), x, n)
        == if Falling(base, id, Of(log, id), x, f) then before + {f} else before;
    }
  }

  lemma {:induction false} RecoveriesMean(g: Gaps, base: set<Identity>, log: Log, x: Sighting, n: nat)
    requires Marked(g, base, log) && n <= FIELD_COUNT
    ensures var id := x.reading.Id();
      TallyRecoveries(g, x.reading, id in base, n) == |RecoveringFields(base, id, Of(log, id), x, n)|
  {
    hide Recovering, Marked, Recovers, Of;
    var id := x.reading.Id();
    if n > 0 {
      var f: Field := n - 1;
      RecoveriesMean(g, base, log, x, n - 1);
      GainMeans(g, base, log, x, f);
      var before := RecoveringFields(base, id, Of(log, id), x, n - 1);
      assert f !in before;
      assert RecoveringFields(base, id, Of(log, id), x, n)
        == if Recovering(base, id, Of(log, id), x, f) then before + {f} else before;
    }
  }

  lemma RemarkedStaysMarked(g: Gaps, g': Gaps, base: set<Identity>, log: Log, x: Sighting)
    requires Marked(g, base, log) && g'.Valid()
    requires Remarked(g, g', x.reading, x.reading.Id() in base, x.index, FIELD_COUNT)
    requires Arriving(base, log, x)
    ensures Marked(g', base, Record(log, x.reading.Id(), x))
  {
    var id := x.reading.Id();
    forall k: Key
      ensures g'.At(k) == MarksOf(base, k.id, Of(Record(log, id, x), k.id), k.field)
    {
      if k.id == id {
        AppendMarks(base, id, Of(log, id), x, k.field);
        assert Of(Record(log, id, x), id) == Of(log, id) + [x];
      } else {
        assert Of(Record(log, id, x), k.id) == Of(log, k.id);
      }
    }
  }

  /** The gap and CPU part of one reading. */
  method AbsorbCpu(st: State, i: nat, reading: Reading, ghost s: seq<Sighting>)
    returns (cpuDelta: int, gapEvent: int, gapSpan: int)
    requires TrackedAt(st.base, st.seen, reading.Id(), s, i) && (s == [] ==> (reading.Id() in st.base <==> i == 0))
    ensures var x := Sighting(i, reading);
      && cpuDelta == Delta(st.base, reading.Id(), s, x, Rise(User)) + Delta(st.base, reading.Id(), s, x, Rise(System))
      && gapEvent == Delta(st.base, reading.Id(), s, x, GapEvents)
      && gapSpan == Delta(st.base, reading.Id(), s, x, GapSamples)
  {
    var id := reading.Id();
    var prior := if id in st.seen.reading then Some(st.seen.reading[id]) else None;
    gapEvent, gapSpan := 0, 0;
    if id in st.seen.index && st.seen.index[id] < i - 1 {
      gapEvent, gapSpan := 1, i - st.seen.index[id] - 1;
    }
    var isNew := i > 0 && id !in st.base && prior.None?;
    var userDelta := CounterDelta(reading.userTicks,
      if prior.Some? then Some(prior.value.userTicks) else if isNew then Some(0) else None);
    var systemDelta := CounterDelta(reading.systemTicks,
      if prior.Some? then Some(prior.value.systemTicks) else if isNew then Some(0) else None);
    cpuDelta := userDelta + systemDelta;
    CpuDeltaMeans(st.base, id, s, Sighting(i, reading), User);
    CpuDeltaMeans(st.base, id, s, Sighting(i, reading), System);
  }

  ghost predicate IoMoves(base: set<Identity>, io: map<Field, int>, io': map<Field, int>, s: seq<Sighting>, x: Sighting) {
    && HasAll(io) && HasAll(io')
    && forall f: Field {:trigger io'[f]} :: io'[f] == io[f] + Delta(base, x.reading.Id(), s, x, Rise(Io(f)))
  }

  lemma GainsMean(g: Gaps, base: set<Identity>, log: Log, x: Sighting, io: map<Field, int>, io': map<Field, int>)
    requires Marked(g, base, log) && HasAll(io) && HasAll(io')
    requires Gained(g, io, io', x.reading, x.reading.Id() in base, FIELD_COUNT)
    ensures IoMoves(base, io, io', Of(log, x.reading.Id()), x)
  {
    forall f: Field {:trigger io'[f]}
      ensures io'[f] == io[f] + Delta(base, x.reading.Id(), Of(log, x.reading.Id()), x, Rise(Io(f)))
    {
      GainMeans(g, base, log, x, f);
    }
  }

  /** The I/O part of one reading, in terms of the sightings. */
  method AbsorbFields(st: State, i: nat, reading: Reading, bucketIo: map<Field, int>, sampleIo: map<Field, int>,
                      ghost log: Log)
    returns (g: Gaps, bucketIo': map<Field, int>, sampleIo': map<Field, int>, drops: int, back: int)
    requires Marked(st.gaps, st.base, log) && HasAll(bucketIo) && HasAll(sampleIo)
    requires Arriving(st.base, log, Sighting(i, reading))
    ensures Marked(g, st.base, Record(log, reading.Id(), Sighting(i, reading)))
    ensures var id, s, x := reading.Id(), Of(log, reading.Id()), Sighting(i, reading);
      && drops == Delta(st.base, id, s, x, Regressions)
      && back == Delta(st.base, id, s, x, Recoveries)
      && IoMoves(st.base, bucketIo, bucketIo', s, x)
      && IoMoves(st.base, sampleIo, sampleIo', s, x)
  {
    g, bucketIo', sampleIo', drops, back :=
      AbsorbIo(st.gaps, i, reading, reading.Id() in st.base, bucketIo, sampleIo);
    ghost var x := Sighting(i, reading);
    RemarkedStaysMarked(st.gaps, g, st.base, log, x);
    DropsMean(st.gaps, st.base, log, x, FIELD_COUNT);
    RecoveriesMean(st.gaps, st.base, log, x, FIELD_COUNT);
    GainsMean(st.gaps, st.base, log, x, bucketIo, bucketIo');
    GainsMean(st.gaps, st.base, log, x, sampleIo, sampleIo');
  }

  ghost predicate PeaksRaised(buckets: map<string, Bucket>, b: Bucket, cur: seq<Reading>, name: string) {
    && b.peakRss == Max(BucketOf(buckets, name).peakRss, Load(cur, Some(name), false))
    && b.peakCount == Max(BucketOf(buckets, name).peakCount, Load(cur, Some(name), true))
  }

  /** The groups of variables that one reading changes. */
  datatype Step = Step(gaps: Gaps, counts: Counts, bucket: Bucket)

  ghost predicate StepMeans(st: State, log: Log, x: Sighting, d: Step) {
    var s, b0 := Of(log, x.reading.Id()), BucketOf(st.buckets, x.reading.bucket);
    && Marked(d.gaps, st.base, Record(log, x.reading.Id(), x))
    && CountsMove(st.base, st.counts, d.counts, s, x)
    && Moves(st.base, Sums(b0.cpu, b0.io), Sums(d.bucket.cpu, d.bucket.io), s, x)
    && d.bucket.identities == b0.identities + {x.reading.Id()}
  }

  method ReadStep(st: State, run: Sums, i: nat, cur: seq<Reading>, j: nat, ghost log: Log)
    returns (step: Step, run': Sums)
    requires j < |cur| && HasAll(run.io) && Marked(st.gaps, st.base, log)
    requires TrackedAt(st.base, st.seen, cur[j].Id(), Of(log, cur[j].Id()), i)
    requires Arriving(st.base, log, Sighting(i, cur[j]))
    requires Bucketed(st.buckets, st.base, log)
    ensures StepMeans(st, log, Sighting(i, cur[j]), step)
    ensures Moves(st.base, run, run', Of(log, cur[j].Id()), Sighting(i, cur[j]))
    ensures PeaksRaised(st.buckets, step.bucket, cur, cur[j].bucket)
  {
    var reading := cur[j];
    var cpuDelta, gapEvent, gapSpan := AbsorbCpu(st, i, reading, Of(log, reading.Id()));
    var bucket := BucketOf(st.buckets, reading.bucket);
    assert BucketHolds(st.base, log, reading.bucket, bucket);
    var gaps, bucketIo, sampleIo, drops, back := AbsorbFields(st, i, reading, bucket.io, run.io, log);
    var rssNow, countNow := Load(cur, Some(reading.bucket), false), Load(cur, Some(reading.bucket), true);
    var bucket' := Bucket(bucket.cpu + cpuDelta,
                          if bucket.peakRss < rssNow then rssNow else bucket.peakRss,
                          if bucket.peakCount < countNow then countNow else bucket.peakCount,
                          bucketIo, bucket.identities + {reading.Id()});
    step := Step(gaps, Counts(st.counts.gapEvents + gapEvent, st.counts.gapSamples + gapSpan,
                              st.counts.regressed + drops, st.counts.recovered + back), bucket');
    run' := Sums(run.cpu + cpuDelta, sampleIo);
  }

  function Advance(st: State, x: Sighting, d: Step): State {
    st.(seen := LastSeen(st.seen.reading[x.reading.Id() := x.reading], st.seen.index[x.reading.Id() := x.index]),
        gaps := d.gaps, counts := d.counts, buckets := st.buckets[x.reading.bucket := d.bucket])
  }

  /** One reading of sample i keeps all invariants. */
  lemma Absorbed(st: State, run: Sums, run': Sums, log: Log, x: Sighting, d: Step)
    requires Absorbing(st, run, log, x.index) && Arriving(st.base, log, x)
    requires StepMeans(st, log, x, d)
    requires Moves(st.base, run, run', Of(log, x.reading.Id()), x)
    ensures Absorbing(Advance(st, x, d), run', Record(log, x.reading.Id(), x), x.index)
  {
    RecordTracked(st.base, st.seen, log, x);
    RecordSplit(st.base, st.totals, run, run', log, x);
    RecordSums(st.base, run, run', log, x, AtSample(x.index));
    RecordOtherSamples(st.base, st.series, log, x);
    RecordBuckets(st.buckets, st.base, log, x, d.bucket);
    RecordCounted(st.base, st.counts, d.counts, log, x);
  }

  // ---------- the dictionary of one sample ----------

  ghost predicate Logged(log: Log, h: History) {
    forall id {:trigger Of(log, id)} :: Of(log, id) == Sightings(h, id) && (id in log ==> log[id] != [])
  }

  lemma {:induction false} FindMeans(d: seq<Reading>, id: Identity)
    ensures match Find(d, id) case None => id !in Ids(d) case Some(r) => r in d && r.Id() == id
  {
    if d != [] {
      FindMeans(Init(d), id);
      assert d == Init(d) + [Last(d)];
      assert Last(d) in d;
    }
  }

  lemma {:induction false} SightingsPlaced(h: History, id: Identity)
    ensures Placed(Baseline(h), id, Sightings(h, id), |h|)
    ensures id in Baseline(h) ==> Sightings(h, id) != []
  {
    if h != [] {
      SightingsPlaced(Init(h), id);
      FindMeans(Last(h), id);
      if |h| > 1 {
        assert Baseline(h) == Baseline(Init(h));
        if Sightings(Init(h), id) != [] {
          assert Sightings(h, id)[0] == Sightings(Init(h), id)[0];
        }
      }
    }
  }

  lemma SightingsSoFar(h: History, cur: seq<Reading>, j: nat, id: Identity)
    requires j < |cur| && Distinct(cur)
    ensures Sightings(h + [cur[..j + 1]], id)
      == Sightings(h + [cur[..j]], id) + (if id == cur[j].Id() then [Sighting(|h|, cur[j])] else [])
    ensures id == cur[j].Id() ==> Sightings(h + [cur[..j]], id) == Sightings(h, id)
  {
    assert Init(cur[..j + 1]) == cur[..j];
    assert Init(h + [cur[..j + 1]]) == h == Init(h + [cur[..j]]);
    FindMeans(cur[..j], id);
  }

  lemma LogStep(log: Log, h: History, cur: seq<Reading>, j: nat)
    requires j < |cur| && Distinct(cur) && Logged(log, h + [cur[..j]])
    ensures Of(log, cur[j].Id()) == Sightings(h, cur[j].Id())
    ensures Logged(Record(log, cur[j].Id(), Sighting(|h|, cur[j])), h + [cur[..j + 1]])
  {
    var log' := Record(log, cur[j].Id(), Sighting(|h|, cur[j]));
    SightingsSoFar(h, cur, j, cur[j].Id());
    forall id {:trigger Of(log', id)}
      ensures Of(log', id) == Sightings(h + [cur[..j + 1]], id) && (id in log' ==> log'[id] != [])
    {
      SightingsSoFar(h, cur, j, id);
      assert Of(log', id) == Of(log, id) + (if id == cur[j].Id() then [Sighting(|h|, cur[j])] else []);
    }
  }

  function Names(d: seq<Reading>): set<string> {
    set r | r in d :: r.bucket
  }

  lemma {:induction false} NoLoad(d: seq<Reading>, name: string, heads: bool)
    requires name !in Names(d)
    ensures Load(d, Some(name), heads) == 0
  {
    if d != [] {
      assert d == Init(d) + [Last(d)];
      NoLoad(Init(d), name, heads);
    }
  }

  ghost predicate PeaksHold(buckets: map<string, Bucket>, h: History, cur: seq<Reading>, n: nat)
    requires n <= |cur|
  {
    forall name {:trigger BucketOf(buckets, name)} ::
      var now := name in Names(cur[..n]);
      && BucketOf(buckets, name).peakRss
         == Max(Peak(h, Some(name), false), if now then Load(cur, Some(name), false) else 0)
      && BucketOf(buckets, name).peakCount
         == Max(Peak(h, Some(name), true), if now then Load(cur, Some(name), true) else 0)
  }

  lemma PeaksStep(buckets: map<string, Bucket>, b: Bucket, h: History, cur: seq<Reading>, n: nat)
    requires n < |cur| && PeaksHold(buckets, h, cur, n) && PeaksRaised(buckets, b, cur, cur[n].bucket)
    ensures PeaksHold(buckets[cur[n].bucket := b], h, cur, n + 1)
  {
    assert cur[..n + 1] == cur[..n] + [cur[n]];
    assert Names(cur[..n + 1]) == Names(cur[..n]) + {cur[n].bucket};
    var buckets' := buckets[cur[n].bucket := b];
    forall name ensures BucketOf(buckets', name) == if name == cur[n].bucket then b else BucketOf(buckets, name) {
    }
  }

  ghost predicate PeaksDone(buckets: map<string, Bucket>, h: History) {
    forall name {:trigger BucketOf(buckets, name)} ::
      && BucketOf(buckets, name).peakRss == Peak(h, Some(name), false)
      && BucketOf(buckets, name).peakCount == Peak(h, Some(name), true)
  }

  lemma PeaksEnd(buckets: map<string, Bucket>, h: History, cur: seq<Reading>)
    requires PeaksHold(buckets, h, cur, |cur|)
    ensures PeaksDone(buckets, h + [cur])
  {
    assert cur[..|cur|] == cur && Init(h + [cur]) == h;
    forall name {:trigger BucketOf(buckets, name)}
      ensures BucketOf(buckets, name).peakRss == Peak(h + [cur], Some(name), false)
      ensures BucketOf(buckets, name).peakCount == Peak(h + [cur], Some(name), true)
    {
      if name !in Names(cur) {
        NoLoad(cur, name, false);
        NoLoad(cur, name, true);
      }
    }
  }

  lemma {:induction false} HeadCount(d: seq<Reading>)
    ensures Load(d, None, true) == |d|
  {
    if d != [] { HeadCount(Init(d)); }
  }

  lemma {:induction false} PutDistinct(d: seq<Reading>, r: Reading)
    requires Distinct(d)
    ensures Distinct(Put(d, r)) && Ids(Put(d, r)) == Ids(d) + {r.Id()}
  {
    if d == [] {
    } else if d[0].Id() == r.Id() {
      assert d == [d[0]] + d[1..];
      forall id ensures id in Ids([r] + d[1..]) <==> id in Ids(d) + {r.Id()} {
      }
    } else {
      PutDistinct(d[1..], r);
      assert d == [d[0]] + d[1..];
      assert Ids(d) == {d[0].Id()} + Ids(d[1..]);
      var rest := Put(d[1..], r);
      assert Ids([d[0]] + rest) == {d[0].Id()} + Ids(rest);
      assert d[0].Id() !in Ids(d[1..]);
      forall k | 0 <= k < |rest| ensures rest[k].Id() != d[0].Id() {
        assert rest[k].Id() in Ids(rest);
      }
    }
  }

  lemma {:induction false} CurrentDistinct(readings: seq<Reading>)
    ensures Distinct(Current(readings))
  {
    if readings != [] {
      CurrentDistinct(Init(readings));
      PutDistinct(Current(Init(readings)), Last(readings));
    }
  }

  // ---------- one sample ----------

  ghost predicate Weighed(l: Loads, h: History) {
    && l.baselineRss == (if h == [] then 0 else Load(h[0], None, false))
    && l.baselineCount == (if h == [] then 0 else |h[0]|)
    && l.endRss == (if h == [] then 0 else Load(Last(h), None, false))
    && l.endCount == (if h == [] then 0 else |Last(h)|)
    && l.peakRss == Peak(h, None, false) && l.peakCount == Peak(h, None, true)
  }

  function Weigh(l: Loads, i: nat, cur: seq<Reading>): Loads {
    var rss := Load(cur, None, false);
    Loads(if i == 0 then rss else l.baselineRss, if l.peakRss < rss then rss else l.peakRss, rss,
          if i == 0 then |cur| else l.baselineCount, if l.peakCount < |cur| then |cur| else l.peakCount, |cur|)
  }

  lemma WeighMeans(l: Loads, h: History, cur: seq<Reading>)
    requires Weighed(l, h)
    ensures Weighed(Weigh(l, |h|, cur), h + [cur])
  {
    assert Init(h + [cur]) == h;
    HeadCount(cur);
  }

  lemma EmptyTotals(base: set<Identity>)
    ensures forall m, sel {:trigger Total(base, map[], m, sel)} :: Total(base, map[], m, sel) == 0
    ensures forall name {:trigger Members(map[], name)} :: Members(map[], name) == {}
  {
  }

  lemma EmptySums(base: set<Identity>, sel: Selector)
    ensures SumsTo(base, Sums(0, ZERO_IO), map[], sel)
  {
    EmptyTotals(base);
  }

  lemma EmptyBuckets(base: set<Identity>)
    ensures Bucketed(map[], base, map[])
  {
    forall name ensures BucketHolds(base, map[], name, EMPTY_BUCKET) {
      EmptySums(base, InBucket(name));
      EmptyTotals(base);
    }
  }

  lemma EmptyLog(base: set<Identity>)
    ensures Settled(INITIAL.(base := base), map[], 0)
  {
    EmptySums(base, All);
    EmptyBuckets(base);
    assert Counted(base, INITIAL.counts, map[]) by { EmptyTotals(base); }
    assert NoneFrom(base, map[], 0) by { EmptyTotals(base); }
  }

  lemma OpenedSums(base: set<Identity>, totals: Sums, log: Log, n: nat)
    requires SumsTo(base, totals, log, All) && NoneFrom(base, log, n)
    ensures SplitsTo(base, totals, Sums(0, ZERO_IO), log) && SumsTo(base, Sums(0, ZERO_IO), log, AtSample(n))
    ensures NoneFrom(base, log, n + 1)
  {
  }

  lemma TrackedMore(base: set<Identity>, seen: LastSeen, log: Log, n: nat)
    requires Tracked(base, seen, log, n)
    ensures Tracked(base, seen, log, n + 1)
  {
    forall id {:trigger Of(log, id)}
      ensures TrackedAt(base, seen, id, Of(log, id), n + 1) && (id in log ==> log[id] != [])
    {
      assert TrackedAt(base, seen, id, Of(log, id), n);
    }
  }

  lemma Opened(st: State, log: Log, n: nat)
    requires Settled(st, log, n)
    ensures Absorbing(st, Sums(0, ZERO_IO), log, n)
  {
    TrackedMore(st.base, st.seen, log, n);
    OpenedSums(st.base, st.totals, log, n);
  }

  function AddSums(a: Sums, b: Sums): Sums
    requires (forall f: Field :: f in a.io) && (forall f: Field :: f in b.io)
  {
    Sums(a.cpu + b.cpu, map f: Field | 0 <= f < FIELD_COUNT :: a.io[f] + b.io[f])
  }

  lemma ResettledSums(base: set<Identity>, totals: Sums, run: Sums, log: Log)
    requires SplitsTo(base, totals, run, log)
    ensures SumsTo(base, AddSums(totals, run), log, All)
  {
  }

  lemma ResettledSeries(base: set<Identity>, series: seq<Point>, run: Sums, log: Log, p: Point)
    requires Series(base, series, log) && SumsTo(base, run, log, AtSample(|series|))
    requires p.cpu == run.cpu && p.readBytes == run.io[READ_BYTES] && p.writeBytes == run.io[WRITE_BYTES]
    ensures Series(base, series + [p], log)
  {
    assert forall f: Field :: run.io[f] == Total(base, log, Rise(Io(f)), AtSample(|series|));
  }

  lemma Resettled(st: State, run: Sums, log: Log, i: nat, p: Point)
    requires Absorbing(st, run, log, i)
    requires p.cpu == run.cpu && p.readBytes == run.io[READ_BYTES] && p.writeBytes == run.io[WRITE_BYTES]
    ensures Settled(st.(totals := AddSums(st.totals, run), series := st.series + [p]), log, i + 1)
  {
    ResettledSums(st.base, st.totals, run, log);
    ResettledSeries(st.base, st.series, run, log, p);
  }

  /** What the state says of the snapshots themselves. */
  ghost predicate Describes(st: State, log: Log, h: History) {
    var all :=
      && Settled(st, log, |h|) && Logged(log, h)
      && (h == [] ==> st == INITIAL && log == map[])
      && (h != [] ==> st.base == Baseline(h)) && st.all == Seen(h)
      && Weighed(st.loads, h) && PeaksDone(st.buckets, h);
    all
  }

  /** The loop over the readings of one sample. */
  method AbsorbReadings(st: State, i: nat, cur: seq<Reading>, ghost log: Log, ghost h: History)
    returns (st': State, run: Sums, ghost log': Log)
    requires |h| == i && Distinct(cur) && st.base == Baseline(h + [cur])
    requires Absorbing(st, Sums(0, ZERO_IO), log, i) && Logged(log, h) && PeaksDone(st.buckets, h)
    ensures Absorbing(st', run, log', i) && Logged(log', h + [cur]) && PeaksDone(st'.buckets, h + [cur])
    ensures HasAll(st'.totals.io) && HasAll(run.io)
    ensures st'.base == st.base && st'.all == st.all && st'.loads == st.loads && st'.series == st.series
  {
    st', run, log' := st, Sums(0, ZERO_IO), log;
    StartSample(st.buckets, log, h, cur);
    for j := 0 to |cur|
      invariant Absorbing(st', run, log', i)
      invariant Logged(log', h + [cur[..j]])
      invariant PeaksHold(st'.buckets, h, cur, j)
      invariant st'.base == st.base && st'.all == st.all && st'.loads == st.loads && st'.series == st.series
    {
      ghost var x := Sighting(i, cur[j]);
      LogStep(log', h, cur, j);
      Arrives(st'.base, log', h, cur, j);
      assert TrackedAt(st'.base, st'.seen, cur[j].Id(), Of(log', cur[j].Id()), i + 1);
      var step, run' := ReadStep(st', run, i, cur, j, log');
      Absorbed(st', run, run', log', x, step);
      PeaksStep(st'.buckets, step.bucket, h, cur, j);
      st' := Advance(st', Sighting(i, cur[j]), step);
      run := run';
      log' := Record(log', cur[j].Id(), x);
    }
    assert cur[..|cur|] == cur;
    PeaksEnd(st'.buckets, h, cur);
  }

  lemma Snoc(h: History, cur: seq<Reading>)
    ensures Baseline(h + [cur]) == (if h == [] then Ids(cur) else Baseline(h))
    ensures Seen(h + [cur]) == Seen(h) + Ids(cur)
  {
    assert Init(h + [cur]) == h;
  }

  lemma Started(st: State, log: Log, h: History, cur: seq<Reading>)
    requires Describes(st, log, h)
    ensures h == [] ==> st == INITIAL && log == map[]
    ensures Absorbing(if h == [] then INITIAL.(base := Ids(cur)) else st, Sums(0, ZERO_IO), log, |h|)
    ensures st.all == Seen(h) && (h != [] ==> st.base == Baseline(h))
    ensures Logged(log, h) && PeaksDone(st.buckets, h) && Weighed(Weigh(st.loads, |h|, cur), h + [cur])
  {
    WeighMeans(st.loads, h, cur);
    if h == [] {
      EmptyLog(Ids(cur));
      Opened(INITIAL.(base := Ids(cur)), log, 0);
    } else {
      Opened(st, log, |h|);
    }
  }

  lemma Finished(st: State, log: Log, h: History, all: set<Identity>, loads: Loads)
    requires h != [] && Settled(st, log, |h|) && Logged(log, h) && st.base == Baseline(h)
    requires all == Seen(h) && Weighed(loads, h) && PeaksDone(st.buckets, h)
    ensures Describes(st.(all := all, loads := loads), log, h)
  {
  }

  method AbsorbSample(st: State, i: nat, snap: Snapshot, started: int, ghost log: Log, ghost h: History)
    returns (st': State, ghost log': Log, p: Point)
    requires |h| == i && Describes(st, log, h)
    ensures Describes(st', log', h + [Current(snap.readings)])
    ensures st'.series == st.series + [p] && PointFits(p, snap, started)
  {
    var cur := Current(snap.readings);
    hide Describes, Absorbing, Settled, PeaksDone, Logged, Weighed, Distinct, Seen, Ids, Weigh, Load, Current, AddSums;
    hide Baseline;
    CurrentDistinct(snap.readings);
    Started(st, log, h, cur);
    Snoc(h, cur);
    var st0 := if i == 0 then st.(base := Ids(cur)) else st;
    var st1, run;
    st1, run, log' := AbsorbReadings(st0, i, cur, log, h);
    p := Point(snap.monotonicNs - started, |cur|, Load(cur, None, false), run.cpu,
               run.io[READ_BYTES], run.io[WRITE_BYTES], snap.ioUnavailable);
    Resettled(st1, run, log', i, p);
    var st2 := st1.(totals := AddSums(st1.totals, run), series := st1.series + [p]);
    Finished(st2, log', h + [cur], st.all + Ids(cur), Weigh(st.loads, i, cur));
    st' := st2.(all := st.all + Ids(cur), loads := Weigh(st.loads, i, cur));
  }

  predicate PointFits(p: Point, snap: Snapshot, started: int) {
    && p.offsetNs == snap.monotonicNs - started
    && p.processes == |Current(snap.readings)| && p.rss == Load(Current(snap.readings), None, false)
    && p.ioUnavailable == snap.ioUnavailable
  }

  lemma StartSample(buckets: map<string, Bucket>, log: Log, h: History, cur: seq<Reading>)
    requires Logged(log, h) && PeaksDone(buckets, h)
    ensures Logged(log, h + [cur[..0]]) && PeaksHold(buckets, h, cur, 0)
  {
    forall id ensures Sightings(h + [cur[..0]], id) == Sightings(h, id) {
      assert Init(h + [cur[..0]]) == h;
    }
  }

  lemma Arrives(base: set<Identity>, log: Log, h: History, cur: seq<Reading>, j: nat)
    requires j < |cur| && base == Baseline(h + [cur]) && Of(log, cur[j].Id()) == Sightings(h, cur[j].Id())
    ensures Arriving(base, log, Sighting(|h|, cur[j]))
  {
    SightingsPlaced(h, cur[j].Id());
    assert cur[j] in cur;
  }

  // ---------- the profile ----------

  function Histories(snapshots: seq<Snapshot>): (h: History)
    ensures |h| == |snapshots|
  {
    if snapshots == [] then [] else Histories(Init(snapshots)) + [Current(Last(snapshots).readings)]
  }

  ghost predicate Points(series: seq<Point>, snapshots: seq<Snapshot>, started: int) {
    |series| == |snapshots| && forall k :: 0 <= k < |snapshots| ==> PointFits(series[k], snapshots[k], started)
  }

  lemma AllStarted()
    ensures Describes(INITIAL, map[], [])
  {
    hide Settled;
    EmptyLog({});
    assert INITIAL.(base := {}) == INITIAL;
  }

  lemma PointsStep(series: seq<Point>, p: Point, snapshots: seq<Snapshot>, started: int, i: nat)
    requires i < |snapshots| && Points(series, snapshots[..i], started) && PointFits(p, snapshots[i], started)
    ensures Points(series + [p], snapshots[..i + 1], started)
    ensures Histories(snapshots[..i + 1]) == Histories(snapshots[..i]) + [Current(snapshots[i].readings)]
  {
    assert Init(snapshots[..i + 1]) == snapshots[..i];
  }

  /** The state describes the snapshots' history, and the time series has a point for each of them. */
  ghost predicate Gathered(st: State, log: Log, snapshots: seq<Snapshot>, started: int) {
    Describes(st, log, Histories(snapshots)) && Points(st.series, snapshots, started)
  }

  /** The loop over the samples. */
  method AbsorbAll(snapshots: seq<Snapshot>, started: int) returns (st: State, ghost log: Log)
    ensures Gathered(st, log, snapshots, started)
  {
    hide Describes;
    st, log := INITIAL, map[];
    AllStarted();
    for i := 0 to |snapshots|
      invariant Describes(st, log, Histories(snapshots[..i])) && Points(st.series, snapshots[..i], started)
    {
      ghost var series := st.series;
      var p;
      st, log, p := AbsorbSample(st, i, snapshots[i], started, log, Histories(snapshots[..i]));
      PointsStep(series, p, snapshots, started, i);
    }
    assert snapshots[..|snapshots|] == snapshots;
  }

  lemma {:induction false} SeenMeans(h: History, id: Identity)
    ensures id in Seen(h) <==> Sightings(h, id) != []
  {
    if h != [] {
      SeenMeans(Init(h), id);
      FindMeans(Last(h), id);
      if id in Ids(Last(h)) {
        FindAll(Last(h), id);
      }
    }
  }

  lemma {:induction false} FindAll(d: seq<Reading>, id: Identity)
    requires id in Ids(d)
    ensures Find(d, id).Some?
  {
    assert d == Init(d) + [Last(d)];
    if Last(d).Id() != id {
      FindAll(Init(d), id);
    }
  }

  lemma LogIsLogOf(st: State, log: Log, h: History)
    requires Describes(st, log, h)
    ensures log == LogOf(h)
  {
    hide Settled;
    forall id
      ensures id in log <==> id in LogOf(h)
      ensures id in log ==> log[id] == LogOf(h)[id]
    {
      SeenMeans(h, id);
      assert Of(log, id) == Sightings(h, id);
    }
  }
}
