/** The profile reported for a run: the diagnosis of unresolved I/O gaps, and the returned figures. */
module ResourceProfile {
  import opened Wrappers
  import opened ResourceSpec
  import opened ResourceMarks
  import opened ResourceAggregate
  import opened ResourceReadings

  // ---------- unresolved keys, as the sightings define them ----------

  predicate NeverValid(base: set<Identity>, id: Identity, s: seq<Sighting>, f: Field) {
    id !in base && s != [] && forall k :: 0 <= k < |s| ==> Missing(s[k], f)
  }

  predicate Terminal(base: set<Identity>, id: Identity, s: seq<Sighting>, f: Field) {
    && !BaselineGap(base, id, s, f) && !Fell(base, id, s, f)
    && LastMissing(s, f) && exists k :: 0 <= k < |s| && !Missing(s[k], f)
  }

  datatype Cause = BaselineMissing | Regressed | NeverAvailable | TerminalLoss

  ghost predicate Has(cause: Cause, base: set<Identity>, log: Log, k: Key) {
    var s := Of(log, k.id);
    match cause
    case BaselineMissing => BaselineGap(base, k.id, s, k.field)
    case Regressed => !BaselineGap(base, k.id, s, k.field) && Fell(base, k.id, s, k.field)
    case NeverAvailable => NeverValid(base, k.id, s, k.field)
    case TerminalLoss => Terminal(base, k.id, s, k.field)
  }

  ghost function UnresolvedKeys(base: set<Identity>, log: Log): set<Key> {
    set id, f: Field | id in log && 0 <= f < FIELD_COUNT && Unresolved(base, id, log[id], f) :: Key(id, f)
  }

  ghost function KeysWith(cause: Cause, base: set<Identity>, log: Log): set<Key> {
    set k | k in UnresolvedKeys(base, log) && Has(cause, base, log, k)
  }

  ghost predicate Sound(base: set<Identity>, log: Log) {
    forall id :: id in log ==> log[id] != [] && exists n: nat :: Placed(base, id, log[id], n)
  }

  lemma {:induction false} OneValueOnePlace(s: seq<Sighting>, f: Field, i: nat, j: nat)
    requires i < j < |s| && !Missing(s[i], f) && !Missing(s[j], f)
    ensures |Values(s, Io(f))| >= 2
  {
    if j < |s| - 1 {
      OneValueOnePlace(Init(s), f, i, j);
    } else {
      NoValues(Init(s), f);
      assert Init(s)[i] == s[i];
    }
  }

  /** The marks of a key say whether it is unresolved, although the open mark alone does not. */
  lemma MarksDecide(base: set<Identity>, id: Identity, s: seq<Sighting>, f: Field, n: nat)
    requires Placed(base, id, s, n)
    ensures var m := MarksOf(base, id, s, f);
      && (m.open || m.baselineGap || m.fell <==> Unresolved(base, id, s, f))
      && (Unresolved(base, id, s, f) && !m.baselineGap && !m.fell ==>
            (m.last.None? <==> NeverValid(base, id, s, f)) && (m.last.Some? <==> Terminal(base, id, s, f)))
  {
    NoValues(s, f);
    if s != [] && !Missing(Last(s), f) && OpenGap(base, id, s, f) && !Missing(s[0], f) {
      OneValueOnePlace(s, f, 0, |s| - 1);
    }
  }

  /** Every unresolved key has exactly one cause, so the four counts add up to the total. */
  lemma CausesPartition(base: set<Identity>, log: Log)
    requires Sound(base, log)
    ensures forall k :: k in UnresolvedKeys(base, log) ==> exists c :: Has(c, base, log, k)
    ensures forall k, c, d :: Has(c, base, log, k) && Has(d, base, log, k) && k in UnresolvedKeys(base, log) ==> c == d
    ensures |UnresolvedKeys(base, log)|
      == |KeysWith(BaselineMissing, base, log)| + |KeysWith(Regressed, base, log)|
         + |KeysWith(NeverAvailable, base, log)| + |KeysWith(TerminalLoss, base, log)|
  {
    hide Has, UnresolvedKeys, Sound;
    var all := UnresolvedKeys(base, log);
    forall k | k in all
      ensures exists c :: Has(c, base, log, k)
      ensures forall c, d :: Has(c, base, log, k) && Has(d, base, log, k) ==> c == d
    {
      OneCause(base, log, k);
    }
    var b, r := KeysWith(BaselineMissing, base, log), KeysWith(Regressed, base, log);
    var n, t := KeysWith(NeverAvailable, base, log), KeysWith(TerminalLoss, base, log);
    forall k
      ensures k in all <==> k in b + r + n + t
      ensures k in b ==> k !in r + n + t
      ensures k in r ==> k !in n + t
      ensures k in n ==> k !in t
    {
      if k in all {
        var c :| Has(c, base, log, k);
        assert c == BaselineMissing || c == Regressed || c == NeverAvailable || c == TerminalLoss;
      }
    }
    assert all == b + r + n + t;
    assert |b + r| == |b| + |r|;
    assert |b + r + n| == |b + r| + |n|;
    assert |b + r + n + t| == |b + r + n| + |t|;
  }

  lemma OneCause(base: set<Identity>, log: Log, k: Key)
    requires Sound(base, log) && k in UnresolvedKeys(base, log)
    ensures exists c :: Has(c, base, log, k)
    ensures forall c, d :: Has(c, base, log, k) && Has(d, base, log, k) ==> c == d
  {
    var s := log[k.id];
    var n: nat :| Placed(base, k.id, s, n);
    MarksDecide(base, k.id, s, k.field, n);
    NoValues(s, k.field);
    var m := MarksOf(base, k.id, s, k.field);
    assert Has(if m.baselineGap then BaselineMissing else if m.fell then Regressed
               else if m.last.None? then NeverAvailable else TerminalLoss, base, log, k);
    if NeverValid(base, k.id, s, k.field) {
      assert Chain(base, k.id, s, Io(k.field)) == [0];
      assert !m.baselineGap && !m.fell;
    }
  }

  // ---------- the profile ----------

  datatype Profile = Profile(
    cpuTicks: int, io: map<Field, int>, baselineRss: nat, peakRss: nat, peakRssDelta: nat, endRss: nat,
    baselineCount: nat, peakCount: nat, endCount: nat, uniqueCount: nat, createdCount: nat,
    gapEvents: int, gapSamples: int, recovered: int, regressions: int,
    unresolved: nat, unresolvedIdentities: nat, baselineGaps: nat, regressionGaps: nat, neverValidGaps: nat,
    terminalGaps: nat, buckets: map<string, Bucket>, series: seq<Point>)

  /** What a profile reports, in terms of the snapshots. */
  ghost predicate Reports(p: Profile, h: History) {
    var base, log := Baseline(h), LogOf(h);
    && p.cpuTicks == Cpu(base, log, All)
    && HasAll(p.io) && (forall f: Field {:trigger p.io[f]} :: p.io[f] == Total(base, log, Rise(Io(f)), All))
    && p.gapEvents == Total(base, log, GapEvents, All) && p.gapSamples == Total(base, log, GapSamples, All)
    && p.recovered == Total(base, log, Recoveries, All) && p.regressions == Total(base, log, Regressions, All)
    && p.unresolved == |UnresolvedKeys(base, log)|
    && p.unresolvedIdentities == |set k | k in UnresolvedKeys(base, log) :: k.id|
    && p.baselineGaps == |KeysWith(BaselineMissing, base, log)|
    && p.regressionGaps == |KeysWith(Regressed, base, log)|
    && p.neverValidGaps == |KeysWith(NeverAvailable, base, log)|
    && p.terminalGaps == |KeysWith(TerminalLoss, base, log)|
  }

  ghost predicate ReportsLoads(p: Profile, h: History) {
    && p.baselineRss == (if h == [] then 0 else Load(h[0], None, false))
    && p.baselineCount == (if h == [] then 0 else |h[0]|)
    && p.endRss == (if h == [] then 0 else Load(Last(h), None, false))
    && p.endCount == (if h == [] then 0 else |Last(h)|)
    && p.peakRss == Peak(h, None, false) && p.peakCount == Peak(h, None, true)
    && p.peakRssDelta == Max(0, p.peakRss - p.baselineRss)
    && p.uniqueCount == |Seen(h)| && p.createdCount == |Seen(h) - Baseline(h)|
  }

  ghost predicate ReportsBucket(b: Bucket, name: string, h: History) {
    && BucketHolds(Baseline(h), LogOf(h), name, b)
    && b.peakRss == Peak(h, Some(name), false) && b.peakCount == Peak(h, Some(name), true)
  }

  ghost predicate ReportsSeries(p: Profile, h: History) {
    && |p.series| == |h|
    && Series(Baseline(h), p.series, LogOf(h))
  }

  /** The counts and loads of a profile over the readings the snapshots list. */
  ghost predicate CountsReadings(p: Profile, snapshots: seq<Snapshot>) {
    var start := if snapshots == [] then [] else snapshots[0].readings;
    var end := if snapshots == [] then [] else Last(snapshots).readings;
    && p.uniqueCount == |IdsIn(snapshots)|
    && p.createdCount == |IdsIn(snapshots) - IdsOf(start)|
    && p.baselineCount == LoadOf(start, None, true) && p.baselineRss == LoadOf(start, None, false)
    && p.endCount == LoadOf(end, None, true) && p.endRss == LoadOf(end, None, false)
    && IsPeak(p.peakCount, snapshots, None, true) && IsPeak(p.peakRss, snapshots, None, false)
    && p.peakRssDelta == Max(0, p.peakRss - p.baselineRss)
  }

  ghost predicate BucketCountsReadings(b: Bucket, name: string, snapshots: seq<Snapshot>) {
    && IsPeak(b.peakCount, snapshots, Some(name), true) && IsPeak(b.peakRss, snapshots, Some(name), false)
    && b.identities == IdsInBucket(snapshots, name)
  }

  /** Each point of the time series tells its own snapshot. */
  ghost predicate PointsTell(series: seq<Point>, snapshots: seq<Snapshot>, started: int) {
    && |series| == |snapshots|
    && forall k :: 0 <= k < |snapshots| ==>
         && series[k].offsetNs == snapshots[k].monotonicNs - started
         && series[k].processes == LoadOf(snapshots[k].readings, None, true)
         && series[k].rss == LoadOf(snapshots[k].readings, None, false)
         && series[k].ioUnavailable == snapshots[k].ioUnavailable
  }

  lemma LoadsCountReadings(p: Profile, snapshots: seq<Snapshot>)
    requires ReportsLoads(p, Histories(snapshots))
    ensures CountsReadings(p, snapshots)
  {
    hide Peak, Seen, IdsIn, IdsOf, IsPeak, LoadOf, Load, Current, Latest;
    var h := Histories(snapshots);
    HistoriesAre(snapshots);
    SeenIs(snapshots);
    BaselineIs(snapshots);
    PeakIs(snapshots, None, true);
    PeakIs(snapshots, None, false);
    if snapshots == [] {
      NothingLoads(None);
      NothingIdentified();
    } else {
      assert h[0] == Current(snapshots[0].readings) && Last(h) == Current(Last(snapshots).readings);
      CurrentLoad(snapshots[0].readings, None);
      CurrentLoad(Last(snapshots).readings, None);
    }
  }

  lemma NothingLoads(bucket: Option<string>)
    ensures LoadOf([], bucket, true) == LoadOf([], bucket, false) == 0
  {
    CurrentLoad([], bucket);
  }

  lemma NothingIdentified()
    ensures IdsOf([]) == {}
  {
  }

  lemma BucketCounts(b: Bucket, name: string, snapshots: seq<Snapshot>)
    requires ReportsBucket(b, name, Histories(snapshots))
    ensures BucketCountsReadings(b, name, snapshots)
  {
    hide Peak, IsPeak, SumsTo, IdsInBucket, Members;
    PeakIs(snapshots, Some(name), true);
    PeakIs(snapshots, Some(name), false);
    MembersAre(snapshots, name);
  }

  lemma PointsCount(series: seq<Point>, snapshots: seq<Snapshot>, started: int)
    requires Points(series, snapshots, started)
    ensures PointsTell(series, snapshots, started)
  {
    forall k | 0 <= k < |snapshots|
      ensures PointFits(series[k], snapshots[k], started)
      ensures |Current(snapshots[k].readings)| == LoadOf(snapshots[k].readings, None, true)
      ensures Load(Current(snapshots[k].readings), None, false) == LoadOf(snapshots[k].readings, None, false)
    {
      CurrentLoad(snapshots[k].readings, None);
    }
  }

  lemma SoundLog(st: State, log: Log, n: nat)
    requires Tracked(st.base, st.seen, log, n)
    ensures Sound(st.base, log)
  {
    forall id | id in log ensures log[id] != [] && Placed(st.base, id, log[id], n) {
      assert TrackedAt(st.base, st.seen, id, Of(log, id), n);
    }
  }

  /** The sets the loop kept give the unresolved keys and their causes. */
  lemma GapSets(g: Gaps, base: set<Identity>, log: Log)
    requires Marked(g, base, log) && Sound(base, log)
    ensures forall k :: k in g.open + g.irrecoverable <==> k in UnresolvedKeys(base, log)
    ensures forall k :: k in g.open + g.irrecoverable && k in g.baseline <==> k in KeysWith(BaselineMissing, base, log)
    ensures forall k ::
      k in g.open + g.irrecoverable && k !in g.baseline && k in g.regression <==> k in KeysWith(Regressed, base, log)
    ensures forall k ::
      k in g.open + g.irrecoverable && k !in g.baseline && k !in g.regression && k !in g.lastValid
      <==> k in KeysWith(NeverAvailable, base, log)
    ensures forall k ::
      k in g.open + g.irrecoverable && k !in g.baseline && k !in g.regression && k in g.lastValid
      <==> k in KeysWith(TerminalLoss, base, log)
  {
    forall k: Key
      ensures k in g.open + g.irrecoverable <==> k in UnresolvedKeys(base, log)
      ensures k in UnresolvedKeys(base, log) ==>
        && (k in g.baseline <==> Has(BaselineMissing, base, log, k))
        && (k !in g.baseline && k in g.regression <==> Has(Regressed, base, log, k))
        && (k !in g.baseline && k !in g.regression && k !in g.lastValid <==> Has(NeverAvailable, base, log, k))
        && (k !in g.baseline && k !in g.regression && k in g.lastValid <==> Has(TerminalLoss, base, log, k))
    {
      GapSetsAt(g, base, log, k);
    }
  }

  lemma GapSetsAt(g: Gaps, base: set<Identity>, log: Log, k: Key)
    requires Marked(g, base, log) && Sound(base, log)
    ensures k in g.open + g.irrecoverable <==> k in UnresolvedKeys(base, log)
    ensures k in UnresolvedKeys(base, log) ==>
      && (k in g.baseline <==> Has(BaselineMissing, base, log, k))
      && (k !in g.baseline && k in g.regression <==> Has(Regressed, base, log, k))
      && (k !in g.baseline && k !in g.regression && k !in g.lastValid <==> Has(NeverAvailable, base, log, k))
      && (k !in g.baseline && k !in g.regression && k in g.lastValid <==> Has(TerminalLoss, base, log, k))
  {
    var s := Of(log, k.id);
    assert g.At(k) == MarksOf(base, k.id, s, k.field);
    if k.id in log {
      var n: nat :| Placed(base, k.id, s, n);
      MarksDecide(base, k.id, s, k.field, n);
      if k in UnresolvedKeys(base, log) { OneCause(base, log, k); }
      assert k in UnresolvedKeys(base, log) <==> Unresolved(base, k.id, s, k.field);
    }
  }

  datatype Diagnosis = Diagnosis(unresolved: nat, identities: nat, baselineGaps: nat, regressionGaps: nat,
                                 neverValidGaps: nat, terminalGaps: nat)

  method Diagnose(g: Gaps, ghost base: set<Identity>, ghost log: Log) returns (d: Diagnosis)
    requires Marked(g, base, log) && Sound(base, log)
    ensures d.unresolved == |UnresolvedKeys(base, log)|
    ensures d.identities == |set k | k in UnresolvedKeys(base, log) :: k.id|
    ensures d.baselineGaps == |KeysWith(BaselineMissing, base, log)|
    ensures d.regressionGaps == |KeysWith(Regressed, base, log)|
    ensures d.neverValidGaps == |KeysWith(NeverAvailable, base, log)|
    ensures d.terminalGaps == |KeysWith(TerminalLoss, base, log)|
  {
    GapSets(g, base, log);
    var unresolved := g.open + g.irrecoverable;
    var baseline := unresolved * g.baseline;
    var regression := (unresolved - baseline) * g.regression;
    var without := unresolved - baseline - regression;
    var neverValid := set k | k in without && k !in g.lastValid;
    var terminal := without - neverValid;
    hide Marked, Sound, UnresolvedKeys, KeysWith;
    assert unresolved == UnresolvedKeys(base, log);
    assert baseline == KeysWith(BaselineMissing, base, log);
    assert regression == KeysWith(Regressed, base, log);
    assert neverValid == KeysWith(NeverAvailable, base, log);
    assert terminal == KeysWith(TerminalLoss, base, log);
    d := Diagnosis(|unresolved|, |set k | k in unresolved :: k.id|, |baseline|, |regression|, |neverValid|, |terminal|);
  }

  /** What Aggregate takes from the finished loop. */
  lemma Unpack(st: State, h: History)
    requires Describes(st, LogOf(h), h)
    ensures Marked(st.gaps, Baseline(h), LogOf(h)) && Sound(Baseline(h), LogOf(h))
    ensures SumsTo(Baseline(h), st.totals, LogOf(h), All) && Counted(Baseline(h), st.counts, LogOf(h))
    ensures Series(Baseline(h), st.series, LogOf(h)) && |st.series| == |h|
    ensures Bucketed(st.buckets, Baseline(h), LogOf(h)) && PeaksDone(st.buckets, h)
    ensures Weighed(st.loads, h) && st.all == Seen(h) && st.base == Baseline(h)
  {
    hide Total, Marked;
    assert h == [] ==> st.base == {};
    SoundLog(st, LogOf(h), |h|);
  }

  method Aggregate(snapshots: seq<Snapshot>, started: int) returns (p: Profile)
    ensures Reports(p, Histories(snapshots))
    ensures ReportsLoads(p, Histories(snapshots))
    ensures ReportsSeries(p, Histories(snapshots)) && Points(p.series, snapshots, started)
    ensures forall name {:trigger BucketOf(p.buckets, name)} ::
      ReportsBucket(BucketOf(p.buckets, name), name, Histories(snapshots))
      && BucketCountsReadings(BucketOf(p.buckets, name), name, snapshots)
    ensures CountsReadings(p, snapshots) && PointsTell(p.series, snapshots, started)
  {
    hide Describes, CountsReadings, BucketCountsReadings, PointsTell, Sound, Total, Cpu, UnresolvedKeys, KeysWith, Marked;
    var st, log := AbsorbAll(snapshots, started);
    ghost var h := Histories(snapshots);
    LogIsLogOf(st, log, h);
    Unpack(st, h);
    var d := Diagnose(st.gaps, st.base, LogOf(h));
    p := Profile(st.totals.cpu, st.totals.io, st.loads.baselineRss, st.loads.peakRss,
                 if st.loads.peakRss < st.loads.baselineRss then 0 else st.loads.peakRss - st.loads.baselineRss,
                 st.loads.endRss, st.loads.baselineCount, st.loads.peakCount, st.loads.endCount,
                 |st.all|, |st.all - st.base|,
                 st.counts.gapEvents, st.counts.gapSamples, st.counts.recovered, st.counts.regressed,
                 d.unresolved, d.identities, d.baselineGaps, d.regressionGaps, d.neverValidGaps, d.terminalGaps,
                 st.buckets, st.series);
    LoadsCountReadings(p, snapshots);
    PointsCount(p.series, snapshots, started);
    forall name: string
      ensures BucketCountsReadings(BucketOf(p.buckets, name), name, snapshots)
    {
      BucketCounts(BucketOf(p.buckets, name), name, snapshots);
    }
  }
}
