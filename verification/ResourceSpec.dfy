/**
 * What the resource profile of a run means, read off its snapshots.
 *
 * A snapshot is the insertion-ordered dictionary of its readings by process identity.  Everything
 * the aggregation reports is stated over the sightings of each identity: the samples in which it
 * occurred, with the reading taken there.
 */
module ResourceSpec {
  import opened SetSums
  import opened Wrappers

  datatype Identity = Identity(pid: int, startTicks: int)

  const FIELD_COUNT: nat := 6

  /** The I/O counters of a process, by their place in the source's table. */
  type Field = f: nat | f < FIELD_COUNT

  const READ_BYTES: Field := 0
  const WRITE_BYTES: Field := 1
  const RCHAR: Field := 2
  const WCHAR: Field := 3
  const SYSCR: Field := 4
  const SYSCW: Field := 5

  datatype Key = Key(id: Identity, field: Field)

  /** An I/O field that could not be read is absent from io. */
  datatype Reading = Reading(pid: int, ppid: int, startTicks: int, userTicks: int, systemTicks: int,
                             rss: nat, io: map<Field, int>, bucket: string) {
    function Id(): Identity { Identity(pid, startTicks) }
  }

  datatype Sighting = Sighting(index: nat, reading: Reading)

  type History = seq<seq<Reading>>

  type Log = map<Identity, seq<Sighting>>

  function Last<T>(s: seq<T>): T
    requires s != []
  {
    s[|s| - 1]
  }

  function Init<T>(s: seq<T>): seq<T>
    requires s != []
  {
    s[..|s| - 1]
  }

  // ---------- a snapshot as a dictionary ----------

  /** Dictionary assignment: a known identity keeps its place and takes the new reading. */
  function Put(d: seq<Reading>, r: Reading): seq<Reading> {
    if d == [] then [r]
    else if d[0].Id() == r.Id() then [r] + d[1..]
    else [d[0]] + Put(d[1..], r)
  }

  function Current(readings: seq<Reading>): seq<Reading> {
    if readings == [] then [] else Put(Current(Init(readings)), Last(readings))
  }

  ghost predicate Distinct(d: seq<Reading>) {
    forall i, j :: 0 <= i < j < |d| ==> d[i].Id() != d[j].Id()
  }

  function Ids(d: seq<Reading>): set<Identity> {
    set r | r in d :: r.Id()
  }

  function Find(d: seq<Reading>, id: Identity): Option<Reading> {
    if d == [] then None
    else if Last(d).Id() == id then Some(Last(d))
    else Find(Init(d), id)
  }

  // ---------- sightings ----------

  function Sightings(h: History, id: Identity): seq<Sighting> {
    if h == [] then [] else
      match Find(Last(h), id)
      case None => Sightings(Init(h), id)
      case Some(r) => Sightings(Init(h), id) + [Sighting(|h| - 1, r)]
  }

  function Seen(h: History): set<Identity> {
    if h == [] then {} else Seen(Init(h)) + Ids(Last(h))
  }

  ghost function LogOf(h: History): Log {
    map id | id in Seen(h) :: Sightings(h, id)
  }

  function Of(log: Log, id: Identity): seq<Sighting> {
    if id in log then log[id] else []
  }

  function Baseline(h: History): set<Identity> {
    if h == [] then {} else Ids(h[0])
  }

  // ---------- counters along the sightings of one identity ----------

  datatype Counter = User | System | Io(field: Field)

  function Value(r: Reading, c: Counter): Option<int> {
    match c
    case User => Some(r.userTicks)
    case System => Some(r.systemTicks)
    case Io(f) => if f in r.io then Some(r.io[f]) else None
  }

  /** The available values of a counter, in order. */
  function Values(s: seq<Sighting>, c: Counter): seq<int> {
    if s == [] then [] else
      match Value(Last(s).reading, c)
      case None => Values(Init(s), c)
      case Some(v) => Values(Init(s), c) + [v]
  }

  /** Where the next rise is measured from: a baseline process starts at its first value, any other at 0. */
  function Chain(base: set<Identity>, id: Identity, s: seq<Sighting>, c: Counter): seq<int> {
    (if id in base then [] else [0]) + Values(s, c)
  }

  function Rises(xs: seq<int>): nat {
    if |xs| < 2 then 0 else Rises(Init(xs)) + Max(0, Last(xs) - Last(Init(xs)))
  }

  function Falls(xs: seq<int>): nat {
    if |xs| < 2 then 0 else Falls(Init(xs)) + (if Last(xs) < Last(Init(xs)) then 1 else 0)
  }

  // ---------- gaps of one key ----------

  function Missing(x: Sighting, f: Field): bool {
    f !in x.reading.io
  }

  predicate LastMissing(s: seq<Sighting>, f: Field) {
    s != [] && Missing(Last(s), f)
  }

  predicate BaselineGap(base: set<Identity>, id: Identity, s: seq<Sighting>, f: Field) {
    id in base && s != [] && Missing(s[0], f)
  }

  predicate Fell(base: set<Identity>, id: Identity, s: seq<Sighting>, f: Field) {
    Falls(Chain(base, id, s, Io(f))) > 0
  }

  /** The field was missing in some sample after the first. */
  predicate MissedLater(s: seq<Sighting>, f: Field) {
    exists k :: 0 <= k < |s| && s[k].index > 0 && Missing(s[k], f)
  }

  /** The key is marked open: its last reading is missing, or a baseline process whose first reading was
      missing has just shown its first value and nothing has closed the earlier gap yet. */
  predicate OpenGap(base: set<Identity>, id: Identity, s: seq<Sighting>, f: Field) {
    && s != []
    && (if Missing(Last(s), f) then Last(s).index > 0
        else id in base && |Values(s, Io(f))| == 1 && MissedLater(s, f))
  }

  predicate Unresolved(base: set<Identity>, id: Identity, s: seq<Sighting>, f: Field) {
    BaselineGap(base, id, s, f) || Fell(base, id, s, f) || LastMissing(s, f)
  }

  // ---------- what one more sighting contributes ----------

  datatype Metric =
    | Rise(c: Counter)
    | Regressions
    | Recoveries
    | GapEvents
    | GapSamples

  datatype Selector = All | InBucket(bucket: string) | AtSample(index: nat)

  predicate Accepts(sel: Selector, x: Sighting) {
    match sel
    case All => true
    case InBucket(b) => x.reading.bucket == b
    case AtSample(i) => x.index == i
  }

  predicate Falling(base: set<Identity>, id: Identity, s: seq<Sighting>, x: Sighting, f: Field) {
    var before := Chain(base, id, s, Io(f));
    before != [] && !Missing(x, f) && x.reading.io[f] < Last(before)
  }

  predicate Recovering(base: set<Identity>, id: Identity, s: seq<Sighting>, x: Sighting, f: Field) {
    && !Missing(x, f)
    && Chain(base, id, s, Io(f)) != []
    && !Falling(base, id, s, x, f)
    && OpenGap(base, id, s, f)
  }

  function FallingFields(base: set<Identity>, id: Identity, s: seq<Sighting>, x: Sighting, n: nat): set<Field> {
    set f: Field | 0 <= f < n && Falling(base, id, s, x, f)
  }

  function RecoveringFields(base: set<Identity>, id: Identity, s: seq<Sighting>, x: Sighting, n: nat): set<Field> {
    set f: Field | 0 <= f < n && Recovering(base, id, s, x, f)
  }

  function Delta(base: set<Identity>, id: Identity, s: seq<Sighting>, x: Sighting, m: Metric): int {
    match m
    case Rise(c) =>
      var before := Chain(base, id, s, c);
      var v := Value(x.reading, c);
      if v.None? || before == [] then 0 else Max(0, v.value - Last(before))
    case Regressions => |FallingFields(base, id, s, x, FIELD_COUNT)|
    case Recoveries => |RecoveringFields(base, id, s, x, FIELD_COUNT)|
    case GapEvents => if s != [] && Last(s).index < x.index - 1 then 1 else 0
    case GapSamples => if s != [] && Last(s).index < x.index - 1 then x.index - Last(s).index - 1 else 0
  }

  function Flow(base: set<Identity>, id: Identity, s: seq<Sighting>, m: Metric, sel: Selector): int {
    if s == [] then 0
    else
      Flow(base, id, Init(s), m, sel)
      + (if Accepts(sel, Last(s)) then Delta(base, id, Init(s), Last(s), m) else 0)
  }

  ghost function FlowFn(base: set<Identity>, log: Log, m: Metric, sel: Selector): Identity -> int {
    id => Flow(base, id, Of(log, id), m, sel)
  }

  /** The run's total of a metric over the sightings the selector accepts. */
  ghost function Total(base: set<Identity>, log: Log, m: Metric, sel: Selector): int {
    Sum(log.Keys, FlowFn(base, log, m, sel))
  }

  ghost function Cpu(base: set<Identity>, log: Log, sel: Selector): int {
    Total(base, log, Rise(User), sel) + Total(base, log, Rise(System), sel)
  }

  function Record(log: Log, id: Identity, x: Sighting): Log {
    log[id := Of(log, id) + [x]]
  }

  /** A new sighting adds its own contribution to every total that accepts it, and nothing else. */
  lemma RecordTotals(base: set<Identity>, log: Log, id: Identity, x: Sighting)
    ensures forall m, sel {:trigger Total(base, Record(log, id, x), m, sel)} ::
      Total(base, Record(log, id, x), m, sel)
      == Total(base, log, m, sel) + (if Accepts(sel, x) then Delta(base, id, Of(log, id), x, m) else 0)
  {
    forall m, sel
      ensures Total(base, Record(log, id, x), m, sel)
        == Total(base, log, m, sel) + (if Accepts(sel, x) then Delta(base, id, Of(log, id), x, m) else 0)
    {
      var log' := Record(log, id, x);
      assert log'.Keys == log.Keys + {id};
      var s := Of(log, id);
      assert Init(s + [x]) == s && Last(s + [x]) == x;
      assert Of(log', id) == s + [x];
      assert FlowFn(base, log', m, sel)(id) == Flow(base, id, s + [x], m, sel);
      assert FlowFn(base, log, m, sel)(id) == Flow(base, id, s, m, sel);
      SumBump(log.Keys, id, FlowFn(base, log, m, sel), FlowFn(base, log', m, sel));
    }
  }

  // ---------- loads and peaks ----------

  /** Resident bytes (or, with heads, process count) of a snapshot, in one bucket or in all. */
  function Load(d: seq<Reading>, bucket: Option<string>, heads: bool): nat {
    if d == [] then 0
    else
      var r := Last(d);
      Load(Init(d), bucket, heads)
      + (if bucket.None? || bucket.value == r.bucket then (if heads then 1 else r.rss) else 0)
  }

  function Peak(h: History, bucket: Option<string>, heads: bool): nat {
    if h == [] then 0 else Max(Peak(Init(h), bucket, heads), Load(Last(h), bucket, heads))
  }

  /** The processes ever seen in a bucket. */
  ghost function Members(log: Log, bucket: string): set<Identity> {
    set id | id in log && exists k :: 0 <= k < |log[id]| && log[id][k].reading.bucket == bucket
  }
}
