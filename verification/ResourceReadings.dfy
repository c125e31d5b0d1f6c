/**
 * The dictionaries, loads and sightings of a run in terms of the readings its snapshots list.
 *
 * A snapshot may list an identity twice; the reading that counts is the last one.
 */
module ResourceReadings {
  import opened SetSums
  import opened Wrappers
  import opened ResourceSpec
  import opened ResourceMarks
  import opened ResourceAggregate

  /** No later reading of the snapshot is of the same identity. */
  predicate IsLatest(readings: seq<Reading>, i: int) {
    0 <= i < |readings| && forall j :: i < j < |readings| ==> readings[j].Id() != readings[i].Id()
  }

  /** The readings that count, in one bucket or in all. */
  function Latest(readings: seq<Reading>, bucket: Option<string>): set<Reading> {
    set i | 0 <= i < |readings| && IsLatest(readings, i) && (bucket.None? || readings[i].bucket == bucket.value)
      :: readings[i]
  }

  lemma {:induction false} PutHolds(d: seq<Reading>, x: Reading)
    requires Distinct(d)
    ensures forall r :: r in Put(d, x) <==> r == x || (r in d && r.Id() != x.Id())
  {
    if d != [] {
      assert d == [d[0]] + d[1..];
      if d[0].Id() == x.Id() {
        assert forall r :: r in d[1..] ==> r.Id() != x.Id();
      } else {
        PutHolds(d[1..], x);
      }
    }
  }

  /** The dictionary of a snapshot holds exactly the readings that are the last of their identity. */
  lemma {:induction false} CurrentIs(readings: seq<Reading>)
    ensures Distinct(Current(readings))
    ensures forall r :: r in Current(readings) <==> r in Latest(readings, None)
  {
    CurrentDistinct(readings);
    if readings != [] {
      var before, x := Init(readings), Last(readings);
      CurrentIs(before);
      PutHolds(Current(before), x);
      LatestStep(before, x);
      assert readings == before + [x];
    }
  }

  lemma LatestStep(before: seq<Reading>, x: Reading)
    ensures forall r :: r in Latest(before + [x], None) <==> r == x || (r in Latest(before, None) && r.Id() != x.Id())
  {
    var all := before + [x];
    assert IsLatest(all, |before|) && all[|before|] == x;
    forall i | 0 <= i < |before|
      ensures all[i] == before[i] && (IsLatest(all, i) <==> IsLatest(before, i) && before[i].Id() != x.Id())
    {
      assert forall j :: 0 <= j < |before| ==> all[j] == before[j];
      assert all[|before|] == x;
    }
    forall r
      ensures r in Latest(all, None) <==> r == x || (r in Latest(before, None) && r.Id() != x.Id())
    {
      if r in Latest(all, None) {
        var i :| 0 <= i < |all| && IsLatest(all, i) && all[i] == r;
        assert i < |before| ==> IsLatest(before, i) && before[i] == r;
      }
      if r in Latest(before, None) && r.Id() != x.Id() {
        var i :| 0 <= i < |before| && IsLatest(before, i) && before[i] == r;
        assert IsLatest(all, i) && all[i] == r;
      }
    }
  }

  function IdsOf(readings: seq<Reading>): set<Identity> {
    set i | 0 <= i < |readings| :: readings[i].Id()
  }

  /** The identities occurring anywhere in the run. */
  function IdsIn(snapshots: seq<Snapshot>): set<Identity> {
    set k, i | 0 <= k < |snapshots| && 0 <= i < |snapshots[k].readings| :: snapshots[k].readings[i].Id()
  }

  /** Every listed identity has a reading that counts. */
  lemma {:induction false} HasLatest(readings: seq<Reading>, i: nat) returns (k: nat)
    requires i < |readings|
    ensures k < |readings| && IsLatest(readings, k) && readings[k].Id() == readings[i].Id()
    decreases |readings| - i
  {
    if j :| i < j < |readings| && readings[j].Id() == readings[i].Id() {
      k := HasLatest(readings, j);
    } else {
      k := i;
    }
  }

  lemma CurrentIds(readings: seq<Reading>)
    ensures Ids(Current(readings)) == IdsOf(readings)
  {
    CurrentIs(readings);
    forall id
      ensures id in Ids(Current(readings)) <==> id in IdsOf(readings)
    {
      if id in Ids(Current(readings)) {
        var r :| r in Current(readings) && r.Id() == id;
        assert r in Latest(readings, None);
      }
      if id in IdsOf(readings) {
        var i :| 0 <= i < |readings| && readings[i].Id() == id;
        var k := HasLatest(readings, i);
        assert readings[k] in Latest(readings, None);
      }
    }
  }

  // ---------- loads ----------

  ghost function RssFn(): Reading -> int {
    (r: Reading) => r.rss
  }

  function Within(d: seq<Reading>, bucket: Option<string>): set<Reading> {
    set r | r in d && (bucket.None? || r.bucket == bucket.value)
  }

  lemma {:induction false} LoadIs(d: seq<Reading>, bucket: Option<string>)
    requires Distinct(d)
    ensures Load(d, bucket, true) == |Within(d, bucket)|
    ensures Load(d, bucket, false) == Sum(Within(d, bucket), RssFn())
  {
    if d != [] {
      hide Sum, Within;
      LoadIs(Init(d), bucket);
      WithinGrows(d, bucket);
    } else {
      assert Within(d, bucket) == {};
    }
  }

  lemma WithinGrows(d: seq<Reading>, bucket: Option<string>)
    requires d != [] && Distinct(d)
    ensures var some := if bucket.None? || Last(d).bucket == bucket.value then 1 else 0;
      && |Within(d, bucket)| == |Within(Init(d), bucket)| + some
      && Sum(Within(d, bucket), RssFn()) == Sum(Within(Init(d), bucket), RssFn()) + some * Last(d).rss
  {
    hide Sum;
    var x := Last(d);
    assert d == Init(d) + [x];
    assert x !in Init(d);
    if bucket.None? || x.bucket == bucket.value {
      assert Within(d, bucket) == Within(Init(d), bucket) + {x};
      SumSplit(Within(d, bucket), x, RssFn());
      assert Within(d, bucket) - {x} == Within(Init(d), bucket);
    } else {
      assert Within(d, bucket) == Within(Init(d), bucket);
    }
  }

  /** Processes or resident bytes of one snapshot, over the readings that count. */
  ghost function LoadOf(readings: seq<Reading>, bucket: Option<string>, heads: bool): int {
    if heads then |Latest(readings, bucket)| else Sum(Latest(readings, bucket), RssFn())
  }

  lemma CurrentLoad(readings: seq<Reading>, bucket: Option<string>)
    ensures |Current(readings)| == LoadOf(readings, None, true)
    ensures Load(Current(readings), bucket, true) == LoadOf(readings, bucket, true)
    ensures Load(Current(readings), bucket, false) == LoadOf(readings, bucket, false)
  {
    CurrentIs(readings);
    var d := Current(readings);
    LoadIs(d, bucket);
    LoadIs(d, None);
    HeadCount(d);
    assert Within(d, None) == Latest(readings, None);
    assert Within(d, bucket) == Latest(readings, bucket);
  }

  /** The greatest load of any snapshot, and 0 when there is none. */
  ghost predicate IsPeak(v: int, snapshots: seq<Snapshot>, bucket: Option<string>, heads: bool) {
    && v >= 0
    && (forall k :: 0 <= k < |snapshots| ==> LoadOf(snapshots[k].readings, bucket, heads) <= v)
    && (v == 0 || exists k :: 0 <= k < |snapshots| && LoadOf(snapshots[k].readings, bucket, heads) == v)
  }

  lemma {:induction false} HistoriesAre(snapshots: seq<Snapshot>)
    ensures forall k :: 0 <= k < |snapshots| ==> Histories(snapshots)[k] == Current(snapshots[k].readings)
  {
    if snapshots != [] {
      HistoriesAre(Init(snapshots));
    }
  }

  lemma {:induction false} PeakIs(snapshots: seq<Snapshot>, bucket: Option<string>, heads: bool)
    ensures IsPeak(Peak(Histories(snapshots), bucket, heads), snapshots, bucket, heads)
  {
    if snapshots != [] {
      hide IsPeak, LoadOf, Load, Current;
      var before, last := Init(snapshots), Last(snapshots);
      PeakIs(before, bucket, heads);
      CurrentLoad(last.readings, bucket);
      assert Init(Histories(snapshots)) == Histories(before);
      assert snapshots == before + [last];
      PeakGrows(Peak(Histories(before), bucket, heads), before, last, bucket, heads);
    } else {
      assert IsPeak(0, snapshots, bucket, heads);
    }
  }

  lemma PeakGrows(v: int, before: seq<Snapshot>, last: Snapshot, bucket: Option<string>, heads: bool)
    requires IsPeak(v, before, bucket, heads)
    ensures IsPeak(Max(v, LoadOf(last.readings, bucket, heads)), before + [last], bucket, heads)
  {
    hide LoadOf;
    var all := before + [last];
    assert all[|before|] == last;
    assert forall k :: 0 <= k < |before| ==> all[k] == before[k];
    if v != 0 {
      var k :| 0 <= k < |before| && LoadOf(before[k].readings, bucket, heads) == v;
      assert LoadOf(all[k].readings, bucket, heads) == v;
    }
    assert LoadOf(all[|before|].readings, bucket, heads) == LoadOf(last.readings, bucket, heads);
  }

  // ---------- identities and sightings ----------

  lemma {:induction false} SeenIs(snapshots: seq<Snapshot>)
    ensures Seen(Histories(snapshots)) == IdsIn(snapshots)
  {
    if snapshots != [] {
      var before, last := Init(snapshots), Last(snapshots);
      SeenIs(before);
      CurrentIds(last.readings);
      assert Init(Histories(snapshots)) == Histories(before);
      assert IdsIn(snapshots) == IdsIn(before) + IdsOf(last.readings) by {
        assert snapshots == before + [last];
        assert snapshots[|before|] == last;
        assert forall k :: 0 <= k < |before| ==> snapshots[k] == before[k];
      }
    }
  }

  /** The sample lists the identity, and this is its reading that counts. */
  predicate IsSighting(x: Sighting, snapshots: seq<Snapshot>, id: Identity) {
    x.index < |snapshots| && x.reading.Id() == id && x.reading in Latest(snapshots[x.index].readings, None)
  }

  /** An identity is sighted in exactly the samples that list it, in order. */
  lemma {:induction false} SightingsAre(snapshots: seq<Snapshot>, id: Identity)
    ensures forall x :: x in Sightings(Histories(snapshots), id) <==> IsSighting(x, snapshots, id)
    ensures Ordered(Sightings(Histories(snapshots), id), |snapshots|)
  {
    SightingsPlaced(Histories(snapshots), id);
    if snapshots != [] {
      hide Latest, Current, Find;
      var h, before, last := Histories(snapshots), Init(snapshots), Last(snapshots).readings;
      SightingsAre(before, id);
      assert Init(h) == Histories(before) && Last(h) == Current(last);
      FoundIsLatest(last, id);
      forall x: Sighting
        ensures x in Sightings(h, id) <==> IsSighting(x, snapshots, id)
      {
        assert x.index < |before| ==> snapshots[x.index] == before[x.index];
        assert x.index == |before| ==> snapshots[x.index].readings == last;
      }
    }
  }

  lemma FoundIsLatest(readings: seq<Reading>, id: Identity)
    ensures forall r :: r in Latest(readings, None) && r.Id() == id <==> Find(Current(readings), id) == Some(r)
  {
    var d := Current(readings);
    CurrentIs(readings);
    FindMeans(d, id);
    forall r | r in d && r.Id() == id
      ensures Find(d, id) == Some(r)
    {
      var i :| 0 <= i < |d| && d[i] == r;
      var j :| 0 <= j < |d| && Some(d[j]) == Find(d, id);
      assert i == j;
    }
  }

  lemma BaselineIs(snapshots: seq<Snapshot>)
    ensures Baseline(Histories(snapshots)) == if snapshots == [] then {} else IdsOf(snapshots[0].readings)
  {
    if snapshots != [] {
      HistoriesAre(snapshots);
      CurrentIds(snapshots[0].readings);
    }
  }

  /** The identities with a reading that counts in the bucket. */
  function IdsInBucket(snapshots: seq<Snapshot>, bucket: string): set<Identity> {
    set k, r | 0 <= k < |snapshots| && r in Latest(snapshots[k].readings, Some(bucket)) :: r.Id()
  }

  lemma LatestInBucket(bucket: string)
    ensures forall readings: seq<Reading>, r: Reading ::
      r in Latest(readings, Some(bucket)) <==> r in Latest(readings, None) && r.bucket == bucket
  {
    forall readings: seq<Reading>, r: Reading
      ensures r in Latest(readings, Some(bucket)) <==> r in Latest(readings, None) && r.bucket == bucket
    {
      if r in Latest(readings, None) && r.bucket == bucket {
        var i :| 0 <= i < |readings| && IsLatest(readings, i) && readings[i] == r;
        assert IsLatest(readings, i) && readings[i].bucket == bucket;
      }
    }
  }

  lemma MembersAre(snapshots: seq<Snapshot>, bucket: string)
    ensures Members(LogOf(Histories(snapshots)), bucket) == IdsInBucket(snapshots, bucket)
  {
    var h := Histories(snapshots);
    var log := LogOf(h);
    hide Latest, Seen, Sightings, Current;
    LatestInBucket(bucket);
    forall id
      ensures id in Members(log, bucket) <==> id in IdsInBucket(snapshots, bucket)
    {
      SightingsAre(snapshots, id);
      SeenMeans(h, id);
      if id in Members(log, bucket) {
        var k :| 0 <= k < |log[id]| && log[id][k].reading.bucket == bucket;
        assert IsSighting(log[id][k], snapshots, id);
      }
      if id in IdsInBucket(snapshots, bucket) {
        var k, r :| 0 <= k < |snapshots| && r in Latest(snapshots[k].readings, Some(bucket)) && r.Id() == id;
        assert IsSighting(Sighting(k, r), snapshots, id);
        assert Sighting(k, r) in Sightings(h, id);
      }
    }
  }
}
