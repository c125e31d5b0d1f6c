/**
 * The bookkeeping of one I/O key (identity and field): last valid value, open gap, baseline gap and
 * regression, updated one reading at a time, and what its sightings call for.
 */
module ResourceMarks {
  import opened Wrappers
  import opened ResourceSpec

  ghost predicate Ordered(s: seq<Sighting>, n: nat) {
    && (forall k :: 0 <= k < |s| ==> s[k].index < n)
    && (forall k, l :: 0 <= k < l < |s| ==> s[k].index < s[l].index)
  }

  /** The sightings s of id respect sample order, and id is in the baseline exactly when first seen in sample 0. */
  ghost predicate Placed(base: set<Identity>, id: Identity, s: seq<Sighting>, n: nat) {
    Ordered(s, n) && (s != [] ==> (id in base <==> s[0].index == 0))
  }

  // ---------- the marks of one key ----------

  datatype Marks = Marks(last: Option<int>, open: bool, baselineGap: bool, fell: bool)

  function Prior(m: Marks, inBase: bool): Option<int> {
    if m.last.Some? then m.last else if inBase then None else Some(0)
  }

  function Remark(m: Marks, inBase: bool, i: nat, v: Option<int>): Marks {
    if v.None? then
      if i == 0 && inBase then m.(baselineGap := true) else m.(open := true)
    else if Prior(m, inBase).None? then m.(last := v)
    else m.(last := v, open := false, fell := m.fell || v.value < Prior(m, inBase).value)
  }

  function Gain(m: Marks, inBase: bool, v: Option<int>): int {
    if v.None? || Prior(m, inBase).None? then 0 else Max(0, v.value - Prior(m, inBase).value)
  }

  predicate Drops(m: Marks, inBase: bool, v: Option<int>) {
    v.Some? && Prior(m, inBase).Some? && v.value < Prior(m, inBase).value
  }

  predicate Recovers(m: Marks, inBase: bool, v: Option<int>) {
    v.Some? && Prior(m, inBase).Some? && v.value >= Prior(m, inBase).value && m.open
  }

  /** The marks the sightings of an identity call for, said without reference to the order of updates. */
  function MarksOf(base: set<Identity>, id: Identity, s: seq<Sighting>, f: Field): Marks {
    var values := Values(s, Io(f));
    Marks(if values == [] then None else Some(Last(values)),
          OpenGap(base, id, s, f), BaselineGap(base, id, s, f), Fell(base, id, s, f))
  }

  /** The loop's dictionaries and sets about I/O keys. */
  datatype Gaps = Gaps(lastValid: map<Key, int>, open: set<Key>, irrecoverable: set<Key>, baseline: set<Key>,
                       regression: set<Key>) {

    function At(k: Key): Marks {
      Marks(if k in lastValid then Some(lastValid[k]) else None, k in open, k in baseline, k in regression)
    }

    ghost predicate Valid() {
      irrecoverable == baseline + regression
    }

    ghost predicate SameExcept(g: Gaps, key: Key) {
      forall k {:trigger At(k)} :: k != key ==> At(k) == g.At(k)
    }
  }

  /** One field of one reading: the delta to add to the sums, and the new marks of its key. */
  method AbsorbField(g: Gaps, i: nat, reading: Reading, inBase: bool, f: Field)
    returns (g': Gaps, delta: int, regressed: int, recovered: int)
    requires g.Valid()
    ensures g'.Valid() && g'.SameExcept(g, Key(reading.Id(), f))
    ensures var m, v := g.At(Key(reading.Id(), f)), Value(reading, Io(f));
      && g'.At(Key(reading.Id(), f)) == Remark(m, inBase, i, v)
      && delta == Gain(m, inBase, v)
      && regressed == (if Drops(m, inBase, v) then 1 else 0)
      && recovered == (if Recovers(m, inBase, v) then 1 else 0)
  {
    var key := Key(reading.Id(), f);
    g', delta, regressed, recovered := g, 0, 0, 0;
    if f !in reading.io {
      if i == 0 && inBase {
        g' := g.(irrecoverable := g.irrecoverable + {key}, baseline := g.baseline + {key});
      } else {
        g' := g.(open := g.open + {key});
      }
    } else {
      var current := reading.io[f];
      if key !in g.lastValid && inBase {
        g' := g.(lastValid := g.lastValid[key := current]);
      } else {
        var prior := if key in g.lastValid then g.lastValid[key] else 0;
        if current < prior {
          regressed := 1;
          g' := g.(irrecoverable := g.irrecoverable + {key}, regression := g.regression + {key},
                   open := g.open - {key}, lastValid := g.lastValid[key := current]);
        } else {
          delta := current - prior;
          recovered := if key in g.open then 1 else 0;
          g' := g.(lastValid := g.lastValid[key := current], open := g.open - {key});
        }
      }
    }
  }

  /** The loop over the I/O fields of one reading. */
  method AbsorbIo(g: Gaps, i: nat, reading: Reading, inBase: bool, bucketIo: map<Field, int>, sampleIo: map<Field, int>)
    returns (g': Gaps, bucketIo': map<Field, int>, sampleIo': map<Field, int>, regressed: int, recovered: int)
    requires g.Valid() && HasAll(bucketIo) && HasAll(sampleIo)
    ensures g'.Valid() && HasAll(bucketIo') && HasAll(sampleIo')
    ensures Remarked(g, g', reading, inBase, i, FIELD_COUNT)
    ensures Gained(g, bucketIo, bucketIo', reading, inBase, FIELD_COUNT)
    ensures Gained(g, sampleIo, sampleIo', reading, inBase, FIELD_COUNT)
    ensures regressed == TallyDrops(g, reading, inBase, FIELD_COUNT)
    ensures recovered == TallyRecoveries(g, reading, inBase, FIELD_COUNT)
  {
    g', bucketIo', sampleIo', regressed, recovered := g, bucketIo, sampleIo, 0, 0;
    for j := 0 to FIELD_COUNT
      invariant g'.Valid() && HasAll(bucketIo') && HasAll(sampleIo')
      invariant Remarked(g, g', reading, inBase, i, j)
      invariant Gained(g, bucketIo, bucketIo', reading, inBase, j)
      invariant Gained(g, sampleIo, sampleIo', reading, inBase, j)
      invariant regressed == TallyDrops(g, reading, inBase, j)
      invariant recovered == TallyRecoveries(g, reading, inBase, j)
    {
      var f: Field := j;
      ghost var g0, bucketIo0, sampleIo0 := g', bucketIo', sampleIo';
      var delta, drop, back;
      g', delta, drop, back := AbsorbField(g', i, reading, inBase, f);
      sampleIo' := sampleIo'[f := sampleIo'[f] + delta];
      bucketIo' := bucketIo'[f := bucketIo'[f] + delta];
      regressed, recovered := regressed + drop, recovered + back;
      StepRemarked(g, g0, g', reading, inBase, i, j);
      StepGained(g, bucketIo, bucketIo0, delta, reading, inBase, j);
      StepGained(g, sampleIo, sampleIo0, delta, reading, inBase, j);
    }
  }

  // ---------- the effect of one reading on the keys of its identity ----------

  ghost predicate Remarked(g: Gaps, g': Gaps, r: Reading, inBase: bool, i: nat, n: nat) {
    forall k: Key {:trigger g'.At(k)} ::
      g'.At(k) == if k.id == r.Id() && k.field < n then Remark(g.At(k), inBase, i, Value(r, Io(k.field))) else g.At(k)
  }

  ghost predicate Gained(g: Gaps, io: map<Field, int>, io': map<Field, int>, r: Reading, inBase: bool, n: nat)
    requires HasAll(io) && HasAll(io')
  {
    forall f: Field {:trigger io'[f]} ::
      io'[f] == io[f] + (if f < n then Gain(g.At(Key(r.Id(), f)), inBase, Value(r, Io(f))) else 0)
  }

  lemma StepRemarked(g: Gaps, g1: Gaps, g2: Gaps, r: Reading, inBase: bool, i: nat, j: nat)
    requires j < FIELD_COUNT && Remarked(g, g1, r, inBase, i, j)
    requires g2.SameExcept(g1, Key(r.Id(), j))
    requires g2.At(Key(r.Id(), j)) == Remark(g1.At(Key(r.Id(), j)), inBase, i, Value(r, Io(j)))
    ensures Remarked(g, g2, r, inBase, i, j + 1)
    ensures g1.At(Key(r.Id(), j)) == g.At(Key(r.Id(), j))
    ensures TallyDrops(g, r, inBase, j + 1)
      == TallyDrops(g, r, inBase, j) + (if Drops(g.At(Key(r.Id(), j)), inBase, Value(r, Io(j))) then 1 else 0)
    ensures TallyRecoveries(g, r, inBase, j + 1)
      == TallyRecoveries(g, r, inBase, j) + (if Recovers(g.At(Key(r.Id(), j)), inBase, Value(r, Io(j))) then 1 else 0)
  {
  }

  lemma StepGained(g: Gaps, io: map<Field, int>, io1: map<Field, int>, delta: int, r: Reading, inBase: bool, j: nat)
    requires j < FIELD_COUNT && HasAll(io) && HasAll(io1) && Gained(g, io, io1, r, inBase, j)
    requires delta == Gain(g.At(Key(r.Id(), j)), inBase, Value(r, Io(j)))
    ensures var io2 := io1[j := io1[j] + delta];
      HasAll(io2) && Gained(g, io, io2, r, inBase, j + 1)
  {
  }

  ghost function TallyDrops(g: Gaps, r: Reading, inBase: bool, n: nat): nat
    requires n <= FIELD_COUNT
  {
    if n == 0 then 0 else
      TallyDrops(g, r, inBase, n - 1)
      + (if Drops(g.At(Key(r.Id(), n - 1)), inBase, Value(r, Io(n - 1))) then 1 else 0)
  }

  ghost function TallyRecoveries(g: Gaps, r: Reading, inBase: bool, n: nat): nat
    requires n <= FIELD_COUNT
  {
    if n == 0 then 0 else
      TallyRecoveries(g, r, inBase, n - 1)
      + (if Recovers(g.At(Key(r.Id(), n - 1)), inBase, Value(r, Io(n - 1))) then 1 else 0)
  }

  ghost predicate HasAll(io: map<Field, int>) {
    forall f: Field :: f in io
  }

  // ---------- one more sighting of one key ----------

  lemma AppendValue(s: seq<Sighting>, x: Sighting, c: Counter)
    ensures Values(s + [x], c)
      == Values(s, c) + (if Value(x.reading, c).Some? then [Value(x.reading, c).value] else [])
  {
    assert Init(s + [x]) == s;
  }

  lemma AppendChain(base: set<Identity>, id: Identity, s: seq<Sighting>, x: Sighting, c: Counter)
    ensures Chain(base, id, s + [x], c)
      == Chain(base, id, s, c) + (if Value(x.reading, c).Some? then [Value(x.reading, c).value] else [])
  {
    AppendValue(s, x, c);
  }

  lemma AppendRise(xs: seq<int>, v: int)
    ensures Rises(xs + [v]) == Rises(xs) + (if xs == [] then 0 else Max(0, v - Last(xs)))
    ensures Falls(xs + [v]) == Falls(xs) + (if xs != [] && v < Last(xs) then 1 else 0)
  {
    assert Init(xs + [v]) == xs;
  }

  lemma {:induction false} NoValues(s: seq<Sighting>, f: Field)
    ensures Values(s, Io(f)) == [] <==> forall k :: 0 <= k < |s| ==> Missing(s[k], f)
  {
    if s != [] {
      NoValues(Init(s), f);
    }
  }

  lemma PriorIsChainEnd(base: set<Identity>, id: Identity, s: seq<Sighting>, f: Field)
    ensures var chain := Chain(base, id, s, Io(f));
      Prior(MarksOf(base, id, s, f), id in base) == if chain == [] then None else Some(Last(chain))
  {
  }

  lemma AppendOpen(base: set<Identity>, id: Identity, s: seq<Sighting>, x: Sighting, f: Field)
    requires Ordered(s, x.index)
    ensures s == [] ==> !OpenGap(base, id, s, f)
    ensures OpenGap(base, id, s + [x], f) ==
      if Missing(x, f) then x.index > 0
      else OpenGap(base, id, s, f) && id in base && Values(s, Io(f)) == []
  {
    hide MissedLater, Values;
    AppendValue(s, x, Io(f));
    NoValues(s, f);
    if !Missing(x, f) {
      AppendMissedLater(s, x, f);
      if s != [] && Missing(Last(s), f) && Values(s, Io(f)) == [] {
        MissedThroughout(s, f, x.index);
      }
    }
  }

  lemma AppendMissedLater(s: seq<Sighting>, x: Sighting, f: Field)
    requires !Missing(x, f)
    ensures MissedLater(s + [x], f) == MissedLater(s, f)
    ensures s == [] ==> !MissedLater(s, f)
  {
    assert forall k :: 0 <= k < |s| ==> (s + [x])[k] == s[k];
  }

  lemma MissedThroughout(s: seq<Sighting>, f: Field, n: nat)
    requires Ordered(s, n) && s != [] && forall k :: 0 <= k < |s| ==> Missing(s[k], f)
    ensures MissedLater(s, f) <==> Last(s).index > 0
  {
  }

  lemma AppendBaselineGap(base: set<Identity>, id: Identity, s: seq<Sighting>, x: Sighting, f: Field)
    requires Placed(base, id, s, x.index)
    requires s == [] ==> (id in base <==> x.index == 0)
    ensures BaselineGap(base, id, s + [x], f)
      == (BaselineGap(base, id, s, f) || (Missing(x, f) && x.index == 0 && id in base))
  {
    assert (s + [x])[0] == if s == [] then x else s[0];
  }

  lemma AppendFell(base: set<Identity>, id: Identity, s: seq<Sighting>, x: Sighting, f: Field)
    ensures Fell(base, id, s + [x], f) == (Fell(base, id, s, f) || Falling(base, id, s, x, f))
  {
    AppendChain(base, id, s, x, Io(f));
    if !Missing(x, f) {
      AppendRise(Chain(base, id, s, Io(f)), x.reading.io[f]);
    }
  }

  lemma FallingMeans(base: set<Identity>, id: Identity, s: seq<Sighting>, x: Sighting, f: Field)
    ensures var prior, v := Prior(MarksOf(base, id, s, f), id in base), Value(x.reading, Io(f));
      Falling(base, id, s, x, f) <==> v.Some? && prior.Some? && v.value < prior.value
  {
    PriorIsChainEnd(base, id, s, f);
  }

  /** Updating the marks at a sighting keeps them equal to what the sightings call for. */
  lemma AppendMarks(base: set<Identity>, id: Identity, s: seq<Sighting>, x: Sighting, f: Field)
    requires Placed(base, id, s, x.index)
    requires s == [] ==> (id in base <==> x.index == 0)
    ensures MarksOf(base, id, s + [x], f)
      == Remark(MarksOf(base, id, s, f), id in base, x.index, Value(x.reading, Io(f)))
  {
    var m, m' := MarksOf(base, id, s, f), MarksOf(base, id, s + [x], f);
    var v := Value(x.reading, Io(f));
    hide OpenGap, BaselineGap, Fell, Falling, Chain, Values;
    FallingMeans(base, id, s, x, f);
    assert m'.last == if v.Some? then v else m.last by { AppendValue(s, x, Io(f)); }
    assert m'.fell == (m.fell || (v.Some? && Prior(m, id in base).Some? && v.value < Prior(m, id in base).value)) by {
      AppendFell(base, id, s, x, f);
    }
    AppendBaselineGap(base, id, s, x, f);
    AppendOpen(base, id, s, x, f);
    assert x.index == 0 ==> s == [] by {
      if s != [] { assert s[0].index < x.index; }
    }
    assert m'.open == if v.None? then x.index > 0 else m.open && Prior(m, id in base).None?;
  }
}
