/**
 * Calls of an optional helper binary, with the process-wide cache of what its capability probe said.
 *
 * What a call meets in the outside world is part of its description: where the helper resolves to, the file's time and
 * size when the cache is asked and again when it is filled, what the probe and the request give, and the fallback value.
 */
module HelperCache {
  import opened Wrappers
  import opened Json

  datatype Stamp = Stamp(mtime: int, size: int)
  datatype Key = Key(path: string, stamp: Stamp)

  /** What running the helper gives: a JSON object, or why there is none. */
  datatype Outcome = Payload(body: map<string, Json>) | Failed(kind: string)

  datatype Call = Call(enabled: bool, path: Option<string>, before: Option<Stamp>, after: Option<Stamp>,
                       probe: Outcome, response: Outcome, capability: string, fallback: Json)

  datatype Result = Result(value: Json, helperUsed: bool, diagnostics: seq<string>, path: Option<string>)

  type Cache = map<Key, map<string, Json>>

  function KeyOf(path: string, stamp: Option<Stamp>): Option<Key> {
    if stamp.Some? then Some(Key(path, stamp.value)) else None
  }

  /** The number one, as the source compares it: the truth value true equals it. */
  predicate IsOne(j: Json) {
    j == Num(1) || j == Bool(true)
  }

  function EnvelopeFailure(body: map<string, Json>): Option<string> {
    if !IsOne(Get(Obj(body), "schema_version")) then Some("unknown_schema")
    else
      var listed := Get(Obj(body), "capabilities");
      if !listed.Arr? || (exists j :: j in listed.items && !j.Str?) then Some("unknown_schema") else None
  }

  predicate ValidEnvelope(body: map<string, Json>) {
    EnvelopeFailure(body).None?
  }

  function CapabilityFailure(body: map<string, Json>, capability: string): Option<string> {
    if EnvelopeFailure(body).Some? then EnvelopeFailure(body)
    else if Str(capability) !in Get(Obj(body), "capabilities").items then Some("unsupported_capability")
    else None
  }

  function ResponseFailure(body: map<string, Json>, capability: string): Option<string> {
    var j := Obj(body);
    if !IsOne(Get(j, "schema_version")) then Some("unknown_schema")
    else if Get(j, "ok") != Bool(true) then Some("nonzero_exit")
    else if Get(j, "capability") != Str(capability) then Some("unsupported_capability")
    else None
  }

  function FellBack(c: Call, kind: string): Result {
    Result(c.fallback, false, [kind], None)
  }

  // ---------- the cached call ----------

  class HelperCaller {
    var cache: Cache

    ghost predicate Valid()
      reads this
    {
      forall key :: key in cache ==> ValidEnvelope(cache[key])
    }

    constructor ()
      ensures Valid() && cache == map[]
    {
      cache := map[];
    }

    method Lookup(path: string, stamp: Option<Stamp>) returns (found: Option<map<string, Json>>)
      ensures found == Cached(cache, path, stamp)
    {
      var key := KeyOf(path, stamp);
      if key.None? {
        return None;
      }
      if key.value in cache {
        return Some(cache[key.value]);
      }
      return None;
    }

    method Store(path: string, stamp: Option<Stamp>, body: map<string, Json>)
      requires Valid() && ValidEnvelope(body)
      modifies this
      ensures Valid() && cache == Stored(old(cache), path, stamp, body)
    {
      var key := KeyOf(path, stamp);
      if key.Some? {
        cache := cache[key.value := body];
      }
    }

    /** One call: its result and the cache it leaves. */
    method Ask(c: Call) returns (r: Result)
      requires Valid()
      modifies this
      ensures Valid()
      ensures r == Answer(old(cache), c)
      ensures cache == CacheAfter(old(cache), c)
    {
      if !c.enabled {
        return FellBack(c, "disabled");
      }
      if c.path.None? {
        return FellBack(c, "missing");
      }
      var metadata := Lookup(c.path.value, c.before);
      if metadata.None? {
        if c.probe.Failed? {
          return FellBack(c, c.probe.kind);
        }
        metadata := Some(c.probe.body);
        var invalid := EnvelopeFailure(metadata.value);
        if invalid.Some? {
          return FellBack(c, invalid.value);
        }
        Store(c.path.value, c.after, metadata.value);
      }
      var unsupported := CapabilityFailure(metadata.value, c.capability);
      if unsupported.Some? {
        return FellBack(c, unsupported.value);
      }
      if c.response.Failed? {
        return FellBack(c, c.response.kind);
      }
      var refused := ResponseFailure(c.response.body, c.capability);
      if refused.Some? {
        return FellBack(c, refused.value);
      }
      return Result(Get(Obj(c.response.body), "payload"), true, [], c.path);
    }
  }

  // ---------- what a call answers ----------

  function Cached(cache: Cache, path: string, stamp: Option<Stamp>): Option<map<string, Json>> {
    var key := KeyOf(path, stamp);
    if key.Some? && key.value in cache then Some(cache[key.value]) else None
  }

  function Stored(cache: Cache, path: string, stamp: Option<Stamp>, body: map<string, Json>): Cache {
    var key := KeyOf(path, stamp);
    if key.Some? then cache[key.value := body] else cache
  }

  /** The answer of a call that has seen the probe's outcome itself. */
  function AnswerFrom(probe: Outcome, c: Call): Result {
    if probe.Failed? then FellBack(c, probe.kind)
    else if CapabilityFailure(probe.body, c.capability).Some? then
      FellBack(c, CapabilityFailure(probe.body, c.capability).value)
    else if c.response.Failed? then FellBack(c, c.response.kind)
    else if ResponseFailure(c.response.body, c.capability).Some? then
      FellBack(c, ResponseFailure(c.response.body, c.capability).value)
    else Result(Get(Obj(c.response.body), "payload"), true, [], c.path)
  }

  predicate HelperAccepts(cache: Cache, c: Call)
    requires c.path.Some? && c.response.Payload?
  {
    var hit, response := Cached(cache, c.path.value, c.before), Obj(c.response.body);
    && (hit.Some? || c.probe.Payload?)
    && var body := if hit.Some? then hit.value else c.probe.body;
    && ValidEnvelope(body) && Str(c.capability) in Get(Obj(body), "capabilities").items
    && IsOne(Get(response, "schema_version")) && Get(response, "ok") == Bool(true)
    && Get(response, "capability") == Str(c.capability)
  }

  /** With any cache, an answer is the helper's without a diagnostic, carrying the response's payload (null if it has
      none), or the fallback value with exactly one; and it is the helper's exactly when the helper is enabled and found, its (possibly cached) probe is a valid envelope listing
      the capability, and its response is of version one, accepted, and for that capability. */
  function Answer(cache: Cache, c: Call): (r: Result)
    ensures if r.helperUsed then r.diagnostics == [] && r.path == c.path && c.path.Some?
            else |r.diagnostics| == 1 && r.value == c.fallback && r.path == None
    ensures r.helperUsed <==> c.enabled && c.path.Some? && c.response.Payload? && HelperAccepts(cache, c)
    ensures r.helperUsed ==>
      r.value == if "payload" in c.response.body then c.response.body["payload"] else Null
  {
    if !c.enabled then FellBack(c, "disabled")
    else if c.path.None? then FellBack(c, "missing")
    else
      var hit := Cached(cache, c.path.value, c.before);
      AnswerFrom(if hit.Some? then Payload(hit.value) else c.probe, c)
  }

  /** Whether a check of a call fails, and the diagnostic it then gives. */
  datatype Check = Check(fails: bool, kind: string)

  /** A field of an object, if it is there. */
  predicate Holds(body: map<string, Json>, key: string, values: set<Json>) {
    key in body && body[key] in values
  }

  predicate Lists(body: map<string, Json>, key: string) {
    key in body && body[key].Arr? && forall i :: 0 <= i < |body[key].items| ==> body[key].items[i].Str?
  }

  /** The checks of a call in the order in which they are made. */
  function Checks(cache: Cache, c: Call): seq<Check> {
    var key := if c.path.Some? && c.before.Some? then Some(Key(c.path.value, c.before.value)) else None;
    var cached := key.Some? && key.value in cache;
    var body := if cached then cache[key.value] else if c.probe.Payload? then c.probe.body else map[];
    var response := if c.response.Payload? then c.response.body else map[];
    [Check(!c.enabled, "disabled"),
     Check(c.path.None?, "missing"),
     Check(!cached && c.probe.Failed?, if c.probe.Failed? then c.probe.kind else ""),
     Check(!Holds(body, "schema_version", {Num(1), Bool(true)}) || !Lists(body, "capabilities"), "unknown_schema"),
     Check(!Lists(body, "capabilities") || Str(c.capability) !in body["capabilities"].items, "unsupported_capability"),
     Check(c.response.Failed?, if c.response.Failed? then c.response.kind else ""),
     Check(!Holds(response, "schema_version", {Num(1), Bool(true)}), "unknown_schema"),
     Check(!Holds(response, "ok", {Bool(true)}), "nonzero_exit"),
     Check(!Holds(response, "capability", {Str(c.capability)}), "unsupported_capability")]
  }

  lemma EnvelopeMeans(body: map<string, Json>)
    ensures EnvelopeFailure(body)
      == if Holds(body, "schema_version", {Num(1), Bool(true)}) && Lists(body, "capabilities") then None
         else Some("unknown_schema")
  {
    if Lists(body, "capabilities") {
      assert forall j :: j in body["capabilities"].items ==> j.Str?;
    } else if "capabilities" in body && body["capabilities"].Arr? {
      var i :| 0 <= i < |body["capabilities"].items| && !body["capabilities"].items[i].Str?;
      assert body["capabilities"].items[i] in body["capabilities"].items;
    }
  }

  lemma CapabilityMeans(body: map<string, Json>, capability: string)
    ensures CapabilityFailure(body, capability)
      == if !(Holds(body, "schema_version", {Num(1), Bool(true)}) && Lists(body, "capabilities")) then Some("unknown_schema")
         else if Str(capability) !in body["capabilities"].items then Some("unsupported_capability")
         else None
  {
    EnvelopeMeans(body);
    hide EnvelopeFailure;
  }

  lemma ResponseMeans(body: map<string, Json>, capability: string)
    ensures ResponseFailure(body, capability)
      == if !Holds(body, "schema_version", {Num(1), Bool(true)}) then Some("unknown_schema")
         else if !Holds(body, "ok", {Bool(true)}) then Some("nonzero_exit")
         else if !Holds(body, "capability", {Str(capability)}) then Some("unsupported_capability")
         else None
  {
  }

  /** A call in which no check fails has the helper's answer; any other falls back with the diagnostic of the first check
      that fails. */
  lemma FirstFailureIsTold(cache: Cache, c: Call)
    ensures var checks, r := Checks(cache, c), Answer(cache, c);
      if forall n :: 0 <= n < |checks| ==> !checks[n].fails then
        r.helperUsed
      else
        exists n :: 0 <= n < |checks| && checks[n].fails && (forall m :: 0 <= m < n ==> !checks[m].fails)
                    && r == Result(c.fallback, false, [checks[n].kind], None)
  {
    hide EnvelopeFailure, CapabilityFailure, ResponseFailure, HelperAccepts, Holds, Lists, ValidEnvelope;
    if c.enabled && c.path.Some? {
      var hit := Cached(cache, c.path.value, c.before);
      if hit.Some? || c.probe.Payload? {
        CapabilityMeans(if hit.Some? then hit.value else c.probe.body, c.capability);
      }
      if c.response.Payload? {
        ResponseMeans(c.response.body, c.capability);
      }
    }
    var checks := Checks(cache, c);
    var n := FirstFailing(checks, 0);
    assert |checks| == 9;
    assert n > 0 ==> !checks[0].fails;
    assert n > 1 ==> !checks[1].fails;
    assert n > 2 ==> !checks[2].fails;
    assert n > 3 ==> !checks[3].fails;
    assert n > 4 ==> !checks[4].fails;
    assert n > 5 ==> !checks[5].fails;
    assert n > 6 ==> !checks[6].fails;
    assert n > 7 ==> !checks[7].fails;
    assert n > 8 ==> !checks[8].fails;
    if n < 9 {
      assert Answer(cache, c) == Result(c.fallback, false, [checks[n].kind], None);
    }
  }

  /** The place of the first check from n on that fails, or the end. */
  function FirstFailing(checks: seq<Check>, n: nat): (m: nat)
    requires n <= |checks|
    ensures n <= m <= |checks| && (forall k :: n <= k < m ==> !checks[k].fails) && (m < |checks| ==> checks[m].fails)
    decreases |checks| - n
  {
    if n == |checks| || checks[n].fails then n else FirstFailing(checks, n + 1)
  }

  /** The same call with no cache. */
  function Uncached(c: Call): Result {
    Answer(map[], c)
  }

  predicate Fills(cache: Cache, c: Call) {
    && c.enabled && c.path.Some? && Cached(cache, c.path.value, c.before).None?
    && c.probe.Payload? && ValidEnvelope(c.probe.body)
  }

  function CacheAfter(cache: Cache, c: Call): Cache {
    if Fills(cache, c) then Stored(cache, c.path.value, c.after, c.probe.body) else cache
  }

  function CacheAfterAll(calls: seq<Call>): Cache {
    if calls == [] then map[] else CacheAfter(CacheAfterAll(calls[..|calls| - 1]), calls[|calls| - 1])
  }

  // ---------- when the cache tells the truth ----------

  /** says is what the probe of the file with a given path, time and size says when it says anything; on any call the
      probe may also fail.  What a call's probe says is about the file that the call found when it asked. */
  ghost predicate ProbedAsFound(c: Call, says: Key -> map<string, Json>) {
    c.path.Some? && c.before.Some? && c.probe.Payload? ==> c.probe.body == says(Key(c.path.value, c.before.value))
  }

  /** It is also about the file whose stamp it would be stored under. */
  ghost predicate StoresTruly(c: Call, says: Key -> map<string, Json>) {
    c.path.Some? && c.after.Some? && c.probe.Payload? ==> c.probe.body == says(Key(c.path.value, c.after.value))
  }

  ghost predicate CacheSpeaksFor(cache: Cache, says: Key -> map<string, Json>) {
    forall key :: key in cache ==> cache[key] == says(key) && ValidEnvelope(cache[key])
  }

  /** A fill keeps the cache true exactly when the probe speaks for the file found afterwards; if it speaks for the file
      found before, exactly when the two files say the same. */
  lemma FillIsTrueWhen(cache: Cache, c: Call, says: Key -> map<string, Json>)
    requires CacheSpeaksFor(cache, says) && Fills(cache, c)
    ensures CacheSpeaksFor(CacheAfter(cache, c), says) <==> StoresTruly(c, says)
    ensures ProbedAsFound(c, says) && c.before.Some? && c.after.Some? ==>
      (CacheSpeaksFor(CacheAfter(cache, c), says) <==>
        says(Key(c.path.value, c.before.value)) == says(Key(c.path.value, c.after.value)))
  {
    hide EnvelopeFailure;
    if c.after.Some? {
      var key := Key(c.path.value, c.after.value);
      assert key in CacheAfter(cache, c) && CacheAfter(cache, c)[key] == c.probe.body;
    }
  }

  /** Every call that fills the cache stores its probe truly. */
  ghost predicate TrueFills(calls: seq<Call>, says: Key -> map<string, Json>) {
    forall n :: 0 <= n < |calls| && Fills(CacheAfterAll(calls[..n]), calls[n]) ==> StoresTruly(calls[n], says)
  }

  ghost predicate TrueThroughout(calls: seq<Call>, says: Key -> map<string, Json>) {
    forall n :: 0 <= n <= |calls| ==> CacheSpeaksFor(CacheAfterAll(calls[..n]), says)
  }

  lemma OneMoreCall(calls: seq<Call>, n: nat)
    requires n < |calls|
    ensures CacheAfterAll(calls[..n + 1]) == CacheAfter(CacheAfterAll(calls[..n]), calls[n])
  {
    assert calls[..n + 1][..n] == calls[..n];
  }

  lemma {:induction false} CacheStaysTrue(calls: seq<Call>, says: Key -> map<string, Json>, n: nat)
    requires n <= |calls| && TrueFills(calls, says)
    ensures CacheSpeaksFor(CacheAfterAll(calls[..n]), says)
    decreases n
  {
    hide ValidEnvelope, EnvelopeFailure, StoresTruly, CacheAfterAll;
    if n == 0 {
      assert CacheAfterAll(calls[..0]) == map[] by { EmptyAtFirst(calls); }
    } else {
      CacheStaysTrue(calls, says, n - 1);
      OneMoreCall(calls, n - 1);
      if Fills(CacheAfterAll(calls[..n - 1]), calls[n - 1]) {
        FillIsTrueWhen(CacheAfterAll(calls[..n - 1]), calls[n - 1], says);
      }
    }
  }

  lemma EmptyAtFirst(calls: seq<Call>)
    ensures CacheAfterAll(calls[..0]) == map[]
  {
  }

  /** Over every call sequence the cache is true at every point exactly when every fill stores its probe truly. */
  lemma TrueThroughoutWhen(calls: seq<Call>, says: Key -> map<string, Json>)
    ensures TrueThroughout(calls, says) <==> TrueFills(calls, says)
  {
    hide CacheSpeaksFor, StoresTruly, Fills, CacheAfterAll, CacheAfter;
    if TrueFills(calls, says) {
      forall n | 0 <= n <= |calls|
        ensures CacheSpeaksFor(CacheAfterAll(calls[..n]), says)
      {
        CacheStaysTrue(calls, says, n);
      }
    }
    if TrueThroughout(calls, says) {
      forall n | 0 <= n < |calls| && Fills(CacheAfterAll(calls[..n]), calls[n])
        ensures StoresTruly(calls[n], says)
      {
        OneMoreCall(calls, n);
        assert CacheSpeaksFor(CacheAfterAll(calls[..n + 1]), says);
        FillIsTrueWhen(CacheAfterAll(calls[..n]), calls[n], says);
      }
    }
  }

  /** Over every sequence of calls with true fills, a call whose own probe would have succeeded answers exactly as it
      would have without the cache: the same value, the same use of the helper and the same diagnostics. */
  lemma CacheIsInvisible(calls: seq<Call>, says: Key -> map<string, Json>, c: Call)
    requires TrueFills(calls, says) && ProbedAsFound(c, says)
    requires c.probe.Payload?
    ensures Answer(CacheAfterAll(calls), c) == Uncached(c)
  {
    hide AnswerFrom, TrueFills, ValidEnvelope;
    assert calls[..|calls|] == calls;
    CacheStaysTrue(calls, says, |calls|);
  }

  /** When the probe fails, the cached call either answers the same or stands in for the probe with what the file's probe
      says: the cache never turns an answer of the helper into a fallback. */
  lemma CacheOnlyHelps(calls: seq<Call>, says: Key -> map<string, Json>, c: Call)
    requires TrueFills(calls, says) && ProbedAsFound(c, says)
    ensures Uncached(c).helperUsed ==> Answer(CacheAfterAll(calls), c) == Uncached(c)
    ensures Answer(CacheAfterAll(calls), c) == Uncached(c)
         || (c.probe.Failed? && c.path.Some? && c.before.Some?
             && Answer(CacheAfterAll(calls), c) == AnswerFrom(Payload(says(Key(c.path.value, c.before.value))), c))
  {
    if c.probe.Payload? {
      CacheIsInvisible(calls, says, c);
    } else {
      hide ValidEnvelope, CapabilityFailure, ResponseFailure, TrueFills;
      assert calls[..|calls|] == calls;
      CacheStaysTrue(calls, says, |calls|);
    }
  }

  function Capabilities(names: seq<Json>): map<string, Json> {
    map["schema_version" := Num(1), "capabilities" := Arr(names)]
  }

  function Accepted(): map<string, Json> {
    map["schema_version" := Num(1), "ok" := Bool(true), "capability" := Str("c")]
  }

  lemma CapabilitiesRead(names: seq<Json>)
    requires forall j :: j in names ==> j.Str?
    ensures ValidEnvelope(Capabilities(names))
    ensures CapabilityFailure(Capabilities(names), "c")
      == if Str("c") in names then None else Some("unsupported_capability")
  {
    assert Get(Obj(Capabilities(names)), "schema_version") == Num(1);
    assert Get(Obj(Capabilities(names)), "capabilities") == Arr(names);
    hide Get, Capabilities;
  }

  lemma AcceptedReads()
    ensures ResponseFailure(Accepted(), "c").None?
  {
  }

  /** A fill that is not true: the file is replaced while it is being probed, so the old file's capabilities are kept under
      the new file's stamp, and a later call is refused a capability that the new file has. */
  lemma ReplacedDuringProbe()
    ensures exists first: Call, later: Call ::
      && Fills(map[], first) && first.before != first.after
      && later.path == first.path && later.before == first.after
      && Uncached(later).helperUsed && Answer(CacheAfterAll([first]), later).diagnostics == ["unsupported_capability"]
  {
    hide Capabilities, Accepted, CapabilityFailure, ResponseFailure, EnvelopeFailure;
    var was, now := Stamp(1, 1), Stamp(2, 1);
    var older, newer := Capabilities([]), Capabilities([Str("c")]);
    CapabilitiesRead([]);
    CapabilitiesRead([Str("c")]);
    AcceptedReads();
    var first := Call(true, Some("h"), Some(was), Some(now), Payload(older), Failed("timeout"), "c", Null);
    var later := Call(true, Some("h"), Some(now), Some(now), Payload(newer), Payload(Accepted()), "c", Null);
    OneCall(first);
    assert Fills(map[], first);
    assert Cached(CacheAfter(map[], first), "h", Some(now)) == Some(older);
    assert Answer(CacheAfter(map[], first), later) == FellBack(later, "unsupported_capability");
    assert Uncached(later).helperUsed;
  }

  lemma OneCall(c: Call)
    ensures CacheAfterAll([c]) == CacheAfter(map[], c)
  {
    hide CacheAfter;
    assert [c][..0] == [];
  }
}
