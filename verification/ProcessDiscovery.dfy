/**
 * Which processes belong to a project: a worklist over child lists, then a closure over parents.
 * One scan sees /proc as a fixed table; a pid that is not in it has vanished.
 */
module ProcessDiscovery {
  import opened Wrappers
  import opened ResourceSpec

  datatype Record = Record(ppid: int, identity: Identity, underProject: bool, mentionsProject: bool)

  datatype Entry = Readable(record: Record, children: seq<int>) | Vanished | Denied | Malformed

  type ProcTable = map<int, Entry>

  function Look(table: ProcTable, pid: int): Entry {
    if pid in table then table[pid] else Vanished
  }

  // ---------- discovery ----------

  /** The processes a scan tries to read are positive and not the profiler itself. */
  predicate Eligible(pid: int, self: int) {
    pid > 0 && pid != self
  }

  ghost predicate ChildOf(table: ProcTable, parent: int, child: int) {
    Look(table, parent).Readable? && child > 0 && child in Look(table, parent).children
  }

  /** s holds every eligible candidate and, unless all of /proc is listed anyway, every eligible child of a readable
      member. */
  ghost predicate Reaches(table: ProcTable, candidates: seq<int>, self: int, listsAll: bool, s: set<int>) {
    && (forall pid :: pid in candidates && Eligible(pid, self) ==> pid in s)
    && (!listsAll ==> forall p, c :: p in s && ChildOf(table, p, c) && Eligible(c, self) ==> c in s)
  }

  ghost predicate IsReach(table: ProcTable, candidates: seq<int>, self: int, listsAll: bool, s: set<int>) {
    && Reaches(table, candidates, self, listsAll, s)
    && forall t: set<int> :: Reaches(table, candidates, self, listsAll, t) ==> s <= t
  }

  ghost function With(table: ProcTable, s: set<int>, kind: Entry -> bool): set<int> {
    set p | p in s && kind(Look(table, p))
  }

  datatype Scan = Scan(records: map<int, Record>, descendants: set<int>, vanished: nat, denied: nat, malformed: nat)

  ghost predicate ScanOf(table: ProcTable, attempted: set<int>, scan: Scan) {
    && (forall p :: p in scan.records <==> p in attempted && Look(table, p).Readable?)
    && (forall p :: p in scan.records ==> scan.records[p] == Look(table, p).record)
    && scan.vanished == |With(table, attempted, (e: Entry) => e.Vanished?)|
    && scan.denied == |With(table, attempted, (e: Entry) => e.Denied?)|
    && scan.malformed == |With(table, attempted, (e: Entry) => e.Malformed?)|
  }

  function Pids(table: ProcTable, candidates: seq<int>): set<int> {
    (set p | p in candidates) + (set p, c | p in table && table[p].Readable? && c in table[p].children :: c)
  }

  function Fresh(children: seq<int>, tried: set<int>): set<int> {
    set c | c in children && c > 0 && c !in tried
  }

  /** The loop over the children of one record. */
  method PushChildren(children: seq<int>, tried: set<int>, pending: seq<int>, descendants: set<int>)
    returns (pending': seq<int>, descendants': set<int>)
    ensures forall c :: c in pending' <==> c in pending || c in Fresh(children, tried)
    ensures descendants' == descendants + Fresh(children, tried)
  {
    pending', descendants' := pending, descendants;
    for i := 0 to |children|
      invariant forall c :: c in pending' <==> c in pending || c in Fresh(children[..i], tried)
      invariant descendants' == descendants + Fresh(children[..i], tried)
    {
      assert children[..i + 1] == children[..i] + [children[i]];
      if children[i] > 0 && children[i] !in tried {
        descendants' := descendants' + {children[i]};
        pending' := pending' + [children[i]];
      }
    }
    assert children[..|children|] == children;
  }

  lemma CountOneMore(table: ProcTable, s: set<int>, pid: int, kind: Entry -> bool)
    requires pid !in s
    ensures |With(table, s + {pid}, kind)| == |With(table, s, kind)| + (if kind(Look(table, pid)) then 1 else 0)
  {
    assert With(table, s + {pid}, kind) == With(table, s, kind) + (if kind(Look(table, pid)) then {pid} else {});
  }

  function Noted(scan: Scan, entry: Entry, pid: int): Scan {
    match entry
    case Vanished => scan.(vanished := scan.vanished + 1)
    case Denied => scan.(denied := scan.denied + 1)
    case Malformed => scan.(malformed := scan.malformed + 1)
    case Readable(record, _) => scan.(records := scan.records[pid := record])
  }

  lemma NotedStillScans(table: ProcTable, tried: set<int>, scan: Scan, pid: int, descendants: set<int>)
    requires ScanOf(table, tried, scan) && pid !in tried
    ensures ScanOf(table, tried + {pid}, Noted(scan, Look(table, pid), pid).(descendants := descendants))
  {
    CountOneMore(table, tried, pid, (e: Entry) => e.Vanished?);
    CountOneMore(table, tried, pid, (e: Entry) => e.Denied?);
    CountOneMore(table, tried, pid, (e: Entry) => e.Malformed?);
  }

  /** The worklist between two attempts: what is still owed is pending, and nothing outside the reach was touched. */
  ghost predicate Underway(table: ProcTable, candidates: seq<int>, self: int, listsAll: bool,
                           tried: set<int>, pending: seq<int>)
  {
    && (forall p :: p in pending ==> p in Pids(table, candidates)) && tried <= Pids(table, candidates)
    && (forall p :: p in candidates && Eligible(p, self) ==> p in tried || p in pending)
    && (!listsAll ==>
          forall p, c :: p in tried && ChildOf(table, p, c) && Eligible(c, self) ==> c in tried || c in pending)
    && forall t: set<int> :: Reaches(table, candidates, self, listsAll, t) ==>
         tried <= t && forall p :: p in pending && Eligible(p, self) ==> p in t
  }

  ghost predicate Descends(table: ProcTable, listsAll: bool, records: map<int, Record>, descendants: set<int>) {
    forall c :: c in descendants ==> !listsAll && exists p :: p in records && ChildOf(table, p, c)
  }

  lemma Skipped(table: ProcTable, candidates: seq<int>, self: int, listsAll: bool, tried: set<int>, pending: seq<int>)
    requires pending != [] && Underway(table, candidates, self, listsAll, tried, pending)
    requires Last(pending) in tried || !Eligible(Last(pending), self)
    ensures Underway(table, candidates, self, listsAll, tried, Init(pending))
  {
    assert pending == Init(pending) + [Last(pending)];
  }

  lemma Attempted(table: ProcTable, candidates: seq<int>, self: int, listsAll: bool, tried: set<int>, pending: seq<int>,
                  pending': seq<int>)
    requires pending != [] && Underway(table, candidates, self, listsAll, tried, pending)
    requires var pid := Last(pending);
      && Eligible(pid, self)
      && forall c :: c in pending' <==>
           || c in Init(pending)
           || (!listsAll && Look(table, pid).Readable? && c in Fresh(Look(table, pid).children, tried + {pid}))
    ensures Underway(table, candidates, self, listsAll, tried + {Last(pending)}, pending')
  {
    assert pending == Init(pending) + [Last(pending)];
    var pid := Last(pending);
    forall t: set<int> | Reaches(table, candidates, self, listsAll, t)
      ensures tried + {pid} <= t && forall p :: p in pending' && Eligible(p, self) ==> p in t
    {
      assert pid in t;
      forall c | c in pending' && Eligible(c, self) && c !in Init(pending) ensures c in t {
        assert ChildOf(table, pid, c);
      }
    }
    forall p, c | !listsAll && p in tried + {pid} && ChildOf(table, p, c) && Eligible(c, self)
      ensures c in tried + {pid} || c in pending'
    {
    }
  }

  /** The worklist.  Every pid is attempted at most once, and exactly the least reachable set is attempted. */
  method Discover(table: ProcTable, candidates: seq<int>, self: int, listsAll: bool)
    returns (scan: Scan, ghost attempted: set<int>)
    ensures IsReach(table, candidates, self, listsAll, attempted)
    ensures ScanOf(table, attempted, scan)
    ensures Descends(table, listsAll, scan.records, scan.descendants)
    ensures forall c :: c in attempted ==> c in candidates || c in scan.descendants
  {
    var pending := candidates;
    var tried: set<int> := {};
    scan := Scan(map[], {}, 0, 0, 0);
    while pending != []
      invariant Underway(table, candidates, self, listsAll, tried, pending)
      invariant ScanOf(table, tried, scan)
      invariant Descends(table, listsAll, scan.records, scan.descendants)
      invariant forall c :: c in tried || c in pending ==> c in candidates || c in scan.descendants
      decreases Pids(table, candidates) - tried, |pending|
    {
      hide Underway, ScanOf;
      var pid := Last(pending);
      if pid in tried || pid == self || pid <= 0 {
        Skipped(table, candidates, self, listsAll, tried, pending);
        pending := Init(pending);
        continue;
      }
      assert pid in Pids(table, candidates) by { StillListed(table, candidates, self, listsAll, tried, pending); }
      var entry := Look(table, pid);
      var pending', descendants := Init(pending), scan.descendants;
      if entry.Readable? && !listsAll {
        pending', descendants := PushChildren(entry.children, tried + {pid}, Init(pending), scan.descendants);
      }
      Attempted(table, candidates, self, listsAll, tried, pending, pending');
      NotedStillScans(table, tried, scan, pid, descendants);
      scan := Noted(scan, entry, pid).(descendants := descendants);
      tried, pending := tried + {pid}, pending';
    }
    attempted := tried;
  }

  lemma StillListed(table: ProcTable, candidates: seq<int>, self: int, listsAll: bool, tried: set<int>, pending: seq<int>)
    requires pending != [] && Underway(table, candidates, self, listsAll, tried, pending)
    ensures Last(pending) in Pids(table, candidates)
  {
    var pid := Last(pending);
    assert pid in pending;
    assert pid in Pids(table, candidates);
  }

  // ---------- the related processes ----------

  /** s holds the seeds and every process whose parent it holds. */
  ghost predicate ClosedOver(parent: map<int, int>, seeds: set<int>, s: set<int>) {
    seeds <= s && forall pid :: pid in parent && parent[pid] in s ==> pid in s
  }

  ghost predicate IsLeastClosed(parent: map<int, int>, seeds: set<int>, s: set<int>) {
    ClosedOver(parent, seeds, s) && forall t: set<int> :: ClosedOver(parent, seeds, t) ==> s <= t
  }

  /** The loop that repeats passes over the records until a pass adds nothing; order is the records' order. */
  method CloseOverParents(parent: map<int, int>, order: seq<int>, seeds: set<int>) returns (related: set<int>)
    requires forall pid :: pid in order <==> pid in parent
    ensures IsLeastClosed(parent, seeds, related)
  {
    related := seeds;
    var changed := true;
    while changed
      invariant seeds <= related && forall t: set<int> :: ClosedOver(parent, seeds, t) ==> related <= t
      invariant !changed ==> ClosedOver(parent, seeds, related)
      decreases parent.Keys - related, changed
    {
      changed := false;
      ghost var before := related;
      for i := 0 to |order|
        invariant before <= related && (changed <==> related != before)
        invariant changed ==> parent.Keys - related < parent.Keys - before
        invariant forall t: set<int> :: ClosedOver(parent, seeds, t) ==> related <= t
        invariant !changed ==> forall k :: 0 <= k < i && order[k] in parent && parent[order[k]] in related ==> order[k] in related
      {
        var pid := order[i];
        assert pid in order;
        if pid !in related && parent[pid] in related {
          assert pid in parent.Keys - before && pid !in parent.Keys - (related + {pid});
          related := related + {pid};
          changed := true;
        }
      }
    }
  }

  lemma LeastClosedUnique(parent: map<int, int>, seeds: set<int>, s: set<int>, t: set<int>)
    requires IsLeastClosed(parent, seeds, s) && IsLeastClosed(parent, seeds, t)
    ensures s == t
  {
    assert s <= t && t <= s;
  }

  /** The ancestor n steps up, as far as the records reach. */
  function Ancestor(parent: map<int, int>, pid: int, n: nat): Option<int>
    decreases n
  {
    if n == 0 then Some(pid)
    else if pid in parent then Ancestor(parent, parent[pid], n - 1)
    else None
  }

  ghost predicate DescendsFrom(parent: map<int, int>, seeds: set<int>, pid: int) {
    exists n: nat :: Ancestor(parent, pid, n).Some? && Ancestor(parent, pid, n).value in seeds
  }

  lemma {:induction false} ClosedHoldsDescendants(parent: map<int, int>, seeds: set<int>, s: set<int>, pid: int, n: nat)
    requires ClosedOver(parent, seeds, s)
    requires Ancestor(parent, pid, n).Some? && Ancestor(parent, pid, n).value in seeds
    ensures pid in s
    decreases n
  {
    if n > 0 {
      ClosedHoldsDescendants(parent, seeds, s, parent[pid], n - 1);
    }
  }

  /** The closure is exactly the processes some chain of parents links to a seed. */
  lemma RelatedIsDescent(parent: map<int, int>, seeds: set<int>, s: set<int>)
    requires IsLeastClosed(parent, seeds, s)
    ensures forall pid :: pid in s <==> DescendsFrom(parent, seeds, pid)
  {
    var linked := set pid | pid in s && DescendsFrom(parent, seeds, pid);
    forall pid | pid in seeds ensures pid in linked {
      assert Ancestor(parent, pid, 0) == Some(pid);
    }
    forall pid | pid in parent && parent[pid] in linked ensures pid in linked {
      var n: nat :| Ancestor(parent, parent[pid], n).Some? && Ancestor(parent, parent[pid], n).value in seeds;
      assert Ancestor(parent, pid, n + 1) == Ancestor(parent, parent[pid], n);
    }
    assert ClosedOver(parent, seeds, linked);
    forall pid | DescendsFrom(parent, seeds, pid) ensures pid in s {
      var n: nat :| Ancestor(parent, pid, n).Some? && Ancestor(parent, pid, n).value in seeds;
      ClosedHoldsDescendants(parent, seeds, s, pid, n);
    }
  }

  // ---------- the two callers ----------

  predicate IsSeed(pid: int, r: Record, known: set<Identity>, root: Option<int>, descendants: set<int>) {
    r.underProject || r.mentionsProject || r.identity in known || root == Some(pid) || pid in descendants
  }

  ghost function Seeds(records: map<int, Record>, known: set<Identity>, root: Option<int>, descendants: set<int>): set<int> {
    set pid | pid in records && IsSeed(pid, records[pid], known, root, descendants)
  }

  function Parents(records: map<int, Record>): map<int, int> {
    map pid | pid in records :: records[pid].ppid
  }

  /** The project's processes in one scan. */
  method RelatedPids(records: map<int, Record>, order: seq<int>, known: set<Identity>, root: Option<int>,
                     descendants: set<int>, authority: set<int>) returns (related: set<int>)
    requires forall pid :: pid in order <==> pid in records
    ensures IsLeastClosed(Parents(records), Seeds(records, known, root, descendants), related)
    ensures related <= records.Keys
  {
    var seeds: set<int> := {};
    for i := 0 to |order|
      invariant forall pid :: pid in seeds <==> pid in order[..i] && IsSeed(pid, records[pid], known, root, descendants)
    {
      var pid := order[i];
      assert pid in order && order[..i + 1] == order[..i] + [pid];
      var record := records[pid];
      if record.underProject || record.mentionsProject || record.identity in known || pid in descendants
         || (root.Some? && root.value == pid) {
        seeds := seeds + {pid};
      } else if pid in authority && (record.underProject || record.mentionsProject) {
        seeds := seeds + {pid};
      }
    }
    assert order[..|order|] == order;
    forall pid ensures pid in seeds <==> pid in Seeds(records, known, root, descendants) {
      assert pid in order <==> pid in records;
    }
    related := CloseOverParents(Parents(records), order, seeds);
    assert ClosedOver(Parents(records), seeds, records.Keys);
  }

  /** A row of the process listing used by the lifecycle profile. */
  datatype Row = Row(pid: int, ppid: int, mentionsProject: bool, underProject: bool)

  function RowsByPid(rows: seq<Row>): map<int, Row> {
    if rows == [] then map[] else RowsByPid(Init(rows))[Last(rows).pid := Last(rows)]
  }

  /** Among the rows of one pid the last one counts. */
  lemma {:induction false} RowsByPidAre(rows: seq<Row>, pid: int)
    ensures pid in RowsByPid(rows) <==> exists i :: 0 <= i < |rows| && rows[i].pid == pid
    ensures pid in RowsByPid(rows) ==> exists i :: 0 <= i < |rows| && IsLastOf(rows, i, pid) && RowsByPid(rows)[pid] == rows[i]
  {
    if rows != [] {
      var before, n := Init(rows), |rows| - 1;
      RowsByPidAre(before, pid);
      assert rows == before + [rows[n]];
      if rows[n].pid == pid {
        assert IsLastOf(rows, n, pid);
      } else if pid in RowsByPid(before) {
        var i :| 0 <= i < |before| && IsLastOf(before, i, pid) && RowsByPid(before)[pid] == before[i];
        assert IsLastOf(rows, i, pid);
      }
    }
  }

  predicate IsLastOf(rows: seq<Row>, i: int, pid: int) {
    0 <= i < |rows| && rows[i].pid == pid && forall k :: i < k < |rows| ==> rows[k].pid != pid
  }

  function RowParents(rows: seq<Row>): map<int, int> {
    map pid | pid in RowsByPid(rows) :: RowsByPid(rows)[pid].ppid
  }

  ghost function RowSeeds(rows: seq<Row>): set<int> {
    set pid | pid in RowsByPid(rows) && (RowsByPid(rows)[pid].mentionsProject || RowsByPid(rows)[pid].underProject)
  }

  /** The second copy: without a project root nothing is related. */
  method ProjectRelatedPids(rows: seq<Row>, order: seq<int>, hasRoot: bool) returns (related: set<int>)
    requires forall pid :: pid in order <==> pid in RowsByPid(rows)
    ensures !hasRoot ==> related == {}
    ensures hasRoot ==> IsLeastClosed(RowParents(rows), RowSeeds(rows), related)
  {
    if !hasRoot {
      return {};
    }
    var byPid := RowsByPid(rows);
    var seeds: set<int> := {};
    for i := 0 to |order|
      invariant forall pid :: pid in seeds <==>
        pid in order[..i] && (byPid[pid].mentionsProject || byPid[pid].underProject)
    {
      var pid := order[i];
      assert pid in order && order[..i + 1] == order[..i] + [pid];
      if byPid[pid].mentionsProject || byPid[pid].underProject {
        seeds := seeds + {pid};
      }
    }
    assert order[..|order|] == order;
    forall pid ensures pid in seeds <==> pid in RowSeeds(rows) {
      assert pid in order <==> pid in byPid;
    }
    related := CloseOverParents(RowParents(rows), order, seeds);
  }

  /** Fed the same processes, with nothing known beforehand, no foreground process and no discovered descendants, the
      two copies relate the same pids, in whatever order each goes through its records. */
  lemma CopiesAgree(records: map<int, Record>, rows: seq<Row>, s: set<int>, t: set<int>)
    requires records.Keys == RowsByPid(rows).Keys
    requires forall pid :: pid in records ==>
      var row := RowsByPid(rows)[pid];
      && row.ppid == records[pid].ppid
      && (row.mentionsProject || row.underProject <==> records[pid].underProject || records[pid].mentionsProject)
    requires IsLeastClosed(Parents(records), Seeds(records, {}, None, {}), s)
    requires IsLeastClosed(RowParents(rows), RowSeeds(rows), t)
    ensures s == t
  {
    forall pid | pid in records ensures Parents(records)[pid] == RowParents(rows)[pid] {
    }
    assert Parents(records).Keys == RowParents(rows).Keys;
    assert Seeds(records, {}, None, {}) == RowSeeds(rows);
    LeastClosedUnique(RowParents(rows), RowSeeds(rows), s, t);
  }
}
