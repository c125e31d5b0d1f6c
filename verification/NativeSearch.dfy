/**
 * What the observer's reads of an event return, defined apart from how they go about it: the text of an event part by
 * part, and the value of a search as the one at the first place that has one.
 */
module NativeSearch {
  import opened Wrappers
  import opened Json
  import opened Texts
  import opened NativeOutput

  // ---------- the text of an event ----------

  /** The text is cut into the parts, in order and without remainder. */
  ghost predicate IsJoin(text: string, parts: seq<string>, cuts: seq<nat>) {
    && |cuts| == |parts| + 1 && cuts[0] == 0 && cuts[|parts|] == |text|
    && forall i :: 0 <= i < |parts| ==> IsCut(text, parts[i], cuts, i)
  }

  ghost predicate IsCut(text: string, part: string, cuts: seq<nat>, i: nat) {
    i + 1 < |cuts| && cuts[i] <= cuts[i + 1] <= |text| && text[cuts[i]..cuts[i + 1]] == part
  }

  /** A string says itself, a list what its items say one after the other, and an object what its first text key with
      anything to say says. */
  ghost predicate Says(j: Json, text: string) {
    match j
    case Str(s) => text == s
    case Arr(items) =>
      exists parts: seq<string>, cuts: seq<nat> ::
        && IsJoin(text, parts, cuts) && |parts| == |items|
        && forall i :: 0 <= i < |items| ==> Says(items[i], parts[i])
    case Obj(fields) =>
      if text == "" then forall k :: k in TEXT_KEYS && k in fields ==> Says(fields[k], "")
      else exists n :: 0 <= n < |TEXT_KEYS| && TEXT_KEYS[n] in fields && Says(fields[TEXT_KEYS[n]], text)
             && forall m :: 0 <= m < n && TEXT_KEYS[m] in fields ==> Says(fields[TEXT_KEYS[m]], "")
    case _ => text == ""
  }

  /** The text of an event is what it says, and nothing else. */
  lemma {:induction false} TextIsSaid(j: Json)
    ensures forall text :: Says(j, text) <==> text == EventText(j)
    decreases j
  {
    match j
    case Str(_) =>
    case Arr(items) =>
      forall i | 0 <= i < |items| ensures forall text :: Says(items[i], text) <==> text == EventText(items[i]) {
        TextIsSaid(items[i]);
      }
      ListIsSaid(j);
    case Obj(fields) =>
      forall k | k in fields ensures forall text :: Says(fields[k], text) <==> text == EventText(fields[k]) {
        TextIsSaid(fields[k]);
      }
      ObjectIsSaid(j);
    case _ =>
  }

  /** What the observer joins for a list is cut at the lengths of the texts of its items. */
  lemma {:induction false} JoinedIs(j: Json, i: nat, parts: seq<string>, cuts: seq<nat>, text: string)
    requires j.Arr? && i <= |j.items| == |parts| && IsJoin(text, parts, cuts)
    requires forall k :: 0 <= k < |parts| ==> parts[k] == EventText(j.items[k])
    ensures cuts[i] <= |text| && text[cuts[i]..] == JoinedText(j, i)
    decreases |j.items| - i
  {
    hide EventText;
    if i < |parts| {
      JoinedIs(j, i + 1, parts, cuts, text);
      assert IsCut(text, parts[i], cuts, i);
      assert text[cuts[i]..] == text[cuts[i]..cuts[i + 1]] + text[cuts[i + 1]..];
    }
  }

  lemma {:induction false} HasJoin(parts: seq<string>) returns (text: string, cuts: seq<nat>)
    ensures IsJoin(text, parts, cuts)
  {
    if parts == [] {
      text, cuts := "", [0];
    } else {
      var n := |parts| - 1;
      var before, at := HasJoin(parts[..n]);
      text, cuts := before + parts[n], at + [|before| + |parts[n]|];
      forall i | 0 <= i < |parts| ensures IsCut(text, parts[i], cuts, i) {
        if i < n {
          assert IsCut(before, parts[..n][i], at, i);
          assert text[at[i]..at[i + 1]] == before[at[i]..at[i + 1]];
        } else {
          assert text[|before|..] == parts[n];
        }
      }
    }
  }

  lemma ListIsSaid(j: Json)
    requires j.Arr?
    requires forall i :: 0 <= i < |j.items| ==> forall text :: Says(j.items[i], text) <==> text == EventText(j.items[i])
    ensures forall text :: Says(j, text) <==> text == JoinedText(j, 0)
  {
    var items := j.items;
    forall text | Says(j, text) ensures text == JoinedText(j, 0) {
      var parts: seq<string>, cuts: seq<nat> :|
        && IsJoin(text, parts, cuts) && |parts| == |items|
        && forall i :: 0 <= i < |items| ==> Says(items[i], parts[i]);
      JoinedIs(j, 0, parts, cuts, text);
      assert text[0..] == text;
    }
    var parts := seq(|items|, i requires 0 <= i < |items| => EventText(items[i]));
    var text, cuts := HasJoin(parts);
    JoinedIs(j, 0, parts, cuts, text);
    assert text[0..] == text;
    assert Says(j, text);
  }

  lemma {:induction false} FirstTextIs(j: Json, keys: seq<string>, n: nat)
    requires j.Obj? && n <= |keys|
    ensures var text := FirstText(j, keys[n..]);
      && (text == "" <==> forall m :: n <= m < |keys| ==> NoText(j, keys[m]))
      && (text != "" ==> exists m :: n <= m < |keys| && IsFirstText(j, keys, n, m, text))
    decreases |keys| - n
  {
    hide EventText;
    if n < |keys| {
      assert keys[n..][1..] == keys[n + 1..] && keys[n..][0] == keys[n];
      FirstTextIs(j, keys, n + 1);
      var text := FirstText(j, keys[n..]);
      if !NoText(j, keys[n]) {
        assert IsFirstText(j, keys, n, n, text);
      } else if text != "" {
        var m :| n + 1 <= m < |keys| && IsFirstText(j, keys, n + 1, m, text);
        assert IsFirstText(j, keys, n, m, text);
      }
    }
  }

  predicate NoText(j: Json, key: string)
    requires j.Obj?
  {
    key in j.fields ==> EventText(j.fields[key]) == ""
  }

  predicate IsFirstText(j: Json, keys: seq<string>, n: nat, m: nat, text: string) {
    && j.Obj? && n <= m < |keys| && keys[m] in j.fields && EventText(j.fields[keys[m]]) == text
    && forall k :: n <= k < m ==> NoText(j, keys[k])
  }

  lemma ObjectIsSaid(j: Json)
    requires j.Obj?
    requires forall k :: k in j.fields ==> forall text :: Says(j.fields[k], text) <==> text == EventText(j.fields[k])
    ensures forall text :: Says(j, text) <==> text == FirstText(j, TEXT_KEYS)
  {
    hide EventText, FirstText;
    FirstTextIs(j, TEXT_KEYS, 0);
    assert TEXT_KEYS[0..] == TEXT_KEYS;
    var first := FirstText(j, TEXT_KEYS);
    forall text
      ensures Says(j, text) <==> text == first
    {
      if text != "" && Says(j, text) {
        var n :| 0 <= n < |TEXT_KEYS| && TEXT_KEYS[n] in j.fields && Says(j.fields[TEXT_KEYS[n]], text)
             && forall m :: 0 <= m < n && TEXT_KEYS[m] in j.fields ==> Says(j.fields[TEXT_KEYS[m]], "");
        var m :| 0 <= m < |TEXT_KEYS| && IsFirstText(j, TEXT_KEYS, 0, m, first);
        assert m == n;
      }
      if text != "" && text == first {
        var m :| 0 <= m < |TEXT_KEYS| && IsFirstText(j, TEXT_KEYS, 0, m, first);
        assert Says(j.fields[TEXT_KEYS[m]], text);
      }
    }
  }

  // ---------- the first place that has a value ----------

  /** What an object itself answers: a value, that nothing below it counts either, or nothing. */
  datatype Own<T> = Here(value: T) | Barred | Below

  /** What is looked for: the answer of an object, the keys to go down by, in order, and whether to go through lists. */
  datatype Quest<T> = Quest(own: Json -> Own<T>, nest: seq<string>, lists: bool)

  /** The places a search may end at: an object with an answer, reached through objects without one. */
  ghost predicate Leads<T>(q: Quest<T>, j: Json, path: seq<Step>)
    decreases |path|
  {
    if path == [] then j.Obj? && q.own(j).Here?
    else
      match path[0]
      case Field(key) => j.Obj? && q.own(j).Below? && key in q.nest && key in j.fields && Leads(q, j.fields[key], path[1..])
      case Item(i) => j.Arr? && q.lists && i < |j.items| && Leads(q, j.items[i], path[1..])
  }

  ghost function ValueAt<T>(q: Quest<T>, j: Json, path: seq<Step>): T
    requires Leads(q, j, path)
    decreases |path|
  {
    if path == [] then q.own(j).value
    else
      match path[0]
      case Field(key) => ValueAt(q, j.fields[key], path[1..])
      case Item(i) => ValueAt(q, j.items[i], path[1..])
  }

  /** An item with a smaller index, or a key that the search tries before it meets the other one. */
  predicate StepBefore(a: Step, b: Step, nest: seq<string>) {
    match (a, b)
    case (Item(i), Item(k)) => i < k
    case (Field(key), Field(other)) => exists n :: 0 <= n < |nest| && nest[n] == key && other !in nest[..n + 1]
    case _ => false
  }

  /** At the first step in which the two paths differ, this one goes before the other. */
  ghost predicate Earlier(path: seq<Step>, other: seq<Step>, nest: seq<string>)
    decreases |path|
  {
    && path != [] && other != []
    && if path[0] == other[0] then Earlier(path[1..], other[1..], nest) else StepBefore(path[0], other[0], nest)
  }

  ghost predicate IsFirst<T>(q: Quest<T>, j: Json, path: seq<Step>) {
    Leads(q, j, path) && forall other :: Leads(q, j, other) && other != path ==> Earlier(path, other, q.nest)
  }

  /** The search as the observer goes about it. */
  function Search<T>(q: Quest<T>, j: Json): Option<T>
    decreases j, 1, 0
  {
    match j
    case Arr(_) => if q.lists then SearchItems(q, j, 0) else None
    case Obj(_) =>
      (match q.own(j)
       case Here(v) => Some(v)
       case Barred => None
       case Below => SearchFields(q, j, 0))
    case _ => None
  }

  function SearchItems<T>(q: Quest<T>, j: Json, i: nat): Option<T>
    requires j.Arr? && i <= |j.items|
    decreases j, 0, |j.items| - i
  {
    if i == |j.items| then None
    else if Search(q, j.items[i]).Some? then Search(q, j.items[i])
    else SearchItems(q, j, i + 1)
  }

  function SearchFields<T>(q: Quest<T>, j: Json, n: nat): Option<T>
    requires j.Obj? && n <= |q.nest|
    decreases j, 0, |q.nest| - n
  {
    if n == |q.nest| then None
    else if q.nest[n] in j.fields && Search(q, j.fields[q.nest[n]]).Some? then Search(q, j.fields[q.nest[n]])
    else SearchFields(q, j, n + 1)
  }

  /** The result is the value at this path, or there is none and no path leads anywhere. */
  ghost predicate Finds<T>(q: Quest<T>, j: Json, r: Option<T>, path: seq<Step>) {
    match r
    case Some(v) => IsFirst(q, j, path) && ValueAt(q, j, path) == v
    case None => forall other :: !Leads(q, j, other)
  }

  /** What a search through some of the steps out of a value finds: the first path that starts with one of them. */
  ghost predicate FindsAmong<T>(q: Quest<T>, j: Json, starts: set<Step>, r: Option<T>, path: seq<Step>) {
    match r
    case Some(v) =>
      && Leads(q, j, path) && path != [] && path[0] in starts && ValueAt(q, j, path) == v
      && forall other :: Leads(q, j, other) && other != path && other != [] && other[0] in starts ==> Earlier(path, other, q.nest)
    case None => forall other :: Leads(q, j, other) && other != [] ==> other[0] !in starts
  }

  ghost predicate IsStep<T>(q: Quest<T>, j: Json, step: Step, below: Json) {
    match step
    case Field(key) => j.Obj? && q.own(j).Below? && key in q.nest && key in j.fields && j.fields[key] == below
    case Item(i) => j.Arr? && q.lists && i < |j.items| && j.items[i] == below
  }

  /** The paths through one step are those of the value it leads to. */
  lemma LeadsThrough<T>(q: Quest<T>, j: Json, step: Step, below: Json)
    requires IsStep(q, j, step, below)
    ensures forall path: seq<Step> :: path != [] && path[0] == step ==> (Leads(q, j, path) <==> Leads(q, below, path[1..]))
    ensures forall path: seq<Step> :: path != [] && path[0] == step && Leads(q, j, path) ==>
      ValueAt(q, j, path) == ValueAt(q, below, path[1..])
  {
  }

  lemma FindsThrough<T>(q: Quest<T>, j: Json, step: Step, below: Json, r: Option<T>, path: seq<Step>)
    requires IsStep(q, j, step, below) && Finds(q, below, r, path)
    ensures FindsAmong(q, j, {step}, r, [step] + path)
  {
    hide Leads, ValueAt;
    LeadsThrough(q, j, step, below);
    assert ([step] + path)[1..] == path;
    forall other: seq<Step> | Leads(q, j, other) && other != [step] + path && other != [] && other[0] == step
      ensures r.Some? && Earlier([step] + path, other, q.nest)
    {
      assert Leads(q, below, other[1..]);
      assert other == [step] + other[1..];
    }
  }

  /** Trying one step before the others: its find comes first, and without one the others decide. */
  lemma FindsBefore<T>(q: Quest<T>, j: Json, step: Step, rest: set<Step>, r: Option<T>, r': Option<T>, path: seq<Step>,
                       path': seq<Step>)
    requires FindsAmong(q, j, {step}, r, path) && FindsAmong(q, j, rest, r', path')
    requires forall other :: other in rest && other != step ==> StepBefore(step, other, q.nest)
    ensures FindsAmong(q, j, {step} + rest, if r.Some? then r else r', if r.Some? then path else path')
  {
    hide Leads, ValueAt, StepBefore;
  }

  ghost function ItemsFrom(j: Json, i: nat): set<Step>
    requires j.Arr?
  {
    set k: nat | i <= k < |j.items| :: Item(k)
  }

  ghost function FieldsFrom<T>(q: Quest<T>, n: nat): set<Step> {
    set k | n <= k < |q.nest| :: Field(q.nest[k])
  }

  ghost predicate Distinct(keys: seq<string>) {
    forall k, l :: 0 <= k < l < |keys| ==> keys[k] != keys[l]
  }

  /** A search returns the value at the first place that has one. */
  lemma {:induction false} SearchFinds<T>(q: Quest<T>, j: Json) returns (path: seq<Step>)
    requires Distinct(q.nest)
    ensures Finds(q, j, Search(q, j), path)
    decreases j, 1, 0
  {
    path := [];
    match j
    case Arr(_) =>
      if q.lists {
        path := ItemsFind(q, j, 0);
        AllItems(q, j, path);
      }
    case Obj(_) =>
      match q.own(j) {
        case Here(_) =>
        case Barred =>
        case Below =>
          path := FieldsFind(q, j, 0);
          AllFields(q, j, path);
      }
    case _ =>
  }

  lemma AllItems<T>(q: Quest<T>, j: Json, path: seq<Step>)
    requires j.Arr? && FindsAmong(q, j, ItemsFrom(j, 0), SearchItems(q, j, 0), path)
    ensures Finds(q, j, SearchItems(q, j, 0), path)
  {
    assert forall other :: Leads(q, j, other) ==> other != [] && other[0] in ItemsFrom(j, 0);
  }

  lemma AllFields<T>(q: Quest<T>, j: Json, path: seq<Step>)
    requires j.Obj? && q.own(j).Below? && FindsAmong(q, j, FieldsFrom(q, 0), SearchFields(q, j, 0), path)
    ensures Finds(q, j, SearchFields(q, j, 0), path)
  {
    assert forall other :: Leads(q, j, other) ==> other != [] && other[0] in FieldsFrom(q, 0);
  }

  lemma {:induction false} ItemsFind<T>(q: Quest<T>, j: Json, i: nat) returns (path: seq<Step>)
    requires Distinct(q.nest) && j.Arr? && q.lists && i <= |j.items|
    ensures FindsAmong(q, j, ItemsFrom(j, i), SearchItems(q, j, i), path)
    decreases j, 0, |j.items| - i
  {
    hide Leads, Finds, FindsAmong, Distinct;
    if i < |j.items| {
      var below := SearchFinds(q, j.items[i]);
      var later := ItemsFind(q, j, i + 1);
      FindsThrough(q, j, Item(i), j.items[i], Search(q, j.items[i]), below);
      FindsBefore(q, j, Item(i), ItemsFrom(j, i + 1), Search(q, j.items[i]), SearchItems(q, j, i + 1), [Item(i)] + below, later);
      assert ItemsFrom(j, i) == {Item(i)} + ItemsFrom(j, i + 1);
      path := if Search(q, j.items[i]).Some? then [Item(i)] + below else later;
    } else {
      path := [];
      assert ItemsFrom(j, i) == {};
      NothingAmong(q, j, path);
    }
  }

  lemma NothingAmong<T>(q: Quest<T>, j: Json, path: seq<Step>)
    ensures FindsAmong(q, j, {}, None, path)
  {
  }

  lemma {:induction false} FieldsFind<T>(q: Quest<T>, j: Json, n: nat) returns (path: seq<Step>)
    requires Distinct(q.nest) && j.Obj? && q.own(j).Below? && n <= |q.nest|
    ensures FindsAmong(q, j, FieldsFrom(q, n), SearchFields(q, j, n), path)
    decreases j, 0, |q.nest| - n
  {
    hide Leads, Finds, FindsAmong;
    if n < |q.nest| {
      var key := q.nest[n];
      var later := FieldsFind(q, j, n + 1);
      FieldsSplit(q, n);
      if key in j.fields {
        var below := SearchFinds(q, j.fields[key]);
        FindsThrough(q, j, Field(key), j.fields[key], Search(q, j.fields[key]), below);
        FindsBefore(q, j, Field(key), FieldsFrom(q, n + 1), Search(q, j.fields[key]), SearchFields(q, j, n + 1),
                    [Field(key)] + below, later);
        path := if Search(q, j.fields[key]).Some? then [Field(key)] + below else later;
      } else {
        NoSuchField(q, j, key);
        FindsBefore(q, j, Field(key), FieldsFrom(q, n + 1), None, SearchFields(q, j, n + 1), [], later);
        path := later;
      }
    } else {
      path := [];
      assert FieldsFrom(q, n) == {};
      NothingAmong(q, j, path);
    }
  }

  lemma NoSuchField<T>(q: Quest<T>, j: Json, key: string)
    requires j.Obj? && key !in j.fields
    ensures FindsAmong(q, j, {Field(key)}, None, [])
  {
  }

  lemma FieldsSplit<T>(q: Quest<T>, n: nat)
    requires Distinct(q.nest) && n < |q.nest|
    ensures FieldsFrom(q, n) == {Field(q.nest[n])} + FieldsFrom(q, n + 1)
    ensures forall other :: other in FieldsFrom(q, n + 1) ==> StepBefore(Field(q.nest[n]), other, q.nest)
  {
    forall other | other in FieldsFrom(q, n + 1)
      ensures StepBefore(Field(q.nest[n]), other, q.nest)
    {
      var k :| n + 1 <= k < |q.nest| && other == Field(q.nest[k]);
      assert q.nest[k] !in q.nest[..n + 1];
    }
  }

  lemma StepsDiffer(a: Step, b: Step, nest: seq<string>)
    requires StepBefore(a, b, nest)
    ensures !StepBefore(b, a, nest)
  {
    if a.Field? {
      var n :| 0 <= n < |nest| && nest[n] == a.key && b.key !in nest[..n + 1];
      assert forall m :: 0 <= m <= n ==> nest[..n + 1][m] == nest[m];
      forall m | 0 <= m < |nest| && nest[m] == b.key
        ensures a.key in nest[..m + 1]
      {
        assert m > n;
        assert nest[..m + 1][n] == a.key;
      }
    }
  }

  lemma {:induction false} NotBothEarlier(path: seq<Step>, other: seq<Step>, nest: seq<string>)
    requires Earlier(path, other, nest)
    ensures !Earlier(other, path, nest)
  {
    if path[0] == other[0] {
      NotBothEarlier(path[1..], other[1..], nest);
    } else {
      StepsDiffer(path[0], other[0], nest);
    }
  }

  /** There is one first place, so a search has one result. */
  lemma OneFirst<T>(q: Quest<T>, j: Json, path: seq<Step>, other: seq<Step>)
    requires IsFirst(q, j, path) && IsFirst(q, j, other)
    ensures path == other
  {
    if path != other {
      NotBothEarlier(path, other, q.nest);
    }
  }

  // ---------- what an object answers ----------

  /** The value of the first key, in order, whose value will do. */
  ghost predicate IsFirstKey(j: Json, keys: seq<string>, fits: Json -> bool, r: Option<Json>) {
    match r
    case Some(v) =>
      exists n :: 0 <= n < |keys| && Get(j, keys[n]) == v && fits(v) && forall m :: 0 <= m < n ==> !fits(Get(j, keys[m]))
    case None => forall n :: 0 <= n < |keys| ==> !fits(Get(j, keys[n]))
  }

  lemma FirstKeyStep(j: Json, keys: seq<string>, fits: Json -> bool, r: Option<Json>)
    requires keys != [] && (fits(Get(j, keys[0])) || IsFirstKey(j, keys[1..], fits, r))
    ensures IsFirstKey(j, keys, fits, if fits(Get(j, keys[0])) then Some(Get(j, keys[0])) else r)
  {
    hide Get;
    if !fits(Get(j, keys[0])) {
      assert forall n :: 1 <= n < |keys| ==> keys[n] == keys[1..][n - 1];
      if r.Some? {
        var n :| 0 <= n < |keys[1..]| && Get(j, keys[1..][n]) == r.value && fits(r.value)
          && forall m :: 0 <= m < n ==> !fits(Get(j, keys[1..][m]));
        assert Get(j, keys[n + 1]) == r.value;
      }
    }
  }

  const SOME_TEXT: Json -> bool := (v: Json) => v.Str? && v.text != ""
  const SOME_STRIPPED: Json -> bool := (v: Json) => v.Str? && Strip(v.text) != ""
  const SOME_VALUE: Json -> bool := (v: Json) => v !in {Null, Bool(false), Num(0), Str(""), Arr([]), Obj(map[])}

  function AsText(r: Option<string>): Option<Json> {
    if r.Some? then Some(Str(r.value)) else None
  }

  lemma {:induction false} OwnStringIs(j: Json, keys: seq<string>)
    ensures IsFirstKey(j, keys, SOME_TEXT, AsText(OwnString(j, keys)))
  {
    hide IsFirstKey, Get;
    if keys != [] {
      OwnStringIs(j, keys[1..]);
      FirstKeyStep(j, keys, SOME_TEXT, AsText(OwnString(j, keys[1..])));
    } else {
      NoFirstKey(j, SOME_TEXT);
    }
  }

  lemma NoFirstKey(j: Json, fits: Json -> bool)
    ensures IsFirstKey(j, [], fits, None)
  {
  }

  lemma {:induction false} OwnTimeIs(j: Json, keys: seq<string>)
    ensures IsFirstKey(j, keys, SOME_VALUE, OwnTime(j, keys))
  {
    hide IsFirstKey, Get;
    if keys != [] {
      OwnTimeIs(j, keys[1..]);
      FirstKeyStep(j, keys, SOME_VALUE, OwnTime(j, keys[1..]));
    } else {
      NoFirstKey(j, SOME_VALUE);
    }
  }

  lemma {:induction false} OwnRefIs(j: Json, keys: seq<string>) returns (r: Option<Json>)
    ensures IsFirstKey(j, keys, SOME_STRIPPED, r)
    ensures OwnRef(j, keys) == if r.Some? && r.value.Str? then Some(Strip(r.value.text)) else None
    ensures r.Some? ==> r.value.Str?
  {
    hide IsFirstKey, Get;
    if keys != [] {
      r := OwnRefIs(j, keys[1..]);
      FirstKeyStep(j, keys, SOME_STRIPPED, r);
      r := if SOME_STRIPPED(Get(j, keys[0])) then Some(Get(j, keys[0])) else r;
    } else {
      NoFirstKey(j, SOME_STRIPPED);
      r := None;
    }
  }

  // ---------- the four searches ----------

  /** A reason that is only blanks ends the search below its object. */
  const REASON_QUEST: Quest<string> := Quest(
    (j: Json) =>
      var own := OwnString(j, REASON_KEYS);
      if own.None? then Below else if Strip(own.value) == "" then Barred else Here(Strip(own.value)),
    REASON_NESTING_KEYS, false)

  const REF_QUEST: Quest<string> := Quest(
    (j: Json) => if OwnRef(j, REF_KEYS).Some? then Here(OwnRef(j, REF_KEYS).value) else Below, NESTING_KEYS, false)

  const TIME_QUEST: Quest<Json> := Quest(
    (j: Json) => if OwnTime(j, TIME_KEYS).Some? then Here(OwnTime(j, TIME_KEYS).value) else Below, NESTING_KEYS, false)

  function ValueQuest(wanted: seq<string>): Quest<string> {
    Quest((j: Json) => if OwnString(j, wanted).Some? then Here(OwnString(j, wanted).value) else Below, NESTING_KEYS, true)
  }

  function OrEmpty(r: Option<string>): string {
    if r.Some? then r.value else ""
  }

  lemma NestingDistinct()
    ensures Distinct(NESTING_KEYS) && Distinct(REASON_NESTING_KEYS)
  {
  }

  lemma {:induction false} ReasonIsSearch(j: Json)
    ensures EventReason(j) == OrEmpty(Search(REASON_QUEST, j))
    ensures Search(REASON_QUEST, j) != Some("")
    decreases j, 1, 0
  {
    if j.Obj? && OwnString(j, REASON_KEYS).None? {
      ReasonFields(j, 0);
      assert REASON_NESTING_KEYS[0..] == REASON_NESTING_KEYS;
    } else if !j.Obj? {
      NothingOwn(j, REASON_KEYS);
    }
  }

  lemma {:induction false} NothingOwn(j: Json, keys: seq<string>)
    requires !j.Obj?
    ensures OwnString(j, keys) == None && OwnRef(j, keys) == None && OwnTime(j, keys) == None
  {
    if keys != [] {
      NothingOwn(j, keys[1..]);
    }
  }

  lemma {:induction false} ReasonFields(j: Json, n: nat)
    requires j.Obj? && n <= |REASON_NESTING_KEYS|
    ensures NestedReason(j, REASON_NESTING_KEYS[n..]) == OrEmpty(SearchFields(REASON_QUEST, j, n))
    ensures SearchFields(REASON_QUEST, j, n) != Some("")
    decreases j, 0, |REASON_NESTING_KEYS| - n
  {
    hide EventReason, Search, OwnString, Strip;
    if n < |REASON_NESTING_KEYS| {
      var key, keys := REASON_NESTING_KEYS[n], REASON_NESTING_KEYS[n..];
      assert keys[1..] == REASON_NESTING_KEYS[n + 1..] && keys[0] == key;
      ReasonFields(j, n + 1);
      if key in j.fields {
        ReasonIsSearch(j.fields[key]);
        if !j.fields[key].Obj? {
          OnlyObjects(REASON_QUEST, j.fields[key]);
        }
      }
    }
  }

  /** A search that does not go through lists finds nothing but in an object. */
  lemma OnlyObjects<T>(q: Quest<T>, j: Json)
    requires !q.lists && !j.Obj?
    ensures Search(q, j) == None
  {
  }

  lemma {:induction false} RefIsSearch(j: Json)
    ensures EventRef(j) == Search(REF_QUEST, j)
    decreases j, 1, 0
  {
    if !j.Obj? {
      NothingOwn(j, REF_KEYS);
    } else if OwnRef(j, REF_KEYS).None? {
      RefFields(j, 0);
      assert NESTING_KEYS[0..] == NESTING_KEYS;
    }
  }

  lemma {:induction false} RefFields(j: Json, n: nat)
    requires j.Obj? && n <= |NESTING_KEYS|
    ensures NestedRef(j, NESTING_KEYS[n..]) == SearchFields(REF_QUEST, j, n)
    decreases j, 0, |NESTING_KEYS| - n
  {
    hide EventRef, Search;
    if n < |NESTING_KEYS| {
      var key, keys := NESTING_KEYS[n], NESTING_KEYS[n..];
      assert keys[1..] == NESTING_KEYS[n + 1..] && keys[0] == key;
      RefFields(j, n + 1);
      if key in j.fields {
        RefIsSearch(j.fields[key]);
        if !j.fields[key].Obj? {
          OnlyObjects(REF_QUEST, j.fields[key]);
        }
      }
    }
  }

  lemma {:induction false} TimeIsSearch(j: Json)
    ensures EventTime(j) == Search(TIME_QUEST, j)
    decreases j, 1, 0
  {
    if !j.Obj? {
      NothingOwn(j, TIME_KEYS);
    } else if OwnTime(j, TIME_KEYS).None? {
      TimeFields(j, 0);
      assert NESTING_KEYS[0..] == NESTING_KEYS;
    }
  }

  lemma {:induction false} TimeFields(j: Json, n: nat)
    requires j.Obj? && n <= |NESTING_KEYS|
    ensures NestedTime(j, NESTING_KEYS[n..]) == SearchFields(TIME_QUEST, j, n)
    decreases j, 0, |NESTING_KEYS| - n
  {
    hide EventTime, Search;
    if n < |NESTING_KEYS| {
      var key, keys := NESTING_KEYS[n], NESTING_KEYS[n..];
      assert keys[1..] == NESTING_KEYS[n + 1..] && keys[0] == key;
      TimeFields(j, n + 1);
      if key in j.fields {
        TimeIsSearch(j.fields[key]);
        if !j.fields[key].Obj? {
          OnlyObjects(TIME_QUEST, j.fields[key]);
        }
      }
    }
  }

  lemma {:induction false} ValueIsSearch(j: Json, wanted: seq<string>)
    ensures NestedValue(j, wanted) == OrEmpty(Search(ValueQuest(wanted), j))
    ensures Search(ValueQuest(wanted), j) != Some("")
    decreases j, 1, 0
  {
    OwnStringIs(j, wanted);
    match j
    case Arr(_) => ValueItems(j, 0, wanted);
    case Obj(_) =>
      if OwnString(j, wanted).None? {
        ValueFields(j, 0, wanted);
        assert NESTING_KEYS[0..] == NESTING_KEYS;
      }
    case _ =>
  }

  lemma {:induction false} ValueItems(j: Json, i: nat, wanted: seq<string>)
    requires j.Arr? && i <= |j.items|
    ensures NestedInItems(j, i, wanted) == OrEmpty(SearchItems(ValueQuest(wanted), j, i))
    ensures SearchItems(ValueQuest(wanted), j, i) != Some("")
    decreases j, 0, |j.items| - i
  {
    hide NestedValue, Search;
    if i < |j.items| {
      ValueIsSearch(j.items[i], wanted);
      ValueItems(j, i + 1, wanted);
    }
  }

  lemma {:induction false} ValueFields(j: Json, n: nat, wanted: seq<string>)
    requires j.Obj? && n <= |NESTING_KEYS|
    ensures NestedInFields(j, NESTING_KEYS[n..], wanted) == OrEmpty(SearchFields(ValueQuest(wanted), j, n))
    ensures SearchFields(ValueQuest(wanted), j, n) != Some("")
    decreases j, 0, |NESTING_KEYS| - n
  {
    hide NestedValue, Search;
    if n < |NESTING_KEYS| {
      var key, keys := NESTING_KEYS[n], NESTING_KEYS[n..];
      assert keys[1..] == NESTING_KEYS[n + 1..] && keys[0] == key;
      ValueFields(j, n + 1, wanted);
      if key in j.fields {
        ValueIsSearch(j.fields[key], wanted);
      }
    }
  }

  function NonEmpty(s: string): Option<string> {
    if s == "" then None else Some(s)
  }

  /** The reason of an event is the one at the first place that has one, and empty when no place has one. */
  lemma ReasonFound(j: Json) returns (path: seq<Step>)
    ensures Finds(REASON_QUEST, j, NonEmpty(EventReason(j)), path)
  {
    hide Search, EventReason, Finds, Distinct;
    NestingDistinct();
    ReasonIsSearch(j);
    path := SearchFinds(REASON_QUEST, j);
  }

  lemma RefFound(j: Json) returns (path: seq<Step>)
    ensures Finds(REF_QUEST, j, EventRef(j), path)
  {
    hide Search, EventRef, Finds, Distinct;
    NestingDistinct();
    RefIsSearch(j);
    path := SearchFinds(REF_QUEST, j);
  }

  lemma TimeFound(j: Json) returns (path: seq<Step>)
    ensures Finds(TIME_QUEST, j, EventTime(j), path)
  {
    hide Search, EventTime, Finds, Distinct;
    NestingDistinct();
    TimeIsSearch(j);
    path := SearchFinds(TIME_QUEST, j);
  }

  lemma ValueFound(j: Json, wanted: seq<string>) returns (path: seq<Step>)
    ensures Finds(ValueQuest(wanted), j, NonEmpty(NestedValue(j, wanted)), path)
  {
    hide Search, NestedValue, Finds, Distinct;
    NestingDistinct();
    ValueIsSearch(j, wanted);
    path := SearchFinds(ValueQuest(wanted), j);
  }

  // ---------- what kind of event it is ----------

  predicate Occurs(token: string, s: string) {
    exists i :: 0 <= i <= |s| - |token| && s[i..][..|token|] == token
  }

  lemma {:induction false} ContainsWhen(s: string, token: string)
    ensures Contains(s, token) <==> Occurs(token, s)
  {
    if token <= s {
      assert s[0..][..|token|] == token;
    } else if s != "" {
      ContainsWhen(s[1..], token);
      if Occurs(token, s[1..]) {
        var i :| 0 <= i <= |s[1..]| - |token| && s[1..][i..][..|token|] == token;
        assert s[i + 1..] == s[1..][i..];
      }
      if Occurs(token, s) {
        var i :| 0 <= i <= |s| - |token| && s[i..][..|token|] == token;
        assert i > 0;
        assert s[i..] == s[1..][i - 1..];
      }
    }
  }

  /** A token without a blank lies in one of the two parts, never across them. */
  lemma SpacedOccurs(a: string, b: string, token: string)
    requires ' ' !in token && token != ""
    ensures Occurs(token, Spaced(a, b)) <==> Occurs(token, a) || Occurs(token, b)
  {
    var s, n := Spaced(a, b), |token|;
    if a != "" && b != "" {
      assert s == a + " " + b && s[|a|] == ' ';
      if i :| 0 <= i <= |a| - n && a[i..][..n] == token {
        assert s[i..][..n] == token;
      }
      if i :| 0 <= i <= |b| - n && b[i..][..n] == token {
        var k := |a| + 1 + i;
        assert s[k..][..n] == token;
      }
      if i :| 0 <= i <= |s| - n && s[i..][..n] == token {
        NoBlankInside(s, token, i, |a|);
        if i + n <= |a| {
          assert a[i..][..n] == token;
        } else {
          var k := i - |a| - 1;
          assert b[k..][..n] == token;
        }
      }
    }
  }

  lemma NoBlankInside(s: string, token: string, i: nat, k: nat)
    requires ' ' !in token && i <= |s| - |token| && s[i..][..|token|] == token
    requires k < |s| && s[k] == ' '
    ensures k < i || i + |token| <= k
  {
    assert forall m :: i <= m < i + |token| ==> s[m] == token[m - i] && token[m - i] in token;
  }

  predicate OccursIn(tokens: seq<string>, s: string) {
    exists k :: 0 <= k < |tokens| && Occurs(tokens[k], s)
  }

  predicate AreWords(tokens: seq<string>) {
    forall k :: 0 <= k < |tokens| ==> tokens[k] != "" && ' ' !in tokens[k]
  }

  lemma TokensAreWords()
    ensures AreWords(FINAL_TOKENS) && AreWords(TOOL_TOKENS) && AreWords(ERROR_TOKENS)
  {
  }

  lemma ContainsAnyWhen(s: string, tokens: seq<string>)
    ensures ContainsAny(s, tokens) <==> OccursIn(tokens, s)
  {
    hide Contains, Occurs;
    forall k | 0 <= k < |tokens| ensures Contains(s, tokens[k]) <==> Occurs(tokens[k], s) {
      ContainsWhen(s, tokens[k]);
    }
  }

  lemma SpacedOccursIn(a: string, b: string, tokens: seq<string>)
    requires AreWords(tokens)
    ensures OccursIn(tokens, Spaced(a, b)) <==> OccursIn(tokens, a) || OccursIn(tokens, b)
  {
    hide Occurs, Spaced;
    forall k | 0 <= k < |tokens|
      ensures Occurs(tokens[k], Spaced(a, b)) <==> Occurs(tokens[k], a) || Occurs(tokens[k], b)
    {
      SpacedOccurs(a, b, tokens[k]);
    }
  }

  /** The type, the reason or the value of the event mentions one of the tokens. */
  predicate Mentions(j: Json, keys: seq<string>, tokens: seq<string>) {
    OccursIn(tokens, EventType(j)) || OccursIn(tokens, Folded(EventReason(j))) || OccursIn(tokens, Folded(NestedValue(j, keys)))
  }

  lemma HaystackMentions(j: Json, keys: seq<string>, tokens: seq<string>)
    requires AreWords(tokens)
    ensures ContainsAny(Haystack(j, keys), tokens) <==> Mentions(j, keys, tokens)
  {
    hide OccursIn, ContainsAny, EventType, EventReason, NestedValue, Folded, Spaced, AreWords;
    var kind, reason, value := EventType(j), Folded(EventReason(j)), Folded(NestedValue(j, keys));
    ContainsAnyWhen(Haystack(j, keys), tokens);
    SpacedOccursIn(Spaced(kind, reason), value, tokens);
    SpacedOccursIn(kind, reason, tokens);
  }

  /** An event is of a kind exactly when its type, its reason or its status mentions a word for it; no final event is a
      tool event. */
  lemma KindsMean(j: Json)
    ensures IsTool(j) <==> Mentions(j, TOOL_KEYS, TOOL_TOKENS)
    ensures IsError(j) <==> Mentions(j, STATUS_KEYS, ERROR_TOKENS)
    ensures IsFinal(j) <==> !IsTool(j) && Mentions(j, STATUS_KEYS, FINAL_TOKENS)
  {
    hide ContainsAny, Haystack, Mentions, AreWords;
    TokensAreWords();
    HaystackMentions(j, TOOL_KEYS, TOOL_TOKENS);
    HaystackMentions(j, STATUS_KEYS, ERROR_TOKENS);
    HaystackMentions(j, STATUS_KEYS, FINAL_TOKENS);
  }

  /** What a line adds to the observed text: what the event says, when an assistant or final event of no user speaks,
      and nothing otherwise. */
  lemma WhatIsSpoken(line: Option<Json>)
    ensures var text := Joined([SignalOf(line)]);
      if line.Some? && line.value.Obj? && !IsError(line.value) && !IsTool(line.value) && !IsUser(line.value)
         && (IsAssistant(line.value) || IsFinal(line.value))
      then Says(line.value, text)
      else text == ""
  {
    hide IsError, IsTool, IsUser, IsAssistant, IsFinal, EventText, EventReason, EventRef, EventTime, Says;
    assert [SignalOf(line)][..0] == [];
    if line.Some? {
      TextIsSaid(line.value);
    }
  }
}
