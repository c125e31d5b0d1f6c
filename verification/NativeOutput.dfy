/**
 * The observer of a native command-line tool's event stream: the reads it makes of one JSON event, and the loop that
 * gathers an observation from the lines.  A line that is blank or does not parse is None.
 */
module NativeOutput {
  import opened Wrappers
  import opened Json
  import opened Texts

  // ---------- text ----------

  /** The stripped text in lower case, with '-' as '_'. */
  function Folded(s: string): string {
    Dashed(Lower(Strip(s)))
  }

  function Dashed(s: string): string {
    seq(|s|, i requires 0 <= i < |s| => if s[i] == '-' then '_' else s[i])
  }

  predicate Contains(s: string, token: string) {
    token <= s || (s != "" && Contains(s[1..], token))
  }

  predicate ContainsAny(s: string, tokens: seq<string>) {
    exists k :: 0 <= k < |tokens| && Contains(s, tokens[k])
  }

  /** The non-empty items, with a blank between each two. */
  function Spaced(a: string, b: string): string {
    if a == "" then b else if b == "" then a else a + " " + b
  }

  // ---------- one event ----------

  const TEXT_KEYS := ["merged_text", "final_answer", "answer", "reply", "text", "output", "response", "content",
                      "payload", "message", "delta", "part", "result", "data"]
  const NESTING_KEYS := ["payload", "message", "part", "result", "data"]
  const REASON_KEYS := ["reason", "finish_reason", "stop_reason", "status", "state"]
  const REASON_NESTING_KEYS := ["payload", "properties", "part", "message", "result", "data"]
  const REF_KEYS := ["id", "message_id", "messageID", "session_id", "sessionID", "turn_id", "request_id"]
  const TIME_KEYS := ["completed_at", "time", "timestamp", "created_at", "updated_at"]
  const ROLE_KEYS := ["role", "sender", "author"]
  const STATUS_KEYS := ["status", "state"]
  const TOOL_KEYS := ["role", "status", "state", "name"]
  const TYPE_KEYS := ["type", "event", "kind", "name"]

  const ASSISTANT_TOKENS := ["assistant", "agent_message", "message_delta", "content_delta", "text"]
  const FINAL_TOKENS := ["final", "result", "completion", "completed", "done", "finished", "turn_end", "end_turn"]
  const TOOL_TOKENS := ["tool", "permission", "function_call"]
  const ERROR_TOKENS := ["error", "failed", "failure", "permission_denied", "unauthorized", "auth_failed"]

  function EventText(j: Json): string
    decreases j, 1, 0
  {
    match j
    case Str(s) => s
    case Arr(items) => JoinedText(j, 0)
    case Obj(_) => FirstText(j, TEXT_KEYS)
    case _ => ""
  }

  function JoinedText(j: Json, i: nat): string
    requires j.Arr? && i <= |j.items|
    decreases j, 0, |j.items| - i
  {
    if i == |j.items| then "" else EventText(j.items[i]) + JoinedText(j, i + 1)
  }

  /** The first non-empty text under the keys, in order. */
  function FirstText(j: Json, keys: seq<string>): string
    requires j.Obj?
    decreases j, 0, |keys|
  {
    if keys == [] then ""
    else
      var text := if keys[0] in j.fields then EventText(j.fields[keys[0]]) else "";
      if text != "" then text else FirstText(j, keys[1..])
  }

  /** The first non-empty string under the keys of the object itself. */
  function OwnString(j: Json, keys: seq<string>): Option<string> {
    if keys == [] then None
    else if Get(j, keys[0]).Str? && Get(j, keys[0]).text != "" then Some(Get(j, keys[0]).text)
    else OwnString(j, keys[1..])
  }

  function EventReason(j: Json): string
    decreases j, 1, 0
  {
    if OwnString(j, REASON_KEYS).Some? then Strip(OwnString(j, REASON_KEYS).value)
    else if j.Obj? then NestedReason(j, REASON_NESTING_KEYS)
    else ""
  }

  function NestedReason(j: Json, keys: seq<string>): string
    requires j.Obj?
    decreases j, 0, |keys|
  {
    if keys == [] then ""
    else
      var reason := if keys[0] in j.fields && j.fields[keys[0]].Obj? then EventReason(j.fields[keys[0]]) else "";
      if reason != "" then reason else NestedReason(j, keys[1..])
  }

  function OwnRef(j: Json, keys: seq<string>): Option<string> {
    if keys == [] then None
    else if Get(j, keys[0]).Str? && Strip(Get(j, keys[0]).text) != "" then Some(Strip(Get(j, keys[0]).text))
    else OwnRef(j, keys[1..])
  }

  function EventRef(j: Json): Option<string>
    decreases j, 1, 0
  {
    if OwnRef(j, REF_KEYS).Some? then OwnRef(j, REF_KEYS)
    else if j.Obj? then NestedRef(j, NESTING_KEYS)
    else None
  }

  function NestedRef(j: Json, keys: seq<string>): Option<string>
    requires j.Obj?
    decreases j, 0, |keys|
  {
    if keys == [] then None
    else
      var ref := if keys[0] in j.fields && j.fields[keys[0]].Obj? then EventRef(j.fields[keys[0]]) else None;
      if ref.Some? then ref else NestedRef(j, keys[1..])
  }

  predicate Truthy(j: Json) {
    match j
    case Null => false
    case Bool(b) => b
    case Num(n) => n != 0
    case Str(s) => s != ""
    case Arr(items) => items != []
    case Obj(fields) => fields != map[]
  }

  function OwnTime(j: Json, keys: seq<string>): Option<Json> {
    if keys == [] then None
    else if Truthy(Get(j, keys[0])) then Some(Get(j, keys[0]))
    else OwnTime(j, keys[1..])
  }

  function EventTime(j: Json): Option<Json>
    decreases j, 1, 0
  {
    if OwnTime(j, TIME_KEYS).Some? then OwnTime(j, TIME_KEYS)
    else if j.Obj? then NestedTime(j, NESTING_KEYS)
    else None
  }

  function NestedTime(j: Json, keys: seq<string>): Option<Json>
    requires j.Obj?
    decreases j, 0, |keys|
  {
    if keys == [] then None
    else
      var time := if keys[0] in j.fields && j.fields[keys[0]].Obj? then EventTime(j.fields[keys[0]]) else None;
      if time.Some? then time else NestedTime(j, keys[1..])
  }

  /** The first non-empty string under the wanted keys, here or in the values the event nests. */
  function NestedValue(j: Json, wanted: seq<string>): string
    decreases j, 1, 0
  {
    match j
    case Arr(_) => NestedInItems(j, 0, wanted)
    case Obj(_) =>
      if OwnString(j, wanted).Some? then OwnString(j, wanted).value else NestedInFields(j, NESTING_KEYS, wanted)
    case _ => ""
  }

  function NestedInItems(j: Json, i: nat, wanted: seq<string>): string
    requires j.Arr? && i <= |j.items|
    decreases j, 0, |j.items| - i
  {
    if i == |j.items| then ""
    else
      var value := NestedValue(j.items[i], wanted);
      if value != "" then value else NestedInItems(j, i + 1, wanted)
  }

  function NestedInFields(j: Json, keys: seq<string>, wanted: seq<string>): string
    requires j.Obj?
    decreases j, 0, |keys|
  {
    if keys == [] then ""
    else
      var value := if keys[0] in j.fields then NestedValue(j.fields[keys[0]], wanted) else "";
      if value != "" then value else NestedInFields(j, keys[1..], wanted)
  }

  function EventType(j: Json): string {
    Folded(NestedValue(j, TYPE_KEYS))
  }

  function Haystack(j: Json, keys: seq<string>): string {
    Spaced(Spaced(EventType(j), Folded(EventReason(j))), Folded(NestedValue(j, keys)))
  }

  predicate IsUser(j: Json) {
    Lower(Strip(NestedValue(j, ROLE_KEYS))) == "user"
  }

  predicate IsAssistant(j: Json) {
    Lower(Strip(NestedValue(j, ROLE_KEYS))) in {"assistant", "agent", "model"} || ContainsAny(EventType(j), ASSISTANT_TOKENS)
  }

  predicate IsTool(j: Json) {
    ContainsAny(Haystack(j, TOOL_KEYS), TOOL_TOKENS)
  }

  predicate IsError(j: Json) {
    ContainsAny(Haystack(j, STATUS_KEYS), ERROR_TOKENS)
  }

  predicate IsFinal(j: Json) {
    !IsTool(j) && ContainsAny(Haystack(j, STATUS_KEYS), FINAL_TOKENS)
  }

  function AssistantText(j: Json): string {
    if IsUser(j) then ""
    else if !(IsAssistant(j) || IsFinal(j)) then ""
    else EventText(j)
  }

  // ---------- where the text of an event comes from ----------

  /** A non-empty string lies at the end of the path, and every step down is through a list or a text key. */
  ghost predicate TextAt(j: Json, path: seq<Step>)
    decreases |path|
  {
    if path == [] then j.Str? && j.text != ""
    else
      match path[0]
      case Field(key) => j.Obj? && key in TEXT_KEYS && key in j.fields && TextAt(j.fields[key], path[1..])
      case Item(i) => j.Arr? && i < |j.items| && TextAt(j.items[i], path[1..])
  }

  ghost predicate TextFromItem(j: Json, i: nat) {
    exists path: seq<Step> :: TextAt(j, path) && path != [] && path[0].Item? && path[0].index >= i
  }

  ghost predicate TextUnder(j: Json, keys: seq<string>) {
    exists path: seq<Step> :: TextAt(j, path) && path != [] && path[0].Field? && path[0].key in keys
  }

  ghost predicate HasText(j: Json) {
    exists path :: TextAt(j, path)
  }

  /** An event has a text exactly when some non-empty string can be reached through lists and text keys. */
  lemma {:induction false} TextIffReached(j: Json)
    ensures EventText(j) != "" <==> HasText(j)
    decreases j, 1, 0
  {
    match j
    case Str(s) =>
      if s != "" {
        assert TextAt(j, []);
      }
    case Arr(items) =>
      JoinedIffReached(j, 0);
    case Obj(_) =>
      FirstIffReached(j, TEXT_KEYS);
    case _ =>
  }

  lemma {:induction false} JoinedIffReached(j: Json, i: nat)
    requires j.Arr? && i <= |j.items|
    ensures JoinedText(j, i) != "" <==> TextFromItem(j, i)
    decreases j, 0, |j.items| - i
  {
    if i < |j.items| {
      TextIffReached(j.items[i]);
      JoinedIffReached(j, i + 1);
      StepDown(j, Item(i), j.items[i]);
      assert TextFromItem(j, i) <==> TextFromItem(j, i + 1) || TextThrough(j, Item(i));
    }
  }

  ghost predicate TextThrough(j: Json, step: Step) {
    exists path: seq<Step> :: TextAt(j, path) && path != [] && path[0] == step
  }

  /** Paths out of a value through one step are the paths of the value below, with that step before them. */
  lemma StepDown(j: Json, step: Step, below: Json)
    requires match step
      case Field(key) => j.Obj? && key in TEXT_KEYS && key in j.fields && j.fields[key] == below
      case Item(i) => j.Arr? && i < |j.items| && j.items[i] == below
    ensures HasText(below) <==> TextThrough(j, step)
  {
    if HasText(below) {
      var path :| TextAt(below, path);
      assert ([step] + path)[1..] == path;
      assert TextAt(j, [step] + path);
    }
    if TextThrough(j, step) {
      var path: seq<Step> :| TextAt(j, path) && path != [] && path[0] == step;
      assert TextAt(below, path[1..]);
    }
  }

  lemma {:induction false} FirstIffReached(j: Json, keys: seq<string>)
    requires j.Obj? && forall k :: k in keys ==> k in TEXT_KEYS
    ensures FirstText(j, keys) != "" <==> TextUnder(j, keys)
    decreases j, 0, |keys|
  {
    if keys != [] {
      FirstIffReached(j, keys[1..]);
      if keys[0] in j.fields {
        TextIffReached(j.fields[keys[0]]);
        StepDown(j, Field(keys[0]), j.fields[keys[0]]);
      }
      assert forall k :: k in keys <==> k == keys[0] || k in keys[1..];
      assert TextUnder(j, keys) <==> TextUnder(j, keys[1..]) || TextThrough(j, Field(keys[0]));
    }
  }

  // ---------- the observation ----------

  datatype Observation = Observation(text: string, finished: bool, finishReason: string, turnRef: Option<string>,
                                     completedAt: Option<Json>, error: string, intermediate: bool)

  const EMPTY := Observation("", false, "", None, None, "", false)

  /** What one line contributes. */
  datatype Signal =
    | Trouble(message: string)
    | ToolUse(reason: string)
    | Speech(text: string, last: bool, reason: string, ref: Option<string>, time: Option<Json>)
    | Silence

  function SignalOf(line: Option<Json>): Signal {
    if line.None? || !line.value.Obj? then Silence
    else
      var event := line.value;
      if IsError(event) then
        Trouble(if EventText(event) != "" then EventText(event)
                else if EventReason(event) != "" then EventReason(event) else "native_cli_error")
      else if IsTool(event) then ToolUse(EventReason(event))
      else if AssistantText(event) != "" || IsFinal(event) then
        Speech(AssistantText(event), IsFinal(event), EventReason(event), EventRef(event), EventTime(event))
      else Silence
  }

  function Signals(lines: seq<Option<Json>>): (gs: seq<Signal>)
    ensures |gs| == |lines|
  {
    seq(|lines|, i requires 0 <= i < |lines| => SignalOf(lines[i]))
  }

  function Joined(gs: seq<Signal>): string {
    if gs == [] then ""
    else Joined(gs[..|gs| - 1]) + (if gs[|gs| - 1].Speech? then gs[|gs| - 1].text else "")
  }

  function FirstSome<T>(xs: seq<Option<T>>): Option<T> {
    if xs == [] then None else if xs[0].Some? then xs[0] else FirstSome(xs[1..])
  }

  function LastSome<T>(xs: seq<Option<T>>): Option<T> {
    if xs == [] then None else if xs[|xs| - 1].Some? then xs[|xs| - 1] else LastSome(xs[..|xs| - 1])
  }

  function TroubleOf(g: Signal): Option<string> {
    if g.Trouble? then Some(g.message) else None
  }

  function ReasonOf(g: Signal): Option<string> {
    if (g.ToolUse? || (g.Speech? && g.last)) && g.reason != "" then Some(g.reason) else None
  }

  function RefOf(g: Signal): Option<string> {
    if g.Speech? then g.ref else None
  }

  function TimeOf(g: Signal): Option<Json> {
    if g.Speech? then g.time else None
  }

  function Each<T>(gs: seq<Signal>, f: Signal -> Option<T>): (xs: seq<Option<T>>) {
    seq(|gs|, i requires 0 <= i < |gs| => f(gs[i]))
  }

  predicate Finishes(gs: seq<Signal>) {
    exists g :: g in gs && g.Speech? && g.last
  }

  predicate UsesTools(gs: seq<Signal>) {
    exists g :: g in gs && g.ToolUse?
  }

  function Or<T>(a: Option<T>, b: Option<T>): Option<T> {
    if a.Some? then a else b
  }

  /** The reason after more signals: the last one given; else, once finished, the one before or "completed". */
  function ReasonAfter(reason: string, gs: seq<Signal>): string {
    var given := LastSome(Each(gs, ReasonOf));
    if given.Some? then given.value else if Finishes(gs) && reason == "" then "completed" else reason
  }

  /** The observation of a stream that continues one already observed, field by field. */
  function Resume(o: Observation, gs: seq<Signal>): Observation {
    Observation(o.text + Joined(gs),
                o.finished || Finishes(gs),
                ReasonAfter(o.finishReason, gs),
                Or(o.turnRef, FirstSome(Each(gs, RefOf))),
                Or(o.completedAt, FirstSome(Each(gs, TimeOf))),
                if LastSome(Each(gs, TroubleOf)).Some? then LastSome(Each(gs, TroubleOf)).value else o.error,
                o.intermediate || UsesTools(gs))
  }

  // ---------- the loop ----------

  /** What reading the stream gives: there is no such file, it cannot be read, or its lines. */
  datatype Stream = Missing | Unreadable(why: string) | Lines(lines: seq<Option<Json>>)

  /** The loop observes each field as the closed form says. */
  method Observe(stream: Stream) returns (o: Observation)
    ensures stream.Missing? ==> o == EMPTY
    ensures stream.Unreadable? ==> o == EMPTY.(error := "read_stdout_failed:" + stream.why)
    ensures stream.Lines? ==> o == Resume(EMPTY, Signals(stream.lines))
  {
    hide IsError, IsTool, AssistantText, IsFinal, EventText, EventReason, EventRef, EventTime, Resume;
    if stream.Missing? {
      return EMPTY;
    }
    if stream.Unreadable? {
      return EMPTY.(error := "read_stdout_failed:" + stream.why);
    }
    var lines := stream.lines;
    var text, finished, finishReason, intermediate, error := "", false, "", false, "";
    var turnRef: Option<string>, completedAt: Option<Json> := None, None;
    ResumeNothing(EMPTY);
    var i := 0;
    while i < |lines|
      invariant 0 <= i <= |lines|
      invariant Observation(text, finished, finishReason, turnRef, completedAt, error, intermediate)
             == Resume(EMPTY, Signals(lines[..i]))
    {
      ghost var before := Observation(text, finished, finishReason, turnRef, completedAt, error, intermediate);
      var line := lines[i];
      if line.Some? && line.value.Obj? {
        var event := line.value;
        if IsError(event) {
          error := if EventText(event) != "" then EventText(event)
                   else if EventReason(event) != "" then EventReason(event) else "native_cli_error";
        } else if IsTool(event) {
          intermediate := true;
          var reason := EventReason(event);
          if reason != "" {
            finishReason := reason;
          }
        } else {
          var spoken := AssistantText(event);
          if spoken != "" {
            text := text + spoken;
            turnRef := Or(turnRef, EventRef(event));
            completedAt := Or(completedAt, EventTime(event));
          }
          if IsFinal(event) {
            finished := true;
            finishReason := if EventReason(event) != "" then EventReason(event)
                            else if finishReason != "" then finishReason else "completed";
            turnRef := Or(turnRef, EventRef(event));
            completedAt := Or(completedAt, EventTime(event));
          }
        }
      }
      ResumeOne(before, SignalOf(line));
      assert Signals(lines[..i + 1]) == Signals(lines[..i]) + [SignalOf(line)];
      ResumeTwice(EMPTY, Signals(lines[..i]), [SignalOf(line)]);
      i := i + 1;
    }
    assert lines[..|lines|] == lines;
    return Observation(text, finished, finishReason, turnRef, completedAt, error, intermediate);
  }

  lemma ResumeNothing(o: Observation)
    ensures Resume(o, []) == o
  {
  }

  /** One signal's effect, spelled out. */
  lemma ResumeOne(o: Observation, g: Signal)
    ensures Resume(o, [g]) == match g
      case Trouble(message) => o.(error := message)
      case ToolUse(reason) => o.(intermediate := true, finishReason := if reason != "" then reason else o.finishReason)
      case Speech(text, last, reason, ref, time) =>
        o.(text := o.text + text, finished := o.finished || last,
           finishReason := if !last then o.finishReason else if reason != "" then reason
                           else if o.finishReason != "" then o.finishReason else "completed",
           turnRef := Or(o.turnRef, ref), completedAt := Or(o.completedAt, time))
      case Silence => o
  {
    assert Finishes([g]) <==> g.Speech? && g.last by { assert g in [g]; }
    assert UsesTools([g]) <==> g.ToolUse? by { assert g in [g]; }
    assert Each([g], RefOf) == [RefOf(g)];
    assert Each([g], TimeOf) == [TimeOf(g)];
    assert Each([g], ReasonOf) == [ReasonOf(g)];
    assert Each([g], TroubleOf) == [TroubleOf(g)];
    assert [g][..0] == [];
    assert Joined([g]) == if g.Speech? then g.text else "";
    OneEach(RefOf(g));
    OneEach(TimeOf(g));
    OneEach(ReasonOf(g));
    OneEach(TroubleOf(g));
    assert o.text + ("" + (if g.Speech? then g.text else "")) == o.text + (if g.Speech? then g.text else "");
  }

  lemma OneEach<T>(x: Option<T>)
    ensures FirstSome([x]) == x && LastSome([x]) == x
  {
    assert [x][1..] == [] && [x][..0] == [];
  }

  // ---------- the observer resumes ----------

  lemma {:induction false} JoinedSplits(a: seq<Signal>, b: seq<Signal>)
    ensures Joined(a + b) == Joined(a) + Joined(b)
  {
    if b == [] {
      assert a + b == a;
    } else {
      assert (a + b)[..|a + b| - 1] == a + b[..|b| - 1];
      JoinedSplits(a, b[..|b| - 1]);
    }
  }

  lemma {:induction false} FirstSplits<T>(a: seq<Option<T>>, b: seq<Option<T>>)
    ensures FirstSome(a + b) == Or(FirstSome(a), FirstSome(b))
  {
    if a == [] {
      assert a + b == b;
    } else {
      assert (a + b)[1..] == a[1..] + b;
      FirstSplits(a[1..], b);
    }
  }

  lemma {:induction false} LastSplits<T>(a: seq<Option<T>>, b: seq<Option<T>>)
    ensures LastSome(a + b) == Or(LastSome(b), LastSome(a))
  {
    if b == [] {
      assert a + b == a;
    } else {
      assert (a + b)[..|a + b| - 1] == a + b[..|b| - 1];
      LastSplits(a, b[..|b| - 1]);
    }
  }

  lemma EachSplits<T>(a: seq<Signal>, b: seq<Signal>, f: Signal -> Option<T>)
    ensures Each(a + b, f) == Each(a, f) + Each(b, f)
  {
  }

  /** Observing two stretches one after the other, the second from where the first ended, is observing them as one:
      text is the concatenation, finished and intermediate are disjunctions, the error and the given reason are the last
      ones, the reference and the time the first ones. */
  lemma ResumeTwice(o: Observation, a: seq<Signal>, b: seq<Signal>)
    ensures Resume(o, a + b) == Resume(Resume(o, a), b)
  {
    hide Joined, FirstSome, LastSome, Each;
    JoinedSplits(a, b);
    assert o.text + (Joined(a) + Joined(b)) == (o.text + Joined(a)) + Joined(b);
    EachSplits(a, b, RefOf);
    EachSplits(a, b, TimeOf);
    EachSplits(a, b, ReasonOf);
    EachSplits(a, b, TroubleOf);
    FirstSplits(Each(a, RefOf), Each(b, RefOf));
    FirstSplits(Each(a, TimeOf), Each(b, TimeOf));
    LastSplits(Each(a, ReasonOf), Each(b, ReasonOf));
    LastSplits(Each(a, TroubleOf), Each(b, TroubleOf));
    GivenIsNotEmpty(a);
    DisjunctionsSplit(a, b);
  }

  lemma {:induction false} GivenIsNotEmpty(gs: seq<Signal>)
    ensures LastSome(Each(gs, ReasonOf)).Some? ==> LastSome(Each(gs, ReasonOf)).value != ""
  {
    if gs != [] {
      GivenIsNotEmpty(gs[..|gs| - 1]);
      assert Each(gs, ReasonOf)[..|gs| - 1] == Each(gs[..|gs| - 1], ReasonOf);
      assert Each(gs, ReasonOf)[|gs| - 1] == ReasonOf(gs[|gs| - 1]);
    }
  }

  lemma DisjunctionsSplit(a: seq<Signal>, b: seq<Signal>)
    ensures Finishes(a + b) <==> Finishes(a) || Finishes(b)
    ensures UsesTools(a + b) <==> UsesTools(a) || UsesTools(b)
  {
    assert forall g :: g in a + b <==> g in a || g in b;
  }

  // ---------- what the observation says about the lines ----------

  lemma {:induction false} FirstIs<T>(xs: seq<Option<T>>)
    ensures FirstSome(xs).None? <==> forall i :: 0 <= i < |xs| ==> xs[i].None?
    ensures FirstSome(xs).Some? ==>
      exists i :: 0 <= i < |xs| && xs[i] == FirstSome(xs) && forall j :: 0 <= j < i ==> xs[j].None?
  {
    if xs != [] && xs[0].None? {
      FirstIs(xs[1..]);
      assert forall i :: 1 <= i < |xs| ==> xs[i] == xs[1..][i - 1];
      if FirstSome(xs).Some? {
        var i :| 0 <= i < |xs| - 1 && xs[1..][i] == FirstSome(xs) && forall j :: 0 <= j < i ==> xs[1..][j].None?;
        assert xs[i + 1] == FirstSome(xs);
      }
    }
  }

  lemma {:induction false} LastIs<T>(xs: seq<Option<T>>)
    ensures LastSome(xs).None? <==> forall i :: 0 <= i < |xs| ==> xs[i].None?
    ensures LastSome(xs).Some? ==>
      exists i :: 0 <= i < |xs| && xs[i] == LastSome(xs) && forall j :: i < j < |xs| ==> xs[j].None?
  {
    if xs != [] && xs[|xs| - 1].None? {
      var most := xs[..|xs| - 1];
      LastIs(most);
      assert LastSome(xs) == LastSome(most);
      hide LastSome;
      assert forall i :: 0 <= i < |xs| - 1 ==> xs[i] == most[i];
      if LastSome(xs).Some? {
        var i :| 0 <= i < |most| && most[i] == LastSome(most) && forall j :: i < j < |most| ==> most[j].None?;
        assert xs[i] == LastSome(xs);
        assert forall j :: i < j < |xs| ==> xs[j].None?;
      }
    }
  }

  predicate ErrorLine(line: Option<Json>) {
    line.Some? && line.value.Obj? && IsError(line.value)
  }

  lemma ErrorSignal(line: Option<Json>)
    ensures SignalOf(line).Trouble? <==> ErrorLine(line)
    ensures SignalOf(line).Trouble? ==> SignalOf(line).message != ""
  {
    hide IsError, EventText, EventReason, IsTool, AssistantText, IsFinal, EventRef, EventTime;
  }

  /** The observed error is the message of the last error line, and it is empty exactly when no line is an error. */
  lemma ErrorIsLast(lines: seq<Option<Json>>)
    ensures var error := Resume(EMPTY, Signals(lines)).error;
      if forall i :: 0 <= i < |lines| ==> !ErrorLine(lines[i]) then error == ""
      else error != "" && exists i :: 0 <= i < |lines| && ErrorLine(lines[i]) && SignalOf(lines[i]) == Trouble(error)
                                      && forall j :: i < j < |lines| ==> !ErrorLine(lines[j])
  {
    hide IsError, EventText, EventReason, IsTool, AssistantText, IsFinal, EventRef, EventTime;
    var xs := Each(Signals(lines), TroubleOf);
    LastIs(xs);
    forall i | 0 <= i < |lines|
      ensures xs[i] == TroubleOf(SignalOf(lines[i])) && (xs[i].Some? <==> ErrorLine(lines[i]))
    {
      ErrorSignal(lines[i]);
    }
    if LastSome(xs).Some? {
      var i :| 0 <= i < |xs| && xs[i] == LastSome(xs) && forall j :: i < j < |xs| ==> xs[j].None?;
      ErrorSignal(lines[i]);
      assert xs[i] == TroubleOf(SignalOf(lines[i]));
      assert SignalOf(lines[i]) == Trouble(LastSome(xs).value);
      assert forall j :: i < j < |lines| ==> xs[j].None?;
    }
  }

  /** A line adds text exactly when it is an assistant or final event of no user, neither an error nor a tool event, and
      some non-empty string can be reached in it through lists and text keys. */
  lemma WhoSpeaks(line: Option<Json>)
    ensures Joined([SignalOf(line)]) != "" <==>
      && line.Some? && line.value.Obj?
      && !IsError(line.value) && !IsTool(line.value) && !IsUser(line.value)
      && (IsAssistant(line.value) || IsFinal(line.value)) && HasText(line.value)
  {
    hide IsError, IsTool, IsUser, IsAssistant, IsFinal, EventText, EventReason, EventRef, EventTime, HasText;
    assert [SignalOf(line)][..0] == [];
    if line.Some? {
      TextIffReached(line.value);
    }
  }

  // ---------- when observations combine ----------

  function Observed(lines: seq<Option<Json>>): Observation {
    Resume(EMPTY, Signals(lines))
  }

  /** Putting two observations together field by field: what the later stream says wins where the last one counts. */
  function Combine(p: Observation, q: Observation): Observation {
    Observation(p.text + q.text, p.finished || q.finished, if q.finishReason != "" then q.finishReason else p.finishReason,
                Or(p.turnRef, q.turnRef), Or(p.completedAt, q.completedAt), if q.error != "" then q.error else p.error,
                p.intermediate || q.intermediate)
  }

  /** The stream finishes and no tool or final event in it gives a reason. */
  predicate FinishesSilently(gs: seq<Signal>) {
    Finishes(gs) && LastSome(Each(gs, ReasonOf)).None?
  }

  lemma {:induction false} TroubleIsNotEmpty(gs: seq<Signal>)
    requires forall g :: g in gs && g.Trouble? ==> g.message != ""
    ensures LastSome(Each(gs, TroubleOf)).Some? ==> LastSome(Each(gs, TroubleOf)).value != ""
  {
    if gs != [] {
      TroubleIsNotEmpty(gs[..|gs| - 1]);
      assert Each(gs, TroubleOf)[..|gs| - 1] == Each(gs[..|gs| - 1], TroubleOf);
      assert Each(gs, TroubleOf)[|gs| - 1] == TroubleOf(gs[|gs| - 1]);
      assert gs[|gs| - 1] in gs;
    }
  }

  /** The two observations combine into that of the joined stream exactly unless the second stream finishes silently
      after a first one that already has a reason other than "completed". */
  lemma CombinesWhen(a: seq<Option<Json>>, b: seq<Option<Json>>)
    ensures Observed(a + b) == Combine(Observed(a), Observed(b))
      <==> !(FinishesSilently(Signals(b)) && Observed(a).finishReason !in {"", "completed"})
  {
    hide SignalOf, Joined, FirstSome, LastSome, Each, Finishes, UsesTools;
    var gs, o := Signals(b), Observed(a);
    assert Signals(a + b) == Signals(a) + gs;
    ResumeTwice(EMPTY, Signals(a), gs);
    assert "" + Joined(gs) == Joined(gs);
    GivenIsNotEmpty(gs);
    forall g | g in gs && g.Trouble?
      ensures g.message != ""
    {
      var i :| 0 <= i < |gs| && gs[i] == g;
      ErrorSignal(b[i]);
    }
    TroubleIsNotEmpty(gs);
  }

  // ---------- three lines of output ----------

  /** A line with a type, and with a reason unless it is empty. */
  function Line(kind: string, reason: string): Json {
    Obj(if reason == "" then map["type" := Str(kind)] else map["type" := Str(kind), "reason" := Str(reason)])
  }

  lemma {:induction false} MissingLetter(s: string, token: string, c: char)
    requires c in token && c !in s
    ensures !Contains(s, token)
  {
    if s != "" {
      MissingLetter(s[1..], token, c);
    }
  }

  lemma {:induction false} NoneUnder(j: Json, keys: seq<string>, wanted: seq<string>)
    requires j.Obj? && forall k :: k in keys ==> k !in j.fields
    ensures FirstText(j, keys) == "" && NestedReason(j, keys) == "" && NestedInFields(j, keys, wanted) == ""
    ensures NestedRef(j, keys).None? && NestedTime(j, keys).None?
    ensures OwnString(j, keys).None? && OwnRef(j, keys).None? && OwnTime(j, keys).None?
  {
    if keys != [] {
      assert keys[0] in keys;
      NoneUnder(j, keys[1..], wanted);
    }
  }

  lemma KeysElsewhere(k: string)
    requires k == "type" || k == "reason"
    ensures k !in TEXT_KEYS && k !in NESTING_KEYS && k !in REASON_NESTING_KEYS
    ensures k !in REF_KEYS && k !in TIME_KEYS && k !in ROLE_KEYS && k !in STATUS_KEYS && k !in TOOL_KEYS
  {
    assert k[1] == 'y' || k[1] == 'e';
  }

  /** The event holds none of the keys. */
  predicate Lacks(j: Json, keys: seq<string>) {
    j.Obj? && forall k :: k in keys ==> k !in j.fields
  }

  lemma LacksText(j: Json)
    requires Lacks(j, TEXT_KEYS)
    ensures EventText(j) == ""
  {
    hide FirstText;
    NoneUnder(j, TEXT_KEYS, []);
  }

  lemma LacksRefAndTime(j: Json)
    requires Lacks(j, REF_KEYS) && Lacks(j, TIME_KEYS) && Lacks(j, NESTING_KEYS)
    ensures EventRef(j).None? && EventTime(j).None?
  {
    hide NestedRef, NestedTime, OwnRef, OwnTime;
    NoneUnder(j, REF_KEYS, []);
    NoneUnder(j, TIME_KEYS, []);
    NoneUnder(j, NESTING_KEYS, []);
  }

  lemma LacksValue(j: Json, wanted: seq<string>)
    requires Lacks(j, NESTING_KEYS)
    ensures NestedValue(j, wanted) == if OwnString(j, wanted).Some? then OwnString(j, wanted).value else ""
  {
    hide NestedInFields, OwnString;
    NoneUnder(j, NESTING_KEYS, wanted);
  }

  lemma LacksNestedReason(j: Json)
    requires Lacks(j, REASON_NESTING_KEYS)
    ensures EventReason(j) == if OwnString(j, REASON_KEYS).Some? then Strip(OwnString(j, REASON_KEYS).value) else ""
  {
    hide NestedReason, OwnString;
    NoneUnder(j, REASON_NESTING_KEYS, []);
  }

  lemma LineLacks(kind: string, reason: string)
    ensures var j := Line(kind, reason);
      && Lacks(j, TEXT_KEYS) && Lacks(j, REF_KEYS) && Lacks(j, TIME_KEYS) && Lacks(j, NESTING_KEYS)
      && Lacks(j, REASON_NESTING_KEYS) && Lacks(j, ROLE_KEYS) && Lacks(j, STATUS_KEYS) && Lacks(j, TOOL_KEYS)
  {
    var j := Line(kind, reason);
    KeysElsewhere("type");
    KeysElsewhere("reason");
    assert forall k :: k in j.fields ==> k == "type" || k == "reason";
  }

  /** What the reads make of such a line. */
  lemma LineReads(kind: string, reason: string)
    requires kind != ""
    ensures var j := Line(kind, reason);
      && EventText(j) == "" && EventRef(j).None? && EventTime(j).None?
      && NestedValue(j, TYPE_KEYS) == kind && EventReason(j) == (if reason == "" then "" else Strip(reason))
      && NestedValue(j, ROLE_KEYS) == "" && NestedValue(j, STATUS_KEYS) == "" && NestedValue(j, TOOL_KEYS) == ""
  {
    var j := Line(kind, reason);
    assert OwnString(j, TYPE_KEYS) == Some(kind);
    hide *;
    LineLacks(kind, reason);
    LacksText(j);
    LacksRefAndTime(j);
    LacksNestedReason(j);
    ReasonOfLine(kind, reason);
    LacksValue(j, TYPE_KEYS);
    LacksOwn(j, ROLE_KEYS);
    LacksOwn(j, STATUS_KEYS);
    LacksOwn(j, TOOL_KEYS);
    LacksValue(j, ROLE_KEYS);
    LacksValue(j, STATUS_KEYS);
    LacksValue(j, TOOL_KEYS);
  }

  lemma LacksOwn(j: Json, keys: seq<string>)
    requires Lacks(j, keys)
    ensures OwnString(j, keys).None?
  {
    NoneUnder(j, keys, []);
  }

  lemma ReasonOfLine(kind: string, reason: string)
    ensures OwnString(Line(kind, reason), REASON_KEYS) == if reason == "" then None else Some(reason)
  {
    var j := Line(kind, reason);
    if reason == "" {
      var k := "type";
      assert k !in REASON_KEYS by {
        assert k[1] == 'y';
      }
      assert forall x :: x in j.fields ==> x == k;
      NoneUnder(j, REASON_KEYS, []);
    }
  }

  /** Text that folding leaves alone. */
  predicate Tidy(s: string) {
    && s != "" && !IsSpace(s[0]) && !IsSpace(s[|s| - 1])
    && forall i :: 0 <= i < |s| ==> s[i] != '-' && !('A' <= s[i] <= 'Z')
  }

  lemma FoldsToItself(s: string)
    requires Tidy(s)
    ensures Strip(s) == s && Folded(s) == s
  {
    assert Lower(s) == s;
    assert Dashed(s) == s;
  }

  lemma HaystackOfLine(kind: string, reason: string, keys: seq<string>)
    requires Tidy(kind) && (reason == "" || Tidy(reason)) && keys in [STATUS_KEYS, TOOL_KEYS]
    ensures Haystack(Line(kind, reason), keys) == (if reason == "" then kind else kind + " " + reason)
    ensures EventType(Line(kind, reason)) == kind && EventReason(Line(kind, reason)) == reason
    ensures !IsUser(Line(kind, reason)) && AssistantText(Line(kind, reason)) == ""
  {
    hide NestedValue, EventReason, EventText;
    LineReads(kind, reason);
    FoldsToItself(kind);
    if reason != "" {
      FoldsToItself(reason);
    }
    assert Folded("") == "";
  }

  lemma NoErrorIn(s: string)
    requires 'f' !in s && 'u' !in s && ('e' !in s || 'r' !in s) && ('r' !in s || 'p' !in s)
    ensures !ContainsAny(s, ERROR_TOKENS)
  {
    hide Contains;
    MissingLetter(s, "error", if 'e' !in s then 'e' else 'r');
    MissingLetter(s, "failed", 'f');
    MissingLetter(s, "failure", 'f');
    MissingLetter(s, "permission_denied", if 'r' !in s then 'r' else 'p');
    MissingLetter(s, "unauthorized", 'u');
    MissingLetter(s, "auth_failed", 'f');
  }

  lemma NoToolIn(s: string)
    requires 'f' !in s && 'r' !in s && Apart(s, 'o')
    ensures !ContainsAny(s, TOOL_TOKENS)
  {
    hide Contains;
    MissingLetter(s, "permission", 'r');
    MissingLetter(s, "function_call", 'f');
    NoDoubleO(s);
  }

  predicate Apart(s: string, c: char) {
    forall i :: 0 <= i < |s| - 1 ==> !(s[i] == s[i + 1] == c)
  }

  lemma {:induction false} NoDoubleO(s: string)
    requires Apart(s, 'o')
    ensures !Contains(s, "tool")
  {
    if s != "" {
      assert |s| >= 3 ==> !(s[1] == s[1 + 1] == 'o');
      assert Apart(s[1..], 'o');
      NoDoubleO(s[1..]);
    }
  }

  lemma StartsWith(s: string, tokens: seq<string>, k: nat)
    requires k < |tokens| && tokens[k] <= s
    ensures ContainsAny(s, tokens)
  {
    assert Contains(s, tokens[k]);
  }

  lemma ToolLine()
    ensures SignalOf(Some(Line("tool", "x"))) == ToolUse("x")
  {
    var j, s := Line("tool", "x"), "tool" + " " + "x";
    assert j.Obj?;
    hide *;
    ToolTidy();
    ToolLetters();
    HaystackOfLine("tool", "x", STATUS_KEYS);
    HaystackOfLine("tool", "x", TOOL_KEYS);
    NoErrorIn(s);
    StartsWith(s, TOOL_TOKENS, 0);
    IsToolSignal(j, s, "x");
  }

  lemma ToolTidy()
    ensures Tidy("tool") && Tidy("x")
  {
  }

  lemma ToolLetters()
    ensures var s := "tool" + " " + "x";
      'f' !in s && 'u' !in s && 'e' !in s && 'r' !in s && |TOOL_TOKENS| > 0 && TOOL_TOKENS[0] <= s
  {
  }

  lemma IsToolSignal(j: Json, s: string, reason: string)
    requires j.Obj? && Haystack(j, STATUS_KEYS) == s == Haystack(j, TOOL_KEYS) && EventReason(j) == reason
    requires !ContainsAny(s, ERROR_TOKENS) && ContainsAny(s, TOOL_TOKENS)
    ensures SignalOf(Some(j)) == ToolUse(reason)
  {
    hide ContainsAny, Haystack, EventReason;
  }

  lemma DoneLine(reason: string)
    requires reason == "" || reason == "completed"
    ensures SignalOf(Some(Line("done", reason))) == Speech("", true, reason, None, None)
  {
    var j, s := Line("done", reason), if reason == "" then "done" else "done" + " " + reason;
    assert j.Obj?;
    hide *;
    DoneTidy(reason);
    DoneLetters(reason);
    HaystackOfLine("done", reason, STATUS_KEYS);
    HaystackOfLine("done", reason, TOOL_KEYS);
    LineReads("done", reason);
    NoErrorIn(s);
    NoToolIn(s);
    StartsWith(s, FINAL_TOKENS, 4);
    IsFinalSignal(j, s, reason);
  }

  lemma DoneTidy(reason: string)
    requires reason == "" || reason == "completed"
    ensures Tidy("done") && (reason == "" || Tidy(reason))
  {
  }

  lemma DoneLetters(reason: string)
    requires reason == "" || reason == "completed"
    ensures var s := if reason == "" then "done" else "done" + " " + reason;
      'f' !in s && 'u' !in s && 'r' !in s && Apart(s, 'o') && |FINAL_TOKENS| > 4 && FINAL_TOKENS[4] <= s
  {
  }

  lemma IsFinalSignal(j: Json, s: string, reason: string)
    requires j.Obj? && Haystack(j, STATUS_KEYS) == s == Haystack(j, TOOL_KEYS) && EventReason(j) == reason
    requires !ContainsAny(s, ERROR_TOKENS) && !ContainsAny(s, TOOL_TOKENS) && ContainsAny(s, FINAL_TOKENS)
    requires AssistantText(j) == "" && EventRef(j).None? && EventTime(j).None?
    ensures SignalOf(Some(j)) == Speech("", true, reason, None, None)
  {
    hide ContainsAny, Haystack, EventReason, AssistantText, EventRef, EventTime;
  }

  /** Finishing silently after a reason, and finishing with the reason "completed", are observed alike and end otherwise. */
  lemma AlikeAlone(reason: string)
    requires reason != ""
    ensures var a, b, c :=
      [ToolUse(reason)], [Speech("", true, "", None, None)], [Speech("", true, "completed", None, None)];
      && Resume(EMPTY, b) == Resume(EMPTY, c)
      && Resume(EMPTY, a + b).finishReason == reason && Resume(EMPTY, a + c).finishReason == "completed"
  {
    hide Resume;
    var tool, plain, named := ToolUse(reason), Speech("", true, "", None, None), Speech("", true, "completed", None, None);
    ResumeOne(EMPTY, named);
    ResumeOne(EMPTY, plain);
    ResumeOne(EMPTY, tool);
    ResumeTwice(EMPTY, [tool], [named]);
    ResumeTwice(EMPTY, [tool], [plain]);
    ResumeOne(Resume(EMPTY, [tool]), named);
    ResumeOne(Resume(EMPTY, [tool]), plain);
  }

  /** No function of the two observations gives the observation of the joined stream: after a tool event with the reason
      "x", an event that is done and one that is done with the reason "completed" are observed alike and end otherwise. */
  lemma NothingCombines(combine: (Observation, Observation) -> Observation)
    ensures exists a, b :: Observed(a + b) != combine(Observed(a), Observed(b))
  {
    var tool, plain, named := Some(Line("tool", "x")), Some(Line("done", "")), Some(Line("done", "completed"));
    ToolLine();
    DoneLine("");
    DoneLine("completed");
    hide SignalOf, Line, Resume, Signals;
    AlikeAlone("x");
    SignalsOfTwo(tool, plain);
    SignalsOfTwo(tool, named);
    assert Observed([plain]) == Observed([named]);
    assert Observed([tool] + [plain]) != Observed([tool] + [named]);
  }

  lemma SignalsOfTwo(x: Option<Json>, y: Option<Json>)
    ensures Signals([x]) == [SignalOf(x)] && Signals([y]) == [SignalOf(y)]
    ensures Signals([x] + [y]) == [SignalOf(x)] + [SignalOf(y)]
  {
    hide SignalOf;
  }
}
