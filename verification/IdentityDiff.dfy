/** The first difference between two identities, as the warm-reuse check reports it: keys in sorted order, then in. */
module IdentityDiff {
  import opened Wrappers
  import opened Json

  // ---------- sorted keys ----------

  /** Strings by code point, a prefix first. */
  predicate Before(a: string, b: string) {
    if b == "" then false
    else if a == "" then true
    else a[0] < b[0] || (a[0] == b[0] && Before(a[1..], b[1..]))
  }

  lemma {:induction false} BeforeIsOrder(a: string, b: string)
    ensures !Before(a, a)
    ensures Before(a, b) ==> !Before(b, a)
    ensures a != b ==> Before(a, b) || Before(b, a)
  {
    if a != "" {
      BeforeIsOrder(a[1..], a[1..]);
      if b != "" && a[0] == b[0] {
        BeforeIsOrder(a[1..], b[1..]);
        assert a == [a[0]] + a[1..] && b == [b[0]] + b[1..];
      }
    }
  }

  lemma {:induction false} BeforeIsTransitive(a: string, b: string, c: string)
    requires Before(a, b) && Before(b, c)
    ensures Before(a, c)
  {
    if a != "" && a[0] == b[0] == c[0] {
      BeforeIsTransitive(a[1..], b[1..], c[1..]);
    }
  }

  predicate IsLeast(s: set<string>, k: string) {
    k in s && forall x :: x in s && x != k ==> Before(k, x)
  }

  lemma {:induction false} LeastExists(s: set<string>)
    requires s != {}
    ensures exists k :: IsLeast(s, k)
    decreases |s|
  {
    var x :| x in s;
    if s == {x} {
      assert IsLeast(s, x);
    } else {
      LeastExists(s - {x});
      var k :| IsLeast(s - {x}, k);
      BeforeIsOrder(x, k);
      if Before(x, k) {
        forall y | y in s && y != x
          ensures Before(x, y)
        {
          if y != k {
            BeforeIsTransitive(x, k, y);
          }
        }
        assert IsLeast(s, x);
      } else {
        assert IsLeast(s, k);
      }
    }
  }

  lemma LeastIsOne(s: set<string>, j: string, k: string)
    requires IsLeast(s, j) && IsLeast(s, k)
    ensures j == k
  {
    BeforeIsOrder(j, k);
  }

  function Least(s: set<string>): (k: string)
    requires s != {}
    ensures IsLeast(s, k)
  {
    LeastExists(s);
    assert forall j, k :: IsLeast(s, j) && IsLeast(s, k) ==> j == k by {
      forall j, k | IsLeast(s, j) && IsLeast(s, k)
        ensures j == k
      {
        LeastIsOne(s, j, k);
      }
    }
    var k :| IsLeast(s, k);
    k
  }

  // ---------- the difference ----------

  datatype Change =
    | TypeChanged(from: string, to: string)
    | KeysChanged
    | LengthChanged(before: nat, after: nat)
    | ValueChanged(expected: Json, observed: Json)

  datatype Difference = Difference(path: seq<Step>, change: Change)

  function TypeName(j: Json): string {
    match j
    case Null => "NoneType"
    case Bool(_) => "bool"
    case Num(_) => "int"
    case Str(_) => "str"
    case Arr(_) => "list"
    case Obj(_) => "dict"
  }

  predicate SameType(a: Json, b: Json) {
    match a
    case Null => b.Null?
    case Bool(_) => b.Bool?
    case Num(_) => b.Num?
    case Str(_) => b.Str?
    case Arr(_) => b.Arr?
    case Obj(_) => b.Obj?
  }

  function Under(step: Step, d: Option<Difference>): Option<Difference> {
    if d.Some? then Some(Difference([step] + d.value.path, d.value.change)) else None
  }

  function FirstDifference(a: Json, b: Json): Option<Difference>
    decreases a, 1, 0
  {
    if !SameType(a, b) then Some(Difference([], TypeChanged(TypeName(a), TypeName(b))))
    else if a.Obj? then
      if a.fields.Keys != b.fields.Keys then Some(Difference([], KeysChanged))
      else InFields(a, b, a.fields.Keys)
    else if a.Arr? then
      if |a.items| != |b.items| then Some(Difference([], LengthChanged(|a.items|, |b.items|))) else InItems(a, b, 0)
    else if a != b then Some(Difference([], ValueChanged(a, b)))
    else None
  }

  /** The fields still to compare, in sorted order. */
  function InFields(a: Json, b: Json, keys: set<string>): Option<Difference>
    requires a.Obj? && b.Obj? && keys <= a.fields.Keys && a.fields.Keys == b.fields.Keys
    decreases a, 0, |keys|
  {
    if keys == {} then None
    else
      var k := Least(keys);
      var d := FirstDifference(a.fields[k], b.fields[k]);
      if d.Some? then Under(Field(k), d) else InFields(a, b, keys - {k})
  }

  function InItems(a: Json, b: Json, i: nat): Option<Difference>
    requires a.Arr? && b.Arr? && i <= |a.items| == |b.items|
    decreases a, 0, |a.items| - i
  {
    if i == |a.items| then None
    else
      var d := FirstDifference(a.items[i], b.items[i]);
      if d.Some? then Under(Item(i), d) else InItems(a, b, i + 1)
  }

  // ---------- what it reports ----------

  /** The two values differ by themselves, before their parts are compared. */
  function Apart(a: Json, b: Json): Option<Change> {
    if !SameType(a, b) then Some(TypeChanged(TypeName(a), TypeName(b)))
    else if a.Obj? then if a.fields.Keys != b.fields.Keys then Some(KeysChanged) else None
    else if a.Arr? then if |a.items| != |b.items| then Some(LengthChanged(|a.items|, |b.items|)) else None
    else if a != b then Some(ValueChanged(a, b)) else None
  }

  /** The path leads to values that differ by themselves, nothing above them does, and everything that comes before the
      path at any level is equal. */
  predicate IsFirst(a: Json, b: Json, path: seq<Step>, change: Change)
    decreases |path|
  {
    if path == [] then Apart(a, b) == Some(change)
    else
      && Apart(a, b).None?
      && match path[0]
         case Field(key) =>
           && a.Obj? && key in a.fields.Keys
           && (forall k :: k in a.fields.Keys && Before(k, key) ==> a.fields[k] == b.fields[k])
           && IsFirst(a.fields[key], b.fields[key], path[1..], change)
         case Item(i) =>
           && a.Arr? && i < |a.items|
           && (forall j :: 0 <= j < i ==> a.items[j] == b.items[j])
           && IsFirst(a.items[i], b.items[i], path[1..], change)
  }

  /** None exactly for equal identities; otherwise the first difference, and no other. */
  lemma {:induction false} FirstDifferenceIs(a: Json, b: Json)
    ensures FirstDifference(a, b).None? <==> a == b
    ensures forall d :: FirstDifference(a, b) == Some(d) <==> IsFirst(a, b, d.path, d.change)
    decreases a, 1, 0
  {
    if Apart(a, b).None? {
      if a.Obj? {
        InFieldsIs(a, b, a.fields.Keys);
      } else if a.Arr? {
        InItemsIs(a, b, 0);
      }
    }
  }

  /** There is no first difference between a value and itself. */
  lemma {:induction false} NoneInItself(a: Json, path: seq<Step>, change: Change)
    ensures !IsFirst(a, a, path, change)
    decreases |path|
  {
    if path != [] {
      match path[0]
      case Field(key) =>
        if a.Obj? && key in a.fields.Keys {
          NoneInItself(a.fields[key], path[1..], change);
        }
      case Item(i) =>
        if a.Arr? && i < |a.items| {
          NoneInItself(a.items[i], path[1..], change);
        }
    }
  }

  lemma {:induction false} InFieldsIs(a: Json, b: Json, keys: set<string>)
    requires a.Obj? && b.Obj? && keys <= a.fields.Keys && a.fields.Keys == b.fields.Keys
    requires forall k :: k in a.fields.Keys - keys ==> a.fields[k] == b.fields[k]
    ensures InFields(a, b, keys).None? <==> a.fields == b.fields
    ensures forall d :: InFields(a, b, keys) == Some(d) <==> IsFirst(a, b, d.path, d.change)
    decreases a, 0, |keys|
  {
    if keys == {} {
      forall d: Difference
        ensures !IsFirst(a, b, d.path, d.change)
      {
        NoneInItself(a, d.path, d.change);
      }
    } else {
      var k := Least(keys);
      FirstDifferenceIs(a.fields[k], b.fields[k]);
      if a.fields[k] == b.fields[k] {
        InFieldsIs(a, b, keys - {k});
      } else {
        forall d: Difference
          ensures InFields(a, b, keys) == Some(d) <==> IsFirst(a, b, d.path, d.change)
        {
          FirstField(a, b, keys, k, d);
        }
      }
    }
  }

  lemma FirstField(a: Json, b: Json, keys: set<string>, k: string, d: Difference)
    requires a.Obj? && b.Obj? && keys <= a.fields.Keys && a.fields.Keys == b.fields.Keys
    requires forall k :: k in a.fields.Keys - keys ==> a.fields[k] == b.fields[k]
    requires IsLeast(keys, k) && a.fields[k] != b.fields[k]
    requires FirstDifference(a.fields[k], b.fields[k]).Some?
    requires forall e :: FirstDifference(a.fields[k], b.fields[k]) == Some(e)
                    <==> IsFirst(a.fields[k], b.fields[k], e.path, e.change)
    ensures Under(Field(k), FirstDifference(a.fields[k], b.fields[k])) == Some(d) <==> IsFirst(a, b, d.path, d.change)
  {
    var below := FirstDifference(a.fields[k], b.fields[k]).value;
    if IsFirst(a, b, d.path, d.change) {
      var key := d.path[0].key;
      if key == k {
        assert below == Difference(d.path[1..], d.change);
        assert d.path == [Field(k)] + d.path[1..];
      } else {
        NoneInItself(a.fields[key], d.path[1..], d.change);
      }
    } else if Under(Field(k), Some(below)) == Some(d) {
      assert d.path[1..] == below.path;
      forall x | x in a.fields.Keys && Before(x, k)
        ensures a.fields[x] == b.fields[x]
      {
        BeforeIsOrder(x, k);
      }
      assert IsFirst(a, b, d.path, d.change);
    }
  }

  lemma {:induction false} InItemsIs(a: Json, b: Json, i: nat)
    requires a.Arr? && b.Arr? && i <= |a.items| == |b.items|
    requires forall j :: 0 <= j < i ==> a.items[j] == b.items[j]
    ensures InItems(a, b, i).None? <==> a.items == b.items
    ensures forall d :: InItems(a, b, i) == Some(d) <==> IsFirst(a, b, d.path, d.change)
    decreases a, 0, |a.items| - i
  {
    if i == |a.items| {
      assert a.items == b.items;
      forall d: Difference
        ensures !IsFirst(a, b, d.path, d.change)
      {
        NoneInItself(a, d.path, d.change);
      }
    } else {
      FirstDifferenceIs(a.items[i], b.items[i]);
      if a.items[i] == b.items[i] {
        InItemsIs(a, b, i + 1);
      } else {
        forall d: Difference
          ensures InItems(a, b, i) == Some(d) <==> IsFirst(a, b, d.path, d.change)
        {
          FirstItem(a, b, i, d);
        }
      }
    }
  }

  lemma FirstItem(a: Json, b: Json, i: nat, d: Difference)
    requires a.Arr? && b.Arr? && i < |a.items| == |b.items|
    requires forall j :: 0 <= j < i ==> a.items[j] == b.items[j]
    requires a.items[i] != b.items[i]
    requires FirstDifference(a.items[i], b.items[i]).Some?
    requires forall e :: FirstDifference(a.items[i], b.items[i]) == Some(e)
                    <==> IsFirst(a.items[i], b.items[i], e.path, e.change)
    ensures Under(Item(i), FirstDifference(a.items[i], b.items[i])) == Some(d) <==> IsFirst(a, b, d.path, d.change)
  {
    var below := FirstDifference(a.items[i], b.items[i]).value;
    if IsFirst(a, b, d.path, d.change) {
      var index := d.path[0].index;
      if index == i {
        assert below == Difference(d.path[1..], d.change);
        assert d.path == [Item(i)] + d.path[1..];
      } else if index < i {
        NoneInItself(a.items[index], d.path[1..], d.change);
      }
    } else if Under(Item(i), Some(below)) == Some(d) {
      assert d.path[1..] == below.path;
      assert IsFirst(a, b, d.path, d.change);
    }
  }
}
