/** Nested documents, as read from and written to the configuration file, and the values at dotted paths in them. */
module Documents {
  import opened Trees

  datatype Doc =
    | Other(n: int)
    | Text(s: string)
    | List(items: seq<Doc>)
    | Obj(fields: Fields)

  type Fields = map<string, Doc>

  /** A dotted path, split: never empty. */
  type Dotted = seq<string>

  function GetPath(data: Fields, path: Dotted): Option<Doc>
    requires path != []
    decreases |path|
  {
    if path[0] !in data then None
    else if |path| == 1 then Some(data[path[0]])
    else if data[path[0]].Obj? then GetPath(data[path[0]].fields, path[1..])
    else None
  }

  /** None: something on the way is not a mapping, and the assignment fails. */
  function SetPath(data: Fields, path: Dotted, value: Doc): Option<Fields>
    requires path != []
    decreases |path|
  {
    var key := path[0];
    if |path| == 1 then Some(data[key := value])
    else
      var child := if key in data then data[key] else Obj(map[]);
      if !child.Obj? then None
      else
        var changed := SetPath(child.fields, path[1..], value);
        if changed.None? then None else Some(data[key := Obj(changed.value)])
  }

  function DelPath(data: Fields, path: Dotted): Fields
    requires path != []
    decreases |path|
  {
    var key := path[0];
    if |path| == 1 then data - {key}
    else if key in data && data[key].Obj? then data[key := Obj(DelPath(data[key].fields, path[1..]))]
    else data
  }

  /** Everything that exists on the way to the path is a mapping. */
  predicate Fits(data: Fields, path: Dotted)
    requires path != []
    decreases |path|
  {
    |path| > 1 && path[0] in data ==> data[path[0]].Obj? && Fits(data[path[0]].fields, path[1..])
  }

  /** Neither path leads through the other. */
  predicate Incomparable(p: Dotted, q: Dotted) {
    !(p <= q) && !(q <= p)
  }

  // ---------------------------------------------------------------- one restored value

  /** The given value, or nothing, at the path. */
  function PutBack(data: Fields, path: Dotted, value: Option<Doc>): Option<Fields>
    requires path != []
  {
    if value.Some? then SetPath(data, path, value.value) else Some(DelPath(data, path))
  }

  /** What the old file holds at the path. */
  function Restore(data: Fields, raw: Fields, path: Dotted): Option<Fields>
    requires path != []
  {
    PutBack(data, path, GetPath(raw, path))
  }

  lemma {:induction false} SetGet(data: Fields, path: Dotted, value: Doc)
    requires path != [] && Fits(data, path)
    ensures SetPath(data, path, value).Some?
    ensures GetPath(SetPath(data, path, value).value, path) == Some(value)
    decreases |path|
  {
    if |path| > 1 {
      SetGet(if path[0] in data then data[path[0]].fields else map[], path[1..], value);
    }
  }

  lemma {:induction false} DelGet(data: Fields, path: Dotted)
    requires path != []
    ensures GetPath(DelPath(data, path), path) == None
    decreases |path|
  {
    if |path| > 1 && path[0] in data && data[path[0]].Obj? {
      DelGet(data[path[0]].fields, path[1..]);
    }
  }

  lemma TailsIncomparable(p: Dotted, q: Dotted)
    requires Incomparable(p, q)
    ensures p != [] && q != []
    ensures p[0] == q[0] ==> |p| > 1 && |q| > 1 && Incomparable(p[1..], q[1..])
  {
    if p[0] == q[0] {
      TailPrefix(p, q);
      TailPrefix(q, p);
    }
  }

  lemma TailPrefix(p: Dotted, q: Dotted)
    requires p != [] && q != [] && p[0] == q[0]
    ensures p <= q <==> p[1..] <= q[1..]
  {
    assert p == [p[0]] + p[1..] && q == [q[0]] + q[1..];
  }

  lemma {:induction false} SetElsewhere(data: Fields, path: Dotted, value: Doc, q: Dotted)
    requires Incomparable(path, q) && SetPath(data, path, value).Some?
    ensures q != [] && GetPath(SetPath(data, path, value).value, q) == GetPath(data, q)
    ensures Fits(data, q) ==> Fits(SetPath(data, path, value).value, q)
    decreases |path|
  {
    TailsIncomparable(path, q);
    if path[0] == q[0] {
      SetElsewhere(if path[0] in data then data[path[0]].fields else map[], path[1..], value, q[1..]);
    }
  }

  lemma {:induction false} DelElsewhere(data: Fields, path: Dotted, q: Dotted)
    requires Incomparable(path, q)
    ensures q != [] && GetPath(DelPath(data, path), q) == GetPath(data, q)
    ensures Fits(data, q) ==> Fits(DelPath(data, path), q)
    decreases |path|
  {
    TailsIncomparable(path, q);
    if path[0] == q[0] && path[0] in data && data[path[0]].Obj? {
      DelElsewhere(data[path[0]].fields, path[1..], q[1..]);
    }
  }

  /** Restoring a path gives it the old value and leaves incomparable paths alone. */
  lemma RestoreOne(data: Fields, raw: Fields, path: Dotted)
    requires path != [] && Fits(data, path)
    ensures Restore(data, raw, path).Some?
    ensures GetPath(Restore(data, raw, path).value, path) == GetPath(raw, path)
    ensures forall q :: Incomparable(path, q) ==>
              && q != [] && GetPath(Restore(data, raw, path).value, q) == GetPath(data, q)
              && (Fits(data, q) ==> Fits(Restore(data, raw, path).value, q))
  {
    var kept := GetPath(raw, path);
    if kept.Some? {
      SetGet(data, path, kept.value);
    } else {
      DelGet(data, path);
    }
    forall q | Incomparable(path, q)
      ensures q != [] && GetPath(Restore(data, raw, path).value, q) == GetPath(data, q)
      ensures q != [] && (Fits(data, q) ==> Fits(Restore(data, raw, path).value, q))
    {
      if kept.Some? {
        SetElsewhere(data, path, kept.value, q);
      } else {
        DelElsewhere(data, path, q);
      }
    }
  }

  // ---------------------------------------------------------------- all restored values

  ghost predicate AllProper(order: seq<Dotted>) {
    forall i :: 0 <= i < |order| ==> order[i] != []
  }

  /** The overridden paths, restored in this order. */
  ghost function RestoreAll(data: Fields, raw: Fields, order: seq<Dotted>): Option<Fields>
    requires AllProper(order)
    decreases |order|
  {
    if order == [] then Some(data)
    else
      var next := Restore(data, raw, order[0]);
      if next.None? then None else RestoreAll(next.value, raw, order[1..])
  }

  /** No overridden path leads through another one, and none through a value that is no mapping. */
  ghost predicate Restorable(data: Fields, order: seq<Dotted>) {
    && AllProper(order)
    && (forall i :: 0 <= i < |order| ==> Fits(data, order[i]))
    && (forall i, j :: 0 <= i < |order| && 0 <= j < |order| && i != j ==> Incomparable(order[i], order[j]))
  }

  lemma RestorableNext(data: Fields, raw: Fields, order: seq<Dotted>)
    requires order != [] && Restorable(data, order)
    ensures Restore(data, raw, order[0]).Some?
    ensures Restorable(Restore(data, raw, order[0]).value, order[1..])
    ensures forall p :: p in order[1..] ==> Incomparable(order[0], p) && Incomparable(p, order[0])
  {
    RestoreOne(data, raw, order[0]);
    var rest := order[1..];
    forall i | 0 <= i < |rest|
      ensures Incomparable(order[0], rest[i]) && Fits(Restore(data, raw, order[0]).value, rest[i])
    {
      assert rest[i] == order[i + 1];
    }
  }

  /** After all are restored, every overridden path holds exactly what the old file held there, and every path that is
      incomparable to all of them what it held before. */
  lemma {:induction false} AllRestored(data: Fields, raw: Fields, order: seq<Dotted>)
    requires Restorable(data, order)
    ensures RestoreAll(data, raw, order).Some?
    ensures forall p :: p in order ==> p != [] && GetPath(RestoreAll(data, raw, order).value, p) == GetPath(raw, p)
    ensures forall q :: q != [] && (forall p :: p in order ==> Incomparable(p, q)) ==>
              GetPath(RestoreAll(data, raw, order).value, q) == GetPath(data, q)
    decreases |order|
  {
    if order != [] {
      var first, next := order[0], Restore(data, raw, order[0]);
      RestoreOne(data, raw, first);
      RestorableNext(data, raw, order);
      AllRestored(next.value, raw, order[1..]);
      var result := RestoreAll(data, raw, order).value;
      assert GetPath(result, first) == GetPath(raw, first);
      forall p | p in order ensures p != [] && GetPath(result, p) == GetPath(raw, p) {
        assert p == first || p in order[1..];
      }
      forall q | q != [] && (forall p :: p in order ==> Incomparable(p, q))
        ensures GetPath(result, q) == GetPath(data, q)
      {
        assert first in order && Incomparable(first, q);
        assert forall p :: p in order[1..] ==> p in order;
      }
    }
  }

  // ---------------------------------------------------------------- the order does not matter

  /** What becomes of the value of the first key of the path: None for a missing key. */
  function NewHead(child: Option<Doc>, path: Dotted, value: Option<Doc>): Option<Doc>
    requires path != [] && (|path| > 1 && child.Some? ==> child.value.Obj? && Fits(child.value.fields, path[1..]))
  {
    if |path| == 1 then value
    else if value.Some? then
      var fields := if child.Some? then child.value.fields else map[];
      SetGet(fields, path[1..], value.value);
      Some(Obj(SetPath(fields, path[1..], value.value).value))
    else if child.Some? then Some(Obj(DelPath(child.value.fields, path[1..])))
    else None
  }

  function Lookup(data: Fields, key: string): Option<Doc> {
    if key in data then Some(data[key]) else None
  }

  function WithKey(data: Fields, key: string, value: Option<Doc>): Fields {
    if value.Some? then data[key := value.value] else data - {key}
  }

  lemma PutBackIsLocal(data: Fields, path: Dotted, value: Option<Doc>)
    requires path != [] && Fits(data, path)
    ensures PutBack(data, path, value) == Some(WithKey(data, path[0], NewHead(Lookup(data, path[0]), path, value)))
  {
    if value.Some? {
      SetGet(data, path, value.value);
    } else if path[0] !in data {
      assert data - {path[0]} == data;
    }
  }

  lemma {:induction false} DelAbsent(data: Fields, path: Dotted)
    requires path != [] && GetPath(data, path) == None
    ensures DelPath(data, path) == data
    decreases |path|
  {
    if |path| > 1 && path[0] in data && data[path[0]].Obj? {
      DelAbsent(data[path[0]].fields, path[1..]);
    }
  }

  lemma PutBackFits(data: Fields, p: Dotted, v: Option<Doc>, q: Dotted)
    requires Incomparable(p, q) && p != [] && q != [] && Fits(data, p) && Fits(data, q)
    ensures PutBack(data, p, v).Some? && Fits(PutBack(data, p, v).value, q)
    ensures GetPath(PutBack(data, p, v).value, q) == GetPath(data, q)
  {
    if v.Some? {
      SetGet(data, p, v.value);
      SetElsewhere(data, p, v.value, q);
    } else {
      DelElsewhere(data, p, q);
    }
  }

  lemma WithKeys(data: Fields, a: string, x: Option<Doc>, b: string, y: Option<Doc>)
    ensures WithKey(WithKey(data, a, x), a, y) == WithKey(data, a, y)
    ensures Lookup(WithKey(data, a, x), a) == x
    ensures a != b ==> Lookup(WithKey(data, a, x), b) == Lookup(data, b)
    ensures a != b ==> WithKey(WithKey(data, a, x), b, y) == WithKey(WithKey(data, b, y), a, x)
  {}

  /** One after the other, in terms of the value of a key both paths begin with. */
  lemma HeadsCommute(child: Option<Doc>, p: Dotted, v: Option<Doc>, q: Dotted, w: Option<Doc>)
    requires |p| > 1 && |q| > 1 && Incomparable(p[1..], q[1..])
    requires child.Some? ==> child.value.Obj? && Fits(child.value.fields, p[1..]) && Fits(child.value.fields, q[1..])
    requires var fields := if child.Some? then child.value.fields else map[];
             && PutBack(fields, p[1..], v).Some? && PutBack(fields, q[1..], w).Some?
             && Fits(PutBack(fields, p[1..], v).value, q[1..]) && Fits(PutBack(fields, q[1..], w).value, p[1..])
             && PutBack(PutBack(fields, p[1..], v).value, q[1..], w) ==
                PutBack(PutBack(fields, q[1..], w).value, p[1..], v)
    ensures NewHead(NewHead(child, p, v), q, w) == NewHead(NewHead(child, q, w), p, v)
  {
    if child.None? {
      if v.Some? && w.None? {
        SetElsewhere(map[], p[1..], v.value, q[1..]);
        DelAbsent(SetPath(map[], p[1..], v.value).value, q[1..]);
      }
      if v.None? && w.Some? {
        SetElsewhere(map[], q[1..], w.value, p[1..]);
        DelAbsent(SetPath(map[], q[1..], w.value).value, p[1..]);
      }
    }
  }

  /** Two incomparable paths can be put back in either order. */
  lemma {:induction false} PutBackCommutes(data: Fields, p: Dotted, v: Option<Doc>, q: Dotted, w: Option<Doc>)
    requires Incomparable(p, q) && p != [] && q != [] && Fits(data, p) && Fits(data, q)
    ensures PutBack(data, p, v).Some? && PutBack(data, q, w).Some?
    ensures PutBack(PutBack(data, p, v).value, q, w) == PutBack(PutBack(data, q, w).value, p, v)
    decreases |p|
  {
    TailsIncomparable(p, q);
    PutBackFits(data, p, v, q);
    PutBackFits(data, q, w, p);
    PutBackIsLocal(data, p, v);
    PutBackIsLocal(data, q, w);
    var child := Lookup(data, p[0]);
    var first, second := PutBack(data, p, v).value, PutBack(data, q, w).value;
    var x, y := NewHead(child, p, v), NewHead(Lookup(data, q[0]), q, w);
    assert first == WithKey(data, p[0], x) && second == WithKey(data, q[0], y);
    PutBackIsLocal(first, q, w);
    PutBackIsLocal(second, p, v);
    if p[0] == q[0] {
      var fields := if child.Some? then child.value.fields else map[];
      PutBackCommutes(fields, p[1..], v, q[1..], w);
      PutBackFits(fields, p[1..], v, q[1..]);
      PutBackFits(fields, q[1..], w, p[1..]);
      HeadsCommute(child, p, v, q, w);
      var z := NewHead(x, q, w);
      WithKeys(data, p[0], x, p[0], z);
      WithKeys(data, p[0], y, p[0], z);
    } else {
      WithKeys(data, p[0], x, q[0], y);
      WithKeys(data, q[0], y, p[0], x);
    }
  }

  function Without<T>(s: seq<T>, i: nat): seq<T>
    requires i < |s|
  {
    s[..i] + s[i + 1..]
  }

  lemma RestorableWithout(data: Fields, raw: Fields, order: seq<Dotted>, i: nat)
    requires i < |order| && Restorable(data, order)
    ensures Restore(data, raw, order[i]).Some?
    ensures Restorable(Restore(data, raw, order[i]).value, Without(order, i))
  {
    RestoreOne(data, raw, order[i]);
    var rest, next := Without(order, i), Restore(data, raw, order[i]).value;
    forall k | 0 <= k < |rest|
      ensures rest[k] == order[if k < i then k else k + 1] && rest[k] != [] && Fits(next, rest[k])
    {
      assert Incomparable(order[i], order[if k < i then k else k + 1]);
    }
  }

  /** Any of the paths can be restored first. */
  lemma {:induction false} MoveToFront(data: Fields, raw: Fields, order: seq<Dotted>, i: nat)
    requires i < |order| && Restorable(data, order)
    ensures Restore(data, raw, order[i]).Some? && Restorable(Restore(data, raw, order[i]).value, Without(order, i))
    ensures RestoreAll(data, raw, order) == RestoreAll(Restore(data, raw, order[i]).value, raw, Without(order, i))
    decreases i
  {
    RestorableWithout(data, raw, order, i);
    if i == 0 {
      assert Without(order, 0) == order[1..];
    } else {
      var first, rest := order[0], order[1..];
      RestorableNext(data, raw, order);
      var next := Restore(data, raw, first).value;
      MoveToFront(next, raw, rest, i - 1);
      PutBackCommutes(data, first, GetPath(raw, first), order[i], GetPath(raw, order[i]));
      var left := Without(order, i);
      assert left[0] == first && left[1..] == Without(rest, i - 1);
    }
  }

  lemma MembersWithout<T>(s: seq<T>, i: nat)
    requires i < |s| && forall j, k :: 0 <= j < k < |s| ==> s[j] != s[k]
    ensures forall x :: x in Without(s, i) <==> x in s && x != s[i]
  {
    var rest := Without(s, i);
    forall x | x in s && x != s[i] ensures x in rest {
      var k :| 0 <= k < |s| && s[k] == x;
      assert rest[if k < i then k else k - 1] == x;
    }
  }

  lemma NoMembers<T>(s: seq<T>)
    ensures s != [] ==> exists x :: x in s
  {
    if s != [] {
      assert s[0] in s;
    }
  }

  lemma AllDifferent(data: Fields, order: seq<Dotted>)
    requires Restorable(data, order)
    ensures forall j, k :: 0 <= j < k < |order| ==> order[j] != order[k]
  {
    forall j, k | 0 <= j < k < |order| ensures order[j] != order[k] {
      assert Incomparable(order[j], order[k]);
    }
  }

  /** The order in which the overridden paths are restored does not matter. */
  lemma {:induction false} RestoreOrderIrrelevant(data: Fields, raw: Fields, order: seq<Dotted>, shuffled: seq<Dotted>)
    requires Restorable(data, order) && Restorable(data, shuffled) && forall p :: p in order <==> p in shuffled
    ensures RestoreAll(data, raw, order) == RestoreAll(data, raw, shuffled)
    decreases |order|
  {
    NoMembers(shuffled);
    if order != [] {
      assert order[0] in shuffled;
      var i :| 0 <= i < |shuffled| && shuffled[i] == order[0];
      AllDifferent(data, order);
      AllDifferent(data, shuffled);
      MoveToFront(data, raw, shuffled, i);
      MembersWithout(shuffled, i);
      MembersWithout(order, 0);
      assert Without(order, 0) == order[1..];
      RestorableNext(data, raw, order);
      RestoreOrderIrrelevant(Restore(data, raw, order[0]).value, raw, order[1..], Without(shuffled, i));
    }
  }

  // ---------------------------------------------------------------- pruning

  /** The document without empty sections. */
  function PruneEmpty(data: Fields): Fields {
    map k | k in data && data[k] != Obj(map[]) :: data[k]
  }

  /** Pruning takes a value away only if it is an empty section itself. */
  lemma PrunedValue(data: Fields, path: Dotted)
    requires path != []
    ensures GetPath(PruneEmpty(data), path) ==
            if |path| == 1 && GetPath(data, path) == Some(Obj(map[])) then None else GetPath(data, path)
  {}
}
