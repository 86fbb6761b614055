/** The document written to the configuration file, and the candidate built from an edited one: values overridden by the
    environment go back to what the file holds. */
module ConfigFile {
  import opened Trees
  import opened Documents

  /** Keys that are never written. */
  const NEVER_WRITTEN: set<string> := {"config_dir", "config_file"}
  const LOGGING_DIR: Dotted := ["logging", "dir"]
  const DATABASE_DIR: Dotted := ["database", "dir"]

  function WithoutFixed(data: Fields): Fields {
    DelPath(data - NEVER_WRITTEN, LOGGING_DIR)
  }

  /** A database at its default place is not written; defaultPlace: it is an SQLite database in the configuration
      directory. */
  function WithoutDefaultDatabase(data: Fields, defaultPlace: bool): Fields {
    if defaultPlace && "database" in data && data["database"].Obj? then
      var trimmed := DelPath(data, DATABASE_DIR);
      if trimmed["database"] == Obj(map["type" := Text("sqlite")]) then trimmed - {"database"} else trimmed
    else data
  }

  /** Nothing is left at "config_dir", "config_file" and "logging.dir"; paths apart from these keep their values. */
  lemma FixedIsGone(data: Fields, q: Dotted)
    requires q != []
    ensures q[0] in {"config_dir", "config_file"} || q == ["logging", "dir"] ==> GetPath(WithoutFixed(data), q) == None
    ensures q[0] !in {"config_dir", "config_file"} && Incomparable(q, ["logging", "dir"]) ==>
              GetPath(WithoutFixed(data), q) == GetPath(data, q)
  {
    var rest := data - NEVER_WRITTEN;
    if q == ["logging", "dir"] {
      DelGet(rest, q);
    } else if Incomparable(q, ["logging", "dir"]) {
      DelElsewhere(rest, ["logging", "dir"], q);
    }
  }

  /** A database that is an SQLite one at the default place is written without its place, and not at all if nothing but
      its type is left to say; everything else is written as it is. */
  lemma DefaultDatabaseTells(data: Fields, database: Fields, defaultPlace: bool)
    ensures var r := WithoutDefaultDatabase(data, defaultPlace);
            && (forall k :: k != "database" ==> Lookup(r, k) == Lookup(data, k))
            && (!defaultPlace ==> r == data)
            && (defaultPlace && Lookup(data, "database") == Some(Obj(database)) ==>
                  Lookup(r, "database") == if OnlyTheType(database) then None else Some(Obj(database - {"dir"})))
  {
    if defaultPlace && Lookup(data, "database") == Some(Obj(database)) {
      assert DelPath(data, DATABASE_DIR) == data["database" := Obj(database - {"dir"})] by {
        assert DATABASE_DIR[1..] == ["dir"];
      }
      var sqlite: Fields := map["type" := Text("sqlite")];
      if OnlyTheType(database) {
        assert database - {"dir"} == sqlite;
      } else if database - {"dir"} == sqlite {
        assert "type" in database - {"dir"};
        assert forall k :: k in database ==> k == "dir" || k in sqlite;
      }
    }
  }

  /** The type is "sqlite", and nothing is said but that and the place. */
  predicate OnlyTheType(database: Fields) {
    "type" in database && database["type"] == Text("sqlite") && forall k :: k in database ==> k in {"type", "dir"}
  }

  lemma {:induction false} RestoreAppend(data: Fields, raw: Fields, order: seq<Dotted>, p: Dotted)
    requires AllProper(order + [p]) && p != []
    ensures AllProper(order)
    ensures RestoreAll(data, raw, order + [p]) ==
            if RestoreAll(data, raw, order).None? then None else Restore(RestoreAll(data, raw, order).value, raw, p)
    decreases |order|
  {
    forall i | 0 <= i < |order| ensures order[i] != [] { assert (order + [p])[i] == order[i]; }
    if order == [] {
      assert order + [p] == [p] && [p][1..] == [];
    } else {
      assert (order + [p])[0] == order[0] && (order + [p])[1..] == order[1..] + [p];
      if Restore(data, raw, order[0]).Some? {
        RestoreAppend(Restore(data, raw, order[0]).value, raw, order[1..], p);
      }
    }
  }

  /** Restores the overridden values in the given order. None: some path leads through a value that is no mapping. */
  method RestoreOverrides(data: Fields, raw: Fields, overrides: seq<Dotted>) returns (r: Option<Fields>)
    requires AllProper(overrides)
    ensures r == RestoreAll(data, raw, overrides)
  {
    var current := data;
    for i := 0 to |overrides|
      invariant AllProper(overrides[..i]) && RestoreAll(data, raw, overrides[..i]) == Some(current)
    {
      var dotted := overrides[i];
      assert overrides[..i + 1] == overrides[..i] + [dotted];
      RestoreAppend(data, raw, overrides[..i], dotted);
      var found := GetPath(raw, dotted);
      if found.Some? {
        var changed := SetPath(current, dotted, found.value);
        if changed.None? {
          FailsFrom(data, raw, overrides, i + 1);
          return None;
        }
        current := changed.value;
      } else {
        current := DelPath(current, dotted);
      }
    }
    assert overrides[..|overrides|] == overrides;
    return Some(current);
  }

  lemma {:induction false} FailsFrom(data: Fields, raw: Fields, order: seq<Dotted>, i: nat)
    requires AllProper(order) && i <= |order|
    requires AllProper(order[..i]) && RestoreAll(data, raw, order[..i]).None?
    ensures RestoreAll(data, raw, order).None?
    decreases |order| - i
  {
    if i == |order| {
      assert order[..i] == order;
    } else {
      assert order[..i + 1] == order[..i] + [order[i]];
      RestoreAppend(data, raw, order[..i], order[i]);
      FailsFrom(data, raw, order, i + 1);
    }
  }

  /** The document to write. Every overridden path, as it lies in a section, holds exactly what the old file holds
      there; paths apart from the overridden ones are as in the serialized configuration, up to what is never written
      and empty sections. */
  method ConfigToFileData(serialized: Fields, raw: Fields, overrides: seq<Dotted>, defaultPlace: bool)
    returns (r: Option<Fields>)
    requires AllProper(overrides)
    ensures var data := WithoutDefaultDatabase(WithoutFixed(serialized), defaultPlace);
            Restorable(data, overrides) ==>
              && r.Some?
              && (forall p :: p in overrides && |p| > 1 ==> GetPath(r.value, p) == GetPath(raw, p))
              && (forall p :: p in overrides && p != [] ==> GetPath(r.value, p) == Written(p, GetPath(raw, p)))
              && (forall q :: q != [] && (forall p :: p in overrides ==> Incomparable(p, q)) ==>
                    GetPath(r.value, q) == Written(q, GetPath(data, q)))
  {
    var data := serialized;
    data := data - NEVER_WRITTEN;
    data := DelPath(data, LOGGING_DIR);
    if defaultPlace && "database" in data && data["database"].Obj? {
      data := DelPath(data, DATABASE_DIR);
      if data["database"] == Obj(map["type" := Text("sqlite")]) {
        data := data - {"database"};
      }
    }
    var restored := RestoreOverrides(data, raw, overrides);
    if restored.None? {
      if Restorable(data, overrides) {
        AllRestored(data, raw, overrides);
      }
      return None;
    }
    r := Some(PruneEmpty(restored.value));
    if Restorable(data, overrides) {
      AllRestored(data, raw, overrides);
      forall q: Dotted | q != [] ensures GetPath(r.value, q) == Written(q, GetPath(restored.value, q)) {
        PrunedValue(restored.value, q);
      }
    }
  }

  /** What is written for a value: an empty top-level section is not written. */
  function Written(path: Dotted, value: Option<Doc>): Option<Doc> {
    if |path| == 1 && value == Some(Obj(map[])) then None else value
  }

  /** The data a candidate configuration is built from; the overridden paths are restored in arbitrary order. */
  method Candidate(document: Fields, raw: Fields, overrides: set<Dotted>) returns (r: Option<Fields>)
    requires [] !in overrides
    ensures forall order: seq<Dotted> :: (forall p :: p in order <==> p in overrides) && Restorable(document, order) ==>
              RestoreAll(document, raw, order).Some? && r == Some(WithoutFixed(RestoreAll(document, raw, order).value))
  {
    ghost var done: seq<Dotted> := [];
    var todo, data := overrides, document;
    while todo != {}
      invariant todo <= overrides && AllProper(done) && RestoreAll(document, raw, done) == Some(data)
      invariant forall p :: p in overrides <==> p in todo || p in done
      invariant forall i :: 0 <= i < |done| ==> done[i] !in todo
      invariant forall i, j :: 0 <= i < j < |done| ==> done[i] != done[j]
      decreases todo
    {
      var dotted :| dotted in todo;
      RestoreAppend(document, raw, done, dotted);
      var restored := Restore(data, raw, dotted);
      ghost var before := done;
      todo, done := todo - {dotted}, done + [dotted];
      if restored.None? {
        Unrestorable(document, raw, overrides, before, dotted);
        return None;
      }
      data := restored.value;
    }
    r := Some(WithoutFixed(data));
    forall order: seq<Dotted> | (forall p :: p in order <==> p in overrides) && Restorable(document, order)
      ensures RestoreAll(document, raw, order) == Some(data)
    {
      Reordered(document, order, done);
      AllRestored(document, raw, order);
      RestoreOrderIrrelevant(document, raw, order, done);
    }
  }

  /** Restorability does not depend on the order. */
  lemma Reordered(data: Fields, order: seq<Dotted>, other: seq<Dotted>)
    requires Restorable(data, order) && forall p :: p in other ==> p in order
    requires forall i, j :: 0 <= i < j < |other| ==> other[i] != other[j]
    ensures Restorable(data, other)
  {
    forall i | 0 <= i < |other| ensures other[i] != [] && Fits(data, other[i]) {
      assert other[i] in order;
    }
    forall i, j | 0 <= i < |other| && 0 <= j < |other| && i != j ensures Incomparable(other[i], other[j]) {
      assert other[i] in order && other[j] in order && other[i] != other[j];
      var k :| 0 <= k < |order| && order[k] == other[i];
      var l :| 0 <= l < |order| && order[l] == other[j];
      assert k != l;
    }
  }

  /** A failure means that the paths were not restorable in any order. */
  lemma Unrestorable(data: Fields, raw: Fields, overrides: set<Dotted>, done: seq<Dotted>, p: Dotted)
    requires AllProper(done + [p]) && (forall q :: q in done + [p] ==> q in overrides)
    requires forall i, j :: 0 <= i < j < |done + [p]| ==> (done + [p])[i] != (done + [p])[j]
    requires RestoreAll(data, raw, done + [p]).None?
    ensures forall order: seq<Dotted> :: (forall q :: q in order <==> q in overrides) ==> !Restorable(data, order)
  {
    forall order: seq<Dotted> | (forall q :: q in order <==> q in overrides) && Restorable(data, order)
      ensures false
    {
      Reordered(data, order, done + [p]);
      AllRestored(data, raw, done + [p]);
    }
  }
}
