/** Laying an override's TOML table over an app definition's. */
module TomlMerge {
  import opened Wrappers

  // Arrays and scalars are replaced whole, so what is in them does not matter here.
  datatype Value = Leaf(content: int) | Table(entries: map<string, Value>)

  // The merge as a recursive function: tables merge key by key, anything else is taken from above.
  function Merged(below: Value, above: Value): Value
    decreases above
  {
    if below.Table? && above.Table? then
      Table(map k | k in below.entries.Keys + above.entries.Keys ::
              if k !in above.entries then below.entries[k]
              else if k in below.entries then Merged(below.entries[k], above.entries[k])
              else above.entries[k])
    else above
  }

  // The loop over the override's entries, changing the table below as it goes, in whatever order they come.
  method Merge(base: map<string, Value>, over: Value) returns (merged: map<string, Value>)
    requires over.Table?
    ensures Table(merged) == Merged(Table(base), over)
    decreases over
  {
    merged := base;
    var todo := over.entries.Keys;
    while todo != {}
      invariant todo <= over.entries.Keys
      invariant merged.Keys == base.Keys + (over.entries.Keys - todo)
      invariant forall k :: k in merged ==>
                  merged[k] == if k in over.entries && k !in todo then Merged(Table(base), over).entries[k] else base[k]
    {
      var k :| k in todo;
      todo := todo - {k};
      var value := over.entries[k];
      if k in merged && merged[k].Table? && value.Table? {
        var inner := Merge(merged[k].entries, value);
        merged := merged[k := Table(inner)];
      } else {
        merged := merged[k := value];
      }
    }
  }

  // ---- Key paths ----

  function Get(v: Value, path: seq<string>): Option<Value> {
    if path == [] then Some(v)
    else if v.Table? && path[0] in v.entries then Get(v.entries[path[0]], path[1..])
    else None
  }

  predicate LeafAt(v: Value, path: seq<string>) {
    Get(v, path).Some? && Get(v, path).value.Leaf?
  }

  predicate TableAt(v: Value, path: seq<string>) {
    Get(v, path).Some? && Get(v, path).value.Table?
  }

  // Following the path through a table, a value that is no table is met at its end or before.
  ghost predicate LeafOnTheWay(v: Value, path: seq<string>) {
    exists n: nat :: n <= |path| && LeafAt(v, path[..n])
  }

  lemma LeafFurtherOn(v: Value, path: seq<string>)
    requires v.Table? && path != []
    ensures LeafOnTheWay(v, path) <==> path[0] in v.entries && LeafOnTheWay(v.entries[path[0]], path[1..])
  {
    if n: nat :| n <= |path| && LeafAt(v, path[..n]) {
      assert n > 0;
      assert path[..n][1..] == path[1..][..n - 1];
    }
    if path[0] in v.entries && LeafOnTheWay(v.entries[path[0]], path[1..]) {
      var n: nat :| n <= |path| - 1 && LeafAt(v.entries[path[0]], path[1..][..n]);
      assert path[..n + 1][1..] == path[1..][..n];
      assert LeafAt(v, path[..n + 1]);
    }
  }

  lemma LeafEndsPaths(v: Value, path: seq<string>)
    requires v.Leaf?
    ensures Get(v, path) == if path == [] then Some(v) else None
  {
  }

  lemma LeafHere(content: int, path: seq<string>)
    ensures LeafOnTheWay(Leaf(content), path)
  {
    assert path[..0] == [];
    assert LeafAt(Leaf(content), path[..0]);
  }

  // What stands at a path after merging: the override's value where it has one; the base's where the override neither
  // has one nor cuts the path short; and a table where either has one that no value of the override replaced.
  lemma {:induction false} EveryPath(below: Value, above: Value, path: seq<string>)
    requires below.Table? && above.Table?
    ensures var merged := Merged(below, above);
      && (forall x :: Get(merged, path) == Some(Leaf(x)) <==>
            Get(above, path) == Some(Leaf(x))
            || (Get(below, path) == Some(Leaf(x)) && Get(above, path).None? && !LeafOnTheWay(above, path)))
      && (TableAt(merged, path) <==> TableAt(above, path) || (TableAt(below, path) && !LeafOnTheWay(above, path)))
      && (Get(above, path).None? && !LeafOnTheWay(above, path) ==> Get(merged, path) == Get(below, path))
    decreases |path|
  {
    if path == [] {
      assert path[..0] == [] && !LeafOnTheWay(above, path);
    } else {
      LeafFurtherOn(above, path);
      var k := path[0];
      if k in above.entries {
        if above.entries[k].Leaf? {
          LeafHere(above.entries[k].content, path[1..]);
          assert Get(Merged(below, above), path) == Get(above, path);
        } else if k in below.entries && below.entries[k].Table? {
          EveryPath(below.entries[k], above.entries[k], path[1..]);
        } else {
          assert Get(Merged(below, above), path) == Get(above, path);
          if k in below.entries {
            LeafEndsPaths(below.entries[k], path[1..]);
            assert path[1..] == [] ==> Get(above, path) == Some(above.entries[k]);
          } else {
            assert Get(below, path).None?;
          }
        }
      }
    }
  }

  // ---- Laws ----

  lemma {:induction false} MergingWithItself(v: Value)
    ensures Merged(v, v) == v
  {
    if v.Table? {
      forall k | k in v.entries ensures Merged(v.entries[k], v.entries[k]) == v.entries[k] {
        MergingWithItself(v.entries[k]);
      }
      assert Merged(v, v).entries == v.entries;
    }
  }

  // An empty override changes nothing, and applying an override twice is applying it once.
  lemma {:induction false} MergeLaws(below: Value, above: Value)
    ensures below.Table? ==> Merged(below, Table(map[])) == below
    ensures Merged(Merged(below, above), above) == Merged(below, above)
    decreases above
  {
    if below.Table? {
      assert Merged(below, Table(map[])).entries == below.entries;
    }
    var once := Merged(below, above);
    if below.Table? && above.Table? {
      var twice := Merged(once, above);
      forall k | k in once.entries ensures twice.entries[k] == once.entries[k] {
        if k in above.entries {
          if k in below.entries {
            MergeLaws(below.entries[k], above.entries[k]);
          } else {
            MergingWithItself(above.entries[k]);
          }
        }
      }
      assert twice.entries == once.entries;
    } else {
      MergingWithItself(above);
    }
  }
}
