/** Merging configuration trees (`deep_merge` in `ci/prepare_docs_build.py`). */
module DeepMerge {
  import opened Wrappers

  datatype Key = Key(name: string)

  /** Anything that is no mapping is a leaf, lists included. */
  datatype Tree = Leaf(value: string) | Dict(entries: map<Key, Tree>)

  function Merge(base: Tree, override: Tree): Tree
    decreases override
  {
    if base.Dict? && override.Dict? then
      Dict(map k | k in base.entries.Keys + override.entries.Keys ::
        if k !in override.entries then base.entries[k]
        else if k in base.entries then Merge(base.entries[k], override.entries[k])
        else override.entries[k])
    else override
  }

  method MergeByLoop(base: Tree, override: Tree) returns (r: Tree)
    ensures r == Merge(base, override)
    decreases override
  {
    if !(base.Dict? && override.Dict?) {
      return override;
    }
    var merged := base.entries;
    var todo := override.entries.Keys;
    while todo != {}
      invariant todo <= override.entries.Keys
      invariant merged.Keys == base.entries.Keys + (override.entries.Keys - todo)
      invariant forall k <- merged ::
        merged[k] == if k in todo || k !in override.entries then base.entries[k] else Merge(base, override).entries[k]
      decreases todo
    {
      var k :| k in todo;
      if k in merged {
        var value := MergeByLoop(merged[k], override.entries[k]);
        merged := merged[k := value];
      } else {
        merged := merged[k := override.entries[k]];
      }
      todo := todo - {k};
    }
    assert merged == Merge(base, override).entries;
    r := Dict(merged);
  }

  // ---------------------------------------------------------------- what is found where

  function Lookup(t: Tree, path: seq<Key>): Option<Tree>
    decreases path
  {
    if path == [] then Some(t)
    else if t.Dict? && path[0] in t.entries then Lookup(t.entries[path[0]], path[1..])
    else None
  }

  /** The tree ends in a leaf strictly above the path. */
  predicate Blocked(t: Tree, path: seq<Key>)
    decreases path
  {
    path != [] && (t.Leaf? || (path[0] in t.entries && Blocked(t.entries[path[0]], path[1..])))
  }

  /** What the merged tree holds at any path: what the override has there, merged with the base
      if that has something too; nothing if the override ends in a leaf above; or else what the
      base has. */
  lemma {:induction false} LookupMerged(base: Tree, override: Tree, path: seq<Key>)
    ensures Lookup(Merge(base, override), path) ==
            match (Lookup(base, path), Lookup(override, path))
            case (Some(x), Some(y)) => Some(Merge(x, y))
            case (None, Some(y)) => Some(y)
            case (x, None) => if Blocked(override, path) then None else x
    decreases path
  {
    if path != [] && base.Dict? && override.Dict? && path[0] in base.entries && path[0] in override.entries {
      LookupMerged(base.entries[path[0]], override.entries[path[0]], path[1..]);
    } else if path != [] && override.Dict? && path[0] in override.entries {
      LookupBlocked(override, path);
    }
  }

  lemma {:induction false} LookupBlocked(t: Tree, path: seq<Key>)
    ensures Blocked(t, path) ==> Lookup(t, path) == None
    decreases path
  {
    if path != [] && t.Dict? && path[0] in t.entries {
      LookupBlocked(t.entries[path[0]], path[1..]);
    }
  }

  /** A leaf of the override wins. */
  lemma OverrideLeafWins(base: Tree, override: Tree, path: seq<Key>)
    requires Lookup(override, path).Some? && Lookup(override, path).value.Leaf?
    ensures Lookup(Merge(base, override), path) == Lookup(override, path)
  {
    LookupMerged(base, override, path);
  }

  /** What the base has at a path the override does not have is kept exactly when no leaf of
      the override stands above it. */
  lemma UntouchedIsKeptIff(base: Tree, override: Tree, path: seq<Key>)
    requires Lookup(base, path).Some? && Lookup(override, path).None?
    ensures Lookup(Merge(base, override), path) == Lookup(base, path) <==> !Blocked(override, path)
  {
    LookupMerged(base, override, path);
  }

  // ---------------------------------------------------------------- laws

  lemma {:induction false} MergeIsIdempotent(a: Tree)
    ensures Merge(a, a) == a
    decreases a
  {
    if a.Dict? {
      forall k | k in a.entries ensures Merge(a.entries[k], a.entries[k]) == a.entries[k] {
        MergeIsIdempotent(a.entries[k]);
      }
      assert Merge(a, a).entries == a.entries;
    }
  }

  /** Merging the same override again changes nothing. */
  lemma {:induction false} MergeTwice(a: Tree, b: Tree)
    ensures Merge(Merge(a, b), b) == Merge(a, b)
    decreases b
  {
    if a.Dict? && b.Dict? {
      var once := Merge(a, b).entries;
      forall k | k in b.entries ensures Merge(once[k], b.entries[k]) == once[k] {
        if k in a.entries {
          MergeTwice(a.entries[k], b.entries[k]);
        } else {
          MergeIsIdempotent(b.entries[k]);
        }
      }
      assert Merge(Merge(a, b), b).entries == once;
    } else {
      MergeIsIdempotent(b);
    }
  }

  /** Every path of `a` that runs along mappings of `c` is a path of `c`. */
  predicate Covered(a: Tree, c: Tree)
    decreases c
  {
    a.Dict? && c.Dict? ==> forall k <- a.entries :: k in c.entries && Covered(a.entries[k], c.entries[k])
  }

  lemma {:induction false} CoveredIff(a: Tree, c: Tree)
    ensures Covered(a, c) <==> Merge(a, c) == c
    decreases c
  {
    if a.Dict? && c.Dict? {
      forall k | k in a.entries && k in c.entries
        ensures Covered(a.entries[k], c.entries[k]) <==> Merge(a.entries[k], c.entries[k]) == c.entries[k]
      {
        CoveredIff(a.entries[k], c.entries[k]);
      }
      var m := Merge(a, c).entries;
      if Covered(a, c) {
        assert m == c.entries;
      } else {
        var k :| k in a.entries && !(k in c.entries && Covered(a.entries[k], c.entries[k]));
        assert k in m;
      }
    }
  }

  /** Where the outer two are mappings and the middle one is a leaf, the third covers the first. */
  predicate Associates(a: Tree, b: Tree, c: Tree)
    decreases c
  {
    a.Dict? && c.Dict? ==>
      if b.Dict?
      then forall k | k in a.entries && k in b.entries && k in c.entries :: Associates(a.entries[k], b.entries[k], c.entries[k])
      else Covered(a, c)
  }

  /** Merging is associative on three trees exactly when wherever a leaf of the second stands
      between mappings of the first and the third, the third covers the first. */
  lemma {:induction false} MergeAssociatesIff(a: Tree, b: Tree, c: Tree)
    ensures Merge(Merge(a, b), c) == Merge(a, Merge(b, c)) <==> Associates(a, b, c)
    decreases c
  {
    if a.Dict? && b.Dict? && c.Dict? {
      var left, right := Merge(Merge(a, b), c).entries, Merge(a, Merge(b, c)).entries;
      forall k | k in a.entries && k in b.entries && k in c.entries
        ensures left[k] == right[k] <==> Associates(a.entries[k], b.entries[k], c.entries[k])
      {
        MergeAssociatesIff(a.entries[k], b.entries[k], c.entries[k]);
      }
      assert left.Keys == right.Keys;
      assert forall k <- left | !(k in a.entries && k in b.entries && k in c.entries) :: left[k] == right[k];
      assert left == right <==> forall k <- left :: left[k] == right[k];
    } else if a.Dict? && c.Dict? {
      CoveredIff(a, c);
    }
  }

  /** In particular when at no path the outer two are mappings and the middle one is not. */
  lemma {:induction false} MergeAssociates(a: Tree, b: Tree, c: Tree)
    requires forall path :: !(Mapping(Lookup(a, path)) && Mapping(Lookup(c, path))
                              && Lookup(b, path).Some? && !Mapping(Lookup(b, path)))
    ensures Associates(a, b, c) && Merge(Merge(a, b), c) == Merge(a, Merge(b, c))
    decreases c
  {
    assert Lookup(a, []) == Some(a) && Lookup(b, []) == Some(b) && Lookup(c, []) == Some(c);
    if a.Dict? && c.Dict? {
      forall k | k in a.entries && k in b.entries && k in c.entries
        ensures Associates(a.entries[k], b.entries[k], c.entries[k])
      {
        forall path ensures Lookup(a, [k] + path) == Lookup(a.entries[k], path)
                         && Lookup(b, [k] + path) == Lookup(b.entries[k], path)
                         && Lookup(c, [k] + path) == Lookup(c.entries[k], path)
        {
          assert ([k] + path)[1..] == path;
        }
        MergeAssociates(a.entries[k], b.entries[k], c.entries[k]);
      }
    }
    MergeAssociatesIff(a, b, c);
  }

  predicate Mapping(t: Option<Tree>) {
    t.Some? && t.value.Dict?
  }

  /** Merging over a leaf and back to a mapping forgets the first mapping on one side only. */
  lemma MergeIsNotAssociative()
    ensures var a, b, c := Dict(map[Key("kept") := Leaf("1")]), Leaf("2"), Dict(map[]);
            Merge(Merge(a, b), c) != Merge(a, Merge(b, c))
  {
    var a, b, c := Dict(map[Key("kept") := Leaf("1")]), Leaf("2"), Dict(map[]);
    assert Key("kept") in Merge(a, c).entries;
  }
}
