/** Layered config overlays: objects merge key by key, anything else replaces, later layers win. */
module ConfigOverlay {
  import opened Common
  import opened Json

  /** `overlay` merged onto `base`. */
  function Merge(base: Value, overlay: Value): Value
    decreases overlay
  {
    if base.Object? && overlay.Object? then
      Object(map key | key in base.fields.Keys + overlay.fields.Keys ::
        if key !in overlay.fields then base.fields[key]
        else if key !in base.fields then overlay.fields[key]
        else Merge(base.fields[key], overlay.fields[key]))
    else overlay
  }

  /** Merges the overlay's keys into the base one after the other. */
  method DeepMerge(base: Value, overlay: Value) returns (r: Value)
    ensures r == Merge(base, overlay)
    decreases overlay
  {
    if !(base.Object? && overlay.Object?) {
      return overlay;
    }
    var fields := base.fields;
    var left := overlay.fields.Keys;
    while left != {}
      invariant left <= overlay.fields.Keys
      invariant fields.Keys == base.fields.Keys + (overlay.fields.Keys - left)
      invariant forall key :: key in base.fields && (key in left || key !in overlay.fields) ==>
        fields[key] == base.fields[key]
      invariant forall key :: key in overlay.fields && key !in left ==>
        fields[key] == if key in base.fields then Merge(base.fields[key], overlay.fields[key]) else overlay.fields[key]
      decreases left
    {
      var key :| key in left;
      if key in fields {
        var merged := DeepMerge(fields[key], overlay.fields[key]);
        fields := fields[key := merged];
      } else {
        fields := fields[key := overlay.fields[key]];
      }
      left := left - {key};
    }
    return Object(fields);
  }

  /** All layers merged in order, onto nothing. */
  function MergeAll(layers: seq<Value>): Value {
    if layers == [] then Object(map[])
    else Merge(MergeAll(layers[..|layers| - 1]), layers[|layers| - 1])
  }

  /** The snapshots of the configured overlays, in order, up to the first that failed. */
  function Values(snapshots: seq<Result<Value, string>>): (layers: seq<Value>)
    ensures |layers| <= |snapshots|
    ensures forall i :: 0 <= i < |layers| ==> snapshots[i] == Ok(layers[i])
    ensures |layers| < |snapshots| ==> snapshots[|layers|].Err?
  {
    if snapshots == [] || snapshots[0].Err? then [] else [snapshots[0].value] + Values(snapshots[1..])
  }

  /** Merges the snapshots in order; the first that fails fails the start. */
  method ApplyConfigOverlay(snapshots: seq<Result<Value, string>>) returns (r: Result<Value, string>)
    ensures var layers := Values(snapshots);
      r == if |layers| == |snapshots| then Ok(MergeAll(layers)) else Err(snapshots[|layers|].error)
  {
    var merged := Object(map[]);
    ghost var layers := Values(snapshots);
    for i := 0 to |snapshots|
      invariant i <= |layers| && merged == MergeAll(layers[..i])
    {
      if snapshots[i].Err? {
        return Err(snapshots[i].error);
      }
      merged := DeepMerge(merged, snapshots[i].value);
      assert layers[..i + 1][..i] == layers[..i];
    }
    assert layers[..|layers|] == layers;
    return Ok(merged);
  }

  // ----- What a merge holds at each path -----

  type Path = seq<string>

  /** What stands at a path. */
  function At(v: Value, path: Path): Option<Value>
    decreases |path|
  {
    if path == [] then Some(v)
    else if v.Object? && path[0] in v.fields then At(v.fields[path[0]], path[1..])
    else None
  }

  /** The overlay has something other than an object on the way to `path`, or at it, so nothing below the base shows. */
  predicate Cuts(overlay: Value, path: Path)
    decreases |path|
  {
    if !overlay.Object? then true
    else path != [] && path[0] in overlay.fields && Cuts(overlay.fields[path[0]], path[1..])
  }

  /** The base has something other than an object strictly above `path`. */
  predicate CutsOff(base: Value, path: Path)
    decreases |path|
  {
    if path == [] then false
    else !base.Object? || (path[0] in base.fields && CutsOff(base.fields[path[0]], path[1..]))
  }

  lemma {:induction false} CutOffIsEmpty(base: Value, path: Path)
    requires CutsOff(base, path)
    ensures At(base, path).None?
    decreases |path|
  {
    if base.Object? {
      CutOffIsEmpty(base.fields[path[0]], path[1..]);
    }
  }

  /**
   * At every path a merge holds the overlay's value where the overlay, or the base, stops being an object on the way;
   * elsewhere whichever side has a value there, and both merged where both have.
   */
  lemma {:induction false} MergeAt(base: Value, overlay: Value, path: Path)
    ensures At(Merge(base, overlay), path) ==
      if Cuts(overlay, path) || CutsOff(base, path) then At(overlay, path)
      else if At(overlay, path).None? then At(base, path)
      else if At(base, path).None? then At(overlay, path)
      else Some(Merge(At(base, path).value, At(overlay, path).value))
    decreases |path|
  {
    if CutsOff(base, path) {
      CutOffIsEmpty(base, path);
    }
    if path != [] && base.Object? && overlay.Object? && path[0] in base.fields && path[0] in overlay.fields {
      MergeAt(base.fields[path[0]], overlay.fields[path[0]], path[1..]);
    }
  }

  // ----- Laws -----

  lemma MergeOntoNothing(v: Value)
    ensures Merge(Object(map[]), v) == v
  {
    if v.Object? {
      assert Merge(Object(map[]), v).fields == v.fields;
    }
  }

  /** Merging the same overlay again changes nothing more. */
  lemma {:induction false} MergeTwice(base: Value, overlay: Value)
    ensures Merge(Merge(base, overlay), overlay) == Merge(base, overlay)
    decreases overlay
  {
    if overlay.Object? {
      MergeWithItself(overlay);
      if base.Object? {
        forall key | key in overlay.fields
          ensures key in base.fields ==>
            Merge(Merge(base.fields[key], overlay.fields[key]), overlay.fields[key])
              == Merge(base.fields[key], overlay.fields[key])
          ensures Merge(overlay.fields[key], overlay.fields[key]) == overlay.fields[key]
        {
          if key in base.fields {
            MergeTwice(base.fields[key], overlay.fields[key]);
          }
          MergeWithItself(overlay.fields[key]);
        }
        assert Merge(Merge(base, overlay), overlay).fields == Merge(base, overlay).fields;
      }
    }
  }

  lemma {:induction false} MergeWithItself(v: Value)
    ensures Merge(v, v) == v
  {
    if v.Object? {
      forall key | key in v.fields ensures Merge(v.fields[key], v.fields[key]) == v.fields[key] {
        MergeWithItself(v.fields[key]);
      }
      assert Merge(v, v).fields == v.fields;
    }
  }

  // ----- When the grouping of layers matters -----

  /** Merging `b` over `a` leaves nothing of `a`: `b` has every key of `a`, at every level both are objects. */
  ghost predicate Hides(a: Value, b: Value)
    decreases b
  {
    a.Object? && b.Object? ==>
      forall key :: key in a.fields ==> key in b.fields && Hides(a.fields[key], b.fields[key])
  }

  lemma {:induction false} HidesIff(a: Value, b: Value)
    ensures Merge(a, b) == b <==> Hides(a, b)
    decreases b
  {
    if a.Object? && b.Object? {
      forall key | key in a.fields && key in b.fields {
        HidesIff(a.fields[key], b.fields[key]);
      }
      if Hides(a, b) {
        assert Merge(a, b).fields == b.fields;
      } else {
        var key :| key in a.fields && !(key in b.fields && Hides(a.fields[key], b.fields[key]));
        assert key in Merge(a, b).fields;
      }
    }
  }

  /**
   * No path on which all three layers go on holds an object, then something else, then an object again, unless the
   * last hides the first.
   */
  ghost predicate Groupable(a: Value, b: Value, c: Value)
    decreases c
  {
    if !c.Object? || !a.Object? then true
    else if !b.Object? then Hides(a, c)
    else forall key :: key in a.fields && key in b.fields && key in c.fields ==>
      Groupable(a.fields[key], b.fields[key], c.fields[key])
  }

  /** Layers may be merged in either grouping exactly when they are groupable. */
  lemma {:induction false} MergeAssociativeIff(a: Value, b: Value, c: Value)
    ensures Merge(Merge(a, b), c) == Merge(a, Merge(b, c)) <==> Groupable(a, b, c)
    decreases c
  {
    if a.Object? && c.Object? {
      if !b.Object? {
        HidesIff(a, c);
      } else {
        forall key | key in a.fields && key in b.fields && key in c.fields {
          MergeAssociativeIff(a.fields[key], b.fields[key], c.fields[key]);
        }
        var left, right := Merge(Merge(a, b), c).fields, Merge(a, Merge(b, c)).fields;
        assert left.Keys == right.Keys;
        assert forall key :: key in left && !(key in a.fields && key in b.fields && key in c.fields) ==>
          left[key] == right[key];
        if Groupable(a, b, c) {
          assert left == right;
        } else {
          var key :| key in a.fields && key in b.fields && key in c.fields
            && !Groupable(a.fields[key], b.fields[key], c.fields[key]);
          assert left[key] != right[key];
        }
      }
    }
  }

  /** An object, then a scalar, then an object: what the scalar had replaced comes back in one grouping. */
  lemma GroupingMatters()
    ensures var a, b, c := Object(map["x" := Null]), Null, Object(map[]);
      Merge(Merge(a, b), c) == c && Merge(a, Merge(b, c)) == a && !Groupable(a, b, c)
  {
    var a := Object(map["x" := Null]);
    assert Merge(a, Object(map[])).fields == a.fields;
    assert "x" in a.fields && "x" !in Object(map[]).fields;
  }

  // ----- Which layer is heard -----

  /** The layer leaves `path` alone: it has nothing there, and nothing but objects on the way. */
  predicate Silent(layer: Value, path: Path) {
    At(layer, path).None? && !Cuts(layer, path)
  }

  lemma {:induction false} ScalarCuts(layer: Value, path: Path)
    requires At(layer, path).Some? && !At(layer, path).value.Object?
    ensures Cuts(layer, path)
    decreases |path|
  {
    if path != [] && layer.Object? {
      ScalarCuts(layer.fields[path[0]], path[1..]);
    }
  }

  /** At a path where some layer holds anything but an object, the last such layer that is not silent is heard. */
  lemma {:induction false} LastWordStands(layers: seq<Value>, k: nat, path: Path)
    requires k < |layers| && At(layers[k], path).Some? && !At(layers[k], path).value.Object?
    requires forall j :: k < j < |layers| ==> Silent(layers[j], path)
    ensures At(MergeAll(layers), path) == At(layers[k], path)
    decreases |layers|
  {
    var last := |layers| - 1;
    var base := MergeAll(layers[..last]);
    MergeAt(base, layers[last], path);
    if k == last {
      ScalarCuts(layers[last], path);
    } else {
      LastWordStands(layers[..last], k, path);
      assert Silent(layers[last], path);
      if CutsOff(base, path) {
        CutOffIsEmpty(base, path);
      }
    }
  }
}
