/**
 * Name resolution against the object table (`getOriginalAsset`) and the
 * hi-res suppression rule built on it (`hasHiResVeh`).
 */
module Alias {
  import opened Wrappers
  import opened Strings
  import opened Inventory

  /** The name that line 41 retries: everything after the first `_`. */
  function StripFirstToken(name: string): (r: string)
    requires '_' in name
    ensures |r| < |name| && EndsWith(name, r)
  {
    name[FirstIndex(name, '_') + 1..]
  }

  /** The retried name is what line 41 writes, `'_'.join(name.split('_')[1:])`. */
  lemma StripFirstTokenIsRejoinedTail(name: string)
    requires '_' in name
    ensures StripFirstToken(name) == Join('_', Split(name, '_')[1..])
  {
    JoinSplitTail(name, '_');
  }

  /**
   * `getOriginalAsset(name, objects)`: the object stored under `name`, or
   * else the result for the name without its first `_`-delimited token, or
   * `None` once no `_` is left. An object is identified by its name, which
   * is its key in the table. The argument of the recursive call is strictly
   * shorter, so resolution always terminates.
   */
  function GetOriginalAsset<V>(name: string, objects: map<string, V>): (r: Option<string>)
    ensures r.Some? ==> r.value in objects && EndsWith(name, r.value)
    decreases |name|
  {
    if name in objects then Some(name)
    else if '_' in name then
      var r := GetOriginalAsset(StripFirstToken(name), objects);
      if r.Some? then EndsWithTrans(name, StripFirstToken(name), r.value); r else r
    else None
  }

  /** The positions where resolution may cut `name`: its start and just after each `_`. */
  predicate AliasStart(name: string, k: int)
  {
    k == 0 || (0 < k <= |name| && name[k - 1] == '_')
  }

  /** A cut of `name` past its start is a cut of the name without its first token, shifted. */
  lemma TailCut(name: string, i: nat, rest: string, j: int)
    requires '_' in name && i == FirstIndex(name, '_') && rest == name[i + 1..] && j != 0
    ensures AliasStart(name, j) <==> j >= i + 1 && AliasStart(rest, j - (i + 1))
    ensures AliasStart(name, j) ==> name[j..] == rest[j - (i + 1)..]
  {
    if AliasStart(name, j) {
      assert name[j - 1] == '_';
    }
  }

  /** When resolution fails, no cut of `name` is an object name. */
  lemma {:induction false} UnresolvedHasNoKeyedAlias<V>(name: string, objects: map<string, V>)
    requires GetOriginalAsset(name, objects).None?
    ensures forall k :: AliasStart(name, k) ==> name[k..] !in objects
    decreases |name|
  {
    if '_' in name {
      var i := FirstIndex(name, '_');
      var rest := StripFirstToken(name);
      UnresolvedHasNoKeyedAlias(rest, objects);
      forall k | AliasStart(name, k)
        ensures name[k..] !in objects
      {
        if k != 0 {
          TailCut(name, i, rest, k);
        }
      }
    } else {
      assert forall j :: 0 <= j < |name| ==> name[j] != '_';
    }
  }

  /** When resolution succeeds, it found the longest keyed cut of `name`, at position `k`. */
  lemma {:induction false} ResolvedIsFirstKeyedAlias<V>(name: string, objects: map<string, V>, key: string)
    returns (k: nat)
    requires GetOriginalAsset(name, objects) == Some(key)
    ensures AliasStart(name, k) && k <= |name| && key == name[k..]
    ensures forall j :: AliasStart(name, j) && j < k ==> name[j..] !in objects
    decreases |name|
  {
    if name in objects {
      k := 0;
    } else {
      assert '_' in name;
      var i := FirstIndex(name, '_');
      var rest := StripFirstToken(name);
      var k' := ResolvedIsFirstKeyedAlias(rest, objects, key);
      k := k' + i + 1;
      TailCut(name, i, rest, k);
      forall j | AliasStart(name, j) && j < k
        ensures name[j..] !in objects
      {
        if j != 0 {
          TailCut(name, i, rest, j);
        }
      }
    }
  }

  /** Removing objects can only make resolution fail, never succeed. */
  lemma {:induction false} GetOriginalAssetMonotone<V>(name: string, small: map<string, V>, big: map<string, V>)
    requires small.Keys <= big.Keys
    ensures GetOriginalAsset(name, small).Some? ==> GetOriginalAsset(name, big).Some?
    decreases |name|
  {
    if name !in big && name !in small && '_' in name {
      GetOriginalAssetMonotone(StripFirstToken(name), small, big);
    }
  }

  /**
   * `hasHiResVeh(name)`: false for a name that ends in `_hi`; otherwise true
   * when `name + "_hi"` resolves in the object table or some scanned asset of
   * any group has exactly that name.
   */
  predicate HasHiResVeh<V>(name: string, objects: map<string, V>, pending: Pending)
  {
    var hiRes := name + "_hi";
    !EndsWith(name, "_hi") && (GetOriginalAsset(hiRes, objects).Some? || SomeAssetNamed(pending, hiRes))
  }

  /**
   * The hi-res rule in terms of the object keys themselves: a name not
   * ending in `_hi` has a hi-res sibling exactly when some tail of
   * `name + "_hi"` cut after an `_` (or the whole of it) is an object name,
   * or a scanned asset is named `name + "_hi"`.
   */
  lemma HasHiResVehIff<V>(name: string, objects: map<string, V>, pending: Pending)
    ensures HasHiResVeh(name, objects, pending) <==>
      !EndsWith(name, "_hi") &&
      ((exists k :: AliasStart(name + "_hi", k) && (name + "_hi")[k..] in objects) ||
        SomeAssetNamed(pending, name + "_hi"))
  {
    var hiRes := name + "_hi";
    var r := GetOriginalAsset(hiRes, objects);
    if r.None? {
      UnresolvedHasNoKeyedAlias(hiRes, objects);
    } else {
      var k := ResolvedIsFirstKeyedAlias(hiRes, objects, r.value);
      assert hiRes[k..] in objects;
    }
  }

  /** A hi-res asset is never suppressed in favour of a sibling of itself. */
  lemma HiResNameHasNoSibling<V>(name: string, objects: map<string, V>, pending: Pending)
    requires EndsWith(name, "_hi")
    ensures !HasHiResVeh(name, objects, pending)
  {
  }

  /** Removing objects can only turn the hi-res rule off. */
  lemma HasHiResVehMonotone<V>(name: string, small: map<string, V>, big: map<string, V>, pending: Pending)
    requires small.Keys <= big.Keys
    ensures HasHiResVeh(name, small, pending) ==> HasHiResVeh(name, big, pending)
  {
    GetOriginalAssetMonotone(name + "_hi", small, big);
  }

  /** Resolution cuts a packaging prefix: `foo_bar_baz` finds `bar_baz`; `baz` finds nothing in an empty table. */
  lemma AliasExamples()
    ensures GetOriginalAsset("foo_bar_baz", map["bar_baz" := 1]) == Some("bar_baz")
    ensures GetOriginalAsset<int>("baz", map[]) == None
  {
    var name, key := "foo_bar_baz", "bar_baz";
    FirstIndexAt(name, '_', 3);
    assert StripFirstToken(name) == key;
    assert name !in map[key := 1];
    assert GetOriginalAsset(key, map[key := 1]) == Some(key);
    assert '_' !in "baz";
  }

  /** A present `truck_hi` suppresses `truck`. */
  lemma HiResExample(pending: Pending)
    ensures HasHiResVeh("truck", map["truck_hi" := 1], pending)
  {
    var hi := "truck_hi";
    assert "truck" + "_hi" == hi;
    assert GetOriginalAsset(hi, map[hi := 1]) == Some(hi);
    assert !EndsWith("truck", "_hi");
  }

  /** A present `truck_hi` also suppresses `pack_truck`, whose hi-res name resolves past its packaging prefix. */
  lemma PrefixedHiResExample(pending: Pending)
    ensures HasHiResVeh("pack_truck", map["truck_hi" := 1], pending)
  {
    var hi, packed := "truck_hi", "pack_truck_hi";
    var objects := map[hi := 1];
    assert "pack_truck" + "_hi" == packed;
    FirstIndexAt(packed, '_', 4);
    assert StripFirstToken(packed) == hi;
    assert GetOriginalAsset(packed, objects) == Some(hi);
    assert !EndsWith("pack_truck", "_hi");
  }

  /**
   * Because the alias lookup of line 47 strips leading tokens, an object
   * named just `hi` counts as the hi-res sibling of every name that does not
   * end in `_hi`: `hi` is the last cut of `name + "_hi"`.
   */
  lemma StrayHiObjectSuppresses<V>(name: string, objects: map<string, V>, pending: Pending)
    requires "hi" in objects && !EndsWith(name, "_hi")
    ensures HasHiResVeh(name, objects, pending)
  {
    var hiRes := name + "_hi";
    var k := |name| + 1;
    assert hiRes[k - 1] == '_' && hiRes[k..] == "hi";
    assert AliasStart(hiRes, k);
    HasHiResVehIff(name, objects, pending);
  }
}
