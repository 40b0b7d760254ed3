/**
 * The clean-up at the end of a group (lines 243-256): the duplicate-name
 * pattern of line 24, the deletion rule of lines 245-253 and one pass of it
 * over the objects of the open file.
 */
module Cleanup {
  import opened Strings
  import opened Inventory
  import opened Alias
  import opened Host

  /**
   * Where `\.\d+$` matches `name`: a dot at `i`, one or more digits up to
   * `j`, and `j` is the end of the name or the position of a final newline
   * (Python's `$` matches in both places).
   */
  predicate DuplicateMatchAt(name: string, i: int, j: int)
  {
    && 0 <= i && i + 1 < j <= |name|
    && name[i] == '.'
    && (forall k :: i < k < j ==> IsDigit(name[k]))
    && (j == |name| || (j == |name| - 1 && name[j] == '\n'))
  }

  /** `re.search(DUPLICATE_REGEX, name)` succeeds: Blender's `.001`-style duplicate suffix. */
  predicate HasDuplicateSuffix(name: string)
  {
    exists i, j :: 0 <= i < j <= |name| && DuplicateMatchAt(name, i, j)
  }

  /** The number of digits that end `s`. */
  function TrailingDigits(s: string): (d: nat)
    ensures d <= |s|
    ensures forall k :: |s| - d <= k < |s| ==> IsDigit(s[k])
    ensures d < |s| ==> !IsDigit(s[|s| - d - 1])
  {
    if s != [] && IsDigit(s[|s| - 1]) then TrailingDigits(s[..|s| - 1]) + 1 else 0
  }

  /** `s` ends with a dot and at least one digit. */
  predicate EndsWithDotDigits(s: string)
  {
    var d := TrailingDigits(s);
    1 <= d < |s| && s[|s| - d - 1] == '.'
  }

  /** The pattern test as a scan from the end of the name. */
  predicate IsDuplicateName(name: string)
  {
    EndsWithDotDigits(name) || (name != [] && name[|name| - 1] == '\n' && EndsWithDotDigits(name[..|name| - 1]))
  }

  /** A dot followed only by digits up to the end of `s` is exactly where the trailing digits start. */
  lemma DotDigitsEnd(s: string, i: int)
    requires 0 <= i && i + 1 < |s| && s[i] == '.' && forall k :: i < k < |s| ==> IsDigit(s[k])
    ensures TrailingDigits(s) == |s| - i - 1
  {
  }

  /** A match of the pattern is found by the scan from the end. */
  lemma MatchIsFound(name: string, i: int, j: int)
    requires DuplicateMatchAt(name, i, j)
    ensures IsDuplicateName(name)
  {
    if j == |name| {
      DotDigitsEnd(name, i);
    } else {
      var s := name[..|name| - 1];
      assert forall k :: i < k < |s| ==> s[k] == name[k];
      DotDigitsEnd(s, i);
    }
  }

  /** The scan from the end finds a match exactly when the pattern has one. */
  lemma IsDuplicateNameIff(name: string)
    ensures IsDuplicateName(name) <==> HasDuplicateSuffix(name)
  {
    var n := |name|;
    if EndsWithDotDigits(name) {
      assert DuplicateMatchAt(name, n - TrailingDigits(name) - 1, n);
    } else if name != [] && name[n - 1] == '\n' && EndsWithDotDigits(name[..n - 1]) {
      var s := name[..n - 1];
      assert DuplicateMatchAt(name, n - 1 - TrailingDigits(s) - 1, n - 1);
    }
    if HasDuplicateSuffix(name) {
      var i, j :| 0 <= i < j <= |name| && DuplicateMatchAt(name, i, j);
      MatchIsFound(name, i, j);
    }
  }

  /** `Body.001` is a duplicate name; `Body` and `Body.` are not. */
  lemma DuplicateExamples()
    ensures IsDuplicateName("Body.001")
    ensures !IsDuplicateName("Body") && !IsDuplicateName("Body.")
  {
    MatchIsFound("Body.001", 4, 8);
    assert TrailingDigits("Body") == 0;
    assert TrailingDigits("Body.") == 0;
  }

  /** Some scanned asset of a group other than `group` has a name that starts with `name` (line 249). */
  predicate ExtendedElsewhere(pending: Pending, group: string, name: string)
  {
    exists g :: g in pending && g != group && GroupHasExtension(pending, g, name)
  }

  /** Some scanned asset of any group has a name that starts with `name` (line 252). */
  predicate ExtendedAnywhere(pending: Pending, name: string)
  {
    exists g :: g in pending && GroupHasExtension(pending, g, name)
  }

  /**
   * The disjuncts of lines 245-252, which depend on the object itself and
   * the scanned table but not on the other objects: no `asset_data`; a
   * duplicate suffix; in a regex group, a name the group's pattern misses
   * that begins some other group's asset; in any other group (a vehicle
   * group or `UNGROUPED`), a name that begins no asset of this group but
   * some asset of the table.
   */
  predicate DoomedByName<V>(cfg: Config<V>, group: string, pending: Pending, obj: Obj, name: string)
    requires group in pending
  {
    || !obj.isAsset
    || IsDuplicateName(name)
    || (group in cfg.regexGroups && !cfg.groupMatches(group, name) && ExtendedElsewhere(pending, group, name))
    || (group !in cfg.regexGroups && !GroupHasExtension(pending, group, name) && ExtendedAnywhere(pending, name))
  }

  /** The whole test of lines 245-253, with line 253's vehicle that has a hi-res sibling among the current objects. */
  predicate Doomed<V>(cfg: Config<V>, group: string, pending: Pending, objects: map<string, Obj>, name: string)
    requires group in pending && name in objects
  {
    DoomedByName(cfg, group, pending, objects[name], name) ||
    (cfg.isVehicleName(name) && HasHiResVeh(name, objects, pending))
  }

  /**
   * The loop of lines 244-256, visiting the names of `order` one after the
   * other: a name still present whose object the rule condemns, in the
   * objects left at that moment, is removed.
   */
  function CleanupPass<V>(cfg: Config<V>, group: string, pending: Pending, objects: map<string, Obj>, order: seq<string>): (r: map<string, Obj>)
    requires group in pending
    ensures forall k :: k in r ==> k in objects && r[k] == objects[k]
    ensures forall k :: k in objects && k !in order ==> k in r
  {
    if order == [] then objects
    else
      var prev := CleanupPass(cfg, group, pending, objects, order[..|order| - 1]);
      var x := order[|order| - 1];
      if x in prev && Doomed(cfg, group, pending, prev, x) then prev - {x} else prev
  }

  /** Fewer objects can only make the rule spare more: the hi-res test is the only part that reads them. */
  lemma DoomedMonotone<V>(cfg: Config<V>, group: string, pending: Pending,
                          small: map<string, Obj>, big: map<string, Obj>, name: string)
    requires group in pending && name in small
    requires forall k :: k in small ==> k in big && big[k] == small[k]
    ensures Doomed(cfg, group, pending, small, name) ==> Doomed(cfg, group, pending, big, name)
  {
    HasHiResVehMonotone(name, small, big, pending);
  }

  /** After the pass, no object that was visited and kept is condemned by the rule on the objects that are left. */
  lemma {:induction false} SurvivorsAreSpared<V>(cfg: Config<V>, group: string, pending: Pending,
                                                 objects: map<string, Obj>, order: seq<string>)
    requires group in pending
    ensures var r := CleanupPass(cfg, group, pending, objects, order);
      forall k :: k in r && k in order ==> !Doomed(cfg, group, pending, r, k)
  {
    if order != [] {
      var init := order[..|order| - 1];
      SurvivorsAreSpared(cfg, group, pending, objects, init);
      var prev := CleanupPass(cfg, group, pending, objects, init);
      var r := CleanupPass(cfg, group, pending, objects, order);
      forall k | k in r && k in order
        ensures !Doomed(cfg, group, pending, r, k)
      {
        if k in init {
          DoomedMonotone(cfg, group, pending, r, prev, k);
        }
      }
    }
  }

  /**
   * When every object is visited, every survivor is an asset without a
   * duplicate suffix, and it fails every other disjunct of the rule too.
   */
  lemma SurvivorsAreCleanAssets<V>(cfg: Config<V>, group: string, pending: Pending,
                                   objects: map<string, Obj>, order: seq<string>)
    requires group in pending && forall k :: k in objects ==> k in order
    ensures var r := CleanupPass(cfg, group, pending, objects, order);
      forall k :: k in r ==> r[k].isAsset && !HasDuplicateSuffix(k) && !DoomedByName(cfg, group, pending, r[k], k)
  {
    SurvivorsAreSpared(cfg, group, pending, objects, order);
    var r := CleanupPass(cfg, group, pending, objects, order);
    forall k | k in r
      ensures !HasDuplicateSuffix(k)
    {
      IsDuplicateNameIff(k);
    }
  }

  /** Conversely, an object the pass removed was visited, and the rule condemns it. */
  lemma {:induction false} RemovedWasCondemned<V>(cfg: Config<V>, group: string, pending: Pending,
                                                  objects: map<string, Obj>, order: seq<string>, k: string)
    requires group in pending && k in objects && k !in CleanupPass(cfg, group, pending, objects, order)
    ensures k in order && Doomed(cfg, group, pending, objects, k)
  {
    var init := order[..|order| - 1];
    var prev := CleanupPass(cfg, group, pending, objects, init);
    if k in prev {
      DoomedMonotone(cfg, group, pending, prev, objects, k);
    } else {
      RemovedWasCondemned(cfg, group, pending, objects, init, k);
    }
  }

  /** `car_hi` resolves exactly when an object of that name is present. */
  lemma CarHiResolves(objects: map<string, Obj>)
    requires "hi" !in objects
    ensures GetOriginalAsset("car_hi", objects).Some? <==> "car_hi" in objects
  {
    FirstIndexAt("car_hi", '_', 3);
    assert StripFirstToken("car_hi") == "hi";
  }

  /** With `car_hi` present, the vehicle `car` is condemned; once it is gone, `car` is spared. */
  lemma CarHiResRule<V>(cfg: Config<V>, group: string, pending: Pending, car: Obj, hi: Obj)
    requires group in pending && cfg.isVehicleName("car")
    requires !DoomedByName(cfg, group, pending, car, "car") && !SomeAssetNamed(pending, "car_hi")
    ensures Doomed(cfg, group, pending, map["car" := car, "car_hi" := hi], "car")
    ensures !Doomed(cfg, group, pending, map["car" := car], "car")
  {
    assert "car" + "_hi" == "car_hi" && !EndsWith("car", "_hi");
    CarHiResolves(map["car" := car]);
    CarHiResolves(map["car" := car, "car_hi" := hi]);
  }

  /**
   * Line 253 reads the objects left at the moment of the visit, so the
   * visiting order can decide a vehicle's fate: a vehicle `car` whose only
   * hi-res sibling is a doomed object `car_hi` survives when `car_hi` is
   * removed first, and is removed when it is visited first.
   */
  lemma HiResDecidedByOrder<V>(cfg: Config<V>, group: string, pending: Pending, car: Obj, hi: Obj)
    requires group in pending && car.isAsset && !hi.isAsset && cfg.isVehicleName("car")
    requires !DoomedByName(cfg, group, pending, car, "car") && !SomeAssetNamed(pending, "car_hi")
    ensures var objects := map["car" := car, "car_hi" := hi];
      && CleanupPass(cfg, group, pending, objects, ["car_hi", "car"]) == map["car" := car]
      && CleanupPass(cfg, group, pending, objects, ["car", "car_hi"]) == map[]
  {
    CarHiResRule(cfg, group, pending, car, hi);
    assert "car" != "car_hi";
    SiblingVisitedFirst(cfg, group, pending, "car", "car_hi", car, hi);
    SiblingVisitedLast(cfg, group, pending, "car", "car_hi", car, hi);
  }

  /** A pass over two names whose first is condemned: the first goes, then the second is judged without it. */
  lemma VisitPair<V>(cfg: Config<V>, group: string, pending: Pending, objects: map<string, Obj>, first: string, second: string)
    requires group in pending && first in objects && Doomed(cfg, group, pending, objects, first)
    ensures var left := objects - {first};
      CleanupPass(cfg, group, pending, objects, [first, second]) ==
        if second in left && Doomed(cfg, group, pending, left, second) then left - {second} else left
  {
    assert [first][..0] == [];
    assert CleanupPass(cfg, group, pending, objects, [first]) == objects - {first};
    assert [first, second][..1] == [first];
  }

  /** An object without `asset_data` is condemned, whatever else is present. */
  lemma NonAssetIsDoomed<V>(cfg: Config<V>, group: string, pending: Pending, objects: map<string, Obj>, name: string)
    requires group in pending && name in objects && !objects[name].isAsset
    ensures Doomed(cfg, group, pending, objects, name)
  {
  }

  /** Visiting a condemned sibling `b` before a name `a` that is spared without it keeps `a`. */
  lemma SiblingVisitedFirst<V>(cfg: Config<V>, group: string, pending: Pending, a: string, b: string, car: Obj, hi: Obj)
    requires group in pending && a != b && !hi.isAsset
    requires !Doomed(cfg, group, pending, map[a := car], a)
    ensures CleanupPass(cfg, group, pending, map[a := car, b := hi], [b, a]) == map[a := car]
  {
    var objects := map[a := car, b := hi];
    NonAssetIsDoomed(cfg, group, pending, objects, b);
    assert objects - {b} == map[a := car];
    VisitPair(cfg, group, pending, objects, b, a);
  }

  /** Visiting `a` while it is condemned, and then its condemned sibling `b`, leaves nothing. */
  lemma SiblingVisitedLast<V>(cfg: Config<V>, group: string, pending: Pending, a: string, b: string, car: Obj, hi: Obj)
    requires group in pending && a != b && !hi.isAsset
    requires Doomed(cfg, group, pending, map[a := car, b := hi], a)
    ensures CleanupPass(cfg, group, pending, map[a := car, b := hi], [a, b]) == map[]
  {
    var objects := map[a := car, b := hi];
    var left := map[b := hi];
    assert objects - {a} == left;
    NonAssetIsDoomed(cfg, group, pending, left, b);
    assert left - {b} == map[];
    VisitPair(cfg, group, pending, objects, a, b);
  }

  /** An object the rule condemns whatever the other objects are is gone after any pass that visits it. */
  lemma {:induction false} CondemnedByNameIsRemoved<V>(cfg: Config<V>, group: string, pending: Pending,
                                                       objects: map<string, Obj>, order: seq<string>, name: string)
    requires group in pending && name in objects && name in order
    requires DoomedByName(cfg, group, pending, objects[name], name)
    ensures name !in CleanupPass(cfg, group, pending, objects, order)
  {
    var init := order[..|order| - 1];
    if name in init {
      CondemnedByNameIsRemoved(cfg, group, pending, objects, init, name);
    }
  }

  /** An object without `asset_data`, or with a `.NNN` suffix, is always deleted. */
  lemma NonAssetsAndDuplicatesAreRemoved<V>(cfg: Config<V>, group: string, pending: Pending,
                                            objects: map<string, Obj>, order: seq<string>, name: string)
    requires group in pending && name in objects && name in order
    requires !objects[name].isAsset || HasDuplicateSuffix(name)
    ensures name !in CleanupPass(cfg, group, pending, objects, order)
  {
    IsDuplicateNameIff(name);
    CondemnedByNameIsRemoved(cfg, group, pending, objects, order, name);
  }

  /** A pass over objects that the rule all spares changes nothing, whatever the order. */
  lemma {:induction false} PassOverSparedIsIdentity<V>(cfg: Config<V>, group: string, pending: Pending,
                                                       objects: map<string, Obj>, order: seq<string>)
    requires group in pending
    requires forall k :: k in objects ==> !Doomed(cfg, group, pending, objects, k)
    ensures CleanupPass(cfg, group, pending, objects, order) == objects
  {
    if order != [] {
      PassOverSparedIsIdentity(cfg, group, pending, objects, order[..|order| - 1]);
    }
  }

  /** Cleaning up twice is cleaning up once, when the first pass visits every object. */
  lemma CleanupIdempotent<V>(cfg: Config<V>, group: string, pending: Pending,
                             objects: map<string, Obj>, order: seq<string>, again: seq<string>)
    requires group in pending && forall k :: k in objects ==> k in order
    ensures var r := CleanupPass(cfg, group, pending, objects, order);
      CleanupPass(cfg, group, pending, r, again) == r
  {
    SurvivorsAreSpared(cfg, group, pending, objects, order);
    PassOverSparedIsIdentity(cfg, group, pending, CleanupPass(cfg, group, pending, objects, order), again);
  }
}
