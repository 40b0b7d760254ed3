/**
 * The scan of the import directory (lines 77-111): the joined suffix of each
 * file decides whether it is a texture or a model asset, and each model
 * asset is classified into a group and appended to it.
 */
module Scan {
  import opened Wrappers
  import opened Strings
  import opened Inventory

  /** A regular file found under the import directory: its name, its directory's name and path. */
  datatype FileEntry = FileEntry(fileName: string, parentName: string, parentPath: string)

  /** `TEXTURE_EXT`. */
  const TextureExt: string := ".dds"

  /** `s.lstrip(c)`. */
  function LStrip(s: string, c: char): (r: string)
    ensures |r| <= |s| && r == s[|s| - |r|..]
    ensures r == [] || r[0] != c
  {
    if s != [] && s[0] == c then LStrip(s[1..], c) else s
  }

  /** What `lstrip` removes is the leading run of `c` and nothing more: with LStrip's contract this is its value. */
  lemma {:induction false} LStripRemovesLeadingRun(s: string, c: char)
    ensures forall k :: 0 <= k < |s| - |LStrip(s, c)| ==> s[k] == c
  {
    if s != [] && s[0] == c {
      LStripRemovesLeadingRun(s[1..], c);
      assert forall k :: 1 <= k < |s| - |LStrip(s, c)| ==> s[k] == s[1..][k - 1];
    }
  }

  /** `Path(fileName).suffixes` as pathlib computes it. */
  function Suffixes(fileName: string): seq<string>
  {
    if EndsWith(fileName, ".") then []
    else
      var parts := Split(LStrip(fileName, '.'), '.');
      seq(|parts| - 1, i requires 0 <= i < |parts| - 1 => "." + parts[i + 1])
  }

  /** `"".join(ss)`. */
  function Concat(ss: seq<string>): string
  {
    if ss == [] then "" else ss[0] + Concat(ss[1..])
  }

  /** `ext` of line 78: the file's suffixes joined. */
  function JoinedSuffix(fileName: string): string
  {
    Concat(Suffixes(fileName))
  }

  /** `s[0:-k]` with Python's slice clamping (so `s[0:-0]` is empty). */
  function DropLast(s: string, k: nat): string
  {
    if k == 0 || k >= |s| then "" else s[..|s| - k]
  }

  /** `name` of line 79. */
  function Stem(fileName: string): string
  {
    DropLast(fileName, |JoinedSuffix(fileName)|)
  }

  /** Joining pieces with a separator is the first piece followed by each other piece behind a separator. */
  lemma {:induction false} JoinAsConcat(sep: char, parts: seq<string>)
    requires |parts| >= 1
    ensures Join(sep, parts) == parts[0] + Concat(seq(|parts| - 1, i requires 0 <= i < |parts| - 1 => [sep] + parts[i + 1]))
  {
    var tail := seq(|parts| - 1, i requires 0 <= i < |parts| - 1 => [sep] + parts[i + 1]);
    if |parts| > 1 {
      JoinAsConcat(sep, parts[1..]);
      var tail' := seq(|parts[1..]| - 1, i requires 0 <= i < |parts[1..]| - 1 => [sep] + parts[1..][i + 1]);
      assert tail[1..] == tail';
      assert Concat(tail) == [sep] + parts[1] + Concat(tail');
    }
  }

  /** The name without its leading dots is its first dot-piece followed by the joined suffix. */
  lemma BodyIsHeadAndSuffix(fileName: string)
    requires !EndsWith(fileName, ".")
    ensures LStrip(fileName, '.') == Split(LStrip(fileName, '.'), '.')[0] + JoinedSuffix(fileName)
  {
    var body := LStrip(fileName, '.');
    var parts := Split(body, '.');
    JoinSplit(body, '.');
    JoinAsConcat('.', parts);
    assert Suffixes(fileName) == seq(|parts| - 1, i requires 0 <= i < |parts| - 1 => ['.'] + parts[i + 1]);
  }

  /** A non-empty joined suffix begins with a dot. */
  lemma SuffixStartsWithDot(fileName: string)
    requires JoinedSuffix(fileName) != ""
    ensures JoinedSuffix(fileName)[0] == '.'
  {
    var sufs := Suffixes(fileName);
    assert sufs != [];
    assert sufs[0][0] == '.';
    assert JoinedSuffix(fileName) == sufs[0] + Concat(sufs[1..]);
  }

  /** The joined suffix is shorter than the file name and ends it. */
  lemma SuffixEndsName(fileName: string)
    requires JoinedSuffix(fileName) != ""
    ensures |JoinedSuffix(fileName)| < |fileName|
    ensures fileName[|fileName| - |JoinedSuffix(fileName)|..] == JoinedSuffix(fileName)
  {
    var ext := JoinedSuffix(fileName);
    assert !EndsWith(fileName, ".");
    var body := LStrip(fileName, '.');
    var head := Split(body, '.')[0];
    BodyIsHeadAndSuffix(fileName);
    SuffixStartsWithDot(fileName);
    assert body == head + ext;
    assert head != "" by {
      assert body[0] != '.';
    }
    var p := |fileName| - |body|;
    assert fileName[p..] == body;
    assert ext == body[|head|..];
    assert fileName[p + |head|..] == fileName[p..][|head|..];
  }

  /**
   * The joined suffix is a tail of the file name that starts with a dot, and
   * the recorded name is what comes before it, never empty; a name without a
   * suffix is recorded as the empty string.
   */
  lemma StemAndSuffix(fileName: string)
    ensures JoinedSuffix(fileName) != "" ==>
      && JoinedSuffix(fileName)[0] == '.'
      && Stem(fileName) != ""
      && Stem(fileName) + JoinedSuffix(fileName) == fileName
    ensures JoinedSuffix(fileName) == "" ==> Stem(fileName) == ""
  {
    var ext := JoinedSuffix(fileName);
    if ext != "" {
      SuffixStartsWithDot(fileName);
      SuffixEndsName(fileName);
      var n := |fileName| - |ext|;
      assert Stem(fileName) == fileName[..n];
      assert fileName[..n] + fileName[n..] == fileName;
    }
  }

  /** Value of `key` after the first `n` rounds of the regex loop (95-97): the last match so far wins. */
  function RegexKey<V>(cfg: Config<V>, name: string, n: nat): string
    requires n <= |cfg.regexGroups|
  {
    if n == 0 then cfg.ungrouped
    else if cfg.groupMatches(cfg.regexGroups[n - 1], name) then cfg.regexGroups[n - 1]
    else RegexKey(cfg, name, n - 1)
  }

  /** `next(veh for veh in VEHICLES[from:] if name.startswith(veh))`, as an index. */
  function FirstVehicleFrom<V>(cfg: Config<V>, name: string, from: nat): (r: Option<nat>)
    requires from <= |cfg.vehicles|
    ensures r.Some? ==> from <= r.value < |cfg.vehicles| && cfg.vehMatches(name, cfg.vehicles[r.value])
    ensures r.Some? ==> forall j :: from <= j < r.value ==> !cfg.vehMatches(name, cfg.vehicles[j])
    ensures r.None? ==> forall j :: from <= j < |cfg.vehicles| ==> !cfg.vehMatches(name, cfg.vehicles[j])
    decreases |cfg.vehicles| - from
  {
    if from == |cfg.vehicles| then None
    else if cfg.vehMatches(name, cfg.vehicles[from]) then Some(from)
    else FirstVehicleFrom(cfg, name, from + 1)
  }

  /** The group key chosen for an asset name and whether a vehicle entry chose it. */
  datatype Classification = Classification(key: string, isVeh: bool)

  /** Lines 92-103: regex groups first, the vehicle table only while the key is still `UNGROUPED`. */
  function Classify<V>(cfg: Config<V>, name: string): Classification
  {
    var key := RegexKey(cfg, name, |cfg.regexGroups|);
    if key == cfg.ungrouped then
      match FirstVehicleFrom(cfg, name, 0)
      case Some(i) => Classification(VehicleKey(cfg, cfg.vehicles[i]), true)
      case None => Classification(key, false)
    else Classification(key, false)
  }

  /** The regex loop and the vehicle lookup of lines 92-103, run for one name. */
  method ClassifyName<V>(cfg: Config<V>, name: string) returns (c: Classification)
    ensures c == Classify(cfg, name)
  {
    var key := cfg.ungrouped;
    var isVeh := false;
    for i := 0 to |cfg.regexGroups|
      invariant key == RegexKey(cfg, name, i)
    {
      if cfg.groupMatches(cfg.regexGroups[i], name) {
        key := cfg.regexGroups[i];
      }
    }
    if key == cfg.ungrouped {
      var veh := FirstVehicleFrom(cfg, name, 0);
      if veh.Some? {
        key := VehicleKey(cfg, cfg.vehicles[veh.value]);
        isVeh := true;
      }
    }
    c := Classification(key, isVeh);
  }

  /** The regex loop leaves `UNGROUPED` when no group matches. */
  lemma {:induction false} RegexKeyWithoutMatch<V>(cfg: Config<V>, name: string, n: nat)
    requires n <= |cfg.regexGroups|
    requires forall i :: 0 <= i < n ==> !cfg.groupMatches(cfg.regexGroups[i], name)
    ensures RegexKey(cfg, name, n) == cfg.ungrouped
  {
    if n > 0 {
      RegexKeyWithoutMatch(cfg, name, n - 1);
    }
  }

  /** The regex loop leaves the last matching group: a match at `i` with none after it decides the key. */
  lemma {:induction false} RegexKeyIsLastMatch<V>(cfg: Config<V>, name: string, n: nat, i: nat)
    requires i < n <= |cfg.regexGroups|
    requires cfg.groupMatches(cfg.regexGroups[i], name)
    requires forall j :: i < j < n ==> !cfg.groupMatches(cfg.regexGroups[j], name)
    ensures RegexKey(cfg, name, n) == cfg.regexGroups[i]
  {
    if i < n - 1 {
      RegexKeyIsLastMatch(cfg, name, n - 1, i);
    }
  }

  /** Every key the classifier chooses is one of `ALL_ASSET_GROUPS`, so line 105 never misses. */
  lemma {:induction false} ClassifyKeyIsKnown<V>(cfg: Config<V>, name: string)
    requires WellFormed(cfg)
    ensures Classify(cfg, name).key in cfg.allGroups
  {
    var n := |cfg.regexGroups|;
    var m := |cfg.allGroups|;
    var key := RegexKey(cfg, name, n);
    RegexKeyInGroups(cfg, name, n);
    if key != cfg.ungrouped {
      var i :| 0 <= i < n && cfg.regexGroups[i] == key;
      assert cfg.allGroups[i] == key;
    } else {
      var veh := FirstVehicleFrom(cfg, name, 0);
      if veh.Some? {
        var k := VehicleKey(cfg, cfg.vehicles[veh.value]);
        assert k in VehicleKeys(cfg);
        var j :| n <= j < m - 1 && cfg.allGroups[j] == k;
      } else {
        assert cfg.allGroups[m - 1] == key;
      }
    }
  }

  lemma {:induction false} RegexKeyInGroups<V>(cfg: Config<V>, name: string, n: nat)
    requires n <= |cfg.regexGroups|
    ensures RegexKey(cfg, name, n) == cfg.ungrouped || RegexKey(cfg, name, n) in cfg.regexGroups
  {
    if n > 0 {
      RegexKeyInGroups(cfg, name, n - 1);
    }
  }

  /**
   * The three outcomes of classification, for a configuration in which no
   * regex group is itself called `UNGROUPED`: a matching regex group (the
   * last one) decides and the asset is no vehicle; otherwise the first
   * matching vehicle entry gives `VEHICLE_GROUP/veh[0]` and marks a vehicle;
   * otherwise the key is `UNGROUPED`.
   */
  lemma ClassifyCases<V>(cfg: Config<V>, name: string)
    requires cfg.ungrouped !in cfg.regexGroups
    ensures forall i :: (0 <= i < |cfg.regexGroups| && cfg.groupMatches(cfg.regexGroups[i], name) &&
      (forall j :: i < j < |cfg.regexGroups| ==> !cfg.groupMatches(cfg.regexGroups[j], name))) ==>
      Classify(cfg, name) == Classification(cfg.regexGroups[i], false)
    ensures (forall i :: 0 <= i < |cfg.regexGroups| ==> !cfg.groupMatches(cfg.regexGroups[i], name)) ==>
      forall v :: (0 <= v < |cfg.vehicles| && cfg.vehMatches(name, cfg.vehicles[v]) &&
        (forall w :: 0 <= w < v ==> !cfg.vehMatches(name, cfg.vehicles[w]))) ==>
        Classify(cfg, name) == Classification(VehicleKey(cfg, cfg.vehicles[v]), true)
    ensures ((forall i :: 0 <= i < |cfg.regexGroups| ==> !cfg.groupMatches(cfg.regexGroups[i], name)) &&
      (forall v :: 0 <= v < |cfg.vehicles| ==> !cfg.vehMatches(name, cfg.vehicles[v]))) ==>
      Classify(cfg, name) == Classification(cfg.ungrouped, false)
  {
    var n := |cfg.regexGroups|;
    forall i | 0 <= i < n && cfg.groupMatches(cfg.regexGroups[i], name) &&
      (forall j :: i < j < n ==> !cfg.groupMatches(cfg.regexGroups[j], name))
      ensures Classify(cfg, name) == Classification(cfg.regexGroups[i], false)
    {
      RegexKeyIsLastMatch(cfg, name, n, i);
    }
    if forall i :: 0 <= i < n ==> !cfg.groupMatches(cfg.regexGroups[i], name) {
      RegexKeyWithoutMatch(cfg, name, n);
    }
    var veh := FirstVehicleFrom(cfg, name, 0);
    if veh.Some? {
      forall v | 0 <= v < |cfg.vehicles| && cfg.vehMatches(name, cfg.vehicles[v]) &&
        (forall w :: 0 <= w < v ==> !cfg.vehMatches(name, cfg.vehicles[w]))
        ensures v == veh.value
      {
      }
    }
  }

  predicate IsTextureFile(f: FileEntry)
  {
    JoinedSuffix(f.fileName) == TextureExt
  }

  /** The `elif` of line 90: a supported suffix that is not the texture suffix. */
  predicate IsAssetFile<V>(cfg: Config<V>, f: FileEntry)
  {
    !IsTextureFile(f) && IsSupportedExt(cfg, JoinedSuffix(f.fileName))
  }

  /** The record appended at lines 85-89. */
  function TextureOf(f: FileEntry): Texture
  {
    Texture(Stem(f.fileName), f.parentName, f.parentPath)
  }

  /** The record appended at lines 105-110. */
  function AssetOf<V>(cfg: Config<V>, f: FileEntry): Asset
  {
    var name := Stem(f.fileName);
    Asset(name, f.parentPath, JoinedSuffix(f.fileName), Classify(cfg, name).isVeh)
  }

  function KeyOf<V>(cfg: Config<V>, f: FileEntry): string
  {
    Classify(cfg, Stem(f.fileName)).key
  }

  /** `textures` after the scan of `files`: the record of each `.dds` file, in file order. */
  function TexturesOf(files: seq<FileEntry>): seq<Texture>
  {
    Picked(files, IsTextureFile, TextureOf)
  }

  /** The images under `f` of the elements of `xs` that satisfy `p`, in order. */
  function Picked<T, U>(xs: seq<T>, p: T -> bool, f: T -> U): seq<U>
  {
    if xs == [] then []
    else Picked(xs[..|xs| - 1], p, f) + (if p(xs[|xs| - 1]) then [f(xs[|xs| - 1])] else [])
  }

  /** The picked images are those of the elements at `Positions(xs, p)`, one for one. */
  lemma {:induction false} PickedAtPositions<T, U>(xs: seq<T>, p: T -> bool, f: T -> U)
    ensures |Picked(xs, p, f)| == |Positions(xs, p)|
    ensures forall k :: 0 <= k < |Positions(xs, p)| ==> Picked(xs, p, f)[k] == f(xs[Positions(xs, p)[k]])
  {
    if xs != [] {
      var init := xs[..|xs| - 1];
      PickedAtPositions(init, p, f);
      var picks := Positions(init, p);
      forall k | 0 <= k < |picks|
        ensures xs[picks[k]] == init[picks[k]]
      {
      }
    }
  }

  function GroupKeys<V>(cfg: Config<V>): set<string>
  {
    set g | g in cfg.allGroups
  }

  lemma TexturesStep(files: seq<FileEntry>, i: nat)
    requires i < |files|
    ensures TexturesOf(files[..i + 1]) ==
      TexturesOf(files[..i]) + (if IsTextureFile(files[i]) then [TextureOf(files[i])] else [])
  {
    assert files[..i + 1][..i] == files[..i];
  }

  lemma AssetsStep<V>(cfg: Config<V>, files: seq<FileEntry>, i: nat, g: string)
    requires i < |files|
    ensures AssetsOf(cfg, files[..i + 1], g) ==
      AssetsOf(cfg, files[..i], g) + (if InGroup(cfg, files[i], g) then [AssetOf(cfg, files[i])] else [])
  {
    assert files[..i + 1][..i] == files[..i];
  }

  /** `GROUPED_ASSETS` after the scan of `files`: every group holds its assets and counts them. */
  function GroupedOf<V>(cfg: Config<V>, files: seq<FileEntry>): Pending
  {
    map g | g in cfg.allGroups :: Group(AssetsOf(cfg, files, g), |AssetsOf(cfg, files, g)|)
  }

  /** One more asset file is appended to its own group, whose counter grows by one; the other groups stay as they were. */
  lemma GroupedStepAsset<V>(cfg: Config<V>, files: seq<FileEntry>, i: nat)
    requires i < |files| && IsAssetFile(cfg, files[i]) && KeyOf(cfg, files[i]) in cfg.allGroups
    ensures var before, k := GroupedOf(cfg, files[..i]), KeyOf(cfg, files[i]);
      k in before &&
      GroupedOf(cfg, files[..i + 1]) == before[k := Group(before[k].assets + [AssetOf(cfg, files[i])], before[k].total + 1)]
  {
    forall g | g in cfg.allGroups
      ensures AssetsOf(cfg, files[..i + 1], g) ==
        AssetsOf(cfg, files[..i], g) + (if g == KeyOf(cfg, files[i]) then [AssetOf(cfg, files[i])] else [])
    {
      AssetStepIntoKey(cfg, files, i, g);
    }
    GroupedTableStep(cfg, files[..i], files[..i + 1], KeyOf(cfg, files[i]), AssetOf(cfg, files[i]));
  }

  /** The table changes in one group, by one record, when that group's assets do and no other group's. */
  lemma GroupedTableStep<V>(cfg: Config<V>, xs: seq<FileEntry>, ys: seq<FileEntry>, k: string, a: Asset)
    requires k in cfg.allGroups
    requires forall g :: g in cfg.allGroups ==>
      AssetsOf(cfg, ys, g) == AssetsOf(cfg, xs, g) + (if g == k then [a] else [])
    ensures var before := GroupedOf(cfg, xs);
      k in before && GroupedOf(cfg, ys) == before[k := Group(before[k].assets + [a], before[k].total + 1)]
  {
    var before, after := GroupedOf(cfg, xs), GroupedOf(cfg, ys);
    var updated := before[k := Group(before[k].assets + [a], before[k].total + 1)];
    forall g | g in cfg.allGroups
      ensures after[g] == updated[g]
    {
    }
    assert after.Keys == updated.Keys;
  }

  /** An asset file lands in the group of its key and in no other. */
  lemma AssetStepIntoKey<V>(cfg: Config<V>, files: seq<FileEntry>, i: nat, g: string)
    requires i < |files| && IsAssetFile(cfg, files[i])
    ensures AssetsOf(cfg, files[..i + 1], g) ==
      AssetsOf(cfg, files[..i], g) + (if g == KeyOf(cfg, files[i]) then [AssetOf(cfg, files[i])] else [])
  {
    AssetsStep(cfg, files, i, g);
  }

  /** Any other file leaves the table as it was. */
  lemma GroupedStepOther<V>(cfg: Config<V>, files: seq<FileEntry>, i: nat)
    requires i < |files| && !IsAssetFile(cfg, files[i])
    ensures GroupedOf(cfg, files[..i + 1]) == GroupedOf(cfg, files[..i])
  {
    var before, after := GroupedOf(cfg, files[..i]), GroupedOf(cfg, files[..i + 1]);
    forall g | g in cfg.allGroups
      ensures after[g] == before[g]
    {
      AssetsStep(cfg, files, i, g);
    }
  }

  /** The scan loop of lines 77-111. */
  method ScanFiles<V>(cfg: Config<V>, files: seq<FileEntry>) returns (textures: seq<Texture>, grouped: Pending)
    requires WellFormed(cfg)
    ensures textures == TexturesOf(files)
    ensures grouped == GroupedOf(cfg, files)
  {
    textures := [];
    grouped := map g | g in cfg.allGroups :: Group([], 0);  // line 25
    assert files[..0] == [];
    for i := 0 to |files|
      invariant textures == TexturesOf(files[..i])
      invariant grouped == GroupedOf(cfg, files[..i])
    {
      var file := files[i];
      var ext := JoinedSuffix(file.fileName);
      var name := DropLast(file.fileName, |ext|);
      TexturesStep(files, i);
      ClassifyKeyIsKnown(cfg, name);
      if IsAssetFile(cfg, file) {
        GroupedStepAsset(cfg, files, i);
      } else {
        GroupedStepOther(cfg, files, i);
      }
      if ext == TextureExt {
        textures := textures + [Texture(name, file.parentName, file.parentPath)];
      } else if ext == cfg.ydrExt || ext == cfg.yftExt {
        var c := ClassifyName(cfg, name);
        grouped := grouped[c.key := Group(grouped[c.key].assets + [Asset(name, file.parentPath, ext, c.isVeh)],
                                          grouped[c.key].total + 1)];
      }
    }
    assert files[..|files|] == files;
  }

  /** An asset file whose key is `g`. */
  predicate InGroup<V>(cfg: Config<V>, f: FileEntry, g: string)
  {
    IsAssetFile(cfg, f) && KeyOf(cfg, f) == g
  }

  /** The assets of group `g` after the scan of `files`: the asset files classified into `g`, in file order. */
  function AssetsOf<V>(cfg: Config<V>, files: seq<FileEntry>, g: string): seq<Asset>
  {
    if files == [] then []
    else
      var f := files[|files| - 1];
      AssetsOf(cfg, files[..|files| - 1], g) + (if InGroup(cfg, f, g) then [AssetOf(cfg, f)] else [])
  }

  /** The positions of the elements of `xs` that satisfy `p`, in order. */
  function Positions<T>(xs: seq<T>, p: T -> bool): (ps: seq<nat>)
    ensures forall k :: 0 <= k < |ps| ==> ps[k] < |xs|
  {
    if xs == [] then []
    else Positions(xs[..|xs| - 1], p) + (if p(xs[|xs| - 1]) then [|xs| - 1] else [])
  }

  /** The positions strictly increase and are exactly those whose element satisfies `p`. */
  lemma {:induction false} PositionsAreOrderedAndExact<T>(xs: seq<T>, p: T -> bool)
    ensures forall k, l :: 0 <= k < l < |Positions(xs, p)| ==> Positions(xs, p)[k] < Positions(xs, p)[l]
    ensures forall i :: 0 <= i < |xs| ==> (i in Positions(xs, p) <==> p(xs[i]))
  {
    if xs != [] {
      var init := xs[..|xs| - 1];
      PositionsAreOrderedAndExact(init, p);
      var before := Positions(init, p);
      forall i | 0 <= i < |xs|
        ensures i in Positions(xs, p) <==> p(xs[i])
      {
        if i < |init| {
          assert xs[i] == init[i];
        } else {
          assert |xs| - 1 !in before;
        }
      }
    }
  }

  /** The positions in `files` of the asset files classified into `g`. */
  function PickedFiles<V>(cfg: Config<V>, files: seq<FileEntry>, g: string): seq<nat>
  {
    Positions(files, f => InGroup(cfg, f, g))
  }

  /** The assets of group `g` are the records of the picked files, one for one. */
  lemma {:induction false} AssetsArePickedRecords<V>(cfg: Config<V>, files: seq<FileEntry>, g: string)
    ensures |PickedFiles(cfg, files, g)| == |AssetsOf(cfg, files, g)|
    ensures forall k :: 0 <= k < |PickedFiles(cfg, files, g)| ==>
      AssetsOf(cfg, files, g)[k] == AssetOf(cfg, files[PickedFiles(cfg, files, g)[k]])
  {
    if files != [] {
      var init := files[..|files| - 1];
      AssetsArePickedRecords(cfg, init, g);
      var picks := PickedFiles(cfg, init, g);
      forall k | 0 <= k < |picks|
        ensures files[picks[k]] == init[picks[k]]
      {
      }
    }
  }

  /**
   * Discovery order: the picked positions strictly increase, and they are
   * exactly the positions of the asset files whose key is `g`.
   */
  lemma PicksAreOrderedGroupMembers<V>(cfg: Config<V>, files: seq<FileEntry>, g: string)
    ensures var picks := PickedFiles(cfg, files, g);
      && (forall k, l :: 0 <= k < l < |picks| ==> picks[k] < picks[l])
      && (forall i :: 0 <= i < |files| ==> (i in picks <==> InGroup(cfg, files[i], g)))
  {
    PositionsAreOrderedAndExact(files, f => InGroup(cfg, f, g));
  }

  /**
   * The textures are the records of the `.dds` files, one for one and in
   * file order: the positions of those files strictly increase and are
   * exactly the files whose joined suffix is `.dds`.
   */
  lemma TexturesAreTheDdsFiles(files: seq<FileEntry>)
    ensures var picks := Positions(files, IsTextureFile);
      && |TexturesOf(files)| == |picks|
      && (forall k :: 0 <= k < |picks| ==> TexturesOf(files)[k] == TextureOf(files[picks[k]]))
      && (forall i :: 0 <= i < |files| ==> (i in picks <==> IsTextureFile(files[i])))
  {
    PositionsAreOrderedAndExact(files, IsTextureFile);
    PickedAtPositions(files, IsTextureFile, TextureOf);
  }

  /**
   * After the scan every group of `ALL_ASSET_GROUPS` is in the table, its
   * `total` is the number of its assets, and every asset file was appended
   * to the group of its key, which is one of `ALL_ASSET_GROUPS`.
   */
  lemma ScanIsComplete<V>(cfg: Config<V>, files: seq<FileEntry>)
    requires WellFormed(cfg)
    ensures var grouped := GroupedOf(cfg, files);
      && grouped.Keys == GroupKeys(cfg)
      && (forall g :: g in grouped ==> grouped[g].total == |grouped[g].assets| == |PickedFiles(cfg, files, g)|)
      && (forall i :: 0 <= i < |files| && IsAssetFile(cfg, files[i]) ==>
            KeyOf(cfg, files[i]) in grouped && i in PickedFiles(cfg, files, KeyOf(cfg, files[i])))
  {
    var grouped := GroupedOf(cfg, files);
    forall g | g in grouped
      ensures grouped[g].total == |grouped[g].assets| == |PickedFiles(cfg, files, g)|
    {
      AssetsArePickedRecords(cfg, files, g);
    }
    forall i | 0 <= i < |files| && IsAssetFile(cfg, files[i])
      ensures KeyOf(cfg, files[i]) in grouped && i in PickedFiles(cfg, files, KeyOf(cfg, files[i]))
    {
      ClassifyKeyIsKnown(cfg, Stem(files[i].fileName));
      PicksAreOrderedGroupMembers(cfg, files, KeyOf(cfg, files[i]));
    }
  }
}
