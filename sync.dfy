/**
 * The synchronisation of `importAssets` after the scan (lines 116-263), as
 * functions of the run's state: the texture pass over one object's nodes
 * (lines 187-235), the outcome of one asset (lines 145-241) and one group
 * (lines 120-263).
 */
module Sync {
  import opened Wrappers
  import opened Strings
  import opened Inventory
  import opened Alias
  import opened Host
  import opened Textures
  import opened Cleanup
  import Scan

  /** `TEXTURE_PLACEHOLDER`, the ledger's first entry (lines 70-72). */
  const Placeholder: string := "givemechecker"

  /** The value of `changes` at which line 239 saves. */
  const SaveThreshold: nat := 25

  /** What a call of an importer gives back: it returned, or it raised, leaving the file in the state `after`. */
  datatype ImportOutcome = Returned(after: Data) | Raised(after: Data)

  /**
   * The host calls the run depends on: the two Sollumz importers, given the
   * open file and the asset's path; whether `find_missing_files` finds the
   * file of an image in a directory; and the order in which
   * `bpy.data.objects` is walked.
   */
  datatype Env = Env(
    importYdr: (Data, string) -> ImportOutcome,
    importYft: (Data, string) -> ImportOutcome,
    loads: (string, string) -> bool,
    objectOrder: map<string, Obj> -> seq<string>)

  /**
   * The state the run changes: the open file, the blend files of the asset
   * library by path, `changes`, the number of saves, `foundImages`,
   * `missingTextures` (an entry is the asset that missed it, or nothing for
   * the placeholder) and the objects a preview was generated for, in order.
   */
  datatype RunState = RunState(
    data: Data,
    disk: map<string, Data>,
    changes: nat,
    saves: nat,
    found: seq<string>,
    missing: map<string, Option<string>>,
    previews: seq<string>)

  /** `save(status, path)`: the open file is written to `path`. */
  function Save(run: RunState, path: string): (r: RunState)
    ensures r.disk == run.disk[path := run.data] && r.saves == run.saves + 1
    ensures r == run.(disk := r.disk, saves := r.saves)
  {
    run.(disk := run.disk[path := run.data], saves := run.saves + 1)
  }

  /** The run while one object's nodes are visited, with `genPreview` and `lastTexturePath`. */
  datatype PassState = PassState(run: RunState, genPreview: bool, lastPath: Option<string>)

  /**
   * Lines 208-232 for an image whose normalised name is `opt` and that is
   * `loaded` when it is packed or has data: a name found before in this
   * group only asks for a preview; a loaded image or a name in the ledger is
   * left alone; otherwise the texture lookup either adds the texture (one
   * change, recorded as found, and its directory is searched when it is not
   * the one searched last for this asset) or writes the ledger entry.
   */
  function TextureStep(ps: PassState, loads: (string, string) -> bool, textures: seq<Texture>, asset: Asset, opt: string, loaded: bool): PassState
  {
    var run := ps.run;
    if opt in run.found then ps.(genPreview := true)
    else if loaded || opt in run.missing then ps
    else match FindTexture(textures, asset.name, opt)
      case None => ps.(run := run.(missing := run.missing[opt := Some(asset.name)]))
      case Some(t) =>
        var added := run.(changes := run.changes + 1, found := run.found + [opt]);
        var path := textures[t].path;
        if ps.lastPath != Some(path) then PassState(added.(data := Relink(added.data, path, loads)), true, Some(path))
        else ps.(run := added)
  }

  /**
   * Lines 195-232 for node `j` of the object stored under `key`, which shows
   * the image at position `ii`: when the image's normalised name differs
   * from its name and an image of that name exists, the node is switched to
   * that image and a preview asked for; otherwise the image is renamed to
   * its normalised name and the texture step follows.
   */
  function ImageStep(ps: PassState, loads: (string, string) -> bool, textures: seq<Texture>, asset: Asset, key: string, j: nat, ii: nat): PassState
    requires key in ps.run.data.objects && j < |ps.run.data.objects[key].nodes| && ii < |ps.run.data.images|
  {
    var d := ps.run.data;
    var img := d.images[ii];
    var opt := Normalize(img.name);
    if img.name != opt && FindImage(d.images, opt).Some? then
      PassState(ps.run.(data := SetNodeImage(d, key, j, opt)), true, ps.lastPath)
    else
      var renamed := if img.name == opt then d else RenameImage(d, ii, opt);
      TextureStep(ps.(run := ps.run.(data := renamed)), loads, textures, asset, opt, img.packed || img.hasData)
  }

  /** Lines 191-232: node `j` is passed over unless it is an image node that shows an image. */
  function NodeStep(ps: PassState, loads: (string, string) -> bool, textures: seq<Texture>, asset: Asset, key: string, j: nat): PassState
  {
    var d := ps.run.data;
    if key !in d.objects || j >= |d.objects[key].nodes| then ps
    else
      var node := d.objects[key].nodes[j];
      if !node.isTexImage || node.image.None? then ps
      else match FindImage(d.images, node.image.value)
        case None => ps
        case Some(ii) => ImageStep(ps, loads, textures, asset, key, j, ii)
  }

  /** The first `n` nodes of the object stored under `key`, visited in order. */
  function Nodes(ps: PassState, loads: (string, string) -> bool, textures: seq<Texture>, asset: Asset, key: string, n: nat): PassState
  {
    if n == 0 then ps else NodeStep(Nodes(ps, loads, textures, asset, key, n - 1), loads, textures, asset, key, n - 1)
  }

  function NodeCount(data: Data, key: string): nat
  {
    if key in data.objects then |data.objects[key].nodes| else 0
  }

  /** Lines 187-232: every node of the object, starting with no preview asked for and no directory searched. */
  function TexturePass(run: RunState, loads: (string, string) -> bool, textures: seq<Texture>, asset: Asset, key: string): PassState
  {
    Nodes(PassState(run, false, None), loads, textures, asset, key, NodeCount(run.data, key))
  }

  /** Lines 239-241: at 25 changes or more the file is saved and the count starts again. */
  function Checkpoint(run: RunState, path: string): (r: RunState)
    ensures r.changes < SaveThreshold
    ensures run.changes >= SaveThreshold ==> r == Save(run, path).(changes := 0)
    ensures run.changes < SaveThreshold ==> r == run
  {
    if run.changes >= SaveThreshold then Save(run, path).(changes := 0) else run
  }

  /** Lines 187-241 for the object stored under `key`: the texture pass, the preview, the checkpoint. */
  function Ready(run: RunState, loads: (string, string) -> bool, textures: seq<Texture>, asset: Asset, key: string, path: string): RunState
  {
    var ps := TexturePass(run, loads, textures, asset, key);
    var r := if ps.genPreview then ps.run.(previews := ps.run.previews + [key]) else ps.run;
    Checkpoint(r, path)
  }

  /** The file an asset was scanned from: `Path(asset.path, name + ext)`. */
  function AssetFile(asset: Asset): string
  {
    asset.path + "/" + asset.name + asset.ext
  }

  /** Lines 165-170: the importer for the asset's suffix; any other suffix raises before anything changes. */
  function Import<V>(cfg: Config<V>, env: Env, data: Data, asset: Asset): ImportOutcome
  {
    if asset.ext == cfg.ydrExt then env.importYdr(data, AssetFile(asset))
    else if asset.ext == cfg.yftExt then env.importYft(data, AssetFile(asset))
    else Raised(data)
  }

  /** How one asset ends: skipped as low-res, found already present, imported, or failed after raising or not being found. */
  datatype Outcome = SkippedLowRes | Found | Imported | Failed(raised: bool)

  datatype AssetResult = AssetResult(run: RunState, outcome: Outcome)

  /**
   * Lines 171-185 after an importer returned leaving `after`: one change;
   * then the asset's name must resolve, and the object it resolves to is
   * renamed to the asset's name and made ready; otherwise the import failed.
   */
  function Adopt(loads: (string, string) -> bool, textures: seq<Texture>, asset: Asset, path: string,
                 run: RunState, after: Data): AssetResult
  {
    var r1 := run.(data := after, changes := run.changes + 1);
    match GetOriginalAsset(asset.name, after.objects)
    case None => AssetResult(r1.(data := RevertFailedImport(after)), Failed(false))
    case Some(k) =>
      var r2 := if k == asset.name then r1 else r1.(data := after.(objects := RenameObject(after.objects, k, asset.name)));
      AssetResult(Ready(r2, loads, textures, asset, asset.name, path), Imported)
  }

  /** One asset of the loop of lines 145-241, in the group file saved at `path`. */
  function AssetStep<V>(cfg: Config<V>, env: Env, pending: Pending, textures: seq<Texture>, asset: Asset, path: string,
                        run: RunState): AssetResult
  {
    if asset.isVeh && HasHiResVeh(asset.name, run.data.objects, pending) then AssetResult(run, SkippedLowRes)
    else match GetOriginalAsset(asset.name, run.data.objects)
      case Some(key) => AssetResult(Ready(run, env.loads, textures, asset, key, path), Found)
      case None =>
        match Import(cfg, env, run.data, asset)
        case Raised(after) => AssetResult(run.(data := RevertFailedImport(after)), Failed(true))
        case Returned(after) => Adopt(env.loads, textures, asset, path, run, after)
  }

  /** The first `n` assets of `assets`, one after the other. */
  function Assets<V>(cfg: Config<V>, env: Env, pending: Pending, textures: seq<Texture>, assets: seq<Asset>, path: string,
                     run: RunState): RunState
  {
    if assets == [] then run
    else AssetStep(cfg, env, pending, textures, assets[|assets| - 1], path,
                   Assets(cfg, env, pending, textures, assets[..|assets| - 1], path, run)).run
  }

  /** The group's blend file: `ASSET_LIBRARY_DIRECTORY/<group>.blend`. */
  function BlendPath(library: string, group: string): string
  {
    library + "/" + group + ".blend"
  }

  /**
   * Lines 125-141: the group starts with no changes and no found images, in
   * its blend file if the library has one, and otherwise in an empty file
   * that is saved there at once.
   */
  function OpenGroup(run: RunState, path: string): (r: RunState)
    ensures r.changes == 0 && r.found == [] && r.missing == run.missing && r.previews == run.previews
    ensures path in r.disk
    ensures path in run.disk ==> r.data == run.disk[path] && r.saves == run.saves && r.disk == run.disk
    ensures path !in run.disk ==> r.data == Empty && r.saves == run.saves + 1 && r.disk == run.disk[path := Empty]
  {
    var r := run.(changes := 0, found := []);
    if path in run.disk then r.(data := run.disk[path]) else Save(r.(data := Empty), path)
  }

  /** Lines 243-263: the clean-up pass, the four datablock pools cleaned, and the unconditional save. */
  function FinishGroup<V>(cfg: Config<V>, env: Env, pending: Pending, group: string, path: string, run: RunState): RunState
    requires group in pending
  {
    var d := run.data;
    var cleaned := d.(objects := CleanupPass(cfg, group, pending, d.objects, env.objectOrder(d.objects)),
                      meshes := Live(d.meshes, (b: Block) => b.users),
                      materials := Live(d.materials, (b: Block) => b.users),
                      textureBlocks := Live(d.textureBlocks, (b: Block) => b.users),
                      images := Live(d.images, (i: Image) => i.users));
    Save(run.(data := cleaned), path)
  }

  /** One group of the loop of lines 120-263. */
  function GroupStep<V>(cfg: Config<V>, env: Env, pending: Pending, textures: seq<Texture>, library: string, group: string,
                        run: RunState): RunState
    requires group in pending
  {
    var path := BlendPath(library, group);
    FinishGroup(cfg, env, pending, group, path,
      Assets(cfg, env, pending, textures, pending[group].assets, path, OpenGroup(run, path)))
  }

  /** `populatedGroups` (line 117): the groups of `ALL_ASSET_GROUPS` with at least one asset, in that order. */
  function PopulatedGroups<V>(cfg: Config<V>, pending: Pending, n: nat): (r: seq<string>)
    requires n <= |cfg.allGroups|
    ensures forall g :: g in r ==> g in cfg.allGroups[..n] && g in pending && pending[g].total > 0
    ensures forall g :: g in cfg.allGroups[..n] && g in pending && pending[g].total > 0 ==> g in r
    ensures var ps := Scan.Positions(cfg.allGroups[..n], IsPopulated(pending));
      |r| == |ps| && forall k :: 0 <= k < |r| ==> r[k] == cfg.allGroups[ps[k]]
  {
    if n == 0 then []
    else
      var g := cfg.allGroups[n - 1];
      assert cfg.allGroups[..n] == cfg.allGroups[..n - 1] + [g];
      assert cfg.allGroups[..n][..n - 1] == cfg.allGroups[..n - 1];
      PopulatedGroups(cfg, pending, n - 1) + (if IsPopulated(pending)(g) then [g] else [])
  }

  /** The test of line 117: the group was scanned and holds at least one asset. */
  function IsPopulated(pending: Pending): string -> bool
  {
    g => g in pending && pending[g].total > 0
  }

  /** The groups of `groups`, one after the other. */
  function Groups<V>(cfg: Config<V>, env: Env, pending: Pending, textures: seq<Texture>, library: string,
                     groups: seq<string>, run: RunState): RunState
    requires forall g :: g in groups ==> g in pending
  {
    if groups == [] then run
    else
      var g := groups[|groups| - 1];
      GroupStep(cfg, env, pending, textures, library, g,
        Groups(cfg, env, pending, textures, library, groups[..|groups| - 1], run))
  }

  /** The state a run starts in: the ledger holds only the placeholder. */
  function Start(data: Data, disk: map<string, Data>): RunState
  {
    RunState(data, disk, 0, 0, [], map[Placeholder := None], [])
  }

  /** `importAssets()` after the scan of `files`, started in the open file `data` with the library `disk`. */
  function ImportAssets<V>(cfg: Config<V>, env: Env, files: seq<Scan.FileEntry>, library: string,
                           data: Data, disk: map<string, Data>): RunState
    requires WellFormed(cfg)
  {
    var pending := Scan.GroupedOf(cfg, files);
    Groups(cfg, env, pending, Scan.TexturesOf(files), library,
      PopulatedGroups(cfg, pending, |cfg.allGroups|), Start(data, disk))
  }
}
