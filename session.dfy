/**
 * `importAssets` as the script runs it: one object holding the state the
 * loops of lines 77-263 update in place, with each loop written out and
 * proved to compute the functions of `Sync`.
 */
module Session {
  import opened Wrappers
  import opened Inventory
  import opened Alias
  import opened Host
  import opened Textures
  import opened Cleanup
  import opened Sync
  import Scan

  /**
   * The running import: the open Blender file, the library's blend files,
   * `changes`, the number of saves, `foundImages`, `missingTextures` and the
   * objects whose preview was generated.
   */
  class ImportRun {
    var data: Data
    var disk: map<string, Data>
    var changes: nat
    var saves: nat
    var found: seq<string>
    var missing: map<string, Option<string>>
    var previews: seq<string>

    /** The state as a value. */
    function State(): RunState
      reads this
    {
      RunState(data, disk, changes, saves, found, missing, previews)
    }

    /** Lines 69-72: the run starts in the open file with only the placeholder in the ledger. */
    constructor (data0: Data, disk0: map<string, Data>)
      ensures State() == Start(data0, disk0)
    {
      data := data0;
      disk := disk0;
      changes := 0;
      saves := 0;
      found := [];
      missing := map[Placeholder := None];
      previews := [];
    }

    /** `save(status, path)` (lines 56-65): the open file is written to `path`. */
    method SaveTo(path: string)
      modifies this
      ensures State() == Save(old(State()), path)
    {
      disk := disk[path := data];
      saves := saves + 1;
    }

    /** `revertFailedImport()` (lines 50-54): the objects without `asset_data` are collected, then removed one by one. */
    method RevertFailedImport()
      modifies this
      ensures State() == old(State()).(data := Host.RevertFailedImport(old(data)))
    {
      var failed := set k | k in data.objects && !data.objects[k].isAsset;
      ghost var before := data.objects;
      var left := failed;
      while left != {}
        invariant left <= failed
        invariant data.objects == before - (failed - left)
        invariant State() == old(State()).(data := old(data).(objects := data.objects))
        decreases left
      {
        var k :| k in left;
        data := data.(objects := data.objects - {k});
        left := left - {k};
      }
      assert data.objects == AssetsOnly(before);
    }

    /**
     * Lines 208-232 for an image whose normalised name is `opt` and that is
     * `loaded`: the found list, the ledger and the texture lookup.
     */
    method VisitTexture(loads: (string, string) -> bool, textures: seq<Texture>, asset: Asset, opt: string, loaded: bool,
                        genPreview: bool, lastPath: Option<string>)
      returns (genPreview': bool, lastPath': Option<string>)
      modifies this
      ensures PassState(State(), genPreview', lastPath') ==
        TextureStep(PassState(old(State()), genPreview, lastPath), loads, textures, asset, opt, loaded)
    {
      genPreview', lastPath' := genPreview, lastPath;
      if opt in found {
        genPreview' := true;
      } else if !(loaded || opt in missing) {
        var t := FindTexture(textures, asset.name, opt);
        if t.None? {
          missing := missing[opt := Some(asset.name)];
        } else {
          changes := changes + 1;
          found := found + [opt];
          var path := textures[t.value].path;
          if lastPath != Some(path) {
            data := Relink(data, path, loads);
            genPreview' := true;
            lastPath' := Some(path);
          }
        }
      }
    }

    /** Lines 195-232 for node `j` of the object stored under `key`, which shows the image at position `ii`. */
    method VisitImage(loads: (string, string) -> bool, textures: seq<Texture>, asset: Asset, key: string, j: nat, ii: nat,
                      genPreview: bool, lastPath: Option<string>)
      returns (genPreview': bool, lastPath': Option<string>)
      requires key in data.objects && j < |data.objects[key].nodes| && ii < |data.images|
      modifies this
      ensures PassState(State(), genPreview', lastPath') ==
        ImageStep(PassState(old(State()), genPreview, lastPath), loads, textures, asset, key, j, ii)
    {
      var img := data.images[ii];
      var opt := Normalize(img.name);
      if img.name != opt && FindImage(data.images, opt).Some? {
        genPreview', lastPath' := true, lastPath;
        data := SetNodeImage(data, key, j, opt);
        return;
      }
      if img.name != opt {
        data := RenameImage(data, ii, opt);
      }
      genPreview', lastPath' := VisitTexture(loads, textures, asset, opt, img.packed || img.hasData, genPreview, lastPath);
    }

    /** Lines 191-232 for node `j` of the object stored under `key`: only an image node that shows an image is visited. */
    method VisitNode(loads: (string, string) -> bool, textures: seq<Texture>, asset: Asset, key: string, j: nat,
                     genPreview: bool, lastPath: Option<string>)
      returns (genPreview': bool, lastPath': Option<string>)
      modifies this
      ensures PassState(State(), genPreview', lastPath') ==
        NodeStep(PassState(old(State()), genPreview, lastPath), loads, textures, asset, key, j)
    {
      genPreview', lastPath' := genPreview, lastPath;
      if key !in data.objects || j >= |data.objects[key].nodes| {
        return;
      }
      var node := data.objects[key].nodes[j];
      if !node.isTexImage || node.image.None? {
        return;
      }
      var fi := FindImage(data.images, node.image.value);
      if fi.Some? {
        genPreview', lastPath' := VisitImage(loads, textures, asset, key, j, fi.value, genPreview, lastPath);
      }
    }

    /** Lines 187-232: every node of the object stored under `key`; the result is whether a preview is due. */
    method ProcessTextures(loads: (string, string) -> bool, textures: seq<Texture>, asset: Asset, key: string)
      returns (genPreview: bool)
      modifies this
      ensures var ps := TexturePass(old(State()), loads, textures, asset, key);
        State() == ps.run && genPreview == ps.genPreview
    {
      genPreview := false;
      var lastPath: Option<string> := None;
      var n := NodeCount(data, key);
      for j := 0 to n
        invariant PassState(State(), genPreview, lastPath) ==
          Nodes(PassState(old(State()), false, None), loads, textures, asset, key, j)
      {
        genPreview, lastPath := VisitNode(loads, textures, asset, key, j, genPreview, lastPath);
      }
    }

    /** Lines 187-241 for the object stored under `key`: the texture pass, the preview, the checkpoint. */
    method MakeReady(loads: (string, string) -> bool, textures: seq<Texture>, asset: Asset, key: string, path: string)
      modifies this
      ensures State() == Ready(old(State()), loads, textures, asset, key, path)
    {
      var genPreview := ProcessTextures(loads, textures, asset, key);
      if genPreview {
        previews := previews + [key];
      }
      if changes >= SaveThreshold {
        SaveTo(path);
        changes := 0;
      }
    }

    /** One asset of the loop of lines 145-241, in the group file saved at `path`. */
    method ImportAsset<V>(cfg: Config<V>, env: Env, pending: Pending, textures: seq<Texture>, asset: Asset, path: string)
      returns (outcome: Outcome)
      modifies this
      ensures AssetResult(State(), outcome) == AssetStep(cfg, env, pending, textures, asset, path, old(State()))
    {
      if asset.isVeh && HasHiResVeh(asset.name, data.objects, pending) {
        return SkippedLowRes;
      }
      var existing := GetOriginalAsset(asset.name, data.objects);
      if existing.Some? {
        MakeReady(env.loads, textures, asset, existing.value, path);
        return Found;
      }
      var result := Import(cfg, env, data, asset);
      data := result.after;
      if result.Raised? {
        RevertFailedImport();
        return Failed(true);
      }
      changes := changes + 1;
      var imported := GetOriginalAsset(asset.name, data.objects);
      if imported.None? {
        RevertFailedImport();
        return Failed(false);
      }
      if imported.value != asset.name {
        data := data.(objects := RenameObject(data.objects, imported.value, asset.name));
      }
      MakeReady(env.loads, textures, asset, asset.name, path);
      return Imported;
    }

    /** The clean-up loop of lines 244-256, visiting the objects in the host's order. */
    method CleanUp<V>(cfg: Config<V>, env: Env, pending: Pending, group: string)
      requires group in pending
      modifies this
      ensures State() == old(State()).(data := old(data).(objects :=
        CleanupPass(cfg, group, pending, old(data.objects), env.objectOrder(old(data.objects)))))
    {
      var order := env.objectOrder(data.objects);
      ghost var objects0 := data.objects;
      for i := 0 to |order|
        invariant data.objects == CleanupPass(cfg, group, pending, objects0, order[..i])
        invariant State() == old(State()).(data := old(data).(objects := data.objects))
      {
        assert order[..i + 1][..i] == order[..i];
        var x := order[i];
        if x in data.objects && Doomed(cfg, group, pending, data.objects, x) {
          data := data.(objects := data.objects - {x});
        }
      }
      assert order[..|order|] == order;
    }

    /** Lines 243-263: the clean-up, the four pools cleaned by `cleanDataGroup`, and the unconditional save. */
    method FinishGroup<V>(cfg: Config<V>, env: Env, pending: Pending, group: string, path: string)
      requires group in pending
      modifies this
      ensures State() == Sync.FinishGroup(cfg, env, pending, group, path, old(State()))
    {
      CleanUp(cfg, env, pending, group);
      var meshes := CleanDataGroup(data.meshes, (b: Block) => b.users);
      var materials := CleanDataGroup(data.materials, (b: Block) => b.users);
      var textureBlocks := CleanDataGroup(data.textureBlocks, (b: Block) => b.users);
      var images := CleanDataGroup(data.images, (i: Image) => i.users);
      data := data.(meshes := meshes, materials := materials, textureBlocks := textureBlocks, images := images);
      SaveTo(path);
    }

    /** One group of the loop of lines 120-263: open or create its file, import its assets in order, finish it. */
    method ImportGroup<V>(cfg: Config<V>, env: Env, pending: Pending, textures: seq<Texture>, library: string, group: string)
      requires group in pending
      modifies this
      ensures State() == GroupStep(cfg, env, pending, textures, library, group, old(State()))
    {
      var path := BlendPath(library, group);
      changes := 0;
      found := [];
      if path in disk {
        data := disk[path];
      } else {
        data := Empty;
        SaveTo(path);
      }
      ghost var start := State();
      assert start == OpenGroup(old(State()), path);
      var assets := pending[group].assets;
      for i := 0 to |assets|
        invariant State() == Assets(cfg, env, pending, textures, assets[..i], path, start)
      {
        assert assets[..i + 1][..i] == assets[..i];
        var _ := ImportAsset(cfg, env, pending, textures, assets[i], path);
      }
      assert assets[..|assets|] == assets;
      FinishGroup(cfg, env, pending, group, path);
    }

    /** The loop of lines 120-263 over `groups`, one group after the other. */
    method ImportGroups<V>(cfg: Config<V>, env: Env, pending: Pending, textures: seq<Texture>, library: string,
                           groups: seq<string>)
      requires forall g :: g in groups ==> g in pending
      modifies this
      ensures State() == Groups(cfg, env, pending, textures, library, groups, old(State()))
    {
      for i := 0 to |groups|
        invariant State() == Groups(cfg, env, pending, textures, library, groups[..i], old(State()))
      {
        assert groups[..i + 1][..i] == groups[..i];
        ImportGroup(cfg, env, pending, textures, library, groups[i]);
      }
      assert groups[..|groups|] == groups;
    }

    /**
     * `importAssets()` (lines 67-263) on the files the walk of
     * `IMPORT_DIRECTORY` yields: the scan, then every populated group in the
     * order of `ALL_ASSET_GROUPS` (line 117).
     */
    method ImportAll<V>(cfg: Config<V>, env: Env, files: seq<Scan.FileEntry>, library: string)
      requires WellFormed(cfg)
      modifies this
      ensures State() == Groups(cfg, env, Scan.GroupedOf(cfg, files), Scan.TexturesOf(files), library,
                                PopulatedGroups(cfg, Scan.GroupedOf(cfg, files), |cfg.allGroups|), old(State()))
    {
      var textures, pending := Scan.ScanFiles(cfg, files);
      ImportGroups(cfg, env, pending, textures, library, PopulatedGroups(cfg, pending, |cfg.allGroups|));
    }
  }

  /** A run from the open file `data` and the library `disk` ends in the state `Sync.ImportAssets` describes. */
  method RunImport<V>(cfg: Config<V>, env: Env, files: seq<Scan.FileEntry>, library: string,
                      data: Data, disk: map<string, Data>) returns (run: ImportRun)
    requires WellFormed(cfg)
    ensures run.State() == ImportAssets(cfg, env, files, library, data, disk)
  {
    run := new ImportRun(data, disk);
    run.ImportAll(cfg, env, files, library);
  }
}
