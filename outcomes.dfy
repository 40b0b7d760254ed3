/**
 * What one asset of the loop of lines 145-241 does to the run, outcome by
 * outcome, and what a group and the whole run keep.
 */
module Outcomes {
  import opened Wrappers
  import opened Inventory
  import opened Alias
  import opened Host
  import opened Textures
  import opened Cleanup
  import opened Sync
  import opened Ledger

  /**
   * Lines 187-241: the pass keeps the object keys and only adds missed
   * names to the ledger; `changes` grows by the images added and is then
   * checked against the threshold, which saves the file and resets it.
   */
  lemma ReadyProps(run: RunState, loads: (string, string) -> bool, textures: seq<Texture>, asset: Asset, key: string,
                   path: string)
    ensures var r := Ready(run, loads, textures, asset, key, path);
      && r.data.objects.Keys == run.data.objects.Keys
      && (forall k :: k in r.data.objects ==> r.data.objects[k].isAsset == run.data.objects[k].isAsset)
      && LedgerGrowth(run.missing, r.missing, textures)
      && run.found <= r.found
      && r.changes < SaveThreshold
      && var c := run.changes + |r.found| - |run.found|;
        && (c >= SaveThreshold ==> r.changes == 0 && r.saves == run.saves + 1 && r.disk == run.disk[path := r.data])
        && (c < SaveThreshold ==> r.changes == c && r.saves == run.saves && r.disk == run.disk)
  {
    NodesProps(PassState(run, false, None), loads, textures, asset, key, NodeCount(run.data, key));
  }

  /** A vehicle asset is skipped exactly when it has a hi-res sibling, and a skip changes nothing (lines 151-153). */
  lemma SkipIffHiRes<V>(cfg: Config<V>, env: Env, pending: Pending, textures: seq<Texture>, asset: Asset, path: string,
                        run: RunState)
    ensures var res := AssetStep(cfg, env, pending, textures, asset, path, run);
      && (res.outcome == SkippedLowRes <==> asset.isVeh && HasHiResVeh(asset.name, run.data.objects, pending))
      && (res.outcome == SkippedLowRes ==> res.run == run)
  {
  }

  /**
   * An asset that is not skipped and whose name resolves among the objects
   * (lines 155-158) is not imported: the outcome is `Found`, whatever the
   * importers would have done.
   */
  lemma FoundIgnoresImporters<V>(cfg: Config<V>, env: Env, other: Env, pending: Pending, textures: seq<Texture>,
                                 asset: Asset, path: string, run: RunState)
    requires other.loads == env.loads
    ensures var res := AssetStep(cfg, env, pending, textures, asset, path, run);
      && (res.outcome == Found <==>
            !(asset.isVeh && HasHiResVeh(asset.name, run.data.objects, pending)) &&
            GetOriginalAsset(asset.name, run.data.objects).Some?)
      && (res.outcome == Found ==> res == AssetStep(cfg, other, pending, textures, asset, path, run))
  {
  }

  /**
   * A failed import (lines 172-182) leaves exactly the objects with
   * `asset_data` of the file the importer left, counts a change only when the
   * importer returned, and does no texture work, no preview and no save.
   */
  lemma FailureReverts<V>(cfg: Config<V>, env: Env, pending: Pending, textures: seq<Texture>, asset: Asset, path: string,
                          run: RunState)
    ensures var res := AssetStep(cfg, env, pending, textures, asset, path, run);
      res.outcome.Failed? ==>
        && res.run.data == RevertFailedImport(Import(cfg, env, run.data, asset).after)
        && (forall k :: k in res.run.data.objects ==> res.run.data.objects[k].isAsset)
        && (res.outcome.raised <==> Import(cfg, env, run.data, asset).Raised?)
        && res.run.changes == run.changes + (if res.outcome.raised then 0 else 1)
        && res.run.found == run.found && res.run.missing == run.missing && res.run.previews == run.previews
        && res.run.saves == run.saves && res.run.disk == run.disk
  {
  }

  /** An asset with a suffix that is neither importer's raises and fails, and the file keeps only its assets. */
  lemma UnsupportedSuffixFails<V>(cfg: Config<V>, env: Env, pending: Pending, textures: seq<Texture>, asset: Asset,
                                  path: string, run: RunState)
    requires asset.ext != cfg.ydrExt && asset.ext != cfg.yftExt
    requires !(asset.isVeh && HasHiResVeh(asset.name, run.data.objects, pending))
    requires GetOriginalAsset(asset.name, run.data.objects).None?
    ensures AssetStep(cfg, env, pending, textures, asset, path, run) ==
      AssetResult(run.(data := RevertFailedImport(run.data)), Failed(true))
  {
  }

  /**
   * Lines 177-185: after an importer returned, the asset either fails, with
   * only the file's assets left, or ends up stored under exactly its own
   * name: the object the name resolved to is moved there and the other
   * objects the importer left stay where they are. The import itself is one
   * change.
   */
  lemma AdoptProps(loads: (string, string) -> bool, textures: seq<Texture>, asset: Asset, path: string,
                   run: RunState, after: Data)
    ensures var res := Adopt(loads, textures, asset, path, run, after);
      && (res.outcome == Imported <==> GetOriginalAsset(asset.name, after.objects).Some?)
      && (res.outcome != Imported ==>
            res.outcome == Failed(false) && res.run == run.(data := RevertFailedImport(after), changes := run.changes + 1))
      && (res.outcome == Imported ==>
            var k := GetOriginalAsset(asset.name, after.objects).value;
            && asset.name in res.run.data.objects
            && res.run.data.objects[asset.name].isAsset == after.objects[k].isAsset
            && (forall n :: n in res.run.data.objects <==> n == asset.name || (n in after.objects && n != k))
            && LedgerGrowth(run.missing, res.run.missing, textures)
            && run.found <= res.run.found
            && var c := run.changes + 1 + |res.run.found| - |run.found|;
              && (c >= SaveThreshold ==> res.run.changes == 0 && res.run.saves == run.saves + 1)
              && (c < SaveThreshold ==> res.run.changes == c && res.run.saves == run.saves))
  {
    match GetOriginalAsset(asset.name, after.objects) {
      case None =>
      case Some(k) => AdoptResolved(loads, textures, asset, path, run, after, k);
    }
  }

  /** The `Imported` half of `AdoptProps`, for the key `k` that the name resolved to. */
  lemma AdoptResolved(loads: (string, string) -> bool, textures: seq<Texture>, asset: Asset, path: string,
                      run: RunState, after: Data, k: string)
    requires GetOriginalAsset(asset.name, after.objects) == Some(k)
    ensures var res := Adopt(loads, textures, asset, path, run, after);
      && res.outcome == Imported
      && asset.name in res.run.data.objects
      && res.run.data.objects[asset.name].isAsset == after.objects[k].isAsset
      && (forall n :: n in res.run.data.objects <==> n == asset.name || (n in after.objects && n != k))
      && LedgerGrowth(run.missing, res.run.missing, textures)
      && run.found <= res.run.found
      && var c := run.changes + 1 + |res.run.found| - |run.found|;
        && (c >= SaveThreshold ==> res.run.changes == 0 && res.run.saves == run.saves + 1)
        && (c < SaveThreshold ==> res.run.changes == c && res.run.saves == run.saves)
  {
    var r1 := run.(data := after, changes := run.changes + 1);
    var r2 := if k == asset.name then r1 else r1.(data := after.(objects := RenameObject(after.objects, k, asset.name)));
    assert r2.data.objects.Keys == (after.objects.Keys - {k}) + {asset.name};
    ReadyProps(r2, loads, textures, asset, asset.name, path);
  }

  /** An imported asset is one the importer returned from. */
  lemma ImportedIsNamed<V>(cfg: Config<V>, env: Env, pending: Pending, textures: seq<Texture>, asset: Asset, path: string,
                           run: RunState)
    ensures var res := AssetStep(cfg, env, pending, textures, asset, path, run);
      res.outcome == Imported ==>
        && !(asset.isVeh && HasHiResVeh(asset.name, run.data.objects, pending))
        && GetOriginalAsset(asset.name, run.data.objects).None?
        && Import(cfg, env, run.data, asset).Returned?
        && res == Adopt(env.loads, textures, asset, path, run, Import(cfg, env, run.data, asset).after)
  {
  }

  /**
   * A found asset (lines 157-158) keeps its object where it is, imports
   * nothing and counts only the images its texture pass adds.
   */
  lemma FoundKeepsObjects<V>(cfg: Config<V>, env: Env, pending: Pending, textures: seq<Texture>, asset: Asset, path: string,
                             run: RunState)
    ensures var res := AssetStep(cfg, env, pending, textures, asset, path, run);
      res.outcome == Found ==>
        && res.run.data.objects.Keys == run.data.objects.Keys
        && LedgerGrowth(run.missing, res.run.missing, textures)
        && run.found <= res.run.found
        && var c := run.changes + |res.run.found| - |run.found|;
          && (c >= SaveThreshold ==> res.run.changes == 0 && res.run.saves == run.saves + 1)
          && (c < SaveThreshold ==> res.run.changes == c && res.run.saves == run.saves)
  {
    if GetOriginalAsset(asset.name, run.data.objects).Some? {
      ReadyProps(run, env.loads, textures, asset, GetOriginalAsset(asset.name, run.data.objects).value, path);
    }
  }

  /** Whatever its outcome, an asset only adds missed names to the ledger, and `changes` stays below the threshold once it was. */
  lemma AssetStepLedger<V>(cfg: Config<V>, env: Env, pending: Pending, textures: seq<Texture>, asset: Asset, path: string,
                           run: RunState)
    ensures var res := AssetStep(cfg, env, pending, textures, asset, path, run);
      && LedgerGrowth(run.missing, res.run.missing, textures)
      && res.run.saves >= run.saves
      && (res.outcome == Found || res.outcome == Imported ==> res.run.changes < SaveThreshold)
  {
    FoundKeepsObjects(cfg, env, pending, textures, asset, path, run);
    ImportedIsNamed(cfg, env, pending, textures, asset, path, run);
    AdoptProps(env.loads, textures, asset, path, run, Import(cfg, env, run.data, asset).after);
    FailureReverts(cfg, env, pending, textures, asset, path, run);
  }

  /** The assets of a group, one after the other, only add missed names to the ledger. */
  lemma {:induction false} AssetsLedger<V>(cfg: Config<V>, env: Env, pending: Pending, textures: seq<Texture>,
                                           assets: seq<Asset>, path: string, run: RunState)
    ensures LedgerGrowth(run.missing, Assets(cfg, env, pending, textures, assets, path, run).missing, textures)
  {
    if assets != [] {
      var init := assets[..|assets| - 1];
      AssetsLedger(cfg, env, pending, textures, init, path, run);
      var mid := Assets(cfg, env, pending, textures, init, path, run);
      AssetStepLedger(cfg, env, pending, textures, assets[|assets| - 1], path, mid);
      LedgerGrowthTrans(run.missing, mid.missing,
        Assets(cfg, env, pending, textures, assets, path, run).missing, textures);
    }
  }

  /**
   * Lines 243-263: the end of a group keeps only the objects the clean-up
   * pass spares, each pool only its used blocks, and writes the file to the
   * group's path with one more save; the ledger is left alone.
   */
  lemma FinishGroupProps<V>(cfg: Config<V>, env: Env, pending: Pending, group: string, path: string, run: RunState)
    requires group in pending
    ensures var r := FinishGroup(cfg, env, pending, group, path, run);
      && r.data.objects == CleanupPass(cfg, group, pending, run.data.objects, env.objectOrder(run.data.objects))
      && r.data.images == Live(run.data.images, (i: Image) => i.users)
      && r.data.meshes == Live(run.data.meshes, (b: Block) => b.users)
      && r.data.materials == Live(run.data.materials, (b: Block) => b.users)
      && r.data.textureBlocks == Live(run.data.textureBlocks, (b: Block) => b.users)
      && r.disk == run.disk[path := r.data]
      && r.saves == run.saves + 1
      && r.missing == run.missing && r.changes == run.changes && r.found == run.found && r.previews == run.previews
  {
  }

  /**
   * A group ends with its file saved (line 263, whatever `changes` is), the
   * ledger only grown, and, when the walk of the objects visits them all,
   * every object left is an asset without a duplicate suffix.
   */
  lemma GroupProps<V>(cfg: Config<V>, env: Env, pending: Pending, textures: seq<Texture>, library: string, group: string,
                      run: RunState)
    requires group in pending
    ensures var r := GroupStep(cfg, env, pending, textures, library, group, run);
      && BlendPath(library, group) in r.disk && r.disk[BlendPath(library, group)] == r.data
      && r.saves > run.saves
      && LedgerGrowth(run.missing, r.missing, textures)
      && ((forall m :: (forall k :: k in m ==> k in env.objectOrder(m))) ==>
            forall k :: k in r.data.objects ==> r.data.objects[k].isAsset && !HasDuplicateSuffix(k))
  {
    var path := BlendPath(library, group);
    var start := OpenGroup(run, path);
    AssetsLedger(cfg, env, pending, textures, pending[group].assets, path, start);
    var done := Assets(cfg, env, pending, textures, pending[group].assets, path, start);
    AssetsDoNotUnsave(cfg, env, pending, textures, pending[group].assets, path, start);
    FinishGroupProps(cfg, env, pending, group, path, done);
    var r := FinishGroup(cfg, env, pending, group, path, done);
    assert r == GroupStep(cfg, env, pending, textures, library, group, run);
    var objs := done.data.objects;
    if forall m :: (forall k :: k in m ==> k in env.objectOrder(m)) {
      SurvivorsAreCleanAssets(cfg, group, pending, objs, env.objectOrder(objs));
    }
  }

  /** The number of saves never goes down. */
  lemma {:induction false} AssetsDoNotUnsave<V>(cfg: Config<V>, env: Env, pending: Pending, textures: seq<Texture>,
                                                assets: seq<Asset>, path: string, run: RunState)
    ensures Assets(cfg, env, pending, textures, assets, path, run).saves >= run.saves
  {
    if assets != [] {
      var init := assets[..|assets| - 1];
      AssetsDoNotUnsave(cfg, env, pending, textures, init, path, run);
      var mid := Assets(cfg, env, pending, textures, init, path, run);
      AssetStepLedger(cfg, env, pending, textures, assets[|assets| - 1], path, mid);
    }
  }

  /** Every group after the other only grows the ledger. */
  lemma {:induction false} GroupsLedger<V>(cfg: Config<V>, env: Env, pending: Pending, textures: seq<Texture>,
                                           library: string, groups: seq<string>, run: RunState)
    requires forall g :: g in groups ==> g in pending
    ensures LedgerGrowth(run.missing, Groups(cfg, env, pending, textures, library, groups, run).missing, textures)
  {
    if groups != [] {
      var init := groups[..|groups| - 1];
      GroupsLedger(cfg, env, pending, textures, library, init, run);
      var mid := Groups(cfg, env, pending, textures, library, init, run);
      GroupProps(cfg, env, pending, textures, library, groups[|groups| - 1], mid);
      LedgerGrowthTrans(run.missing, mid.missing,
        Groups(cfg, env, pending, textures, library, groups, run).missing, textures);
    }
  }

  /**
   * At the end of a run the placeholder is still in the ledger with no
   * asset, so it was never looked up, and every other entry names an asset
   * for which no scanned texture bears the entry's name (lines 70-72, 221).
   */
  lemma RunLedgerIsSound<V>(cfg: Config<V>, env: Env, files: seq<Scan.FileEntry>, library: string,
                            data: Data, disk: map<string, Data>)
    requires WellFormed(cfg)
    ensures var missing := ImportAssets(cfg, env, files, library, data, disk).missing;
      && Placeholder in missing && missing[Placeholder] == None
      && forall k :: k in missing && k != Placeholder ==>
           missing[k].Some? && FindTexture(Scan.TexturesOf(files), missing[k].value, k).None?
  {
    var pending := Scan.GroupedOf(cfg, files);
    var groups := PopulatedGroups(cfg, pending, |cfg.allGroups|);
    assert ImportAssets(cfg, env, files, library, data, disk) ==
      Groups(cfg, env, pending, Scan.TexturesOf(files), library, groups, Start(data, disk));
    GroupsLedger(cfg, env, pending, Scan.TexturesOf(files), library, groups, Start(data, disk));
  }

  /**
   * Every asset of `assets`, taken in turn from `run`, is imported and adds
   * no image: that asset is one change at line 171 and nothing else.
   */
  predicate PlainImports<V>(cfg: Config<V>, env: Env, pending: Pending, textures: seq<Texture>, assets: seq<Asset>,
                            path: string, run: RunState)
  {
    assets != [] ==>
      var init := assets[..|assets| - 1];
      var before := Assets(cfg, env, pending, textures, init, path, run);
      var res := AssetStep(cfg, env, pending, textures, assets[|assets| - 1], path, before);
      PlainImports(cfg, env, pending, textures, init, path, run) &&
      res.outcome == Imported && |res.run.found| == |before.found|
  }

  /** One plain import is one change, and checked at line 239 against the threshold. */
  lemma PlainImportStep<V>(cfg: Config<V>, env: Env, pending: Pending, textures: seq<Texture>, asset: Asset, path: string,
                           run: RunState)
    requires var res := AssetStep(cfg, env, pending, textures, asset, path, run);
      res.outcome == Imported && |res.run.found| == |run.found|
    ensures var res := AssetStep(cfg, env, pending, textures, asset, path, run);
      && (run.changes + 1 >= SaveThreshold ==> res.run.changes == 0 && res.run.saves == run.saves + 1)
      && (run.changes + 1 < SaveThreshold ==> res.run.changes == run.changes + 1 && res.run.saves == run.saves)
  {
    ImportedIsNamed(cfg, env, pending, textures, asset, path, run);
    AdoptProps(env.loads, textures, asset, path, run, Import(cfg, env, run.data, asset).after);
  }

  /**
   * The cadence of lines 239-241 over a group's asset loop: from no
   * changes, `n` plain imports save the file once for every 25 of them, and
   * the remaining `n % 25` changes are left for the group's last save.
   */
  lemma {:induction false} CheckpointCadence<V>(cfg: Config<V>, env: Env, pending: Pending, textures: seq<Texture>,
                                                assets: seq<Asset>, path: string, run: RunState)
    requires run.changes == 0
    requires PlainImports(cfg, env, pending, textures, assets, path, run)
    ensures Assets(cfg, env, pending, textures, assets, path, run).saves == run.saves + |assets| / SaveThreshold
    ensures Assets(cfg, env, pending, textures, assets, path, run).changes == |assets| % SaveThreshold
  {
    if assets != [] {
      var n := |assets|;
      var init := assets[..n - 1];
      CheckpointCadence(cfg, env, pending, textures, init, path, run);
      var mid := Assets(cfg, env, pending, textures, init, path, run);
      PlainImportStep(cfg, env, pending, textures, assets[n - 1], path, mid);
      CadenceArithmetic(n);
    }
  }

  /** The counting behind the cadence: one more import either completes a batch of 25 or grows the remainder. */
  lemma CadenceArithmetic(n: nat)
    requires n > 0
    ensures (n - 1) % SaveThreshold + 1 >= SaveThreshold ==> n / SaveThreshold == (n - 1) / SaveThreshold + 1 && n % SaveThreshold == 0
    ensures (n - 1) % SaveThreshold + 1 < SaveThreshold ==> n / SaveThreshold == (n - 1) / SaveThreshold && n % SaveThreshold == (n - 1) % SaveThreshold + 1
  {
  }

  /** Sixty plain imports save the group file twice and leave ten changes for its last save. */
  lemma CadenceExample<V>(cfg: Config<V>, env: Env, pending: Pending, textures: seq<Texture>,
                          assets: seq<Asset>, path: string, run: RunState)
    requires run.changes == 0 && |assets| == 60
    requires PlainImports(cfg, env, pending, textures, assets, path, run)
    ensures Assets(cfg, env, pending, textures, assets, path, run).saves == run.saves + 2
    ensures Assets(cfg, env, pending, textures, assets, path, run).changes == 10
  {
    CheckpointCadence(cfg, env, pending, textures, assets, path, run);
  }
}
