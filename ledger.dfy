/**
 * What the texture pass promises about the run's state, one node at a
 * time and over a whole object: what it leaves alone, how `changes`
 * follows the images it adds, and how `missingTextures` grows.
 */
module Ledger {
  import opened Wrappers
  import opened Inventory
  import opened Host
  import opened Textures
  import opened Sync

  /** No ledger entry of `before` is gone or overwritten in `after`. */
  predicate Extends(before: map<string, Option<string>>, after: map<string, Option<string>>)
  {
    forall k :: k in before ==> k in after && after[k] == before[k]
  }

  /** Every entry added since `before` names the asset that missed it, and no texture bears that name. */
  predicate NewEntriesMissed(before: map<string, Option<string>>, after: map<string, Option<string>>, textures: seq<Texture>)
  {
    forall k :: k in after && k !in before ==> after[k].Some? && FindTexture(textures, after[k].value, k).None?
  }

  /** The ledger of `after` is the ledger of `before` with missed names added. */
  predicate LedgerGrowth(before: map<string, Option<string>>, after: map<string, Option<string>>, textures: seq<Texture>)
  {
    Extends(before, after) && NewEntriesMissed(before, after, textures)
  }

  lemma LedgerGrowthTrans(a: map<string, Option<string>>, b: map<string, Option<string>>, c: map<string, Option<string>>,
                          textures: seq<Texture>)
    requires LedgerGrowth(a, b, textures) && LedgerGrowth(b, c, textures)
    ensures LedgerGrowth(a, c, textures)
  {
  }

  /** What a node never touches: the object keys, every object's node count and asset flag, the library, the saves, the previews. */
  predicate SameShape(before: RunState, after: RunState)
  {
    && after.data.objects.Keys == before.data.objects.Keys
    && (forall k :: k in after.data.objects ==>
          after.data.objects[k].isAsset == before.data.objects[k].isAsset &&
          |after.data.objects[k].nodes| == |before.data.objects[k].nodes|)
    && after.disk == before.disk && after.saves == before.saves && after.previews == before.previews
  }

  /**
   * One node adds at most one found image, at the end, and `changes` grows
   * by exactly the number of images added (line 225).
   */
  predicate Counted(before: RunState, after: RunState)
  {
    && before.found <= after.found
    && after.changes == before.changes + |after.found| - |before.found|
  }

  /** The properties every step of the texture pass has. */
  predicate StepProps(before: PassState, after: PassState, textures: seq<Texture>, asset: Asset)
  {
    && SameShape(before.run, after.run)
    && Counted(before.run, after.run) && |after.run.found| <= |before.run.found| + 1
    && LedgerGrowth(before.run.missing, after.run.missing, textures)
    && (forall k :: k in after.run.missing && k !in before.run.missing ==> after.run.missing[k] == Some(asset.name))
  }

  /** Lines 208-232 keep the shape of the file, count each added image as one change and only add missed names to the ledger. */
  lemma TextureStepProps(ps: PassState, loads: (string, string) -> bool, textures: seq<Texture>, asset: Asset, opt: string, loaded: bool)
    ensures StepProps(ps, TextureStep(ps, loads, textures, asset, opt, loaded), textures, asset)
  {
    if opt !in ps.run.found && !loaded && opt !in ps.run.missing {
      match FindTexture(textures, asset.name, opt) {
        case None =>
        case Some(t) =>
          var added := ps.run.(changes := ps.run.changes + 1, found := ps.run.found + [opt]);
          assert SameShape(ps.run, added.(data := Relink(added.data, textures[t].path, loads)));
      }
    }
  }

  lemma ImageStepProps(ps: PassState, loads: (string, string) -> bool, textures: seq<Texture>, asset: Asset, key: string, j: nat, ii: nat)
    requires key in ps.run.data.objects && j < |ps.run.data.objects[key].nodes| && ii < |ps.run.data.images|
    ensures StepProps(ps, ImageStep(ps, loads, textures, asset, key, j, ii), textures, asset)
  {
    var d := ps.run.data;
    var img := d.images[ii];
    var opt := Normalize(img.name);
    if !(img.name != opt && FindImage(d.images, opt).Some?) {
      var renamed := if img.name == opt then d else RenameImage(d, ii, opt);
      var mid := ps.(run := ps.run.(data := renamed));
      TextureStepProps(mid, loads, textures, asset, opt, img.packed || img.hasData);
    }
  }

  /** One node keeps the shape of the file, counts each added image as one change and only adds missed names to the ledger. */
  lemma NodeStepProps(ps: PassState, loads: (string, string) -> bool, textures: seq<Texture>, asset: Asset, key: string, j: nat)
    ensures StepProps(ps, NodeStep(ps, loads, textures, asset, key, j), textures, asset)
  {
    var d := ps.run.data;
    if key in d.objects && j < |d.objects[key].nodes| {
      var node := d.objects[key].nodes[j];
      if node.isTexImage && node.image.Some? {
        match FindImage(d.images, node.image.value) {
          case None =>
          case Some(ii) => ImageStepProps(ps, loads, textures, asset, key, j, ii);
        }
      }
    }
  }

  /**
   * A normalised name that is already found, or already in the ledger, or
   * whose image is packed or has data, is passed over without a lookup:
   * the run is as it was, and only a found name asks for a preview.
   */
  lemma KnownImagesAreNotLookedUp(ps: PassState, loads: (string, string) -> bool, textures: seq<Texture>, asset: Asset, opt: string, loaded: bool)
    requires opt in ps.run.found || loaded || opt in ps.run.missing
    ensures var r := TextureStep(ps, loads, textures, asset, opt, loaded);
      r.run == ps.run && r.lastPath == ps.lastPath && (r.genPreview <==> ps.genPreview || opt in ps.run.found)
  {
  }

  /**
   * Lines 215-222: a name no texture bears is written to the ledger,
   * against the asset that missed it, and nothing else changes.
   */
  lemma MissedNameIsRecorded(ps: PassState, loads: (string, string) -> bool, textures: seq<Texture>, asset: Asset, opt: string, loaded: bool)
    requires !(opt in ps.run.found || loaded || opt in ps.run.missing)
    requires forall t :: 0 <= t < |textures| ==> !NamedLike(textures[t], opt)
    ensures TextureStep(ps, loads, textures, asset, opt, loaded) == ps.(run := ps.run.(missing := ps.run.missing[opt := Some(asset.name)]))
  {
  }

  /**
   * Lines 224-232: a texture found for an image is one change and one found
   * name; its directory is searched, and a preview asked for, exactly when
   * it is not the directory searched last.
   */
  lemma AddedTextureIsCounted(ps: PassState, loads: (string, string) -> bool, textures: seq<Texture>, asset: Asset, opt: string, loaded: bool, t: nat)
    requires !(opt in ps.run.found || loaded || opt in ps.run.missing)
    requires FindTexture(textures, asset.name, opt) == Some(t)
    ensures var r := TextureStep(ps, loads, textures, asset, opt, loaded);
      && r.run.changes == ps.run.changes + 1
      && r.run.found == ps.run.found + [opt]
      && r.run.missing == ps.run.missing
      && r.lastPath == Some(textures[t].path)
      && r.genPreview == (ps.genPreview || ps.lastPath != Some(textures[t].path))
      && r.run.data == if ps.lastPath != Some(textures[t].path) then Relink(ps.run.data, textures[t].path, loads) else ps.run.data
  {
  }

  /** Lines 197-204: an image whose normalised name is another image's is swapped for that image, and a preview is asked for. */
  lemma NormalisedTwinIsReused(ps: PassState, loads: (string, string) -> bool, textures: seq<Texture>, asset: Asset, key: string, j: nat, ii: nat)
    requires key in ps.run.data.objects && j < |ps.run.data.objects[key].nodes| && ii < |ps.run.data.images|
    requires var img := ps.run.data.images[ii];
      img.name != Normalize(img.name) && FindImage(ps.run.data.images, Normalize(img.name)).Some?
    ensures var r := ImageStep(ps, loads, textures, asset, key, j, ii);
      && r.run.data == SetNodeImage(ps.run.data, key, j, Normalize(ps.run.data.images[ii].name))
      && r.run.data.objects[key].nodes[j].image == Some(Normalize(ps.run.data.images[ii].name))
      && r.run.data.images == ps.run.data.images
      && r.genPreview && r.lastPath == ps.lastPath
      && r.run == ps.run.(data := r.run.data)
  {
  }

  /** Line 206: otherwise the image now bears its normalised name, and the texture step decides the rest. */
  lemma ImageIsRenamed(ps: PassState, loads: (string, string) -> bool, textures: seq<Texture>, asset: Asset, key: string, j: nat, ii: nat)
    returns (mid: PassState)
    requires key in ps.run.data.objects && j < |ps.run.data.objects[key].nodes| && ii < |ps.run.data.images|
    requires var img := ps.run.data.images[ii];
      !(img.name != Normalize(img.name) && FindImage(ps.run.data.images, Normalize(img.name)).Some?)
    ensures ii < |mid.run.data.images| && mid.run.data.images[ii].name == Normalize(ps.run.data.images[ii].name)
    ensures mid.run.data.objects.Keys == ps.run.data.objects.Keys
    ensures mid == ps.(run := ps.run.(data := mid.run.data))
    ensures ImageStep(ps, loads, textures, asset, key, j, ii) ==
      TextureStep(mid, loads, textures, asset, Normalize(ps.run.data.images[ii].name),
                  ps.run.data.images[ii].packed || ps.run.data.images[ii].hasData)
  {
    var d := ps.run.data;
    var opt := Normalize(d.images[ii].name);
    var renamed := if d.images[ii].name == opt then d else RenameImage(d, ii, opt);
    mid := ps.(run := ps.run.(data := renamed));
  }

  /** The properties of a whole pass: those of a step, without the bound on added names. */
  predicate PassProps(before: PassState, after: PassState, textures: seq<Texture>, asset: Asset)
  {
    && SameShape(before.run, after.run)
    && Counted(before.run, after.run)
    && LedgerGrowth(before.run.missing, after.run.missing, textures)
    && (forall k :: k in after.run.missing && k !in before.run.missing ==> after.run.missing[k] == Some(asset.name))
  }

  lemma PassPropsTrans(a: PassState, b: PassState, c: PassState, textures: seq<Texture>, asset: Asset)
    requires PassProps(a, b, textures, asset) && StepProps(b, c, textures, asset)
    ensures PassProps(a, c, textures, asset)
  {
    LedgerGrowthTrans(a.run.missing, b.run.missing, c.run.missing, textures);
  }

  /** The properties of one node hold of all the nodes of an object. */
  lemma {:induction false} NodesProps(ps: PassState, loads: (string, string) -> bool, textures: seq<Texture>, asset: Asset, key: string, n: nat)
    ensures PassProps(ps, Nodes(ps, loads, textures, asset, key, n), textures, asset)
  {
    if n > 0 {
      NodesProps(ps, loads, textures, asset, key, n - 1);
      var mid := Nodes(ps, loads, textures, asset, key, n - 1);
      NodeStepProps(mid, loads, textures, asset, key, n - 1);
      PassPropsTrans(ps, mid, NodeStep(mid, loads, textures, asset, key, n - 1), textures, asset);
    }
  }
}
