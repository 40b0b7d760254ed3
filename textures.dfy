/**
 * The image-name normalisation of line 195 and the texture lookup of
 * lines 215-218.
 */
module Textures {
  import opened Wrappers
  import opened Strings
  import opened Inventory

  /**
   * `name.lower().split('.')[0]`: the lower-cased name cut before its first
   * dot. The result is lower-case, has no dot, and is a prefix of the
   * lower-cased name that either is all of it or stops at a dot.
   */
  function Normalize(n: string): (r: string)
    ensures IsLowerCase(r) && '.' !in r
    ensures r <= Lower(n)
    ensures '.' in Lower(n) ==> Lower(n)[|r|] == '.'
    ensures '.' !in Lower(n) ==> r == Lower(n)
  {
    SplitHead(Lower(n), '.');
    Split(Lower(n), '.')[0]
  }

  /** Normalising a normalised name changes nothing. */
  lemma NormalizeIdempotent(n: string)
    ensures Normalize(Normalize(n)) == Normalize(n)
  {
    LowerOfLowerCase(Normalize(n));
  }

  /** A name is left as it is exactly when it is already lower-case and has no dot. */
  lemma NormalizeFixpoints(n: string)
    ensures Normalize(n) == n <==> IsLowerCase(n) && '.' !in n
  {
    if IsLowerCase(n) && '.' !in n {
      LowerOfLowerCase(n);
    }
  }

  /** Line 215's test: the texture lies in a directory named after the asset and bears the image's name, ignoring case. */
  predicate InAssetDir(t: Texture, assetName: string, image: string)
  {
    Lower(t.parent) == Lower(assetName) && Lower(t.name) == image
  }

  /** Line 218's test: the texture bears the image's name, ignoring case. */
  predicate NamedLike(t: Texture, image: string)
  {
    Lower(t.name) == image
  }

  /** `next(i for i, t in enumerate(textures[from:]) if p(t))`, as an index. */
  function FirstWhere(textures: seq<Texture>, p: Texture -> bool, from: nat): (r: Option<nat>)
    requires from <= |textures|
    ensures r.Some? ==> from <= r.value < |textures| && p(textures[r.value])
    ensures r.Some? ==> forall j :: from <= j < r.value ==> !p(textures[j])
    ensures r.None? ==> forall j :: from <= j < |textures| ==> !p(textures[j])
    decreases |textures| - from
  {
    if from == |textures| then None
    else if p(textures[from]) then Some(from)
    else FirstWhere(textures, p, from + 1)
  }

  /**
   * Lines 215-218: the position of the first texture in the asset's own
   * directory with the image's name, or else of the first texture with that
   * name anywhere. Nothing is found exactly when no texture has the name; a
   * texture in the asset's directory, when there is one, is preferred.
   */
  function FindTexture(textures: seq<Texture>, assetName: string, image: string): (r: Option<nat>)
    ensures r.Some? ==> r.value < |textures| && NamedLike(textures[r.value], image)
    ensures r.None? <==> forall j :: 0 <= j < |textures| ==> !NamedLike(textures[j], image)
    ensures r.Some? && InAssetDir(textures[r.value], assetName, image) ==>
      forall j :: 0 <= j < r.value ==> !InAssetDir(textures[j], assetName, image)
    ensures r.Some? && !InAssetDir(textures[r.value], assetName, image) ==>
      && (forall j :: 0 <= j < |textures| ==> !InAssetDir(textures[j], assetName, image))
      && (forall j :: 0 <= j < r.value ==> !NamedLike(textures[j], image))
  {
    match FirstWhere(textures, t => InAssetDir(t, assetName, image), 0)
    case Some(i) => Some(i)
    case None => FirstWhere(textures, t => NamedLike(t, image), 0)
  }

  /** A texture in the asset's directory beats every texture elsewhere, wherever it sits in the list. */
  lemma FindTexturePrefersAssetDir(textures: seq<Texture>, assetName: string, image: string, k: nat)
    requires k < |textures| && InAssetDir(textures[k], assetName, image)
    ensures FindTexture(textures, assetName, image).Some?
    ensures var i := FindTexture(textures, assetName, image).value;
      i <= k && InAssetDir(textures[i], assetName, image)
  {
  }

  /**
   * Two textures named `rust`, one under `other/` and a later one under a
   * directory named like the asset `Truck`: the later one is chosen.
   */
  lemma FindTextureExample()
    ensures FindTexture([Texture("rust", "other", "/o"), Texture("Rust", "truck", "/t")], "Truck", "rust") == Some(1)
    ensures FindTexture([Texture("rust", "other", "/o")], "Truck", "dirt") == None
  {
    assert Lower("Rust") == "rust" && Lower("truck") == "truck" && Lower("Truck") == "truck";
    assert Lower("other") == "other" && Lower("rust") == "rust";
    assert !InAssetDir(Texture("rust", "other", "/o"), "Truck", "rust");
    assert Lower("rust") != "dirt";
  }
}
