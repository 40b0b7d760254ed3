/**
 * The part of Blender's data (`bpy.data`) that the import run reads and
 * changes: objects with their image-texture nodes, images, and the other
 * datablock pools that are cleaned when a group is finished.
 */
module Host {
  import opened Wrappers

  /**
   * A shader node of an object's materials: whether it is a `TEX_IMAGE`
   * node, and the name of the image it shows, if any.
   */
  datatype Node = Node(isTexImage: bool, image: Option<string>)

  /**
   * An object: whether it carries `asset_data`, and the nodes of all its
   * material slots, slot after slot.
   */
  datatype Obj = Obj(isAsset: bool, nodes: seq<Node>)

  /** An image datablock: its name, whether it is packed, has pixel data, and its user count. */
  datatype Image = Image(name: string, packed: bool, hasData: bool, users: nat)

  /** A mesh, material or texture datablock: only its name and user count matter here. */
  datatype Block = Block(name: string, users: nat)

  /** The open blend file: its objects, keyed by name, and its datablock pools in their order. */
  datatype Data = Data(
    objects: map<string, Obj>,
    images: seq<Image>,
    meshes: seq<Block>,
    materials: seq<Block>,
    textureBlocks: seq<Block>)

  /** The file `read_homefile(use_empty=True)` gives. */
  const Empty := Data(map[], [], [], [], [])

  /** `bpy.data.images.get(n)`, as the position of the first image named `n`. */
  function FindImage(images: seq<Image>, n: string): (r: Option<nat>)
    ensures r.Some? ==> r.value < |images| && images[r.value].name == n
    ensures r.Some? ==> forall j :: 0 <= j < r.value ==> images[j].name != n
    ensures r.None? ==> forall j :: 0 <= j < |images| ==> images[j].name != n
  {
    if images == [] then None
    else if images[0].name == n then Some(0)
    else match FindImage(images[1..], n)
      case None => None
      case Some(i) => Some(i + 1)
  }

  /** The objects that `revertFailedImport` (lines 50-54) keeps: those with `asset_data`. */
  function AssetsOnly(objects: map<string, Obj>): (r: map<string, Obj>)
    ensures forall k :: k in r <==> k in objects && objects[k].isAsset
    ensures forall k :: k in r ==> r[k] == objects[k]
  {
    map k | k in objects && objects[k].isAsset :: objects[k]
  }

  /** `revertFailedImport()`: every object without `asset_data` is removed, nothing else changes. */
  function RevertFailedImport(data: Data): Data
  {
    data.(objects := AssetsOnly(data.objects))
  }

  /** A node with every reference to image `from` turned into a reference to `to`. */
  function RetargetNode(node: Node, from: string, to: string): Node
  {
    if node.image == Some(from) then node.(image := Some(to)) else node
  }

  function RetargetObj(obj: Obj, from: string, to: string): (r: Obj)
    ensures r.isAsset == obj.isAsset && |r.nodes| == |obj.nodes|
    ensures forall j :: 0 <= j < |obj.nodes| ==> r.nodes[j] == RetargetNode(obj.nodes[j], from, to)
  {
    obj.(nodes := seq(|obj.nodes|, j requires 0 <= j < |obj.nodes| => RetargetNode(obj.nodes[j], from, to)))
  }

  /**
   * `node.image.name = n` (line 206) for the image at position `i`: the
   * datablock is renamed, and every node that showed it still shows it.
   */
  function RenameImage(data: Data, i: nat, n: string): (r: Data)
    requires i < |data.images|
    ensures r.objects.Keys == data.objects.Keys
    ensures forall k :: k in r.objects ==>
      r.objects[k].isAsset == data.objects[k].isAsset && |r.objects[k].nodes| == |data.objects[k].nodes|
    ensures |r.images| == |data.images| && r.images[i] == data.images[i].(name := n)
    ensures forall j :: 0 <= j < |data.images| && j != i ==> r.images[j] == data.images[j]
    ensures forall k, j :: k in r.objects && 0 <= j < |data.objects[k].nodes| ==>
      r.objects[k].nodes[j] == RetargetNode(data.objects[k].nodes[j], data.images[i].name, n)
    ensures r.meshes == data.meshes && r.materials == data.materials && r.textureBlocks == data.textureBlocks
  {
    var from := data.images[i].name;
    data.(images := data.images[i := data.images[i].(name := n)],
          objects := map k | k in data.objects :: RetargetObj(data.objects[k], from, n))
  }

  /** `node.image = og` (line 203): node `j` of object `key` now shows image `n`. */
  function SetNodeImage(data: Data, key: string, j: nat, n: string): (r: Data)
    requires key in data.objects && j < |data.objects[key].nodes|
    ensures r.objects.Keys == data.objects.Keys && r.images == data.images
    ensures forall k :: k in r.objects ==>
      r.objects[k].isAsset == data.objects[k].isAsset && |r.objects[k].nodes| == |data.objects[k].nodes|
    ensures r.objects[key].nodes[j] == Node(data.objects[key].nodes[j].isTexImage, Some(n))
    ensures forall i :: 0 <= i < |data.objects[key].nodes| && i != j ==>
      r.objects[key].nodes[i] == data.objects[key].nodes[i]
    ensures forall k :: k in r.objects && k != key ==> r.objects[k] == data.objects[k]
    ensures r.meshes == data.meshes && r.materials == data.materials && r.textureBlocks == data.textureBlocks
  {
    var obj := data.objects[key];
    data.(objects := data.objects[key := obj.(nodes := obj.nodes[j := obj.nodes[j].(image := Some(n))])])
  }

  /** `importedObj.name = n` (line 185) for the object stored under `from`. */
  function RenameObject(objects: map<string, Obj>, from: string, n: string): (r: map<string, Obj>)
    requires from in objects
    ensures n in r && r[n] == objects[from]
    ensures forall k :: k in r <==> k == n || (k in objects && k != from)
    ensures forall k :: k in objects && k != from && k != n ==> r[k] == objects[k]
  {
    (objects - {from})[n := objects[from]]
  }

  /**
   * `find_missing_files(directory=path, filter_image=True)`: each image that
   * has no data and whose file `loads(name, path)` finds in that directory
   * gets its data; nothing else changes.
   */
  function Relink(data: Data, path: string, loads: (string, string) -> bool): (r: Data)
    ensures r.objects == data.objects && |r.images| == |data.images|
    ensures forall i :: 0 <= i < |data.images| ==>
      r.images[i] == data.images[i].(hasData := data.images[i].hasData || loads(data.images[i].name, path))
    ensures r.meshes == data.meshes && r.materials == data.materials && r.textureBlocks == data.textureBlocks
  {
    data.(images := seq(|data.images|, i requires 0 <= i < |data.images| =>
      data.images[i].(hasData := data.images[i].hasData || loads(data.images[i].name, path))))
  }

  /** The items of `pool` that `cleanDataGroup` (lines 34-38) keeps: those with users, in order. */
  function Live<T>(pool: seq<T>, users: T -> nat): seq<T>
  {
    if pool == [] then []
    else Live(pool[..|pool| - 1], users) + (if users(pool[|pool| - 1]) != 0 then [pool[|pool| - 1]] else [])
  }

  /** `cleanDataGroup(status, pool)`: one pass over the pool, dropping every item without users. */
  method CleanDataGroup<T>(pool: seq<T>, users: T -> nat) returns (kept: seq<T>)
    ensures kept == Live(pool, users)
  {
    kept := [];
    for i := 0 to |pool|
      invariant kept == Live(pool[..i], users)
    {
      assert pool[..i + 1][..i] == pool[..i];
      if users(pool[i]) != 0 {
        kept := kept + [pool[i]];
      }
    }
    assert pool[..|pool|] == pool;
  }

  /** An item is kept exactly when it was in the pool and has users. */
  lemma {:induction false} LiveMembers<T>(pool: seq<T>, users: T -> nat)
    ensures forall x :: x in Live(pool, users) <==> x in pool && users(x) != 0
  {
    if pool != [] {
      LiveMembers(pool[..|pool| - 1], users);
      assert pool == pool[..|pool| - 1] + [pool[|pool| - 1]];
    }
  }

  /**
   * The kept items are in their old order: they are the pool's items at
   * strictly increasing positions, and every item with users is among them.
   */
  lemma {:induction false} LiveIsOrderedSelection<T>(pool: seq<T>, users: T -> nat) returns (pos: seq<nat>)
    ensures |pos| == |Live(pool, users)|
    ensures forall k :: 0 <= k < |pos| ==> pos[k] < |pool| && Live(pool, users)[k] == pool[pos[k]]
    ensures forall k, l :: 0 <= k < l < |pos| ==> pos[k] < pos[l]
    ensures forall i :: 0 <= i < |pool| && users(pool[i]) != 0 ==> i in pos
  {
    if pool == [] {
      pos := [];
    } else {
      var init := pool[..|pool| - 1];
      var before := LiveIsOrderedSelection(init, users);
      pos := before + (if users(pool[|pool| - 1]) != 0 then [|pool| - 1] else []);
      forall k | 0 <= k < |before|
        ensures pool[before[k]] == init[before[k]]
      {
      }
    }
  }

  /** A second cleaning removes nothing: the kept items all have users. */
  lemma {:induction false} LiveIdempotent<T>(pool: seq<T>, users: T -> nat)
    ensures Live(Live(pool, users), users) == Live(pool, users)
  {
    if pool != [] {
      var init := pool[..|pool| - 1];
      LiveIdempotent(init, users);
      var last := pool[|pool| - 1];
      if users(last) != 0 {
        var l := Live(init, users) + [last];
        assert l[..|l| - 1] == Live(init, users) && l[|l| - 1] == last;
        assert Live(l, users) == Live(Live(init, users), users) + [last];
        assert Live(pool, users) == l;
      } else {
        assert Live(pool, users) == Live(init, users);
      }
    }
  }
}
