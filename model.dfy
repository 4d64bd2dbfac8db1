/**
 * A loaded model: the meshes collected from an imported scene and a per-model texture cache.
 * The importer (Assimp) and the texture upload (stb_image and OpenGL) are parameters.
 */
module Models {
  import opened Wrappers
  import opened Geometry
  import opened Meshes

  /** An imported mesh: per-vertex data, the faces as index lists and the material it uses. */
  datatype AiMesh = AiMesh(vertices: seq<Vec3>, normals: Option<seq<Vec3>>,
                           texCoords: Option<seq<Vec2>>, faces: seq<seq<nat>>,
                           materialIndex: nat)

  /**
   * An imported material: the texture file names in each of the four slots the model reads
   * (diffuse, specular, height, normals), and its opacity and refraction.
   */
  datatype AiMaterial = AiMaterial(diffuse: seq<string>, specular: seq<string>,
                                   height: seq<string>, normals: seq<string>,
                                   opacity: real, refraction: real)

  /** A scene-graph node: indices into the scene's meshes, and child nodes. */
  datatype AiNode = AiNode(meshes: seq<nat>, children: seq<AiNode>)

  /** An imported scene; `root` is None when the importer produced no root node. */
  datatype AiScene = AiScene(incomplete: bool, root: Option<AiNode>,
                             meshes: seq<AiMesh>, materials: seq<AiMaterial>)

  predicate NodeWellFormed(node: AiNode, meshCount: nat)
    decreases node
  {
    && (forall k :: 0 <= k < |node.meshes| ==> node.meshes[k] < meshCount)
    && (forall c :: c in node.children ==> NodeWellFormed(c, meshCount))
  }

  predicate MeshWellFormed(m: AiMesh, materialCount: nat) {
    && m.materialIndex < materialCount
    && (m.normals.Some? ==> |m.normals.value| == |m.vertices|)
    && (m.texCoords.Some? ==> |m.texCoords.value| == |m.vertices|)
  }

  predicate SceneWellFormed(s: AiScene) {
    && (forall m :: m in s.meshes ==> MeshWellFormed(m, |s.materials|))
    && (s.root.Some? ==> NodeWellFormed(s.root.value, |s.meshes|))
  }

  /** Every index the importer hands over is in range. */
  type ImportedScene = s: AiScene | SceneWellFormed(s) witness AiScene(true, None, [], [])

  /** Reads a model file; None stands for the importer's null scene. */
  type Importer = string -> Option<ImportedScene>

  /** Uploads the texture file (path, directory) and gives its texture id. */
  type TextureLoader = (string, string) -> nat

  /** The importer's result is unusable: no scene, an incomplete scene or no root node. */
  predicate ImportFailed(r: Option<ImportedScene>) {
    r.None? || r.value.incomplete || r.value.root.None?
  }

  /** The index of the last c in s, or -1 when s has none. */
  function LastIndexOf(s: string, c: char): (r: int)
    ensures -1 <= r < |s|
    ensures r == -1 <==> c !in s
    ensures r >= 0 ==> s[r] == c && forall i :: r < i < |s| ==> s[i] != c
  {
    if s == [] then -1
    else if s[|s| - 1] == c then |s| - 1
    else LastIndexOf(s[..|s| - 1], c)
  }

  /** The directory part of a path: everything before its last '/', or all of it without one. */
  function DirOf(path: string): (d: string)
    ensures d <= path
    ensures '/' !in path ==> d == path
    ensures '/' in path ==> |d| < |path| && path[|d|] == '/' && '/' !in path[|d| + 1..]
  {
    var k := LastIndexOf(path, '/');
    if k < 0 then path else path[..k]
  }

  /** Concatenation of a list of lists, in order. */
  function Flatten<T>(xs: seq<seq<T>>): seq<T> {
    if xs == [] then [] else Flatten(xs[..|xs| - 1]) + xs[|xs| - 1]
  }

  lemma FlattenPrefixStep<T>(xs: seq<seq<T>>, i: nat)
    requires i < |xs|
    ensures Flatten(xs[..i + 1]) == Flatten(xs[..i]) + xs[i]
  {
    assert xs[..i + 1][..i] == xs[..i];
  }

  function Sum(xs: seq<nat>): nat {
    if xs == [] then 0 else Sum(xs[..|xs| - 1]) + xs[|xs| - 1]
  }

  /** The length of a concatenation is the sum of the lengths. */
  lemma {:induction false} FlattenLength<T>(xs: seq<seq<T>>)
    ensures |Flatten(xs)| == Sum(seq(|xs|, i requires 0 <= i < |xs| => |xs[i]|))
  {
    if xs != [] {
      var init := xs[..|xs| - 1];
      FlattenLength(init);
      assert seq(|init|, i requires 0 <= i < |init| => |init[i]|)
          == seq(|xs|, i requires 0 <= i < |xs| => |xs[i]|)[..|xs| - 1];
    }
  }

  /** The mesh indices of a node tree in pre-order: a node's own meshes, then each child's. */
  function PreOrder(node: AiNode): seq<nat>
    decreases node
  {
    node.meshes + Flatten<nat>(seq(|node.children|, i requires 0 <= i < |node.children| => PreOrder(node.children[i])))
  }

  function ChildOrders(node: AiNode): seq<seq<nat>> {
    seq(|node.children|, i requires 0 <= i < |node.children| => PreOrder(node.children[i]))
  }

  /** The number of mesh references summed over every node of the tree. */
  function MeshCount(node: AiNode): nat
    decreases node
  {
    |node.meshes| + Sum(seq(|node.children|, i requires 0 <= i < |node.children| => MeshCount(node.children[i])))
  }

  function ChildCounts(node: AiNode): seq<nat> {
    seq(|node.children|, i requires 0 <= i < |node.children| => MeshCount(node.children[i]))
  }

  /** The traversal visits every mesh reference of every node exactly once. */
  lemma {:induction false} PreOrderLength(node: AiNode)
    ensures |PreOrder(node)| == MeshCount(node)
    decreases node
  {
    var cs := node.children;
    var orders := ChildOrders(node);
    var lengths := seq(|orders|, i requires 0 <= i < |orders| => |orders[i]|);
    var counts := ChildCounts(node);
    assert PreOrder(node) == node.meshes + Flatten<nat>(orders);
    FlattenLength<nat>(orders);
    assert |Flatten<nat>(orders)| == Sum(lengths);
    forall i | 0 <= i < |cs|
      ensures lengths[i] == counts[i]
    {
      PreOrderLength(cs[i]);
    }
    assert lengths == counts;
    assert MeshCount(node) == |node.meshes| + Sum(counts);
  }

  /** Every index the traversal yields is a valid mesh index. */
  lemma {:induction false} PreOrderInRange(node: AiNode, meshCount: nat)
    requires NodeWellFormed(node, meshCount)
    ensures AllBelow(PreOrder(node), meshCount)
    decreases node
  {
    var orders := ChildOrders(node);
    assert PreOrder(node) == node.meshes + Flatten<nat>(orders);
    forall i | 0 <= i < |orders|
      ensures AllBelow(orders[i], meshCount)
    {
      assert node.children[i] in node.children;
      PreOrderInRange(node.children[i], meshCount);
    }
    FlattenBounded(orders, meshCount);
  }

  predicate AllBelow(s: seq<nat>, bound: nat) {
    forall k :: 0 <= k < |s| ==> s[k] < bound
  }

  lemma {:induction false} FlattenBounded(xs: seq<seq<nat>>, bound: nat)
    requires forall i :: 0 <= i < |xs| ==> AllBelow(xs[i], bound)
    ensures AllBelow(Flatten<nat>(xs), bound)
  {
    if xs != [] {
      FlattenBounded(xs[..|xs| - 1], bound);
      assert Flatten<nat>(xs) == Flatten<nat>(xs[..|xs| - 1]) + xs[|xs| - 1];
    }
  }

  /** The vertex built from source vertex i: a zero normal or zero texture coordinate when absent. */
  function ConvertVertex(src: AiMesh, i: nat): Vertex
    requires i < |src.vertices| && MeshWellFormed(src, src.materialIndex + 1)
  {
    Vertex(src.vertices[i],
           if src.normals.Some? then src.normals.value[i] else ZERO3,
           if src.texCoords.Some? then src.texCoords.value[i] else ZERO2)
  }

  function TexturePaths(ts: seq<Texture>): seq<string> {
    seq(|ts|, i requires 0 <= i < |ts| => ts[i].path)
  }

  lemma TexturePathsAppend(a: seq<Texture>, b: seq<Texture>)
    ensures TexturePaths(a + b) == TexturePaths(a) + TexturePaths(b)
  {
  }

  /** The texture files of a material in the order a mesh lists them: albedo, metallic, normal, roughness. */
  function MaterialPaths(mat: AiMaterial): seq<string> {
    mat.diffuse + mat.specular + mat.height + mat.normals
  }

  /** The material scene mesh k uses. */
  function MaterialOf(scene: ImportedScene, k: nat): AiMaterial
    requires k < |scene.meshes|
  {
    var src := scene.meshes[k];
    assert src in scene.meshes;
    scene.materials[src.materialIndex]
  }

  /** Mesh m is what processing scene mesh k yields. */
  ghost predicate Converted(m: Mesh, scene: ImportedScene, k: nat)
    requires k < |scene.meshes|
  {
    var src := scene.meshes[k];
    assert src in scene.meshes;
    var mat := MaterialOf(scene, k);
    && |m.vertices| == |src.vertices|
    && (forall i :: 0 <= i < |src.vertices| ==> m.vertices[i] == ConvertVertex(src, i))
    && m.indices == Flatten(src.faces)
    && TexturePaths(m.textures) == MaterialPaths(mat)
    && m.opacityRatio == mat.opacity && m.refractionRatio == mat.refraction
  }

  /** ms[k] is what processing scene mesh idx[k] yields, for every k. */
  ghost predicate ConvertedRun(ms: seq<Mesh>, scene: ImportedScene, idx: seq<nat>) {
    && |ms| == |idx|
    && forall k :: 0 <= k < |idx| ==> idx[k] < |scene.meshes| && Converted(ms[k], scene, idx[k])
  }

  lemma ConvertedRunAppend(a: seq<Mesh>, b: seq<Mesh>, scene: ImportedScene, ia: seq<nat>, ib: seq<nat>)
    requires ConvertedRun(a, scene, ia) && ConvertedRun(b, scene, ib)
    ensures ConvertedRun(a + b, scene, ia + ib)
  {
    forall k | 0 <= k < |ia + ib|
      ensures (ia + ib)[k] < |scene.meshes| && Converted((a + b)[k], scene, (ia + ib)[k])
    {
      if k >= |ia| {
        assert (ia + ib)[k] == ib[k - |ia|] && (a + b)[k] == b[k - |a|];
      }
    }
  }

  lemma ConvertedRunExtend(before: seq<Mesh>, after: seq<Mesh>, base: nat, scene: ImportedScene,
                           idx: seq<nat>, more: seq<nat>)
    requires base <= |before| <= |after| && after[..|before|] == before
    requires ConvertedRun(before[base..], scene, idx) && ConvertedRun(after[|before|..], scene, more)
    ensures ConvertedRun(after[base..], scene, idx + more)
  {
    assert after[base..] == before[base..] + after[|before|..];
    ConvertedRunAppend(before[base..], after[|before|..], scene, idx, more);
  }

  /** No two cache entries share a path. */
  ghost predicate NoDuplicatePaths(ts: seq<Texture>) {
    forall i, j :: 0 <= i < j < |ts| ==> ts[i].path != ts[j].path
  }

  lemma NoDuplicatePathsPrefix(c: seq<Texture>, c': seq<Texture>)
    requires c <= c' && NoDuplicatePaths(c')
    ensures NoDuplicatePaths(c)
  {
    forall i, j | 0 <= i < j < |c| ensures c[i].path != c[j].path {
      assert c[i] == c'[i] && c[j] == c'[j];
    }
  }

  /**
   * The type a file of material mat is loaded with when the cache does not hold it yet: that
   * of the first slot listing it, in the order diffuse (albedo), specular (metallic),
   * height (normal), normals (roughness).
   */
  function SlotTypeOf(mat: AiMaterial, p: string): TextureType {
    if p in mat.diffuse then Albedo
    else if p in mat.specular then Metallic
    else if p in mat.height then Normal
    else Roughness
  }

  /** Every texture of `textures` is an entry of cache `after`; a path `before` held yields that entry. */
  ghost predicate TakenFromCache(textures: seq<Texture>, before: seq<Texture>, after: seq<Texture>) {
    && (forall i :: 0 <= i < |textures| ==> textures[i] in after)
    && (forall i, t :: 0 <= i < |textures| && t in before && t.path == textures[i].path ==> textures[i] == t)
  }

  /** What loading one slot (`paths`, tagged typeName) did, cache `before` becoming `after`. */
  ghost predicate SlotLoaded(textures: seq<Texture>, paths: seq<string>, typeName: TextureType,
                             before: seq<Texture>, after: seq<Texture>, loader: TextureLoader, dir: string)
  {
    && TexturePaths(textures) == paths
    && TakenFromCache(textures, before, after)
    && before <= after
    && (forall t :: t in after[|before|..] ==>
          t.textureType == typeName && t.id == loader(t.path, dir) && t.path in paths)
  }

  /** Every entry that cache `before` grew by to make `after` was loaded from a file of mat, with its first slot's type. */
  ghost predicate NewEntriesTyped(mat: AiMaterial, before: seq<Texture>, after: seq<Texture>,
                                  loader: TextureLoader, dir: string)
  {
    && before <= after
    && (forall t :: t in after[|before|..] ==>
          t.id == loader(t.path, dir) && t.path in MaterialPaths(mat) && t.textureType == SlotTypeOf(mat, t.path))
  }

  /**
   * What loading all four slots of mat did, cache `before` becoming `after`: the textures list
   * the material's files in slot order, each is a cache entry, a file the cache held yields
   * that entry, and every entry added has the loader's id and the type of its file's first slot.
   */
  ghost predicate MaterialLoaded(textures: seq<Texture>, mat: AiMaterial, before: seq<Texture>,
                                 after: seq<Texture>, loader: TextureLoader, dir: string)
  {
    && TexturePaths(textures) == MaterialPaths(mat)
    && TakenFromCache(textures, before, after)
    && NewEntriesTyped(mat, before, after, loader, dir)
  }

  /** Every path of `paths` is the path of an entry of cache c. */
  ghost predicate Cached(paths: seq<string>, c: seq<Texture>) {
    forall p :: p in paths ==> exists a :: 0 <= a < |c| && c[a].path == p
  }

  lemma CachedBySlot(textures: seq<Texture>, paths: seq<string>, before: seq<Texture>, after: seq<Texture>, c: seq<Texture>)
    requires TexturePaths(textures) == paths && TakenFromCache(textures, before, after) && after <= c
    ensures Cached(paths, c)
  {
    forall p | p in paths ensures exists a :: 0 <= a < |c| && c[a].path == p {
      var i :| 0 <= i < |paths| && paths[i] == p;
      assert textures[i] in after;
      var a :| 0 <= a < |after| && after[a] == textures[i];
      assert c[a] == after[a];
    }
  }

  /** A cache without duplicate paths grows only by paths it did not hold. */
  lemma NewEntriesUncached(before: seq<Texture>, after: seq<Texture>, earlier: seq<string>)
    requires before <= after && NoDuplicatePaths(after) && Cached(earlier, before)
    ensures forall t :: t in after[|before|..] ==> t.path !in earlier
  {
    forall t | t in after[|before|..] ensures t.path !in earlier {
      var b :| 0 <= b < |after[|before|..]| && after[|before|..][b] == t;
      forall a | 0 <= a < |before| ensures before[a].path != t.path {
        assert before[a] == after[a] && t == after[|before| + b];
      }
    }
  }

  /** One slot more: its new entries avoid the files of the earlier slots, so they get this slot's type. */
  lemma NewEntriesTypedStep(mat: AiMaterial, c0: seq<Texture>, before: seq<Texture>, after: seq<Texture>,
                            textures: seq<Texture>, paths: seq<string>, typeName: TextureType,
                            earlier: seq<string>, loader: TextureLoader, dir: string)
    requires NewEntriesTyped(mat, c0, before, loader, dir)
    requires SlotLoaded(textures, paths, typeName, before, after, loader, dir) && NoDuplicatePaths(after)
    requires Cached(earlier, before)
    requires forall p :: p in paths && p !in earlier ==> p in MaterialPaths(mat) && SlotTypeOf(mat, p) == typeName
    ensures NewEntriesTyped(mat, c0, after, loader, dir)
  {
    NewEntriesUncached(before, after, earlier);
    forall t | t in after[|c0|..]
      ensures t.id == loader(t.path, dir) && t.path in MaterialPaths(mat) && t.textureType == SlotTypeOf(mat, t.path)
    {
      var b :| 0 <= b < |after[|c0|..]| && after[|c0|..][b] == t;
      if |c0| + b < |before| {
        assert t == before[|c0|..][b];
      } else {
        assert t == after[|before|..][|c0| + b - |before|];
      }
    }
  }

  /** Two slots in a row: both take their textures from the final cache, reusing what the first cache held. */
  lemma TakenFromCacheAppend(a: seq<Texture>, b: seq<Texture>, c0: seq<Texture>, c1: seq<Texture>,
                             c2: seq<Texture>, c3: seq<Texture>)
    requires TakenFromCache(a, c0, c1) && TakenFromCache(b, c2, c3)
    requires c0 <= c2 && c1 <= c3
    ensures TakenFromCache(a + b, c0, c3)
  {
    forall i | 0 <= i < |a + b| ensures (a + b)[i] in c3 {
      if i < |a| {
        var k :| 0 <= k < |c1| && c1[k] == a[i];
        assert c3[k] == c1[k];
      } else {
        assert (a + b)[i] == b[i - |a|];
      }
    }
    forall i, t | 0 <= i < |a + b| && t in c0 && t.path == (a + b)[i].path ensures (a + b)[i] == t {
      if i >= |a| {
        var k :| 0 <= k < |c0| && c0[k] == t;
        assert c2[k] == t;
        assert (a + b)[i] == b[i - |a|];
      }
    }
  }

  /**
   * The four slots loaded one after another, diffuse, specular, height and normals, leave
   * MaterialLoaded: a file shared by several slots is loaded once, with its first slot's type.
   */
  lemma {:induction false} SlotsLoadedInOrder(mat: AiMaterial, c0: seq<Texture>, c1: seq<Texture>,
                                             c2: seq<Texture>, c3: seq<Texture>, c4: seq<Texture>,
                                             d: seq<Texture>, s: seq<Texture>, h: seq<Texture>,
                                             n: seq<Texture>, loader: TextureLoader, dir: string)
    requires SlotLoaded(d, mat.diffuse, Albedo, c0, c1, loader, dir)
    requires SlotLoaded(s, mat.specular, Metallic, c1, c2, loader, dir)
    requires SlotLoaded(h, mat.height, Normal, c2, c3, loader, dir)
    requires SlotLoaded(n, mat.normals, Roughness, c3, c4, loader, dir)
    requires NoDuplicatePaths(c4)
    ensures MaterialLoaded(d + s + h + n, mat, c0, c4, loader, dir)
  {
    TexturePathsAppend(d, s);
    TexturePathsAppend(d + s, h);
    TexturePathsAppend(d + s + h, n);
    NoDuplicatePathsPrefix(c3, c4);
    NoDuplicatePathsPrefix(c2, c3);
    NoDuplicatePathsPrefix(c1, c2);
    TakenFromCacheAppend(d, s, c0, c1, c1, c2);
    TakenFromCacheAppend(d + s, h, c0, c2, c2, c3);
    TakenFromCacheAppend(d + s + h, n, c0, c3, c3, c4);
    assert NewEntriesTyped(mat, c0, c0, loader, dir);
    NewEntriesTypedStep(mat, c0, c0, c1, d, mat.diffuse, Albedo, [], loader, dir);
    CachedBySlot(d, mat.diffuse, c0, c1, c1);
    NewEntriesTypedStep(mat, c0, c1, c2, s, mat.specular, Metallic, mat.diffuse, loader, dir);
    CachedBySlot(d + s, mat.diffuse + mat.specular, c0, c2, c2);
    NewEntriesTypedStep(mat, c0, c2, c3, h, mat.height, Normal, mat.diffuse + mat.specular, loader, dir);
    CachedBySlot(d + s + h, mat.diffuse + mat.specular + mat.height, c0, c3, c3);
    NewEntriesTypedStep(mat, c0, c3, c4, n, mat.normals, Roughness,
                        mat.diffuse + mat.specular + mat.height, loader, dir);
  }

  /**
   * After MaterialLoaded, a texture whose file the cache did not hold was loaded with the
   * loader's id and its file's first slot type; one whose file it held is that cache entry.
   */
  lemma UncachedTextureTyped(textures: seq<Texture>, mat: AiMaterial, before: seq<Texture>,
                             after: seq<Texture>, loader: TextureLoader, dir: string)
    requires MaterialLoaded(textures, mat, before, after, loader, dir) && NoDuplicatePaths(after)
    ensures forall i :: 0 <= i < |textures| && (forall t :: t in before ==> t.path != textures[i].path) ==>
      textures[i].id == loader(textures[i].path, dir) && textures[i].textureType == SlotTypeOf(mat, textures[i].path)
  {
    forall i | 0 <= i < |textures| && (forall t :: t in before ==> t.path != textures[i].path)
      ensures textures[i].id == loader(textures[i].path, dir)
      ensures textures[i].textureType == SlotTypeOf(mat, textures[i].path)
    {
      var a :| 0 <= a < |after| && after[a] == textures[i];
      assert forall k :: 0 <= k < |before| ==> after[k] == before[k] && before[k].path != textures[i].path;
      assert textures[i] == after[|before|..][a - |before|];
    }
  }

  /** The vertex loop of processMesh: one vertex per source vertex, in order. */
  method CollectVertices(src: AiMesh) returns (vertices: seq<Vertex>)
    requires MeshWellFormed(src, src.materialIndex + 1)
    ensures |vertices| == |src.vertices|
    ensures forall j :: 0 <= j < |src.vertices| ==> vertices[j] == ConvertVertex(src, j)
  {
    vertices := [];
    var i := 0;
    while i < |src.vertices|
      invariant 0 <= i <= |src.vertices|
      invariant |vertices| == i
      invariant forall j :: 0 <= j < i ==> vertices[j] == ConvertVertex(src, j)
    {
      var normal := if src.normals.Some? then src.normals.value[i] else ZERO3;
      var texCoords := if src.texCoords.Some? then src.texCoords.value[i] else ZERO2;
      vertices := vertices + [Vertex(src.vertices[i], normal, texCoords)];
      i := i + 1;
    }
  }

  /** The face loop of processMesh: every face's indices, face by face, in order. */
  method CollectIndices(faces: seq<seq<nat>>) returns (indices: seq<nat>)
    ensures indices == Flatten(faces)
  {
    indices := [];
    var i := 0;
    while i < |faces|
      invariant 0 <= i <= |faces|
      invariant indices == Flatten(faces[..i])
    {
      var face := faces[i];
      var j := 0;
      while j < |face|
        invariant 0 <= j <= |face|
        invariant indices == Flatten(faces[..i]) + face[..j]
      {
        indices := indices + [face[j]];
        j := j + 1;
      }
      assert faces[..i + 1][..i] == faces[..i];
      i := i + 1;
    }
    assert faces[..|faces|] == faces;
  }

  class Model {
    const directory: string
    var meshes: seq<Mesh>
    var texturesLoaded: seq<Texture>

    ghost predicate Valid()
      reads this
    {
      NoDuplicatePaths(texturesLoaded)
    }

    /**
     * Collects the meshes of an imported scene; the directory is the path's directory part.
     * Import and its failure check are done by Load.
     */
    constructor (path: string, scene: ImportedScene, textureFromFile: TextureLoader)
      requires scene.root.Some?
      ensures Valid() && directory == DirOf(path)
      ensures ConvertedRun(meshes, scene, PreOrder(scene.root.value))
    {
      directory := DirOf(path);
      meshes := [];
      texturesLoaded := [];
      new;
      ProcessNode(scene.root.value, scene, textureFromFile);
      assert meshes[0..] == meshes;
    }

    /**
     * Imports the file and builds the model, or fails as the importer did. Meshes are gathered in
     * pre-order, one per mesh reference of every node.
     */
    static method Load(path: string, importer: Importer, textureFromFile: TextureLoader) returns (r: Option<Model>)
      ensures r.Some? <==> !ImportFailed(importer(path))
      ensures r.Some? ==> fresh(r.value) && r.value.Valid() && r.value.directory == DirOf(path)
                          && |r.value.meshes| == MeshCount(importer(path).value.root.value)
                          && ConvertedRun(r.value.meshes, importer(path).value, PreOrder(importer(path).value.root.value))
    {
      var scene := importer(path);
      if scene.None? || scene.value.incomplete || scene.value.root.None? {
        return None;
      }
      var model := new Model(path, scene.value, textureFromFile);
      PreOrderLength(scene.value.root.value);
      return Some(model);
    }

    /** Appends the meshes of node's subtree in pre-order. */
    method ProcessNode(node: AiNode, scene: ImportedScene, textureFromFile: TextureLoader)
      requires Valid() && NodeWellFormed(node, |scene.meshes|)
      modifies this
      ensures Valid()
      ensures |old(meshes)| <= |meshes| && meshes[..|old(meshes)|] == old(meshes)
      ensures ConvertedRun(meshes[|old(meshes)|..], scene, PreOrder(node))
      decreases node, 1
    {
      ProcessNodeMeshes(node, scene, textureFromFile);
      ghost var middle := meshes;
      ProcessChildren(node, scene, textureFromFile);
      ConvertedRunExtend(middle, meshes, |old(meshes)|, scene, node.meshes, Flatten<nat>(ChildOrders(node)));
      assert PreOrder(node) == node.meshes + Flatten<nat>(ChildOrders(node));
    }

    /** Appends the meshes of each child's subtree, child by child. */
    method ProcessChildren(node: AiNode, scene: ImportedScene, textureFromFile: TextureLoader)
      requires Valid() && NodeWellFormed(node, |scene.meshes|)
      modifies this
      ensures Valid()
      ensures |old(meshes)| <= |meshes| && meshes[..|old(meshes)|] == old(meshes)
      ensures ConvertedRun(meshes[|old(meshes)|..], scene, Flatten<nat>(ChildOrders(node)))
      decreases node, 0
    {
      ghost var orders := ChildOrders(node);
      var base := |meshes|;
      var i := 0;
      assert meshes[base..] == [];
      while i < |node.children|
        invariant 0 <= i <= |node.children|
        invariant Valid()
        invariant base <= |meshes| && meshes[..base] == old(meshes)
        invariant ConvertedRun(meshes[base..], scene, Flatten<nat>(orders[..i]))
      {
        assert node.children[i] in node.children;
        ghost var before := meshes;
        ProcessNode(node.children[i], scene, textureFromFile);
        ConvertedRunExtend(before, meshes, base, scene, Flatten<nat>(orders[..i]), orders[i]);
        FlattenPrefixStep(orders, i);
        i := i + 1;
      }
      assert orders[..|node.children|] == orders;
    }

    /** Appends one mesh per mesh reference of the node itself, in order. */
    method ProcessNodeMeshes(node: AiNode, scene: ImportedScene, textureFromFile: TextureLoader)
      requires Valid() && NodeWellFormed(node, |scene.meshes|)
      modifies this
      ensures Valid()
      ensures |old(meshes)| <= |meshes| && meshes[..|old(meshes)|] == old(meshes)
      ensures ConvertedRun(meshes[|old(meshes)|..], scene, node.meshes)
    {
      var base := |meshes|;
      var i := 0;
      while i < |node.meshes|
        invariant 0 <= i <= |node.meshes|
        invariant Valid()
        invariant base <= |meshes| && meshes[..base] == old(meshes)
        invariant ConvertedRun(meshes[base..], scene, node.meshes[..i])
      {
        var mesh := ProcessMesh(scene, node.meshes[i], textureFromFile);
        ConvertedRunAppend(meshes[base..], [mesh], scene, node.meshes[..i], [node.meshes[i]]);
        assert node.meshes[..i + 1] == node.meshes[..i] + [node.meshes[i]];
        assert (meshes + [mesh])[base..] == meshes[base..] + [mesh];
        meshes := meshes + [mesh];
        i := i + 1;
      }
      assert node.meshes[..i] == node.meshes;
    }

    /** Builds one mesh: its vertices, its indices face by face, and its textures slot by slot. */
    method ProcessMesh(scene: ImportedScene, k: nat, textureFromFile: TextureLoader) returns (mesh: Mesh)
      requires Valid() && k < |scene.meshes|
      modifies this
      ensures Valid() && meshes == old(meshes)
      ensures Converted(mesh, scene, k)
      ensures MaterialLoaded(mesh.textures, MaterialOf(scene, k), old(texturesLoaded), texturesLoaded,
                             textureFromFile, directory)
    {
      var src := scene.meshes[k];
      assert src in scene.meshes;
      var vertices := CollectVertices(src);
      var indices := CollectIndices(src.faces);
      var material := MaterialOf(scene, k);
      var textures := LoadMeshTextures(material, textureFromFile);
      mesh := Mesh(vertices, indices, textures, material.opacity, material.refraction);
    }

    /**
     * The texture part of processMesh: the material's four slots in order, diffuse as albedo,
     * specular as metallic, height as normal and normals as roughness, through the cache.
     */
    method LoadMeshTextures(material: AiMaterial, textureFromFile: TextureLoader) returns (textures: seq<Texture>)
      requires Valid()
      modifies this
      ensures Valid() && meshes == old(meshes)
      ensures MaterialLoaded(textures, material, old(texturesLoaded), texturesLoaded, textureFromFile, directory)
    {
      ghost var c0 := texturesLoaded;
      var diffuseMaps := LoadMaterialTextures(material.diffuse, Albedo, textureFromFile);
      textures := diffuseMaps;
      ghost var c1 := texturesLoaded;
      var specularMaps := LoadMaterialTextures(material.specular, Metallic, textureFromFile);
      textures := textures + specularMaps;
      ghost var c2 := texturesLoaded;
      var normalMaps := LoadMaterialTextures(material.height, Normal, textureFromFile);
      textures := textures + normalMaps;
      ghost var c3 := texturesLoaded;
      var roughnessMaps := LoadMaterialTextures(material.normals, Roughness, textureFromFile);
      textures := textures + roughnessMaps;
      SlotsLoadedInOrder(material, c0, c1, c2, c3, texturesLoaded, diffuseMaps, specularMaps,
                         normalMaps, roughnessMaps, textureFromFile, directory);
    }

    /**
     * The textures of one material slot, in slot order. A path already in the cache yields the
     * cached texture; a new path is loaded once, tagged with typeName and added to the cache.
     */
    method LoadMaterialTextures(paths: seq<string>, typeName: TextureType, textureFromFile: TextureLoader)
      returns (textures: seq<Texture>)
      requires Valid()
      modifies this
      ensures Valid() && meshes == old(meshes)
      ensures TexturePaths(textures) == paths
      ensures forall i :: 0 <= i < |textures| ==> textures[i] in texturesLoaded
      ensures forall i, t :: 0 <= i < |paths| && t in old(texturesLoaded) && t.path == paths[i] ==> textures[i] == t
      ensures old(texturesLoaded) <= texturesLoaded
      ensures forall t :: t in texturesLoaded[|old(texturesLoaded)|..] ==>
        t.textureType == typeName && t.id == textureFromFile(t.path, directory) && t.path in paths
    {
      textures := [];
      var i := 0;
      while i < |paths|
        invariant 0 <= i <= |paths|
        invariant Valid() && meshes == old(meshes)
        invariant |textures| == i && forall j :: 0 <= j < i ==> textures[j].path == paths[j]
        invariant forall j :: 0 <= j < i ==> textures[j] in texturesLoaded
        invariant forall j, t :: 0 <= j < i && t in old(texturesLoaded) && t.path == paths[j] ==> textures[j] == t
        invariant old(texturesLoaded) <= texturesLoaded
        invariant forall t :: t in texturesLoaded[|old(texturesLoaded)|..] ==>
          t.textureType == typeName && t.id == textureFromFile(t.path, directory) && t.path in paths
      {
        var str := paths[i];
        var skip := false;
        var j := 0;
        while j < |texturesLoaded|
          invariant 0 <= j <= |texturesLoaded|
          invariant forall k :: 0 <= k < j ==> texturesLoaded[k].path != str
        {
          if texturesLoaded[j].path == str {
            textures := textures + [texturesLoaded[j]];
            skip := true;
            break;
          }
          j := j + 1;
        }
        if !skip {
          var texture := Texture(textureFromFile(str, directory), typeName, str);
          textures := textures + [texture];
          texturesLoaded := texturesLoaded + [texture];
        }
        i := i + 1;
      }
    }
  }
}
